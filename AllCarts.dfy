// The carts screen: deleting a cart after a confirmation and changing a cart's status,
// each followed by a notification to the cart's owner and a refetch of the carts.

module AllCarts {
  import opened Platform
  import opened Text
  import opened AdminContext

  /** The opening shared by both notifications about a cart. */
  function CartHead(cart: Cart): string
  {
    "The cart (id: #" + cart.id + ") that has " + Decimal(cart.totalItems) + " item(s) of " + cart.itemName
  }

  /** The notification sent to the owner after the cart was deleted. */
  function DeletedText(cart: Cart): string
  {
    CartHead(cart) + " you ordered has been deleted by admin."
  }

  /** The notification sent to the owner after the cart's status changed. */
  function StatusText(cart: Cart, newStatus: string): string
  {
    CartHead(cart) + " was updated to " + newStatus + " by admin."
  }

  /** Both notifications name the cart, its number of items and the item. */
  lemma CartHeadMentions(cart: Cart, tail: string)
    ensures Contains(CartHead(cart) + tail, cart.id)
    ensures Contains(CartHead(cart) + tail, Decimal(cart.totalItems))
    ensures Contains(CartHead(cart) + tail, cart.itemName)
  {
    var n := Decimal(cart.totalItems);
    assert CartHead(cart) + tail == "The cart (id: #" + cart.id + (") that has " + n + " item(s) of " + cart.itemName + tail);
    ContainsPart("The cart (id: #", cart.id, ") that has " + n + " item(s) of " + cart.itemName + tail);
    assert CartHead(cart) + tail == "The cart (id: #" + cart.id + ") that has " + n + (" item(s) of " + cart.itemName + tail);
    ContainsPart("The cart (id: #" + cart.id + ") that has ", n, " item(s) of " + cart.itemName + tail);
    ContainsPart("The cart (id: #" + cart.id + ") that has " + n + " item(s) of ", cart.itemName, tail);
  }

  /** The status notification names the cart, the item and the new status. */
  lemma StatusTextMentions(cart: Cart, newStatus: string)
    ensures var t := StatusText(cart, newStatus);
      Contains(t, cart.id) && Contains(t, cart.itemName) && Contains(t, Decimal(cart.totalItems))
      && Contains(t, newStatus)
  {
    var tail := " was updated to " + newStatus + " by admin.";
    assert StatusText(cart, newStatus) == CartHead(cart) + tail;
    CartHeadMentions(cart, tail);
    assert StatusText(cart, newStatus) == CartHead(cart) + " was updated to " + newStatus + " by admin.";
    ContainsPart(CartHead(cart) + " was updated to ", newStatus, " by admin.");
  }

  /** The deletion notification names the cart and the item. */
  lemma DeletedTextMentions(cart: Cart)
    ensures var t := DeletedText(cart);
      Contains(t, cart.id) && Contains(t, cart.itemName) && Contains(t, Decimal(cart.totalItems))
  {
    CartHeadMentions(cart, " you ordered has been deleted by admin.");
  }

  /** For one cart, the status notification determines the status it announces. */
  lemma {:induction false} StatusTextInjective(cart: Cart, a: string, b: string)
    requires StatusText(cart, a) == StatusText(cart, b)
    ensures a == b
  {
    var head := CartHead(cart) + " was updated to ";
    var ta := StatusText(cart, a);
    var tb := StatusText(cart, b);
    assert ta == head + a + " by admin.";
    assert tb == head + b + " by admin.";
    assert |a| == |b|;
    assert a == ta[|head|..|head| + |a|];
    assert b == tb[|head|..|head| + |b|];
  }

  class AllCartsView {
    const store: AdminStore
    /** Flipped after every successful change; the carts are refetched whenever it flips. */
    var changeCart: bool
    /** The cart whose delete confirmation is open. */
    var selectedCart: Option<Cart>

    constructor (store: AdminStore)
      ensures this.store == store
      ensures !changeCart && selectedCart == None
    {
      this.store := store;
      changeCart := false;
      selectedCart := None;
    }

    /** The effect that runs on mount and whenever the token or `changeCart` changes: the
      * carts are fetched only while a token is held. */
    method FetchCarts(o: Outcome<seq<Cart>>)
      modifies store, store.browser
      ensures store.aToken != "" ==>
        && store.State() == (if o.Success? then old(store.State()).(carts := o.value) else old(store.State()))
        && store.Effects([Request.AllCarts], if o.Exception? then [Error(o.message)] else [])
      ensures store.aToken == "" ==> store.State() == old(store.State()) && store.Effects([], [])
    {
      if store.aToken != "" {
        store.GetCarts(o);
      }
    }

    /** The delete button of a row opens the confirmation for that cart. */
    method HandleDeleteClick(cart: Cart)
      modifies this
      ensures selectedCart == Some(cart) && changeCart == old(changeCart)
    {
      selectedCart := Some(cart);
    }

    /** The confirmation's cancel button. */
    method CancelDelete()
      modifies this
      ensures selectedCart == None && changeCart == old(changeCart)
    {
      selectedCart := None;
    }

    /** The confirmation's delete button. The cart is removed, and its owner is notified
      * even when the removal failed, because `removeCart` swallows its errors; then the
      * confirmation closes, `changeCart` flips and a success toast follows. Without an
      * open confirmation nothing happens. */
    method ConfirmDelete(removeO: Outcome<()>, notifyO: Call<()>)
      modifies this, store, store.browser
      ensures old(selectedCart).None? ==>
        && selectedCart == None && changeCart == old(changeCart)
        && store.State() == old(store.State()) && store.Effects([], [])
      ensures old(selectedCart).Some? ==>
        var cart := old(selectedCart).value;
        && selectedCart == None && changeCart == !old(changeCart)
        && store.State() == AfterRemoveCart(old(store.State()), cart.id, removeO)
        && store.Effects([DeleteCart(cart.id), CreateNotification(cart.userId, DeletedText(cart))],
             RemoveCartNotices(removeO) + NotifyNotices(notifyO) + [Info("Delete successfully")])
    {
      if selectedCart.Some? {
        var cart := selectedCart.value;
        store.RemoveCart(cart.id, removeO);
        store.NotifyChangeStatusCart(cart.userId, DeletedText(cart), notifyO);
        changeCart := !changeCart;
        selectedCart := None;
        store.browser.Toast(Info("Delete successfully"));
      }
    }

    /** The status select of a row: the owner is notified and the carts refetched only
      * when the backend reports success. */
    method HandleStatusChange(cart: Cart, newStatus: string, statusO: Outcome<string>, notifyO: Call<()>)
      modifies this, store.browser
      ensures selectedCart == old(selectedCart)
      ensures changeCart == (if statusO.Success? then !old(changeCart) else old(changeCart))
      ensures statusO.Success? ==>
        store.Effects([Request.ChangeCartStatus(cart.id, newStatus), CreateNotification(cart.userId, StatusText(cart, newStatus))],
          [CartStatusNotice(statusO)] + NotifyNotices(notifyO))
      ensures !statusO.Success? ==>
        store.Effects([Request.ChangeCartStatus(cart.id, newStatus)], [CartStatusNotice(statusO)])
    {
      var success := store.ChangeCartStatus(cart.id, newStatus, statusO);
      if success {
        store.NotifyChangeStatusCart(cart.userId, StatusText(cart, newStatus), notifyO);
        changeCart := !changeCart;
      }
    }
  }
}
