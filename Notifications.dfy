// The notifications screen: every notification sent to users, a detail view, and a
// delete confirmation that names the notification by its position in the list.

module Notifications {
  import opened Platform
  import opened Sequences
  import opened AdminContext

  datatype Notification = Notification(id: string, userId: string, text: string)

  /** `notifications.findIndex(n => n._id === id)`: the first index holding that id, or -1. */
  function FindIndex(ns: seq<Notification>, id: string): (r: int)
    ensures -1 <= r < |ns|
    ensures r == -1 <==> forall j :: 0 <= j < |ns| ==> ns[j].id != id
    ensures r >= 0 ==> ns[r].id == id && forall j :: 0 <= j < r ==> ns[j].id != id
  {
    if ns == [] then -1
    else if ns[0].id == id then 0
    else
      var k := FindIndex(ns[1..], id);
      assert forall j :: 1 <= j < |ns| ==> ns[j] == ns[1..][j - 1];
      if k == -1 then -1 else k + 1
  }

  /** The number the confirmation shows, `findIndex(...) + 1`: the one-based position of
    * the first notification with that id, and 0 when none has it. */
  function Position(ns: seq<Notification>, id: string): (r: nat)
    ensures r <= |ns|
    ensures r == 0 <==> forall j :: 0 <= j < |ns| ==> ns[j].id != id
    ensures r > 0 ==> ns[r - 1].id == id && forall j :: 0 <= j < r - 1 ==> ns[j].id != id
  {
    FindIndex(ns, id) + 1
  }

  /** `prev.filter(n => n._id !== id)`. */
  function WithoutNotification(ns: seq<Notification>, id: string): (r: seq<Notification>)
    ensures forall n :: n in r <==> n in ns && n.id != id
  {
    Filter(ns, (n: Notification) => n.id != id)
  }

  /** The remaining notifications occur as often as before, and none has the deleted id. */
  lemma WithoutNotificationCounts(ns: seq<Notification>, id: string)
    ensures forall n :: multiset(WithoutNotification(ns, id))[n] == if n.id != id then multiset(ns)[n] else 0
  {
    FilterMultiplicity(ns, (n: Notification) => n.id != id);
  }

  /** Deleting keeps the other notifications in their order. */
  lemma WithoutNotificationKeepsOrder(ns: seq<Notification>, id: string)
    ensures IsSubsequence(WithoutNotification(ns, id), ns)
  {
    FilterIsSubsequence(ns, (n: Notification) => n.id != id);
  }

  /** Once deleted, the id has no position in the list any more. */
  lemma DeletedHasNoPosition(ns: seq<Notification>, id: string)
    ensures Position(WithoutNotification(ns, id), id) == 0
  {
    var r := WithoutNotification(ns, id);
    forall j | 0 <= j < |r| ensures r[j].id != id {
      assert r[j] in r;
    }
  }

  class NotificationsView {
    const store: AdminStore
    var notifications: seq<Notification>
    /** The notification shown in the detail view. */
    var selectedNotification: Option<Notification>
    /** The notification whose delete confirmation is open. */
    var confirmDelete: Option<Notification>

    constructor (store: AdminStore)
      ensures this.store == store
      ensures notifications == [] && selectedNotification == None && confirmDelete == None
    {
      this.store := store;
      notifications := [];
      selectedNotification := None;
      confirmDelete := None;
    }

    /** The mount effect, which runs whether or not a token is held: the list is replaced
      * by the response's data; a rejection is only toasted. */
    method FetchAllNotifications(o: Call<seq<Notification>>)
      modifies this, store.browser
      ensures notifications == if o.Returned? then o.value else old(notifications)
      ensures selectedNotification == old(selectedNotification) && confirmDelete == old(confirmDelete)
      ensures store.Effects([AllNotifications], if o.Threw? then [Error(o.message)] else [])
    {
      store.browser.Send(AllNotifications);
      match o
      case Returned(ns) => notifications := ns;
      case Threw(m) => store.browser.Toast(Error(m));
    }

    /** A row's "Detail" button opens the detail of its notification. */
    method ShowDetail(n: Notification)
      modifies this
      ensures selectedNotification == Some(n)
      ensures notifications == old(notifications) && confirmDelete == old(confirmDelete)
    {
      selectedNotification := Some(n);
    }

    /** The detail view's close button. */
    method CloseDetail()
      modifies this
      ensures selectedNotification == None
      ensures notifications == old(notifications) && confirmDelete == old(confirmDelete)
    {
      selectedNotification := None;
    }

    /** "Delete" opens the confirmation for a notification. */
    method AskDelete(n: Notification)
      modifies this
      ensures confirmDelete == Some(n)
      ensures notifications == old(notifications) && selectedNotification == old(selectedNotification)
    {
      confirmDelete := Some(n);
    }

    /** The confirmation's cancel button. */
    method CancelDelete()
      modifies this
      ensures confirmDelete == None
      ensures notifications == old(notifications) && selectedNotification == old(selectedNotification)
    {
      confirmDelete := None;
    }

    /** The number in "Are you sure you want to delete notification #…?". */
    method ConfirmationNumber() returns (k: nat)
      requires confirmDelete.Some?
      ensures k == Position(notifications, confirmDelete.value.id)
    {
      k := Position(notifications, confirmDelete.value.id);
    }

    /** The confirmation's delete button: without an open confirmation nothing happens;
      * once the request resolves every notification with that id is dropped and the
      * confirmation closes; a rejection is toasted and changes nothing. */
    method DeleteNotification(o: Call<()>)
      modifies this, store.browser
      ensures selectedNotification == old(selectedNotification)
      ensures old(confirmDelete).None? ==>
        && notifications == old(notifications) && confirmDelete == None && store.Effects([], [])
      ensures old(confirmDelete).Some? ==>
        var id := old(confirmDelete).value.id;
        if o.Returned? then
          && notifications == WithoutNotification(old(notifications), id) && confirmDelete == None
          && store.Effects([Request.DeleteNotification(id)], [Info("Delete successfully")])
        else
          && notifications == old(notifications) && confirmDelete == old(confirmDelete)
          && store.Effects([Request.DeleteNotification(id)], [Error(o.message)])
    {
      if confirmDelete.None? {
        return;
      }
      var id := confirmDelete.value.id;
      store.browser.Send(Request.DeleteNotification(id));
      match o {
        case Returned(_) =>
          notifications := WithoutNotification(notifications, id);
          store.browser.Toast(Info("Delete successfully"));
          confirmDelete := None;
        case Threw(m) =>
          store.browser.Toast(Error(m));
      }
    }
  }
}
