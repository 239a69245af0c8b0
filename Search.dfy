// The search box in the navigation bar: a local term that is trimmed and published as
// the shared search term, which in turn filters the product list.

module Search {
  import opened Platform
  import opened Text
  import opened AdminContext

  class SearchBox {
    const store: AdminStore
    /** The text in the input. */
    var searchTerm: string

    /** Mounting copies the shared search term into the input. */
    constructor (store: AdminStore)
      ensures this.store == store && searchTerm == store.search
    {
      this.store := store;
      searchTerm := store.search;
    }

    /** Typing changes only the input. */
    method Input(text: string)
      modifies this
      ensures searchTerm == text
    {
      searchTerm := text;
    }

    /** The "Search" button. A blank term does nothing. Otherwise the trimmed term becomes
      * the shared search term and the router moves to the product list; the effect that
      * watches the shared term then copies it back into the input, which happens only
      * when the shared term actually changed. */
    method Click()
      modifies this, store, store.browser
      ensures IsBlank(old(searchTerm)) ==>
        && searchTerm == old(searchTerm) && store.State() == old(store.State())
        && store.Effects([], [])
      ensures !IsBlank(old(searchTerm)) ==>
        var trimmed := Trim(old(searchTerm));
        && store.State() == old(store.State()).(search := trimmed)
        && searchTerm == (if trimmed != old(store.search) then trimmed else old(searchTerm))
        && store.browser.location == "/products-list"
        && store.browser.sent == old(store.browser.sent) && store.browser.toasts == old(store.browser.toasts)
        && store.browser.stored == old(store.browser.stored)
    {
      var trimmed := Trim(searchTerm);
      if trimmed != "" {
        var changed := trimmed != store.search;
        store.search := trimmed;
        store.browser.Navigate("/products-list");
        if changed {
          Sync();
        }
      }
    }

    /** The effect `setSearchTerm(search || '')`, run whenever the shared term changes. */
    method Sync()
      modifies this
      ensures searchTerm == store.search
    {
      searchTerm := store.search;
    }
  }

  /** A published search term is never blank and has no surrounding whitespace, so
    * publishing it again from the input changes nothing. */
  lemma PublishedTermIsStable(term: string)
    requires !IsBlank(term)
    ensures var t := Trim(term);
      t != "" && !IsSpace(t[0]) && !IsSpace(t[|t| - 1]) && Trim(t) == t
  {
    TrimIdempotent(term);
  }
}
