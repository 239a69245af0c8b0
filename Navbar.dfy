// The navigation bar's logout button.

module Navbar {
  import opened Platform
  import Session
  import opened AdminContext

  /** `logout`: the router goes to '/', and a truthy token is cleared in memory and removed
    * from storage; with no token only the route changes. */
  method Logout(store: AdminStore)
    modifies store, store.browser
    ensures Session.State(store.aToken, store.browser.stored) ==
      Session.AfterLogout(old(Session.State(store.aToken, store.browser.stored)))
    ensures store.State() == old(store.State()).(aToken := store.aToken)
    ensures store.browser.location == "/"
    ensures store.browser.sent == old(store.browser.sent) && store.browser.toasts == old(store.browser.toasts)
  {
    store.browser.Navigate("/");
    if store.aToken != "" {
      store.aToken := "";
      store.browser.Persist(None);
    }
  }
}
