// The login form: the credentials are posted, and a token returned with a success flag
// is persisted and then held by the admin context.

module Login {
  import opened Platform
  import Session
  import opened AdminContext

  class LoginForm {
    const store: AdminStore
    var email: string
    var password: string

    constructor (store: AdminStore)
      ensures this.store == store && email == "" && password == ""
    {
      this.store := store;
      email := "";
      password := "";
    }

    method SetEmail(text: string)
      modifies this
      ensures email == text && password == old(password)
    {
      email := text;
    }

    method SetPassword(text: string)
      modifies this
      ensures password == text && email == old(email)
    {
      password := text;
    }

    /** The token gate as Login sees it. */
    function Tokens(): Session.State
      reads this, store, store.browser
    {
      Session.State(store.aToken, store.browser.stored)
    }

    /** `onSubmitHandler`. The credentials are always posted. With a success flag the
      * token is persisted and then held in memory. A reported failure toasts its message
      * and then the handler reads an undeclared `error`, whose ReferenceError is caught
      * and toasted too. A rejected request toasts its message. Only the token changes. */
    method Submit(o: Outcome<string>)
      modifies store, store.browser
      ensures Tokens() == Session.AfterLogin(old(Tokens()), o)
      ensures store.State() == old(store.State()).(aToken := store.aToken)
      ensures store.browser.location == old(store.browser.location)
      ensures store.browser.sent == old(store.browser.sent) + [Request.Login(email, password)]
      ensures store.browser.toasts == old(store.browser.toasts) +
        match o
        case Success(_) => [Info("Login successfully !")]
        case Failure(m) => [Error(m), Error("error is not defined")]
        case Exception(m) => [Error(m)]
    {
      store.browser.Send(Request.Login(email, password));
      match o
      case Success(token) =>
        store.browser.Toast(Info("Login successfully !"));
        store.browser.Persist(Some(token));
        store.aToken := token;
      case Failure(m) =>
        store.browser.Toast(Error(m));
        store.browser.Toast(Error("error is not defined"));
      case Exception(m) =>
        store.browser.Toast(Error(m));
    }
  }
}
