// The session token gate shared by Login, Navbar, App and the admin context: a token
// held in memory and mirrored in the persisted `aToken` key. An empty token means
// "not logged in".

module Session {
  import opened Platform

  datatype Screen = AdminShell | LoginScreen

  /** App renders the admin shell when the token is truthy and the Login screen otherwise. */
  function Gate(token: string): (s: Screen)
    ensures s == AdminShell <==> token != ""
  {
    if token != "" then AdminShell else LoginScreen
  }

  /** The token the context starts with: the persisted value when it is truthy, else ''. */
  function InitialToken(stored: Option<string>): (t: string)
    ensures stored.None? ==> t == ""
    ensures stored.Some? ==> t == stored.value
  {
    if stored.Some? && stored.value != "" then stored.value else ""
  }

  /** The in-memory token together with the persisted entry. */
  datatype State = State(token: string, stored: Option<string>)

  /** What a page reload would start from agrees with the token in memory. */
  predicate Mirrored(s: State)
  {
    s.token == InitialToken(s.stored)
  }

  /** Login's submit handler: on a success flag the returned token is persisted and then
    * held in memory; a reported failure or a rejected request changes neither. */
  function AfterLogin(s: State, o: Outcome<string>): (s': State)
    ensures o.Success? ==> s' == State(o.value, Some(o.value))
    ensures !o.Success? ==> s' == s
  {
    if o.Success? then State(o.value, Some(o.value)) else s
  }

  /** Navbar's logout: only a truthy token is cleared, in memory and in storage. */
  function AfterLogout(s: State): (s': State)
    ensures s'.token == ""
    ensures s.token != "" ==> s'.stored == None
    ensures s.token == "" ==> s' == s
  {
    if s.token != "" then State("", None) else s
  }

  /** Logging out twice has the effect of logging out once. */
  lemma LogoutIdempotent(s: State)
    ensures AfterLogout(AfterLogout(s)) == AfterLogout(s)
  {
  }

  /** After logout the Login screen is shown. */
  lemma LogoutShowsLogin(s: State)
    ensures Gate(AfterLogout(s).token) == LoginScreen
  {
  }

  /** Memory and storage stay in step through login and logout, starting from a reload. */
  lemma MirrorPreserved(s: State, o: Outcome<string>)
    requires Mirrored(s)
    ensures Mirrored(AfterLogin(s, o))
    ensures Mirrored(AfterLogout(s))
  {
  }

  /** A successful login with a non-empty token opens the admin shell; a successful login
    * that returns an empty token leaves the Login screen showing. */
  lemma LoginOpensShell(s: State, o: Outcome<string>)
    requires o.Success?
    ensures Gate(AfterLogin(s, o).token) == AdminShell <==> o.value != ""
  {
  }
}
