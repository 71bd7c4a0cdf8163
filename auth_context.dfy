/**
 * The session state of the front end (frontend/src/contexts/AuthContext.tsx):
 * `AuthProvider` holds `isAuthenticated` and `user` and sequences the mount
 * restore, `checkAuth`, `login`, `logout` and `register` over the API client;
 * `withAuth` decides whether a protected view is shown.
 *
 * Awaited calls are modelled as running to completion in order: each method
 * takes the replies of the requests it makes.
 */
module AuthContext {
  import opened Wrappers
  import opened Client

  /** What `login` and `register` resolve to: `{ success, error? }`. */
  datatype LoginResult = LoginResult(success: bool, error: Option<string>)

  /**
   * The result `login` reports, which depends on the token endpoint's reply
   * alone: success whenever a token came back, even if the profile fetch that
   * follows fails.
   */
  function LoginOutcome(reply: Reply<string>): (r: LoginResult)
    ensures r.success <==> reply.Ok?
    ensures r.success ==> r.error.None?
    ensures !r.success ==> r.error == Some(Shape(reply, LOGIN_FAILED).error)
  {
    match Shape(reply, LOGIN_FAILED)
    case Data(_) => LoginResult(true, None)
    case Error(e) => LoginResult(false, Some(e))
  }

  /** The client state after `checkAuth`: a failed profile fetch clears the token. */
  function Checked(s: Session, browser: bool, reply: Reply<User>): Session {
    var t := RoundTrip(s, browser, reply);
    if reply.Ok? then t else Cleared(t, browser)
  }

  /** The user after `checkAuth`: the fetched profile, or null. */
  function CheckedUser(reply: Reply<User>): Option<User> {
    if reply.Ok? then Some(reply.body) else None
  }

  /** The client state after `login`. */
  function LoggedIn(s: Session, browser: bool, loginReply: Reply<string>, meReply: Reply<User>): Session {
    if loginReply.Ok? then Checked(Saved(RoundTrip(s, browser, loginReply), browser, loginReply.body), browser, meReply)
    else RoundTrip(s, browser, loginReply)
  }

  /** The user after `login`: unchanged when the token endpoint refused. */
  function LoggedInUser(before: Option<User>, loginReply: Reply<string>, meReply: Reply<User>): Option<User> {
    if loginReply.Ok? then CheckedUser(meReply) else before
  }

  /** Whether the mount effect runs `checkAuth`: only when `getToken` yields a truthy token. */
  predicate RestoresOnMount(s: Session, browser: bool) {
    Present(Sending(s, browser))
  }

  /** A failed `checkAuth` leaves neither a cached nor a stored token. */
  lemma FailedCheckLeavesNoToken(s: Session, browser: bool, reply: Reply<User>)
    requires reply.Err?
    ensures Checked(s, browser, reply).token.None?
    ensures browser ==> Stored(Checked(s, browser, reply).storage).None?
  {
  }

  /**
   * `login` reports success for every token reply, even when the profile
   * fetch then fails and the session ends unauthenticated with no token.
   */
  lemma LoginSucceedsWithoutProfile(s: Session, browser: bool, token: string, meReply: Reply<User>)
    requires meReply.Err?
    ensures LoginOutcome(Ok(token)).success
    ensures LoggedInUser(None, Ok(token), meReply).None?
    ensures LoggedIn(s, browser, Ok(token), meReply).token.None?
    ensures browser ==> Stored(LoggedIn(s, browser, Ok(token), meReply).storage).None?
  {
  }

  /**
   * A wrong password is a 401 from the token endpoint: it clears the token
   * the client already held, while the user and the flag stay as they were.
   */
  lemma WrongPasswordDropsExistingToken(s: Session, browser: bool, before: Option<User>,
                                        detail: Option<string>, meReply: Reply<User>)
    ensures var failed: Reply<string> := Err(Some(401), detail);
      && LoggedIn(s, browser, failed, meReply).token.None?
      && (browser ==> Stored(LoggedIn(s, browser, failed, meReply).storage).None?)
      && LoggedInUser(before, failed, meReply) == before
      && !LoginOutcome(failed).success
  {
  }

  /** After a successful login the profile fetch carries the token just received. */
  lemma ProfileFetchUsesNewToken(s: Session, browser: bool, token: string)
    ensures Sending(Saved(RoundTrip(s, browser, Ok(token)), browser, token), browser) == Some(token)
  {
  }

  // ---------------------------------------------------------------------------
  // The route guard.

  /** What a guarded view renders: the wrapped view with its props, or nothing plus a redirect. */
  datatype Guarded<P> = Show(props: P) | Hide(redirect: Option<string>)

  /**
   * `withAuth`: the wrapped view with unchanged props exactly when
   * authenticated; otherwise nothing, and in a browser a redirect to the
   * login page.
   */
  function WithAuth<P>(isAuthenticated: bool, props: P, browser: bool): (g: Guarded<P>)
    ensures g.Show? <==> isAuthenticated
    ensures g.Show? ==> g.props == props
    ensures g.Hide? ==> (g.redirect.Some? <==> browser) && (browser ==> g.redirect == Some(LOGIN_PAGE))
  {
    if !isAuthenticated then Hide(if browser then Some(LOGIN_PAGE) else None)
    else Show(props)
  }

  /**
   * The guard reads only the flag, and the flag is false until the mount
   * effect's `checkAuth` has answered. So the first render of a guarded view
   * redirects to the login page even when storage holds a token that the
   * server accepts and the settled state would show the view.
   */
  lemma GuardRedirectsBeforeRestore<P>(storage: map<string, string>, location: string, profile: User, props: P)
    requires Present(Stored(storage))
    ensures var s := Session(None, storage, location);
      && RestoresOnMount(s, true)
      && WithAuth(false, props, true) == Hide(Some(LOGIN_PAGE))
      && WithAuth(CheckedUser(Ok(profile)).Some?, props, true) == Show(props)
  {
  }

  /**
   * A guard that waits for the restore: while it is in flight it renders
   * nothing and does not navigate; once settled it decides as `withAuth`.
   */
  function WithAuthAfterRestore<P>(restoring: bool, isAuthenticated: bool, props: P, browser: bool): (g: Guarded<P>)
    ensures g.Show? <==> !restoring && isAuthenticated
    ensures g.Show? ==> g.props == props
    ensures g.Hide? ==> (g.redirect.Some? <==> !restoring && browser)
    ensures g.Hide? && g.redirect.Some? ==> g.redirect == Some(LOGIN_PAGE)
  {
    if restoring then Hide(None) else WithAuth(isAuthenticated, props, browser)
  }

  /**
   * With the waiting guard, a session restored from storage is never sent to
   * the login page before the server has answered: while restoring nothing is
   * shown and nothing redirects, whatever the flag; once `checkAuth` has
   * settled, the view is shown exactly when the server accepted the token,
   * and otherwise the redirect happens.
   */
  lemma RestoredSessionIsNotBounced<P>(storage: map<string, string>, location: string,
                                       isAuthenticated: bool, reply: Reply<User>, props: P)
    requires Present(Stored(storage))
    ensures var s := Session(None, storage, location);
      && RestoresOnMount(s, true)
      && WithAuthAfterRestore(RestoresOnMount(s, true), isAuthenticated, props, true) == Hide(None)
      && WithAuthAfterRestore(false, CheckedUser(reply).Some?, props, true)
         == if reply.Ok? then Show(props) else Hide(Some(LOGIN_PAGE))
  {
  }

  // ---------------------------------------------------------------------------
  // The provider.

  class AuthProvider {
    /** The client the provider calls (`ApiClient`'s static state). */
    const api: ApiClient
    var isAuthenticated: bool
    var user: Option<User>

    /** The flag is set exactly when there is a user. */
    ghost predicate Valid()
      reads this, api
    {
      api.Valid() && (isAuthenticated <==> user.Some?)
    }

    /** The initial state: not authenticated, no user. */
    constructor (api: ApiClient)
      requires api.Valid()
      ensures Valid() && this.api == api
      ensures !isAuthenticated && user == None
    {
      this.api := api;
      isAuthenticated := false;
      user := None;
    }

    /** `checkAuth`: fetch the profile; keep it, or reset the session and clear the token. */
    method CheckAuth(reply: Reply<User>)
      requires Valid()
      modifies this, api
      ensures Valid()
      ensures api.Snapshot() == Checked(old(api.Snapshot()), api.browser, reply)
      ensures api.sent == old(api.sent) + [Request("GET", ME_PATH, Bearer(Sending(old(api.Snapshot()), api.browser)), NoBody)]
      ensures user == CheckedUser(reply)
    {
      var response := api.GetCurrentUser(reply);
      if response.Data? {
        user := Some(response.data);
        isAuthenticated := true;
      } else {
        user := None;
        isAuthenticated := false;
        api.ClearToken();
      }
    }

    /** The mount effect: run `checkAuth` only if `getToken` yields a truthy token. */
    method Mount(reply: Reply<User>)
      requires Valid()
      modifies this, api
      ensures Valid()
      ensures RestoresOnMount(old(api.Snapshot()), api.browser) ==>
        && api.Snapshot() == Checked(old(api.Snapshot()), api.browser, reply)
        && api.sent == old(api.sent) + [Request("GET", ME_PATH, Bearer(Sending(old(api.Snapshot()), api.browser)), NoBody)]
        && user == CheckedUser(reply)
      ensures !RestoresOnMount(old(api.Snapshot()), api.browser) ==>
        && api.Snapshot() == Loaded(old(api.Snapshot()), api.browser)
        && api.sent == old(api.sent)
        && user == old(user) && isAuthenticated == old(isAuthenticated)
    {
      var token := api.GetToken();
      if Present(token) {
        CheckAuth(reply);
      }
    }

    /**
     * `login`: on a token, store it and run `checkAuth`, then report success
     * whatever `checkAuth` found; on a failure report the error and leave
     * the session alone.
     */
    method Login(username: string, password: string, loginReply: Reply<string>, meReply: Reply<User>)
      returns (r: LoginResult)
      requires Valid()
      modifies this, api
      ensures Valid()
      ensures r == LoginOutcome(loginReply)
      ensures api.Snapshot() == LoggedIn(old(api.Snapshot()), api.browser, loginReply, meReply)
      ensures user == LoggedInUser(old(user), loginReply, meReply)
      ensures loginReply.Err? ==> api.sent == old(api.sent) + [LoginRequest(old(api.Snapshot()), api.browser, username, password)]
      ensures loginReply.Ok? ==> api.sent == old(api.sent) + [LoginRequest(old(api.Snapshot()), api.browser, username, password),
                                                             Request("GET", ME_PATH, Bearer(Some(loginReply.body)), NoBody)]
    {
      var response := api.Login(username, password, loginReply);
      if response.Data? {
        CheckAuth(meReply);
        return LoginResult(true, None);
      }
      return LoginResult(false, Some(response.error));
    }

    /** `logout`: clear the token and reset the session. */
    method Logout()
      requires Valid()
      modifies this, api
      ensures Valid()
      ensures api.Snapshot() == Cleared(old(api.Snapshot()), api.browser) && api.sent == old(api.sent)
      ensures user == None && !isAuthenticated
    {
      api.ClearToken();
      user := None;
      isAuthenticated := false;
    }

    /**
     * `register`: on success the result is exactly that of logging in with
     * the same credentials; on failure no login is attempted and the
     * server's error is returned.
     */
    method Register(username: string, email: string, password: string,
                    registerReply: Reply<string>, loginReply: Reply<string>, meReply: Reply<User>)
      returns (r: LoginResult)
      requires Valid()
      modifies this, api
      ensures Valid()
      ensures var registerRequest := Request("POST", REGISTER_PATH, Bearer(Sending(old(api.Snapshot()), api.browser)),
                                             RegisterJson(username, email, password));
        && |api.sent| > |old(api.sent)|
        && api.sent[..|old(api.sent)| + 1] == old(api.sent) + [registerRequest]
      ensures registerReply.Err? ==>
        && r == LoginResult(false, Some(Shape(registerReply, REGISTER_FAILED).error))
        && api.Snapshot() == RoundTrip(old(api.Snapshot()), api.browser, registerReply)
        && |api.sent| == |old(api.sent)| + 1
        && user == old(user) && isAuthenticated == old(isAuthenticated)
      ensures registerReply.Ok? ==>
        var registered := RoundTrip(old(api.Snapshot()), api.browser, registerReply);
        && r == LoginOutcome(loginReply)
        && api.Snapshot() == LoggedIn(registered, api.browser, loginReply, meReply)
        && user == LoggedInUser(old(user), loginReply, meReply)
        && |api.sent| == |old(api.sent)| + (if loginReply.Ok? then 3 else 2)
        && api.sent[|old(api.sent)| + 1] == LoginRequest(registered, api.browser, username, password)
        && (loginReply.Ok? ==>
              api.sent[|old(api.sent)| + 2] == Request("GET", ME_PATH, Bearer(Some(loginReply.body)), NoBody))
    {
      var response := api.Register(username, email, password, registerReply);
      if response.Data? {
        r := Login(username, password, loginReply, meReply);
        return;
      }
      return LoginResult(false, Some(response.error));
    }
  }

  /** The token request `login` sends from client state `s`. */
  function LoginRequest(s: Session, browser: bool, username: string, password: string): Request {
    Request("POST", TOKEN_PATH, Bearer(Sending(s, browser)), LoginForm(username, password))
  }
}
