/**
 * The browser-side API client (frontend/src/utils/api.ts): a token cache
 * mirrored into local storage, the request interceptor that attaches the
 * bearer header, the response interceptor that tears the token down on any
 * 401, and the shaping of every call's result into `{data}` or `{error}`.
 *
 * The transport is not modelled: every call takes the server's reply as a
 * parameter, so each property holds for every reply the server can give, and
 * every request the client sends is appended to the log `sent`.
 */
module Client {
  import opened Wrappers

  const TOKEN_KEY: string := "token"
  const LOGIN_PAGE: string := "/login"
  const BEARER_SCHEME: string := "Bearer"

  const TOKEN_PATH: string := "/api/token"
  const REGISTER_PATH: string := "/api/register"
  const ME_PATH: string := "/api/users/me"
  const LEARNING_PATH: string := "/api/learning"
  const TOOLS_PATH: string := "/api/tools"

  const LOGIN_FAILED: string := "登录失败"
  const REGISTER_FAILED: string := "注册失败"
  const PROFILE_FAILED: string := "获取用户信息失败"
  const TOPICS_FAILED: string := "获取学习主题失败"
  const TOOLS_FAILED: string := "获取工具列表失败"
  const UPDATE_FAILED: string := "更新个人信息失败"

  /**
   * What the server answers: a 2xx body, or a failure with the HTTP status
   * (absent when no response arrived) and the `detail` of its error body.
   */
  datatype Reply<T> = Ok(body: T) | Err(status: Option<int>, detail: Option<string>)

  /** `ApiResponse<T>`: exactly one of `data` and `error`. */
  datatype ApiResponse<T> = Data(data: T) | Error(error: string)

  datatype User = User(username: string, email: string, id: string)
  datatype LearningTopic = LearningTopic(id: int, title: string, description: string, progress: int)
  datatype ToolStatus = Active | Inactive | Maintenance
  datatype Tool = Tool(id: int, name: string, description: string, status: ToolStatus)

  /** The payload of a request. */
  datatype Body =
    | NoBody
    | LoginForm(username: string, password: string)
    | RegisterJson(username: string, email: string, password: string)
    | ProfileJson(newEmail: Option<string>)

  /** A request as it leaves the client, with its `Authorization` header if any. */
  datatype Request = Request(verb: string, path: string, authorization: Option<string>, body: Body)

  /** JavaScript truthiness of `string | null`: present and not empty. */
  predicate Present(s: Option<string>) {
    s.Some? && s.value != ""
  }

  /** Whether a reply goes through the 401 branch of the response interceptor. */
  predicate Unauthorized<T>(reply: Reply<T>) {
    reply.Err? && reply.status == Some(401)
  }

  // ---------------------------------------------------------------------------
  // The bearer header.

  /** The request interceptor's header: `Bearer <token>`, only for a truthy token. */
  function Bearer(token: Option<string>): (header: Option<string>)
    ensures header.Some? <==> Present(token)
    ensures header.Some? ==> header.value == BEARER_SCHEME + " " + token.value
  {
    if Present(token) then Some(BEARER_SCHEME + " " + token.value) else None
  }

  /**
   * How the backend's OAuth2 bearer scheme reads an `Authorization` header
   * (backend/app/auth.py:15): the text before the first space is the scheme,
   * the rest is the token.
   */
  function SchemeAndParam(header: string): (r: (string, string))
    ensures forall i :: 0 <= i < |r.0| ==> r.0[i] != ' '
    ensures (r.0 == header && r.1 == []) || header == r.0 + " " + r.1
  {
    if header == [] then ([], [])
    else if header[0] == ' ' then ([], header[1..])
    else
      var (scheme, param) := SchemeAndParam(header[1..]);
      ([header[0]] + scheme, param)
  }

  /** A space-free word followed by a space and anything splits back into the two. */
  lemma {:induction false} SplitAtFirstSpace(word: string, rest: string)
    requires forall i :: 0 <= i < |word| ==> word[i] != ' '
    ensures SchemeAndParam(word + " " + rest) == (word, rest)
  {
    if word == [] {
      assert word + " " + rest == [' '] + rest;
    } else {
      assert (word + " " + rest)[1..] == word[1..] + " " + rest;
      SplitAtFirstSpace(word[1..], rest);
      assert [word[0]] + word[1..] == word;
    }
  }

  /**
   * The header is attached exactly for a truthy token, and the backend reads
   * back the Bearer scheme and exactly that token from it.
   */
  lemma BearerRoundTrip(token: Option<string>)
    ensures Bearer(token).Some? <==> Present(token)
    ensures Present(token) ==> SchemeAndParam(Bearer(token).value) == (BEARER_SCHEME, token.value)
  {
    if Present(token) {
      SplitAtFirstSpace(BEARER_SCHEME, token.value);
    }
  }

  // ---------------------------------------------------------------------------
  // Result shaping.

  /** `error.response?.data?.detail || fallback`. */
  function ErrorText(detail: Option<string>, fallback: string): string {
    if Present(detail) then detail.value else fallback
  }

  /**
   * The `{data}` / `{error}` result of a call: the body on success; on
   * failure a message that is never empty, the server's detail when it sent
   * a non-empty one and the call's fallback otherwise.
   */
  function Shape<T>(reply: Reply<T>, fallback: string): (r: ApiResponse<T>)
    requires fallback != ""
    ensures r.Data? <==> reply.Ok?
    ensures reply.Ok? ==> r.data == reply.body
    ensures r.Error? ==> r.error != ""
    ensures r.Error? ==> (r.error == fallback <==> !Present(reply.detail) || reply.detail.value == fallback)
    ensures r.Error? && Present(reply.detail) ==> r.error == reply.detail.value
  {
    match reply
    case Ok(body) => Data(body)
    case Err(_, detail) => Error(ErrorText(detail, fallback))
  }

  // ---------------------------------------------------------------------------
  // The token state as a value: the cached token, local storage, and the
  // window location (the 401 handler navigates to the login page).

  datatype Session = Session(token: Option<string>, storage: map<string, string>, location: string)

  /** `localStorage.getItem('token')`. */
  function Stored(storage: map<string, string>): Option<string> {
    if TOKEN_KEY in storage then Some(storage[TOKEN_KEY]) else None
  }

  /** The state after `getToken`: a falsy cache is refilled from storage in a browser. */
  function Loaded(s: Session, browser: bool): (r: Session)
    ensures r.storage == s.storage && r.location == s.location
    ensures Present(s.token) || !browser ==> r.token == s.token
    ensures !Present(s.token) && browser ==> r.token == Stored(s.storage)
  {
    if !Present(s.token) && browser then s.(token := Stored(s.storage)) else s
  }

  /** The state after `setToken(t)`. */
  function Saved(s: Session, browser: bool, t: string): (r: Session)
    ensures r.token == Some(t) && r.location == s.location
    ensures browser ==> Stored(r.storage) == Some(t)
    ensures !browser ==> r.storage == s.storage
    ensures forall k :: k != TOKEN_KEY ==> (k in r.storage <==> k in s.storage)
    ensures forall k :: k != TOKEN_KEY && k in r.storage ==> r.storage[k] == s.storage[k]
  {
    Session(Some(t), if browser then s.storage[TOKEN_KEY := t] else s.storage, s.location)
  }

  /** The state after `clearToken()`. */
  function Cleared(s: Session, browser: bool): (r: Session)
    ensures r.token.None? && r.location == s.location
    ensures browser ==> Stored(r.storage).None?
    ensures !browser ==> r.storage == s.storage
    ensures forall k :: k != TOKEN_KEY ==> (k in r.storage <==> k in s.storage)
    ensures forall k :: k != TOKEN_KEY && k in r.storage ==> r.storage[k] == s.storage[k]
  {
    Session(None, if browser then s.storage - {TOKEN_KEY} else s.storage, s.location)
  }

  /** The response interceptor: a 401 clears the token and, in a browser, goes to the login page. */
  function Intercepted<T>(s: Session, browser: bool, reply: Reply<T>): (r: Session)
    ensures !Unauthorized(reply) ==> r == s
    ensures Unauthorized(reply) ==> r.token.None? && (browser ==> Stored(r.storage).None?)
    ensures Unauthorized(reply) ==> r.location == if browser then LOGIN_PAGE else s.location
    ensures !browser ==> r.storage == s.storage
    ensures forall k :: k != TOKEN_KEY ==> (k in r.storage <==> k in s.storage)
    ensures forall k :: k != TOKEN_KEY && k in r.storage ==> r.storage[k] == s.storage[k]
  {
    if Unauthorized(reply) then
      var c := Cleared(s, browser);
      if browser then c.(location := LOGIN_PAGE) else c
    else s
  }

  /** One request and its reply: the request interceptor loads the token, the response interceptor runs. */
  function RoundTrip<T>(s: Session, browser: bool, reply: Reply<T>): Session {
    Intercepted(Loaded(s, browser), browser, reply)
  }

  /** The token the request interceptor sends from state `s`. */
  function Sending(s: Session, browser: bool): Option<string> {
    Loaded(s, browser).token
  }

  /**
   * The client's invariant: in a browser a truthy cached token is the one in
   * storage (only `setToken`, `clearToken` and the lazy fill write either).
   */
  predicate Mirrored(s: Session, browser: bool) {
    browser && Present(s.token) ==> Stored(s.storage) == s.token
  }

  /** Every transition keeps the cache mirrored. */
  lemma MirroredPreserved<T>(s: Session, browser: bool, t: string, reply: Reply<T>)
    requires Mirrored(s, browser)
    ensures Mirrored(Loaded(s, browser), browser)
    ensures Mirrored(Saved(s, browser, t), browser)
    ensures Mirrored(Cleared(s, browser), browser)
    ensures Mirrored(RoundTrip(s, browser, reply), browser)
  {
  }

  /** In a browser the cache is transparent: `getToken` yields exactly what storage holds. */
  lemma LoadedIsStored(s: Session)
    requires Mirrored(s, true)
    ensures Loaded(s, true).token == Stored(s.storage)
  {
  }

  /** A truthy cached token is returned whatever storage holds: storage is not consulted. */
  lemma CachedTokenWins(s: Session, storage: map<string, string>, browser: bool)
    requires Present(s.token)
    ensures Loaded(s, browser).token == Loaded(s.(storage := storage), browser).token == s.token
  {
  }

  /** After `setToken(t)` the cache and (in a browser) storage hold t, and `getToken` returns t. */
  lemma SetThenGet(s: Session, browser: bool, t: string)
    ensures Saved(s, browser, t).token == Some(t)
    ensures browser ==> Stored(Saved(s, browser, t).storage) == Some(t)
    ensures Loaded(Saved(s, browser, t), browser).token == Some(t)
  {
  }

  /** After `clearToken()` nothing is cached or stored, `getToken` returns null and no header is sent. */
  lemma ClearThenGet(s: Session, browser: bool)
    ensures browser ==> Stored(Cleared(s, browser).storage).None?
    ensures Loaded(Cleared(s, browser), browser).token.None?
    ensures Bearer(Sending(Cleared(s, browser), browser)).None?
  {
  }

  /** Clearing twice is clearing once. */
  lemma ClearIdempotent(s: Session, browser: bool)
    ensures Cleared(Cleared(s, browser), browser) == Cleared(s, browser)
  {
  }

  /**
   * A 401 from any endpoint leaves no token behind: the next request goes
   * out without an `Authorization` header. Any other reply leaves storage as
   * it was.
   */
  lemma UnauthorizedTearsDown<T>(s: Session, browser: bool, reply: Reply<T>)
    ensures Unauthorized(reply) ==> RoundTrip(s, browser, reply).token.None?
    ensures Unauthorized(reply) ==> Bearer(Sending(RoundTrip(s, browser, reply), browser)).None?
    ensures !Unauthorized(reply) ==> RoundTrip(s, browser, reply).storage == s.storage
  {
  }

  // ---------------------------------------------------------------------------
  // The client object: `ApiClient`'s static token field, local storage, the
  // window location and the requests it has sent.

  class ApiClient {
    /** `typeof window !== 'undefined'`. */
    const browser: bool
    var token: Option<string>
    var storage: map<string, string>
    var location: string
    var sent: seq<Request>

    function Snapshot(): Session
      reads this
    {
      Session(token, storage, location)
    }

    ghost predicate Valid()
      reads this
    {
      Mirrored(Snapshot(), browser)
    }

    /** A fresh page: no cached token (`token = null`), whatever storage already holds. */
    constructor (browser: bool, storage: map<string, string>, location: string)
      ensures Valid()
      ensures this.browser == browser && Snapshot() == Session(None, storage, location) && sent == []
    {
      this.browser := browser;
      this.token := None;
      this.storage := storage;
      this.location := location;
      this.sent := [];
    }

    method SetToken(t: string)
      requires Valid()
      modifies this
      ensures Valid() && Snapshot() == Saved(old(Snapshot()), browser, t) && sent == old(sent)
    {
      token := Some(t);
      if browser {
        storage := storage[TOKEN_KEY := t];
      }
    }

    method GetToken() returns (t: Option<string>)
      requires Valid()
      modifies this
      ensures Valid() && Snapshot() == Loaded(old(Snapshot()), browser) && sent == old(sent)
      ensures t == token
    {
      if !Present(token) && browser {
        token := Stored(storage);
      }
      t := token;
    }

    method ClearToken()
      requires Valid()
      modifies this
      ensures Valid() && Snapshot() == Cleared(old(Snapshot()), browser) && sent == old(sent)
    {
      token := None;
      if browser {
        storage := storage - {TOKEN_KEY};
      }
    }

    /**
     * One request through both interceptors: the header from `getToken` is
     * attached, the request is sent, and a 401 reply tears the token down.
     */
    method Exchange<T>(verb: string, path: string, body: Body, reply: Reply<T>)
      requires Valid()
      modifies this
      ensures Valid() && Snapshot() == RoundTrip(old(Snapshot()), browser, reply)
      ensures sent == old(sent) + [Request(verb, path, Bearer(Sending(old(Snapshot()), browser)), body)]
    {
      var t := GetToken();
      sent := sent + [Request(verb, path, Bearer(t), body)];
      if Unauthorized(reply) {
        ClearToken();
        if browser {
          location := LOGIN_PAGE;
        }
      }
    }

    /**
     * `login`: posts the form; on success stores and returns the access
     * token, on failure never stores anything and returns the error.
     */
    method Login(username: string, password: string, reply: Reply<string>) returns (r: ApiResponse<string>)
      requires Valid()
      modifies this
      ensures Valid()
      ensures sent == old(sent) + [Request("POST", TOKEN_PATH, Bearer(Sending(old(Snapshot()), browser)),
                                           LoginForm(username, password))]
      ensures r == Shape(reply, LOGIN_FAILED)
      ensures reply.Ok? ==> Snapshot() == Saved(RoundTrip(old(Snapshot()), browser, reply), browser, reply.body)
      ensures reply.Err? ==> Snapshot() == RoundTrip(old(Snapshot()), browser, reply)
    {
      Exchange("POST", TOKEN_PATH, LoginForm(username, password), reply);
      match reply
      case Ok(accessToken) =>
        SetToken(accessToken);
        r := Data(accessToken);
      case Err(_, detail) =>
        r := Error(ErrorText(detail, LOGIN_FAILED));
    }

    /** `register`: posts the registration; returns the created username or the error. */
    method Register(username: string, email: string, password: string, reply: Reply<string>)
      returns (r: ApiResponse<string>)
      requires Valid()
      modifies this
      ensures Valid() && Snapshot() == RoundTrip(old(Snapshot()), browser, reply)
      ensures sent == old(sent) + [Request("POST", REGISTER_PATH, Bearer(Sending(old(Snapshot()), browser)),
                                           RegisterJson(username, email, password))]
      ensures r == Shape(reply, REGISTER_FAILED)
    {
      Exchange("POST", REGISTER_PATH, RegisterJson(username, email, password), reply);
      r := Shape(reply, REGISTER_FAILED);
    }

    /** `getCurrentUser`. */
    method GetCurrentUser(reply: Reply<User>) returns (r: ApiResponse<User>)
      requires Valid()
      modifies this
      ensures Valid() && Snapshot() == RoundTrip(old(Snapshot()), browser, reply)
      ensures sent == old(sent) + [Request("GET", ME_PATH, Bearer(Sending(old(Snapshot()), browser)), NoBody)]
      ensures r == Shape(reply, PROFILE_FAILED)
    {
      Exchange("GET", ME_PATH, NoBody, reply);
      r := Shape(reply, PROFILE_FAILED);
    }

    /** `getLearningTopics`. */
    method GetLearningTopics(reply: Reply<seq<LearningTopic>>) returns (r: ApiResponse<seq<LearningTopic>>)
      requires Valid()
      modifies this
      ensures Valid() && Snapshot() == RoundTrip(old(Snapshot()), browser, reply)
      ensures sent == old(sent) + [Request("GET", LEARNING_PATH, Bearer(Sending(old(Snapshot()), browser)), NoBody)]
      ensures r == Shape(reply, TOPICS_FAILED)
    {
      Exchange("GET", LEARNING_PATH, NoBody, reply);
      r := Shape(reply, TOPICS_FAILED);
    }

    /** `getTools`. */
    method GetTools(reply: Reply<seq<Tool>>) returns (r: ApiResponse<seq<Tool>>)
      requires Valid()
      modifies this
      ensures Valid() && Snapshot() == RoundTrip(old(Snapshot()), browser, reply)
      ensures sent == old(sent) + [Request("GET", TOOLS_PATH, Bearer(Sending(old(Snapshot()), browser)), NoBody)]
      ensures r == Shape(reply, TOOLS_FAILED)
    {
      Exchange("GET", TOOLS_PATH, NoBody, reply);
      r := Shape(reply, TOOLS_FAILED);
    }

    /** `updateProfile`: puts the partial profile; returns the server's message or the error. */
    method UpdateProfile(email: Option<string>, reply: Reply<string>) returns (r: ApiResponse<string>)
      requires Valid()
      modifies this
      ensures Valid() && Snapshot() == RoundTrip(old(Snapshot()), browser, reply)
      ensures sent == old(sent) + [Request("PUT", ME_PATH, Bearer(Sending(old(Snapshot()), browser)), ProfileJson(email))]
      ensures r == Shape(reply, UPDATE_FAILED)
    {
      Exchange("PUT", ME_PATH, ProfileJson(email), reply);
      r := Shape(reply, UPDATE_FAILED);
    }
  }
}
