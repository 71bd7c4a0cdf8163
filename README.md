# Session and user-registry model of the learning/tools portal

This project is a Dafny model of the stateful core of a small learning/tools
portal. The portal has a Python (FastAPI) backend and a Next.js front end. The
model covers three parts:

- **The backend user registry and its authentication rules.** This is the
  in-memory `fake_users_db` with its seeded administrator (`users.dfy`, module
  `Users`), plus the three request handlers that read or change it: the token
  endpoint, registration and the profile update (`server.dfy`, module `Server`).
  The registry is a class whose fields are the dictionary (`users`) and the
  insertion order of its keys (`order`). The order matters because `get_user`
  scans `db.values()` in order and returns the first record that holds a
  wallet address. Password hashing is a deterministic stand-in for bcrypt that
  keeps bcrypt's reading of only the first 72 bytes of the UTF-8 encoded
  password. A JWT is modelled by its claims and the key it was signed with.
- **The front-end session.** This is the `ApiClient` token cache, mirrored into
  local storage, with its two interceptors and its result shaping
  (`api_client.dfy`, module `Client`). On top of it sits `AuthProvider`, which
  holds `isAuthenticated` and `user`, and the `withAuth` route guard
  (`auth_context.dfy`, module `AuthContext`). Every HTTP call takes the server's
  reply as a parameter, so each property is proved for every possible reply.
  Every request the client sends is appended to a log `sent`, together with
  its `Authorization` header.
- **The toast queue** (`toast.dfy`, module `Toasts`). It holds a list of toasts,
  appends new ones with defaults, removes all toasts with a given id, and keeps
  a list of pending timed removals.

`wrappers.dfy` holds the shared `Option` and `Result` types.

Main invariants:

- Registry: `order` lists each key once, and every record is stored under its
  own username.
- Client: in a browser, a non-empty cached token is the token in storage.
- Provider: `isAuthenticated` holds exactly when `user` is non-null.

The backend has no wallet-login endpoint: only `authenticate_user` has a
wallet branch, and no handler calls it with a wallet address. The client keeps
only `token` in local storage, a 401 teardown removes only that key, and the
bearer header also goes on the login and register requests.

## Model

| member | source | states |
|---|---|---|
| `Users.Utf8Concat` | backend/app/auth.py:37-41 | the UTF-8 encoding bcrypt hashes is a homomorphism: encoding a concatenation concatenates the encodings |
| `Users.Key` | backend/app/auth.py:14 | the bytes bcrypt reads are a prefix of the UTF-8 encoding, of length min(72, its length) |
| `Users.Hash` | backend/app/auth.py:40-41 | a hash is the bcrypt prefix followed by at most 72 characters, one per password byte bcrypt reads |
| `Users.VerifyPassword` | backend/app/auth.py:37-38 | a password verifies only against a hash that carries the bcrypt prefix followed by exactly the bytes bcrypt reads from that password |
| `Users.VerifyHash` | backend/app/auth.py:37-41 | a password verifies against the hash of q exactly when bcrypt reads the same bytes from both (the first 72 bytes of their UTF-8 encodings) |
| `Users.ShortPasswordsAreExact` | backend/app/auth.py:37-41 | for passwords of at most 72 bytes, verification succeeds exactly when the encodings are equal |
| `Users.TailBeyond72BytesIgnored` | backend/app/auth.py:37-41 | two passwords that share a first 72 bytes verify against each other's hash, whatever follows |
| `Users.NewRecord` | backend/app/auth.py:124-132 | a new record has the given name, email and wallet, is not disabled, and has a hash iff the password is truthy, a hash that password verifies against |
| `Users.AdminLogsIn` | backend/app/auth.py:137-150 | the seeded administrator passes the password check with the seeded password |
| `Users.OwnerIndex` | backend/app/auth.py:48-51 | the position of the first record in insertion order that holds the address (no earlier record holds it), or the end if none does |
| `Users.Lookup` | backend/app/auth.py:43-52 | a result is a stored record; a truthy username that is a key always gives a result; any other result holds the (truthy) wallet address asked for |
| `Users.LookupPrefersUsername` | backend/app/auth.py:43-46 | a truthy username that is a key is returned whatever wallet address is also given |
| `Users.LookupByWallet` | backend/app/auth.py:48-52 | without a username hit, the wallet lookup succeeds iff some record holds the address; the result holds it, is stored under its own name, and is the first such record in insertion order |
| `Users.OwnerIndexAppend` | backend/app/auth.py:63-64 | after appending a record holding an address no earlier record held, the lookup finds exactly that record |
| `Users.RegisteredPasswordAuthenticates` | backend/app/auth.py:66-72 | a user registered with a non-empty password passes the password check exactly with the attempts that agree with that password on the bytes bcrypt reads, and fails with all others |
| `Users.NoHashNoPasswordLogin` | backend/app/auth.py:68-69 | a record without a hash (a wallet-only user) fails the password check for every password |
| `Users.Take` | backend/app/auth.py:60 | Python's `s[:8]`: a prefix of s of length min(8, \|s\|) |
| `Users.WalletUsername` | backend/app/auth.py:60 | the generated name is `user_` followed by a prefix of the address of length min(8, its length) |
| `Users.CheckPassword` | backend/app/auth.py:66-74 | succeeds exactly when both credentials are truthy, the name is a key, its record has a truthy hash and the password verifies against it; the result is that stored record |
| `Users.CreateAccessToken` | backend/app/auth.py:76-84 | the token carries the given claims and expires delta seconds after now, or 15 minutes after now when the delta is missing or zero |
| `Users.DecodeToken` | backend/app/auth.py:93 | a token decodes exactly when it is signed with the configured key and algorithm and `now` has not passed its expiry; it then yields its own claims |
| `Users.TokenRoundTrip` | backend/app/auth.py:76-100 | a created token decodes to its claims until it expires, and not after |
| `Users.GetCurrentUser` | backend/app/auth.py:86-110 | every failure is the 401 "Could not validate credentials"; a resolved user comes from a token that decodes (right key and algorithm, not expired) and is the record stored under its own name |
| `Users.CurrentUserBySubject` | backend/app/auth.py:103-104 | a truthy subject is looked up by name only: it resolves iff the name is registered, whatever wallet claim is present |
| `Users.CurrentUserByWallet` | backend/app/auth.py:96-106 | without a subject, a token resolves iff it has a truthy wallet claim that some record holds; with neither claim it fails |
| `Users.GetCurrentActiveUser` | backend/app/auth.py:112-115 | a disabled user is refused with 400 "Inactive user"; an active user is returned unchanged; credential failures pass through |
| `Users.WithEmail` | backend/app/main.py:100-102 | only the email of that one record changes; its other fields, its hash and all other records stay the same |
| `Users.UserRegistry.constructor` | backend/app/auth.py:137-150 | the registry starts with only the administrator (email 123@open.com, hash of "open", not disabled, no wallet) |
| `Users.UserRegistry.GetUser` | backend/app/auth.py:43-52 | the search loop returns exactly the username hit, else the first wallet owner, else nothing |
| `Users.UserRegistry.RegisterNewUser` | backend/app/auth.py:117-135 | a taken name gives 400 "Username already registered" and changes nothing; otherwise exactly one record is added under the new name, appended to the order, and its public view is returned |
| `Users.UserRegistry.AuthenticateUser` | backend/app/auth.py:54-74 | the wallet branch takes precedence: it returns the existing owner and changes nothing, or it registers exactly one wallet-only user under a fresh name that starts with `user_` and the first 8 characters of the address, and returns it; without a wallet the registry is unchanged and the result is the password check; no credentials give `False` |
| `Server.AccessTokenFor` | backend/app/main.py:32-35 | the issued token decodes to subject = username, no wallet claim, expiry 30 minutes after now |
| `Server.LoginForAccessToken` | backend/app/main.py:23-36 | the registry is never changed; a failed password check gives 401 "Incorrect username or password"; otherwise a bearer token for that user |
| `Server.IssuedTokenIdentifiesUser` | backend/app/main.py:32-36 | a token from the token endpoint resolves to the user who logged in until it expires, and is refused after |
| `Server.Register` | backend/app/main.py:38-49 | a new username is registered with the given email and password and no wallet, and the reply is "User registered successfully" with that username; the duplicate 400 propagates and nothing changes |
| `Server.UpdateUserProfile` | backend/app/main.py:94-104 | a failed bearer check is returned unchanged; with a truthy email only that user's email changes ("Profile updated successfully"); otherwise nothing changes ("No changes made") |
| `Server.EmailUpdateKeepsCredentials` | backend/app/main.py:100-102 | changing an email does not change who passes the password check |
| `Client.Bearer` | frontend/src/utils/api.ts:57-60 | a header exists exactly for a non-empty token, and it is `Bearer ` followed by that token |
| `Client.Loaded` | frontend/src/utils/api.ts:90-95 | storage and location are untouched; a non-empty cached token (or a non-browser) keeps the cache; otherwise the cache becomes what storage holds under `token` |
| `Client.Saved` | frontend/src/utils/api.ts:83-88 | the cache holds t; in a browser storage holds t under `token`; outside one storage is untouched; no other key changes |
| `Client.Cleared` | frontend/src/utils/api.ts:97-102 | the cache is null; in a browser `token` is gone from storage; outside one storage is untouched; no other key changes |
| `Client.Intercepted` | frontend/src/utils/api.ts:67-77 | a reply other than 401 changes nothing; a 401 leaves no token cached or stored and, in a browser, sets the location to /login; outside a browser storage is untouched; no other key or its value changes |
| `Client.SchemeAndParam` | backend/app/auth.py:15 | the scheme the backend's OAuth2 bearer dependency reads has no space; either the header has no space and is all scheme, or it is the scheme, one space, then the token |
| `Client.SplitAtFirstSpace` | backend/app/auth.py:15 | a space-free word, a space and any rest split back into exactly that word and that rest |
| `Client.BearerRoundTrip` | frontend/src/utils/api.ts:57-60 | a header is attached iff the token is non-empty, and the backend's bearer scheme reads back `Bearer` and exactly that token |
| `Client.Shape` | frontend/src/utils/api.ts:116-121 | exactly one of data and error; data is the reply body; an error is never empty, and it is the server's non-empty detail if there is one, else the call's fallback |
| `Client.MirroredPreserved` | frontend/src/utils/api.ts:83-102 | loading, setting, clearing and every round trip keep a non-empty cached token equal to the stored one |
| `Client.LoadedIsStored` | frontend/src/utils/api.ts:90-95 | in a browser `getToken` returns exactly what storage holds under `token` |
| `Client.CachedTokenWins` | frontend/src/utils/api.ts:91-94 | a non-empty cached token is returned whatever storage holds |
| `Client.SetThenGet` | frontend/src/utils/api.ts:83-95 | after `setToken(t)` the cache holds t, storage holds t in a browser, and `getToken` returns t |
| `Client.ClearThenGet` | frontend/src/utils/api.ts:97-102 | after `clearToken` nothing is stored, `getToken` returns null, and no header is sent |
| `Client.ClearIdempotent` | frontend/src/utils/api.ts:97-102 | clearing twice leaves the same state as clearing once |
| `Client.UnauthorizedTearsDown` | frontend/src/utils/api.ts:67-77 | after a 401 from any endpoint no token is left and the next request has no header; any other reply leaves storage unchanged |
| `Client.ApiClient.constructor` | frontend/src/utils/api.ts:41-42 | no cached token; storage is whatever the browser already holds |
| `Client.ApiClient.SetToken` | frontend/src/utils/api.ts:83-88 | the cache and (in a browser) storage hold the token; nothing else changes |
| `Client.ApiClient.GetToken` | frontend/src/utils/api.ts:90-95 | an empty cache is refilled from storage in a browser; the result is the new cache |
| `Client.ApiClient.ClearToken` | frontend/src/utils/api.ts:97-102 | the cache is null and (in a browser) `token` is removed from storage |
| `Client.ApiClient.Exchange` | frontend/src/utils/api.ts:54-78 | each request goes out with the header for the token `getToken` yields; a 401 reply clears the token and navigates to /login in a browser |
| `Client.ApiClient.Login` | frontend/src/utils/api.ts:104-122 | posts the credentials; on success stores and returns the access token; on failure stores nothing and returns the detail or "登录失败" |
| `Client.ApiClient.Register` | frontend/src/utils/api.ts:124-132 | posts the registration; returns the body or the detail or "注册失败" |
| `Client.ApiClient.GetCurrentUser` | frontend/src/utils/api.ts:134-142 | gets the profile; returns it or the detail or "获取用户信息失败" |
| `Client.ApiClient.GetLearningTopics` | frontend/src/utils/api.ts:144-152 | returns the topics or the detail or "获取学习主题失败" |
| `Client.ApiClient.GetTools` | frontend/src/utils/api.ts:154-162 | returns the tools or the detail or "获取工具列表失败" |
| `Client.ApiClient.UpdateProfile` | frontend/src/utils/api.ts:164-172 | puts the update; returns the message or the detail or "更新个人信息失败" |
| `AuthContext.LoginOutcome` | frontend/src/contexts/AuthContext.tsx:46-53 | success iff the token endpoint returned a token, with no error; otherwise failure with the client's error text |
| `AuthContext.FailedCheckLeavesNoToken` | frontend/src/contexts/AuthContext.tsx:39-43 | a failed profile fetch leaves neither a cached nor a stored token |
| `AuthContext.LoginSucceedsWithoutProfile` | frontend/src/contexts/AuthContext.tsx:48-50 | login reports success even when the profile fetch fails and leaves no user, no cached token and, in a browser, no stored token |
| `AuthContext.WrongPasswordDropsExistingToken` | frontend/src/contexts/AuthContext.tsx:47-52 | a 401 from the token endpoint clears the token already held; user and flag stay as they were; the result is a failure |
| `AuthContext.ProfileFetchUsesNewToken` | frontend/src/contexts/AuthContext.tsx:47-49 | the profile fetch after a login carries the token just received |
| `AuthContext.WithAuth` | frontend/src/contexts/AuthContext.tsx:86-100 | shows the wrapped view with unchanged props iff authenticated; otherwise shows nothing and, in a browser, redirects to /login |
| `AuthContext.GuardRedirectsBeforeRestore` | frontend/src/contexts/AuthContext.tsx:88-96 | with a server-accepted token in storage, the first render redirects to /login, while the settled state would show the view |
| `AuthContext.WithAuthAfterRestore` | frontend/src/contexts/AuthContext.tsx:88-98 | the view is shown exactly when not restoring and authenticated, with unchanged props; a redirect (to /login) happens exactly when not restoring, not authenticated and in a browser |
| `AuthContext.RestoredSessionIsNotBounced` | frontend/src/contexts/AuthContext.tsx:26-32 | with a stored token the mount restore runs; with the waiting guard nothing is shown or redirected while it runs, whatever the flag; once settled the view is shown exactly when the server accepted the token, and otherwise the redirect happens |
| `AuthContext.AuthProvider.constructor` | frontend/src/contexts/AuthContext.tsx:22-24 | starts unauthenticated with a null user |
| `AuthContext.AuthProvider.CheckAuth` | frontend/src/contexts/AuthContext.tsx:34-44 | fetches the profile; success sets the user and the flag; failure resets both and clears the token |
| `AuthContext.AuthProvider.Mount` | frontend/src/contexts/AuthContext.tsx:26-32 | runs `checkAuth` iff `getToken` yields a non-empty token; otherwise sends nothing and leaves user and flag unchanged |
| `AuthContext.AuthProvider.Login` | frontend/src/contexts/AuthContext.tsx:46-53 | the result depends only on the token reply; a token is stored and followed by `checkAuth`; a refusal leaves user and flag alone and sends no profile request |
| `AuthContext.AuthProvider.Logout` | frontend/src/contexts/AuthContext.tsx:55-59 | the token is cleared from cache and storage, the user is null, the flag is false, and no request is sent |
| `AuthContext.AuthProvider.Register` | frontend/src/contexts/AuthContext.tsx:61-68 | the register request is sent first; on success the result and end state are exactly those of logging in with the same credentials, and the log holds exactly the register request, the login request and, after a token, the profile request carrying it; on failure only the register request is sent and the error is the register error |
| `Toasts.Without` | frontend/src/components/Toast.tsx:59-61 | keeps exactly the toasts with another id |
| `Toasts.WithoutConcat` | frontend/src/components/Toast.tsx:60 | removal distributes over concatenation, so the kept toasts stay in their relative order |
| `Toasts.WithoutAbsent` | frontend/src/components/Toast.tsx:60 | removing an id no toast carries changes nothing |
| `Toasts.WithoutIdempotent` | frontend/src/components/Toast.tsx:60 | removing an id twice is removing it once |
| `Toasts.AddThenRemove` | frontend/src/components/Toast.tsx:63-69 | adding a toast with a fresh id and then removing that id gives back the original list |
| `Toasts.SameMillisecondToastsDismissedTogether` | frontend/src/components/Toast.tsx:65-69 | two toasts added in the same millisecond are dismissed together |
| `Toasts.Scheduled` | frontend/src/components/Toast.tsx:68-70 | one removal is scheduled, for the toast's id and after its duration, iff the duration is positive |
| `Toasts.UseToast` | frontend/src/components/Toast.tsx:109-115 | returns the context inside a provider; outside one, it fails with "useToast must be used within a ToastProvider" |
| `Toasts.ToastProvider.constructor` | frontend/src/components/Toast.tsx:57 | starts with no toasts and no timers |
| `Toasts.ToastProvider.AddToast` | frontend/src/components/Toast.tsx:63-73 | appends exactly one toast (defaults: variant info, duration 5000) after the existing ones, and schedules its removal only for a positive duration |
| `Toasts.ToastProvider.RemoveToast` | frontend/src/components/Toast.tsx:59-61 | the list becomes `Without(list, id)`; the timers are unchanged |
| `Toasts.ToastProvider.FireTimer` | frontend/src/components/Toast.tsx:68-70 | a firing timer stops being pending and removes every toast with its id |

## Left out

- bcrypt is modelled by the deterministic stand-in `Users.Hash` of the first 72 UTF-8 bytes of the password. Salting, cost factors, passlib's rejection of passwords containing a NUL character and other library errors are not modelled, so the 500 branch of `register` (backend/app/main.py:45-49) is never taken in the model.
- JWT signing is modelled only as "signed with the configured key and algorithm". Byte-level encoding and signature checking are not modelled. Time is an integer count of seconds passed in as `now`.
- The timestamp added to a taken wallet username is read from `clock(n)` on the n-th pass of the loop. Float formatting of `datetime.utcnow().timestamp()` is not modelled.
- FastAPI wiring is not modelled: CORS, dependency injection, how request parameters are bound, and the health check.
- The mock lists returned by `/api/learning` and `/api/tools` are not modelled, nor is `GET /api/users/me` (backend/app/main.py:89-92), which returns the resolved current user including its `hashed_password`. The client's calls to these endpoints are modelled with the reply as a parameter.
- The shape of error bodies is simplified: `detail` is an optional string. A non-string detail, such as FastAPI's list of validation errors, is not modelled.
- The axios transport and headers other than `Authorization` are not modelled. Nor is the lazy creation of the axios instance, which has no behaviour the model could observe.
- The `typeof window` checks are the client's `browser` flag. A 401's `window.location.href` assignment is recorded in `location`. The page reload that follows it is not modelled.
- The static `ApiClient` state is one `ApiClient` object shared by the provider. Other tabs writing the same storage are not modelled.
- Concurrency is not modelled. Each awaited call runs to completion in order, so overlapping logins and late replies racing a 401 teardown are not captured.
- React's rendering and hooks are not modelled beyond the state each hook keeps. The `useAuth` hook and the `toast.*` helpers are not modelled.
- `Register` and `UpdateUserProfile` bind their arguments as query parameters (backend/app/main.py:39, 97), while the client sends them as a JSON body (frontend/src/utils/api.ts:126, 166). The model takes the arguments as given to the handler and does not model this binding, so the 422 that registration would get and the "No changes made" that every profile update would get are not captured.
- `Users.UserRegistry.AuthenticateUser` searches and registers into one registry. In the source, `authenticate_user` searches its parameter `fake_db` (backend/app/auth.py:61) while `register_new_user` checks and writes the global `fake_users_db` (backend/app/auth.py:118, 134). The two coincide because the only caller passes `auth.fake_users_db`. A call with another dictionary is not modelled.
- `Client.ApiClient.Login`, `Client.ApiClient.SetToken` and `Client.ApiClient.GetToken` never fail: `localStorage.setItem` and `getItem` can throw (quota exceeded, storage disabled; frontend/src/utils/api.ts:86, 92). When `setItem` throws inside `login`, the source has already cached the token but returns `{error: '登录失败'}` (frontend/src/utils/api.ts:116-120). That path is not modelled.
- `Toasts.Toast` has an integer `duration`. In the source it is a JavaScript number, and a fractional value or `NaN` changes the `duration > 0` test (frontend/src/components/Toast.tsx:68). Such values are not modelled.
- The wallet-connect page, the page components and the presentational components hold no session logic and are not part of this model.

## Findings

| source | as written | input that shows it | evidently intended | confidence | as-written member | corrected member |
|---|---|---|---|---|---|---|
| frontend/src/contexts/AuthContext.tsx:88-96 | `withAuth` redirects to /login whenever `isAuthenticated` is false. The flag stays false until the mount effect's `checkAuth` has answered, and effects run after the first render. | A page load of /learning or /tools with a token in storage that the server accepts: the first render redirects to /login. | Show nothing and do not redirect while the stored session is being restored; decide once it has settled. | not executed; high | `AuthContext.GuardRedirectsBeforeRestore` | `AuthContext.WithAuthAfterRestore` |
