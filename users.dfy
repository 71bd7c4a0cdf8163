/**
 * The backend's user registry and authentication rules (backend/app/auth.py).
 *
 * The registry is the module-level dictionary `fake_users_db`: a map from
 * username to a user record. Python dictionaries iterate in insertion order,
 * and `get_user` returns the FIRST record whose wallet address matches, so the
 * model keeps the insertion order of the keys beside the map.
 */
module Users {
  import opened Wrappers

  const SECRET_KEY: string := "your-secret-key"
  const ALGORITHM: string := "HS256"
  const ACCESS_TOKEN_EXPIRE_MINUTES: int := 30
  /** Lifetime `create_access_token` uses when it is given no (or a zero) delta. */
  const DEFAULT_EXPIRE_MINUTES: int := 15

  const ADMIN_USERNAME: string := "admin"
  const ADMIN_EMAIL: string := "123@open.com"
  const ADMIN_PASSWORD: string := "open"

  /** An `HTTPException`: a status code and its `detail` text. */
  datatype HttpError = HttpError(status: int, detail: string)

  const CREDENTIALS_ERROR: HttpError := HttpError(401, "Could not validate credentials")
  const DUPLICATE_USERNAME: HttpError := HttpError(400, "Username already registered")
  const INACTIVE_USER: HttpError := HttpError(400, "Inactive user")

  /** Python truthiness of an optional string: present and not empty. */
  predicate Truthy(s: Option<string>) {
    s.Some? && s.value != ""
  }

  /** The public view of a user (`User`). */
  datatype User = User(username: string, email: Option<string>, disabled: bool, walletAddress: Option<string>)

  /** A stored record (`UserInDB`): the public fields plus the password hash, if any. */
  datatype UserInDB = UserInDB(
    username: string,
    email: Option<string>,
    disabled: bool,
    walletAddress: Option<string>,
    hashedPassword: Option<string>)
  {
    function ToUser(): User {
      User(username, email, disabled, walletAddress)
    }
  }

  // ---------------------------------------------------------------------------
  // Password hashing. bcrypt is salted and one-way, and it reads only the
  // first 72 bytes of the UTF-8 encoding of a password. The model keeps that
  // truncation and stands in a deterministic hash of the bytes bcrypt reads:
  // a password verifies against a hash exactly when it agrees with the hashed
  // password on those bytes.

  newtype byte = b: int | 0 <= b < 256

  /** The number of password bytes bcrypt reads. */
  const BCRYPT_MAX_BYTES: nat := 72

  const HASH_PREFIX: string := "$2b$12$"

  /** The UTF-8 encoding of one character (a Unicode scalar value). */
  function Utf8Char(c: char): (e: seq<byte>)
    ensures 1 <= |e| <= 4
  {
    var n := c as int;
    if n < 0x80 then [n as byte]
    else if n < 0x800 then [(0xC0 + n / 0x40) as byte, (0x80 + n % 0x40) as byte]
    else if n < 0x1_0000 then
      [(0xE0 + n / 0x1000) as byte, (0x80 + n / 0x40 % 0x40) as byte, (0x80 + n % 0x40) as byte]
    else
      [(0xF0 + n / 0x4_0000) as byte, (0x80 + n / 0x1000 % 0x40) as byte,
       (0x80 + n / 0x40 % 0x40) as byte, (0x80 + n % 0x40) as byte]
  }

  /** The UTF-8 encoding of a string (`password.encode("utf-8")`). */
  function Utf8(s: string): (e: seq<byte>)
    ensures |s| <= |e| <= 4 * |s|
  {
    if s == [] then [] else Utf8Char(s[0]) + Utf8(s[1..])
  }

  /** Encoding a concatenation is concatenating the encodings. */
  lemma {:induction false} Utf8Concat(a: string, b: string)
    ensures Utf8(a + b) == Utf8(a) + Utf8(b)
  {
    if a == [] {
      assert a + b == b;
    } else {
      assert (a + b)[0] == a[0];
      assert (a + b)[1..] == a[1..] + b;
      Utf8Concat(a[1..], b);
      assert Utf8(a + b) == Utf8Char(a[0]) + (Utf8(a[1..]) + Utf8(b));
      assert Utf8Char(a[0]) + (Utf8(a[1..]) + Utf8(b)) == (Utf8Char(a[0]) + Utf8(a[1..])) + Utf8(b);
    }
  }

  /** The bytes of a password that bcrypt reads: at most the first 72. */
  function Key(password: string): (k: seq<byte>)
    ensures k <= Utf8(password)
    ensures |k| == if |Utf8(password)| < BCRYPT_MAX_BYTES then |Utf8(password)| else BCRYPT_MAX_BYTES
  {
    var e := Utf8(password);
    if |e| <= BCRYPT_MAX_BYTES then e else e[..BCRYPT_MAX_BYTES]
  }

  /** Bytes written out one character per byte, as a hash string holds them. */
  function Latin1(k: seq<byte>): (s: string)
    ensures |s| == |k|
    ensures forall i :: 0 <= i < |k| ==> s[i] as int == k[i] as int
  {
    if k == [] then [] else [(k[0] as int) as char] + Latin1(k[1..])
  }

  /** `get_password_hash`. */
  function Hash(password: string): (h: string)
    ensures |h| == |HASH_PREFIX| + |Key(password)| <= |HASH_PREFIX| + BCRYPT_MAX_BYTES
    ensures h[..|HASH_PREFIX|] == HASH_PREFIX
  {
    HASH_PREFIX + Latin1(Key(password))
  }

  /** `verify_password`: the password hashes to the stored hash. */
  predicate VerifyPassword(password: string, hashed: string)
    ensures VerifyPassword(password, hashed) ==>
      |hashed| >= |HASH_PREFIX| && hashed[..|HASH_PREFIX|] == HASH_PREFIX
      && hashed[|HASH_PREFIX|..] == Latin1(Key(password))
  {
    hashed == Hash(password)
  }

  /**
   * A password verifies against the hash of `q` exactly when bcrypt reads the
   * same bytes from both: for passwords of at most 72 bytes, exactly when it
   * is `q`.
   */
  lemma VerifyHash(p: string, q: string)
    ensures VerifyPassword(p, Hash(q)) <==> Key(p) == Key(q)
  {
    if Hash(q) == Hash(p) {
      var lp, lq := Latin1(Key(p)), Latin1(Key(q));
      assert lp == Hash(p)[|HASH_PREFIX|..];
      assert lq == Hash(q)[|HASH_PREFIX|..];
      assert forall i :: 0 <= i < |lp| ==> Key(p)[i] as int == lp[i] as int == Key(q)[i] as int;
    }
  }

  /** Passwords of at most 72 bytes are read whole, so only the password itself verifies. */
  lemma ShortPasswordsAreExact(p: string, q: string)
    requires |Utf8(p)| <= BCRYPT_MAX_BYTES && |Utf8(q)| <= BCRYPT_MAX_BYTES
    ensures VerifyPassword(p, Hash(q)) <==> Utf8(p) == Utf8(q)
  {
    VerifyHash(p, q);
  }

  /**
   * Whatever follows the first 72 bytes is ignored: two passwords that share
   * a prefix of at least 72 bytes verify against each other's hash.
   */
  lemma TailBeyond72BytesIgnored(prefix: string, s: string, t: string)
    requires |Utf8(prefix)| >= BCRYPT_MAX_BYTES
    ensures VerifyPassword(prefix + s, Hash(prefix + t))
  {
    Utf8Concat(prefix, s);
    Utf8Concat(prefix, t);
    assert Key(prefix + s) == Utf8(prefix)[..BCRYPT_MAX_BYTES] == Key(prefix + t);
  }

  // ---------------------------------------------------------------------------
  // The shape of the registry.

  /** Every key listed in `order` is a key of `users`. */
  predicate Listed(users: map<string, UserInDB>, order: seq<string>) {
    forall i :: 0 <= i < |order| ==> order[i] in users
  }

  /**
   * The registry's invariant: `order` lists each key exactly once, and each
   * record is stored under its own username.
   */
  ghost predicate WellFormed(users: map<string, UserInDB>, order: seq<string>) {
    && Listed(users, order)
    && (forall k :: k in users ==> k in order)
    && (forall i, j :: 0 <= i < j < |order| ==> order[i] != order[j])
    && (forall k :: k in users ==> users[k].username == k)
  }

  /** The record `register_new_user` stores. */
  function NewRecord(username: string, email: Option<string>, password: Option<string>,
                     walletAddress: Option<string>): (u: UserInDB)
    ensures u.username == username && u.email == email && u.walletAddress == walletAddress
    ensures !u.disabled
    ensures u.hashedPassword.Some? <==> Truthy(password)
    ensures Truthy(password) ==> VerifyPassword(password.value, u.hashedPassword.value)
  {
    UserInDB(username, email, false, walletAddress,
             if Truthy(password) then Some(Hash(password.value)) else None)
  }

  /** The administrator seeded at start-up: it has a password and no wallet. */
  function AdminRecord(): UserInDB {
    UserInDB(ADMIN_USERNAME, Some(ADMIN_EMAIL), false, None, Some(Hash(ADMIN_PASSWORD)))
  }

  // ---------------------------------------------------------------------------
  // Lookup (`get_user`).

  /**
   * The position, in insertion order, of the first record whose wallet is
   * `address`; |order| when no record has it.
   */
  function OwnerIndex(users: map<string, UserInDB>, order: seq<string>, address: string): (i: nat)
    requires Listed(users, order)
    ensures i <= |order|
    ensures i < |order| ==> users[order[i]].walletAddress == Some(address)
    ensures forall j :: 0 <= j < i ==> users[order[j]].walletAddress != Some(address)
  {
    if order == [] then 0
    else if users[order[0]].walletAddress == Some(address) then 0
    else 1 + OwnerIndex(users, order[1..], address)
  }

  /**
   * `get_user`: an exact username hit first; otherwise, given a wallet
   * address, the first record holding it; otherwise nothing.
   */
  function Lookup(users: map<string, UserInDB>, order: seq<string>,
                  username: Option<string>, walletAddress: Option<string>): (r: Option<UserInDB>)
    requires Listed(users, order)
    ensures r.Some? ==> r.value in users.Values
    ensures Truthy(username) && username.value in users ==> r.Some?
    ensures r.Some? && !(Truthy(username) && username.value in users) ==>
      Truthy(walletAddress) && r.value.walletAddress == walletAddress
  {
    if Truthy(username) && username.value in users then Some(users[username.value])
    else if Truthy(walletAddress) then
      var i := OwnerIndex(users, order, walletAddress.value);
      if i < |order| then Some(users[order[i]]) else None
    else None
  }

  /** A username that is a key wins over any wallet address. */
  lemma LookupPrefersUsername(users: map<string, UserInDB>, order: seq<string>,
                              username: string, walletAddress: Option<string>)
    requires Listed(users, order)
    requires username != "" && username in users
    ensures Lookup(users, order, Some(username), walletAddress) == Some(users[username])
  {
  }

  /**
   * Without a username hit, a wallet lookup finds a record exactly when some
   * record carries that address, and what it finds carries it and is the
   * first such record in insertion order.
   */
  lemma LookupByWallet(users: map<string, UserInDB>, order: seq<string>,
                       username: Option<string>, address: string)
    requires WellFormed(users, order)
    requires !(Truthy(username) && username.value in users)
    requires address != ""
    ensures var r := Lookup(users, order, username, Some(address));
      && (r.Some? <==> exists k :: k in users && users[k].walletAddress == Some(address))
      && (r.Some? ==> r.value.walletAddress == Some(address) && r.value.username in users
                      && users[r.value.username] == r.value)
      && (r.Some? ==> exists i :: 0 <= i < |order| && r.value == users[order[i]]
                        && forall j :: 0 <= j < i ==> users[order[j]].walletAddress != Some(address))
  {
    var i := OwnerIndex(users, order, address);
    if k :| k in users && users[k].walletAddress == Some(address) {
      var j :| 0 <= j < |order| && order[j] == k;
      assert i <= j;
    }
  }

  /**
   * Appending a record that holds `address` to a registry in which no record
   * held it makes that record the first owner.
   */
  lemma {:induction false} OwnerIndexAppend(users: map<string, UserInDB>, users': map<string, UserInDB>,
                                            order: seq<string>, k: string, address: string)
    requires Listed(users, order) && Listed(users', order) && k in users'
    requires forall i :: 0 <= i < |order| ==> users'[order[i]] == users[order[i]]
    requires OwnerIndex(users, order, address) == |order|
    requires users'[k].walletAddress == Some(address)
    ensures OwnerIndex(users', order + [k], address) == |order|
  {
    if order == [] {
      assert (order + [k])[0] == k;
    } else {
      assert (order + [k])[0] == order[0];
      assert (order + [k])[1..] == order[1..] + [k];
      OwnerIndexAppend(users, users', order[1..], k, address);
    }
  }

  // ---------------------------------------------------------------------------
  // The password branch of `authenticate_user`.

  /**
   * With a username and a password (both truthy), the user is found by name
   * and has a truthy hash that the password verifies against; `None` models
   * the source's `False`.
   */
  function CheckPassword(users: map<string, UserInDB>, order: seq<string>,
                         username: Option<string>, password: Option<string>): (r: Option<UserInDB>)
    requires Listed(users, order)
    ensures r.Some? <==>
      && Truthy(username) && Truthy(password) && username.value in users
      && Truthy(users[username.value].hashedPassword)
      && VerifyPassword(password.value, users[username.value].hashedPassword.value)
    ensures r.Some? ==> r.value == users[username.value]
  {
    if !(Truthy(username) && Truthy(password)) then None
    else
      match Lookup(users, order, username, None)
      case None => None
      case Some(user) =>
        if !Truthy(user.hashedPassword) then None
        else if !VerifyPassword(password.value, user.hashedPassword.value) then None
        else Some(user)
  }

  /**
   * A user who registered with a non-empty password can log in with it, and
   * with exactly the passwords that agree with it on the bytes bcrypt reads.
   */
  lemma RegisteredPasswordAuthenticates(users: map<string, UserInDB>, order: seq<string>,
                                        username: string, email: Option<string>, password: string,
                                        walletAddress: Option<string>, attempt: string)
    requires WellFormed(users, order)
    requires username != "" && username !in users && password != ""
    ensures var rec := NewRecord(username, email, Some(password), walletAddress);
      Listed(users[username := rec], order + [username]) &&
      CheckPassword(users[username := rec], order + [username], Some(username), Some(attempt))
        == (if Key(attempt) == Key(password) then Some(rec) else None)
  {
    VerifyHash(attempt, password);
  }

  /** A record without a password hash (a wallet-only user) never passes the password check. */
  lemma NoHashNoPasswordLogin(users: map<string, UserInDB>, order: seq<string>,
                              username: string, password: Option<string>)
    requires Listed(users, order)
    requires username in users && users[username].hashedPassword.None?
    ensures CheckPassword(users, order, Some(username), password).None?
  {
  }

  /** The seeded administrator logs in with the seeded password. */
  lemma AdminLogsIn()
    ensures CheckPassword(map[ADMIN_USERNAME := AdminRecord()], [ADMIN_USERNAME],
                          Some(ADMIN_USERNAME), Some(ADMIN_PASSWORD)) == Some(AdminRecord())
  {
  }

  // ---------------------------------------------------------------------------
  // The username generated for a new wallet user.

  /** Python's `s[:n]`: the first n characters, or all of s when it is shorter. */
  function Take(s: string, n: nat): (t: string)
    ensures t <= s && |t| == if |s| < n then |s| else n
  {
    if |s| <= n then s else s[..n]
  }

  /** `f"user_{wallet_address[:8]}"`. */
  function WalletUsername(address: string): (name: string)
    ensures |name| == 5 + if |address| < 8 then |address| else 8
    ensures name[..5] == "user_" && name[5..] <= address
  {
    "user_" + Take(address, 8)
  }

  // ---------------------------------------------------------------------------
  // Tokens. A JWT is modelled by the claims it carries and the key and
  // algorithm it was signed with; signing and signature checking are not
  // modelled beyond "signed with SECRET_KEY under ALGORITHM".

  datatype Claims = Claims(sub: Option<string>, walletAddress: Option<string>, exp: int)

  datatype Jwt = Jwt(claims: Claims, key: string, algorithm: string)

  /**
   * `create_access_token`: the claims plus an expiry `now + expiresDelta`
   * seconds; a missing or zero delta (a falsy `timedelta`) means 15 minutes.
   */
  function CreateAccessToken(sub: Option<string>, walletAddress: Option<string>,
                             expiresDelta: Option<int>, now: int): (t: Jwt)
    ensures t.claims.sub == sub && t.claims.walletAddress == walletAddress
    ensures t.claims.exp == now + if expiresDelta.Some? && expiresDelta.value != 0
                                  then expiresDelta.value else DEFAULT_EXPIRE_MINUTES * 60
  {
    var delta := if expiresDelta.Some? && expiresDelta.value != 0
                 then expiresDelta.value else DEFAULT_EXPIRE_MINUTES * 60;
    Jwt(Claims(sub, walletAddress, now + delta), SECRET_KEY, ALGORITHM)
  }

  /**
   * `jwt.decode`: the claims of a token signed with our key and algorithm
   * whose expiry has not passed; `None` models a `JWTError`.
   */
  function DecodeToken(token: Jwt, now: int): (r: Option<Claims>)
    ensures r.Some? <==> token.key == SECRET_KEY && token.algorithm == ALGORITHM && now <= token.claims.exp
    ensures r.Some? ==> r.value == token.claims
  {
    if token.key == SECRET_KEY && token.algorithm == ALGORITHM && now <= token.claims.exp
    then Some(token.claims)
    else None
  }

  /** A token decodes to the claims it was created with until it expires, and not after. */
  lemma TokenRoundTrip(sub: Option<string>, walletAddress: Option<string>, delta: int, now: int, later: int)
    requires delta > 0 && now <= later
    ensures DecodeToken(CreateAccessToken(sub, walletAddress, Some(delta), now), later)
            == if later <= now + delta then Some(Claims(sub, walletAddress, now + delta)) else None
  {
  }

  // ---------------------------------------------------------------------------
  // Resolving the bearer of a token (`get_current_user`, `get_current_active_user`).

  /**
   * The user a token names: by its `sub` claim if that is truthy, otherwise
   * by its wallet claim; every failure is the same 401.
   */
  function GetCurrentUser(users: map<string, UserInDB>, order: seq<string>, token: Jwt, now: int)
    : (r: Result<UserInDB, HttpError>)
    requires WellFormed(users, order)
    ensures r.Failure? ==> r.error == CREDENTIALS_ERROR
    ensures r.Success? ==> r.value.username in users && users[r.value.username] == r.value
    ensures r.Success? ==> DecodeToken(token, now).Some?
  {
    match DecodeToken(token, now)
    case None => Failure(CREDENTIALS_ERROR)
    case Some(claims) =>
      if !Truthy(claims.sub) && !Truthy(claims.walletAddress) then Failure(CREDENTIALS_ERROR)
      else
        var user := if Truthy(claims.sub) then Lookup(users, order, claims.sub, None)
                    else Lookup(users, order, None, claims.walletAddress);
        if user.None? then Failure(CREDENTIALS_ERROR) else Success(user.value)
  }

  /**
   * A valid token's subject is looked up by name only: it resolves exactly
   * when that name is registered, whatever wallet claim it also carries.
   */
  lemma CurrentUserBySubject(users: map<string, UserInDB>, order: seq<string>, token: Jwt, now: int)
    requires WellFormed(users, order)
    requires DecodeToken(token, now).Some? && Truthy(token.claims.sub)
    ensures var name := token.claims.sub.value;
      GetCurrentUser(users, order, token, now)
        == if name in users then Success(users[name]) else Failure(CREDENTIALS_ERROR)
  {
  }

  /** Without a subject, a valid token resolves exactly when some record holds its wallet claim. */
  lemma CurrentUserByWallet(users: map<string, UserInDB>, order: seq<string>, token: Jwt, now: int)
    requires WellFormed(users, order)
    requires DecodeToken(token, now).Some? && !Truthy(token.claims.sub)
    ensures var r := GetCurrentUser(users, order, token, now);
      && (r.Success? <==> (Truthy(token.claims.walletAddress) &&
            exists k :: k in users && users[k].walletAddress == token.claims.walletAddress))
      && (r.Success? ==> r.value.walletAddress == token.claims.walletAddress)
  {
    if Truthy(token.claims.walletAddress) {
      LookupByWallet(users, order, None, token.claims.walletAddress.value);
    }
  }

  /** `get_current_active_user`: a disabled user is refused with 400 "Inactive user". */
  function GetCurrentActiveUser(users: map<string, UserInDB>, order: seq<string>, token: Jwt, now: int)
    : (r: Result<UserInDB, HttpError>)
    requires WellFormed(users, order)
    ensures var current := GetCurrentUser(users, order, token, now);
      && (current.Failure? ==> r == current)
      && (current.Success? && current.value.disabled ==> r == Failure(INACTIVE_USER))
      && (current.Success? && !current.value.disabled ==> r == current)
  {
    match GetCurrentUser(users, order, token, now)
    case Failure(e) => Failure(e)
    case Success(user) => if user.disabled then Failure(INACTIVE_USER) else Success(user)
  }

  /** The stored record of `name` with its email replaced and nothing else changed. */
  function WithEmail(users: map<string, UserInDB>, name: string, email: string): (users': map<string, UserInDB>)
    requires name in users
    ensures users'.Keys == users.Keys
    ensures forall k :: k in users && k != name ==> users'[k] == users[k]
    ensures users'[name].email == Some(email)
    ensures users'[name].ToUser().(email := None) == users[name].ToUser().(email := None)
    ensures users'[name].hashedPassword == users[name].hashedPassword
  {
    users[name := users[name].(email := Some(email))]
  }

  // ---------------------------------------------------------------------------
  // The registry itself: the module-level dictionary and the functions of
  // auth.py that read or insert into it.

  class UserRegistry {
    /** `fake_users_db`. */
    var users: map<string, UserInDB>
    /** The keys of `users` in insertion order (the iteration order of `db.values()`). */
    var order: seq<string>

    ghost predicate Valid()
      reads this
    {
      WellFormed(users, order)
    }

    /** Module load: an empty dictionary into which the administrator is seeded. */
    constructor ()
      ensures Valid()
      ensures users == map[ADMIN_USERNAME := AdminRecord()] && order == [ADMIN_USERNAME]
    {
      var db: map<string, UserInDB> := map[];
      var keys: seq<string> := [];
      if ADMIN_USERNAME !in db {
        db := db[ADMIN_USERNAME := AdminRecord()];
        keys := keys + [ADMIN_USERNAME];
      }
      users, order := db, keys;
    }

    /** `get_user`: the dictionary lookup, then the scan over the records in order. */
    method GetUser(username: Option<string>, walletAddress: Option<string>) returns (r: Option<UserInDB>)
      requires Valid()
      ensures r == Lookup(users, order, username, walletAddress)
    {
      if Truthy(username) && username.value in users {
        return Some(users[username.value]);
      }
      if Truthy(walletAddress) {
        var i := 0;
        while i < |order|
          invariant 0 <= i <= |order|
          invariant forall j :: 0 <= j < i ==> users[order[j]].walletAddress != walletAddress
        {
          if users[order[i]].walletAddress == walletAddress {
            return Some(users[order[i]]);
          }
          i := i + 1;
        }
      }
      return None;
    }

    /**
     * `register_new_user`: refuses a taken username with 400 and changes
     * nothing; otherwise stores the new record (hashing the password only
     * when it is truthy) and returns its public view.
     */
    method RegisterNewUser(username: string, email: Option<string>, password: Option<string>,
                           walletAddress: Option<string>) returns (r: Result<User, HttpError>)
      requires Valid()
      modifies this
      ensures Valid()
      ensures username in old(users) ==>
        r == Failure(DUPLICATE_USERNAME) && users == old(users) && order == old(order)
      ensures username !in old(users) ==>
        && r == Success(NewRecord(username, email, password, walletAddress).ToUser())
        && users == old(users)[username := NewRecord(username, email, password, walletAddress)]
        && order == old(order) + [username]
    {
      if username in users {
        return Failure(DUPLICATE_USERNAME);
      }
      var record := NewRecord(username, email, password, walletAddress);
      users := users[username := record];
      order := order + [username];
      r := Success(record.ToUser());
    }

    /**
     * `authenticate_user`. A truthy wallet address takes precedence: its
     * first owner is returned, or else a fresh user named after the address
     * is registered and returned. Otherwise a username and a password are
     * checked. `None` models the source's `False`. `clock(n)` is the
     * timestamp read on the n-th pass of the renaming loop.
     */
    method AuthenticateUser(username: Option<string>, password: Option<string>,
                            walletAddress: Option<string>, clock: nat -> string)
      returns (r: Option<UserInDB>)
      requires Valid()
      modifies this
      ensures Valid()
      ensures !Truthy(walletAddress) ==>
        users == old(users) && order == old(order) && r == CheckPassword(users, order, username, password)
      ensures Truthy(walletAddress) ==> r.Some? && r.value.walletAddress == walletAddress
      ensures Truthy(walletAddress) && old(Lookup(users, order, None, walletAddress)).Some? ==>
        r == old(Lookup(users, order, None, walletAddress)) && users == old(users) && order == old(order)
      ensures Truthy(walletAddress) && old(Lookup(users, order, None, walletAddress)).None? ==>
        && r.value.username !in old(users)
        && WalletUsername(walletAddress.value) <= r.value.username
        && r.value == NewRecord(r.value.username, None, None, walletAddress)
        && users == old(users)[r.value.username := r.value]
        && order == old(order) + [r.value.username]
    {
      if Truthy(walletAddress) {
        var user := GetUser(None, walletAddress);
        if user.Some? {
          return user;
        }
        var name := WalletUsername(walletAddress.value);
        var n: nat := 0;
        while name in users
          invariant WalletUsername(walletAddress.value) <= name
          decreases set k | k in users && |k| >= |name|
        {
          var longer := name + "_" + clock(n);
          ghost var before := set k | k in users && |k| >= |name|;
          ghost var after := set k | k in users && |k| >= |longer|;
          assert after <= before && name in before && name !in after;
          name := longer;
          n := n + 1;
        }
        ghost var users0, order0 := users, order;
        var registered := RegisterNewUser(name, None, None, walletAddress);
        OwnerIndexAppend(users0, users, order0, name, walletAddress.value);
        r := GetUser(None, walletAddress);
        return r;
      }
      if Truthy(username) && Truthy(password) {
        var user := GetUser(username, None);
        if user.None? || !Truthy(user.value.hashedPassword) {
          return None;
        }
        if !VerifyPassword(password.value, user.value.hashedPassword.value) {
          return None;
        }
        return user;
      }
      return None;
    }
  }
}
