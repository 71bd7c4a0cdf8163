/**
 * The request handlers of backend/app/main.py that read or change the user
 * registry: the token endpoint, registration and the profile update. Each
 * handler receives the registry it works on; the request's clock reading is
 * the parameter `now` (seconds).
 */
module Server {
  import opened Wrappers
  import opened Users

  const LOGIN_ERROR: HttpError := HttpError(401, "Incorrect username or password")
  const TOKEN_TYPE: string := "bearer"
  const REGISTERED: string := "User registered successfully"
  const PROFILE_UPDATED: string := "Profile updated successfully"
  const NO_CHANGES: string := "No changes made"

  /** The body of a successful `POST /api/token`. */
  datatype TokenResponse = TokenResponse(accessToken: Jwt, tokenType: string)

  /** The body of a successful `POST /api/register`. */
  datatype RegisterResponse = RegisterResponse(message: string, username: string)

  /** The token the endpoint issues for `user` at time `now`: its name as subject, valid 30 minutes. */
  function AccessTokenFor(user: UserInDB, now: int): (t: Jwt)
    ensures DecodeToken(t, now) == Some(Claims(Some(user.username), None, now + 30 * 60))
  {
    CreateAccessToken(Some(user.username), None, Some(ACCESS_TOKEN_EXPIRE_MINUTES * 60), now)
  }

  /**
   * `POST /api/token`. Only a username and a password reach
   * `authenticate_user`, so the wallet branch (which registers users) is never
   * taken and the registry is left as it was.
   */
  method LoginForAccessToken(db: UserRegistry, username: string, password: string, now: int)
    returns (r: Result<TokenResponse, HttpError>)
    requires db.Valid()
    modifies db
    ensures db.Valid() && db.users == old(db.users) && db.order == old(db.order)
    ensures var user := CheckPassword(db.users, db.order, Some(username), Some(password));
      && (user.None? ==> r == Failure(LOGIN_ERROR))
      && (user.Some? ==> r == Success(TokenResponse(AccessTokenFor(user.value, now), TOKEN_TYPE)))
  {
    var user := db.AuthenticateUser(Some(username), Some(password), None, n => "");
    if user.None? {
      return Failure(LOGIN_ERROR);
    }
    var token := CreateAccessToken(Some(user.value.username), None,
                                   Some(ACCESS_TOKEN_EXPIRE_MINUTES * 60), now);
    return Success(TokenResponse(token, TOKEN_TYPE));
  }

  /**
   * A token issued by the token endpoint identifies, until it expires, the
   * very user who logged in, and is refused once it has expired.
   */
  lemma IssuedTokenIdentifiesUser(users: map<string, UserInDB>, order: seq<string>,
                                  username: string, password: string, now: int, later: int)
    requires WellFormed(users, order)
    requires CheckPassword(users, order, Some(username), Some(password)).Some?
    requires now <= later
    ensures var user := CheckPassword(users, order, Some(username), Some(password)).value;
      GetCurrentUser(users, order, AccessTokenFor(user, now), later)
        == if later <= now + 30 * 60 then Success(user) else Failure(CREDENTIALS_ERROR)
  {
    var user := CheckPassword(users, order, Some(username), Some(password)).value;
    assert user == users[username];
    CurrentUserBySubject(users, order, AccessTokenFor(user, now), if later <= now + 30 * 60 then later else now);
  }

  /**
   * `POST /api/register`: registers with the given email and password and
   * no wallet; a duplicate username's 400 propagates unchanged.
   */
  method Register(db: UserRegistry, username: string, email: string, password: string)
    returns (r: Result<RegisterResponse, HttpError>)
    requires db.Valid()
    modifies db
    ensures db.Valid()
    ensures username in old(db.users) ==>
      r == Failure(DUPLICATE_USERNAME) && db.users == old(db.users) && db.order == old(db.order)
    ensures username !in old(db.users) ==>
      && r == Success(RegisterResponse(REGISTERED, username))
      && db.users == old(db.users)[username := NewRecord(username, Some(email), Some(password), None)]
      && db.order == old(db.order) + [username]
  {
    var user := db.RegisterNewUser(username, Some(email), Some(password), None);
    match user
    case Failure(e) => return Failure(e);
    case Success(u) => return Success(RegisterResponse(REGISTERED, u.username));
  }

  /**
   * `PUT /api/users/me`: the bearer must be an active user; a truthy email
   * replaces that user's email and nothing else, any other request changes
   * nothing.
   */
  method UpdateUserProfile(db: UserRegistry, token: Jwt, now: int, email: Option<string>)
    returns (r: Result<string, HttpError>)
    requires db.Valid()
    modifies db
    ensures db.Valid() && db.order == old(db.order)
    ensures var current := GetCurrentActiveUser(old(db.users), old(db.order), token, now);
      && (current.Failure? ==> r == Failure(current.error) && db.users == old(db.users))
      && (current.Success? && Truthy(email) ==>
            r == Success(PROFILE_UPDATED)
            && db.users == WithEmail(old(db.users), current.value.username, email.value))
      && (current.Success? && !Truthy(email) ==> r == Success(NO_CHANGES) && db.users == old(db.users))
  {
    var current := GetCurrentActiveUser(db.users, db.order, token, now);
    if current.Failure? {
      return Failure(current.error);
    }
    if Truthy(email) {
      db.users := WithEmail(db.users, current.value.username, email.value);
      return Success(PROFILE_UPDATED);
    }
    return Success(NO_CHANGES);
  }

  /** Changing a user's email does not change who can log in with which password. */
  lemma EmailUpdateKeepsCredentials(users: map<string, UserInDB>, order: seq<string>, name: string,
                                    email: string, username: Option<string>, password: Option<string>)
    requires WellFormed(users, order) && name in users
    ensures Listed(WithEmail(users, name, email), order)
    ensures CheckPassword(WithEmail(users, name, email), order, username, password).Some?
        <==> CheckPassword(users, order, username, password).Some?
  {
  }
}
