/** The authentication routes of the API server: the user table that
    register appends to and login searches, and the access/refresh token
    pair. Password hashing, JWT signing and verification and the clock are
    supplied from outside: a hash arrives as a value, signing and
    verification as the two functions of a `Jwt`, the clock as a reading
    in milliseconds. */
module AuthServer {
  import opened JsRuntime

  /** A stored user; `password` holds the bcrypt hash. */
  datatype User = User(id: string, email: string, password: string)

  /** A token payload: the user, the token type, issue and expiry times in
      seconds. */
  datatype Claims = Claims(userId: string, kind: string, iat: int, exp: int)

  datatype TokenPair = TokenPair(accessToken: string, refreshToken: string)

  /** An HTTP reply: a token pair, or a status code with an error message. */
  datatype Response = Tokens(pair: TokenPair) | Failed(status: int, error: string)

  /** Signing with the server secret, verification against it at a clock
      reading in seconds (which fails on a bad signature or an expired
      token), and the two token lifetimes in seconds. */
  datatype Jwt = Jwt(sign: Claims -> string, verify: (string, int) -> Option<Claims>,
                     accessExpiry: int, refreshExpiry: int)

  const ACCESS: string := "access"
  const REFRESH: string := "refresh"

  /** `Math.floor(Date.now() / 1000)` for a clock reading in milliseconds. */
  function Seconds(nowMillis: int): int
  {
    nowMillis / 1000
  }

  /** `generateTokens(userId)`: with a sound signer, the access token
      carries type "access" and the refresh token type "refresh", both for
      `userId`, issued at the same second; each verifies to its payload
      before its own lifetime has passed and fails to verify from then on. */
  function GenerateTokens(userId: string, nowMillis: int, jwt: Jwt): (r: TokenPair)
    ensures Sound(jwt) ==>
              forall t :: jwt.verify(r.accessToken, t) ==
                if t < Seconds(nowMillis) + jwt.accessExpiry
                then Some(Claims(userId, ACCESS, Seconds(nowMillis), Seconds(nowMillis) + jwt.accessExpiry))
                else None
    ensures Sound(jwt) ==>
              forall t :: jwt.verify(r.refreshToken, t) ==
                if t < Seconds(nowMillis) + jwt.refreshExpiry
                then Some(Claims(userId, REFRESH, Seconds(nowMillis), Seconds(nowMillis) + jwt.refreshExpiry))
                else None
  {
    var iat := Seconds(nowMillis);
    TokenPair(jwt.sign(Claims(userId, ACCESS, iat, iat + jwt.accessExpiry)),
              jwt.sign(Claims(userId, REFRESH, iat, iat + jwt.refreshExpiry)))
  }

  /** A signer that never produces an empty token, and a verifier that
      accepts every token the signer produced, with its payload, exactly
      while the clock reading is before the payload's `exp`: a reading at
      or after `exp` rejects the token as expired. */
  ghost predicate Sound(jwt: Jwt)
  {
    (forall c :: jwt.sign(c) != "") &&
    (forall c, t :: jwt.verify(jwt.sign(c), t) == if t < c.exp then Some(c) else None)
  }

  // ---------------------------------------------------------------------
  // The user table

  /** `users.some(u => u.email === email)`. */
  predicate HasEmail(users: seq<User>, email: string)
  {
    exists i :: 0 <= i < |users| && users[i].email == email
  }

  /** No two users share an email. */
  predicate UniqueEmails(users: seq<User>)
  {
    forall i, j :: 0 <= i < j < |users| ==> users[i].email != users[j].email
  }

  /** `users.find(u => u.email === email)`: the first user with that email. */
  function FindByEmail(users: seq<User>, email: string): (r: Option<User>)
    ensures r.None? <==> !HasEmail(users, email)
    ensures r.Some? ==> exists i :: 0 <= i < |users| && users[i] == r.value &&
                                    users[i].email == email &&
                                    forall j :: 0 <= j < i ==> users[j].email != email
  {
    var k := FindIndex(users, (u: User) => u.email == email);
    if k < 0 then None else Some(users[k])
  }

  /** The server's user store, which register appends to. */
  class UserStore {
    var users: seq<User>

    constructor (users: seq<User>)
      ensures this.users == users
    {
      this.users := users;
    }

    /** `POST /api/register`: an email already present is refused with 400
        and the table is left as it was; otherwise exactly one user with the
        given id, email and password hash is appended and a token pair for it
        is returned. No two users share an email afterwards if none did
        before. */
    method Register(email: string, hashed: string, id: string, nowMillis: int, jwt: Jwt)
      returns (response: Response)
      modifies this
      ensures HasEmail(old(users), email) ==>
                response == Failed(400, "User already exists") && users == old(users)
      ensures !HasEmail(old(users), email) ==>
                users == old(users) + [User(id, email, hashed)] &&
                response == Tokens(GenerateTokens(id, nowMillis, jwt))
      ensures UniqueEmails(old(users)) ==> UniqueEmails(users)
    {
      if HasEmail(users, email) {
        return Failed(400, "User already exists");
      }
      var user := User(id, email, hashed);
      users := users + [user];
      response := Tokens(GenerateTokens(user.id, nowMillis, jwt));
    }
  }

  /** `POST /api/login`: an unknown email is refused with "User not found",
      a failing password check with "Invalid password" (both 400); only a
      passing check on the first user with that email yields a token pair,
      for that user. `compare` is the password check against a stored hash. */
  function Login(users: seq<User>, email: string, password: string,
                 compare: (string, string) -> bool, nowMillis: int, jwt: Jwt): (r: Response)
    ensures !HasEmail(users, email) ==> r == Failed(400, "User not found")
    ensures r.Tokens? <==> HasEmail(users, email) &&
                           compare(password, FindByEmail(users, email).value.password)
    ensures r.Tokens? ==> r.pair == GenerateTokens(FindByEmail(users, email).value.id, nowMillis, jwt)
    ensures HasEmail(users, email) && r.Failed? ==> r == Failed(400, "Invalid password")
  {
    var user := FindByEmail(users, email);
    if user.None? then Failed(400, "User not found")
    else if !compare(password, user.value.password) then Failed(400, "Invalid password")
    else Tokens(GenerateTokens(user.value.id, nowMillis, jwt))
  }

  /** `POST /api/refresh`: a missing or empty token is refused with 400; a
      token that fails verification at the current second (bad signature or
      expired), or whose payload type is not "refresh", with 401; otherwise
      a new pair is issued for the user the verified token names. */
  function Refresh(refreshToken: Option<string>, nowMillis: int, jwt: Jwt): (r: Response)
    ensures !Present(refreshToken) ==> r == Failed(400, "Refresh token required")
    ensures Present(refreshToken) ==>
              var verified := jwt.verify(refreshToken.value, Seconds(nowMillis));
              (r.Tokens? <==> verified.Some? && verified.value.kind == REFRESH)
    ensures Present(refreshToken) && r.Failed? ==> r == Failed(401, "Invalid refresh token")
    ensures r.Tokens? ==>
              r.pair == GenerateTokens(jwt.verify(refreshToken.value, Seconds(nowMillis)).value.userId,
                                       nowMillis, jwt)
  {
    if !Present(refreshToken) then Failed(400, "Refresh token required")
    else
      var verified := jwt.verify(refreshToken.value, Seconds(nowMillis));
      if verified.None? || verified.value.kind != REFRESH then Failed(401, "Invalid refresh token")
      else Tokens(GenerateTokens(verified.value.userId, nowMillis, jwt))
  }

  // ---------------------------------------------------------------------
  // Properties relating the routes

  /** A register that succeeds keeps emails unique. */
  lemma RegisterKeepsEmailsUnique(users: seq<User>, u: User)
    requires UniqueEmails(users) && !HasEmail(users, u.email)
    ensures UniqueEmails(users + [u])
  {
    forall i, j | 0 <= i < j < |users| + 1
      ensures (users + [u])[i].email != (users + [u])[j].email
    {
      if j == |users| {
        assert (users + [u])[i] == users[i];
      }
    }
  }

  /** With unique emails, login looks up exactly the user with that email. */
  lemma LoginFindsTheUser(users: seq<User>, i: nat)
    requires UniqueEmails(users) && i < |users|
    ensures FindByEmail(users, users[i].email) == Some(users[i])
  {
    var r := FindByEmail(users, users[i].email);
    var k :| 0 <= k < |users| && users[k] == r.value && users[k].email == users[i].email &&
             forall j :: 0 <= j < k ==> users[j].email != users[i].email;
    assert k == i;
  }

  /** Right after a user registers, login with that email checks the
      password against the stored hash and, when it passes, issues tokens
      for the new user's id. */
  lemma LoginAfterRegister(users: seq<User>, id: string, email: string, hashed: string,
                           password: string, compare: (string, string) -> bool,
                           nowMillis: int, jwt: Jwt)
    requires !HasEmail(users, email)
    ensures Login(users + [User(id, email, hashed)], email, password, compare, nowMillis, jwt) ==
            if compare(password, hashed) then Tokens(GenerateTokens(id, nowMillis, jwt))
            else Failed(400, "Invalid password")
  {
    var all := users + [User(id, email, hashed)];
    assert all[|users|].email == email;
    assert forall j :: 0 <= j < |users| ==> all[j] == users[j];
    var r := FindByEmail(all, email);
    var k :| 0 <= k < |all| && all[k] == r.value && all[k].email == email &&
             forall j :: 0 <= j < k ==> all[j].email != email;
    assert k == |users|;
  }

  /** With a sound signer, the refresh token of an issued pair is accepted
      before it expires and yields a fresh pair for the same user. */
  lemma RefreshAcceptsIssuedRefreshToken(userId: string, issuedAt: int, nowMillis: int, jwt: Jwt)
    requires Sound(jwt)
    requires Seconds(nowMillis) < Seconds(issuedAt) + jwt.refreshExpiry
    ensures Refresh(Some(GenerateTokens(userId, issuedAt, jwt).refreshToken), nowMillis, jwt) ==
            Tokens(GenerateTokens(userId, nowMillis, jwt))
  {
    var c := Claims(userId, REFRESH, Seconds(issuedAt), Seconds(issuedAt) + jwt.refreshExpiry);
    assert jwt.sign(c) != "";
  }

  /** With a sound signer, the refresh token of an issued pair is refused
      with 401 once its lifetime has passed. */
  lemma RefreshRejectsExpiredRefreshToken(userId: string, issuedAt: int, nowMillis: int, jwt: Jwt)
    requires Sound(jwt)
    requires Seconds(issuedAt) + jwt.refreshExpiry <= Seconds(nowMillis)
    ensures Refresh(Some(GenerateTokens(userId, issuedAt, jwt).refreshToken), nowMillis, jwt) ==
            Failed(401, "Invalid refresh token")
  {
    var c := Claims(userId, REFRESH, Seconds(issuedAt), Seconds(issuedAt) + jwt.refreshExpiry);
    assert jwt.sign(c) != "";
  }

  /** With a sound signer, an access token is never accepted as a refresh
      token, whether or not it has expired. */
  lemma RefreshRejectsAccessToken(userId: string, issuedAt: int, nowMillis: int, jwt: Jwt)
    requires Sound(jwt)
    ensures Refresh(Some(GenerateTokens(userId, issuedAt, jwt).accessToken), nowMillis, jwt) ==
            Failed(401, "Invalid refresh token")
  {
    var c := Claims(userId, ACCESS, Seconds(issuedAt), Seconds(issuedAt) + jwt.accessExpiry);
    assert jwt.sign(c) != "";
    assert ACCESS[0] != REFRESH[0];
  }
}
