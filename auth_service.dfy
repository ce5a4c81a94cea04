/** The token and permission logic of backend/app/services/auth_service.py. A JWT is the
    claim map it carries (`Signed`) or a string the decoder rejects (`Malformed`); signing and
    the HS256 key are outside the model. The decoder follows python-jose's expiry rule: a
    token whose `exp` is an instant is accepted while the current time is not past it. */
module AuthService {
  import opened Options
  import opened Primitives
  import opened UserModel

  /** A claim value: a string, or an instant in seconds (`datetime` values are encoded so). */
  datatype Claim = Text(s: string) | Instant(t: int)

  type Payload = map<string, Claim>

  datatype Jwt = Signed(payload: Payload) | Malformed(raw: string)

  /** `ACCESS_TOKEN_EXPIRE_MINUTES = 60 * 24`, in seconds. */
  const AccessTokenLifetime := 60 * 24 * 60
  /** The expiry used when no (or a zero) `expires_delta` is passed: 15 minutes. */
  const DefaultLifetime := 15 * 60

  const Unauthorized := 401
  const Forbidden := 403
  const CredentialsError := HttpError(401, "Could not validate credentials")
  const PermissionError := HttpError(403, "Not enough permissions")

  /** `create_access_token(data, expires_delta)` at time `now`. `expires_delta` is read for
      truthiness, so a zero `timedelta` falls back to the 15-minute default like `None`. */
  function CreateAccessToken(data: Payload, expiresDelta: Option<int>, now: int): (token: Jwt)
    ensures token.Signed?
    ensures token.payload.Keys == data.Keys + {"exp"}
    ensures forall k :: k in data && k != "exp" ==> token.payload[k] == data[k]
    ensures expiresDelta.Some? && expiresDelta.value != 0 ==> token.payload["exp"] == Instant(now + expiresDelta.value)
    ensures expiresDelta.None? || expiresDelta.value == 0 ==> token.payload["exp"] == Instant(now + DefaultLifetime)
  {
    var expire := if expiresDelta.Some? && expiresDelta.value != 0 then now + expiresDelta.value else now + DefaultLifetime;
    Signed(data["exp" := Instant(expire)])
  }

  /** `jwt.decode`: the claims of a well-formed token that has not expired; a non-instant
      `exp` is a claims error. */
  function Decode(token: Jwt, now: int): (r: Option<Payload>)
    ensures r.Some? <==> (token.Signed?
      && ("exp" in token.payload ==> token.payload["exp"].Instant? && now <= token.payload["exp"].t))
    ensures r.Some? ==> r.value == token.payload
  {
    match token
    case Malformed(_) => None
    case Signed(payload) =>
      if "exp" in payload && !(payload["exp"].Instant? && now <= payload["exp"].t) then None
      else Some(payload)
  }

  /** The `sub` claim as the email lookup uses it. */
  function Subject(payload: Payload): Option<string> {
    if "sub" in payload && payload["sub"].Text? then Some(payload["sub"].s) else None
  }

  /** `get_current_user`: every failure, a bad token, a missing subject or an unknown email,
      is the same 401. */
  function GetCurrentUser(users: map<string, UserRecord>, token: Jwt, now: int): (r: Result<UserRecord, HttpError>)
    ensures r.Err? ==> r.error == CredentialsError
    ensures r.Ok? <==> Decode(token, now).Some? && Subject(token.payload).Some? && Subject(token.payload).value in users
    ensures r.Ok? ==> r.value == users[Subject(token.payload).value]
  {
    var payload := Decode(token, now);
    if payload.None? then Err(CredentialsError)
    else
      var email := Subject(payload.value);
      if email.None? || email.value !in users then Err(CredentialsError)
      else Ok(users[email.value])
  }

  /** `get_current_admin` applied to the user `get_current_user` produced. */
  function GetCurrentAdmin(current: Result<UserRecord, HttpError>): (r: Result<UserRecord, HttpError>)
    ensures current.Err? ==> r == current
    ensures current.Ok? ==> (r.Ok? <==> current.value.role == "admin")
    ensures current.Ok? && r.Err? ==> r.error == PermissionError
    ensures r.Ok? ==> r == current
  {
    match current
    case Err(_) => current
    case Ok(user) => if user.role != "admin" then Err(PermissionError) else current
  }

  /** `hash_reset_token`. */
  function HashResetToken(token: string): Digest {
    Sha256Hex(token)
  }

  /** `verify_reset_token`. */
  predicate VerifyResetToken(token: string, hashed: Digest) {
    HashResetToken(token) == hashed
  }

  /** A token verifies against its own hash, and `verify` is exactly equality of hashes. */
  lemma ResetTokenVerifies(token: string, other: string)
    ensures VerifyResetToken(token, HashResetToken(token))
    ensures VerifyResetToken(other, HashResetToken(token)) <==> HashResetToken(other) == HashResetToken(token)
  {
  }

  /** A token issued at `now` for a user still in the table is accepted until it expires and
      rejected afterwards: issuing and checking a session are a round trip. */
  lemma IssuedTokenAuthenticates(users: map<string, UserRecord>, email: string, role: string, delta: int, now: int, later: int)
    requires email in users && delta > 0
    ensures var token := CreateAccessToken(map["sub" := Text(email), "role" := Text(role)], Some(delta), now);
      GetCurrentUser(users, token, later) == (if later <= now + delta then Ok(users[email]) else Err(CredentialsError))
  {
    var token := CreateAccessToken(map["sub" := Text(email), "role" := Text(role)], Some(delta), now);
    assert "sub" in token.payload && token.payload["sub"] == Text(email);
    assert token.payload["exp"] == Instant(now + delta);
  }
}
