/** The account endpoints of backend/app/api/auth.py over the user table. Sending the
    reset e-mail and the console/file copies of the link are outside the model; the forgot
    endpoint returns the raw token it would send. */
module AuthApi {
  import opened Options
  import opened Primitives
  import opened UserModel
  import AuthService

  /** The `UserCreate` body. */
  datatype UserCreate = UserCreate(email: string, password: string, fullName: Option<string>, role: string)

  /** The login response: the token and the user it was issued for. */
  datatype TokenResponse = TokenResponse(accessToken: AuthService.Jwt, tokenType: string, user: UserRecord)

  const EmailTaken := HttpError(400, "Email already registered")
  const BadLogin := HttpError(401, "Incorrect email or password")
  const ForgotMessage := "Si cet email existe dans notre système, vous recevrez un lien de réinitialisation."
  const ResetMismatch := HttpError(400, "Les mots de passe ne correspondent pas")
  const ResetTooShort := HttpError(400, "Le mot de passe doit contenir au moins 8 caractères")
  const ResetInvalid := HttpError(400, "Token invalide ou expiré")
  const ResetDone := "Mot de passe réinitialisé avec succès"
  /** Lifetime of a reset token: 30 minutes, in seconds. */
  const ResetLifetime := 30 * 60

  /** The row `register` adds. */
  function NewUser(id: nat, user: UserCreate): (rec: UserRecord)
    ensures rec.email == user.email && rec.role == user.role && rec.fullName == user.fullName
    ensures VerifyPassword(user.password, rec.passwordHash) && rec.isActive
    ensures rec.resetToken == None && rec.resetTokenExpires == None && rec.uvciUsername == None && rec.uvciPasswordEncrypted == None
  {
    UserRecord(id, user.email, HashPassword(user.password), user.fullName, user.role, true, None, None, None, None)
  }

  /** `register`. */
  method Register(db: UserTable, user: UserCreate) returns (r: Result<UserRecord, HttpError>)
    requires db.Valid()
    modifies db
    ensures db.Valid()
    ensures user.email in old(db.users) ==> r == Err(EmailTaken) && db.users == old(db.users) && db.nextId == old(db.nextId)
    ensures user.email !in old(db.users) ==>
      (r == Ok(NewUser(old(db.nextId), user)) && db.users == old(db.users)[user.email := r.value]
       && db.nextId == old(db.nextId) + 1)
  {
    if user.email in db.users {
      return Err(EmailTaken);
    }
    var rec := NewUser(db.nextId, user);
    db.users := db.users[user.email := rec];
    db.nextId := db.nextId + 1;
    r := Ok(rec);
  }

  /** The claims `login` signs. */
  function LoginClaims(user: UserRecord): AuthService.Payload {
    map["sub" := AuthService.Text(user.email), "role" := AuthService.Text(user.role)]
  }

  /** `login` at time `now`; an unknown email and a wrong password are the same 401. */
  function Login(users: map<string, UserRecord>, email: string, password: string, now: int): (r: Result<TokenResponse, HttpError>)
    ensures r.Err? <==> email !in users || !VerifyPassword(password, users[email].passwordHash)
    ensures r.Err? ==> r.error == BadLogin
    ensures r.Ok? ==> (r.value.user == users[email] && r.value.tokenType == "bearer"
      && r.value.accessToken == AuthService.CreateAccessToken(LoginClaims(users[email]), Some(AuthService.AccessTokenLifetime), now))
  {
    if email !in users || !VerifyPassword(password, users[email].passwordHash) then Err(BadLogin)
    else
      var user := users[email];
      Ok(TokenResponse(AuthService.CreateAccessToken(LoginClaims(user), Some(AuthService.AccessTokenLifetime), now), "bearer", user))
  }

  /** A fresh registration can log in with its password, and the token it gets identifies
      it for the next 24 hours and no longer. */
  lemma LoginTokenIdentifiesUser(users: map<string, UserRecord>, email: string, password: string, now: int, later: int)
    requires email in users && users[email].email == email
    requires Login(users, email, password, now).Ok?
    ensures var token := Login(users, email, password, now).value.accessToken;
      AuthService.GetCurrentUser(users, token, later)
        == if later <= now + AuthService.AccessTokenLifetime then Ok(users[email]) else Err(AuthService.CredentialsError)
  {
    AuthService.IssuedTokenAuthenticates(users, email, users[email].role, AuthService.AccessTokenLifetime, now, later);
  }

  /** The record after `forgot_password` stored a reset token generated as `token`. */
  function WithResetToken(rec: UserRecord, token: string, now: int): (r: UserRecord)
    ensures r.resetToken == Some(AuthService.HashResetToken(token)) && r.resetTokenExpires == Some(now + ResetLifetime)
    ensures r.(resetToken := rec.resetToken, resetTokenExpires := rec.resetTokenExpires) == rec
  {
    rec.(resetToken := Some(AuthService.HashResetToken(token)), resetTokenExpires := Some(now + ResetLifetime))
  }

  /** `forgot_password`; `generated` is what `secrets.token_urlsafe(32)` returned. The answer
      is the same whether or not the email is known; `sent` is the raw token e-mailed, if any. */
  method ForgotPassword(db: UserTable, email: string, generated: string, now: int)
    returns (message: string, sent: Option<string>)
    requires db.Valid()
    modifies db
    ensures db.Valid() && db.nextId == old(db.nextId)
    ensures message == ForgotMessage
    ensures email !in old(db.users) ==> db.users == old(db.users) && sent == None
    ensures email in old(db.users) ==>
      (db.users == old(db.users)[email := WithResetToken(old(db.users)[email], generated, now)] && sent == Some(generated))
  {
    sent := None;
    if email in db.users {
      var rec := WithResetToken(db.users[email], generated, now);
      db.users := db.users[email := rec];
      sent := Some(generated);
    }
    message := ForgotMessage;
  }

  /** The two checks `reset_password` makes before any lookup, in the code's order. The
      length is Python's `len`, in code points. */
  function ResetValidation(newPassword: string, confirmPassword: string): (e: Option<HttpError>)
    ensures e == None <==> newPassword == confirmPassword && |newPassword| >= 8
    ensures newPassword != confirmPassword ==> e == Some(ResetMismatch)
    ensures e == Some(ResetTooShort) <==> newPassword == confirmPassword && |newPassword| < 8
  {
    if newPassword != confirmPassword then Some(ResetMismatch)
    else if |newPassword| < 8 then Some(ResetTooShort)
    else None
  }

  /** The query's filter: the stored hash equals the token's and the expiry is strictly after now. */
  predicate ResetMatches(rec: UserRecord, token: string, now: int) {
    rec.resetToken == Some(AuthService.HashResetToken(token))
      && rec.resetTokenExpires.Some? && rec.resetTokenExpires.value > now
  }

  /** The record after a successful reset: new hash, token and expiry cleared. */
  function AfterReset(rec: UserRecord, newPassword: string): (r: UserRecord)
    ensures VerifyPassword(newPassword, r.passwordHash)
    ensures r.resetToken == None && r.resetTokenExpires == None
    ensures r.(passwordHash := rec.passwordHash, resetToken := rec.resetToken, resetTokenExpires := rec.resetTokenExpires) == rec
  {
    rec.(passwordHash := HashPassword(newPassword), resetToken := None, resetTokenExpires := None)
  }

  /** A record that has been reset matches no token at any time: a token is good for one reset. */
  lemma ResetTokenSingleUse(rec: UserRecord, newPassword: string, token: string, now: int)
    ensures !ResetMatches(AfterReset(rec, newPassword), token, now)
  {
  }

  /** `reset_password` at time `now`. The query takes the first matching row; which one is
      not specified, so any matching row may be the one reset. */
  method ResetPassword(db: UserTable, token: string, newPassword: string, confirmPassword: string, now: int)
    returns (r: Result<string, HttpError>, resetEmail: Option<string>)
    requires db.Valid()
    modifies db
    ensures db.Valid() && db.nextId == old(db.nextId)
    ensures var v := ResetValidation(newPassword, confirmPassword);
      v.Some? ==> r == Err(v.value) && db.users == old(db.users) && resetEmail == None
    ensures ResetValidation(newPassword, confirmPassword) == None && (forall e :: e in old(db.users) ==> !ResetMatches(old(db.users)[e], token, now)) ==>
      r == Err(ResetInvalid) && db.users == old(db.users) && resetEmail == None
    ensures r.Ok? <==> (ResetValidation(newPassword, confirmPassword) == None
      && exists e :: e in old(db.users) && ResetMatches(old(db.users)[e], token, now))
    ensures r.Ok? ==> (r.value == ResetDone && resetEmail.Some? && resetEmail.value in old(db.users)
      && ResetMatches(old(db.users)[resetEmail.value], token, now)
      && db.users == old(db.users)[resetEmail.value := AfterReset(old(db.users)[resetEmail.value], newPassword)])
  {
    resetEmail := None;
    var v := ResetValidation(newPassword, confirmPassword);
    if v.Some? {
      return Err(v.value), None;
    }
    if !exists e :: e in db.users && ResetMatches(db.users[e], token, now) {
      return Err(ResetInvalid), None;
    }
    var e :| e in db.users && ResetMatches(db.users[e], token, now);
    UpdatePreservesValid(db, e, AfterReset(db.users[e], newPassword));
    db.users := db.users[e := AfterReset(db.users[e], newPassword)];
    resetEmail := Some(e);
    r := Ok(ResetDone);
  }

  /** The whole lifecycle: a token requested at `issued` resets the password until 30 minutes
      have passed, cannot be used twice, and the new password then logs in. */
  method ResetLifecycle(db: UserTable, email: string, generated: string, issued: int, used: int, newPassword: string)
    returns (first: Result<string, HttpError>, second: Result<string, HttpError>)
    requires db.Valid() && email in db.users
    requires issued <= used < issued + ResetLifetime && |newPassword| >= 8
    requires forall e :: e in db.users ==> db.users[e].resetToken != Some(AuthService.HashResetToken(generated))
    modifies db
    ensures first == Ok(ResetDone)
    ensures second == Err(ResetInvalid)
    ensures Login(db.users, email, newPassword, used).Ok?
  {
    var message, sent := ForgotPassword(db, email, generated, issued);
    assert ResetMatches(db.users[email], generated, used);
    var who;
    first, who := ResetPassword(db, generated, newPassword, newPassword, used);
    assert who == Some(email);
    second, who := ResetPassword(db, generated, newPassword, newPassword, used);
  }
}
