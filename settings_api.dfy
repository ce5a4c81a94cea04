/** The UVCI credential endpoints of backend/app/api/settings.py. The current user is the
    one `get_current_user` resolves from the bearer token; the Moodle check is outside the
    model and arrives as `accepted`. */
module SettingsApi {
  import opened Options
  import opened Primitives
  import opened UserModel
  import AuthService

  datatype UvciStatus = UvciStatus(isConnected: bool, username: Option<string>, message: string)

  const Connected := "Connecté"
  const NotConnected := "Non connecté"
  const UpdatedMessage := "Connexion UVCI réussie ! Le robot veille maintenant sur vos devoirs."
  const RejectedCredentials := HttpError(400, "Identifiants UVCI incorrects ou erreur de connexion Moodle.")
  const DeletedMessage := "Déconnexion UVCI effectuée"

  /** `get_uvci_status` for the current user. */
  function Status(user: UserRecord): (s: UvciStatus)
    ensures s.isConnected <==> Truthy(user.uvciUsername)
    ensures s.message == if s.isConnected then Connected else NotConnected
    ensures s.username == user.uvciUsername
  {
    var connected := Truthy(user.uvciUsername);
    UvciStatus(connected, user.uvciUsername, if connected then Connected else NotConnected)
  }

  /** The record after accepted credentials: the username and the encrypted password. */
  function WithCredentials(user: UserRecord, username: string, password: string): (r: UserRecord)
    ensures r.uvciUsername == Some(username) && r.uvciPasswordEncrypted == Encrypt(password)
    ensures r.(uvciUsername := user.uvciUsername, uvciPasswordEncrypted := user.uvciPasswordEncrypted) == user
  {
    user.(uvciUsername := Some(username), uvciPasswordEncrypted := Encrypt(password))
  }

  /** The record after `delete_uvci_credentials`. */
  function WithoutCredentials(user: UserRecord): (r: UserRecord)
    ensures r.uvciUsername == None && r.uvciPasswordEncrypted == None
    ensures r.(uvciUsername := user.uvciUsername, uvciPasswordEncrypted := user.uvciPasswordEncrypted) == user
  {
    user.(uvciUsername := None, uvciPasswordEncrypted := None)
  }

  /** After an update the status reports connected exactly when the stored username is
      non-empty: the update's own answer says connected even for an empty username. */
  lemma StatusAfterUpdate(user: UserRecord, username: string, password: string)
    ensures Status(WithCredentials(user, username, password)).isConnected <==> username != ""
    ensures Status(WithCredentials(user, username, password)).username == Some(username)
  {
  }

  /** After a delete the status is "not connected". */
  lemma StatusAfterDelete(user: UserRecord)
    ensures Status(WithoutCredentials(user)) == UvciStatus(false, None, NotConnected)
  {
  }

  /** `update_uvci_credentials`. */
  method UpdateCredentials(db: UserTable, token: AuthService.Jwt, now: int, username: string, password: string, accepted: bool)
    returns (r: Result<UvciStatus, HttpError>)
    requires db.Valid()
    modifies db
    ensures db.Valid() && db.nextId == old(db.nextId)
    ensures var current := AuthService.GetCurrentUser(old(db.users), token, now);
      current.Err? ==> r == Err(current.error) && db.users == old(db.users)
    ensures var current := AuthService.GetCurrentUser(old(db.users), token, now);
      current.Ok? && !accepted ==> r == Err(RejectedCredentials) && db.users == old(db.users)
    ensures var current := AuthService.GetCurrentUser(old(db.users), token, now);
      current.Ok? && accepted ==>
        (r == Ok(UvciStatus(true, Some(username), UpdatedMessage))
         && db.users == old(db.users)[current.value.email := WithCredentials(current.value, username, password)])
  {
    var current := AuthService.GetCurrentUser(db.users, token, now);
    if current.Err? {
      return Err(current.error);
    }
    if !accepted {
      return Err(RejectedCredentials);
    }
    var user := current.value;
    UpdatePreservesValid(db, user.email, WithCredentials(user, username, password));
    db.users := db.users[user.email := WithCredentials(user, username, password)];
    r := Ok(UvciStatus(true, Some(username), UpdatedMessage));
  }

  /** `delete_uvci_credentials`. */
  method DeleteCredentials(db: UserTable, token: AuthService.Jwt, now: int) returns (r: Result<string, HttpError>)
    requires db.Valid()
    modifies db
    ensures db.Valid() && db.nextId == old(db.nextId)
    ensures var current := AuthService.GetCurrentUser(old(db.users), token, now);
      current.Err? ==> r == Err(current.error) && db.users == old(db.users)
    ensures var current := AuthService.GetCurrentUser(old(db.users), token, now);
      current.Ok? ==>
        (r == Ok(DeletedMessage) && db.users == old(db.users)[current.value.email := WithoutCredentials(current.value)])
  {
    var current := AuthService.GetCurrentUser(db.users, token, now);
    if current.Err? {
      return Err(current.error);
    }
    var user := current.value;
    UpdatePreservesValid(db, user.email, WithoutCredentials(user));
    db.users := db.users[user.email := WithoutCredentials(user)];
    r := Ok(DeletedMessage);
  }
}
