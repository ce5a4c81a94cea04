/** The `users` table (backend/app/models/user.py), keyed by email as the code looks
    records up, with the table's unique-email and integer-id columns. Times are whole
    seconds of `datetime.utcnow()`, passed in by the caller. */
module UserModel {
  import opened Options
  import opened Primitives

  datatype UserRecord = UserRecord(
    id: nat,
    email: string,
    passwordHash: PasswordHash,
    fullName: Option<string>,
    role: string,
    isActive: bool,
    resetToken: Option<Digest>,
    resetTokenExpires: Option<int>,
    uvciUsername: Option<string>,
    uvciPasswordEncrypted: Option<Ciphertext>)

  /** An HTTP error raised with `HTTPException(status_code, detail)`. */
  datatype HttpError = HttpError(status: nat, detail: string)

  class UserTable {
    var users: map<string, UserRecord>
    /** The next primary key the database hands out. */
    var nextId: nat

    /** Each record sits under its own email, and ids are below `nextId` and distinct. */
    ghost predicate Valid()
      reads this
    {
      (forall e :: e in users ==> users[e].email == e && users[e].id < nextId)
      && (forall a, b :: a in users && b in users && a != b ==> users[a].id != users[b].id)
    }

    constructor ()
      ensures Valid() && users == map[] && nextId == 1
    {
      users := map[];
      nextId := 1;
    }
  }

  /** A record after an update that keeps its email and id keeps the table valid. */
  lemma UpdatePreservesValid(db: UserTable, email: string, rec: UserRecord)
    requires db.Valid() && email in db.users
    requires rec.email == email && rec.id == db.users[email].id
    ensures var u := db.users[email := rec];
      (forall e :: e in u ==> u[e].email == e && u[e].id < db.nextId)
      && (forall a, b :: a in u && b in u && a != b ==> u[a].id != u[b].id)
  {
  }
}
