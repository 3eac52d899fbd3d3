/** The two tables of the auth service, and each SQL statement its handlers run, as a function on them. */
module AuthStore {
  import opened Options
  import opened Duration
  import opened Emails
  import opened Tokens

  /** A row of `users`; `deleted` stands for a non-null `deletedAt`. */
  datatype User = User(
    id: UserId,
    email: string,
    password: string,
    role: Role,
    isActive: bool,
    isEmailVerified: bool,
    deleted: bool)
  {
    function Who(): Identity {
      Identity(id, email, role)
    }

    /** The row with its standing blanked out: every column but `isActive` and `deletedAt`. */
    function Lasting(): User {
      this.(isActive := true, deleted := false)
    }
  }

  /** A row of `refresh_tokens`, keyed in the table by its unique `tokenHash`. */
  datatype TokenRow = TokenRow(userId: UserId, expiresAt: Millis, revoked: bool)

  datatype Db = Db(users: map<UserId, User>, tokens: map<TokenHash, TokenRow>)

  const EMPTY_DB := Db(map[], map[])

  // ----- statements -----

  predicate Live(db: Db, id: UserId) {
    id in db.users && !db.users[id].deleted
  }

  predicate HoldsEmail(db: Db, id: UserId, email: string) {
    Live(db, id) && db.users[id].email == email
  }

  /** SELECT by email; soft-deleted rows are hidden. */
  ghost function FindByEmail(db: Db, email: string): Option<User> {
    if exists id :: HoldsEmail(db, id, email)
    then var id :| HoldsEmail(db, id, email); Some(db.users[id])
    else None
  }

  /** SELECT by id; soft-deleted rows are hidden. */
  function FindById(db: Db, id: UserId): Option<User> {
    if Live(db, id) then Some(db.users[id]) else None
  }

  /** INSERT INTO users, atomic with the primary key and the partial unique index on email;
      None is a unique violation. */
  ghost function InsertUser(db: Db, user: User): Option<Db> {
    if user.id in db.users || exists id :: HoldsEmail(db, id, user.email)
    then None
    else Some(db.(users := db.users[user.id := user]))
  }

  function PutUser(db: Db, user: User): Db {
    db.(users := db.users[user.id := user])
  }

  /** INSERT INTO refresh_tokens, atomic with the unique index on tokenHash. */
  function InsertToken(db: Db, hash: TokenHash, row: TokenRow): Option<Db> {
    if hash in db.tokens then None else Some(db.(tokens := db.tokens[hash := row]))
  }

  /** SELECT token INNER JOIN user by tokenHash; the join hides tokens of soft-deleted users. */
  predicate Joined(db: Db, hash: TokenHash) {
    hash in db.tokens && Live(db, db.tokens[hash].userId)
  }

  /** UPDATE ... SET revoked = true for a given set of rows. */
  function RevokeRows(db: Db, hashes: set<TokenHash>): Db {
    db.(tokens := map h | h in db.tokens :: if h in hashes then db.tokens[h].(revoked := true) else db.tokens[h])
  }

  /** The rows an UPDATE with WHERE userId = :id AND revoked = false matches. */
  function UnrevokedOf(db: Db, id: UserId): set<TokenHash> {
    set h | h in db.tokens && db.tokens[h].userId == id && !db.tokens[h].revoked
  }

  /** The rows an UPDATE with WHERE tokenHash = :hash AND userId = :id matches. */
  function OwnedToken(db: Db, hash: TokenHash, id: UserId): set<TokenHash> {
    if hash in db.tokens && db.tokens[hash].userId == id then {hash} else {}
  }

  function NewRow(cfg: Config, id: UserId, stored: Millis): TokenRow {
    TokenRow(id, stored + ParseDurationMs(cfg.refreshExpiresIn), false)
  }

  /** Expiry arithmetic of one issuance: signed at `signed`, stored with an expiry computed from a clock reading
      `stored` that is not earlier. The row never expires before the token does, and outlives it by less than one
      second plus the delay between the two readings. */
  lemma RowOutlivesToken(cfg: Config, who: Identity, signed: Millis, stored: Millis)
    requires cfg.Valid() && signed <= stored
    ensures var token := SignRefresh(cfg, who, signed);
            var row := NewRow(cfg, who.id, stored);
            && row.userId == who.id && !row.revoked
            && ExpiryInstant(token) <= row.expiresAt < ExpiryInstant(token) + 1000 + (stored - signed)
            && (forall now: Millis | VerifiesAsRefresh(cfg, token, now) :: !(row.expiresAt < now))
  {
    WellFormedLifetime(cfg.refreshExpiresIn);
    var token := SignRefresh(cfg, who, signed);
    forall now: Millis | VerifiesAsRefresh(cfg, token, now)
      ensures now < ExpiryInstant(token)
    {
      VerifiesUntilExpiryInstant(cfg.refreshSecret, token, now);
    }
  }

  // ----- what every reachable pair of tables satisfies -----

  /** A stored digest is that of a refresh token signed for the row's user, and the row's own expiry
      never cuts in before the token's. */
  predicate GoodTokenRow(cfg: Config, db: Db, hash: TokenHash) {
    hash in db.tokens &&
    var t := hash.token;
    var row := db.tokens[hash];
    && row.userId in db.users
    && t.Jwt?
    && t.secret == cfg.refreshSecret
    && t.claims.typ == RefreshType
    && t.claims.sub == row.userId
    && t.claims.email == db.users[row.userId].email
    && t.claims.exp == t.claims.iat + JwtLifetime(cfg.refreshExpiresIn)
    && ExpiryInstant(t) <= row.expiresAt
  }

  predicate GoodUser(db: Db, id: UserId) {
    id in db.users &&
    var u := db.users[id];
    && u.id == id
    && Normalize(u.email) == u.email
    && (u.deleted ==> !u.isActive)
  }

  /** At most one account that is not soft-deleted per address. */
  ghost predicate UniqueEmails(db: Db) {
    forall i, j | Live(db, i) && Live(db, j) && db.users[i].email == db.users[j].email :: i == j
  }

  ghost predicate DbInv(cfg: Config, db: Db) {
    && (forall id {:trigger GoodUser(db, id)} | id in db.users :: GoodUser(db, id))
    && UniqueEmails(db)
    && (forall h {:trigger GoodTokenRow(cfg, db, h)} | h in db.tokens :: GoodTokenRow(cfg, db, h))
  }

  /** What no statement undoes: rows stay, addresses and owners stay, revocation, deactivation and
      soft deletion stay. */
  ghost predicate Grows(db: Db, db': Db) {
    && (forall id | id in db.users ::
          && id in db'.users
          && db'.users[id].email == db.users[id].email
          && (db'.users[id].isActive ==> db.users[id].isActive)
          && (db.users[id].deleted ==> db'.users[id].deleted))
    && (forall h | h in db.tokens ::
          && h in db'.tokens
          && db'.tokens[h].userId == db.tokens[h].userId
          && db'.tokens[h].expiresAt == db.tokens[h].expiresAt
          && (db.tokens[h].revoked ==> db'.tokens[h].revoked))
  }

  lemma GrowsTransitive(a: Db, b: Db, c: Db)
    requires Grows(a, b) && Grows(b, c)
    ensures Grows(a, c)
  {
  }

  /** With the partial unique index the lookup by email finds the one live row there is. */
  lemma FindByEmailIsTheHolder(db: Db, id: UserId, email: string)
    requires UniqueEmails(db) && HoldsEmail(db, id, email)
    ensures FindByEmail(db, email) == Some(db.users[id])
  {
  }

  // ----- statements keep the invariant -----

  lemma InsertUserKeeps(cfg: Config, db: Db, user: User)
    requires DbInv(cfg, db) && InsertUser(db, user).Some?
    requires Normalize(user.email) == user.email && (user.deleted ==> !user.isActive)
    ensures DbInv(cfg, InsertUser(db, user).value) && Grows(db, InsertUser(db, user).value)
  {
    var db' := InsertUser(db, user).value;
    forall i, j | Live(db', i) && Live(db', j) && db'.users[i].email == db'.users[j].email
      ensures i == j
    {
      assert i != user.id ==> HoldsEmail(db, i, db'.users[i].email);
      assert j != user.id ==> HoldsEmail(db, j, db'.users[j].email);
    }
    forall h | h in db'.tokens ensures GoodTokenRow(cfg, db', h) {
      assert GoodTokenRow(cfg, db, h);
    }
    forall id | id in db'.users ensures GoodUser(db', id) {
      assert id != user.id ==> GoodUser(db, id);
    }
  }

  /** Changing a user's password, role or verification, or switching the account off, in place. */
  lemma PutUserKeeps(cfg: Config, db: Db, user: User)
    requires DbInv(cfg, db) && user.id in db.users
    requires user.email == db.users[user.id].email
    requires user.isActive ==> db.users[user.id].isActive
    requires db.users[user.id].deleted ==> user.deleted
    requires user.deleted ==> !user.isActive
    ensures DbInv(cfg, PutUser(db, user)) && Grows(db, PutUser(db, user))
  {
    var db' := PutUser(db, user);
    assert GoodUser(db, user.id);
    forall i, j | Live(db', i) && Live(db', j) && db'.users[i].email == db'.users[j].email
      ensures i == j
    {
      assert Live(db, i) && Live(db, j);
    }
    forall h | h in db'.tokens ensures GoodTokenRow(cfg, db', h) {
      assert GoodTokenRow(cfg, db, h);
    }
    forall id | id in db'.users ensures GoodUser(db', id) {
      assert GoodUser(db, id);
    }
  }

  lemma RevokeRowsKeeps(cfg: Config, db: Db, hashes: set<TokenHash>)
    requires DbInv(cfg, db)
    ensures DbInv(cfg, RevokeRows(db, hashes)) && Grows(db, RevokeRows(db, hashes))
  {
    var db' := RevokeRows(db, hashes);
    forall i, j | Live(db', i) && Live(db', j) && db'.users[i].email == db'.users[j].email
      ensures i == j
    {
      assert Live(db, i) && Live(db, j);
    }
    forall h | h in db'.tokens ensures GoodTokenRow(cfg, db', h) {
      assert GoodTokenRow(cfg, db, h);
    }
    forall id | id in db'.users ensures GoodUser(db', id) {
      assert GoodUser(db, id);
    }
  }

  lemma InsertTokenKeeps(cfg: Config, db: Db, who: Identity, signed: Millis, stored: Millis)
    requires cfg.Valid() && DbInv(cfg, db)
    requires who.id in db.users && db.users[who.id].email == who.email
    requires signed <= stored
    requires InsertToken(db, Sha256(SignRefresh(cfg, who, signed)), NewRow(cfg, who.id, stored)).Some?
    ensures var db' := InsertToken(db, Sha256(SignRefresh(cfg, who, signed)), NewRow(cfg, who.id, stored)).value;
            DbInv(cfg, db') && Grows(db, db')
  {
    var hash := Sha256(SignRefresh(cfg, who, signed));
    var db' := InsertToken(db, hash, NewRow(cfg, who.id, stored)).value;
    RowOutlivesToken(cfg, who, signed, stored);
    forall h | h in db'.tokens ensures GoodTokenRow(cfg, db', h) {
      assert h != hash ==> GoodTokenRow(cfg, db, h);
    }
    forall i, j | Live(db', i) && Live(db', j) && db'.users[i].email == db'.users[j].email
      ensures i == j
    {
      assert Live(db, i) && Live(db, j);
    }
    forall id | id in db'.users ensures GoodUser(db', id) {
      assert GoodUser(db, id);
    }
  }
}
