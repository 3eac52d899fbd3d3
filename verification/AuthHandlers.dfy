/** Each handler of the auth service as one atomic step on the tables: what the class AuthService is
    proved against, and what the statement-level protocol is proved to linearise to. */
module AuthHandlers {
  import opened Options
  import opened Duration
  import opened Emails
  import opened Tokens
  import opened AuthStore

  datatype UserView = UserView(id: UserId, email: string, role: Role, isActive: bool, isEmailVerified: bool)

  datatype Reply =
    | Session(user: UserView, tokens: TokenPair)
    | Valid(user: UserView)
    | Ack
    | Conflict
    | Unauthorized
    | Forbidden
    | NotFound
    | Failed

  datatype Outcome = Outcome(db: Db, reply: Reply)

  function ToView(user: User): UserView {
    UserView(user.id, user.email, user.role, user.isActive, user.isEmailVerified)
  }

  /** The view shows the row's own identity, role and standing. */
  predicate Describes(view: UserView, user: User) {
    && view.id == user.id && view.email == user.email && view.role == user.role
    && view.isActive == user.isActive && view.isEmailVerified == user.isEmailVerified
  }

  /** The clock readings of one handler, in program order: the JWT check, the `expiresAt` check, the
      two signatures and the stored expiry. */
  datatype Times = Times(verify: Millis, check: Millis, access: Millis, refresh: Millis, store: Millis)
  {
    predicate Ordered() {
      verify <= check <= access <= refresh <= store
    }
  }

  function Pair(cfg: Config, who: Identity, at: Times): TokenPair {
    TokenPair(SignAccess(cfg, who, at.access), SignRefresh(cfg, who, at.refresh))
  }

  /** issueTokens: sign both tokens and insert the digest of the refresh token. */
  function Issue(cfg: Config, db: Db, user: User, at: Times): Option<Db> {
    InsertToken(db, Sha256(SignRefresh(cfg, user.Who(), at.refresh)), NewRow(cfg, user.id, at.store))
  }

  function NewUser(id: UserId, email: string, hashed: string): User {
    User(id, email, hashed, Member, true, false, false)
  }

  ghost function Register(cfg: Config, db: Db, email: string, hashed: string, id: UserId, at: Times): Outcome {
    var user := NewUser(id, Normalize(email), hashed);
    if FindByEmail(db, user.email).Some? then Outcome(db, Conflict)
    else match InsertUser(db, user)
      case None => Outcome(db, Conflict)
      case Some(db1) =>
        match Issue(cfg, db1, user, at)
        case None => Outcome(db1, Conflict)
        case Some(db2) => Outcome(db2, Session(ToView(user), Pair(cfg, user.Who(), at)))
  }

  ghost function Login(cfg: Config, db: Db, email: string, password: string, at: Times): Outcome {
    match FindByEmail(db, Normalize(email))
    case None => Outcome(db, Unauthorized)
    case Some(user) =>
      if !cfg.compare(password, user.password) then Outcome(db, Unauthorized)
      else if !user.isActive then Outcome(db, Forbidden)
      else match Issue(cfg, db, user, at)
        case None => Outcome(db, Failed)
        case Some(db1) => Outcome(db1, Session(ToView(user), Pair(cfg, user.Who(), at)))
  }

  function Refresh(cfg: Config, db: Db, token: Token, at: Times): Outcome {
    var hash := Sha256(token);
    if !VerifiesAsRefresh(cfg, token, at.verify) then Outcome(db, Unauthorized)
    else if !Joined(db, hash) then Outcome(db, Unauthorized)
    else
      var stored := db.tokens[hash];
      var user := db.users[stored.userId];
      if stored.revoked || stored.expiresAt < at.check then Outcome(db, Unauthorized)
      else if !user.isActive then Outcome(db, Forbidden)
      else match Issue(cfg, RevokeRows(db, {hash}), user, at)
        case None => Outcome(db, Failed)
        case Some(db2) => Outcome(db2, Session(ToView(user), Pair(cfg, user.Who(), at)))
  }

  function Logout(db: Db, userId: UserId, token: Option<Token>): Outcome {
    match token
    case Some(t) => Outcome(RevokeRows(db, OwnedToken(db, Sha256(t), userId)), Ack)
    case None => Outcome(RevokeRows(db, UnrevokedOf(db, userId)), Ack)
  }

  function Validate(db: Db, userId: UserId): Reply {
    match FindById(db, userId)
    case None => Unauthorized
    case Some(user) => if user.isActive then Valid(ToView(user)) else Forbidden
  }

  function ChangePassword(cfg: Config, db: Db, userId: UserId, current: string, hashed: string): Outcome {
    match FindById(db, userId)
    case None => Outcome(db, NotFound)
    case Some(user) =>
      if !cfg.compare(current, user.password) then Outcome(db, Unauthorized)
      else Outcome(RevokeRows(PutUser(db, user.(password := hashed)), UnrevokedOf(db, userId)), Ack)
  }

  function Deactivate(db: Db, userId: UserId): Outcome {
    match FindById(db, userId)
    case None => Outcome(db, NotFound)
    case Some(user) =>
      var db1 := PutUser(db, user.(isActive := false));
      var db2 := RevokeRows(db1, UnrevokedOf(db1, userId));
      Outcome(PutUser(db2, user.(isActive := false, deleted := true)), Ack)
  }

  /** Start-up: promote or create the configured administrator; empty settings count as absent. */
  ghost function EnsureAdmin(db: Db, adminEmail: string, adminPassword: string, hashed: string, id: UserId): Outcome {
    var email := Normalize(adminEmail);
    if email == "" then Outcome(db, Ack)
    else match FindByEmail(db, email)
      case Some(user) =>
        Outcome(if user.role == Admin then db else PutUser(db, user.(role := Admin)), Ack)
      case None =>
        if adminPassword == "" then Outcome(db, Ack)
        else match InsertUser(db, NewUser(id, email, hashed).(role := Admin, isEmailVerified := true))
          case None => Outcome(db, Failed)
          case Some(db1) => Outcome(db1, Ack)
  }

  // ----- every handler keeps the tables' invariant and only grows them -----

  lemma IssueKeeps(cfg: Config, db: Db, user: User, at: Times)
    requires cfg.Valid() && DbInv(cfg, db) && at.Ordered()
    requires user.id in db.users && db.users[user.id].email == user.email
    requires Issue(cfg, db, user, at).Some?
    ensures DbInv(cfg, Issue(cfg, db, user, at).value) && Grows(db, Issue(cfg, db, user, at).value)
  {
    InsertTokenKeeps(cfg, db, user.Who(), at.refresh, at.store);
  }

  lemma RegisterKeeps(cfg: Config, db: Db, email: string, hashed: string, id: UserId, at: Times)
    requires cfg.Valid() && DbInv(cfg, db) && at.Ordered()
    ensures var o := Register(cfg, db, email, hashed, id, at); DbInv(cfg, o.db) && Grows(db, o.db)
  {
    var user := NewUser(id, Normalize(email), hashed);
    NormalizeIdempotent(email);
    if FindByEmail(db, user.email).None? && InsertUser(db, user).Some? {
      InsertUserKeeps(cfg, db, user);
      var db1 := InsertUser(db, user).value;
      if Issue(cfg, db1, user, at).Some? {
        IssueKeeps(cfg, db1, user, at);
        GrowsTransitive(db, db1, Issue(cfg, db1, user, at).value);
      }
    }
  }

  lemma LoginKeeps(cfg: Config, db: Db, email: string, password: string, at: Times)
    requires cfg.Valid() && DbInv(cfg, db) && at.Ordered()
    ensures var o := Login(cfg, db, email, password, at); DbInv(cfg, o.db) && Grows(db, o.db)
  {
    match FindByEmail(db, Normalize(email))
    case None =>
    case Some(user) =>
      var id :| HoldsEmail(db, id, Normalize(email)) && user == db.users[id];
      assert GoodUser(db, id);
      if Issue(cfg, db, user, at).Some? {
        IssueKeeps(cfg, db, user, at);
      }
  }

  lemma RefreshKeeps(cfg: Config, db: Db, token: Token, at: Times)
    requires cfg.Valid() && DbInv(cfg, db) && at.Ordered()
    ensures var o := Refresh(cfg, db, token, at); DbInv(cfg, o.db) && Grows(db, o.db)
  {
    var hash := Sha256(token);
    if Joined(db, hash) {
      var user := db.users[db.tokens[hash].userId];
      var db1 := RevokeRows(db, {hash});
      assert GoodUser(db, db.tokens[hash].userId);
      RevokeRowsKeeps(cfg, db, {hash});
      if Issue(cfg, db1, user, at).Some? {
        IssueKeeps(cfg, db1, user, at);
        GrowsTransitive(db, db1, Issue(cfg, db1, user, at).value);
      }
    }
  }

  lemma LogoutKeeps(cfg: Config, db: Db, userId: UserId, token: Option<Token>)
    requires DbInv(cfg, db)
    ensures var o := Logout(db, userId, token); DbInv(cfg, o.db) && Grows(db, o.db)
  {
    match token
    case Some(t) => RevokeRowsKeeps(cfg, db, OwnedToken(db, Sha256(t), userId));
    case None => RevokeRowsKeeps(cfg, db, UnrevokedOf(db, userId));
  }

  lemma ChangePasswordKeeps(cfg: Config, db: Db, userId: UserId, current: string, hashed: string)
    requires DbInv(cfg, db)
    ensures var o := ChangePassword(cfg, db, userId, current, hashed); DbInv(cfg, o.db) && Grows(db, o.db)
  {
    if Live(db, userId) {
      assert GoodUser(db, userId);
      var db1 := PutUser(db, db.users[userId].(password := hashed));
      PutUserKeeps(cfg, db, db.users[userId].(password := hashed));
      RevokeRowsKeeps(cfg, db1, UnrevokedOf(db, userId));
      GrowsTransitive(db, db1, RevokeRows(db1, UnrevokedOf(db, userId)));
    }
  }

  lemma DeactivateKeeps(cfg: Config, db: Db, userId: UserId)
    requires DbInv(cfg, db)
    ensures var o := Deactivate(db, userId); DbInv(cfg, o.db) && Grows(db, o.db)
  {
    if Live(db, userId) {
      assert GoodUser(db, userId);
      var user := db.users[userId];
      var db1 := PutUser(db, user.(isActive := false));
      var db2 := RevokeRows(db1, UnrevokedOf(db1, userId));
      PutUserKeeps(cfg, db, user.(isActive := false));
      RevokeRowsKeeps(cfg, db1, UnrevokedOf(db1, userId));
      PutUserKeeps(cfg, db2, user.(isActive := false, deleted := true));
      GrowsTransitive(db, db1, db2);
      GrowsTransitive(db, db2, Deactivate(db, userId).db);
    }
  }

  lemma EnsureAdminKeeps(cfg: Config, db: Db, adminEmail: string, adminPassword: string, hashed: string, id: UserId)
    requires DbInv(cfg, db)
    ensures var o := EnsureAdmin(db, adminEmail, adminPassword, hashed, id); DbInv(cfg, o.db) && Grows(db, o.db)
  {
    var email := Normalize(adminEmail);
    NormalizeIdempotent(adminEmail);
    match FindByEmail(db, email)
    case Some(user) =>
      var holder :| HoldsEmail(db, holder, email) && user == db.users[holder];
      assert GoodUser(db, holder);
      PutUserKeeps(cfg, db, user.(role := Admin));
    case None =>
      var admin := NewUser(id, email, hashed).(role := Admin, isEmailVerified := true);
      if InsertUser(db, admin).Some? {
        InsertUserKeeps(cfg, db, admin);
      }
  }

  // ----- refresh, exactly -----

  /** What a caller can check before the call: the token verifies, its row is visible, unrevoked and
      unexpired, the account is active, and the successor's digest is not taken. */
  predicate Refreshable(cfg: Config, db: Db, token: Token, at: Times) {
    var hash := Sha256(token);
    && VerifiesAsRefresh(cfg, token, at.verify)
    && Joined(db, hash)
    && !db.tokens[hash].revoked
    && at.check <= db.tokens[hash].expiresAt
    && db.users[db.tokens[hash].userId].isActive
    && Sha256(SignRefresh(cfg, db.users[db.tokens[hash].userId].Who(), at.refresh)) !in db.tokens
  }

  /** Refresh is all or nothing. It succeeds exactly when the token is refreshable; then the presented
      row is revoked, one fresh row of the same user appears, and nothing else changes. Otherwise
      both tables are as they were, also when the insert hits the unique index after the revoke. */
  lemma RefreshAllOrNothing(cfg: Config, db: Db, token: Token, at: Times)
    requires DbInv(cfg, db)
    ensures var o := Refresh(cfg, db, token, at);
            && (o.reply.Session? <==> Refreshable(cfg, db, token, at))
            && (!o.reply.Session? ==> o.db == db)
            && (o.reply.Session? ==>
                  var hash := Sha256(token);
                  var next := Sha256(o.reply.tokens.refreshToken);
                  && o.db.users == db.users
                  && next !in db.tokens
                  && next != hash
                  && o.db.tokens.Keys == db.tokens.Keys + {next}
                  && o.db.tokens[hash] == db.tokens[hash].(revoked := true)
                  && o.db.tokens[next].userId == db.tokens[hash].userId
                  && !o.db.tokens[next].revoked
                  && (forall h | h in db.tokens && h != hash :: o.db.tokens[h] == db.tokens[h]))
  {
    if Joined(db, Sha256(token)) {
      assert GoodUser(db, db.tokens[Sha256(token)].userId);
    }
  }

  /** Presenting a token in the very second it was signed, for an account whose address and role have
      not changed, signs the same token again: the insert hits the unique index, so even a token that
      passes every check is answered with a server error, and it stays usable. */
  lemma SameSecondRefreshFails(cfg: Config, db: Db, who: Identity, signed: Millis, at: Times)
    requires var hash := Sha256(SignRefresh(cfg, who, signed));
             && Joined(db, hash)
             && !db.tokens[hash].revoked
             && at.check <= db.tokens[hash].expiresAt
             && db.users[db.tokens[hash].userId].isActive
             && db.users[db.tokens[hash].userId].Who() == who
             && VerifiesAsRefresh(cfg, hash.token, at.verify)
    requires at.refresh / 1000 == signed / 1000
    ensures Refresh(cfg, db, SignRefresh(cfg, who, signed), at) == Outcome(db, Failed)
  {
    RefreshTokensDifferBySecond(cfg, who, signed, at.refresh);
  }

  // ----- sessions are issued only for fresh tokens -----

  ghost predicate IssuesFresh(db: Db, o: Outcome) {
    o.reply.Session? ==>
      var next := Sha256(o.reply.tokens.refreshToken);
      next !in db.tokens && next in o.db.tokens && o.db.tokens[next].userId == o.reply.user.id
  }

  lemma RegisterIssuesFresh(cfg: Config, db: Db, email: string, hashed: string, id: UserId, at: Times)
    ensures IssuesFresh(db, Register(cfg, db, email, hashed, id, at))
  {
  }

  lemma LoginIssuesFresh(cfg: Config, db: Db, email: string, password: string, at: Times)
    ensures IssuesFresh(db, Login(cfg, db, email, password, at))
  {
  }

  lemma RefreshIssuesFresh(cfg: Config, db: Db, token: Token, at: Times)
    requires DbInv(cfg, db)
    ensures IssuesFresh(db, Refresh(cfg, db, token, at))
  {
    if Joined(db, Sha256(token)) {
      assert GoodUser(db, db.tokens[Sha256(token)].userId);
    }
  }

  /** Two refresh tokens signed for one unchanged identity are the same token exactly when they are
      signed in the same second; hence two distinct ones differ in `iat`. */
  lemma RefreshTokensDifferBySecond(cfg: Config, who: Identity, a: Millis, b: Millis)
    ensures SignRefresh(cfg, who, a) == SignRefresh(cfg, who, b) <==> a / 1000 == b / 1000
    ensures SignAccess(cfg, who, a) == SignAccess(cfg, who, b) <==> a / 1000 == b / 1000
  {
  }

  // ----- an account that has been deactivated -----

  predicate Dead(db: Db, id: UserId) {
    id in db.users && db.users[id].deleted && !db.users[id].isActive
  }

  predicate AllRevoked(db: Db, id: UserId) {
    forall h | h in db.tokens && db.tokens[h].userId == id :: db.tokens[h].revoked
  }

  /** Deactivation answers Ack exactly for accounts that are not yet deleted, and leaves the account dead
      and without a usable token; nobody else's rows change. */
  lemma DeactivateKills(db: Db, userId: UserId)
    requires Live(db, userId) ==> GoodUser(db, userId)
    ensures var o := Deactivate(db, userId);
            && (o.reply == Ack <==> Live(db, userId))
            && (o.reply == Ack ==> Dead(o.db, userId) && AllRevoked(o.db, userId))
            && (forall id | id in db.users && id != userId :: id in o.db.users && o.db.users[id] == db.users[id])
            && (forall h | h in db.tokens && db.tokens[h].userId != userId :: o.db.tokens[h] == db.tokens[h])
  {
  }

  /** An address is registrable exactly when no account that is not deleted holds it: a dead account
      does not block it. The fresh id rules out any collision of the issued token. */
  lemma RegistrableIffFree(cfg: Config, db: Db, email: string, hashed: string, id: UserId, at: Times)
    requires DbInv(cfg, db) && id !in db.users
    ensures Register(cfg, db, email, hashed, id, at).reply.Session?
            <==> !exists holder :: HoldsEmail(db, holder, Normalize(email))
  {
    var user := NewUser(id, Normalize(email), hashed);
    if !exists holder :: HoldsEmail(db, holder, user.email) {
      var db1 := InsertUser(db, user).value;
      var hash := Sha256(SignRefresh(cfg, user.Who(), at.refresh));
      assert hash in db.tokens ==> GoodTokenRow(cfg, db, hash);
    }
  }

  /** Deactivation frees the address at once: the next registration of it succeeds. */
  lemma DeactivationFreesTheAddress(
      cfg: Config, db: Db, userId: UserId, email: string, hashed: string, id: UserId, at: Times)
    requires DbInv(cfg, db) && Live(db, userId) && Normalize(email) == db.users[userId].email && id !in db.users
    ensures Register(cfg, Deactivate(db, userId).db, email, hashed, id, at).reply.Session?
  {
    DeactivateKeeps(cfg, db, userId);
    var after := Deactivate(db, userId).db;
    assert GoodUser(db, userId);
    forall holder ensures !HoldsEmail(after, holder, Normalize(email)) {
      if HoldsEmail(after, holder, Normalize(email)) {
        assert HoldsEmail(db, holder, Normalize(email)) && Live(db, userId);
      }
    }
    RegistrableIffFree(cfg, after, email, hashed, id, at);
  }

  // ----- what a caller gets -----

  /** Login succeeds exactly for the right password of an active live account whose next refresh token is not
      taken; it then speaks for that account, and otherwise changes nothing. */
  lemma LoginIff(cfg: Config, db: Db, email: string, password: string, at: Times, id: UserId)
    requires DbInv(cfg, db)
    ensures var o := Login(cfg, db, email, password, at);
            && (!o.reply.Session? ==> o.db == db)
            && (o.reply.Session? && o.reply.user.id == id
                <==> HoldsEmail(db, id, Normalize(email))
                     && cfg.compare(password, db.users[id].password)
                     && db.users[id].isActive
                     && Sha256(SignRefresh(cfg, db.users[id].Who(), at.refresh)) !in db.tokens)
            && (o.reply == Forbidden && HoldsEmail(db, id, Normalize(email)) ==> !db.users[id].isActive)
  {
    if HoldsEmail(db, id, Normalize(email)) {
      FindByEmailIsTheHolder(db, id, Normalize(email));
      assert GoodUser(db, id);
    } else if FindByEmail(db, Normalize(email)).Some? {
      var holder :| HoldsEmail(db, holder, Normalize(email))
                    && FindByEmail(db, Normalize(email)) == Some(db.users[holder]);
      assert GoodUser(db, holder);
    }
  }

  /** A new account is an active, unverified member, and whoever knows its password can log in to it, with any
      spelling of the address, from the next second on. */
  lemma RegisterThenLogin(cfg: Config, db: Db, email: string, hashed: string, id: UserId, at: Times,
                          spelling: string, password: string, later: Times)
    requires cfg.Valid() && DbInv(cfg, db) && at.Ordered()
    requires Register(cfg, db, email, hashed, id, at).reply.Session?
    requires Normalize(spelling) == Normalize(email) && cfg.compare(password, hashed)
    requires later.refresh / 1000 != at.refresh / 1000
    ensures var o := Register(cfg, db, email, hashed, id, at);
            && o.reply.user == UserView(id, Normalize(email), Member, true, false)
            && var o2 := Login(cfg, o.db, spelling, password, later);
               o2.reply.Session? && o2.reply.user == o.reply.user
  {
    var o := Register(cfg, db, email, hashed, id, at);
    var user := NewUser(id, Normalize(email), hashed);
    RegisterKeeps(cfg, db, email, hashed, id, at);
    assert HoldsEmail(o.db, id, user.email) && o.db.users[id] == user;
    var next := Sha256(SignRefresh(cfg, user.Who(), later.refresh));
    RefreshTokensDifferBySecond(cfg, user.Who(), at.refresh, later.refresh);
    assert next in db.tokens ==> GoodTokenRow(cfg, db, next);
    LoginIff(cfg, o.db, spelling, password, later, id);
    FindByEmailIsTheHolder(o.db, id, user.email);
  }

  /** The tokens of a session are what the gateway and refresh expect: the access token names the account and
      verifies with the access secret until its lifetime is over; the refresh token can be traded in, while it
      verifies, unless its successor's digest is taken. */
  lemma SessionIsUsable(cfg: Config, db: Db, user: User, at: Times, later: Times)
    requires cfg.Valid() && DbInv(cfg, db) && at.Ordered() && later.Ordered()
    requires Live(db, user.id) && db.users[user.id] == user && user.isActive
    requires Issue(cfg, db, user, at).Some?
    requires later.check < ExpiryInstant(SignRefresh(cfg, user.Who(), at.refresh))
    ensures var pair := Pair(cfg, user.Who(), at);
            var db' := Issue(cfg, db, user, at).value;
            && pair.accessToken.claims.sub == user.id
            && pair.accessToken.claims.typ == AccessType
            && (forall now: Millis | at.access <= now ::
                  Verifies(cfg.accessSecret, pair.accessToken, now)
                  <==> now / 1000 < at.access / 1000 + JwtLifetime(cfg.accessExpiresIn))
            && (Refresh(cfg, db', pair.refreshToken, later).reply.Session?
                <==> Sha256(SignRefresh(cfg, user.Who(), later.refresh)) !in db'.tokens)
  {
    var db' := Issue(cfg, db, user, at).value;
    var token := SignRefresh(cfg, user.Who(), at.refresh);
    IssueKeeps(cfg, db, user, at);
    RefreshAllOrNothing(cfg, db', token, later);
    VerifiesUntilExpiryInstant(cfg.refreshSecret, token, later.verify);
    assert GoodTokenRow(cfg, db', Sha256(token));
  }

  /** Changing the password needs the current one, replaces it, ends every session of the account and touches
      nobody else. */
  lemma ChangePasswordIff(cfg: Config, db: Db, userId: UserId, current: string, hashed: string)
    requires DbInv(cfg, db)
    ensures var o := ChangePassword(cfg, db, userId, current, hashed);
            && (o.reply == Ack <==> Live(db, userId) && cfg.compare(current, db.users[userId].password))
            && (o.reply == NotFound <==> !Live(db, userId))
            && (o.reply != Ack ==> o.db == db)
            && (o.reply == Ack ==>
                  && o.db.users == db.users[userId := db.users[userId].(password := hashed)]
                  && AllRevoked(o.db, userId)
                  && (forall h | h in db.tokens && db.tokens[h].userId != userId :: o.db.tokens[h] == db.tokens[h]))
  {
    if Live(db, userId) {
      assert GoodUser(db, userId);
    }
  }

  /** Logging out with a token revokes that row if it is the caller's own and nothing else; logging out without
      one revokes all of the caller's rows and nothing else. */
  lemma LogoutRevokesExactly(db: Db, userId: UserId, token: Option<Token>, h: TokenHash)
    ensures var o := Logout(db, userId, token);
            && o.reply == Ack && o.db.users == db.users
            && (h in o.db.tokens <==> h in db.tokens)
            && (h in db.tokens ==>
                  && o.db.tokens[h].(revoked := false) == db.tokens[h].(revoked := false)
                  && (o.db.tokens[h].revoked
                      <==> db.tokens[h].revoked
                           || (db.tokens[h].userId == userId && (token == None || Sha256(token.value) == h))))
  {
  }

  /** Start-up leaves the configured address with a live administrator, unless there is none to promote and no
      password to create one with; every other account is as it was. */
  lemma EnsureAdminMakesAdmin(
      cfg: Config, db: Db, adminEmail: string, adminPassword: string, hashed: string, id: UserId)
    requires DbInv(cfg, db) && id !in db.users && Normalize(adminEmail) != ""
    ensures var email := Normalize(adminEmail);
            var o := EnsureAdmin(db, adminEmail, adminPassword, hashed, id);
            && ((exists i :: HoldsEmail(o.db, i, email) && o.db.users[i].role == Admin)
                <==> adminPassword != "" || exists i :: HoldsEmail(db, i, email))
            && (forall i | i in db.users && !HoldsEmail(db, i, email) :: i in o.db.users && o.db.users[i] == db.users[i])
            && (forall i | HoldsEmail(db, i, email) :: o.db.users[i] == db.users[i].(role := Admin))
            && o.db.tokens == db.tokens && o.reply == Ack
  {
    var email := Normalize(adminEmail);
    var o := EnsureAdmin(db, adminEmail, adminPassword, hashed, id);
    if holder :| HoldsEmail(db, holder, email) {
      FindByEmailIsTheHolder(db, holder, email);
      assert GoodUser(db, holder);
      assert HoldsEmail(o.db, holder, email) && o.db.users[holder].role == Admin;
    } else {
      assert FindByEmail(db, email) == None;
      assert adminPassword != "" ==> HoldsEmail(o.db, id, email);
    }
  }
}
