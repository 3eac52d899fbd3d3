/** The auth service as an object: its two tables and the last clock reading are fields that the
    handlers update statement by statement. Each handler is proved to take the tables exactly where
    the atomic specification in AuthHandlers takes them. */
module AuthService {
  import opened Options
  import opened Duration
  import opened Emails
  import opened Tokens
  import opened AuthStore
  import Handlers = AuthHandlers
  import opened AuthHandlers

  class AuthService {
    const cfg: Config
    var users: map<UserId, User>
    var refreshTokens: map<TokenHash, TokenRow>
    var clock: Millis

    ghost function Tables(): Db
      reads this
    {
      Db(users, refreshTokens)
    }

    ghost predicate Valid()
      reads this
    {
      cfg.Valid() && DbInv(cfg, Tables())
    }

    constructor (cfg: Config)
      requires cfg.Valid()
      ensures Valid() && this.cfg == cfg && Tables() == EMPTY_DB
    {
      this.cfg := cfg;
      users, refreshTokens, clock := map[], map[], 0;
    }

    /** SELECT by email. */
    method FindByEmail(email: string) returns (user: Option<User>)
      requires Valid()
      ensures user == AuthStore.FindByEmail(Tables(), email)
    {
      user := None;
      if id :| id in users && !users[id].deleted && users[id].email == email {
        FindByEmailIsTheHolder(Tables(), id, email);
        user := Some(users[id]);
      } else {
        assert forall id :: !HoldsEmail(Tables(), id, email);
      }
    }

    /** INSERT INTO users; `stored` is false on a unique violation. */
    method SaveNewUser(user: User) returns (stored: bool)
      requires Valid() && Normalize(user.email) == user.email && !user.deleted
      modifies `users
      ensures stored <==> InsertUser(old(Tables()), user).Some?
      ensures Tables() == if stored then InsertUser(old(Tables()), user).value else old(Tables())
      ensures Valid()
    {
      stored := user.id !in users && !exists id :: id in users && !users[id].deleted && users[id].email == user.email;
      assert stored ==> forall id :: !HoldsEmail(Tables(), id, user.email);
      assert user.id !in users && !stored ==> exists id :: HoldsEmail(Tables(), id, user.email) by {
        if user.id !in users && !stored {
          var id :| id in users && !users[id].deleted && users[id].email == user.email;
          assert HoldsEmail(Tables(), id, user.email);
        }
      }
      if stored {
        InsertUserKeeps(cfg, Tables(), user);
        users := users[user.id := user];
      }
    }

    /** issueTokens: sign both tokens, then INSERT INTO refresh_tokens. */
    method IssueTokens(user: User, at: Times) returns (tokens: Option<TokenPair>)
      requires Valid() && at.Ordered()
      requires user.id in users && users[user.id].email == user.email
      modifies `refreshTokens
      ensures Valid()
      ensures tokens.Some? <==> Issue(cfg, old(Tables()), user, at).Some?
      ensures Tables() == if tokens.Some? then Issue(cfg, old(Tables()), user, at).value else old(Tables())
      ensures tokens.Some? ==> tokens.value == Pair(cfg, user.Who(), at)
    {
      var accessToken := SignAccess(cfg, user.Who(), at.access);
      var refreshToken := SignRefresh(cfg, user.Who(), at.refresh);
      var hash := Sha256(refreshToken);
      if hash in refreshTokens {
        return None;
      }
      IssueKeeps(cfg, Tables(), user, at);
      refreshTokens := refreshTokens[hash := TokenRow(user.id, at.store + ParseDurationMs(cfg.refreshExpiresIn), false)];
      tokens := Some(TokenPair(accessToken, refreshToken));
    }

    /** UPDATE refresh_tokens SET revoked = true for the matching rows. */
    method SetRevoked(hashes: set<TokenHash>)
      requires Valid()
      modifies `refreshTokens
      ensures Tables() == RevokeRows(old(Tables()), hashes)
      ensures Valid()
    {
      RevokeRowsKeeps(cfg, Tables(), hashes);
      refreshTokens := map h | h in refreshTokens ::
        if h in hashes then refreshTokens[h].(revoked := true) else refreshTokens[h];
    }

    method Register(email: string, hashed: string, id: UserId, at: Times) returns (reply: Reply)
      requires Valid() && at.Ordered() && clock <= at.verify
      modifies this
      ensures Valid() && clock == at.store
      ensures Outcome(Tables(), reply) == Handlers.Register(cfg, old(Tables()), email, hashed, id, at)
    {
      clock := at.store;
      var normalized := Normalize(email);
      NormalizeIdempotent(email);
      var existing := FindByEmail(normalized);
      if existing.Some? {
        return Conflict;
      }
      var user := NewUser(id, normalized, hashed);
      var stored := SaveNewUser(user);
      if !stored {
        return Conflict;
      }
      var tokens := IssueTokens(user, at);
      if tokens.None? {
        return Conflict;
      }
      return Session(ToView(user), tokens.value);
    }

    method Login(email: string, password: string, at: Times) returns (reply: Reply)
      requires Valid() && at.Ordered() && clock <= at.verify
      modifies this
      ensures Valid() && clock == at.store
      ensures Outcome(Tables(), reply) == Handlers.Login(cfg, old(Tables()), email, password, at)
    {
      clock := at.store;
      var found := FindByEmail(Normalize(email));
      if found.None? {
        return Unauthorized;
      }
      var user := found.value;
      if !cfg.compare(password, user.password) {
        return Unauthorized;
      }
      if !user.isActive {
        return Forbidden;
      }
      FoundIsStored(user, Normalize(email));
      var tokens := IssueTokens(user, at);
      if tokens.None? {
        return Failed;
      }
      return Session(ToView(user), tokens.value);
    }

    lemma FoundIsStored(user: User, email: string)
      requires Valid() && AuthStore.FindByEmail(Tables(), email) == Some(user)
      ensures user.id in users && users[user.id] == user
    {
      var id :| HoldsEmail(Tables(), id, email) && user == users[id];
      assert GoodUser(Tables(), id);
    }

    /** One transaction: on any failure the tables are put back as they were when it began. */
    method Refresh(token: Token, at: Times) returns (reply: Reply)
      requires Valid() && at.Ordered() && clock <= at.verify
      modifies this
      ensures Valid() && clock == at.store
      ensures Outcome(Tables(), reply) == Handlers.Refresh(cfg, old(Tables()), token, at)
    {
      clock := at.store;
      var hash := Sha256(token);
      if !VerifiesAsRefresh(cfg, token, at.verify) {
        return Unauthorized;
      }
      if !(hash in refreshTokens && refreshTokens[hash].userId in users && !users[refreshTokens[hash].userId].deleted) {
        return Unauthorized;
      }
      var saved := refreshTokens;
      var stored := refreshTokens[hash];
      var user := users[stored.userId];
      assert GoodUser(Tables(), stored.userId);
      if stored.revoked || stored.expiresAt < at.check {
        return Unauthorized;
      }
      if !user.isActive {
        return Forbidden;
      }
      SetRevoked({hash});
      var tokens := IssueTokens(user, at);
      if tokens.None? {
        refreshTokens := saved;
        return Failed;
      }
      return Session(ToView(user), tokens.value);
    }

    method Logout(userId: UserId, token: Option<Token>) returns (reply: Reply)
      requires Valid()
      modifies this
      ensures Valid() && clock == old(clock)
      ensures Outcome(Tables(), reply) == Handlers.Logout(old(Tables()), userId, token)
    {
      if token.Some? {
        SetRevoked(OwnedToken(Db(users, refreshTokens), Sha256(token.value), userId));
      } else {
        SetRevoked(UnrevokedOf(Db(users, refreshTokens), userId));
      }
      return Ack;
    }

    method Validate(userId: UserId) returns (reply: Reply)
      ensures reply == Handlers.Validate(Tables(), userId)
    {
      if userId !in users || users[userId].deleted {
        return Unauthorized;
      }
      if !users[userId].isActive {
        return Forbidden;
      }
      return Reply.Valid(ToView(users[userId]));
    }

    method ChangePassword(userId: UserId, current: string, hashed: string) returns (reply: Reply)
      requires Valid()
      modifies this
      ensures Valid() && clock == old(clock)
      ensures Outcome(Tables(), reply) == Handlers.ChangePassword(cfg, old(Tables()), userId, current, hashed)
    {
      ChangePasswordKeeps(cfg, Tables(), userId, current, hashed);
      if userId !in users || users[userId].deleted {
        return NotFound;
      }
      var user := users[userId];
      if !cfg.compare(current, user.password) {
        return Unauthorized;
      }
      assert GoodUser(Tables(), userId);
      PutUserKeeps(cfg, Tables(), user.(password := hashed));
      users := users[user.id := user.(password := hashed)];
      SetRevoked(UnrevokedOf(Db(users, refreshTokens), user.id));
      return Ack;
    }

    method Deactivate(userId: UserId) returns (reply: Reply)
      requires Valid()
      modifies this
      ensures Valid() && clock == old(clock)
      ensures Outcome(Tables(), reply) == Handlers.Deactivate(old(Tables()), userId)
    {
      if userId !in users || users[userId].deleted {
        return NotFound;
      }
      assert GoodUser(Tables(), userId);
      var user := users[userId].(isActive := false);
      PutUserKeeps(cfg, Tables(), user);
      users := users[user.id := user];
      SetRevoked(UnrevokedOf(Db(users, refreshTokens), user.id));
      PutUserKeeps(cfg, Tables(), user.(deleted := true));
      users := users[user.id := user.(deleted := true)];
      return Ack;
    }

    method EnsureAdmin(adminEmail: string, adminPassword: string, hashed: string, id: UserId) returns (reply: Reply)
      requires Valid()
      modifies this
      ensures Valid() && clock == old(clock)
      ensures Outcome(Tables(), reply) == Handlers.EnsureAdmin(old(Tables()), adminEmail, adminPassword, hashed, id)
    {
      var email := Normalize(adminEmail);
      NormalizeIdempotent(adminEmail);
      if email == "" {
        return Ack;
      }
      var existing := FindByEmail(email);
      if existing.Some? {
        var user := existing.value;
        FoundIsStored(user, email);
        assert GoodUser(Tables(), user.id);
        if user.role != Admin {
          PutUserKeeps(cfg, Tables(), user.(role := Admin));
          users := users[user.id := user.(role := Admin)];
        }
        return Ack;
      }
      if adminPassword == "" {
        return Ack;
      }
      var stored := SaveNewUser(NewUser(id, email, hashed).(role := Admin, isEmailVerified := true));
      return if stored then Ack else Failed;
    }
  }
}
