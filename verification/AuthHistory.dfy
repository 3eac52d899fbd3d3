/** Arbitrary sequences of auth-service calls, each handler taken as one step: what holds in every
    continuation of a run, whoever calls whatever next. */
module AuthHistory {
  import opened Options
  import opened Emails
  import opened Tokens
  import opened AuthStore
  import opened AuthHandlers

  datatype Request =
    | DoRegister(email: string, hashed: string, id: UserId)
    | DoLogin(email: string, password: string)
    | DoRefresh(token: Token)
    | DoLogout(caller: UserId, presented: Option<Token>)
    | DoValidate(subject: UserId)
    | DoChangePassword(owner: UserId, current: string, next: string)
    | DoDeactivate(target: UserId)
    | DoEnsureAdmin(adminEmail: string, adminPassword: string, digest: string, newId: UserId)

  /** Time that passes before each of a handler's five clock readings; any waits are possible. */
  datatype Waits = Waits(verify: nat, check: nat, access: nat, refresh: nat, store: nat)

  datatype Call = Call(request: Request, waits: Waits)

  datatype System = System(db: Db, clock: Millis)

  function Reading(clock: Millis, w: Waits): (at: Times)
    ensures at.Ordered() && clock <= at.verify
  {
    var verify := clock + w.verify;
    var check := verify + w.check;
    var access := check + w.access;
    var refresh := access + w.refresh;
    Times(verify, check, access, refresh, refresh + w.store)
  }

  ghost function Serve(cfg: Config, sys: System, call: Call): Outcome {
    var at := Reading(sys.clock, call.waits);
    match call.request
    case DoRegister(email, hashed, id) => Register(cfg, sys.db, email, hashed, id, at)
    case DoLogin(email, password) => Login(cfg, sys.db, email, password, at)
    case DoRefresh(token) => Refresh(cfg, sys.db, token, at)
    case DoLogout(caller, presented) => Logout(sys.db, caller, presented)
    case DoValidate(subject) => Outcome(sys.db, Validate(sys.db, subject))
    case DoChangePassword(owner, current, next) => ChangePassword(cfg, sys.db, owner, current, next)
    case DoDeactivate(target) => Deactivate(sys.db, target)
    case DoEnsureAdmin(adminEmail, adminPassword, digest, newId) =>
      EnsureAdmin(sys.db, adminEmail, adminPassword, digest, newId)
  }

  ghost function Next(cfg: Config, sys: System, call: Call): System {
    System(Serve(cfg, sys, call).db, Reading(sys.clock, call.waits).store)
  }

  ghost function Run(cfg: Config, sys: System, calls: seq<Call>): System
    decreases |calls|
  {
    if calls == [] then sys else Run(cfg, Next(cfg, sys, calls[0]), calls[1..])
  }

  lemma ServeKeeps(cfg: Config, sys: System, call: Call)
    requires cfg.Valid() && DbInv(cfg, sys.db)
    ensures DbInv(cfg, Serve(cfg, sys, call).db) && Grows(sys.db, Serve(cfg, sys, call).db)
  {
    var db := sys.db;
    var at := Reading(sys.clock, call.waits);
    match call.request
    case DoRegister(email, hashed, id) => RegisterKeeps(cfg, db, email, hashed, id, at);
    case DoLogin(email, password) => LoginKeeps(cfg, db, email, password, at);
    case DoRefresh(token) => RefreshKeeps(cfg, db, token, at);
    case DoLogout(caller, presented) => LogoutKeeps(cfg, db, caller, presented);
    case DoValidate(subject) =>
    case DoChangePassword(owner, current, next) => ChangePasswordKeeps(cfg, db, owner, current, next);
    case DoDeactivate(target) => DeactivateKeeps(cfg, db, target);
    case DoEnsureAdmin(adminEmail, adminPassword, digest, newId) =>
      EnsureAdminKeeps(cfg, db, adminEmail, adminPassword, digest, newId);
  }

  lemma {:induction false} RunKeeps(cfg: Config, sys: System, calls: seq<Call>)
    requires cfg.Valid() && DbInv(cfg, sys.db)
    ensures DbInv(cfg, Run(cfg, sys, calls).db) && Grows(sys.db, Run(cfg, sys, calls).db)
    ensures sys.clock <= Run(cfg, sys, calls).clock
    decreases |calls|
  {
    if calls != [] {
      var mid := Next(cfg, sys, calls[0]);
      ServeKeeps(cfg, sys, calls[0]);
      RunKeeps(cfg, mid, calls[1..]);
      GrowsTransitive(sys.db, mid.db, Run(cfg, sys, calls).db);
    }
  }

  /** In every reachable state no two live accounts share an address, and a stored session never expires
      in the database before its token does. */
  lemma EveryReachableState(cfg: Config, calls: seq<Call>)
    requires cfg.Valid()
    ensures var db := Run(cfg, System(EMPTY_DB, 0), calls).db;
            && UniqueEmails(db)
            && (forall h, now: Millis | h in db.tokens && VerifiesAsRefresh(cfg, h.token, now) ::
                  !(db.tokens[h].expiresAt < now))
  {
    var db := Run(cfg, System(EMPTY_DB, 0), calls).db;
    RunKeeps(cfg, System(EMPTY_DB, 0), calls);
    forall h, now: Millis | h in db.tokens && VerifiesAsRefresh(cfg, h.token, now)
      ensures !(db.tokens[h].expiresAt < now)
    {
      assert GoodTokenRow(cfg, db, h);
      VerifiesUntilExpiryInstant(cfg.refreshSecret, h.token, now);
    }
  }

  // ----- mass revocation is final -----

  /** The calls that revoke every session of a user when they answer Ack. */
  predicate EndsSessionsOf(request: Request, id: UserId) {
    || request == DoLogout(id, None)
    || (request.DoChangePassword? && request.owner == id)
    || request == DoDeactivate(id)
  }

  lemma MassRevocationRevokes(cfg: Config, sys: System, call: Call, id: UserId)
    requires DbInv(cfg, sys.db)
    requires EndsSessionsOf(call.request, id) && Serve(cfg, sys, call).reply == Ack
    ensures AllRevoked(Serve(cfg, sys, call).db, id)
    ensures Serve(cfg, sys, call).db.tokens.Keys == sys.db.tokens.Keys
    ensures call.request == DoDeactivate(id) ==> Dead(Serve(cfg, sys, call).db, id)
  {
    assert id in sys.db.users ==> GoodUser(sys.db, id);
  }

  /** A revoked token is never refreshed again, in any continuation. */
  lemma RevokedForever(cfg: Config, sys: System, calls: seq<Call>, token: Token, call: Call)
    requires cfg.Valid() && DbInv(cfg, sys.db)
    requires Sha256(token) in sys.db.tokens && sys.db.tokens[Sha256(token)].revoked
    requires call.request == DoRefresh(token)
    ensures !Serve(cfg, Run(cfg, sys, calls), call).reply.Session?
  {
    RunKeeps(cfg, sys, calls);
  }

  /** After a logout of all sessions, a password change or a deactivation that answered Ack, no refresh
      token the user held before it ever succeeds again. */
  lemma MassRevocationIsFinal(cfg: Config, sys: System, ending: Call, id: UserId,
                              calls: seq<Call>, token: Token, later: Call)
    requires cfg.Valid() && DbInv(cfg, sys.db)
    requires EndsSessionsOf(ending.request, id) && Serve(cfg, sys, ending).reply == Ack
    requires Sha256(token) in sys.db.tokens && sys.db.tokens[Sha256(token)].userId == id
    requires later.request == DoRefresh(token)
    ensures !Serve(cfg, Run(cfg, Next(cfg, sys, ending), calls), later).reply.Session?
  {
    var mid := Next(cfg, sys, ending);
    ServeKeeps(cfg, sys, ending);
    MassRevocationRevokes(cfg, sys, ending, id);
    assert mid.db.tokens[Sha256(token)].userId == id;
    RevokedForever(cfg, mid, calls, token, later);
  }

  /** Whose account a reply speaks for. */
  predicate SpeaksFor(reply: Reply, id: UserId) {
    (reply.Session? || reply.Valid?) && reply.user.id == id
  }

  lemma DeadGetsNothing(cfg: Config, sys: System, id: UserId, call: Call)
    requires DbInv(cfg, sys.db) && Dead(sys.db, id)
    ensures !SpeaksFor(Serve(cfg, sys, call).reply, id)
  {
    forall i | i in sys.db.users ensures GoodUser(sys.db, i) {
    }
  }

  /** A deactivated account id never again registers, logs in, refreshes or validates. */
  lemma DeactivationIsFinal(cfg: Config, sys: System, calls: seq<Call>, id: UserId, later: Call)
    requires cfg.Valid() && DbInv(cfg, sys.db) && Dead(sys.db, id)
    ensures !SpeaksFor(Serve(cfg, Run(cfg, sys, calls), later).reply, id)
  {
    RunKeeps(cfg, sys, calls);
    var end := Run(cfg, sys, calls);
    assert GoodUser(end.db, id);
    DeadGetsNothing(cfg, end, id, later);
  }

  /** Only its own deactivation takes an account out of service. */
  lemma StandingStays(cfg: Config, sys: System, call: Call, id: UserId)
    requires DbInv(cfg, sys.db) && Live(sys.db, id) && sys.db.users[id].isActive
    requires call.request != DoDeactivate(id)
    ensures var db := Serve(cfg, sys, call).db; Live(db, id) && db.users[id].isActive
  {
    var at := Reading(sys.clock, call.waits);
    match call.request
    case DoRegister(email, hashed, newId) => RegisterKeepsStanding(cfg, sys.db, email, hashed, newId, at, id);
    case DoLogin(email, password) => assert Login(cfg, sys.db, email, password, at).db.users == sys.db.users;
    case DoRefresh(token) => assert Refresh(cfg, sys.db, token, at).db.users == sys.db.users;
    case DoLogout(caller, presented) => assert Logout(sys.db, caller, presented).db.users == sys.db.users;
    case DoValidate(_) =>
    case DoChangePassword(owner, current, next) => ChangePasswordKeepsStanding(cfg, sys.db, owner, current, next, id);
    case DoDeactivate(target) => DeactivateKills(sys.db, target);
    case DoEnsureAdmin(adminEmail, adminPassword, digest, newId) =>
      EnsureAdminKeepsStanding(cfg, sys.db, adminEmail, adminPassword, digest, newId, id);
  }

  lemma RegisterKeepsStanding(
      cfg: Config, db: Db, email: string, hashed: string, newId: UserId, at: Times, id: UserId)
    requires Live(db, id)
    ensures var db' := Register(cfg, db, email, hashed, newId, at).db;
            Live(db', id) && db'.users[id].isActive == db.users[id].isActive
  {
  }

  lemma ChangePasswordKeepsStanding(
      cfg: Config, db: Db, owner: UserId, current: string, next: string, id: UserId)
    requires DbInv(cfg, db) && Live(db, id)
    ensures var db' := ChangePassword(cfg, db, owner, current, next).db;
            Live(db', id) && db'.users[id].isActive == db.users[id].isActive
  {
    ChangePasswordIff(cfg, db, owner, current, next);
  }

  lemma EnsureAdminKeepsStanding(
      cfg: Config, db: Db, adminEmail: string, adminPassword: string, digest: string, newId: UserId, id: UserId)
    requires DbInv(cfg, db) && Live(db, id)
    ensures var db' := EnsureAdmin(db, adminEmail, adminPassword, digest, newId).db;
            Live(db', id) && db'.users[id].isActive == db.users[id].isActive
  {
    forall i | i in db.users ensures GoodUser(db, i) {
    }
  }

  /** An account in service is vouched for after any sequence of calls exactly if none of them was its deactivation,
      and then with the address, role and standing its row has at that moment; otherwise its sessions are no longer
      valid. */
  lemma {:induction false} ValidUntilDeactivated(cfg: Config, sys: System, calls: seq<Call>, id: UserId)
    requires cfg.Valid() && DbInv(cfg, sys.db) && Live(sys.db, id) && sys.db.users[id].isActive
    ensures var reply := Validate(Run(cfg, sys, calls).db, id);
            if exists k :: 0 <= k < |calls| && calls[k].request == DoDeactivate(id) then reply == Unauthorized
            else
              && reply.Valid? && reply.user.id == id
              && id in Run(cfg, sys, calls).db.users && Describes(reply.user, Run(cfg, sys, calls).db.users[id])
    decreases |calls|
  {
    if calls == [] {
      assert GoodUser(sys.db, id);
    } else {
      var mid, rest := Next(cfg, sys, calls[0]), calls[1..];
      ServeKeeps(cfg, sys, calls[0]);
      if calls[0].request == DoDeactivate(id) {
        assert GoodUser(sys.db, id);
        assert Dead(mid.db, id);
        RunKeeps(cfg, mid, rest);
      } else {
        StandingStays(cfg, sys, calls[0], id);
        ValidUntilDeactivated(cfg, mid, rest, id);
        assert forall k | 1 <= k < |calls| :: calls[k] == rest[k - 1];
        assert forall k | 0 <= k < |rest| :: rest[k] == calls[k + 1];
      }
    }
  }

  // ----- session conservation -----

  /** The number of sessions a user could still refresh. */
  ghost function Sessions(db: Db, id: UserId): nat {
    |UnrevokedOf(db, id)|
  }

  /** How a call moves the number of unrevoked tokens of a user. A refresh leaves it alone. */
  lemma SessionConservation(cfg: Config, sys: System, call: Call, id: UserId)
    requires cfg.Valid() && DbInv(cfg, sys.db)
    ensures var o := Serve(cfg, sys, call);
            var before := Sessions(sys.db, id);
            var after := Sessions(o.db, id);
            && (call.request.DoRefresh? ==> after == before)
            && (call.request.DoLogout? ==>
                  && (call.request.caller != id ==> after == before)
                  && (call.request.presented.Some? ==> before - 1 <= after <= before))
            && (call.request.DoRegister? || call.request.DoLogin? ==>
                  after == before + (if SpeaksFor(o.reply, id) then 1 else 0))
            && (EndsSessionsOf(call.request, id) && o.reply == Ack ==> after == 0)
            && (!call.request.DoRegister? && !call.request.DoLogin? ==> after <= before)
  {
    var at := Reading(sys.clock, call.waits);
    match call.request
    case DoRefresh(token) => RefreshConserves(cfg, sys.db, token, at, id);
    case DoLogout(caller, presented) => LogoutOnlyLowers(sys.db, caller, presented, id);
    case DoRegister(email, hashed, newId) => RegisterAddsOne(cfg, sys.db, email, hashed, newId, at, id);
    case DoLogin(email, password) => LoginAddsOne(cfg, sys.db, email, password, at, id);
    case DoValidate(_) =>
    case DoChangePassword(owner, current, next) => ChangePasswordOnlyLowers(cfg, sys.db, owner, current, next, id);
    case DoDeactivate(target) => DeactivateOnlyLowers(sys.db, target, id);
    case DoEnsureAdmin(adminEmail, adminPassword, digest, newId) =>
      assert EnsureAdmin(sys.db, adminEmail, adminPassword, digest, newId).db.tokens == sys.db.tokens;
      SameTokensSameSessions(sys.db, EnsureAdmin(sys.db, adminEmail, adminPassword, digest, newId).db, id);
  }

  lemma SameTokensSameSessions(db: Db, db': Db, id: UserId)
    requires db'.tokens == db.tokens
    ensures Sessions(db', id) == Sessions(db, id)
  {
    assert UnrevokedOf(db', id) == UnrevokedOf(db, id);
  }

  lemma InsertAddsOne(db: Db, hash: TokenHash, row: TokenRow, id: UserId)
    requires hash !in db.tokens && !row.revoked
    ensures Sessions(db.(tokens := db.tokens[hash := row]), id) == Sessions(db, id) + (if row.userId == id then 1 else 0)
  {
    var db' := db.(tokens := db.tokens[hash := row]);
    assert UnrevokedOf(db', id) == if row.userId == id then UnrevokedOf(db, id) + {hash} else UnrevokedOf(db, id);
  }

  lemma RevokeSubtracts(db: Db, hashes: set<TokenHash>, id: UserId)
    ensures UnrevokedOf(RevokeRows(db, hashes), id) == UnrevokedOf(db, id) - hashes
  {
  }

  lemma RefreshConserves(cfg: Config, db: Db, token: Token, at: Times, id: UserId)
    requires DbInv(cfg, db)
    ensures Sessions(Refresh(cfg, db, token, at).db, id) == Sessions(db, id)
  {
    var hash := Sha256(token);
    if Refresh(cfg, db, token, at).db != db {
      assert GoodUser(db, db.tokens[hash].userId);
      var db1 := RevokeRows(db, {hash});
      RevokeSubtracts(db, {hash}, id);
      InsertAddsOne(db1, Sha256(SignRefresh(cfg, db.users[db.tokens[hash].userId].Who(), at.refresh)),
                    NewRow(cfg, db.tokens[hash].userId, at.store), id);
    }
  }

  lemma LogoutOnlyLowers(db: Db, caller: UserId, presented: Option<Token>, id: UserId)
    ensures var after := Logout(db, caller, presented).db;
            && (caller != id ==> Sessions(after, id) == Sessions(db, id))
            && (presented.Some? ==> Sessions(db, id) - 1 <= Sessions(after, id))
            && Sessions(after, id) <= Sessions(db, id)
            && (caller == id && presented.None? ==> Sessions(after, id) == 0)
  {
    match presented
    case Some(t) =>
      RevokeSubtracts(db, OwnedToken(db, Sha256(t), caller), id);
      assert caller != id ==> UnrevokedOf(db, id) - OwnedToken(db, Sha256(t), caller) == UnrevokedOf(db, id);
    case None =>
      RevokeSubtracts(db, UnrevokedOf(db, caller), id);
      assert caller != id ==> UnrevokedOf(db, id) - UnrevokedOf(db, caller) == UnrevokedOf(db, id);
  }

  lemma ChangePasswordOnlyLowers(cfg: Config, db: Db, owner: UserId, current: string, next: string, id: UserId)
    ensures var o := ChangePassword(cfg, db, owner, current, next);
            && Sessions(o.db, id) <= Sessions(db, id)
            && (owner == id && o.reply == Ack ==> Sessions(o.db, id) == 0)
  {
    if ChangePassword(cfg, db, owner, current, next).reply == Ack {
      var db1 := PutUser(db, db.users[owner].(password := next));
      SameTokensSameSessions(db, db1, id);
      assert UnrevokedOf(db1, owner) == UnrevokedOf(db, owner);
      RevokeSubtracts(db1, UnrevokedOf(db, owner), id);
    }
  }

  lemma DeactivateOnlyLowers(db: Db, target: UserId, id: UserId)
    ensures var o := Deactivate(db, target);
            && Sessions(o.db, id) <= Sessions(db, id)
            && (target == id && o.reply == Ack ==> Sessions(o.db, id) == 0)
  {
    if Live(db, target) {
      var db1 := PutUser(db, db.users[target].(isActive := false));
      SameTokensSameSessions(db, db1, id);
      RevokeSubtracts(db1, UnrevokedOf(db1, target), id);
      SameTokensSameSessions(RevokeRows(db1, UnrevokedOf(db1, target)), Deactivate(db, target).db, id);
    }
  }

  lemma RegisterAddsOne(cfg: Config, db: Db, email: string, hashed: string, newId: UserId, at: Times, id: UserId)
    ensures var o := Register(cfg, db, email, hashed, newId, at);
            Sessions(o.db, id) == Sessions(db, id) + (if SpeaksFor(o.reply, id) then 1 else 0)
  {
    var user := NewUser(newId, Normalize(email), hashed);
    if FindByEmail(db, user.email).None? && InsertUser(db, user).Some? {
      var db1 := InsertUser(db, user).value;
      SameTokensSameSessions(db, db1, id);
      if Issue(cfg, db1, user, at).Some? {
        InsertAddsOne(db1, Sha256(SignRefresh(cfg, user.Who(), at.refresh)), NewRow(cfg, newId, at.store), id);
      }
    }
  }

  lemma LoginAddsOne(cfg: Config, db: Db, email: string, password: string, at: Times, id: UserId)
    ensures var o := Login(cfg, db, email, password, at);
            Sessions(o.db, id) == Sessions(db, id) + (if SpeaksFor(o.reply, id) then 1 else 0)
  {
    match FindByEmail(db, Normalize(email))
    case None =>
    case Some(user) =>
      if Issue(cfg, db, user, at).Some? {
        InsertAddsOne(db, Sha256(SignRefresh(cfg, user.Who(), at.refresh)), NewRow(cfg, user.id, at.store), id);
      }
  }

  /** Registrations and logins of a user counted from the call log, restarted by each call that ends
      all of the user's sessions. */
  ghost function Openings(cfg: Config, sys: System, calls: seq<Call>, id: UserId, sofar: nat): nat
    decreases |calls|
  {
    if calls == [] then sofar
    else
      var request := calls[0].request;
      var reply := Serve(cfg, sys, calls[0]).reply;
      var count :=
        if EndsSessionsOf(request, id) && reply == Ack then 0
        else if (request.DoRegister? || request.DoLogin?) && SpeaksFor(reply, id) then sofar + 1
        else sofar;
      Openings(cfg, Next(cfg, sys, calls[0]), calls[1..], id, count)
  }

  /** A user never has more usable refresh tokens than registrations and logins since the last time all
      of the user's sessions were ended, over every run. */
  lemma {:induction false} SessionsNeverExceedOpenings(
      cfg: Config, sys: System, calls: seq<Call>, id: UserId, sofar: nat)
    requires cfg.Valid() && DbInv(cfg, sys.db) && Sessions(sys.db, id) <= sofar
    ensures Sessions(Run(cfg, sys, calls).db, id) <= Openings(cfg, sys, calls, id, sofar)
    decreases |calls|
  {
    if calls != [] {
      ServeKeeps(cfg, sys, calls[0]);
      SessionConservation(cfg, sys, calls[0], id);
      var request := calls[0].request;
      var reply := Serve(cfg, sys, calls[0]).reply;
      var count :=
        if EndsSessionsOf(request, id) && reply == Ack then 0
        else if (request.DoRegister? || request.DoLogin?) && SpeaksFor(reply, id) then sofar + 1
        else sofar;
      SessionsNeverExceedOpenings(cfg, Next(cfg, sys, calls[0]), calls[1..], id, count);
    }
  }

  // ----- no refresh token is handed out twice -----

  /** A refresh token a run has stored is never handed out again in any continuation; in particular a
      refresh never returns the token it consumed. */
  lemma NeverReissued(cfg: Config, sys: System, calls: seq<Call>, later: Call, token: Token)
    requires cfg.Valid() && DbInv(cfg, sys.db) && Sha256(token) in sys.db.tokens
    ensures var reply := Serve(cfg, Run(cfg, sys, calls), later).reply;
            reply.Session? ==> reply.tokens.refreshToken != token
  {
    RunKeeps(cfg, sys, calls);
    var end := Run(cfg, sys, calls);
    assert Sha256(token) in end.db.tokens;
    ServeIssuesFresh(cfg, end, later);
  }

  lemma ServeIssuesFresh(cfg: Config, sys: System, call: Call)
    requires DbInv(cfg, sys.db)
    ensures IssuesFresh(sys.db, Serve(cfg, sys, call))
  {
    var at := Reading(sys.clock, call.waits);
    match call.request
    case DoRegister(email, hashed, id) => RegisterIssuesFresh(cfg, sys.db, email, hashed, id, at);
    case DoLogin(email, password) => LoginIssuesFresh(cfg, sys.db, email, password, at);
    case DoRefresh(token) => RefreshIssuesFresh(cfg, sys.db, token, at);
    case _ => assert !Serve(cfg, sys, call).reply.Session?;
  }
}
