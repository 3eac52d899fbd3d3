/** Who changes what: for each call of the auth service, exactly which columns of which rows it changes, what it
    answers and for whom. */
module AuthEffects {
  import opened Options
  import opened Duration
  import opened Emails
  import opened Tokens
  import opened AuthStore
  import opened AuthHandlers
  import opened AuthHistory

  // ----- accounts -----

  /** The call ensured that the account is an administrator. */
  ghost predicate EnsuresAdmin(cfg: Config, sys: System, call: Call, id: UserId) {
    && call.request.DoEnsureAdmin? && Normalize(call.request.adminEmail) != ""
    && HoldsEmail(Serve(cfg, sys, call).db, id, Normalize(call.request.adminEmail))
  }

  predicate Acknowledged(request: Request, reply: Reply, expected: Request) {
    request == expected && reply == Ack
  }

  /** What one call makes of an account that is there: address and verification never change; the password is replaced
      by the owner's password change alone, the role by an EnsureAdmin of its address alone, the standing by its own
      deactivation alone. */
  ghost predicate AccountFollows(cfg: Config, sys: System, call: Call, old': User, new': User) {
    var request, reply := call.request, Serve(cfg, sys, call).reply;
    && new'.id == old'.id && new'.email == old'.email && new'.isEmailVerified == old'.isEmailVerified
    && new'.password == (if request.DoChangePassword? && request.owner == old'.id && reply == Ack then request.next
                         else old'.password)
    && new'.role == (if EnsuresAdmin(cfg, sys, call, old'.id) then Admin else old'.role)
    && new'.isActive == (old'.isActive && !Acknowledged(request, reply, DoDeactivate(old'.id)))
    && new'.deleted == (old'.deleted || Acknowledged(request, reply, DoDeactivate(old'.id)))
  }

  lemma RegisterLeavesAccounts(
      cfg: Config, db: Db, email: string, hashed: string, newId: UserId, at: Times, id: UserId)
    requires id in db.users
    ensures var db' := Register(cfg, db, email, hashed, newId, at).db; id in db'.users && db'.users[id] == db.users[id]
  {
  }

  lemma EnsureAdminOnAccount(
      cfg: Config, db: Db, adminEmail: string, adminPassword: string, digest: string, newId: UserId, id: UserId)
    requires DbInv(cfg, db) && id in db.users
    ensures var db' := EnsureAdmin(db, adminEmail, adminPassword, digest, newId).db;
            && id in db'.users
            && db'.users[id] == (if Normalize(adminEmail) != "" && HoldsEmail(db', id, Normalize(adminEmail))
                                 then db.users[id].(role := Admin) else db.users[id])
  {
    var email := Normalize(adminEmail);
    assert GoodUser(db, id);
    if holder :| HoldsEmail(db, holder, email) {
      FindByEmailIsTheHolder(db, holder, email);
      assert GoodUser(db, holder);
    } else {
      assert FindByEmail(db, email) == None && !HoldsEmail(db, id, email);
    }
  }

  lemma TokenCallsLeaveAccounts(cfg: Config, sys: System, call: Call)
    requires call.request.DoLogin? || call.request.DoRefresh? || call.request.DoLogout? || call.request.DoValidate?
    ensures Serve(cfg, sys, call).db.users == sys.db.users
  {
    var at := Reading(sys.clock, call.waits);
    match call.request
    case DoLogin(email, password) => assert Login(cfg, sys.db, email, password, at).db.users == sys.db.users;
    case DoRefresh(token) => assert Refresh(cfg, sys.db, token, at).db.users == sys.db.users;
    case DoLogout(caller, presented) => assert Logout(sys.db, caller, presented).db.users == sys.db.users;
    case DoValidate(_) =>
  }

  lemma AccountEffects(cfg: Config, sys: System, call: Call, id: UserId)
    requires cfg.Valid() && DbInv(cfg, sys.db) && id in sys.db.users
    ensures var db' := Serve(cfg, sys, call).db;
            id in db'.users && AccountFollows(cfg, sys, call, sys.db.users[id], db'.users[id])
  {
    var at := Reading(sys.clock, call.waits);
    assert GoodUser(sys.db, id);
    match call.request
    case DoRegister(email, hashed, newId) => RegisterLeavesAccounts(cfg, sys.db, email, hashed, newId, at, id);
    case DoChangePassword(owner, current, next) => ChangePasswordIff(cfg, sys.db, owner, current, next);
    case DoDeactivate(target) => DeactivateOnAccount(cfg, sys.db, target, id);
    case DoEnsureAdmin(adminEmail, adminPassword, digest, newId) =>
      EnsureAdminOnAccount(cfg, sys.db, adminEmail, adminPassword, digest, newId, id);
    case _ => TokenCallsLeaveAccounts(cfg, sys, call);
  }

  lemma DeactivateOnAccount(cfg: Config, db: Db, target: UserId, id: UserId)
    requires DbInv(cfg, db) && id in db.users
    ensures var o := Deactivate(db, target);
            && id in o.db.users
            && o.db.users[id]
               == (if target == id && o.reply == Ack then db.users[id].(isActive := false, deleted := true)
                   else db.users[id])
  {
    if Live(db, target) {
      assert GoodUser(db, target);
    }
  }

  ghost predicate Free(db: Db, email: string) {
    !exists holder :: HoldsEmail(db, holder, email)
  }

  /** What one call makes an account that was not there: a registration of a free address an active, unverified member
      with the password given; an EnsureAdmin of a free address, with a password, an active, verified administrator. */
  ghost function CreatedAccount(sys: System, call: Call, id: UserId): Option<User> {
    match call.request
    case DoRegister(email, hashed, newId) =>
      if newId == id && Free(sys.db, Normalize(email))
      then Some(User(id, Normalize(email), hashed, Member, true, false, false)) else None
    case DoEnsureAdmin(adminEmail, adminPassword, digest, newId) =>
      if newId == id && Normalize(adminEmail) != "" && adminPassword != "" && Free(sys.db, Normalize(adminEmail))
      then Some(User(id, Normalize(adminEmail), digest, Admin, true, true, false)) else None
    case _ => None
  }

  lemma AccountsCreated(cfg: Config, sys: System, call: Call, id: UserId)
    requires cfg.Valid() && DbInv(cfg, sys.db) && id !in sys.db.users
    ensures var db' := Serve(cfg, sys, call).db;
            && (id in db'.users <==> CreatedAccount(sys, call, id).Some?)
            && (id in db'.users ==> db'.users[id] == CreatedAccount(sys, call, id).value)
  {
    var at := Reading(sys.clock, call.waits);
    match call.request
    case DoRegister(email, hashed, newId) =>
      assert Free(sys.db, Normalize(email)) <==> FindByEmail(sys.db, Normalize(email)).None?;
    case DoEnsureAdmin(adminEmail, adminPassword, digest, newId) =>
      EnsureAdminCreates(cfg, sys.db, adminEmail, adminPassword, digest, newId, id);
    case DoChangePassword(owner, current, next) => ChangePasswordIff(cfg, sys.db, owner, current, next);
    case DoDeactivate(target) => assert Live(sys.db, target) ==> GoodUser(sys.db, target);
    case _ => TokenCallsLeaveAccounts(cfg, sys, call);
  }

  lemma EnsureAdminCreates(
      cfg: Config, db: Db, adminEmail: string, adminPassword: string, digest: string, newId: UserId, id: UserId)
    requires DbInv(cfg, db) && id !in db.users
    ensures var db' := EnsureAdmin(db, adminEmail, adminPassword, digest, newId).db;
            var email := Normalize(adminEmail);
            && (id in db'.users <==> newId == id && email != "" && adminPassword != "" && Free(db, email))
            && (id in db'.users ==> db'.users[id] == User(id, email, digest, Admin, true, true, false))
  {
    var email := Normalize(adminEmail);
    assert Free(db, email) <==> FindByEmail(db, email).None?;
    if holder :| HoldsEmail(db, holder, email) {
      FindByEmailIsTheHolder(db, holder, email);
      assert GoodUser(db, holder);
    }
  }

  // ----- token rows -----

  /** The call takes row h out of use. */
  ghost predicate Revokes(cfg: Config, sys: System, call: Call, h: TokenHash)
    requires h in sys.db.tokens
  {
    var request, reply := call.request, Serve(cfg, sys, call).reply;
    || (request.DoRefresh? && Sha256(request.token) == h && reply.Session?)
    || (request.DoLogout? && request.caller == sys.db.tokens[h].userId
        && (request.presented == None || Sha256(request.presented.value) == h))
    || (EndsSessionsOf(request, sys.db.tokens[h].userId) && reply == Ack)
  }

  /** What one call makes of the token rows: a row that is there keeps its owner and expiry, and is revoked exactly by
      being traded in, by its owner's logout, password change or deactivation; a row that was not there appears exactly
      with the session that hands its token out, unrevoked, for the session's account, to expire when the token does,
      counted from the moment it is stored. */
  lemma TokenEffects(cfg: Config, sys: System, call: Call, h: TokenHash)
    requires cfg.Valid() && DbInv(cfg, sys.db)
    ensures var o := Serve(cfg, sys, call);
            if h in sys.db.tokens then
              && h in o.db.tokens
              && o.db.tokens[h].userId == sys.db.tokens[h].userId
              && o.db.tokens[h].expiresAt == sys.db.tokens[h].expiresAt
              && (o.db.tokens[h].revoked <==> sys.db.tokens[h].revoked || Revokes(cfg, sys, call, h))
            else
              && (h in o.db.tokens <==> o.reply.Session? && h == Sha256(o.reply.tokens.refreshToken))
              && (h in o.db.tokens ==>
                    && o.db.tokens[h].userId == o.reply.user.id && !o.db.tokens[h].revoked
                    && o.db.tokens[h].expiresAt
                       == Reading(sys.clock, call.waits).store + 1000 * JwtLifetime(cfg.refreshExpiresIn))
  {
    var at := Reading(sys.clock, call.waits);
    WellFormedLifetime(cfg.refreshExpiresIn);
    match call.request
    case DoRegister(email, hashed, newId) => RegisterOnTokens(cfg, sys.db, email, hashed, newId, at, h);
    case DoLogin(email, password) => LoginOnTokens(cfg, sys.db, email, password, at, h);
    case DoRefresh(token) => RefreshOnTokens(cfg, sys.db, token, at, h);
    case DoLogout(caller, presented) => LogoutRevokesExactly(sys.db, caller, presented, h);
    case DoValidate(_) =>
    case DoChangePassword(owner, current, next) => ChangePasswordOnTokens(cfg, sys.db, owner, current, next, h);
    case DoDeactivate(target) => DeactivateOnTokens(cfg, sys.db, target, h);
    case DoEnsureAdmin(adminEmail, adminPassword, digest, newId) =>
      assert EnsureAdmin(sys.db, adminEmail, adminPassword, digest, newId).db.tokens == sys.db.tokens;
  }

  /** The row of the session's token is there, and no other is new. */
  predicate OnlyIssued(cfg: Config, db: Db, o: Outcome, at: Times, h: TokenHash) {
    if h in db.tokens then h in o.db.tokens && o.db.tokens[h] == db.tokens[h]
    else
      && (h in o.db.tokens <==> o.reply.Session? && h == Sha256(o.reply.tokens.refreshToken))
      && (h in o.db.tokens ==>
            o.db.tokens[h] == TokenRow(o.reply.user.id, at.store + ParseDurationMs(cfg.refreshExpiresIn), false))
  }

  lemma RegisterOnTokens(
      cfg: Config, db: Db, email: string, hashed: string, newId: UserId, at: Times, h: TokenHash)
    ensures OnlyIssued(cfg, db, Register(cfg, db, email, hashed, newId, at), at, h)
  {
  }

  lemma LoginOnTokens(cfg: Config, db: Db, email: string, password: string, at: Times, h: TokenHash)
    ensures OnlyIssued(cfg, db, Login(cfg, db, email, password, at), at, h)
  {
  }

  lemma RefreshOnTokens(cfg: Config, db: Db, token: Token, at: Times, h: TokenHash)
    requires DbInv(cfg, db) && at.Ordered()
    ensures var o := Refresh(cfg, db, token, at);
            if h in db.tokens then
              && h in o.db.tokens
              && o.db.tokens[h]
                 == (if Sha256(token) == h && o.reply.Session? then db.tokens[h].(revoked := true) else db.tokens[h])
            else
              && (h in o.db.tokens <==> o.reply.Session? && h == Sha256(o.reply.tokens.refreshToken))
              && (h in o.db.tokens ==>
                    o.db.tokens[h]
                    == TokenRow(o.reply.user.id, at.store + ParseDurationMs(cfg.refreshExpiresIn), false))
  {
    RefreshAllOrNothing(cfg, db, token, at);
    if Joined(db, Sha256(token)) {
      assert GoodUser(db, db.tokens[Sha256(token)].userId);
    }
  }

  lemma ChangePasswordOnTokens(cfg: Config, db: Db, owner: UserId, current: string, next: string, h: TokenHash)
    ensures var o := ChangePassword(cfg, db, owner, current, next);
            && (h in o.db.tokens <==> h in db.tokens)
            && (h in db.tokens ==>
                  o.db.tokens[h]
                  == (if db.tokens[h].userId == owner && o.reply == Ack then db.tokens[h].(revoked := true)
                      else db.tokens[h]))
  {
  }

  lemma DeactivateOnTokens(cfg: Config, db: Db, target: UserId, h: TokenHash)
    ensures var o := Deactivate(db, target);
            && (h in o.db.tokens <==> h in db.tokens)
            && (h in db.tokens ==>
                  o.db.tokens[h]
                  == (if db.tokens[h].userId == target && o.reply == Ack then db.tokens[h].(revoked := true)
                      else db.tokens[h]))
  {
  }

  // ----- answers -----

  /** The claims of a pair of tokens issued for the account. */
  predicate TokensFor(cfg: Config, tokens: TokenPair, user: User, at: Times) {
    var a, r := tokens.accessToken, tokens.refreshToken;
    && a.Jwt? && a.secret == cfg.accessSecret && a.claims.typ == AccessType
    && a.claims.sub == user.id && a.claims.email == user.email && a.claims.role == user.role
    && a.claims.iat == at.access / 1000 && a.claims.exp == a.claims.iat + JwtLifetime(cfg.accessExpiresIn)
    && r.Jwt? && r.secret == cfg.refreshSecret && r.claims.typ == RefreshType
    && r.claims.sub == user.id && r.claims.email == user.email && r.claims.role == user.role
    && r.claims.iat == at.refresh / 1000 && r.claims.exp == r.claims.iat + JwtLifetime(cfg.refreshExpiresIn)
  }

  /** Whose session or validity a request asks for. */
  ghost predicate MayGet(cfg: Config, sys: System, request: Request, user: User) {
    match request
    case DoRegister(email, hashed, id) => user == User(id, Normalize(email), hashed, Member, true, false, false)
    case DoLogin(email, password) => user.email == Normalize(email) && cfg.compare(password, user.password)
    case DoRefresh(token) => Sha256(token) in sys.db.tokens && sys.db.tokens[Sha256(token)].userId == user.id
    case DoValidate(subject) => user.id == subject
    case _ => false
  }

  /** Every session and every validation speaks for the account its request is entitled to, live and active at that
      moment, and shows the columns of its row; the tokens of a session carry them as claims. */
  lemma AnswersDescribeTheRow(cfg: Config, sys: System, call: Call)
    requires cfg.Valid() && DbInv(cfg, sys.db)
    ensures var o := Serve(cfg, sys, call);
            o.reply.Session? || o.reply.Valid? ==>
              && Live(o.db, o.reply.user.id) && o.db.users[o.reply.user.id].isActive
              && Describes(o.reply.user, o.db.users[o.reply.user.id])
              && MayGet(cfg, sys, call.request, o.db.users[o.reply.user.id])
              && (o.reply.Session? ==>
                    && TokensFor(cfg, o.reply.tokens, o.db.users[o.reply.user.id], Reading(sys.clock, call.waits))
                    && !call.request.DoValidate?)
              && (o.reply.Valid? ==> call.request.DoValidate?)
  {
    var at := Reading(sys.clock, call.waits);
    match call.request
    case DoRegister(email, hashed, newId) => SessionOfRegister(cfg, sys.db, email, hashed, newId, at);
    case DoLogin(email, password) => SessionOfLogin(cfg, sys.db, email, password, at);
    case DoRefresh(token) => SessionOfRefresh(cfg, sys.db, token, at);
    case DoValidate(subject) => assert Live(sys.db, subject) ==> GoodUser(sys.db, subject);
    case _ =>
  }

  lemma SessionOfRegister(cfg: Config, db: Db, email: string, hashed: string, newId: UserId, at: Times)
    ensures var o := Register(cfg, db, email, hashed, newId, at);
            && !o.reply.Valid?
            && (o.reply.Session? ==>
                  && o.reply.user.id == newId && newId in o.db.users
                  && o.db.users[newId] == User(newId, Normalize(email), hashed, Member, true, false, false)
                  && Describes(o.reply.user, o.db.users[newId])
                  && TokensFor(cfg, o.reply.tokens, o.db.users[newId], at))
  {
  }

  lemma SessionOfLogin(cfg: Config, db: Db, email: string, password: string, at: Times)
    requires DbInv(cfg, db)
    ensures var o := Login(cfg, db, email, password, at);
            && !o.reply.Valid? && o.db.users == db.users
            && (o.reply.Session? ==>
                  && HoldsEmail(db, o.reply.user.id, Normalize(email))
                  && db.users[o.reply.user.id].isActive && cfg.compare(password, db.users[o.reply.user.id].password)
                  && Describes(o.reply.user, db.users[o.reply.user.id])
                  && TokensFor(cfg, o.reply.tokens, db.users[o.reply.user.id], at))
  {
    if FindByEmail(db, Normalize(email)).Some? {
      var holder :| HoldsEmail(db, holder, Normalize(email));
      FindByEmailIsTheHolder(db, holder, Normalize(email));
      assert GoodUser(db, holder);
    }
  }

  lemma SessionOfRefresh(cfg: Config, db: Db, token: Token, at: Times)
    requires DbInv(cfg, db)
    ensures var o := Refresh(cfg, db, token, at);
            && !o.reply.Valid? && o.db.users == db.users
            && (o.reply.Session? ==>
                  && Sha256(token) in db.tokens && o.reply.user.id == db.tokens[Sha256(token)].userId
                  && Live(db, o.reply.user.id) && db.users[o.reply.user.id].isActive
                  && Describes(o.reply.user, db.users[o.reply.user.id])
                  && TokensFor(cfg, o.reply.tokens, db.users[o.reply.user.id], at))
  {
    if Joined(db, Sha256(token)) {
      assert GoodUser(db, db.tokens[Sha256(token)].userId);
    }
  }

  // ----- registration, as a whole -----

  /** A registration touches no row that is there. With a session it has added one account and one token row; without
      one it answers a conflict and has changed nothing, unless its account went in and its digest was taken. */
  lemma RegisterExactly(cfg: Config, db: Db, email: string, hashed: string, id: UserId, at: Times)
    ensures var o := Register(cfg, db, email, hashed, id, at);
            && (forall i | i in db.users :: i in o.db.users && o.db.users[i] == db.users[i])
            && (forall h | h in db.tokens :: h in o.db.tokens && o.db.tokens[h] == db.tokens[h])
            && (if o.reply.Session? then
                  && id !in db.users && o.db.users.Keys == db.users.Keys + {id}
                  && Sha256(o.reply.tokens.refreshToken) !in db.tokens
                  && o.db.tokens.Keys == db.tokens.Keys + {Sha256(o.reply.tokens.refreshToken)}
                else
                  && o.reply == Conflict && o.db.tokens == db.tokens
                  && (o.db.users == db.users
                      || (&& id !in db.users && Free(db, Normalize(email)) && o.db.users.Keys == db.users.Keys + {id}
                          && var who := Identity(id, Normalize(email), Member);
                             Sha256(SignRefresh(cfg, who, at.refresh)) in db.tokens)))
  {
  }

  // ----- refusals -----

  /** Why a login, a validation or a password change is refused. */
  lemma RefusalsExactly(cfg: Config, db: Db, id: UserId, email: string, password: string, next: string, at: Times)
    requires DbInv(cfg, db)
    ensures var reply := Login(cfg, db, email, password, at).reply;
            && (HoldsEmail(db, id, Normalize(email)) ==>
                  && (reply == Unauthorized <==> !cfg.compare(password, db.users[id].password))
                  && (reply == Forbidden <==> cfg.compare(password, db.users[id].password) && !db.users[id].isActive))
            && (Free(db, Normalize(email)) ==> reply == Unauthorized)
            && (reply.Session? || reply == Unauthorized || reply == Forbidden || reply == Failed)
    ensures Validate(db, id) == Unauthorized <==> !Live(db, id)
    ensures Validate(db, id) == Forbidden <==> Live(db, id) && !db.users[id].isActive
    ensures var reply := ChangePassword(cfg, db, id, password, next).reply;
            && (reply == NotFound <==> !Live(db, id))
            && (reply == Unauthorized <==> Live(db, id) && !cfg.compare(password, db.users[id].password))
    ensures Deactivate(db, id).reply == (if Live(db, id) then Ack else NotFound)
  {
    if HoldsEmail(db, id, Normalize(email)) {
      FindByEmailIsTheHolder(db, id, Normalize(email));
    }
  }

  /** Why a refresh is refused. */
  lemma RefreshRefusalsExactly(cfg: Config, db: Db, token: Token, at: Times)
    ensures var reply := Refresh(cfg, db, token, at).reply;
            var hash := Sha256(token);
            var presentable := VerifiesAsRefresh(cfg, token, at.verify) && hash in db.tokens
                               && Live(db, db.tokens[hash].userId)
                               && !db.tokens[hash].revoked && at.check <= db.tokens[hash].expiresAt;
            && (reply == Unauthorized <==> !presentable)
            && (reply == Forbidden <==> presentable && !db.users[db.tokens[hash].userId].isActive)
            && (reply.Session? || reply == Unauthorized || reply == Forbidden || reply == Failed)
  {
  }

  /** An access token is never traded in, whatever the tables hold and even should both secrets be the same. */
  lemma AccessTokensNeverRefresh(cfg: Config, db: Db, who: Identity, signed: Millis, at: Times)
    ensures Refresh(cfg, db, SignAccess(cfg, who, signed), at) == Outcome(db, Unauthorized)
  {
  }

  // ----- roles over whole runs -----

  ghost predicate WasEnsured(cfg: Config, sys: System, calls: seq<Call>, id: UserId)
    decreases |calls|
  {
    calls != [] && (EnsuresAdmin(cfg, sys, calls[0], id) || WasEnsured(cfg, Next(cfg, sys, calls[0]), calls[1..], id))
  }

  lemma RoleAfterCall(cfg: Config, sys: System, call: Call, id: UserId)
    requires cfg.Valid() && DbInv(cfg, sys.db) && id in Serve(cfg, sys, call).db.users
    ensures Serve(cfg, sys, call).db.users[id].role == Admin
            <==> (id in sys.db.users && sys.db.users[id].role == Admin) || EnsuresAdmin(cfg, sys, call, id)
  {
    if id in sys.db.users {
      assert GoodUser(sys.db, id);
      AccountEffects(cfg, sys, call, id);
    } else {
      AccountsCreated(cfg, sys, call, id);
    }
  }

  lemma {:induction false} RolesOverARun(cfg: Config, sys: System, calls: seq<Call>, id: UserId)
    requires cfg.Valid() && DbInv(cfg, sys.db) && id in Run(cfg, sys, calls).db.users
    ensures Run(cfg, sys, calls).db.users[id].role == Admin
            <==> (id in sys.db.users && sys.db.users[id].role == Admin) || WasEnsured(cfg, sys, calls, id)
    decreases |calls|
  {
    if calls != [] {
      var mid := Next(cfg, sys, calls[0]);
      ServeKeeps(cfg, sys, calls[0]);
      RolesOverARun(cfg, mid, calls[1..], id);
      if id in mid.db.users {
        RoleAfterCall(cfg, sys, calls[0], id);
      }
    }
  }

  /** Over every run from an empty service: an account is an administrator exactly if start-up ensured it, and whoever
      is vouched for as one, or handed a token that says so, has been. */
  lemma AdminsAreEnsured(cfg: Config, calls: seq<Call>, call: Call)
    requires cfg.Valid()
    ensures var sys := System(EMPTY_DB, 0);
            && (forall id | id in Run(cfg, sys, calls).db.users ::
                  Run(cfg, sys, calls).db.users[id].role == Admin <==> WasEnsured(cfg, sys, calls, id))
            && var reply := Serve(cfg, Run(cfg, sys, calls), call).reply;
               (reply.Session? || reply.Valid?) && reply.user.role == Admin ==>
                 WasEnsured(cfg, sys, calls, reply.user.id)
  {
    var sys := System(EMPTY_DB, 0);
    RunKeeps(cfg, sys, calls);
    forall id | id in Run(cfg, sys, calls).db.users
      ensures Run(cfg, sys, calls).db.users[id].role == Admin <==> WasEnsured(cfg, sys, calls, id)
    {
      RolesOverARun(cfg, sys, calls, id);
    }
    var end := Run(cfg, sys, calls);
    AnswersDescribeTheRow(cfg, end, call);
    var reply := Serve(cfg, end, call).reply;
    if reply.Session? || reply.Valid? {
      if reply.user.id in end.db.users {
        AccountEffects(cfg, end, call, reply.user.id);
      } else {
        AccountsCreated(cfg, end, call, reply.user.id);
      }
    }
  }
}
