/** Who changes what, statement by statement: which columns of which rows each statement of the machine changes, and
    that whatever a handler answers is what the atomic handler would answer at that moment. */
module StatementEffects {
  import opened Options
  import opened Duration
  import opened Emails
  import opened Tokens
  import opened AuthStore
  import opened AuthHandlers
  import opened AuthEffects
  import opened AuthMachine
  import opened AuthInvariant
  import opened AuthProtocol

  // ----- accounts -----

  /** The statement is the UPDATE ... SET isActive = false of the account's own deactivation. */
  predicate SwitchesOff(s: State, p: Pid, id: UserId) {
    && p in s.procs && s.procs[p].request == AskDeactivate(id) && s.procs[p].pc.DeactivateWrite?
    && id !in s.userLock
  }

  /** The statement is the soft removal at the end of the account's own deactivation. */
  predicate SoftRemoves(s: State, p: Pid, id: UserId) {
    && p in s.procs && s.procs[p].request == AskDeactivate(id) && s.procs[p].pc.DeactivateDelete?
    && id !in s.userLock
  }

  /** The statement is the INSERT of a registration of a free address. */
  ghost predicate InsertsAccount(s: State, p: Pid, drawn: UserId) {
    && p in s.procs && s.procs[p].request.AskRegister? && s.procs[p].pc.RegisterInsert?
    && drawn !in s.db.users && Free(s.db, Normalize(s.procs[p].request.email))
  }

  lemma RegisterOnAccounts(s: State, p: Pid, email: string, hashed: string, drawn: UserId, id: UserId)
    requires p in s.procs
    ensures var users := RegisterStep(s, p, email, hashed, RegisterInsert, drawn).db.users;
            if id in s.db.users then id in users && users[id] == s.db.users[id]
            else
              && (id in users <==> id == drawn && Free(s.db, Normalize(email)))
              && (id in users ==> users[id] == User(id, Normalize(email), hashed, Member, true, false, false))
  {
  }

  lemma DeactivateOnAccounts(s: State, p: Pid, target: UserId, pc: Pc, id: UserId)
    requires p in s.procs && (pc.DeactivateWrite? || pc.DeactivateDelete?)
    requires target in s.db.users ==> s.db.users[target].id == target
    ensures var users := DeactivateStep(s, p, target, pc).db.users;
            && (id in users <==> id in s.db.users)
            && (id in users ==>
                  users[id] == (if id != target || target in s.userLock then s.db.users[id]
                                else if pc.DeactivateWrite? then s.db.users[id].(isActive := false)
                                else s.db.users[id].(deleted := true)))
  {
  }

  /** No statement changes anything of an account that is there but, in its own deactivation, its standing; and no
      statement adds one but the INSERT of a registration, with the columns the registration was given. */
  lemma AccountsAtStatement(cfg: Config, s: State, p: Pid, drawn: UserId, hash: TokenHash, id: UserId)
    requires Inv(cfg, s) && p in s.procs
    ensures var users := Advance(cfg, s, p, drawn, hash).db.users;
            if id in s.db.users then
              && id in users
              && users[id] == s.db.users[id].(isActive := s.db.users[id].isActive && !SwitchesOff(s, p, id),
                                              deleted := s.db.users[id].deleted || SoftRemoves(s, p, id))
            else
              && (id in users <==> id == drawn && InsertsAccount(s, p, drawn))
              && (id in users ==>
                    users[id] == User(id, Normalize(s.procs[p].request.email), s.procs[p].request.hashed, Member,
                                      true, false, false))
  {
    assert ProcessInv(cfg, s, p);
    var request, pc := s.procs[p].request, s.procs[p].pc;
    if !Writes(pc) {
      OthersDoNotWrite(cfg, s, p, drawn, hash);
    } else if pc.RegisterInsert? {
      RegisterOnAccounts(s, p, request.email, request.hashed, drawn, id);
    } else if pc.DeactivateWrite? || pc.DeactivateDelete? {
      assert GoodUser(s.db, request.target);
      DeactivateOnAccounts(s, p, request.target, pc, id);
    } else {
      TokensChangeNoAccount(cfg, s, p, drawn, hash);
    }
  }

  // ----- token rows -----

  /** The statement takes row h out of use: a logout with that token by its owner, the end of a many-row UPDATE that has
      the row in hand, or the COMMIT of the refresh that presented it. */
  predicate TakesOut(s: State, p: Pid, h: TokenHash)
    requires h in s.db.tokens
  {
    && p in s.procs
    && var request, pc := s.procs[p].request, s.procs[p].pc;
       || (pc.LogoutOne? && Sha256(pc.token) == h && request == AskLogout(s.db.tokens[h].userId, Some(pc.token))
           && h !in s.tokenLock)
       || (pc.RevokeEach? && pc.todo == {} && h in pc.hit)
       || (pc.RefreshCommit? && request.AskRefresh? && Sha256(request.token) == h)
  }

  /** The statement stores row h: the INSERT of a registration or login, or the COMMIT of a refresh. */
  predicate Stores(cfg: Config, s: State, p: Pid, h: TokenHash) {
    && p in s.procs
    && var pc := s.procs[p].pc;
       || (pc.IssueInsert? && pc.tx.NoTx? && h == Sha256(SignRefresh(cfg, pc.user.Who(), pc.refresh))
           && h !in s.tokenLock)
       || (pc.RefreshCommit? && h == Sha256(SignRefresh(cfg, pc.user.Who(), pc.at.refresh)))
  }

  function StoredAt(pc: Pc): Millis
    requires pc.IssueInsert? || pc.RefreshCommit?
  {
    if pc.IssueInsert? then pc.store else pc.at.store
  }

  ghost predicate RowFollows(cfg: Config, s: State, p: Pid, db': Db, h: TokenHash) {
    if h in s.db.tokens then
      && h in db'.tokens
      && db'.tokens[h] == s.db.tokens[h].(revoked := s.db.tokens[h].revoked || TakesOut(s, p, h))
    else
      && (h in db'.tokens <==> Stores(cfg, s, p, h))
      && (h in db'.tokens ==>
            && (s.procs[p].pc.IssueInsert? || s.procs[p].pc.RefreshCommit?)
            && db'.tokens[h] == TokenRow(s.procs[p].pc.user.id,
                                         StoredAt(s.procs[p].pc) + ParseDurationMs(cfg.refreshExpiresIn), false))
  }

  lemma InsertOnTokens(
      cfg: Config, s: State, p: Pid, tx: Tx, user: User, access: Millis, refresh: Millis, store: Millis, h: TokenHash)
    requires p in s.procs && s.procs[p].pc == IssueInsert(tx, user, access, refresh, store)
    requires tx.InTx? ==> tx.stored == map[]
    ensures RowFollows(cfg, s, p, InsertStep(cfg, s, p, tx, user, access, refresh, store).db, h)
  {
  }

  lemma CommitOnTokens(cfg: Config, s: State, p: Pid, token: Token, tx: Tx, user: User, at: Times, h: TokenHash)
    requires p in s.procs && s.procs[p] == Process(AskRefresh(token), RefreshCommit(tx, user, at))
    requires ProcessInv(cfg, s, p)
    ensures RowFollows(cfg, s, p, CommitStep(cfg, s, p, token, tx, user, at).db, h)
  {
  }

  lemma LogoutOnTokens(cfg: Config, s: State, p: Pid, caller: UserId, token: Token, h: TokenHash)
    requires p in s.procs && s.procs[p] == Process(AskLogout(caller, Some(token)), LogoutOne(token))
    ensures RowFollows(cfg, s, p, LogoutStep(s, p, caller, token).db, h)
  {
  }

  lemma RevokeEachOnTokens(
      cfg: Config, s: State, p: Pid, owner: UserId, todo: set<TokenHash>, hit: set<TokenHash>, hash: TokenHash,
      h: TokenHash)
    requires p in s.procs && s.procs[p].pc == RevokeEach(owner, todo, hit)
    ensures todo == {} ==> RowFollows(cfg, s, p, RevokeEndStep(s, p, hit).db, h)
    ensures todo != {} ==> RowFollows(cfg, s, p, RevokeRowStep(s, p, owner, todo, hit, hash).db, h)
  {
  }

  /** No statement changes anything of a token row that is there but to take it out of use, and then only as its owner,
      or the refresh that presented it, asked; and no statement adds one but those that hand its token out, for the
      account they speak for, to expire after the configured time. */
  lemma TokensAtStatement(cfg: Config, s: State, p: Pid, drawn: UserId, hash: TokenHash, h: TokenHash)
    requires Inv(cfg, s) && p in s.procs
    ensures RowFollows(cfg, s, p, Advance(cfg, s, p, drawn, hash).db, h)
    ensures s.procs[p].pc.RevokeEach? && h in s.procs[p].pc.hit ==>
              && h in s.db.tokens
              && (s.procs[p].request == AskLogout(s.db.tokens[h].userId, None)
                  || s.procs[p].request == AskDeactivate(s.db.tokens[h].userId))
  {
    assert ProcessInv(cfg, s, p);
    var request, pc := s.procs[p].request, s.procs[p].pc;
    if !Writes(pc) {
      OthersDoNotWrite(cfg, s, p, drawn, hash);
    } else if pc.IssueInsert? {
      InsertOnTokens(cfg, s, p, pc.tx, pc.user, pc.access, pc.refresh, pc.store, h);
    } else if pc.RefreshCommit? {
      CommitOnTokens(cfg, s, p, request.token, pc.tx, pc.user, pc.at, h);
    } else if pc.LogoutOne? {
      LogoutOnTokens(cfg, s, p, request.caller, pc.token, h);
    } else if pc.RevokeEach? {
      RevokeEachOnTokens(cfg, s, p, pc.id, pc.todo, pc.hit, hash, h);
    } else {
      AccountWritesOnTokens(cfg, s, p, drawn, hash);
    }
  }

  lemma AccountWritesOnTokens(cfg: Config, s: State, p: Pid, drawn: UserId, hash: TokenHash)
    requires p in s.procs
    requires s.procs[p].pc.RegisterInsert? || s.procs[p].pc.DeactivateWrite? || s.procs[p].pc.DeactivateDelete?
    ensures Advance(cfg, s, p, drawn, hash).db.tokens == s.db.tokens
  {
  }

  // ----- answers -----

  /** The clock readings of a refresh that answers at the coming statement; those it has not taken stand at now. */
  function ReadingsOf(s: State, p: Pid): Times
    requires p in s.procs
  {
    match s.procs[p].pc
    case RefreshLock(verify) => Times(verify, s.now, s.now, s.now, s.now)
    case RefreshCheck(verify, _, _) => Times(verify, s.now, s.now, s.now, s.now)
    case IssueInsert(InTx(verify, check, _, _), _, access, refresh, store) =>
      Times(verify, check, access, refresh, store)
    case RefreshCommit(_, _, at) => at
    case _ => Times(s.now, s.now, s.now, s.now, s.now)
  }

  /** Process p has answered in state s, and what it has done and answered is this. */
  ghost predicate Answers(s: State, p: Pid, o: Outcome) {
    p in s.procs && s.procs[p].pc == Done(o.reply) && s.db == o.db
  }

  ghost predicate HasAnswered(s: State, p: Pid) {
    p in s.procs && s.procs[p].pc.Done?
  }

  lemma EarlyRefusal(cfg: Config, s: State, p: Pid, token: Token, drawn: UserId, hash: TokenHash)
    requires Inv(cfg, s) && p in s.procs && s.procs[p].request == AskRefresh(token)
    requires s.procs[p].pc.RefreshVerify? || s.procs[p].pc.RefreshLock?
    requires HasAnswered(Advance(cfg, s, p, drawn, hash), p)
    ensures Answers(Advance(cfg, s, p, drawn, hash), p, AuthHandlers.Refresh(cfg, s.db, token, ReadingsOf(s, p)))
  {
    assert ProcessInv(cfg, s, p);
  }

  lemma CheckedRefusal(cfg: Config, s: State, p: Pid, token: Token, drawn: UserId, hash: TokenHash)
    requires Inv(cfg, s) && p in s.procs && s.procs[p].request == AskRefresh(token) && s.procs[p].pc.RefreshCheck?
    requires HasAnswered(Advance(cfg, s, p, drawn, hash), p)
    ensures Answers(Advance(cfg, s, p, drawn, hash), p, AuthHandlers.Refresh(cfg, s.db, token, ReadingsOf(s, p)))
  {
    assert ProcessInv(cfg, s, p);
  }

  lemma InsertRefusal(cfg: Config, s: State, p: Pid, token: Token, drawn: UserId, hash: TokenHash)
    requires Inv(cfg, s) && p in s.procs && s.procs[p].request == AskRefresh(token) && s.procs[p].pc.IssueInsert?
    requires HasAnswered(Advance(cfg, s, p, drawn, hash), p)
    ensures Answers(Advance(cfg, s, p, drawn, hash), p, AuthHandlers.Refresh(cfg, s.db, token, ReadingsOf(s, p)))
  {
    assert ProcessInv(cfg, s, p);
  }

  lemma RefreshGoesOn(cfg: Config, s: State, p: Pid, drawn: UserId, hash: TokenHash)
    requires p in s.procs
    requires var pc := s.procs[p].pc; pc.RefreshRevoke? || pc.IssueAccess? || pc.IssueRefresh? || pc.IssueStamp?
    ensures !HasAnswered(Advance(cfg, s, p, drawn, hash), p)
  {
  }

  /** Refreshes are linearisable in full: with success or refusal, at whichever statement a refresh answers, tables and
      answer are those of the atomic handler on the tables of that moment. */
  lemma RefreshAnswersAtomically(cfg: Config, s: State, p: Pid, token: Token, drawn: UserId, hash: TokenHash)
    requires Inv(cfg, s) && p in s.procs && s.procs[p].request == AskRefresh(token) && !s.procs[p].pc.Done?
    requires HasAnswered(Step(cfg, s, Move(p, drawn, hash)), p)
    ensures Answers(Step(cfg, s, Move(p, drawn, hash)), p,
                    AuthHandlers.Refresh(cfg, s.db, token, ReadingsOf(s, p)))
  {
    var pc := s.procs[p].pc;
    assert ProcessInv(cfg, s, p);
    if pc.RefreshVerify? || pc.RefreshLock? {
      EarlyRefusal(cfg, s, p, token, drawn, hash);
    } else if pc.RefreshCheck? {
      CheckedRefusal(cfg, s, p, token, drawn, hash);
    } else if pc.IssueInsert? {
      InsertRefusal(cfg, s, p, token, drawn, hash);
    } else if pc.RefreshCommit? {
      CommitIsAtomicRefresh(cfg, s, p, drawn, hash);
    } else {
      RefreshGoesOn(cfg, s, p, drawn, hash);
    }
  }

  /** A login or registration refused before it issues anything, a deactivation that finds nobody and a validation answer
      what the atomic handler answers at that moment, and change nothing. */
  lemma RefusalsAreAtomic(cfg: Config, s: State, p: Pid, drawn: UserId, hash: TokenHash, at: Times)
    requires Inv(cfg, s) && p in s.procs && HasAnswered(Step(cfg, s, Move(p, drawn, hash)), p)
    ensures var request, pc, s' := s.procs[p].request, s.procs[p].pc, Step(cfg, s, Move(p, drawn, hash));
            && (pc.LoginFind? && request.AskLogin? ==>
                  Answers(s', p, AuthHandlers.Login(cfg, s.db, request.email, request.password, at)))
            && ((pc.RegisterFind? || pc.RegisterInsert?) && request.AskRegister? ==>
                  Answers(s', p, AuthHandlers.Register(cfg, s.db, request.email, request.hashed, drawn, at)))
            && (pc.DeactivateFind? && request.AskDeactivate? ==>
                  Answers(s', p, AuthHandlers.Deactivate(s.db, request.target)))
            && (pc.ValidateFind? && request.AskValidate? ==>
                  Answers(s', p, Outcome(s.db, AuthHandlers.Validate(s.db, request.subject))))
  {
    assert ProcessInv(cfg, s, p);
    var request, pc := s.procs[p].request, s.procs[p].pc;
    if pc.LoginFind? {
      LoginRefusal(cfg, s, p, request.email, request.password, at);
    } else if pc.RegisterFind? || pc.RegisterInsert? {
      RegisterRefusal(cfg, s, p, request.email, request.hashed, pc, drawn, at);
    }
  }

  lemma LoginRefusal(cfg: Config, s: State, p: Pid, email: string, password: string, at: Times)
    requires p in s.procs && HasAnswered(LoginStep(cfg, s, p, email, password), p)
    ensures Answers(LoginStep(cfg, s, p, email, password), p, AuthHandlers.Login(cfg, s.db, email, password, at))
  {
  }

  lemma RegisterRefusal(cfg: Config, s: State, p: Pid, email: string, hashed: string, pc: Pc, drawn: UserId, at: Times)
    requires p in s.procs && (pc.RegisterFind? || pc.RegisterInsert?)
    requires HasAnswered(RegisterStep(s, p, email, hashed, pc, drawn), p)
    ensures Answers(RegisterStep(s, p, email, hashed, pc, drawn), p,
                    AuthHandlers.Register(cfg, s.db, email, hashed, drawn, at))
  {
  }

  ghost predicate GivesSession(s: State, p: Pid) {
    p in s.procs && s.procs[p].pc.Done? && s.procs[p].pc.reply.Session?
  }

  lemma IssuersKnow(cfg: Config, s: State, p: Pid)
    requires p in s.procs && ProcessInv(cfg, s, p)
    requires s.procs[p].pc.IssueInsert? || s.procs[p].pc.RefreshCommit?
    ensures var user := s.procs[p].pc.user; Known(s, user) && user.isActive
  {
  }

  lemma SessionOfInsert(
      cfg: Config, s: State, p: Pid, tx: Tx, user: User, access: Millis, refresh: Millis, store: Millis)
    requires p in s.procs && !s.procs[p].pc.Done?
    ensures var pc := InsertStep(cfg, s, p, tx, user, access, refresh, store).procs[p].pc;
            pc.Done? && pc.reply.Session? ==>
              pc.reply == Session(ToView(user), TokenPair(SignAccess(cfg, user.Who(), access),
                                                          SignRefresh(cfg, user.Who(), refresh)))
  {
  }

  lemma SessionOfCommit(cfg: Config, s: State, p: Pid, token: Token, tx: Tx, user: User, at: Times)
    requires p in s.procs
    ensures CommitStep(cfg, s, p, token, tx, user, at).procs[p].pc
            == Done(Session(ToView(user), TokenPair(SignAccess(cfg, user.Who(), at.access),
                                                    SignRefresh(cfg, user.Who(), at.refresh))))
  {
  }

  lemma FindsGiveNoSession(cfg: Config, s: State, p: Pid, drawn: UserId, hash: TokenHash)
    requires p in s.procs
    requires var pc := s.procs[p].pc; pc.RegisterFind? || pc.RegisterInsert? || pc.LoginFind? || pc.ValidateFind?
    ensures !GivesSession(Advance(cfg, s, p, drawn, hash), p)
  {
  }

  lemma ChecksGiveNoSession(cfg: Config, s: State, p: Pid, drawn: UserId, hash: TokenHash)
    requires p in s.procs
    requires var pc := s.procs[p].pc; pc.RefreshVerify? || pc.RefreshLock? || pc.RefreshCheck?
    ensures !GivesSession(Advance(cfg, s, p, drawn, hash), p)
  {
  }

  lemma UpdatesGiveNoSession(cfg: Config, s: State, p: Pid, drawn: UserId, hash: TokenHash)
    requires p in s.procs
    requires var pc := s.procs[p].pc; pc.LogoutOne? || pc.RevokeStart? || pc.RevokeEach?
    ensures !GivesSession(Advance(cfg, s, p, drawn, hash), p)
  {
  }

  lemma DeactivationsGiveNoSession(cfg: Config, s: State, p: Pid, drawn: UserId, hash: TokenHash)
    requires p in s.procs
    requires var pc := s.procs[p].pc; pc.DeactivateFind? || pc.DeactivateWrite? || pc.DeactivateDelete?
    ensures !GivesSession(Advance(cfg, s, p, drawn, hash), p)
  {
  }

  /** Only the INSERT of a registration or login and the COMMIT of a refresh hand out a session. */
  lemma SessionsOnlyFromIssuers(cfg: Config, s: State, p: Pid, drawn: UserId, hash: TokenHash)
    requires p in s.procs
    requires var pc := s.procs[p].pc; !pc.Done? && !pc.IssueInsert? && !pc.RefreshCommit?
    ensures !GivesSession(Advance(cfg, s, p, drawn, hash), p)
  {
    var pc := s.procs[p].pc;
    if pc.RegisterFind? || pc.RegisterInsert? || pc.LoginFind? || pc.ValidateFind? {
      FindsGiveNoSession(cfg, s, p, drawn, hash);
    } else if pc.RefreshVerify? || pc.RefreshLock? || pc.RefreshCheck? {
      ChecksGiveNoSession(cfg, s, p, drawn, hash);
    } else if pc.LogoutOne? || pc.RevokeStart? || pc.RevokeEach? {
      UpdatesGiveNoSession(cfg, s, p, drawn, hash);
    } else if pc.DeactivateFind? || pc.DeactivateWrite? || pc.DeactivateDelete? {
      DeactivationsGiveNoSession(cfg, s, p, drawn, hash);
    } else {
      RefreshGoesOn(cfg, s, p, drawn, hash);
    }
  }

  /** The reply speaks for the account as its row has it, shown as active, and so do the tokens' claims. */
  ghost predicate SpeaksForItsRow(db: Db, reply: Reply) {
    && reply.Session?
    && reply.user.id in db.users
    && Describes(reply.user, db.users[reply.user.id].(isActive := true))
    && var a, r := reply.tokens.accessToken, reply.tokens.refreshToken;
       && a.Jwt? && a.claims.typ == AccessType && r.Jwt? && r.claims.typ == RefreshType
       && r.claims.sub == a.claims.sub == reply.user.id
       && r.claims.role == a.claims.role == reply.user.role
       && r.claims.email == a.claims.email == reply.user.email
  }

  lemma SignedSpeaks(cfg: Config, db: Db, user: User, access: Millis, refresh: Millis)
    requires user.id in db.users && db.users[user.id].Lasting() == user.Lasting() && user.isActive
    requires db.users[user.id].id == user.id
    ensures SpeaksForItsRow(db, Session(ToView(user), TokenPair(SignAccess(cfg, user.Who(), access),
                                                                SignRefresh(cfg, user.Who(), refresh))))
  {
  }

  /** Whoever is handed a session is shown the account it was issued for, as its row has it; nothing but the account's
      standing can have changed since its handler read it, and it was active then. The tokens carry it as claims. */
  lemma SessionsDescribeTheRow(cfg: Config, s: State, p: Pid, drawn: UserId, hash: TokenHash)
    requires Inv(cfg, s) && p in s.procs && !s.procs[p].pc.Done?
    requires GivesSession(Advance(cfg, s, p, drawn, hash), p)
    ensures s.procs[p].pc.IssueInsert? || s.procs[p].pc.RefreshCommit?
    ensures SpeaksForItsRow(s.db, Advance(cfg, s, p, drawn, hash).procs[p].pc.reply)
  {
    assert ProcessInv(cfg, s, p);
    var request, pc := s.procs[p].request, s.procs[p].pc;
    if pc.IssueInsert? || pc.RefreshCommit? {
      IssuersKnow(cfg, s, p);
      assert GoodUser(s.db, pc.user.id);
    }
    if pc.IssueInsert? {
      SessionOfInsert(cfg, s, p, pc.tx, pc.user, pc.access, pc.refresh, pc.store);
      SignedSpeaks(cfg, s.db, pc.user, pc.access, pc.refresh);
    } else if pc.RefreshCommit? {
      SessionOfCommit(cfg, s, p, request.token, pc.tx, pc.user, pc.at);
      SignedSpeaks(cfg, s.db, pc.user, pc.at.access, pc.at.refresh);
    } else {
      SessionsOnlyFromIssuers(cfg, s, p, drawn, hash);
    }
  }

  /** The UPDATE that ends a logout or a deactivation acknowledges it, and a logout is acknowledged by nothing else. */
  lemma UpdatesAcknowledge(cfg: Config, s: State, p: Pid, drawn: UserId, hash: TokenHash)
    requires Inv(cfg, s) && p in s.procs && HasAnswered(Advance(cfg, s, p, drawn, hash), p)
    requires var pc := s.procs[p].pc; pc.LogoutOne? || pc.RevokeEach? || pc.DeactivateDelete?
    ensures Advance(cfg, s, p, drawn, hash).procs[p].pc == Done(Ack)
    ensures s.procs[p].pc.RevokeEach? ==> s.procs[p].request == AskLogout(s.procs[p].pc.id, None)
  {
    assert ProcessInv(cfg, s, p);
    var request, pc := s.procs[p].request, s.procs[p].pc;
    match pc
    case LogoutOne(token) => assert HasAnswered(LogoutStep(s, p, request.caller, token), p);
    case RevokeEach(owner, todo, hit) => RevokeEachAcknowledges(s, p, owner, todo, hit, hash);
    case DeactivateDelete => DeleteAcknowledges(s, p, request.target);
  }

  lemma RevokeEachAcknowledges(
      s: State, p: Pid, owner: UserId, todo: set<TokenHash>, hit: set<TokenHash>, hash: TokenHash)
    requires p in s.procs && s.procs[p].pc == RevokeEach(owner, todo, hit)
    ensures todo != {} ==> !HasAnswered(RevokeRowStep(s, p, owner, todo, hit, hash), p)
    ensures HasAnswered(RevokeEndStep(s, p, hit), p) ==>
              !s.procs[p].request.AskDeactivate? && RevokeEndStep(s, p, hit).procs[p].pc == Done(Ack)
  {
  }

  lemma DeleteAcknowledges(s: State, p: Pid, target: UserId)
    requires p in s.procs && s.procs[p].pc.DeactivateDelete?
    ensures HasAnswered(DeactivateStep(s, p, target, DeactivateDelete), p) ==>
              DeactivateStep(s, p, target, DeactivateDelete).procs[p].pc == Done(Ack)
  {
  }

  // ----- a call only ever waits for a row -----

  /** The row or index entry that the coming statement needs is not locked. */
  ghost predicate Unhindered(cfg: Config, s: State, p: Pid)
    requires p in s.procs
  {
    var request := s.procs[p].request;
    match s.procs[p].pc
    case RefreshLock(_) =>
      request.AskRefresh? && Joined(s.db, Sha256(request.token)) ==>
        Sha256(request.token) !in s.tokenLock && s.db.tokens[Sha256(request.token)].userId !in s.userLock
    case IssueInsert(_, user, _, refresh, _) => Sha256(SignRefresh(cfg, user.Who(), refresh)) !in s.tokenLock
    case LogoutOne(token) => Sha256(token) !in s.tokenLock
    case RevokeEach(_, todo, _) => todo != {} ==> exists h :: h in todo && h !in s.tokenLock
    case DeactivateWrite => request.AskDeactivate? ==> request.target !in s.userLock
    case DeactivateDelete => request.AskDeactivate? ==> request.target !in s.userLock
    case _ => true
  }

  predicate Moved(s: State, s': State, p: Pid) {
    p in s.procs && p in s'.procs && s'.procs[p].pc != s.procs[p].pc
  }

  lemma LockMoves(s: State, p: Pid, token: Token, verify: Millis)
    requires p in s.procs && s.procs[p].pc == RefreshLock(verify)
    requires Joined(s.db, Sha256(token)) ==>
               Sha256(token) !in s.tokenLock && s.db.tokens[Sha256(token)].userId !in s.userLock
    ensures Moved(s, LockStep(s, p, token, verify), p)
  {
  }

  lemma InsertMoves(cfg: Config, s: State, p: Pid, tx: Tx, user: User, access: Millis, refresh: Millis, store: Millis)
    requires p in s.procs && s.procs[p].pc == IssueInsert(tx, user, access, refresh, store)
    requires Sha256(SignRefresh(cfg, user.Who(), refresh)) !in s.tokenLock
    ensures Moved(s, InsertStep(cfg, s, p, tx, user, access, refresh, store), p)
  {
  }

  lemma RevokeEachMoves(s: State, p: Pid, owner: UserId, todo: set<TokenHash>, hit: set<TokenHash>, hash: TokenHash)
    requires p in s.procs && s.procs[p].pc == RevokeEach(owner, todo, hit)
    requires todo != {} ==> hash in todo && hash in s.db.tokens && hash !in s.tokenLock
    ensures Moved(s, if todo == {} then RevokeEndStep(s, p, hit) else RevokeRowStep(s, p, owner, todo, hit, hash), p)
  {
    if todo != {} {
      assert hash !in todo - {hash};
    }
  }

  lemma UnlockedMoves(cfg: Config, s: State, p: Pid, drawn: UserId, hash: TokenHash)
    requires p in s.procs && ProcessInv(cfg, s, p)
    requires var pc := s.procs[p].pc;
             || pc.RegisterFind? || pc.RegisterInsert? || pc.LoginFind? || pc.RefreshVerify? || pc.RefreshCheck?
             || pc.ValidateFind?
    ensures Moved(s, Advance(cfg, s, p, drawn, hash), p)
  {
  }

  lemma SigningMoves(cfg: Config, s: State, p: Pid, drawn: UserId, hash: TokenHash)
    requires p in s.procs && ProcessInv(cfg, s, p)
    requires var pc := s.procs[p].pc;
             || pc.RefreshRevoke? || pc.IssueAccess? || pc.IssueRefresh? || pc.IssueStamp? || pc.RefreshCommit?
             || pc.RevokeStart?
    ensures Moved(s, Advance(cfg, s, p, drawn, hash), p)
  {
  }

  lemma DeactivateMoves(s: State, p: Pid, target: UserId, pc: Pc)
    requires p in s.procs && s.procs[p].pc == pc
    requires pc.DeactivateFind?
             || ((pc.DeactivateWrite? || pc.DeactivateDelete?) && target in s.db.users && target !in s.userLock)
    ensures Moved(s, DeactivateStep(s, p, target, pc), p)
  {
  }

  lemma UpdateMoves(cfg: Config, s: State, p: Pid, drawn: UserId) returns (hash: TokenHash)
    requires p in s.procs && ProcessInv(cfg, s, p) && Unhindered(cfg, s, p)
    requires s.procs[p].pc.LogoutOne? || s.procs[p].pc.RevokeEach?
    ensures Moved(s, Advance(cfg, s, p, drawn, hash), p)
  {
    hash := Sha256(Opaque(""));
    match s.procs[p].pc
    case LogoutOne(token) => assert Moved(s, LogoutStep(s, p, s.procs[p].request.caller, token), p);
    case RevokeEach(owner, todo, hit) =>
      if todo != {} {
        hash :| hash in todo && hash !in s.tokenLock;
      }
      RevokeEachMoves(s, p, owner, todo, hit, hash);
  }

  lemma RefreshMoves(cfg: Config, s: State, p: Pid, drawn: UserId, hash: TokenHash)
    requires p in s.procs && ProcessInv(cfg, s, p) && Unhindered(cfg, s, p)
    requires s.procs[p].pc.RefreshLock? || s.procs[p].pc.IssueInsert?
    ensures Moved(s, Advance(cfg, s, p, drawn, hash), p)
  {
    match s.procs[p].pc
    case RefreshLock(verify) => LockMoves(s, p, s.procs[p].request.token, verify);
    case IssueInsert(tx, user, access, refresh, store) => InsertMoves(cfg, s, p, tx, user, access, refresh, store);
  }

  lemma DeactivationMoves(cfg: Config, s: State, p: Pid, drawn: UserId, hash: TokenHash)
    requires p in s.procs && ProcessInv(cfg, s, p) && Unhindered(cfg, s, p)
    requires s.procs[p].pc.DeactivateFind? || s.procs[p].pc.DeactivateWrite? || s.procs[p].pc.DeactivateDelete?
    ensures Moved(s, Advance(cfg, s, p, drawn, hash), p)
  {
    DeactivateMoves(s, p, s.procs[p].request.target, s.procs[p].pc);
  }

  /** Nothing but a locked row holds a call up: while the row its statement needs is free it goes on. */
  lemma WaitsOnlyForLocks(cfg: Config, s: State, p: Pid, drawn: UserId) returns (hash: TokenHash)
    requires Inv(cfg, s) && p in s.procs && !s.procs[p].pc.Done? && Unhindered(cfg, s, p)
    ensures Moved(s, Step(cfg, s, Move(p, drawn, hash)), p)
  {
    assert ProcessInv(cfg, s, p);
    var pc := s.procs[p].pc;
    hash := Sha256(Opaque(""));
    if pc.LogoutOne? || pc.RevokeEach? {
      hash := UpdateMoves(cfg, s, p, drawn);
    } else if pc.RefreshLock? || pc.IssueInsert? {
      RefreshMoves(cfg, s, p, drawn, hash);
    } else if pc.DeactivateFind? || pc.DeactivateWrite? || pc.DeactivateDelete? {
      DeactivationMoves(cfg, s, p, drawn, hash);
    } else if pc.RegisterFind? || pc.RegisterInsert? || pc.LoginFind? || pc.RefreshVerify? || pc.RefreshCheck?
              || pc.ValidateFind? {
      UnlockedMoves(cfg, s, p, drawn, hash);
    } else {
      SigningMoves(cfg, s, p, drawn, hash);
    }
  }
}
