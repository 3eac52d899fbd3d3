/** What every schedule of the statement-grain auth service keeps. */
module AuthInvariant {
  import opened Options
  import opened Emails
  import opened Tokens
  import opened AuthStore
  import opened AuthHandlers
  import opened AuthMachine

  // ----- one process -----

  /** The transaction of p holds the presented token's row and its user's row, and what it read there
      is still what the tables say. */
  ghost predicate Holds(s: State, p: Pid, hash: TokenHash, user: User) {
    && hash in s.tokenLock && s.tokenLock[hash] == p
    && user.id in s.userLock && s.userLock[user.id] == p
    && hash in s.db.tokens && s.db.tokens[hash].userId == user.id
    && user.id in s.db.users && s.db.users[user.id] == user
    && !user.deleted
  }

  /** The transaction has passed every check: the row is still unrevoked, the account still active. */
  ghost predicate Passed(cfg: Config, s: State, p: Pid, token: Token, user: User, tx: Tx) {
    && Holds(s, p, Sha256(token), user)
    && user.isActive
    && !s.db.tokens[Sha256(token)].revoked
    && tx.InTx?
    && tx.verify <= tx.check <= s.now
    && VerifiesAsRefresh(cfg, token, tx.verify)
    && tx.check <= s.db.tokens[Sha256(token)].expiresAt
  }

  /** What a transaction has written so far. */
  predicate Wrote(tx: Tx, revoked: set<TokenHash>, stored: map<TokenHash, TokenRow>) {
    tx.InTx? && tx.revoked == revoked && tx.stored == stored
  }

  /** A user row a handler read earlier: only the account's standing can have changed since. */
  ghost predicate Known(s: State, user: User) {
    && user.id in s.db.users
    && s.db.users[user.id].Lasting() == user.Lasting()
  }

  ghost predicate Issuing(cfg: Config, s: State, p: Pid, tx: Tx, user: User)
    requires p in s.procs
  {
    match s.procs[p].request
    case AskRefresh(token) => Passed(cfg, s, p, token, user, tx) && Wrote(tx, {Sha256(token)}, map[])
    case AskRegister(email, _) => tx == NoTx && Known(s, user) && user.email == Normalize(email) && user.isActive
    case AskLogin(email, password) =>
      && tx == NoTx && Known(s, user) && user.email == Normalize(email)
      && cfg.compare(password, user.password) && user.isActive && !user.deleted
    case _ => false
  }

  ghost predicate ProcessInv(cfg: Config, s: State, p: Pid)
    requires p in s.procs
  {
    var request := s.procs[p].request;
    match s.procs[p].pc
    case RegisterFind => request.AskRegister?
    case RegisterInsert => request.AskRegister?
    case LoginFind => request.AskLogin?
    case RefreshVerify => request.AskRefresh?
    case RefreshLock(verify) =>
      request.AskRefresh? && verify <= s.now && VerifiesAsRefresh(cfg, request.token, verify)
    case RefreshCheck(verify, row, user) =>
      && request.AskRefresh?
      && verify <= s.now && VerifiesAsRefresh(cfg, request.token, verify)
      && Holds(s, p, Sha256(request.token), user)
      && s.db.tokens[Sha256(request.token)] == row
    case RefreshRevoke(tx, user) =>
      request.AskRefresh? && Passed(cfg, s, p, request.token, user, tx) && Wrote(tx, {}, map[])
    case IssueAccess(tx, user) => Issuing(cfg, s, p, tx, user)
    case IssueRefresh(tx, user, access) =>
      Issuing(cfg, s, p, tx, user) && access <= s.now && (tx.InTx? ==> tx.check <= access)
    case IssueStamp(tx, user, access, refresh) =>
      Issuing(cfg, s, p, tx, user) && access <= refresh <= s.now && (tx.InTx? ==> tx.check <= access)
    case IssueInsert(tx, user, access, refresh, store) =>
      Issuing(cfg, s, p, tx, user) && access <= refresh <= store <= s.now && (tx.InTx? ==> tx.check <= access)
    case RefreshCommit(tx, user, at) =>
      && request.AskRefresh?
      && Passed(cfg, s, p, request.token, user, tx)
      && tx.verify == at.verify && tx.check == at.check
      && at.Ordered() && at.store <= s.now
      && var next := Sha256(SignRefresh(cfg, user.Who(), at.refresh));
         && next !in s.db.tokens && next in s.tokenLock && s.tokenLock[next] == p
         && Wrote(tx, {Sha256(request.token)}, map[next := NewRow(cfg, user.id, at.store)])
    case LogoutOne(token) => request.AskLogout? && request.presented == Some(token)
    case RevokeStart(id) =>
      request == AskLogout(id, None)
      || (request.AskDeactivate? && request.target == id && id in s.db.users && !s.db.users[id].isActive)
    case RevokeEach(id, todo, hit) =>
      && (request == AskLogout(id, None)
          || (request.AskDeactivate? && request.target == id && id in s.db.users && !s.db.users[id].isActive))
      && (forall h | h in todo :: h in s.db.tokens && s.db.tokens[h].userId == id)
      && (forall h | h in hit :: h in s.tokenLock && s.tokenLock[h] == p
                                 && h in s.db.tokens && s.db.tokens[h].userId == id)
    case DeactivateFind => request.AskDeactivate?
    case DeactivateWrite => request.AskDeactivate? && request.target in s.db.users
    case DeactivateDelete =>
      request.AskDeactivate? && request.target in s.db.users && !s.db.users[request.target].isActive
    case ValidateFind => request.AskValidate?
    case Done(reply) =>
      && (reply.Session? ==> exists i :: SessionLogged(s, p, reply, i))
      && (request.AskDeactivate? && reply == Ack ==> Dead(s.db, request.target))
  }

  /** The session a process returned is entry i of the history. */
  ghost predicate SessionLogged(s: State, p: Pid, reply: Reply, i: nat)
    requires p in s.procs
  {
    && reply.Session?
    && i < |s.log|
    && s.log[i].Issued?
    && s.log[i].pid == p
    && s.log[i].userId == reply.user.id
    && s.log[i].tokens == reply.tokens
    && s.log[i].parent == if s.procs[p].request.AskRefresh? then Some(s.procs[p].request.token) else None
  }

  // ----- history -----

  /** Entry i issued a token that is stored, once, and that replaced a revoked token of the same user
      issued earlier. */
  ghost predicate GoodEntry(cfg: Config, s: State, i: nat)
    requires i < |s.log| && s.births.Keys == s.db.tokens.Keys
  {
    match s.log[i]
    case SwitchedOff(id) => id in s.db.users && !s.db.users[id].isActive
    case Issued(pid, userId, parent, tokens) =>
      var hash := Sha256(tokens.refreshToken);
      && hash in s.db.tokens && s.births[hash] == i
      && s.db.tokens[hash].userId == userId
      && userId in s.db.users
      && SignedFor(cfg, s.db.users[userId].Who(), tokens)
      && (parent.Some? ==>
            && Sha256(parent.value) in s.db.tokens
            && s.births[Sha256(parent.value)] < i
            && s.db.tokens[Sha256(parent.value)].revoked
            && s.db.tokens[Sha256(parent.value)].userId == userId)
  }

  /** The two tokens of a pair, as signed for one identity at some clock readings. */
  ghost predicate SignedFor(cfg: Config, who: Identity, tokens: TokenPair) {
    && tokens.accessToken.Jwt?
    && tokens.refreshToken.Jwt?
    && tokens.accessToken == SignAccess(cfg, who, 1000 * tokens.accessToken.claims.iat)
    && tokens.refreshToken == SignRefresh(cfg, who, 1000 * tokens.refreshToken.claims.iat)
    && tokens.accessToken.claims.iat <= tokens.refreshToken.claims.iat
  }

  ghost predicate HistoryInv(cfg: Config, s: State)
    requires s.births.Keys == s.db.tokens.Keys
  {
    && (forall h | h in s.births ::
          s.births[h] < |s.log| && s.log[s.births[h]].Issued? && Sha256(s.log[s.births[h]].tokens.refreshToken) == h)
    && (forall i: nat {:trigger GoodEntry(cfg, s, i)} | i < |s.log| :: GoodEntry(cfg, s, i))
    && (forall i: nat, j: nat {:trigger Compatible(s.log[i], s.log[j])} | i < j < |s.log| :: Compatible(s.log[i], s.log[j]))
  }

  /** No token is replaced twice, and nothing is refreshed for an account already switched off. */
  ghost predicate Compatible(earlier: Event, later: Event) {
    later.Issued? && later.parent.Some? ==>
      && (earlier.Issued? ==> earlier.parent != later.parent)
      && (earlier.SwitchedOff? ==> earlier.id != later.userId)
  }

  ghost predicate Inv(cfg: Config, s: State) {
    && cfg.Valid()
    && DbInv(cfg, s.db)
    && s.births.Keys == s.db.tokens.Keys
    && HistoryInv(cfg, s)
    && ProcessesInv(cfg, s)
  }

  // ----- interference -----

  /** A change made by p: the tables grow, nothing but the standing of a user row changes, the clock and the history
      move forward, and no row another process has locked is changed nor its lock taken away. */
  ghost predicate Courteous(s: State, s': State, p: Pid) {
    && Grows(s.db, s'.db)
    && (forall id | id in s.db.users :: s'.db.users[id].Lasting() == s.db.users[id].Lasting())
    && s.now <= s'.now
    && s.log <= s'.log
    && (forall h | h in s.tokenLock && s.tokenLock[h] != p ::
          && h in s'.tokenLock && s'.tokenLock[h] == s.tokenLock[h]
          && (h in s'.db.tokens <==> h in s.db.tokens)
          && (h in s.db.tokens ==> s'.db.tokens[h] == s.db.tokens[h]))
    && (forall u | u in s.userLock && s.userLock[u] != p ::
          && u in s'.userLock && s'.userLock[u] == s.userLock[u]
          && (u in s.db.users ==> s'.db.users[u] == s.db.users[u]))
  }

  lemma HeldRowsStay(s: State, s': State, p: Pid, q: Pid, hash: TokenHash, user: User)
    requires Courteous(s, s', p) && q != p && Holds(s, q, hash, user)
    ensures Holds(s', q, hash, user) && s'.db.tokens[hash] == s.db.tokens[hash]
  {
  }

  lemma FrameKeepsRefresh(cfg: Config, s: State, s': State, p: Pid, q: Pid)
    requires q in s.procs && q in s'.procs && s'.procs[q] == s.procs[q] && s.procs[q].request.AskRefresh?
    requires ProcessInv(cfg, s, q) && Courteous(s, s', p) && q != p && !s.procs[q].pc.Done?
    ensures ProcessInv(cfg, s', q)
  {
    var pc := s.procs[q].pc;
    if !pc.RefreshVerify? && !pc.RefreshLock? {
      HeldRowsStay(s, s', p, q, Sha256(s.procs[q].request.token), pc.user);
    }
  }

  lemma FrameKeepsOutsider(cfg: Config, s: State, s': State, p: Pid, q: Pid)
    requires q in s.procs && q in s'.procs && s'.procs[q] == s.procs[q] && !s.procs[q].request.AskRefresh?
    requires ProcessInv(cfg, s, q) && Courteous(s, s', p) && q != p && !s.procs[q].pc.Done?
    ensures ProcessInv(cfg, s', q)
  {
  }

  /** Whatever q knows about the tables stays true through a step of another process. */
  lemma FrameKeepsProcess(cfg: Config, s: State, s': State, p: Pid, q: Pid)
    requires q in s.procs && q in s'.procs && s'.procs[q] == s.procs[q]
    requires ProcessInv(cfg, s, q) && Courteous(s, s', p) && q != p
    ensures ProcessInv(cfg, s', q)
  {
    var pc := s.procs[q].pc;
    if !pc.Done? {
      if s.procs[q].request.AskRefresh? {
        FrameKeepsRefresh(cfg, s, s', p, q);
      } else {
        FrameKeepsOutsider(cfg, s, s', p, q);
      }
    } else if pc.reply.Session? {
      var i :| SessionLogged(s, q, pc.reply, i);
      assert SessionLogged(s', q, pc.reply, i);
    }
  }

  ghost predicate StepOf(s: State, s': State, p: Pid) {
    && p in s'.procs && s'.procs == s.procs[p := s'.procs[p]]
    && Courteous(s, s', p)
  }

  lemma TableChange(s: State, db': Db, p: Pid)
    requires Grows(s.db, db') && forall id | id in s.db.users :: db'.users[id].Lasting() == s.db.users[id].Lasting()
    requires forall h | h in s.tokenLock && s.tokenLock[h] != p ::
               (h in db'.tokens <==> h in s.db.tokens) && (h in s.db.tokens ==> db'.tokens[h] == s.db.tokens[h])
    requires forall u | u in s.userLock && s.userLock[u] != p && u in s.db.users :: db'.users[u] == s.db.users[u]
    ensures Courteous(s, s.(db := db'), p)
  {
  }

  /** Ending a transaction takes no other process's lock away. */
  lemma ReleaseAfter(s: State, s1: State, p: Pid, pc: Pc)
    requires p in s.procs && s1.procs == s.procs && Courteous(s, s1, p)
    ensures StepOf(s, Goto(Release(s1, p), p, pc), p)
  {
  }

  lemma GotoAfter(s: State, s1: State, p: Pid, pc: Pc)
    requires p in s.procs && s1.procs == s.procs && Courteous(s, s1, p)
    ensures StepOf(s, Goto(s1, p, pc), p)
  {
  }

  ghost predicate ProcessesInv(cfg: Config, s: State) {
    forall p {:trigger ProcessInv(cfg, s, p)} | p in s.procs :: ProcessInv(cfg, s, p)
  }

  lemma OthersKeep(cfg: Config, s: State, s': State, p: Pid)
    requires ProcessesInv(cfg, s) && StepOf(s, s', p) && ProcessInv(cfg, s', p)
    ensures ProcessesInv(cfg, s')
  {
    forall q | q in s'.procs && q != p ensures ProcessInv(cfg, s', q) {
      FrameKeepsProcess(cfg, s, s', p, q);
    }
  }

  /** Growing tables with the same token rows and identities keep the history. */
  lemma GrowthKeepsHistory(cfg: Config, s: State, s': State)
    requires s.births.Keys == s.db.tokens.Keys && HistoryInv(cfg, s)
    requires s'.births == s.births && s'.log == s.log
    requires s'.db.tokens.Keys == s.db.tokens.Keys && Grows(s.db, s'.db)
    requires forall id | id in s.db.users :: s'.db.users[id].Lasting() == s.db.users[id].Lasting()
    ensures HistoryInv(cfg, s')
  {
    forall i: nat | i < |s'.log| ensures GoodEntry(cfg, s', i) {
      assert GoodEntry(cfg, s, i);
    }
  }

  /** A step of p that enters nothing in the history. */
  lemma QuietStepKeeps(cfg: Config, s: State, s': State, p: Pid)
    requires Inv(cfg, s) && DbInv(cfg, s'.db)
    requires s'.births == s.births && s'.log == s.log && s'.db.tokens.Keys == s.db.tokens.Keys
    requires StepOf(s, s', p) && ProcessInv(cfg, s', p)
    ensures Inv(cfg, s')
  {
    GrowthKeepsHistory(cfg, s, s');
    OthersKeep(cfg, s, s', p);
  }

  /** The end of a statement that changes rows, issues nothing and gives its locks back. */
  lemma UpdateKeeps(cfg: Config, s: State, db': Db, p: Pid, pc: Pc)
    requires Inv(cfg, s) && p in s.procs && DbInv(cfg, db') && db'.tokens.Keys == s.db.tokens.Keys
    requires Courteous(s, s.(db := db'), p)
    requires ProcessInv(cfg, Goto(Release(s.(db := db'), p), p, pc), p)
    ensures Inv(cfg, Goto(Release(s.(db := db'), p), p, pc))
  {
    ReleaseAfter(s, s.(db := db'), p, pc);
    QuietStepKeeps(cfg, s, Goto(Release(s.(db := db'), p), p, pc), p);
  }

  // ----- statements that only move the process or its locks -----

  lemma FinishKeeps(cfg: Config, s: State, p: Pid, reply: Reply)
    requires Inv(cfg, s) && p in s.procs && !reply.Session? && reply != Ack
    ensures Inv(cfg, Finish(s, p, reply))
  {
    ReleaseAfter(s, s, p, Done(reply));
    QuietStepKeeps(cfg, s, Finish(s, p, reply), p);
  }

  lemma GotoKeeps(cfg: Config, s: State, p: Pid, pc: Pc)
    requires Inv(cfg, s) && p in s.procs
    requires ProcessInv(cfg, Goto(s, p, pc), p)
    ensures Inv(cfg, Goto(s, p, pc))
  {
    GotoAfter(s, s, p, pc);
    QuietStepKeeps(cfg, s, Goto(s, p, pc), p);
  }

  lemma LockIsQuiet(cfg: Config, s: State, p: Pid, token: Token, verify: Millis)
    requires DbInv(cfg, s.db) && p in s.procs && ProcessInv(cfg, s, p)
    requires s.procs[p] == Process(AskRefresh(token), RefreshLock(verify))
    requires Joined(s.db, Sha256(token))
    requires Sha256(token) !in s.tokenLock && s.db.tokens[Sha256(token)].userId !in s.userLock
    ensures var s' := LockStep(s, p, token, verify); StepOf(s, s', p) && ProcessInv(cfg, s', p)
  {
    assert GoodUser(s.db, s.db.tokens[Sha256(token)].userId);
  }

  lemma LockKeeps(cfg: Config, s: State, p: Pid, token: Token, verify: Millis)
    requires Inv(cfg, s) && p in s.procs
    requires s.procs[p] == Process(AskRefresh(token), RefreshLock(verify))
    ensures Inv(cfg, LockStep(s, p, token, verify))
  {
    var hash := Sha256(token);
    if !Joined(s.db, hash) {
      FinishKeeps(cfg, s, p, Unauthorized);
    } else if hash !in s.tokenLock && s.db.tokens[hash].userId !in s.userLock {
      LockIsQuiet(cfg, s, p, token, verify);
      QuietStepKeeps(cfg, s, LockStep(s, p, token, verify), p);
    }
  }

  lemma PassKeeps(cfg: Config, s: State, p: Pid, verify: Millis, row: TokenRow, user: User)
    requires Inv(cfg, s) && p in s.procs && s.procs[p].pc == RefreshCheck(verify, row, user)
    requires !row.revoked && s.now <= row.expiresAt && user.isActive
    ensures Inv(cfg, Goto(s, p, RefreshRevoke(InTx(verify, s.now, {}, map[]), user)))
  {
    assert ProcessInv(cfg, s, p);
    GotoKeeps(cfg, s, p, RefreshRevoke(InTx(verify, s.now, {}, map[]), user));
  }

  lemma CheckKeeps(cfg: Config, s: State, p: Pid, verify: Millis, row: TokenRow, user: User)
    requires Inv(cfg, s) && p in s.procs && s.procs[p].pc == RefreshCheck(verify, row, user)
    ensures Inv(cfg, CheckStep(s, p, verify, row, user))
  {
    if row.revoked || row.expiresAt < s.now {
      FinishKeeps(cfg, s, p, Unauthorized);
    } else if !user.isActive {
      FinishKeeps(cfg, s, p, Forbidden);
    } else {
      PassKeeps(cfg, s, p, verify, row, user);
    }
  }

  predicate SameRecords(s: State, s': State) {
    s'.db == s.db && s'.births == s.births && s'.log == s.log
  }

  lemma LockingKeeps(cfg: Config, s: State, s': State, p: Pid)
    requires Inv(cfg, s) && SameRecords(s, s')
    requires StepOf(s, s', p) && ProcessInv(cfg, s', p)
    ensures Inv(cfg, s')
  {
    QuietStepKeeps(cfg, s, s', p);
  }

  lemma RevokeRowIsQuiet(s: State, p: Pid, id: UserId, todo: set<TokenHash>, hit: set<TokenHash>, hash: TokenHash)
    requires p in s.procs && s.procs[p].pc == RevokeEach(id, todo, hit)
    ensures var s' := RevokeRowStep(s, p, id, todo, hit, hash); s' == s || (StepOf(s, s', p) && SameRecords(s, s'))
  {
  }

  lemma RevokeRowProcess(
      cfg: Config, s: State, p: Pid, id: UserId, todo: set<TokenHash>, hit: set<TokenHash>, hash: TokenHash)
    requires p in s.procs && s.procs[p].pc == RevokeEach(id, todo, hit) && ProcessInv(cfg, s, p)
    ensures ProcessInv(cfg, RevokeRowStep(s, p, id, todo, hit, hash), p)
  {
  }

  lemma RevokeRowKeeps(
      cfg: Config, s: State, p: Pid, id: UserId, todo: set<TokenHash>, hit: set<TokenHash>, hash: TokenHash)
    requires Inv(cfg, s) && p in s.procs && s.procs[p].pc == RevokeEach(id, todo, hit)
    ensures Inv(cfg, RevokeRowStep(s, p, id, todo, hit, hash))
  {
    RevokeRowIsQuiet(s, p, id, todo, hit, hash);
    RevokeRowProcess(cfg, s, p, id, todo, hit, hash);
    if RevokeRowStep(s, p, id, todo, hit, hash) != s {
      LockingKeeps(cfg, s, RevokeRowStep(s, p, id, todo, hit, hash), p);
    }
  }

  lemma PendingInsertIsQuiet(
      cfg: Config, s: State, p: Pid, tx: Tx, user: User, access: Millis, refresh: Millis, store: Millis)
    requires p in s.procs && s.procs[p].pc == IssueInsert(tx, user, access, refresh, store)
    requires ProcessInv(cfg, s, p) && tx.InTx?
    requires Sha256(SignRefresh(cfg, user.Who(), refresh)) !in OwnView(s.db, tx).tokens
    requires Sha256(SignRefresh(cfg, user.Who(), refresh)) !in s.tokenLock
    ensures var s' := InsertStep(cfg, s, p, tx, user, access, refresh, store); StepOf(s, s', p) && ProcessInv(cfg, s', p)
  {
  }

  // ----- statements that change rows but issue nothing -----

  lemma RegisterInsertKeeps(cfg: Config, s: State, p: Pid, email: string, hashed: string, id: UserId)
    requires Inv(cfg, s) && p in s.procs && s.procs[p].request == AskRegister(email, hashed)
    ensures Inv(cfg, RegisterStep(s, p, email, hashed, RegisterInsert, id))
  {
    var user := NewUser(id, Normalize(email), hashed);
    NormalizeIdempotent(email);
    if InsertUser(s.db, user).Some? {
      var db' := InsertUser(s.db, user).value;
      InsertUserKeeps(cfg, s.db, user);
      TableChange(s, db', p);
      GotoAfter(s, s.(db := db'), p, IssueAccess(NoTx, user));
      QuietStepKeeps(cfg, s, RegisterStep(s, p, email, hashed, RegisterInsert, id), p);
    } else {
      FinishKeeps(cfg, s, p, Conflict);
    }
  }

  lemma LoginKeepsInv(cfg: Config, s: State, p: Pid, email: string, password: string)
    requires Inv(cfg, s) && p in s.procs && s.procs[p].request == AskLogin(email, password)
    ensures Inv(cfg, LoginStep(cfg, s, p, email, password))
  {
    match FindByEmail(s.db, Normalize(email))
    case None => FinishKeeps(cfg, s, p, Unauthorized);
    case Some(user) =>
      var id :| HoldsEmail(s.db, id, Normalize(email)) && user == s.db.users[id];
      assert GoodUser(s.db, id);
      if !cfg.compare(password, user.password) {
        FinishKeeps(cfg, s, p, Unauthorized);
      } else if !user.isActive {
        FinishKeeps(cfg, s, p, Forbidden);
      } else {
        GotoKeeps(cfg, s, p, IssueAccess(NoTx, user));
      }
  }

  /** An UPDATE of token rows, none of which another process has locked. */
  lemma RevokeChange(cfg: Config, s: State, p: Pid, hit: set<TokenHash>)
    requires DbInv(cfg, s.db)
    requires forall h | h in hit && h in s.tokenLock :: s.tokenLock[h] == p
    ensures Courteous(s, s.(db := RevokeRows(s.db, hit)), p)
    ensures DbInv(cfg, RevokeRows(s.db, hit))
  {
    RevokeRowsKeeps(cfg, s.db, hit);
    TableChange(s, RevokeRows(s.db, hit), p);
  }

  lemma RevocationKeeps(cfg: Config, s: State, p: Pid, hit: set<TokenHash>)
    requires Inv(cfg, s) && p in s.procs && !s.procs[p].request.AskDeactivate?
    requires DbInv(cfg, RevokeRows(s.db, hit)) && Courteous(s, s.(db := RevokeRows(s.db, hit)), p)
    ensures Inv(cfg, Finish(s.(db := RevokeRows(s.db, hit)), p, Ack))
  {
    UpdateKeeps(cfg, s, RevokeRows(s.db, hit), p, Done(Ack));
  }

  lemma LogoutKeepsInv(cfg: Config, s: State, p: Pid, caller: UserId, token: Token)
    requires Inv(cfg, s) && p in s.procs && s.procs[p].request == AskLogout(caller, Some(token))
    ensures Inv(cfg, LogoutStep(s, p, caller, token))
  {
    var hit := OwnedToken(s.db, Sha256(token), caller);
    if !(hit != {} && Sha256(token) in s.tokenLock) {
      assert forall h | h in hit :: h == Sha256(token);
      RevokeChange(cfg, s, p, hit);
      RevocationKeeps(cfg, s, p, hit);
    }
  }

  lemma RevokeEndProcess(cfg: Config, s: State, p: Pid, id: UserId, hit: set<TokenHash>)
    requires p in s.procs && s.procs[p].pc == RevokeEach(id, {}, hit) && ProcessInv(cfg, s, p)
    ensures ProcessInv(cfg, RevokeEndStep(s, p, hit), p)
    ensures forall h | h in hit && h in s.tokenLock :: s.tokenLock[h] == p
  {
  }

  lemma RevokeEndKeeps(cfg: Config, s: State, p: Pid, id: UserId, hit: set<TokenHash>)
    requires Inv(cfg, s) && p in s.procs && s.procs[p].pc == RevokeEach(id, {}, hit)
    ensures Inv(cfg, RevokeEndStep(s, p, hit))
  {
    RevokeEndProcess(cfg, s, p, id, hit);
    RevokeChange(cfg, s, p, hit);
    UpdateKeeps(cfg, s, RevokeRows(s.db, hit), p,
                if s.procs[p].request.AskDeactivate? then DeactivateDelete else Done(Ack));
  }

  /** An UPDATE of a user row that no other process has locked. */
  lemma UserChange(cfg: Config, s: State, p: Pid, user: User)
    requires DbInv(cfg, s.db) && user.id in s.db.users && user.id !in s.userLock
    requires user.Lasting() == s.db.users[user.id].Lasting()
    requires user.isActive ==> s.db.users[user.id].isActive
    requires s.db.users[user.id].deleted ==> user.deleted
    requires user.deleted ==> !user.isActive
    ensures DbInv(cfg, PutUser(s.db, user))
    ensures Courteous(s, s.(db := PutUser(s.db, user)), p)
  {
    PutUserKeeps(cfg, s.db, user);
    TableChange(s, PutUser(s.db, user), p);
  }

  lemma SoftRemoveKeeps(cfg: Config, s: State, p: Pid, id: UserId)
    requires Inv(cfg, s) && p in s.procs
    requires s.procs[p] == Process(AskDeactivate(id), DeactivateDelete)
    requires id !in s.userLock && id in s.db.users
    ensures Inv(cfg, DeactivateStep(s, p, id, DeactivateDelete))
  {
    assert ProcessInv(cfg, s, p);
    assert GoodUser(s.db, id);
    var user := s.db.users[id].(deleted := true);
    UserChange(cfg, s, p, user);
    UpdateKeeps(cfg, s, PutUser(s.db, user), p, Done(Ack));
  }

  // ----- statements that enter something in the history -----

  lemma SwitchOffHistory(cfg: Config, s: State, s': State, id: UserId)
    requires s.births.Keys == s.db.tokens.Keys && HistoryInv(cfg, s)
    requires id in s.db.users
    requires s'.db == PutUser(s.db, s.db.users[id].(isActive := false)) && s.db.users[id].id == id
    requires s'.births == s.births && s'.log == s.log + [SwitchedOff(id)]
    ensures HistoryInv(cfg, s')
  {
    forall i: nat | i < |s'.log| ensures GoodEntry(cfg, s', i) {
      if i < |s.log| {
        assert GoodEntry(cfg, s, i);
      }
    }
    forall i: nat, j: nat | i < j < |s'.log| ensures Compatible(s'.log[i], s'.log[j]) {
      if j < |s.log| {
        assert Compatible(s.log[i], s.log[j]);
      }
    }
  }

  lemma SwitchOffChange(cfg: Config, s: State, p: Pid, id: UserId)
    requires DbInv(cfg, s.db) && p in s.procs && s.procs[p] == Process(AskDeactivate(id), DeactivateWrite)
    requires id !in s.userLock && id in s.db.users
    ensures var s' := DeactivateStep(s, p, id, DeactivateWrite);
            && StepOf(s, s', p) && DbInv(cfg, s'.db) && ProcessInv(cfg, s', p) && s.db.users[id].id == id
  {
    assert GoodUser(s.db, id);
    UserChange(cfg, s, p, s.db.users[id].(isActive := false));
  }

  lemma SwitchOffKeeps(cfg: Config, s: State, p: Pid, id: UserId)
    requires Inv(cfg, s) && p in s.procs
    requires s.procs[p] == Process(AskDeactivate(id), DeactivateWrite)
    requires id !in s.userLock && id in s.db.users
    ensures Inv(cfg, DeactivateStep(s, p, id, DeactivateWrite))
  {
    var s' := DeactivateStep(s, p, id, DeactivateWrite);
    SwitchOffChange(cfg, s, p, id);
    SwitchOffHistory(cfg, s, s', id);
    OthersKeep(cfg, s, s', p);
  }

  lemma SignedAtReadings(cfg: Config, who: Identity, access: Millis, refresh: Millis)
    requires access <= refresh
    ensures SignedFor(cfg, who, TokenPair(SignAccess(cfg, who, access), SignRefresh(cfg, who, refresh)))
  {
  }

  /** A token unrevoked until now has not been replaced, an account active until now not been switched off. */
  lemma NewEntryIsCompatible(cfg: Config, s: State, i: nat, e: Event)
    requires s.births.Keys == s.db.tokens.Keys && i < |s.log| && GoodEntry(cfg, s, i) && e.Issued?
    requires e.parent.Some? ==>
               && Sha256(e.parent.value) in s.db.tokens && !s.db.tokens[Sha256(e.parent.value)].revoked
               && e.userId in s.db.users && s.db.users[e.userId].isActive
    ensures Compatible(s.log[i], e)
  {
  }

  lemma RecordKeepsEntry(
      cfg: Config, s: State, db': Db, p: Pid, user: User, parent: Option<Token>, tokens: TokenPair, i: nat)
    requires s.births.Keys == s.db.tokens.Keys && i < |s.log| && GoodEntry(cfg, s, i)
    requires Grows(s.db, db') && forall id | id in s.db.users :: db'.users[id].Lasting() == s.db.users[id].Lasting()
    requires Sha256(tokens.refreshToken) !in s.db.tokens
    requires db'.tokens.Keys == s.db.tokens.Keys + {Sha256(tokens.refreshToken)}
    ensures var s' := Record(s.(db := db'), p, user, parent, tokens);
            s'.births.Keys == s'.db.tokens.Keys && GoodEntry(cfg, s', i)
  {
  }

  /** A new token row is entered in the history. */
  lemma RecordKeepsHistory(
      cfg: Config, s: State, db': Db, p: Pid, user: User, parent: Option<Token>, tokens: TokenPair)
    requires s.births.Keys == s.db.tokens.Keys && HistoryInv(cfg, s)
    requires Grows(s.db, db') && forall id | id in s.db.users :: db'.users[id].Lasting() == s.db.users[id].Lasting()
    requires Sha256(tokens.refreshToken) !in s.db.tokens
    requires db'.tokens.Keys == s.db.tokens.Keys + {Sha256(tokens.refreshToken)}
    requires db'.tokens[Sha256(tokens.refreshToken)].userId == user.id
    requires user.id in db'.users && SignedFor(cfg, db'.users[user.id].Who(), tokens)
    requires parent.Some? ==>
               && Sha256(parent.value) in s.db.tokens
               && s.db.tokens[Sha256(parent.value)].userId == user.id
               && !s.db.tokens[Sha256(parent.value)].revoked
               && db'.tokens[Sha256(parent.value)].revoked
               && user.id in s.db.users && s.db.users[user.id].isActive
    ensures var s' := Record(s.(db := db'), p, user, parent, tokens);
            s'.births.Keys == s'.db.tokens.Keys && HistoryInv(cfg, s')
  {
    var s' := Record(s.(db := db'), p, user, parent, tokens);
    var n := |s.log|;
    forall i: nat | i < |s'.log| ensures GoodEntry(cfg, s', i) {
      if i < n {
        RecordKeepsEntry(cfg, s, db', p, user, parent, tokens, i);
      }
    }
    forall i: nat, j: nat | i < j < |s'.log| ensures Compatible(s'.log[i], s'.log[j]) {
      if j < n {
        assert Compatible(s.log[i], s.log[j]);
      } else {
        NewEntryIsCompatible(cfg, s, i, Issued(p, user.id, parent, tokens));
      }
    }
  }

  /** Recording adds an entry and nothing another process relies on. */
  lemma RecordAfter(s: State, db': Db, p: Pid, user: User, parent: Option<Token>, tokens: TokenPair)
    requires p in s.procs && Courteous(s, s.(db := db'), p)
    ensures StepOf(s, Finish(Record(s.(db := db'), p, user, parent, tokens), p, Session(ToView(user), tokens)), p)
  {
    var s1 := Record(s.(db := db'), p, user, parent, tokens);
    assert Courteous(s, s1, p);
    ReleaseAfter(s, s1, p, Done(Session(ToView(user), tokens)));
  }

  lemma HistoryIgnoresProcesses(cfg: Config, s: State, s': State)
    requires s.births.Keys == s.db.tokens.Keys && HistoryInv(cfg, s)
    requires s'.births == s.births && s'.log == s.log && s'.db == s.db
    ensures HistoryInv(cfg, s')
  {
    GrowthKeepsHistory(cfg, s, s');
  }

  /** A returned session is in the history. */
  lemma SessionIsLogged(cfg: Config, s: State, db': Db, p: Pid, user: User, parent: Option<Token>, tokens: TokenPair)
    requires p in s.procs
    requires parent == if s.procs[p].request.AskRefresh? then Some(s.procs[p].request.token) else None
    ensures ProcessInv(cfg, Finish(Record(s.(db := db'), p, user, parent, tokens), p, Session(ToView(user), tokens)), p)
  {
    var s' := Finish(Record(s.(db := db'), p, user, parent, tokens), p, Session(ToView(user), tokens));
    assert SessionLogged(s', p, Session(ToView(user), tokens), |s.log|);
  }

  lemma RecordedKeeps(cfg: Config, s: State, db': Db, p: Pid, user: User, parent: Option<Token>, tokens: TokenPair)
    requires Inv(cfg, s) && DbInv(cfg, db') && p in s.procs
    requires parent == if s.procs[p].request.AskRefresh? then Some(s.procs[p].request.token) else None
    requires Courteous(s, s.(db := db'), p)
    requires var s1 := Record(s.(db := db'), p, user, parent, tokens);
             s1.births.Keys == s1.db.tokens.Keys && HistoryInv(cfg, s1)
    ensures Inv(cfg, Finish(Record(s.(db := db'), p, user, parent, tokens), p, Session(ToView(user), tokens)))
  {
    var s1 := Record(s.(db := db'), p, user, parent, tokens);
    var s' := Finish(s1, p, Session(ToView(user), tokens));
    RecordAfter(s, db', p, user, parent, tokens);
    SessionIsLogged(cfg, s, db', p, user, parent, tokens);
    HistoryIgnoresProcesses(cfg, s1, s');
    OthersKeep(cfg, s, s', p);
  }

  lemma VisibleInsertChange(cfg: Config, s: State, p: Pid, user: User, refresh: Millis, store: Millis)
    requires cfg.Valid() && DbInv(cfg, s.db) && Known(s, user) && user.id == s.db.users[user.id].id && refresh <= store
    requires Sha256(SignRefresh(cfg, user.Who(), refresh)) !in s.db.tokens
    requires Sha256(SignRefresh(cfg, user.Who(), refresh)) !in s.tokenLock
    ensures var hash := Sha256(SignRefresh(cfg, user.Who(), refresh));
            var db' := s.db.(tokens := s.db.tokens[hash := NewRow(cfg, user.id, store)]);
            DbInv(cfg, db') && Grows(s.db, db') && Courteous(s, s.(db := db'), p)
  {
    InsertTokenKeeps(cfg, s.db, user.Who(), refresh, store);
    var hash := Sha256(SignRefresh(cfg, user.Who(), refresh));
    TableChange(s, s.db.(tokens := s.db.tokens[hash := NewRow(cfg, user.id, store)]), p);
  }

  lemma VisibleInserter(cfg: Config, s: State, p: Pid, user: User, access: Millis, refresh: Millis, store: Millis)
    requires DbInv(cfg, s.db) && p in s.procs && ProcessInv(cfg, s, p)
    requires s.procs[p].pc == IssueInsert(NoTx, user, access, refresh, store)
    ensures Known(s, user) && user.id == s.db.users[user.id].id && access <= refresh <= store
    ensures !s.procs[p].request.AskRefresh?
  {
    assert GoodUser(s.db, user.id);
  }

  lemma VisibleInsertHistory(
      cfg: Config, s: State, p: Pid, user: User, access: Millis, refresh: Millis, store: Millis)
    requires s.births.Keys == s.db.tokens.Keys && HistoryInv(cfg, s) && Known(s, user) && access <= refresh
    requires Sha256(SignRefresh(cfg, user.Who(), refresh)) !in s.db.tokens
    ensures var hash := Sha256(SignRefresh(cfg, user.Who(), refresh));
            var db' := s.db.(tokens := s.db.tokens[hash := NewRow(cfg, user.id, store)]);
            var pair := TokenPair(SignAccess(cfg, user.Who(), access), hash.token);
            var s1 := Record(s.(db := db'), p, user, None, pair);
            s1.births.Keys == s1.db.tokens.Keys && HistoryInv(cfg, s1)
  {
    var hash := Sha256(SignRefresh(cfg, user.Who(), refresh));
    SignedAtReadings(cfg, user.Who(), access, refresh);
    RecordKeepsHistory(cfg, s, s.db.(tokens := s.db.tokens[hash := NewRow(cfg, user.id, store)]), p, user, None,
                       TokenPair(SignAccess(cfg, user.Who(), access), hash.token));
  }

  lemma InsertVisibleKeeps(cfg: Config, s: State, p: Pid, user: User, access: Millis, refresh: Millis, store: Millis)
    requires Inv(cfg, s) && p in s.procs
    requires s.procs[p].pc == IssueInsert(NoTx, user, access, refresh, store)
    requires Sha256(SignRefresh(cfg, user.Who(), refresh)) !in s.db.tokens
    requires Sha256(SignRefresh(cfg, user.Who(), refresh)) !in s.tokenLock
    ensures Inv(cfg, InsertStep(cfg, s, p, NoTx, user, access, refresh, store))
  {
    VisibleInserter(cfg, s, p, user, access, refresh, store);
    var hash := Sha256(SignRefresh(cfg, user.Who(), refresh));
    var pair := TokenPair(SignAccess(cfg, user.Who(), access), hash.token);
    VisibleInsertChange(cfg, s, p, user, refresh, store);
    VisibleInsertHistory(cfg, s, p, user, access, refresh, store);
    RecordedKeeps(cfg, s, s.db.(tokens := s.db.tokens[hash := NewRow(cfg, user.id, store)]), p, user, None, pair);
  }

  lemma InsertPendingKeeps(
      cfg: Config, s: State, p: Pid, tx: Tx, user: User, access: Millis, refresh: Millis, store: Millis)
    requires Inv(cfg, s) && p in s.procs && tx.InTx?
    requires s.procs[p].pc == IssueInsert(tx, user, access, refresh, store)
    requires Sha256(SignRefresh(cfg, user.Who(), refresh)) !in OwnView(s.db, tx).tokens
    requires Sha256(SignRefresh(cfg, user.Who(), refresh)) !in s.tokenLock
    ensures Inv(cfg, InsertStep(cfg, s, p, tx, user, access, refresh, store))
  {
    PendingInsertIsQuiet(cfg, s, p, tx, user, access, refresh, store);
    QuietStepKeeps(cfg, s, InsertStep(cfg, s, p, tx, user, access, refresh, store), p);
  }

  lemma InsertKeeps(cfg: Config, s: State, p: Pid, tx: Tx, user: User, access: Millis, refresh: Millis, store: Millis)
    requires Inv(cfg, s) && p in s.procs
    requires s.procs[p].pc == IssueInsert(tx, user, access, refresh, store)
    ensures Inv(cfg, InsertStep(cfg, s, p, tx, user, access, refresh, store))
  {
    var hash := Sha256(SignRefresh(cfg, user.Who(), refresh));
    if hash in OwnView(s.db, tx).tokens {
      FinishKeeps(cfg, s, p, if s.procs[p].request.AskRegister? then Conflict else Failed);
    } else if hash !in s.tokenLock {
      if tx.NoTx? {
        InsertVisibleKeeps(cfg, s, p, user, access, refresh, store);
      } else {
        InsertPendingKeeps(cfg, s, p, tx, user, access, refresh, store);
      }
    }
  }

  /** What a transaction commits is one revocation and one new row. */
  lemma CommittedView(db: Db, tx: Tx, used: TokenHash, next: TokenHash, row: TokenRow)
    requires Wrote(tx, {used}, map[next := row])
    ensures OwnView(db, tx) == RevokeRows(db, {used}).(tokens := RevokeRows(db, {used}).tokens[next := row])
  {
    var db1 := RevokeRows(db, {used});
    assert db1.tokens + map[next := row] == db1.tokens[next := row];
  }

  lemma CommitChange(cfg: Config, s: State, p: Pid, token: Token, tx: Tx, user: User, at: Times)
    requires cfg.Valid() && DbInv(cfg, s.db) && p in s.procs && ProcessInv(cfg, s, p)
    requires s.procs[p] == Process(AskRefresh(token), RefreshCommit(tx, user, at))
    ensures DbInv(cfg, OwnView(s.db, tx))
    ensures Courteous(s, s.(db := OwnView(s.db, tx)), p)
  {
    var used, next := Sha256(token), Sha256(SignRefresh(cfg, user.Who(), at.refresh));
    var db1 := RevokeRows(s.db, {used});
    CommittedView(s.db, tx, used, next, NewRow(cfg, user.id, at.store));
    RevokeRowsKeeps(cfg, s.db, {used});
    InsertTokenKeeps(cfg, db1, user.Who(), at.refresh, at.store);
    GrowsTransitive(s.db, db1, OwnView(s.db, tx));
    TableChange(s, OwnView(s.db, tx), p);
  }

  lemma CommitKeeps(cfg: Config, s: State, p: Pid, token: Token, tx: Tx, user: User, at: Times)
    requires Inv(cfg, s) && p in s.procs
    requires s.procs[p] == Process(AskRefresh(token), RefreshCommit(tx, user, at))
    ensures Inv(cfg, CommitStep(cfg, s, p, token, tx, user, at))
  {
    var pair := Pair(cfg, user.Who(), at);
    assert ProcessInv(cfg, s, p);
    CommitChange(cfg, s, p, token, tx, user, at);
    CommittedView(s.db, tx, Sha256(token), Sha256(pair.refreshToken), NewRow(cfg, user.id, at.store));
    SignedAtReadings(cfg, user.Who(), at.access, at.refresh);
    RecordKeepsHistory(cfg, s, OwnView(s.db, tx), p, user, Some(token), pair);
    RecordedKeeps(cfg, s, OwnView(s.db, tx), p, user, Some(token), pair);
  }

  // ----- any statement, any action, any schedule -----

  lemma RegisterOrLoginKeeps(cfg: Config, s: State, p: Pid, id: UserId, hash: TokenHash)
    requires Inv(cfg, s) && p in s.procs
    requires s.procs[p].pc.RegisterFind? || s.procs[p].pc.RegisterInsert? || s.procs[p].pc.LoginFind?
    ensures Inv(cfg, Advance(cfg, s, p, id, hash))
  {
    assert ProcessInv(cfg, s, p);
    var request := s.procs[p].request;
    if s.procs[p].pc.RegisterFind? {
      if FindByEmail(s.db, Normalize(request.email)).Some? {
        FinishKeeps(cfg, s, p, Conflict);
      } else {
        GotoKeeps(cfg, s, p, RegisterInsert);
      }
    } else if s.procs[p].pc.RegisterInsert? {
      RegisterInsertKeeps(cfg, s, p, request.email, request.hashed, id);
    } else {
      LoginKeepsInv(cfg, s, p, request.email, request.password);
    }
  }

  lemma VerifyKeeps(cfg: Config, s: State, p: Pid, token: Token)
    requires Inv(cfg, s) && p in s.procs && s.procs[p].request == AskRefresh(token)
    ensures Inv(cfg, VerifyStep(cfg, s, p, token))
  {
    if VerifiesAsRefresh(cfg, token, s.now) {
      GotoKeeps(cfg, s, p, RefreshLock(s.now));
    } else {
      FinishKeeps(cfg, s, p, Unauthorized);
    }
  }

  lemma RefreshStatementKeeps(cfg: Config, s: State, p: Pid, id: UserId, hash: TokenHash)
    requires Inv(cfg, s) && p in s.procs
    requires var pc := s.procs[p].pc; pc.RefreshVerify? || pc.RefreshLock? || pc.RefreshRevoke? || pc.RefreshCommit?
    ensures Inv(cfg, Advance(cfg, s, p, id, hash))
  {
    assert ProcessInv(cfg, s, p);
    var token := s.procs[p].request.token;
    match s.procs[p].pc
    case RefreshLock(verify) => LockKeeps(cfg, s, p, token, verify);
    case RefreshRevoke(tx, user) => RevokeKeeps(cfg, s, p, token, tx, user);
    case RefreshCommit(tx, user, at) => CommitKeeps(cfg, s, p, token, tx, user, at);
    case _ => VerifyKeeps(cfg, s, p, token);
  }

  lemma RevokeKeeps(cfg: Config, s: State, p: Pid, token: Token, tx: Tx, user: User)
    requires Inv(cfg, s) && p in s.procs && s.procs[p] == Process(AskRefresh(token), RefreshRevoke(tx, user))
    ensures Inv(cfg, RevokeStep(s, p, token, tx, user))
  {
    assert ProcessInv(cfg, s, p);
    assert {} + {Sha256(token)} == {Sha256(token)};
    GotoKeeps(cfg, s, p, IssueAccess(tx.(revoked := tx.revoked + {Sha256(token)}), user));
  }

  lemma IssueAccessKeeps(cfg: Config, s: State, p: Pid, tx: Tx, user: User)
    requires Inv(cfg, s) && p in s.procs && s.procs[p].pc == IssueAccess(tx, user)
    ensures Inv(cfg, Goto(s, p, IssueRefresh(tx, user, s.now)))
  {
    assert ProcessInv(cfg, s, p);
    GotoKeeps(cfg, s, p, IssueRefresh(tx, user, s.now));
  }

  lemma IssueRefreshKeeps(cfg: Config, s: State, p: Pid, tx: Tx, user: User, access: Millis)
    requires Inv(cfg, s) && p in s.procs && s.procs[p].pc == IssueRefresh(tx, user, access)
    ensures Inv(cfg, Goto(s, p, IssueStamp(tx, user, access, s.now)))
  {
    assert ProcessInv(cfg, s, p);
    GotoKeeps(cfg, s, p, IssueStamp(tx, user, access, s.now));
  }

  lemma IssueStampKeeps(cfg: Config, s: State, p: Pid, tx: Tx, user: User, access: Millis, refresh: Millis)
    requires Inv(cfg, s) && p in s.procs && s.procs[p].pc == IssueStamp(tx, user, access, refresh)
    ensures Inv(cfg, Goto(s, p, IssueInsert(tx, user, access, refresh, s.now)))
  {
    assert ProcessInv(cfg, s, p);
    GotoKeeps(cfg, s, p, IssueInsert(tx, user, access, refresh, s.now));
  }

  lemma SignStatementKeeps(cfg: Config, s: State, p: Pid, id: UserId, hash: TokenHash)
    requires Inv(cfg, s) && p in s.procs
    requires s.procs[p].pc.IssueAccess? || s.procs[p].pc.IssueRefresh? || s.procs[p].pc.IssueStamp?
    ensures Inv(cfg, Advance(cfg, s, p, id, hash))
  {
    match s.procs[p].pc
    case IssueAccess(tx, user) => IssueAccessKeeps(cfg, s, p, tx, user);
    case IssueRefresh(tx, user, access) => IssueRefreshKeeps(cfg, s, p, tx, user, access);
    case IssueStamp(tx, user, access, refresh) => IssueStampKeeps(cfg, s, p, tx, user, access, refresh);
  }

  lemma RevokeStatementKeeps(cfg: Config, s: State, p: Pid, id: UserId, hash: TokenHash)
    requires Inv(cfg, s) && p in s.procs
    requires s.procs[p].pc.LogoutOne? || s.procs[p].pc.RevokeStart? || s.procs[p].pc.RevokeEach?
    ensures Inv(cfg, Advance(cfg, s, p, id, hash))
  {
    assert ProcessInv(cfg, s, p);
    match s.procs[p].pc
    case LogoutOne(token) => LogoutKeepsInv(cfg, s, p, s.procs[p].request.caller, token);
    case RevokeStart(owner) => GotoKeeps(cfg, s, p, RevokeEach(owner, UnrevokedOf(s.db, owner), {}));
    case RevokeEach(owner, todo, hit) =>
      if todo == {} {
        RevokeEndKeeps(cfg, s, p, owner, hit);
      } else {
        RevokeRowKeeps(cfg, s, p, owner, todo, hit, hash);
      }
  }

  lemma DeactivateStatementKeeps(cfg: Config, s: State, p: Pid, id: UserId, hash: TokenHash)
    requires Inv(cfg, s) && p in s.procs
    requires s.procs[p].pc.DeactivateFind? || s.procs[p].pc.DeactivateWrite? || s.procs[p].pc.DeactivateDelete?
    ensures Inv(cfg, Advance(cfg, s, p, id, hash))
  {
    assert ProcessInv(cfg, s, p);
    var target := s.procs[p].request.target;
    if s.procs[p].pc.DeactivateFind? {
      if Live(s.db, target) {
        GotoKeeps(cfg, s, p, DeactivateWrite);
      } else {
        FinishKeeps(cfg, s, p, NotFound);
      }
    } else if target !in s.userLock {
      if s.procs[p].pc.DeactivateWrite? {
        SwitchOffKeeps(cfg, s, p, target);
      } else {
        SoftRemoveKeeps(cfg, s, p, target);
      }
    }
  }

  lemma AdvanceKeeps(cfg: Config, s: State, p: Pid, id: UserId, hash: TokenHash)
    requires Inv(cfg, s) && p in s.procs
    ensures Inv(cfg, Advance(cfg, s, p, id, hash))
  {
    var pc := s.procs[p].pc;
    if pc.RegisterFind? || pc.RegisterInsert? || pc.LoginFind? {
      RegisterOrLoginKeeps(cfg, s, p, id, hash);
    } else if pc.RefreshVerify? || pc.RefreshLock? || pc.RefreshRevoke? || pc.RefreshCommit? {
      RefreshStatementKeeps(cfg, s, p, id, hash);
    } else if pc.RefreshCheck? {
      CheckKeeps(cfg, s, p, pc.verify, pc.row, pc.user);
    } else if pc.LogoutOne? || pc.RevokeStart? || pc.RevokeEach? {
      RevokeStatementKeeps(cfg, s, p, id, hash);
    } else if pc.DeactivateFind? || pc.DeactivateWrite? || pc.DeactivateDelete? {
      DeactivateStatementKeeps(cfg, s, p, id, hash);
    } else if pc.ValidateFind? {
      assert ProcessInv(cfg, s, p);
      FinishKeeps(cfg, s, p, Validate(s.db, s.procs[p].request.subject));
    } else if pc.IssueInsert? {
      InsertKeeps(cfg, s, p, pc.tx, pc.user, pc.access, pc.refresh, pc.store);
    } else if !pc.Done? {
      SignStatementKeeps(cfg, s, p, id, hash);
    }
  }

  lemma StartKeeps(cfg: Config, s: State, p: Pid, request: Request)
    requires Inv(cfg, s) && p !in s.procs
    ensures Inv(cfg, s.(procs := s.procs[p := Process(request, FirstPc(request))]))
  {
    QuietStepKeeps(cfg, s, s.(procs := s.procs[p := Process(request, FirstPc(request))]), p);
  }

  lemma TickKeeps(cfg: Config, s: State, delay: nat)
    requires Inv(cfg, s)
    ensures Inv(cfg, s.(now := s.now + delay))
  {
    var s' := s.(now := s.now + delay);
    forall q | q in s'.procs ensures ProcessInv(cfg, s', q) {
      FrameKeepsProcess(cfg, s, s', q + 1, q);
    }
    GrowthKeepsHistory(cfg, s, s');
  }

  lemma StepKeeps(cfg: Config, s: State, a: Action)
    requires Inv(cfg, s)
    ensures Inv(cfg, Step(cfg, s, a))
  {
    match a
    case Start(p, request) =>
      if p !in s.procs {
        StartKeeps(cfg, s, p, request);
      }
    case Move(p, id, hash) =>
      if p in s.procs {
        AdvanceKeeps(cfg, s, p, id, hash);
      }
    case Crash(p) =>
      if p in s.procs {
        FinishKeeps(cfg, s, p, Failed);
      }
    case Tick(delay) => TickKeeps(cfg, s, delay);
  }

  /** The invariant holds after every schedule of any number of handler invocations. */
  lemma {:induction false} ScheduleKeeps(cfg: Config, s: State, schedule: seq<Action>)
    requires Inv(cfg, s)
    ensures Inv(cfg, Exec(cfg, s, schedule))
    decreases |schedule|
  {
    if schedule != [] {
      StepKeeps(cfg, s, schedule[0]);
      ScheduleKeeps(cfg, Step(cfg, s, schedule[0]), schedule[1..]);
    }
  }

  lemma ReachableInv(cfg: Config, schedule: seq<Action>)
    requires cfg.Valid()
    ensures Inv(cfg, Exec(cfg, INITIAL, schedule))
  {
    ScheduleKeeps(cfg, INITIAL, schedule);
  }
}
