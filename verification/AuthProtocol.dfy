/** What the rotation protocol promises, over every schedule of any number of interleaved handlers. */
module AuthProtocol {
  import opened Options
  import opened Emails
  import opened Tokens
  import opened AuthStore
  import opened AuthHandlers
  import opened AuthMachine
  import opened AuthInvariant

  // ----- no statement undoes anything -----

  /** The statements that write to the tables. */
  predicate Writes(pc: Pc) {
    || pc.RegisterInsert? || pc.IssueInsert? || pc.RefreshCommit? || pc.LogoutOne?
    || pc.RevokeEach? || pc.DeactivateWrite? || pc.DeactivateDelete?
  }

  lemma FindsDoNotWrite(cfg: Config, s: State, p: Pid, id: UserId, hash: TokenHash)
    requires p in s.procs && (s.procs[p].pc.RegisterFind? || s.procs[p].pc.LoginFind?)
    ensures Advance(cfg, s, p, id, hash).db == s.db && Advance(cfg, s, p, id, hash).log == s.log
  {
  }

  lemma ChecksDoNotWrite(cfg: Config, s: State, p: Pid, id: UserId, hash: TokenHash)
    requires p in s.procs && (s.procs[p].pc.RefreshVerify? || s.procs[p].pc.RefreshLock? || s.procs[p].pc.RefreshCheck?)
    ensures Advance(cfg, s, p, id, hash).db == s.db && Advance(cfg, s, p, id, hash).log == s.log
  {
  }

  lemma OthersDoNotWrite(cfg: Config, s: State, p: Pid, id: UserId, hash: TokenHash)
    requires p in s.procs && !Writes(s.procs[p].pc)
    ensures Advance(cfg, s, p, id, hash).db == s.db && Advance(cfg, s, p, id, hash).log == s.log
  {
    var pc := s.procs[p].pc;
    if pc.RegisterFind? || pc.LoginFind? {
      FindsDoNotWrite(cfg, s, p, id, hash);
    } else if pc.RefreshVerify? || pc.RefreshLock? || pc.RefreshCheck? {
      ChecksDoNotWrite(cfg, s, p, id, hash);
    }
  }

  /** Whose call an action belongs to. */
  function Actor(a: Action): Option<Pid> {
    match a
    case Start(p, _) => Some(p)
    case Move(p, _, _) => Some(p)
    case Crash(p) => Some(p)
    case Tick(_) => None
  }

  ghost predicate OnlyActor(s: State, s': State, p: Pid)
    requires p in s.procs
  {
    && s'.now == s.now
    && s'.procs.Keys == s.procs.Keys
    && s'.procs[p].request == s.procs[p].request
    && (forall q | q in s.procs && q != p :: s'.procs[q] == s.procs[q])
  }

  lemma FindMovesOnlyActor(cfg: Config, s: State, p: Pid, id: UserId, hash: TokenHash)
    requires p in s.procs && (s.procs[p].pc.RegisterFind? || s.procs[p].pc.LoginFind?)
    ensures OnlyActor(s, Advance(cfg, s, p, id, hash), p)
  {
  }

  lemma CheckMovesOnlyActor(cfg: Config, s: State, p: Pid, id: UserId, hash: TokenHash)
    requires p in s.procs && (s.procs[p].pc.RefreshVerify? || s.procs[p].pc.RefreshLock? || s.procs[p].pc.RefreshCheck?)
    ensures OnlyActor(s, Advance(cfg, s, p, id, hash), p)
  {
  }

  lemma InsertMovesOnlyActor(
      cfg: Config, s: State, p: Pid, tx: Tx, user: User, access: Millis, refresh: Millis, store: Millis)
    requires p in s.procs
    ensures OnlyActor(s, InsertStep(cfg, s, p, tx, user, access, refresh, store), p)
  {
  }

  lemma CommitMovesOnlyActor(cfg: Config, s: State, p: Pid, token: Token, tx: Tx, user: User, at: Times)
    requires p in s.procs
    ensures OnlyActor(s, CommitStep(cfg, s, p, token, tx, user, at), p)
  {
  }

  lemma IssueMovesOnlyActor(cfg: Config, s: State, p: Pid, id: UserId, hash: TokenHash)
    requires p in s.procs
    requires s.procs[p].pc.RegisterInsert? || s.procs[p].pc.IssueInsert? || s.procs[p].pc.RefreshCommit?
    ensures OnlyActor(s, Advance(cfg, s, p, id, hash), p)
  {
    match s.procs[p].pc
    case IssueInsert(tx, user, access, refresh, store) =>
      InsertMovesOnlyActor(cfg, s, p, tx, user, access, refresh, store);
    case RefreshCommit(tx, user, at) =>
      if s.procs[p].request.AskRefresh? {
        CommitMovesOnlyActor(cfg, s, p, s.procs[p].request.token, tx, user, at);
      }
    case _ =>
  }

  lemma RevokeMovesOnlyActor(cfg: Config, s: State, p: Pid, id: UserId, hash: TokenHash)
    requires p in s.procs && (s.procs[p].pc.LogoutOne? || s.procs[p].pc.RevokeEach?)
    ensures OnlyActor(s, Advance(cfg, s, p, id, hash), p)
  {
  }

  lemma DeactivateMovesOnlyActor(cfg: Config, s: State, p: Pid, id: UserId, hash: TokenHash)
    requires p in s.procs && (s.procs[p].pc.DeactivateWrite? || s.procs[p].pc.DeactivateDelete?)
    ensures OnlyActor(s, Advance(cfg, s, p, id, hash), p)
  {
  }

  lemma SignMovesOnlyActor(cfg: Config, s: State, p: Pid, id: UserId, hash: TokenHash)
    requires p in s.procs
    requires var pc := s.procs[p].pc; pc.RefreshRevoke? || pc.IssueAccess? || pc.IssueRefresh? || pc.IssueStamp?
    ensures OnlyActor(s, Advance(cfg, s, p, id, hash), p)
  {
  }

  lemma RestMovesOnlyActor(cfg: Config, s: State, p: Pid, id: UserId, hash: TokenHash)
    requires p in s.procs
    requires var pc := s.procs[p].pc; pc.RevokeStart? || pc.DeactivateFind? || pc.ValidateFind? || pc.Done?
    ensures OnlyActor(s, Advance(cfg, s, p, id, hash), p)
  {
  }

  lemma OnlyActorMoves(cfg: Config, s: State, p: Pid, id: UserId, hash: TokenHash)
    requires p in s.procs
    ensures OnlyActor(s, Advance(cfg, s, p, id, hash), p)
  {
    var pc := s.procs[p].pc;
    if pc.RegisterFind? || pc.LoginFind? {
      FindMovesOnlyActor(cfg, s, p, id, hash);
    } else if pc.RefreshVerify? || pc.RefreshLock? || pc.RefreshCheck? {
      CheckMovesOnlyActor(cfg, s, p, id, hash);
    } else if pc.RegisterInsert? || pc.IssueInsert? || pc.RefreshCommit? {
      IssueMovesOnlyActor(cfg, s, p, id, hash);
    } else if pc.LogoutOne? || pc.RevokeEach? {
      RevokeMovesOnlyActor(cfg, s, p, id, hash);
    } else if pc.DeactivateWrite? || pc.DeactivateDelete? {
      DeactivateMovesOnlyActor(cfg, s, p, id, hash);
    } else if pc.RefreshRevoke? || pc.IssueAccess? || pc.IssueRefresh? || pc.IssueStamp? {
      SignMovesOnlyActor(cfg, s, p, id, hash);
    } else {
      RestMovesOnlyActor(cfg, s, p, id, hash);
    }
  }

  lemma OthersDoNotMove(cfg: Config, s: State, a: Action, q: Pid)
    requires q in s.procs && Actor(a) != Some(q)
    ensures q in Step(cfg, s, a).procs && Step(cfg, s, a).procs[q] == s.procs[q]
  {
    if a.Move? && a.pid in s.procs {
      OnlyActorMoves(cfg, s, a.pid, a.id, a.hash);
    }
  }

  /** A call that has answered stays as it is. */
  lemma DoneStays(cfg: Config, s: State, a: Action, p: Pid)
    requires p in s.procs && s.procs[p].pc.Done?
    ensures p in Step(cfg, s, a).procs && Step(cfg, s, a).procs[p] == s.procs[p]
  {
    if Actor(a) != Some(p) {
      OthersDoNotMove(cfg, s, a, p);
    }
  }

  /** The calls that have answered. */
  function Finished(s: State): set<Pid> {
    set p | p in s.procs && s.procs[p].pc.Done?
  }

  ghost predicate AllFinished(s: State, ended: set<Pid>) {
    forall p | p in ended :: p in s.procs && s.procs[p].pc.Done?
  }

  lemma FinishedStay(cfg: Config, s: State, a: Action, ended: set<Pid>)
    requires AllFinished(s, ended)
    ensures AllFinished(Step(cfg, s, a), ended)
  {
    forall p | p in ended ensures p in Step(cfg, s, a).procs && Step(cfg, s, a).procs[p].pc.Done? {
      DoneStays(cfg, s, a, p);
    }
  }

  lemma InsertChangesNoAccount(
      cfg: Config, s: State, p: Pid, tx: Tx, user: User, access: Millis, refresh: Millis, store: Millis)
    requires p in s.procs
    ensures InsertStep(cfg, s, p, tx, user, access, refresh, store).db.users == s.db.users
  {
  }

  lemma CommitChangesNoAccount(cfg: Config, s: State, p: Pid, id: UserId, hash: TokenHash)
    requires p in s.procs && s.procs[p].pc.RefreshCommit?
    ensures Advance(cfg, s, p, id, hash).db.users == s.db.users
  {
  }

  lemma UpdateChangesNoAccount(cfg: Config, s: State, p: Pid, id: UserId, hash: TokenHash)
    requires p in s.procs && (s.procs[p].pc.LogoutOne? || s.procs[p].pc.RevokeEach?)
    ensures Advance(cfg, s, p, id, hash).db.users == s.db.users
  {
    match s.procs[p].pc
    case LogoutOne(token) =>
    case RevokeEach(owner, todo, hit) =>
      if todo != {} {
        assert RevokeRowStep(s, p, owner, todo, hit, hash).db == s.db;
      } else {
        assert RevokeEndStep(s, p, hit).db.users == s.db.users;
      }
  }

  /** Statements on tokens leave the accounts alone. */
  lemma TokensChangeNoAccount(cfg: Config, s: State, p: Pid, id: UserId, hash: TokenHash)
    requires p in s.procs
    requires var pc := s.procs[p].pc; pc.IssueInsert? || pc.RefreshCommit? || pc.LogoutOne? || pc.RevokeEach?
    ensures Advance(cfg, s, p, id, hash).db.users == s.db.users
  {
    match s.procs[p].pc
    case IssueInsert(tx, user, access, refresh, store) =>
      InsertChangesNoAccount(cfg, s, p, tx, user, access, refresh, store);
    case RefreshCommit(_, _, _) => CommitChangesNoAccount(cfg, s, p, id, hash);
    case _ => UpdateChangesNoAccount(cfg, s, p, id, hash);
  }

  lemma RevokeGrows(db: Db, hashes: set<TokenHash>)
    ensures Grows(db, RevokeRows(db, hashes))
  {
  }

  lemma LogoutGrows(s: State, p: Pid, caller: UserId, token: Token)
    requires p in s.procs
    ensures Grows(s.db, LogoutStep(s, p, caller, token).db) && LogoutStep(s, p, caller, token).log == s.log
  {
    RevokeGrows(s.db, OwnedToken(s.db, Sha256(token), caller));
  }

  lemma RevokeEndGrows(s: State, p: Pid, hit: set<TokenHash>)
    requires p in s.procs
    ensures Grows(s.db, RevokeEndStep(s, p, hit).db) && RevokeEndStep(s, p, hit).log == s.log
  {
    RevokeGrows(s.db, hit);
  }

  lemma DeactivateGrows(s: State, p: Pid, target: UserId, pc: Pc)
    requires p in s.procs && (target in s.db.users ==> s.db.users[target].id == target)
    ensures Grows(s.db, DeactivateStep(s, p, target, pc).db)
    ensures s.log <= DeactivateStep(s, p, target, pc).log
  {
  }

  lemma RegisterGrows(s: State, p: Pid, email: string, hashed: string, pc: Pc, id: UserId)
    requires p in s.procs
    ensures var s' := RegisterStep(s, p, email, hashed, pc, id); Grows(s.db, s'.db) && s'.log == s.log
  {
  }

  lemma InsertGrows(cfg: Config, s: State, p: Pid, tx: Tx, user: User, access: Millis, refresh: Millis, store: Millis)
    requires p in s.procs
    ensures var s' := InsertStep(cfg, s, p, tx, user, access, refresh, store); Grows(s.db, s'.db) && s.log <= s'.log
  {
  }

  lemma RevokeEachGrows(cfg: Config, s: State, p: Pid, id: UserId, hash: TokenHash)
    requires p in s.procs && s.procs[p].pc.RevokeEach?
    ensures Grows(s.db, Advance(cfg, s, p, id, hash).db)
    ensures s.log == Advance(cfg, s, p, id, hash).log
  {
    var pc := s.procs[p].pc;
    RevokeEndGrows(s, p, pc.hit);
    assert RevokeRowStep(s, p, pc.id, pc.todo, pc.hit, hash).db == s.db;
  }

  lemma DeactivateStatementGrows(cfg: Config, s: State, p: Pid, id: UserId, hash: TokenHash)
    requires DbInv(cfg, s.db) && p in s.procs && ProcessInv(cfg, s, p)
    requires s.procs[p].pc.DeactivateWrite? || s.procs[p].pc.DeactivateDelete?
    ensures Grows(s.db, Advance(cfg, s, p, id, hash).db)
    ensures s.log <= Advance(cfg, s, p, id, hash).log
  {
    assert GoodUser(s.db, s.procs[p].request.target);
    DeactivateGrows(s, p, s.procs[p].request.target, s.procs[p].pc);
  }

  lemma WriteGrows(cfg: Config, s: State, p: Pid, id: UserId, hash: TokenHash)
    requires Inv(cfg, s) && p in s.procs
    requires s.procs[p].pc.RegisterInsert? || s.procs[p].pc.IssueInsert? || s.procs[p].pc.LogoutOne?
    ensures Grows(s.db, Advance(cfg, s, p, id, hash).db)
    ensures s.log <= Advance(cfg, s, p, id, hash).log
  {
    assert ProcessInv(cfg, s, p);
    var request := s.procs[p].request;
    match s.procs[p].pc
    case RegisterInsert => RegisterGrows(s, p, request.email, request.hashed, RegisterInsert, id);
    case IssueInsert(tx, user, access, refresh, store) => InsertGrows(cfg, s, p, tx, user, access, refresh, store);
    case LogoutOne(token) => LogoutGrows(s, p, request.caller, token);
  }

  lemma AdvanceGrows(cfg: Config, s: State, p: Pid, id: UserId, hash: TokenHash)
    requires Inv(cfg, s) && p in s.procs
    ensures Grows(s.db, Advance(cfg, s, p, id, hash).db)
    ensures s.log <= Advance(cfg, s, p, id, hash).log
  {
    var pc := s.procs[p].pc;
    if !Writes(pc) {
      OthersDoNotWrite(cfg, s, p, id, hash);
    } else if pc.RefreshCommit? {
      assert ProcessInv(cfg, s, p);
      CommitChange(cfg, s, p, s.procs[p].request.token, pc.tx, pc.user, pc.at);
    } else if pc.RegisterInsert? || pc.IssueInsert? || pc.LogoutOne? {
      WriteGrows(cfg, s, p, id, hash);
    } else if pc.RevokeEach? {
      RevokeEachGrows(cfg, s, p, id, hash);
    } else {
      assert ProcessInv(cfg, s, p);
      DeactivateStatementGrows(cfg, s, p, id, hash);
    }
  }

  lemma StepGrows(cfg: Config, s: State, a: Action)
    requires Inv(cfg, s)
    ensures Grows(s.db, Step(cfg, s, a).db)
    ensures s.log <= Step(cfg, s, a).log
  {
    if a.Move? && a.pid in s.procs {
      AdvanceGrows(cfg, s, a.pid, a.id, a.hash);
    }
  }

  /** Tokens are only ever revoked and never removed, accounts only ever switched off and soft-deleted. */
  lemma {:induction false} NothingIsUndone(cfg: Config, s: State, schedule: seq<Action>)
    requires Inv(cfg, s)
    ensures Grows(s.db, Exec(cfg, s, schedule).db)
    ensures s.log <= Exec(cfg, s, schedule).log
    decreases |schedule|
  {
    if schedule != [] {
      var mid := Step(cfg, s, schedule[0]);
      StepKeeps(cfg, s, schedule[0]);
      StepGrows(cfg, s, schedule[0]);
      NothingIsUndone(cfg, mid, schedule[1..]);
      GrowsTransitive(s.db, mid.db, Exec(cfg, s, schedule).db);
    }
  }

  // ----- where the entries of the history come from -----

  /** Entry e was made by the statement of p that returns its tokens: the INSERT of a registration or login, or the
      COMMIT of a refresh, whose presented token is then the parent. */
  ghost predicate Issues(s: State, s': State, p: Pid, e: Event) {
    && p in s.procs && p in s'.procs
    && e.Issued? && e.pid == p
    && var pc := s.procs[p].pc;
       && (|| (pc.IssueInsert? && pc.tx.NoTx? && e.parent == None)
           || (pc.RefreshCommit? && s.procs[p].request.AskRefresh? && e.parent == Some(s.procs[p].request.token)))
       && e.userId == pc.user.id
       && s'.procs[p].pc == Done(Session(ToView(pc.user), e.tokens))
  }

  lemma InsertIssues(
      cfg: Config, s: State, p: Pid, tx: Tx, user: User, access: Millis, refresh: Millis, store: Millis, i: nat)
    requires p in s.procs && s.procs[p].pc == IssueInsert(tx, user, access, refresh, store)
    requires |s.log| <= i < |InsertStep(cfg, s, p, tx, user, access, refresh, store).log|
    ensures var s' := InsertStep(cfg, s, p, tx, user, access, refresh, store); Issues(s, s', p, s'.log[i])
  {
  }

  lemma CommitIssues(cfg: Config, s: State, p: Pid, token: Token, tx: Tx, user: User, at: Times, i: nat)
    requires p in s.procs && s.procs[p] == Process(AskRefresh(token), RefreshCommit(tx, user, at))
    requires |s.log| <= i < |CommitStep(cfg, s, p, token, tx, user, at).log|
    ensures var s' := CommitStep(cfg, s, p, token, tx, user, at); Issues(s, s', p, s'.log[i])
  {
  }

  lemma DeactivationsIssueNothing(s: State, p: Pid, target: UserId, pc: Pc, i: nat)
    requires p in s.procs && |s.log| <= i < |DeactivateStep(s, p, target, pc).log|
    ensures DeactivateStep(s, p, target, pc).log[i].SwitchedOff?
  {
  }

  lemma NewEntry(cfg: Config, s: State, p: Pid, id: UserId, hash: TokenHash, i: nat)
    requires p in s.procs && |s.log| <= i < |Advance(cfg, s, p, id, hash).log|
    ensures var s' := Advance(cfg, s, p, id, hash); s'.log[i].Issued? ==> Issues(s, s', p, s'.log[i])
  {
    var request := s.procs[p].request;
    var pc := s.procs[p].pc;
    if !Writes(pc) {
      OthersDoNotWrite(cfg, s, p, id, hash);
    } else if pc.RegisterInsert? {
      RegisterGrows(s, p, request.email, request.hashed, RegisterInsert, id);
    } else if pc.IssueInsert? {
      InsertIssues(cfg, s, p, pc.tx, pc.user, pc.access, pc.refresh, pc.store, i);
    } else if pc.RefreshCommit? {
      CommitIssues(cfg, s, p, request.token, pc.tx, pc.user, pc.at, i);
    } else if pc.LogoutOne? {
      LogoutGrows(s, p, request.caller, pc.token);
    } else if pc.RevokeEach? {
      RevokeEachGrows(cfg, s, p, id, hash);
    } else {
      DeactivationsIssueNothing(s, p, request.target, pc, i);
    }
  }

  lemma NewEntryOfStep(cfg: Config, s: State, a: Action, i: nat)
    requires |s.log| <= i < |Step(cfg, s, a).log| && Step(cfg, s, a).log[i].Issued?
    ensures a.Move? && Issues(s, Step(cfg, s, a), a.pid, Step(cfg, s, a).log[i])
  {
    if a.Move? && a.pid in s.procs {
      NewEntry(cfg, s, a.pid, a.id, a.hash, i);
    }
  }

  // ----- single use -----

  ghost predicate RefreshedWith(s: State, p: Pid, token: Token) {
    && p in s.procs
    && s.procs[p].request == AskRefresh(token)
    && s.procs[p].pc.Done? && s.procs[p].pc.reply.Session?
  }

  lemma ParentsAreUsedOnce(cfg: Config, s: State)
    requires s.births.Keys == s.db.tokens.Keys && HistoryInv(cfg, s)
    ensures forall i: nat, j: nat | i < j < |s.log| && s.log[i].Issued? && s.log[j].Issued? && s.log[j].parent.Some? ::
              s.log[i].parent != s.log[j].parent
  {
    forall i: nat, j: nat | i < j < |s.log| && s.log[i].Issued? && s.log[j].Issued? && s.log[j].parent.Some?
      ensures s.log[i].parent != s.log[j].parent
    {
      assert Compatible(s.log[i], s.log[j]);
    }
  }

  /** However many refresh calls present one token, and however their statements interleave with each
      other and with everything else, at most one of them returns tokens. */
  lemma SingleUse(cfg: Config, schedule: seq<Action>, token: Token, p: Pid, q: Pid)
    requires cfg.Valid()
    requires RefreshedWith(Exec(cfg, INITIAL, schedule), p, token)
    requires RefreshedWith(Exec(cfg, INITIAL, schedule), q, token)
    ensures p == q
  {
    var s := Exec(cfg, INITIAL, schedule);
    ReachableInv(cfg, schedule);
    assert ProcessInv(cfg, s, p) && ProcessInv(cfg, s, q);
    var i: nat :| SessionLogged(s, p, s.procs[p].pc.reply, i);
    var j: nat :| SessionLogged(s, q, s.procs[q].pc.reply, j);
    ParentsAreUsedOnce(cfg, s);
  }

  // ----- deactivation beats refresh -----

  /** A statement that issues a successor does so for an account that is active, and in place of a token that is
      unrevoked, at that very moment. */
  lemma SuccessorsOnlyInGoodStanding(cfg: Config, s: State, a: Action, i: nat)
    requires Inv(cfg, s) && |s.log| <= i < |Step(cfg, s, a).log|
    requires Step(cfg, s, a).log[i].Issued? && Step(cfg, s, a).log[i].parent.Some?
    ensures var e := Step(cfg, s, a).log[i];
            && e.userId in s.db.users && s.db.users[e.userId].isActive
            && Sha256(e.parent.value) in s.db.tokens && !s.db.tokens[Sha256(e.parent.value)].revoked
  {
    NewEntryOfStep(cfg, s, a, i);
    assert ProcessInv(cfg, s, a.pid);
  }

  /** A revoked token is never traded in again: a refresh that replaces it, in any later state, did so before. */
  lemma {:induction false} RevokedIsFinal(cfg: Config, s: State, schedule: seq<Action>, h: TokenHash, i: nat)
    requires Inv(cfg, s) && h in s.db.tokens && s.db.tokens[h].revoked
    requires i < |Exec(cfg, s, schedule).log|
    requires var e := Exec(cfg, s, schedule).log[i]; e.Issued? && e.parent == Some(h.token)
    ensures i < |s.log|
    decreases |schedule|
  {
    if schedule != [] {
      var mid := Step(cfg, s, schedule[0]);
      StepKeeps(cfg, s, schedule[0]);
      StepGrows(cfg, s, schedule[0]);
      NothingIsUndone(cfg, mid, schedule[1..]);
      RevokedIsFinal(cfg, mid, schedule[1..], h, i);
      if i >= |s.log| {
        SuccessorsOnlyInGoodStanding(cfg, s, schedule[0], i);
      }
    }
  }

  /** From the moment an account's isActive = false is visible, whatever was already under way and
      whatever comes later, no refresh issues tokens for it: a refresh session of that account in any
      later state was issued before. */
  lemma {:induction false} DeactivationBeatsRefresh(cfg: Config, s: State, schedule: seq<Action>, id: UserId, i: nat)
    requires Inv(cfg, s) && id in s.db.users && !s.db.users[id].isActive
    requires i < |Exec(cfg, s, schedule).log|
    requires var e := Exec(cfg, s, schedule).log[i]; e.Issued? && e.parent.Some? && e.userId == id
    ensures i < |s.log|
    decreases |schedule|
  {
    if schedule != [] {
      var mid := Step(cfg, s, schedule[0]);
      StepKeeps(cfg, s, schedule[0]);
      StepGrows(cfg, s, schedule[0]);
      NothingIsUndone(cfg, mid, schedule[1..]);
      DeactivationBeatsRefresh(cfg, mid, schedule[1..], id, i);
      if i >= |s.log| {
        SuccessorsOnlyInGoodStanding(cfg, s, schedule[0], i);
      }
    }
  }

  /** The same seen from the callers: after the write, a refresh call for the account either had already
      been issued its session or never returns one. */
  lemma NoRefreshReturnsAfterDeactivation(
      cfg: Config, s: State, schedule: seq<Action>, id: UserId, p: Pid, token: Token)
    requires Inv(cfg, s) && id in s.db.users && !s.db.users[id].isActive
    requires RefreshedWith(Exec(cfg, s, schedule), p, token)
    requires Exec(cfg, s, schedule).procs[p].pc.reply.user.id == id
    ensures exists i: nat :: i < |s.log| && s.log[i].Issued? && s.log[i].pid == p && s.log[i].parent == Some(token)
  {
    var end := Exec(cfg, s, schedule);
    ScheduleKeeps(cfg, s, schedule);
    NothingIsUndone(cfg, s, schedule);
    assert ProcessInv(cfg, end, p);
    var i: nat :| SessionLogged(end, p, end.procs[p].pc.reply, i);
    DeactivationBeatsRefresh(cfg, s, schedule, id, i);
    assert s.log[i] == end.log[i];
  }

  /** A deactivation that has answered Ack has left the account inactive and soft-deleted, for good. */
  lemma DeactivatedIsDead(cfg: Config, s: State, schedule: seq<Action>, p: Pid, id: UserId)
    requires Inv(cfg, s) && p in s.procs && s.procs[p] == Process(AskDeactivate(id), Done(Ack))
    ensures Dead(Exec(cfg, s, schedule).db, id)
  {
    assert ProcessInv(cfg, s, p);
    NothingIsUndone(cfg, s, schedule);
    ScheduleKeeps(cfg, s, schedule);
    assert GoodUser(Exec(cfg, s, schedule).db, id);
  }

  // ----- interleaved handlers against atomic ones -----

  /** Interleaved refreshes are linearisable: the commit takes the tables exactly where the atomic handler,
      with the clock readings the process took, would take them at that moment, and replies the same. */
  lemma CommitIsAtomicRefresh(cfg: Config, s: State, p: Pid, id: UserId, hash: TokenHash)
    requires Inv(cfg, s) && p in s.procs && s.procs[p].pc.RefreshCommit?
    ensures var s' := Step(cfg, s, Move(p, id, hash));
            && s.procs[p].request.AskRefresh?
            && s'.procs[p].pc.Done?
            && Outcome(s'.db, s'.procs[p].pc.reply)
               == AuthHandlers.Refresh(cfg, s.db, s.procs[p].request.token, s.procs[p].pc.at)
  {
    assert ProcessInv(cfg, s, p);
  }

  /** What a login with this copy of its account comes to once the digest turns out to be free. */
  function Stored(cfg: Config, db: Db, user: User, at: Times): Outcome {
    var pair := Pair(cfg, user.Who(), at);
    Outcome(db.(tokens := db.tokens[Sha256(pair.refreshToken) := NewRow(cfg, user.id, at.store)]),
            Session(ToView(user), pair))
  }

  lemma AtomicLoginStoresIff(cfg: Config, db: Db, user: User, email: string, password: string, at: Times)
    requires DbInv(cfg, db) && user.id in db.users && db.users[user.id].Lasting() == user.Lasting()
    requires user.email == Normalize(email) && cfg.compare(password, user.password) && user.isActive && !user.deleted
    requires Sha256(SignRefresh(cfg, user.Who(), at.refresh)) !in db.tokens
    ensures Stored(cfg, db, user, at) == AuthHandlers.Login(cfg, db, email, password, at)
            <==> Live(db, user.id) && db.users[user.id].isActive
  {
    assert GoodUser(db, user.id);
    if Live(db, user.id) {
      FindByEmailIsTheHolder(db, user.id, user.email);
      assert db.users[user.id].isActive ==> db.users[user.id] == user;
    } else if holder :| HoldsEmail(db, holder, user.email) {
      FindByEmailIsTheHolder(db, holder, user.email);
      assert GoodUser(db, holder);
    }
  }

  /** A login about to store a free digest is linearisable there exactly when the account is still live and active:
      with a stale copy it opens a session where the atomic handler would refuse. */
  lemma LoginIsAtomicAtInsertIff(
      cfg: Config, s: State, p: Pid, id: UserId, hash: TokenHash, verify: Millis, check: Millis)
    requires Inv(cfg, s) && p in s.procs && s.procs[p].pc.IssueInsert? && s.procs[p].request.AskLogin?
    requires var next := Sha256(SignRefresh(cfg, s.procs[p].pc.user.Who(), s.procs[p].pc.refresh));
             next !in s.db.tokens && next !in s.tokenLock
    ensures var s' := Step(cfg, s, Move(p, id, hash));
            var pc := s.procs[p].pc;
            && s'.procs[p].pc.Done?
            && (Outcome(s'.db, s'.procs[p].pc.reply)
                == AuthHandlers.Login(cfg, s.db, s.procs[p].request.email, s.procs[p].request.password,
                                      Times(verify, check, pc.access, pc.refresh, pc.store))
                <==> Live(s.db, pc.user.id) && s.db.users[pc.user.id].isActive)
  {
    assert ProcessInv(cfg, s, p);
    var request, pc := s.procs[p].request, s.procs[p].pc;
    var at := Times(verify, check, pc.access, pc.refresh, pc.store);
    AtomicLoginStoresIff(cfg, s.db, pc.user, request.email, request.password, at);
  }

  /** Logging out with a token is one statement, and does what the atomic handler does as soon as the row is free. */
  lemma LogoutWithTokenIsAtomic(cfg: Config, s: State, p: Pid, id: UserId, hash: TokenHash)
    requires Inv(cfg, s) && p in s.procs && s.procs[p].pc.LogoutOne?
    requires Sha256(s.procs[p].pc.token) !in s.tokenLock
    ensures var s' := Step(cfg, s, Move(p, id, hash));
            && s.procs[p].request.AskLogout?
            && s'.procs[p].pc.Done?
            && Outcome(s'.db, s'.procs[p].pc.reply)
               == AuthHandlers.Logout(s.db, s.procs[p].request.caller, s.procs[p].request.presented)
  {
    assert ProcessInv(cfg, s, p);
  }

  // ----- rotation lineage -----

  /** The token a stored token replaced. */
  ghost function Parent(s: State, h: TokenHash): Option<TokenHash>
    requires h in s.births && s.births[h] < |s.log| && s.log[s.births[h]].Issued?
  {
    match s.log[s.births[h]].parent
    case None => None
    case Some(t) => Some(Sha256(t))
  }

  ghost predicate Lineal(cfg: Config, s: State) {
    s.births.Keys == s.db.tokens.Keys && HistoryInv(cfg, s)
  }

  /** From the login or registration that started the chain to the token itself. */
  ghost function Lineage(cfg: Config, s: State, h: TokenHash): (chain: seq<TokenHash>)
    requires Lineal(cfg, s) && h in s.births
    ensures |chain| >= 1 && chain[|chain| - 1] == h
    decreases s.births[h]
  {
    assert GoodEntry(cfg, s, s.births[h]);
    match Parent(s, h)
    case None => [h]
    case Some(g) => Lineage(cfg, s, g) + [h]
  }

  ghost predicate Link(s: State, g: TokenHash, h: TokenHash) {
    && h in s.births && s.births[h] < |s.log| && s.log[s.births[h]].Issued?
    && Parent(s, h) == Some(g)
  }

  /** A chain is simple: it starts at a login or registration, each element replaced the one before and was
      stored later, all belong to one user, and every element but the last is revoked. */
  lemma {:induction false} LineageIsSimpleChain(cfg: Config, s: State, h: TokenHash)
    requires Lineal(cfg, s) && h in s.births
    ensures var c := Lineage(cfg, s, h);
            && (forall i | 0 <= i < |c| ::
                  c[i] in s.db.tokens && s.db.tokens[c[i]].userId == s.db.tokens[h].userId)
            && s.log[s.births[c[0]]].parent == None
            && (forall i | 1 <= i < |c| :: Link(s, c[i - 1], c[i]))
            && (forall i, j | 0 <= i < j < |c| :: s.births[c[i]] < s.births[c[j]] && c[i] != c[j])
            && (forall i | 0 <= i < |c| - 1 :: s.db.tokens[c[i]].revoked)
    decreases s.births[h]
  {
    assert GoodEntry(cfg, s, s.births[h]);
    match Parent(s, h)
    case None =>
    case Some(g) => LineageIsSimpleChain(cfg, s, g);
  }

  /** A token has at most one successor, and none while it is unrevoked. */
  lemma AtMostOneSuccessor(cfg: Config, s: State, g: TokenHash, a: TokenHash, b: TokenHash)
    requires Lineal(cfg, s) && a in s.births && b in s.births
    requires Parent(s, a) == Some(g) && Parent(s, b) == Some(g)
    ensures a == b && g in s.db.tokens && s.db.tokens[g].revoked
  {
    var i, j := s.births[a], s.births[b];
    assert GoodEntry(cfg, s, i) && GoodEntry(cfg, s, j);
    ParentsAreUsedOnce(cfg, s);
  }

  /** Whatever lies on a token's chain brings its own whole chain along. */
  lemma {:induction false} ChainOfElementIsPrefix(cfg: Config, s: State, h: TokenHash, x: TokenHash)
    requires Lineal(cfg, s) && h in s.births && x in Lineage(cfg, s, h)
    ensures x in s.births && Lineage(cfg, s, x) <= Lineage(cfg, s, h)
    decreases s.births[h]
  {
    assert GoodEntry(cfg, s, s.births[h]);
    if x != h {
      ChainOfElementIsPrefix(cfg, s, Parent(s, h).value, x);
    }
  }

  /** Two chains that agree up to some element agree as far as the shorter one goes. */
  lemma {:induction false} ChainsDoNotBranch(cfg: Config, s: State, a: TokenHash, b: TokenHash, n: nat)
    requires Lineal(cfg, s) && a in s.births && b in s.births
    requires 1 <= n <= |Lineage(cfg, s, a)| <= |Lineage(cfg, s, b)|
    requires Lineage(cfg, s, a)[..n] == Lineage(cfg, s, b)[..n]
    ensures Lineage(cfg, s, a) <= Lineage(cfg, s, b)
    decreases |Lineage(cfg, s, a)| - n
  {
    var ca, cb := Lineage(cfg, s, a), Lineage(cfg, s, b);
    if n < |ca| {
      LineageIsSimpleChain(cfg, s, a);
      LineageIsSimpleChain(cfg, s, b);
      assert ca[n - 1] == ca[..n][n - 1] == cb[..n][n - 1] == cb[n - 1];
      assert Link(s, ca[n - 1], ca[n]) && Link(s, cb[n - 1], cb[n]);
      AtMostOneSuccessor(cfg, s, ca[n - 1], ca[n], cb[n]);
      assert ca[..n + 1] == ca[..n] + [ca[n]];
      assert cb[..n + 1] == cb[..n] + [cb[n]];
      ChainsDoNotBranch(cfg, s, a, b, n + 1);
    }
  }

  /** One chain extends the other, or they have nothing in common. */
  ghost predicate ComparableOrDisjoint(cfg: Config, s: State, a: TokenHash, b: TokenHash)
    requires Lineal(cfg, s) && a in s.births && b in s.births
  {
    || Lineage(cfg, s, a) <= Lineage(cfg, s, b)
    || Lineage(cfg, s, b) <= Lineage(cfg, s, a)
    || (forall x :: !(x in Lineage(cfg, s, a) && x in Lineage(cfg, s, b)))
  }

  lemma ChainsAreComparableOrDisjoint(cfg: Config, s: State, a: TokenHash, b: TokenHash)
    requires Lineal(cfg, s) && a in s.births && b in s.births
    ensures ComparableOrDisjoint(cfg, s, a, b)
  {
    var ca, cb := Lineage(cfg, s, a), Lineage(cfg, s, b);
    if x :| x in ca && x in cb {
      ChainOfElementIsPrefix(cfg, s, a, x);
      ChainOfElementIsPrefix(cfg, s, b, x);
      var n := |Lineage(cfg, s, x)|;
      assert ca[..n] == Lineage(cfg, s, x) == cb[..n];
      if |ca| <= |cb| {
        ChainsDoNotBranch(cfg, s, a, b, n);
      } else {
        ChainsDoNotBranch(cfg, s, b, a, n);
      }
    }
  }

  lemma OnlyTheEndIsUnrevoked(cfg: Config, s: State, a: TokenHash, b: TokenHash)
    requires Lineal(cfg, s) && a in s.births && b in s.births
    requires !s.db.tokens[a].revoked && a in Lineage(cfg, s, b)
    ensures a == b
  {
    LineageIsSimpleChain(cfg, s, b);
  }

  /** In every reachable state the refresh tokens fall into disjoint simple chains: any two chains either share
      nothing or one extends the other, and only the end of a chain can be unrevoked. */
  lemma RotationLineage(cfg: Config, schedule: seq<Action>, a: TokenHash, b: TokenHash)
    requires cfg.Valid()
    requires a in Exec(cfg, INITIAL, schedule).db.tokens && b in Exec(cfg, INITIAL, schedule).db.tokens
    ensures Lineal(cfg, Exec(cfg, INITIAL, schedule))
    ensures ComparableOrDisjoint(cfg, Exec(cfg, INITIAL, schedule), a, b)
    ensures var s := Exec(cfg, INITIAL, schedule);
            !s.db.tokens[a].revoked && a in Lineage(cfg, s, b) ==> a == b
  {
    var s := Exec(cfg, INITIAL, schedule);
    ReachableInv(cfg, schedule);
    ChainsAreComparableOrDisjoint(cfg, s, a, b);
    if !s.db.tokens[a].revoked && a in Lineage(cfg, s, b) {
      OnlyTheEndIsUnrevoked(cfg, s, a, b);
    }
  }

  // ----- distinct tokens -----

  /** All refresh tokens handed out in a run are different, none is the token it replaced, and two issued
      to one user are at least a second apart. Two access tokens coincide exactly when they were signed
      for one user in one second; that takes an issuance whose two signatures straddle a second. */
  lemma IssuedTokensAreDistinct(cfg: Config, schedule: seq<Action>, i: nat, j: nat)
    requires cfg.Valid()
    requires i < j < |Exec(cfg, INITIAL, schedule).log|
    requires Exec(cfg, INITIAL, schedule).log[i].Issued? && Exec(cfg, INITIAL, schedule).log[j].Issued?
    ensures var a := Exec(cfg, INITIAL, schedule).log[i];
            var b := Exec(cfg, INITIAL, schedule).log[j];
            && a.tokens.refreshToken != b.tokens.refreshToken
            && b.parent != Some(b.tokens.refreshToken)
            && a.tokens.refreshToken.Jwt? && b.tokens.refreshToken.Jwt?
            && a.tokens.accessToken.Jwt? && b.tokens.accessToken.Jwt?
            && (a.userId == b.userId ==>
                  a.tokens.refreshToken.claims.iat != b.tokens.refreshToken.claims.iat)
            && (a.tokens.accessToken == b.tokens.accessToken <==>
                  a.userId == b.userId
                  && a.tokens.accessToken.claims.iat == b.tokens.accessToken.claims.iat)
            && (a.tokens.accessToken == b.tokens.accessToken ==>
                  a.tokens.accessToken.claims.iat < a.tokens.refreshToken.claims.iat
                  || b.tokens.accessToken.claims.iat < b.tokens.refreshToken.claims.iat)
  {
    var s := Exec(cfg, INITIAL, schedule);
    ReachableInv(cfg, schedule);
    assert GoodEntry(cfg, s, i) && GoodEntry(cfg, s, j);
    assert GoodUser(s.db, s.log[i].userId) && GoodUser(s.db, s.log[j].userId);
  }

  /** Entry i of the history is a refresh token of the account that was signed in the given second. */
  ghost predicate SignedInSecond(s: State, i: nat, account: UserId, second: nat) {
    && i < |s.log| && s.log[i].Issued? && s.log[i].userId == account
    && s.log[i].tokens.refreshToken.Jwt? && s.log[i].tokens.refreshToken.claims.iat == second
  }

  ghost predicate IssuedInSecond(s: State, account: UserId, second: nat) {
    exists i: nat :: SignedInSecond(s, i, account, second)
  }

  lemma SecondTakenIff(cfg: Config, s: State, user: User, refresh: Millis)
    requires DbInv(cfg, s.db) && s.births.Keys == s.db.tokens.Keys && HistoryInv(cfg, s)
    requires user.id in s.db.users && s.db.users[user.id].Who() == user.Who()
    ensures Sha256(SignRefresh(cfg, user.Who(), refresh)) in s.db.tokens <==> IssuedInSecond(s, user.id, refresh / 1000)
  {
    var digest := Sha256(SignRefresh(cfg, user.Who(), refresh));
    if digest in s.db.tokens {
      assert GoodEntry(cfg, s, s.births[digest]) && GoodTokenRow(cfg, s.db, digest);
      assert SignedInSecond(s, s.births[digest], user.id, refresh / 1000);
    }
    if i: nat :| SignedInSecond(s, i, user.id, refresh / 1000) {
      assert GoodEntry(cfg, s, i);
    }
  }

  lemma IssuerIsKnown(cfg: Config, s: State, p: Pid)
    requires p in s.procs && ProcessInv(cfg, s, p) && s.procs[p].pc.IssueInsert?
    ensures var user := s.procs[p].pc.user; user.id in s.db.users && s.db.users[user.id].Who() == user.Who()
  {
  }

  /** The digest that an issuance, of whatever handler, is about to store is taken exactly when the account has been
      issued a token in the very second in which it signed its own. */
  lemma DigestTakenIff(cfg: Config, s: State, p: Pid)
    requires Inv(cfg, s) && p in s.procs && s.procs[p].pc.IssueInsert?
    ensures Sha256(SignRefresh(cfg, s.procs[p].pc.user.Who(), s.procs[p].pc.refresh)) in s.db.tokens
            <==> IssuedInSecond(s, s.procs[p].pc.user.id, s.procs[p].pc.refresh / 1000)
  {
    IssuerIsKnown(cfg, s, p);
    SecondTakenIff(cfg, s, s.procs[p].pc.user, s.procs[p].pc.refresh);
  }

  lemma InsertFailsIff(
      cfg: Config, s: State, p: Pid, tx: Tx, user: User, access: Millis, refresh: Millis, store: Millis)
    requires p in s.procs && !s.procs[p].pc.Done?
    requires Sha256(SignRefresh(cfg, user.Who(), refresh)) !in s.tokenLock && (tx.InTx? ==> tx.stored == map[])
    ensures var s' := InsertStep(cfg, s, p, tx, user, access, refresh, store);
            && p in s'.procs
            && (s'.procs[p].pc == Done(if s.procs[p].request.AskRegister? then Conflict else Failed)
                <==> Sha256(SignRefresh(cfg, user.Who(), refresh)) in s.db.tokens)
  {
  }

  /** An issuance whose digest no open transaction holds is refused, as a conflict to a registration and as a server
      error to a login or refresh, exactly when the account has been issued a token in the second of its own. */
  lemma IssuanceRefusedIff(cfg: Config, s: State, p: Pid, id: UserId, hash: TokenHash)
    requires Inv(cfg, s) && p in s.procs && s.procs[p].pc.IssueInsert?
    requires Sha256(SignRefresh(cfg, s.procs[p].pc.user.Who(), s.procs[p].pc.refresh)) !in s.tokenLock
    ensures var s' := Step(cfg, s, Move(p, id, hash));
            && p in s'.procs
            && (s'.procs[p].pc == Done(if s.procs[p].request.AskRegister? then Conflict else Failed)
                <==> IssuedInSecond(s, s.procs[p].pc.user.id, s.procs[p].pc.refresh / 1000))
  {
    var pc := s.procs[p].pc;
    assert ProcessInv(cfg, s, p);
    DigestTakenIff(cfg, s, p);
    InsertFailsIff(cfg, s, p, pc.tx, pc.user, pc.access, pc.refresh, pc.store);
  }

  /** At most one account that is not soft-deleted holds an address, at every point of every schedule. */
  lemma AddressesStayUnique(cfg: Config, schedule: seq<Action>)
    requires cfg.Valid()
    ensures UniqueEmails(Exec(cfg, INITIAL, schedule).db)
  {
    ReachableInv(cfg, schedule);
  }
}
