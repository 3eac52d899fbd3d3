/** The transaction of a refresh: what it writes is its own until it commits, and is gone when it fails. */
module RefreshTransaction {
  import opened Options
  import opened Tokens
  import opened AuthStore
  import opened AuthHandlers
  import opened AuthMachine
  import opened AuthInvariant
  import opened AuthProtocol

  /** The tables as process p sees them: with the writes of its open transaction. */
  function ViewOf(s: State, p: Pid): Db
    requires p in s.procs
  {
    match s.procs[p].pc
    case RefreshRevoke(tx, _) => OwnView(s.db, tx)
    case IssueAccess(tx, _) => OwnView(s.db, tx)
    case IssueRefresh(tx, _, _) => OwnView(s.db, tx)
    case IssueStamp(tx, _, _, _) => OwnView(s.db, tx)
    case IssueInsert(tx, _, _, _, _) => OwnView(s.db, tx)
    case RefreshCommit(tx, _, _) => OwnView(s.db, tx)
    case _ => s.db
  }

  /** The refresh has found the token good and holds both rows. */
  predicate PastChecks(pc: Pc) {
    pc.RefreshRevoke? || AfterRevoke(pc)
  }

  predicate AfterRevoke(pc: Pc) {
    pc.IssueAccess? || pc.IssueRefresh? || pc.IssueStamp? || pc.IssueInsert? || pc.RefreshCommit?
  }

  /** No action of the call. */
  predicate Pauses(schedule: seq<Action>, p: Pid) {
    forall a | a in schedule :: Actor(a) != Some(p)
  }

  lemma {:induction false} PausedStays(cfg: Config, s: State, schedule: seq<Action>, p: Pid)
    requires p in s.procs && Pauses(schedule, p)
    ensures p in Exec(cfg, s, schedule).procs && Exec(cfg, s, schedule).procs[p] == s.procs[p]
    decreases |schedule|
  {
    if schedule != [] {
      assert schedule[0] in schedule;
      OthersDoNotMove(cfg, s, schedule[0], p);
      PausedStays(cfg, Step(cfg, s, schedule[0]), schedule[1..], p);
    }
  }

  /** The refresh has read its two rows and holds them. */
  predicate HasRead(pc: Pc) {
    pc.RefreshCheck? || PastChecks(pc)
  }

  lemma ReadRowsAreCurrent(cfg: Config, s: State, p: Pid, token: Token)
    requires p in s.procs && ProcessInv(cfg, s, p)
    requires s.procs[p].request == AskRefresh(token) && HasRead(s.procs[p].pc)
    ensures var user := s.procs[p].pc.user;
            && user.id in s.db.users && s.db.users[user.id] == user
            && Sha256(token) in s.db.tokens && s.db.tokens[Sha256(token)].userId == user.id
            && (if s.procs[p].pc.RefreshCheck? then s.db.tokens[Sha256(token)] == s.procs[p].pc.row
                else !s.db.tokens[Sha256(token)].revoked)
  {
  }

  /** The two row locks: from the SELECT ... FOR UPDATE to its end, whatever the other calls do, however long they
      interleave, the token row and the user row stay as the refresh has read them. */
  lemma LockedRowsStay(cfg: Config, s: State, schedule: seq<Action>, p: Pid, token: Token)
    requires Inv(cfg, s) && p in s.procs && s.procs[p].request == AskRefresh(token) && HasRead(s.procs[p].pc)
    requires Pauses(schedule, p)
    ensures var end := Exec(cfg, s, schedule);
            var user := s.procs[p].pc.user;
            && user.id in end.db.users && end.db.users[user.id] == user
            && Sha256(token) in s.db.tokens && Sha256(token) in end.db.tokens
            && end.db.tokens[Sha256(token)] == s.db.tokens[Sha256(token)]
  {
    ReadRowsAreCurrent(cfg, s, p, token);
    PausedStays(cfg, s, schedule, p);
    ScheduleKeeps(cfg, s, schedule);
    NothingIsUndone(cfg, s, schedule);
    ReadRowsAreCurrent(cfg, Exec(cfg, s, schedule), p, token);
  }

  /** Between its UPDATE and its COMMIT a refresh sees the presented token revoked, and at the COMMIT also the
      successor stored, while everybody else sees the one unrevoked and the other absent. */
  lemma OnlyTheTransactionSeesItsWrites(cfg: Config, s: State, p: Pid, token: Token)
    requires Inv(cfg, s) && p in s.procs && s.procs[p].request == AskRefresh(token) && AfterRevoke(s.procs[p].pc)
    ensures var used := Sha256(token);
            && used in s.db.tokens && !s.db.tokens[used].revoked
            && used in ViewOf(s, p).tokens && ViewOf(s, p).tokens[used].revoked
    ensures s.procs[p].pc.RefreshCommit? ==>
              var next := Sha256(SignRefresh(cfg, s.procs[p].pc.user.Who(), s.procs[p].pc.at.refresh));
              && next !in s.db.tokens
              && next in ViewOf(s, p).tokens && !ViewOf(s, p).tokens[next].revoked
  {
    assert ProcessInv(cfg, s, p);
  }

  /** Of all that can happen to a refresh only its COMMIT changes the tables others see, and it makes them exactly
      what the transaction saw. */
  lemma OnlyCommitPublishes(cfg: Config, s: State, a: Action, p: Pid)
    requires Inv(cfg, s) && Actor(a) == Some(p) && p in s.procs && s.procs[p].request.AskRefresh?
    ensures Step(cfg, s, a).db == if a.Move? && s.procs[p].pc.RefreshCommit? then ViewOf(s, p) else s.db
  {
    assert ProcessInv(cfg, s, p);
    if a.Move? && !Writes(s.procs[p].pc) {
      OthersDoNotWrite(cfg, s, p, a.id, a.hash);
    }
  }

  /** The call ends in this state, without tokens. */
  predicate Failing(s: State, p: Pid) {
    p in s.procs && s.procs[p].pc.Done? && !s.procs[p].pc.reply.Session?
  }

  lemma InsertOnlyReleases(
      cfg: Config, s: State, p: Pid, tx: Tx, user: User, access: Millis, refresh: Millis, store: Millis)
    requires p in s.procs && s.procs[p].request.AskRefresh? && !s.procs[p].pc.Done?
    requires Failing(InsertStep(cfg, s, p, tx, user, access, refresh, store), p)
    ensures InsertStep(cfg, s, p, tx, user, access, refresh, store) == Finish(s, p, Failed)
  {
  }

  lemma CommitSucceeds(cfg: Config, s: State, p: Pid, token: Token, tx: Tx, user: User, at: Times)
    requires p in s.procs
    ensures !Failing(CommitStep(cfg, s, p, token, tx, user, at), p)
  {
  }

  lemma FailureOnlyReleases(cfg: Config, s: State, a: Action, p: Pid)
    requires Actor(a) == Some(p) && p in s.procs && s.procs[p].request.AskRefresh? && PastChecks(s.procs[p].pc)
    requires Failing(Step(cfg, s, a), p)
    ensures Step(cfg, s, a) == Finish(s, p, Failed)
  {
    if a.Move? {
      match s.procs[p].pc
      case IssueInsert(tx, user, access, refresh, store) =>
        InsertOnlyReleases(cfg, s, p, tx, user, access, refresh, store);
      case RefreshCommit(tx, user, at) =>
        CommitSucceeds(cfg, s, p, s.procs[p].request.token, tx, user, at);
      case _ =>
    }
  }

  lemma PassedIsRefreshable(cfg: Config, s: State, p: Pid, token: Token, user: User, tx: Tx, at: Times)
    requires DbInv(cfg, s.db) && Passed(cfg, s, p, token, user, tx)
    requires VerifiesAsRefresh(cfg, token, at.verify) && at.check <= s.db.tokens[Sha256(token)].expiresAt
    ensures AuthHandlers.Refresh(cfg, s.db, token, at).reply.Session?
            <==> Sha256(SignRefresh(cfg, user.Who(), at.refresh)) !in s.db.tokens
  {
    RefreshAllOrNothing(cfg, s.db, token, at);
  }

  lemma PastChecksPassed(cfg: Config, s: State, p: Pid, token: Token) returns (user: User, tx: Tx)
    requires p in s.procs && ProcessInv(cfg, s, p)
    requires s.procs[p].request == AskRefresh(token) && PastChecks(s.procs[p].pc)
    ensures Passed(cfg, s, p, token, user, tx) && user == s.procs[p].pc.user
  {
    user, tx := s.procs[p].pc.user, s.procs[p].pc.tx;
  }

  /** A refresh that fails after its checks, by a crash or at the unique digest index, takes its revocation back and
      gives both rows free: the token can be presented again, with success exactly when the digest of its successor
      is not taken then. */
  lemma FailureRollsBack(cfg: Config, s: State, a: Action, p: Pid, token: Token, at: Times)
    requires Inv(cfg, s) && Actor(a) == Some(p)
    requires p in s.procs && s.procs[p].request == AskRefresh(token) && PastChecks(s.procs[p].pc)
    requires Failing(Step(cfg, s, a), p)
    requires VerifiesAsRefresh(cfg, token, at.verify)
    requires Sha256(token) in s.db.tokens && at.check <= s.db.tokens[Sha256(token)].expiresAt
    ensures var s' := Step(cfg, s, a);
            var owner := s.db.tokens[Sha256(token)].userId;
            && s'.db == s.db
            && Sha256(token) !in s'.tokenLock && owner !in s'.userLock && owner in s.db.users
            && (AuthHandlers.Refresh(cfg, s'.db, token, at).reply.Session?
                <==> Sha256(SignRefresh(cfg, s.db.users[owner].Who(), at.refresh)) !in s'.db.tokens)
  {
    var user, tx := PastChecksPassed(cfg, s, p, token);
    FailureOnlyReleases(cfg, s, a, p);
    PassedIsRefreshable(cfg, s, p, token, user, tx, at);
  }

  // ----- a call leaves its one entry in the history exactly when it returns tokens -----

  /** The call that entered e has returned its tokens. */
  ghost predicate Returned(s: State, e: Event) {
    e.Issued? ==>
      && e.pid in s.procs && s.procs[e.pid].pc.Done?
      && s.procs[e.pid].pc.reply.Session? && s.procs[e.pid].pc.reply.tokens == e.tokens
  }

  ghost predicate Accounted(s: State) {
    forall i: nat | i < |s.log| :: Returned(s, s.log[i])
  }

  lemma AccountedStep(cfg: Config, s: State, a: Action)
    requires Inv(cfg, s) && Accounted(s)
    ensures Accounted(Step(cfg, s, a))
  {
    var s' := Step(cfg, s, a);
    StepGrows(cfg, s, a);
    forall i: nat | i < |s'.log| ensures Returned(s', s'.log[i]) {
      if i < |s.log| {
        assert Returned(s, s.log[i]);
        if s.log[i].Issued? {
          DoneStays(cfg, s, a, s.log[i].pid);
        }
      } else if s'.log[i].Issued? {
        NewEntryOfStep(cfg, s, a, i);
      }
    }
  }

  lemma {:induction false} AccountedRun(cfg: Config, s: State, schedule: seq<Action>)
    requires Inv(cfg, s) && Accounted(s)
    ensures Accounted(Exec(cfg, s, schedule))
    decreases |schedule|
  {
    if schedule != [] {
      StepKeeps(cfg, s, schedule[0]);
      AccountedStep(cfg, s, schedule[0]);
      AccountedRun(cfg, Step(cfg, s, schedule[0]), schedule[1..]);
    }
  }

  ghost predicate EnteredBy(s: State, p: Pid, i: nat) {
    i < |s.log| && s.log[i].Issued? && s.log[i].pid == p
  }

  /** All or nothing over whole runs: a call has stored a refresh token, and only one, exactly when it has returned
      it. Whatever fails, at whatever statement, has stored nothing. */
  lemma StoredIffReturned(cfg: Config, schedule: seq<Action>, p: Pid)
    requires cfg.Valid() && p in Exec(cfg, INITIAL, schedule).procs
    ensures var s := Exec(cfg, INITIAL, schedule);
            && ((exists i: nat :: EnteredBy(s, p, i)) <==> s.procs[p].pc.Done? && s.procs[p].pc.reply.Session?)
            && (forall i: nat, j: nat | EnteredBy(s, p, i) && EnteredBy(s, p, j) :: i == j)
  {
    var s := Exec(cfg, INITIAL, schedule);
    ReachableInv(cfg, schedule);
    AccountedRun(cfg, INITIAL, schedule);
    assert ProcessInv(cfg, s, p);
    if s.procs[p].pc.Done? && s.procs[p].pc.reply.Session? {
      var i: nat :| SessionLogged(s, p, s.procs[p].pc.reply, i);
      assert EnteredBy(s, p, i);
    }
    forall i: nat | EnteredBy(s, p, i)
      ensures s.procs[p].pc.Done? && s.procs[p].pc.reply.Session?
      ensures s.log[i].tokens == s.procs[p].pc.reply.tokens
    {
      assert Returned(s, s.log[i]);
    }
    forall i: nat, j: nat | EnteredBy(s, p, i) && EnteredBy(s, p, j) ensures i == j {
      assert GoodEntry(cfg, s, i) && GoodEntry(cfg, s, j);
    }
  }
}
