/** Concurrent refreshes of one token: exactly one of them succeeds. */
module RefreshRace {
  import opened Options
  import opened Tokens
  import opened AuthStore
  import opened AuthHandlers
  import opened AuthMachine
  import opened AuthInvariant
  import opened AuthProtocol
  import opened MassRevocation
  import opened RefreshTransaction

  /** The refreshes of the token that race: all but those in `ended`. */
  predicate Presents(s: State, ended: set<Pid>, p: Pid, token: Token) {
    p in s.procs && p !in ended && s.procs[p].request == AskRefresh(token)
  }

  /** Of the calls outside `ended` nobody but refreshes of the token can revoke its row. */
  ghost predicate OnlyRefreshesRevoke(s: State, ended: set<Pid>, token: Token, owner: UserId) {
    forall q | q in s.procs && q !in ended ::
      MayRevoke(s.procs[q].request, owner, Sha256(token)) ==> Presents(s, ended, q, token)
  }

  /** The racing refreshes are not cut short and find the digests of their successors free; nothing else that
      could revoke the token is asked for, and it does not expire. */
  ghost predicate Calm(cfg: Config, s: State, a: Action, ended: set<Pid>, token: Token, owner: UserId) {
    match a
    case Start(_, request) => MayRevoke(request, owner, Sha256(token)) ==> request == AskRefresh(token)
    case Crash(p) => !Presents(s, ended, p, token)
    case Tick(delay) => VerifiesAsRefresh(cfg, token, s.now + delay)
    case Move(p, _, _) =>
      Presents(s, ended, p, token) && s.procs[p].pc.IssueInsert? ==>
        Sha256(SignRefresh(cfg, s.procs[p].pc.user.Who(), s.procs[p].pc.refresh)) !in s.db.tokens
  }

  ghost predicate CalmRun(cfg: Config, s: State, schedule: seq<Action>, ended: set<Pid>, token: Token, owner: UserId)
    decreases |schedule|
  {
    schedule != [] ==>
      && Calm(cfg, s, schedule[0], ended, token, owner)
      && CalmRun(cfg, Step(cfg, s, schedule[0]), schedule[1..], ended, token, owner)
  }

  /** The row is there and unrevoked, its user's account is in good standing. */
  predicate Tradable(db: Db, hash: TokenHash, owner: UserId) {
    && hash in db.tokens && db.tokens[hash].userId == owner && !db.tokens[hash].revoked
    && Live(db, owner) && db.users[owner].isActive
  }

  /** The token can be traded in, and no racing refresh of it has answered yet. */
  ghost predicate Contested(cfg: Config, s: State, ended: set<Pid>, token: Token, owner: UserId) {
    && Inv(cfg, s) && AllFinished(s, ended) && OnlyRefreshesRevoke(s, ended, token, owner)
    && VerifiesAsRefresh(cfg, token, s.now)
    && Tradable(s.db, Sha256(token), owner)
    && (forall p | Presents(s, ended, p, token) :: !s.procs[p].pc.Done?)
  }

  /** Process p is a refresh of the token that has not succeeded. */
  predicate Lost(s: State, ended: set<Pid>, p: Pid, token: Token) {
    Presents(s, ended, p, token) && (s.procs[p].pc.Done? ==> s.procs[p].pc.reply == Unauthorized)
  }

  /** Refresh w has traded the token in; the others can only be turned away. */
  ghost predicate Won(cfg: Config, s: State, ended: set<Pid>, token: Token, w: Pid) {
    && Inv(cfg, s) && AllFinished(s, ended)
    && Sha256(token) in s.db.tokens && s.db.tokens[Sha256(token)].revoked
    && Presents(s, ended, w, token) && s.procs[w].pc.Done? && s.procs[w].pc.reply.Session?
    && (forall p | Presents(s, ended, p, token) && p != w :: Lost(s, ended, p, token))
  }

  // ----- before somebody has won -----

  lemma VerifyGoesOn(cfg: Config, s: State, p: Pid, token: Token)
    requires p in s.procs && VerifiesAsRefresh(cfg, token, s.now)
    ensures VerifyStep(cfg, s, p, token) == Goto(s, p, RefreshLock(s.now))
  {
  }

  lemma LockGoesOn(s: State, p: Pid, token: Token, verify: Millis)
    requires p in s.procs && s.procs[p].pc.RefreshLock? && Joined(s.db, Sha256(token))
    ensures LockStep(s, p, token, verify).procs.Keys == s.procs.Keys
    ensures !LockStep(s, p, token, verify).procs[p].pc.Done? && LockStep(s, p, token, verify).db == s.db
  {
  }

  lemma CheckGoesOn(s: State, p: Pid, verify: Millis, row: TokenRow, user: User)
    requires p in s.procs && !row.revoked && s.now <= row.expiresAt && user.isActive
    ensures CheckStep(s, p, verify, row, user) == Goto(s, p, RefreshRevoke(InTx(verify, s.now, {}, map[]), user))
  {
  }

  lemma InsertGoesOn(cfg: Config, s: State, p: Pid, tx: Tx, user: User, access: Millis, refresh: Millis, store: Millis)
    requires p in s.procs && s.procs[p].pc == IssueInsert(tx, user, access, refresh, store)
    requires tx.InTx? && tx.stored == map[]
    requires Sha256(SignRefresh(cfg, user.Who(), refresh)) !in s.db.tokens
    ensures var s' := InsertStep(cfg, s, p, tx, user, access, refresh, store);
            s'.procs.Keys == s.procs.Keys && !s'.procs[p].pc.Done? && s'.db == s.db
  {
  }

  /** A refresh of the contested token answers at its COMMIT, not before. */
  lemma ContenderGoesOn(
      cfg: Config, s: State, ended: set<Pid>, token: Token, owner: UserId, p: Pid, id: UserId, hash: TokenHash)
    requires Contested(cfg, s, ended, token, owner) && Presents(s, ended, p, token)
    requires Calm(cfg, s, Move(p, id, hash), ended, token, owner)
    requires !s.procs[p].pc.RefreshCommit?
    ensures var s' := Advance(cfg, s, p, id, hash); p in s'.procs && !s'.procs[p].pc.Done? && s'.db == s.db
  {
    assert ProcessInv(cfg, s, p) && GoodTokenRow(cfg, s.db, Sha256(token));
    match s.procs[p].pc
    case RefreshVerify => VerifyGoesOn(cfg, s, p, token);
    case RefreshLock(verify) => LockGoesOn(s, p, token, verify);
    case RefreshCheck(verify, row, user) =>
      VerifiesUntilExpiryInstant(cfg.refreshSecret, token, s.now);
      CheckGoesOn(s, p, verify, row, user);
    case IssueInsert(tx, user, access, refresh, store) =>
      InsertGoesOn(cfg, s, p, tx, user, access, refresh, store);
    case _ =>
  }

  lemma CommitRevokes(cfg: Config, s: State, p: Pid, token: Token, tx: Tx, user: User, at: Times)
    requires p in s.procs && Sha256(token) in s.db.tokens && tx.InTx? && tx.revoked == {Sha256(token)}
    requires Sha256(token) !in tx.stored
    ensures var s' := CommitStep(cfg, s, p, token, tx, user, at);
            && Sha256(token) in s'.db.tokens && s'.db.tokens[Sha256(token)].revoked
            && p in s'.procs && s'.procs[p].pc.Done? && s'.procs[p].pc.reply.Session?
  {
  }

  lemma CommitWins(
      cfg: Config, s: State, ended: set<Pid>, token: Token, owner: UserId, p: Pid, id: UserId, hash: TokenHash)
    requires Contested(cfg, s, ended, token, owner) && Presents(s, ended, p, token) && s.procs[p].pc.RefreshCommit?
    ensures Won(cfg, Advance(cfg, s, p, id, hash), ended, token, p)
  {
    AdvanceKeeps(cfg, s, p, id, hash);
    OnlyActorMoves(cfg, s, p, id, hash);
    FinishedStay(cfg, s, Move(p, id, hash), ended);
    assert ProcessInv(cfg, s, p);
    CommitRevokes(cfg, s, p, token, s.procs[p].pc.tx, s.procs[p].pc.user, s.procs[p].pc.at);
  }

  /** Only its own deactivation changes an account. */
  lemma AccountStays(cfg: Config, s: State, q: Pid, id: UserId, hash: TokenHash, owner: UserId)
    requires Inv(cfg, s) && q in s.procs && s.procs[q].request != AskDeactivate(owner) && owner in s.db.users
    ensures var users := Advance(cfg, s, q, id, hash).db.users; owner in users && users[owner] == s.db.users[owner]
  {
    assert ProcessInv(cfg, s, q);
    var request, pc := s.procs[q].request, s.procs[q].pc;
    if !Writes(pc) {
      OthersDoNotWrite(cfg, s, q, id, hash);
    } else if pc.DeactivateWrite? || pc.DeactivateDelete? {
      assert GoodUser(s.db, request.target);
      DeactivationOfAnother(s, q, request.target, pc, owner);
    } else if !pc.RegisterInsert? {
      TokensChangeNoAccount(cfg, s, q, id, hash);
    }
  }

  lemma DeactivationOfAnother(s: State, q: Pid, target: UserId, pc: Pc, owner: UserId)
    requires q in s.procs && target != owner && owner in s.db.users
    requires target in s.db.users ==> s.db.users[target].id == target
    ensures var users := DeactivateStep(s, q, target, pc).db.users; owner in users && users[owner] == s.db.users[owner]
  {
  }

  lemma BystanderLeavesIt(
      cfg: Config, s: State, ended: set<Pid>, token: Token, owner: UserId, q: Pid, id: UserId, hash: TokenHash)
    requires Inv(cfg, s) && OnlyRefreshesRevoke(s, ended, token, owner) && Tradable(s.db, Sha256(token), owner)
    requires q in s.procs && q !in ended && !Presents(s, ended, q, token)
    ensures Tradable(Advance(cfg, s, q, id, hash).db, Sha256(token), owner)
  {
    AdvanceGrows(cfg, s, q, id, hash);
    assert ProcessInv(cfg, s, q);
    OutsiderSpares(cfg, s, q, owner, Sha256(token), id, hash);
    AccountStays(cfg, s, q, id, hash, owner);
  }

  lemma BystanderMoves(
      cfg: Config, s: State, ended: set<Pid>, token: Token, owner: UserId, q: Pid, id: UserId, hash: TokenHash)
    requires Contested(cfg, s, ended, token, owner) && q in s.procs && q !in ended && !Presents(s, ended, q, token)
    ensures Contested(cfg, Advance(cfg, s, q, id, hash), ended, token, owner)
  {
    AdvanceKeeps(cfg, s, q, id, hash);
    OnlyActorMoves(cfg, s, q, id, hash);
    FinishedStay(cfg, s, Move(q, id, hash), ended);
    BystanderLeavesIt(cfg, s, ended, token, owner, q, id, hash);
  }

  lemma ContenderMoves(
      cfg: Config, s: State, ended: set<Pid>, token: Token, owner: UserId, p: Pid, id: UserId, hash: TokenHash)
    requires Contested(cfg, s, ended, token, owner) && Presents(s, ended, p, token)
    requires Calm(cfg, s, Move(p, id, hash), ended, token, owner)
    requires !s.procs[p].pc.RefreshCommit?
    ensures Contested(cfg, Advance(cfg, s, p, id, hash), ended, token, owner)
  {
    AdvanceKeeps(cfg, s, p, id, hash);
    OnlyActorMoves(cfg, s, p, id, hash);
    FinishedStay(cfg, s, Move(p, id, hash), ended);
    ContenderGoesOn(cfg, s, ended, token, owner, p, id, hash);
  }

  /** Action a is the COMMIT of a refresh of the token. */
  predicate Commits(s: State, ended: set<Pid>, a: Action, token: Token) {
    a.Move? && Presents(s, ended, a.pid, token) && s.procs[a.pid].pc.RefreshCommit?
  }

  lemma ContestedStart(cfg: Config, s: State, ended: set<Pid>, token: Token, owner: UserId, p: Pid, request: Request)
    requires Contested(cfg, s, ended, token, owner) && Calm(cfg, s, Start(p, request), ended, token, owner)
    ensures Contested(cfg, Step(cfg, s, Start(p, request)), ended, token, owner)
  {
    FinishedStay(cfg, s, Start(p, request), ended);
    if p !in s.procs {
      StartKeeps(cfg, s, p, request);
    }
  }

  lemma ContestedCrash(cfg: Config, s: State, ended: set<Pid>, token: Token, owner: UserId, p: Pid)
    requires Contested(cfg, s, ended, token, owner) && !Presents(s, ended, p, token)
    ensures Contested(cfg, Step(cfg, s, Crash(p)), ended, token, owner)
  {
    FinishedStay(cfg, s, Crash(p), ended);
    if p in s.procs {
      FinishKeeps(cfg, s, p, Failed);
    }
  }

  lemma ContestedTick(cfg: Config, s: State, ended: set<Pid>, token: Token, owner: UserId, delay: nat)
    requires Contested(cfg, s, ended, token, owner) && VerifiesAsRefresh(cfg, token, s.now + delay)
    ensures Contested(cfg, Step(cfg, s, Tick(delay)), ended, token, owner)
  {
    TickKeeps(cfg, s, delay);
  }

  lemma ContestedMove(
      cfg: Config, s: State, ended: set<Pid>, token: Token, owner: UserId, p: Pid, id: UserId, hash: TokenHash)
    requires Contested(cfg, s, ended, token, owner) && Calm(cfg, s, Move(p, id, hash), ended, token, owner)
    requires !Commits(s, ended, Move(p, id, hash), token)
    ensures Contested(cfg, Step(cfg, s, Move(p, id, hash)), ended, token, owner)
  {
    if Presents(s, ended, p, token) {
      ContenderMoves(cfg, s, ended, token, owner, p, id, hash);
    } else if p in s.procs && p !in ended {
      BystanderMoves(cfg, s, ended, token, owner, p, id, hash);
    }
  }

  lemma ContestedStep(cfg: Config, s: State, ended: set<Pid>, token: Token, owner: UserId, a: Action)
    requires Contested(cfg, s, ended, token, owner) && Calm(cfg, s, a, ended, token, owner)
    requires !Commits(s, ended, a, token)
    ensures Contested(cfg, Step(cfg, s, a), ended, token, owner)
  {
    match a
    case Start(p, request) => ContestedStart(cfg, s, ended, token, owner, p, request);
    case Crash(p) => ContestedCrash(cfg, s, ended, token, owner, p);
    case Tick(delay) => ContestedTick(cfg, s, ended, token, owner, delay);
    case Move(p, id, hash) => ContestedMove(cfg, s, ended, token, owner, p, id, hash);
  }

  // ----- after somebody has won -----

  /** A refresh that finds the row revoked, or not at all, is turned away. */
  lemma LoserIsTurnedAway(cfg: Config, s: State, ended: set<Pid>, token: Token, p: Pid, id: UserId, hash: TokenHash)
    requires Inv(cfg, s) && Lost(s, ended, p, token)
    requires Sha256(token) in s.db.tokens && s.db.tokens[Sha256(token)].revoked
    ensures Lost(Advance(cfg, s, p, id, hash), ended, p, token)
  {
    assert ProcessInv(cfg, s, p);
    var pc := s.procs[p].pc;
    assert pc.RefreshVerify? || pc.RefreshLock? || pc.RefreshCheck? || pc.Done?;
  }

  lemma LoserStaysLost(cfg: Config, s: State, ended: set<Pid>, token: Token, owner: UserId, a: Action, p: Pid)
    requires Inv(cfg, s) && Calm(cfg, s, a, ended, token, owner) && Lost(s, ended, p, token)
    requires Sha256(token) in s.db.tokens && s.db.tokens[Sha256(token)].revoked
    ensures Lost(Step(cfg, s, a), ended, p, token)
  {
    if Actor(a) != Some(p) {
      OthersDoNotMove(cfg, s, a, p);
    } else if a.Move? {
      LoserIsTurnedAway(cfg, s, ended, token, p, a.id, a.hash);
    }
  }

  lemma NewcomerIsLost(cfg: Config, s: State, ended: set<Pid>, token: Token, a: Action, p: Pid)
    requires p !in s.procs && Presents(Step(cfg, s, a), ended, p, token)
    ensures Lost(Step(cfg, s, a), ended, p, token)
  {
    if a.Move? && a.pid in s.procs {
      OnlyActorMoves(cfg, s, a.pid, a.id, a.hash);
    }
  }

  lemma WonStep(cfg: Config, s: State, ended: set<Pid>, token: Token, owner: UserId, w: Pid, a: Action)
    requires Won(cfg, s, ended, token, w) && Calm(cfg, s, a, ended, token, owner)
    ensures Won(cfg, Step(cfg, s, a), ended, token, w)
  {
    var s' := Step(cfg, s, a);
    StepKeeps(cfg, s, a);
    StepGrows(cfg, s, a);
    FinishedStay(cfg, s, a, ended);
    DoneStays(cfg, s, a, w);
    RequestsStay(cfg, s, a);
    forall p | Presents(s', ended, p, token) && p != w ensures Lost(s', ended, p, token) {
      if p in s.procs {
        LoserStaysLost(cfg, s, ended, token, owner, a, p);
      } else {
        NewcomerIsLost(cfg, s, ended, token, a, p);
      }
    }
  }

  lemma {:induction false} WonRun(
      cfg: Config, s: State, schedule: seq<Action>, ended: set<Pid>, token: Token, owner: UserId, w: Pid)
    requires Won(cfg, s, ended, token, w) && CalmRun(cfg, s, schedule, ended, token, owner)
    ensures Won(cfg, Exec(cfg, s, schedule), ended, token, w)
    decreases |schedule|
  {
    if schedule != [] {
      WonStep(cfg, s, ended, token, owner, w, schedule[0]);
      WonRun(cfg, Step(cfg, s, schedule[0]), schedule[1..], ended, token, owner, w);
    }
  }

  lemma {:induction false} ContestedRun(
      cfg: Config, s: State, schedule: seq<Action>, ended: set<Pid>, token: Token, owner: UserId)
      returns (w: Pid)
    requires Contested(cfg, s, ended, token, owner) && CalmRun(cfg, s, schedule, ended, token, owner)
    ensures || Contested(cfg, Exec(cfg, s, schedule), ended, token, owner)
            || Won(cfg, Exec(cfg, s, schedule), ended, token, w)
    decreases |schedule|
  {
    w := 0;
    if schedule != [] {
      var a, mid := schedule[0], Step(cfg, s, schedule[0]);
      if Commits(s, ended, a, token) {
        w := a.pid;
        CommitWins(cfg, s, ended, token, owner, w, a.id, a.hash);
        WonRun(cfg, mid, schedule[1..], ended, token, owner, w);
      } else {
        ContestedStep(cfg, s, ended, token, owner, a);
        w := ContestedRun(cfg, mid, schedule[1..], ended, token, owner);
      }
    }
  }

  /** Of any number of concurrent refreshes of a token that can be traded in, whatever happened to it before, once all
      that have not answered when the race begins have answered, exactly one of them has returned tokens and every other
      was turned away: provided none was cut short or met a taken digest, no other unanswered or later call could revoke
      the token, and it did not expire meanwhile. */
  lemma ExactlyOneRefreshWins(cfg: Config, s: State, schedule: seq<Action>, token: Token, owner: UserId)
      returns (w: Pid)
    requires Inv(cfg, s) && VerifiesAsRefresh(cfg, token, s.now) && Tradable(s.db, Sha256(token), owner)
    requires OnlyRefreshesRevoke(s, Finished(s), token, owner)
    requires CalmRun(cfg, s, schedule, Finished(s), token, owner)
    requires exists p :: Presents(Exec(cfg, s, schedule), Finished(s), p, token)
    requires forall p | Presents(Exec(cfg, s, schedule), Finished(s), p, token) ::
               Exec(cfg, s, schedule).procs[p].pc.Done?
    ensures var end := Exec(cfg, s, schedule);
            && Presents(end, Finished(s), w, token) && end.procs[w].pc.reply.Session?
            && (forall p | Presents(end, Finished(s), p, token) && p != w :: end.procs[p].pc == Done(Unauthorized))
  {
    w := ContestedRun(cfg, s, schedule, Finished(s), token, owner);
  }

  // ----- such a race can be run: a refresh on its own succeeds -----

  /** Refresh p has revoked the token in its transaction, without time passing. */
  ghost predicate Signing(cfg: Config, s: State, p: Pid, token: Token, user: User) {
    var tx := InTx(s.now, s.now, {Sha256(token)}, map[]);
    && p in s.procs && s.procs[p] == Process(AskRefresh(token), IssueAccess(tx, user))
    && Sha256(SignRefresh(cfg, user.Who(), s.now)) !in s.db.tokens
    && Sha256(SignRefresh(cfg, user.Who(), s.now)) !in s.tokenLock
  }

  lemma AskForTheRow(cfg: Config, s: State, token: Token, p: Pid) returns (schedule: seq<Action>, end: State)
    requires p !in s.procs && VerifiesAsRefresh(cfg, token, s.now)
    ensures Exec(cfg, s, schedule) == end
    ensures end == s.(procs := s.procs[p := Process(AskRefresh(token), RefreshLock(s.now))])
  {
    schedule, end := Extend(cfg, s, [], s, Start(p, AskRefresh(token)));
    schedule, end := Extend(cfg, s, schedule, end, Move(p, 0, Sha256(token)));
  }

  lemma LockAndCheck(cfg: Config, s: State, token: Token, owner: UserId, p: Pid)
      returns (schedule: seq<Action>, end: State)
    requires p in s.procs && s.procs[p] == Process(AskRefresh(token), RefreshLock(s.now))
    requires Tradable(s.db, Sha256(token), owner) && s.now <= s.db.tokens[Sha256(token)].expiresAt
    requires Sha256(token) !in s.tokenLock && owner !in s.userLock
    ensures Exec(cfg, s, schedule) == end && p in end.procs && end.db == s.db && end.now == s.now
    ensures end.procs[p] == Process(AskRefresh(token), RefreshRevoke(InTx(s.now, s.now, {}, map[]), s.db.users[owner]))
    ensures end.tokenLock == s.tokenLock[Sha256(token) := p]
  {
    schedule, end := Extend(cfg, s, [], s, Move(p, 0, Sha256(token)));
    assert end.procs[p].pc == RefreshCheck(s.now, s.db.tokens[Sha256(token)], s.db.users[owner]);
    schedule, end := Extend(cfg, s, schedule, end, Move(p, 0, Sha256(token)));
  }

  lemma RevokeIt(cfg: Config, s: State, token: Token, p: Pid, user: User) returns (schedule: seq<Action>, end: State)
    requires p in s.procs
    requires s.procs[p] == Process(AskRefresh(token), RefreshRevoke(InTx(s.now, s.now, {}, map[]), user))
    requires Sha256(SignRefresh(cfg, user.Who(), s.now)) !in s.db.tokens
    requires Sha256(SignRefresh(cfg, user.Who(), s.now)) !in s.tokenLock
    ensures Exec(cfg, s, schedule) == end && Signing(cfg, end, p, token, user)
  {
    schedule, end := Extend(cfg, s, [], s, Move(p, 0, Sha256(token)));
    assert {} + {Sha256(token)} == {Sha256(token)};
  }

  lemma SignBoth(cfg: Config, s: State, token: Token, p: Pid, user: User) returns (schedule: seq<Action>, end: State)
    requires Signing(cfg, s, p, token, user)
    ensures Exec(cfg, s, schedule) == end
    ensures end == Goto(s, p, IssueInsert(s.procs[p].pc.tx, user, s.now, s.now, s.now))
  {
    schedule, end := Extend(cfg, s, [], s, Move(p, 0, Sha256(token)));
    schedule, end := Extend(cfg, s, schedule, end, Move(p, 0, Sha256(token)));
    schedule, end := Extend(cfg, s, schedule, end, Move(p, 0, Sha256(token)));
  }

  lemma StoreAndCommit(cfg: Config, s: State, token: Token, p: Pid, tx: Tx, user: User)
      returns (schedule: seq<Action>, end: State)
    requires p in s.procs && s.procs[p] == Process(AskRefresh(token), IssueInsert(tx, user, s.now, s.now, s.now))
    requires tx.InTx? && tx.stored == map[]
    requires Sha256(SignRefresh(cfg, user.Who(), s.now)) !in s.db.tokens
    requires Sha256(SignRefresh(cfg, user.Who(), s.now)) !in s.tokenLock
    ensures Exec(cfg, s, schedule) == end && RefreshedWith(end, p, token)
  {
    schedule, end := Extend(cfg, s, [], s, Move(p, 0, Sha256(token)));
    assert end.procs[p].pc.RefreshCommit? && end.procs[p].request == AskRefresh(token);
    schedule, end := Extend(cfg, s, schedule, end, Move(p, 0, Sha256(token)));
  }

  lemma ExecParts(cfg: Config, s: State, a: seq<Action>, mid: State, b: seq<Action>, end: State)
      returns (ab: seq<Action>)
    requires Exec(cfg, s, a) == mid && Exec(cfg, mid, b) == end
    ensures Exec(cfg, s, ab) == end
  {
    ab := a + b;
    ExecAppend(cfg, s, a, b);
  }

  /** Whenever a token can be traded in, its rows are free and the digest of its successor is not taken, a refresh
      run without interruption succeeds. */
  lemma LoneRefreshSucceeds(cfg: Config, s: State, token: Token, owner: UserId, p: Pid)
      returns (schedule: seq<Action>)
    requires Inv(cfg, s) && VerifiesAsRefresh(cfg, token, s.now) && Tradable(s.db, Sha256(token), owner)
    requires p !in s.procs
    requires Sha256(token) !in s.tokenLock && owner !in s.userLock
    requires Sha256(SignRefresh(cfg, s.db.users[owner].Who(), s.now)) !in s.db.tokens
    requires Sha256(SignRefresh(cfg, s.db.users[owner].Who(), s.now)) !in s.tokenLock
    ensures var end := Exec(cfg, s, schedule); RefreshedWith(end, p, token)
  {
    var user, row := s.db.users[owner], s.db.tokens[Sha256(token)];
    assert GoodTokenRow(cfg, s.db, Sha256(token));
    VerifiesUntilExpiryInstant(cfg.refreshSecret, token, s.now);
    var a, s1 := AskForTheRow(cfg, s, token, p);
    var b, s2 := LockAndCheck(cfg, s1, token, owner, p);
    assert Sha256(SignRefresh(cfg, user.Who(), s.now)) != Sha256(token);
    var c, s3 := RevokeIt(cfg, s2, token, p, user);
    var d, s4 := SignBoth(cfg, s3, token, p, user);
    var e, s5 := StoreAndCommit(cfg, s4, token, p, s3.procs[p].pc.tx, user);
    schedule := ExecParts(cfg, s, a, s1, b, s2);
    schedule := ExecParts(cfg, s, schedule, s2, c, s3);
    schedule := ExecParts(cfg, s, schedule, s3, d, s4);
    schedule := ExecParts(cfg, s, schedule, s4, e, s5);
  }

  /** A refresh that fails after its checks costs nothing: while the token verifies and the digest of its successor is
      not taken, the same token presented again, on its own, is traded in. */
  lemma FailedRefreshCanBeRetried(cfg: Config, s: State, a: Action, p: Pid, token: Token, again: Pid)
      returns (schedule: seq<Action>)
    requires Inv(cfg, s) && Actor(a) == Some(p)
    requires p in s.procs && s.procs[p].request == AskRefresh(token) && PastChecks(s.procs[p].pc)
    requires Failing(Step(cfg, s, a), p)
    requires again !in s.procs && VerifiesAsRefresh(cfg, token, s.now)
    requires Sha256(SignRefresh(cfg, s.procs[p].pc.user.Who(), s.now)) !in s.db.tokens
    requires Sha256(SignRefresh(cfg, s.procs[p].pc.user.Who(), s.now)) !in s.tokenLock
    ensures RefreshedWith(Exec(cfg, Step(cfg, s, a), schedule), again, token)
  {
    var user, tx := PastChecksPassed(cfg, s, p, token);
    StepKeeps(cfg, s, a);
    FailureOnlyReleases(cfg, s, a, p);
    schedule := LoneRefreshSucceeds(cfg, Finish(s, p, Failed), token, user.id, again);
  }
}
