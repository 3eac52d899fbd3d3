/** Concurrent registrations of one address: exactly one gets it, and when that one is told so. */
module Registration {
  import opened Options
  import opened Emails
  import opened Tokens
  import opened AuthStore
  import opened AuthHandlers
  import opened AuthMachine
  import opened AuthInvariant
  import opened AuthProtocol

  predicate RegistersAs(request: Request, email: string) {
    request.AskRegister? && Normalize(request.email) == email
  }

  /** Registrations of the address that have run their INSERT: they have nothing left to win or lose. */
  function PastInsert(s: State, email: string): set<Pid> {
    set p | p in s.procs && RegistersAs(s.procs[p].request, email) && Inserted(s.procs[p].pc)
  }

  predicate Inserted(pc: Pc) {
    !pc.RegisterFind? && !pc.RegisterInsert?
  }

  ghost predicate AllPast(s: State, past: set<Pid>) {
    forall p | p in past :: p in s.procs && s.procs[p].request.AskRegister? && Inserted(s.procs[p].pc)
  }

  /** The registrations of the address that race: all but those in `past`. */
  predicate Competes(s: State, email: string, past: set<Pid>, p: Pid) {
    p in s.procs && p !in past && RegistersAs(s.procs[p].request, email)
  }

  /** The racing registrations are not cut short and draw ids that are not in use, and the account that
      holds the address is not removed. Everything else may happen, in any order. */
  ghost predicate Fair(s: State, a: Action, email: string, past: set<Pid>) {
    match a
    case Crash(p) => !Competes(s, email, past, p)
    case Move(p, id, _) =>
      p in s.procs ==>
        && (Competes(s, email, past, p) && s.procs[p].pc.RegisterInsert? ==> id !in s.db.users)
        && (s.procs[p].request.AskDeactivate? && s.procs[p].pc.DeactivateDelete? ==>
              !HoldsEmail(s.db, s.procs[p].request.target, email))
    case _ => true
  }

  ghost predicate FairRun(cfg: Config, s: State, schedule: seq<Action>, email: string, past: set<Pid>)
    decreases |schedule|
  {
    schedule != [] ==>
      && Fair(s, schedule[0], email, past)
      && FairRun(cfg, Step(cfg, s, schedule[0]), schedule[1..], email, past)
  }

  ghost predicate Taken(db: Db, email: string) {
    exists id :: HoldsEmail(db, id, email)
  }

  /** Nobody has the address yet: every competitor is still before its INSERT. */
  ghost predicate Open(cfg: Config, s: State, email: string, past: set<Pid>) {
    && Inv(cfg, s) && AllPast(s, past) && !Taken(s.db, email)
    && (forall p | Competes(s, email, past, p) :: s.procs[p].pc.RegisterFind? || s.procs[p].pc.RegisterInsert?)
  }

  /** The owner is issuing tokens for its account, or has answered with a session of it or a conflict. */
  ghost predicate Owning(s: State, w: Pid, account: UserId)
    requires w in s.procs
  {
    match s.procs[w].pc
    case IssueAccess(_, user) => user.id == account
    case IssueRefresh(_, user, _) => user.id == account
    case IssueStamp(_, user, _, _) => user.id == account
    case IssueInsert(_, user, _, _, _) => user.id == account
    case Done(reply) => reply == Conflict || (reply.Session? && reply.user.id == account)
    case _ => false
  }

  predicate Losing(pc: Pc) {
    pc.RegisterFind? || pc.RegisterInsert? || pc == Done(Conflict)
  }

  /** The address went to the account that competitor w has created; everyone else can only report a conflict. */
  ghost predicate Decided(cfg: Config, s: State, email: string, past: set<Pid>, w: Pid, account: UserId) {
    && Inv(cfg, s) && AllPast(s, past)
    && HoldsEmail(s.db, account, email)
    && Competes(s, email, past, w) && Owning(s, w, account)
    && (forall p | Competes(s, email, past, p) && p != w :: Losing(s.procs[p].pc))
  }

  // ----- what a statement does to the accounts -----

  /** Statements that neither add an account nor remove one. */
  predicate LeavesAccounts(pc: Pc) {
    !pc.RegisterInsert? && !pc.DeactivateDelete?
  }

  ghost predicate SameHolders(db: Db, db': Db) {
    && db'.users.Keys == db.users.Keys
    && (forall i | i in db.users ::
          db'.users[i].email == db.users[i].email && db'.users[i].deleted == db.users[i].deleted)
  }

  lemma SwitchOffLeavesAccounts(s: State, p: Pid, target: UserId)
    requires p in s.procs && (target in s.db.users ==> s.db.users[target].id == target)
    ensures SameHolders(s.db, DeactivateStep(s, p, target, DeactivateWrite).db)
  {
  }

  lemma MostStatementsLeaveAccounts(cfg: Config, s: State, p: Pid, id: UserId, hash: TokenHash)
    requires Inv(cfg, s) && p in s.procs && LeavesAccounts(s.procs[p].pc)
    ensures SameHolders(s.db, Advance(cfg, s, p, id, hash).db)
  {
    var pc := s.procs[p].pc;
    if !Writes(pc) {
      OthersDoNotWrite(cfg, s, p, id, hash);
    } else if pc.DeactivateWrite? {
      assert ProcessInv(cfg, s, p) && GoodUser(s.db, s.procs[p].request.target);
      SwitchOffLeavesAccounts(s, p, s.procs[p].request.target);
    } else {
      TokensChangeNoAccount(cfg, s, p, id, hash);
    }
  }

  /** An address that is free stays free, unless a registration of it inserts its account. */
  lemma FreeUntilRegistered(cfg: Config, s: State, email: string, past: set<Pid>, p: Pid, id: UserId, hash: TokenHash)
    requires Inv(cfg, s) && p in s.procs && !Taken(s.db, email) && AllPast(s, past)
    requires Competes(s, email, past, p) ==> !s.procs[p].pc.RegisterInsert?
    ensures !Taken(Advance(cfg, s, p, id, hash).db, email)
  {
    var db' := Advance(cfg, s, p, id, hash).db;
    assert ProcessInv(cfg, s, p);
    if LeavesAccounts(s.procs[p].pc) {
      MostStatementsLeaveAccounts(cfg, s, p, id, hash);
    } else {
      AdvanceGrows(cfg, s, p, id, hash);
      NewAccount(cfg, s, p, id, hash);
    }
    forall i ensures !HoldsEmail(db', i, email) {
      assert !HoldsEmail(s.db, i, email);
    }
  }

  /** A row that was not there before is the account a registration has inserted. */
  lemma NewAccount(cfg: Config, s: State, p: Pid, id: UserId, hash: TokenHash)
    requires Inv(cfg, s) && p in s.procs && !LeavesAccounts(s.procs[p].pc)
    ensures forall i | i in Advance(cfg, s, p, id, hash).db.users && i !in s.db.users ::
              && s.procs[p].pc.RegisterInsert? && s.procs[p].request.AskRegister?
              && Advance(cfg, s, p, id, hash).db.users[i].email == Normalize(s.procs[p].request.email)
  {
    assert ProcessInv(cfg, s, p);
    if s.procs[p].pc.DeactivateDelete? {
      assert GoodUser(s.db, s.procs[p].request.target);
    }
  }

  lemma RegisterKeepsHolder(s: State, p: Pid, email: string, hashed: string, id: UserId, account: UserId, held: string)
    requires p in s.procs && HoldsEmail(s.db, account, held)
    ensures HoldsEmail(RegisterStep(s, p, email, hashed, RegisterInsert, id).db, account, held)
  {
  }

  /** The account that holds an address keeps it, unless it is removed. */
  lemma HolderStays(
      cfg: Config, s: State, email: string, past: set<Pid>, p: Pid, id: UserId, hash: TokenHash, account: UserId)
    requires Inv(cfg, s) && p in s.procs && HoldsEmail(s.db, account, email) && Fair(s, Move(p, id, hash), email, past)
    ensures HoldsEmail(Advance(cfg, s, p, id, hash).db, account, email)
  {
    assert ProcessInv(cfg, s, p);
    var request := s.procs[p].request;
    if LeavesAccounts(s.procs[p].pc) {
      MostStatementsLeaveAccounts(cfg, s, p, id, hash);
    } else if s.procs[p].pc.RegisterInsert? {
      RegisterKeepsHolder(s, p, request.email, request.hashed, id, account, email);
    } else {
      assert GoodUser(s.db, request.target);
    }
  }

  lemma InsertStaysPast(
      cfg: Config, s: State, p: Pid, tx: Tx, user: User, access: Millis, refresh: Millis, store: Millis)
    requires p in s.procs && Inserted(s.procs[p].pc)
    ensures var s' := InsertStep(cfg, s, p, tx, user, access, refresh, store); p in s'.procs && Inserted(s'.procs[p].pc)
  {
  }

  lemma PastMoves(cfg: Config, s: State, p: Pid, id: UserId, hash: TokenHash)
    requires p in s.procs && ProcessInv(cfg, s, p) && s.procs[p].request.AskRegister? && Inserted(s.procs[p].pc)
    ensures p in Advance(cfg, s, p, id, hash).procs && Inserted(Advance(cfg, s, p, id, hash).procs[p].pc)
  {
    var pc := s.procs[p].pc;
    assert pc.IssueAccess? || pc.IssueRefresh? || pc.IssueStamp? || pc.IssueInsert? || pc.Done?;
    if pc.IssueInsert? {
      InsertStaysPast(cfg, s, p, pc.tx, pc.user, pc.access, pc.refresh, pc.store);
    }
  }

  /** Whoever has run its INSERT has it behind for good. */
  lemma PastStays(cfg: Config, s: State, a: Action, past: set<Pid>)
    requires Inv(cfg, s) && AllPast(s, past)
    ensures AllPast(Step(cfg, s, a), past)
  {
    forall p | p in past
      ensures p in Step(cfg, s, a).procs
      ensures Step(cfg, s, a).procs[p].request.AskRegister? && Inserted(Step(cfg, s, a).procs[p].pc)
    {
      if Actor(a) != Some(p) {
        OthersDoNotMove(cfg, s, a, p);
      } else if a.Move? {
        OnlyActorMoves(cfg, s, p, a.id, a.hash);
        PastMoves(cfg, s, p, a.id, a.hash);
      }
    }
  }

  // ----- the race, step by step -----

  lemma OpenBystander(cfg: Config, s: State, email: string, past: set<Pid>, p: Pid, id: UserId, hash: TokenHash)
    requires Open(cfg, s, email, past) && p in s.procs && !Competes(s, email, past, p)
    ensures Open(cfg, Advance(cfg, s, p, id, hash), email, past)
  {
    AdvanceKeeps(cfg, s, p, id, hash);
    OnlyActorMoves(cfg, s, p, id, hash);
    PastStays(cfg, s, Move(p, id, hash), past);
    FreeUntilRegistered(cfg, s, email, past, p, id, hash);
  }

  lemma OpenCompetitor(cfg: Config, s: State, email: string, past: set<Pid>, p: Pid, id: UserId, hash: TokenHash)
    requires Open(cfg, s, email, past) && Competes(s, email, past, p)
    requires s.procs[p].pc.RegisterInsert? ==> id !in s.db.users
    ensures var s' := Advance(cfg, s, p, id, hash);
            if s.procs[p].pc.RegisterInsert? then Decided(cfg, s', email, past, p, id) && s'.procs[p].pc.IssueAccess?
            else Open(cfg, s', email, past)
  {
    var s' := Advance(cfg, s, p, id, hash);
    AdvanceKeeps(cfg, s, p, id, hash);
    OnlyActorMoves(cfg, s, p, id, hash);
    PastStays(cfg, s, Move(p, id, hash), past);
    var request := s.procs[p].request;
    if s.procs[p].pc.RegisterInsert? {
      var user := NewUser(id, email, request.hashed);
      assert forall i :: !HoldsEmail(s.db, i, user.email);
      assert s' == Goto(s.(db := InsertUser(s.db, user).value), p, IssueAccess(NoTx, user));
      assert HoldsEmail(s'.db, id, email);
    } else {
      assert FindByEmail(s.db, email) == None;
      assert s' == Goto(s, p, RegisterInsert);
    }
  }

  lemma LoserStaysLosing(
      cfg: Config, s: State, email: string, past: set<Pid>, p: Pid, account: UserId, id: UserId, hash: TokenHash)
    requires Inv(cfg, s) && Competes(s, email, past, p) && Losing(s.procs[p].pc) && HoldsEmail(s.db, account, email)
    ensures p in Advance(cfg, s, p, id, hash).procs && Losing(Advance(cfg, s, p, id, hash).procs[p].pc)
  {
    FindByEmailIsTheHolder(s.db, account, email);
  }

  lemma OwnerInserts(
      cfg: Config, s: State, w: Pid, tx: Tx, user: User, access: Millis, refresh: Millis, store: Millis, account: UserId)
    requires w in s.procs && s.procs[w].pc == IssueInsert(tx, user, access, refresh, store) && user.id == account
    requires s.procs[w].request.AskRegister? && tx == NoTx
    ensures Owning(InsertStep(cfg, s, w, tx, user, access, refresh, store), w, account)
  {
  }

  lemma OwnerStaysOwner(cfg: Config, s: State, w: Pid, account: UserId, id: UserId, hash: TokenHash)
    requires Inv(cfg, s) && w in s.procs && s.procs[w].request.AskRegister? && Owning(s, w, account)
    ensures w in Advance(cfg, s, w, id, hash).procs && Owning(Advance(cfg, s, w, id, hash), w, account)
  {
    assert ProcessInv(cfg, s, w);
    match s.procs[w].pc
    case IssueInsert(tx, user, access, refresh, store) =>
      OwnerInserts(cfg, s, w, tx, user, access, refresh, store, account);
    case _ =>
  }

  lemma DecidedMove(
      cfg: Config, s: State, email: string, past: set<Pid>, w: Pid, account: UserId, p: Pid, id: UserId, hash: TokenHash)
    requires Decided(cfg, s, email, past, w, account) && p in s.procs && Fair(s, Move(p, id, hash), email, past)
    ensures Decided(cfg, Advance(cfg, s, p, id, hash), email, past, w, account)
  {
    AdvanceKeeps(cfg, s, p, id, hash);
    OnlyActorMoves(cfg, s, p, id, hash);
    PastStays(cfg, s, Move(p, id, hash), past);
    HolderStays(cfg, s, email, past, p, id, hash, account);
    if p == w {
      OwnerStaysOwner(cfg, s, w, account, id, hash);
    } else if Competes(s, email, past, p) {
      LoserStaysLosing(cfg, s, email, past, p, account, id, hash);
    }
  }

  lemma DecidedStep(cfg: Config, s: State, email: string, past: set<Pid>, w: Pid, account: UserId, a: Action)
    requires Decided(cfg, s, email, past, w, account) && Fair(s, a, email, past)
    ensures Decided(cfg, Step(cfg, s, a), email, past, w, account)
  {
    StepKeeps(cfg, s, a);
    PastStays(cfg, s, a, past);
    match a
    case Move(p, id, hash) =>
      if p in s.procs {
        DecidedMove(cfg, s, email, past, w, account, p, id, hash);
      }
    case _ =>
  }

  lemma OpenStep(cfg: Config, s: State, email: string, past: set<Pid>, a: Action)
    requires Open(cfg, s, email, past) && Fair(s, a, email, past)
    requires !(a.Move? && Competes(s, email, past, a.pid) && s.procs[a.pid].pc.RegisterInsert?)
    ensures Open(cfg, Step(cfg, s, a), email, past)
  {
    StepKeeps(cfg, s, a);
    PastStays(cfg, s, a, past);
    match a
    case Move(p, id, hash) =>
      if Competes(s, email, past, p) {
        OpenCompetitor(cfg, s, email, past, p, id, hash);
      } else if p in s.procs {
        OpenBystander(cfg, s, email, past, p, id, hash);
      }
    case _ =>
  }

  // ----- the owner's own INSERT -----

  /** Action a is the owner's INSERT and answers `reply`: a conflict exactly when its account has been issued a token
      in the same second. */
  ghost predicate OwnerAnswers(cfg: Config, s: State, a: Action, w: Pid, account: UserId, reply: Reply) {
    && w in s.procs && s.procs[w].pc.IssueInsert? && s.procs[w].pc.user.id == account
    && a.Move? && a.pid == w
    && w in Step(cfg, s, a).procs && Step(cfg, s, a).procs[w].pc == Done(reply)
    && (reply == Conflict <==> IssuedInSecond(s, account, s.procs[w].pc.refresh / 1000))
  }

  lemma OnlyInsertEnds(cfg: Config, s: State, w: Pid, account: UserId, id: UserId, hash: TokenHash)
    requires w in s.procs && Owning(s, w, account) && !s.procs[w].pc.Done?
    requires w in Advance(cfg, s, w, id, hash).procs && Advance(cfg, s, w, id, hash).procs[w].pc.Done?
    ensures s.procs[w].pc.IssueInsert?
  {
  }

  lemma InsertConflictsIff(
      cfg: Config, s: State, w: Pid, user: User, access: Millis, refresh: Millis, store: Millis)
    requires w in s.procs && s.procs[w].request.AskRegister? && !s.procs[w].pc.Done?
    requires InsertStep(cfg, s, w, NoTx, user, access, refresh, store).procs[w].pc.Done?
    ensures InsertStep(cfg, s, w, NoTx, user, access, refresh, store).procs[w].pc.reply == Conflict
            <==> Sha256(SignRefresh(cfg, user.Who(), refresh)) in s.db.tokens
  {
  }

  /** The owner ends only at its INSERT. */
  lemma OwnerEnds(cfg: Config, s: State, email: string, past: set<Pid>, w: Pid, account: UserId, a: Action)
    requires Decided(cfg, s, email, past, w, account) && !s.procs[w].pc.Done? && Fair(s, a, email, past)
    requires w in Step(cfg, s, a).procs && Step(cfg, s, a).procs[w].pc.Done?
    ensures OwnerAnswers(cfg, s, a, w, account, Step(cfg, s, a).procs[w].pc.reply)
  {
    if Actor(a) != Some(w) {
      OthersDoNotMove(cfg, s, a, w);
    } else if a.Move? {
      OnlyInsertEnds(cfg, s, w, account, a.id, a.hash);
      assert ProcessInv(cfg, s, w);
      var pc := s.procs[w].pc;
      DigestTakenIff(cfg, s, w);
      InsertConflictsIff(cfg, s, w, pc.user, pc.access, pc.refresh, pc.store);
    }
  }

  lemma {:induction false} DoneForGood(cfg: Config, s: State, schedule: seq<Action>, p: Pid)
    requires p in s.procs && s.procs[p].pc.Done?
    ensures p in Exec(cfg, s, schedule).procs && Exec(cfg, s, schedule).procs[p] == s.procs[p]
    decreases |schedule|
  {
    if schedule != [] {
      DoneStays(cfg, s, schedule[0], p);
      DoneForGood(cfg, Step(cfg, s, schedule[0]), schedule[1..], p);
    }
  }

  /** Once decided it stays decided; and if the owner has answered in the end, some action k was its INSERT. */
  lemma {:induction false} DecidedRun(
      cfg: Config, s: State, email: string, past: set<Pid>, w: Pid, account: UserId, schedule: seq<Action>)
      returns (k: nat)
    requires Decided(cfg, s, email, past, w, account) && !s.procs[w].pc.Done? && FairRun(cfg, s, schedule, email, past)
    ensures Decided(cfg, Exec(cfg, s, schedule), email, past, w, account)
    ensures var end := Exec(cfg, s, schedule);
            end.procs[w].pc.Done? ==>
              && k < |schedule|
              && OwnerAnswers(cfg, Exec(cfg, s, schedule[..k]), schedule[k], w, account, end.procs[w].pc.reply)
    decreases |schedule|
  {
    k := 0;
    if schedule != [] {
      var mid, rest := Step(cfg, s, schedule[0]), schedule[1..];
      DecidedStep(cfg, s, email, past, w, account, schedule[0]);
      if mid.procs[w].pc.Done? {
        OwnerEnds(cfg, s, email, past, w, account, schedule[0]);
        DoneForGood(cfg, mid, rest, w);
        EndedRun(cfg, mid, email, past, w, account, rest);
      } else {
        k := DecidedRun(cfg, mid, email, past, w, account, rest);
        k := k + 1;
        if k <= |schedule| {
          PrefixShifts(cfg, s, schedule, k);
        }
      }
    }
  }

  lemma {:induction false} EndedRun(
      cfg: Config, s: State, email: string, past: set<Pid>, w: Pid, account: UserId, schedule: seq<Action>)
    requires Decided(cfg, s, email, past, w, account) && FairRun(cfg, s, schedule, email, past)
    ensures Decided(cfg, Exec(cfg, s, schedule), email, past, w, account)
    decreases |schedule|
  {
    if schedule != [] {
      DecidedStep(cfg, s, email, past, w, account, schedule[0]);
      EndedRun(cfg, Step(cfg, s, schedule[0]), email, past, w, account, schedule[1..]);
    }
  }

  lemma PrefixShifts(cfg: Config, s: State, schedule: seq<Action>, k: nat)
    requires 0 < k <= |schedule|
    ensures Exec(cfg, s, schedule[..k]) == Exec(cfg, Step(cfg, s, schedule[0]), schedule[1..][..k - 1])
  {
    assert schedule[..k][0] == schedule[0] && schedule[..k][1..] == schedule[1..][..k - 1];
  }

  /** From an open race: it is still open, or competitor w has the address. */
  lemma {:induction false} OpenRun(cfg: Config, s: State, email: string, past: set<Pid>, schedule: seq<Action>)
      returns (open: bool, w: Pid, account: UserId, k: nat)
    requires Open(cfg, s, email, past) && FairRun(cfg, s, schedule, email, past)
    ensures open ==> Open(cfg, Exec(cfg, s, schedule), email, past)
    ensures !open ==> Decided(cfg, Exec(cfg, s, schedule), email, past, w, account)
    ensures var end := Exec(cfg, s, schedule);
            !open && end.procs[w].pc.Done? ==>
              && k < |schedule|
              && OwnerAnswers(cfg, Exec(cfg, s, schedule[..k]), schedule[k], w, account, end.procs[w].pc.reply)
    decreases |schedule|
  {
    open, w, account, k := true, 0, 0, 0;
    if schedule != [] {
      var a, mid, rest := schedule[0], Step(cfg, s, schedule[0]), schedule[1..];
      if a.Move? && Competes(s, email, past, a.pid) && s.procs[a.pid].pc.RegisterInsert? {
        OpenCompetitor(cfg, s, email, past, a.pid, a.id, a.hash);
        open, w, account := false, a.pid, a.id;
        k := DecidedRun(cfg, mid, email, past, w, account, rest);
      } else {
        OpenStep(cfg, s, email, past, a);
        open, w, account, k := OpenRun(cfg, mid, email, past, rest);
      }
      k := k + 1;
      if k <= |schedule| {
        PrefixShifts(cfg, s, schedule, k);
      }
    }
  }

  /** Any number of interleaved registrations whose addresses normalise to one address that is free, whatever happened
      before, with logins to the new account and everything else going on. Once all that have not run their INSERT
      when the race begins have returned, exactly one of them, w, owns the address; every other has reported a conflict.
      The owner itself returns a session, unless at its INSERT, action k, its account has already been issued a token
      in the second in which it signed its own: then, and only then, it too reports a conflict. */
  lemma OneRegistrationWins(cfg: Config, s: State, email: string, schedule: seq<Action>)
      returns (w: Pid, account: UserId, k: nat)
    requires Inv(cfg, s) && !Taken(s.db, email)
    requires FairRun(cfg, s, schedule, email, PastInsert(s, email))
    requires exists p :: Competes(Exec(cfg, s, schedule), email, PastInsert(s, email), p)
    requires forall p | Competes(Exec(cfg, s, schedule), email, PastInsert(s, email), p) ::
               Exec(cfg, s, schedule).procs[p].pc.Done?
    ensures var end := Exec(cfg, s, schedule);
            && Competes(end, email, PastInsert(s, email), w) && HoldsEmail(end.db, account, email)
            && (forall p | Competes(end, email, PastInsert(s, email), p) && p != w ::
                  end.procs[p].pc == Done(Conflict))
            && (end.procs[w].pc == Done(Conflict)
                || (end.procs[w].pc.reply.Session? && end.procs[w].pc.reply.user.id == account))
            && k < |schedule|
            && OwnerAnswers(cfg, Exec(cfg, s, schedule[..k]), schedule[k], w, account, end.procs[w].pc.reply)
  {
    var open;
    open, w, account, k := OpenRun(cfg, s, email, PastInsert(s, email), schedule);
  }
}
