/** Ending all sessions of a user, statement by statement: exactly which token rows it revokes, and that what it
    revokes stays unusable. */
module MassRevocation {
  import opened Options
  import opened Emails
  import opened Tokens
  import opened AuthStore
  import opened AuthHandlers
  import opened AuthMachine
  import opened AuthInvariant
  import opened AuthProtocol

  // ----- rows stored before the UPDATE started -----

  /** The many-row UPDATE of process p still has every row of `rows` ahead of it, in hand, or revoked; once it
      has ended, they are all revoked. */
  ghost predicate Sweeping(s: State, p: Pid, rows: set<TokenHash>) {
    && p in s.procs
    && (forall h | h in rows :: h in s.db.tokens)
    && match s.procs[p].pc
       case RevokeEach(_, todo, hit) => forall h | h in rows :: s.db.tokens[h].revoked || h in todo || h in hit
       case DeactivateDelete => forall h | h in rows :: s.db.tokens[h].revoked
       case Done(reply) => reply == Failed || forall h | h in rows :: s.db.tokens[h].revoked
       case _ => false
  }

  lemma SweepVisitsRow(
      s: State, p: Pid, rows: set<TokenHash>, owner: UserId, todo: set<TokenHash>, hit: set<TokenHash>, hash: TokenHash)
    requires Sweeping(s, p, rows) && s.procs[p].pc == RevokeEach(owner, todo, hit)
    ensures Sweeping(RevokeRowStep(s, p, owner, todo, hit, hash), p, rows)
  {
  }

  lemma SweepEnds(s: State, p: Pid, rows: set<TokenHash>, owner: UserId, hit: set<TokenHash>)
    requires Sweeping(s, p, rows) && s.procs[p].pc == RevokeEach(owner, {}, hit)
    ensures Sweeping(RevokeEndStep(s, p, hit), p, rows)
  {
  }

  lemma SweepGoesOn(cfg: Config, s: State, p: Pid, rows: set<TokenHash>, id: UserId, hash: TokenHash)
    requires Sweeping(s, p, rows)
    ensures Sweeping(Advance(cfg, s, p, id, hash), p, rows)
  {
    match s.procs[p].pc
    case RevokeEach(owner, todo, hit) =>
      if todo == {} {
        SweepEnds(s, p, rows, owner, hit);
      } else {
        SweepVisitsRow(s, p, rows, owner, todo, hit, hash);
      }
    case _ =>
  }

  lemma SweepStep(cfg: Config, s: State, a: Action, p: Pid, rows: set<TokenHash>)
    requires Inv(cfg, s) && Sweeping(s, p, rows)
    ensures Sweeping(Step(cfg, s, a), p, rows)
  {
    if Actor(a) != Some(p) {
      OthersDoNotMove(cfg, s, a, p);
      StepGrows(cfg, s, a);
    } else if a.Move? {
      SweepGoesOn(cfg, s, p, rows, a.id, a.hash);
    }
  }

  lemma {:induction false} SweepRun(cfg: Config, s: State, schedule: seq<Action>, p: Pid, rows: set<TokenHash>)
    requires Inv(cfg, s) && Sweeping(s, p, rows)
    ensures Sweeping(Exec(cfg, s, schedule), p, rows)
    decreases |schedule|
  {
    if schedule != [] {
      StepKeeps(cfg, s, schedule[0]);
      SweepStep(cfg, s, schedule[0], p, rows);
      SweepRun(cfg, Step(cfg, s, schedule[0]), schedule[1..], p, rows);
    }
  }

  // ----- rows stored later -----

  /** The requests that can revoke row h of the user. */
  predicate MayRevoke(request: Request, owner: UserId, h: TokenHash) {
    match request
    case AskRefresh(token) => Sha256(token) == h
    case AskLogout(caller, presented) => caller == owner && (presented == None || Sha256(presented.value) == h)
    case AskDeactivate(target) => target == owner
    case _ => false
  }

  /** Some call besides p and those in `ended` can revoke row h. */
  ghost predicate OtherRevoker(s: State, ended: set<Pid>, p: Pid, owner: UserId, h: TokenHash) {
    exists q :: q in s.procs && q !in ended && q != p && MayRevoke(s.procs[q].request, owner, h)
  }

  /** Row h, if it is stored at all, is not revoked. */
  predicate Unrevoked(db: Db, h: TokenHash) {
    h in db.tokens ==> !db.tokens[h].revoked
  }

  /** The UPDATE of process p passes row h by. */
  ghost predicate Spared(s: State, p: Pid, h: TokenHash) {
    && Unrevoked(s.db, h)
    && p in s.procs
    && match s.procs[p].pc
       case RevokeEach(_, todo, hit) => h !in todo && h !in hit
       case DeactivateDelete => true
       case Done(_) => true
       case _ => false
  }

  lemma SpareOnward(cfg: Config, s: State, p: Pid, h: TokenHash, id: UserId, hash: TokenHash)
    requires Spared(s, p, h)
    ensures Spared(Advance(cfg, s, p, id, hash), p, h)
  {
    match s.procs[p].pc
    case RevokeEach(owner, todo, hit) => SpareEach(s, p, owner, todo, hit, h, hash);
    case _ =>
  }

  lemma SpareEach(
      s: State, p: Pid, owner: UserId, todo: set<TokenHash>, hit: set<TokenHash>, h: TokenHash, hash: TokenHash)
    requires Spared(s, p, h) && s.procs[p].pc == RevokeEach(owner, todo, hit)
    ensures if todo == {} then Spared(RevokeEndStep(s, p, hit), p, h)
            else Spared(RevokeRowStep(s, p, owner, todo, hit, hash), p, h)
  {
  }

  lemma InsertSpares(
      cfg: Config, s: State, q: Pid, tx: Tx, user: User, access: Millis, refresh: Millis, store: Millis, h: TokenHash)
    requires q in s.procs && Unrevoked(s.db, h)
    ensures Unrevoked(InsertStep(cfg, s, q, tx, user, access, refresh, store).db, h)
  {
  }

  lemma CommitSpares(cfg: Config, s: State, q: Pid, token: Token, tx: Tx, user: User, at: Times, h: TokenHash)
    requires q in s.procs && s.procs[q] == Process(AskRefresh(token), RefreshCommit(tx, user, at))
    requires ProcessInv(cfg, s, q)
    requires Unrevoked(s.db, h) && Sha256(token) != h
    ensures Unrevoked(CommitStep(cfg, s, q, token, tx, user, at).db, h)
  {
  }

  lemma UpdateSpares(cfg: Config, s: State, q: Pid, owner: UserId, h: TokenHash, id: UserId, hash: TokenHash)
    requires q in s.procs && ProcessInv(cfg, s, q) && !MayRevoke(s.procs[q].request, owner, h)
    requires s.procs[q].pc.LogoutOne? || s.procs[q].pc.RevokeEach?
    requires Unrevoked(s.db, h) && (h in s.db.tokens ==> s.db.tokens[h].userId == owner)
    ensures Unrevoked(Advance(cfg, s, q, id, hash).db, h)
  {
    match s.procs[q].pc
    case LogoutOne(token) =>
    case RevokeEach(owner', todo, hit) =>
      if todo != {} {
        assert RevokeRowStep(s, q, owner', todo, hit, hash).db == s.db;
      }
  }

  /** A call that cannot revoke row h does not, and a row is never stored revoked. */
  lemma OutsiderSpares(cfg: Config, s: State, q: Pid, owner: UserId, h: TokenHash, id: UserId, hash: TokenHash)
    requires q in s.procs && ProcessInv(cfg, s, q) && !MayRevoke(s.procs[q].request, owner, h)
    requires Unrevoked(s.db, h) && (h in s.db.tokens ==> s.db.tokens[h].userId == owner)
    ensures Unrevoked(Advance(cfg, s, q, id, hash).db, h)
  {
    var request, pc := s.procs[q].request, s.procs[q].pc;
    if !Writes(pc) {
      OthersDoNotWrite(cfg, s, q, id, hash);
    } else if pc.IssueInsert? {
      InsertSpares(cfg, s, q, pc.tx, pc.user, pc.access, pc.refresh, pc.store, h);
    } else if pc.RefreshCommit? {
      CommitSpares(cfg, s, q, request.token, pc.tx, pc.user, pc.at, h);
    } else if pc.LogoutOne? || pc.RevokeEach? {
      UpdateSpares(cfg, s, q, owner, h, id, hash);
    }
  }

  lemma SpareStep(cfg: Config, s: State, a: Action, ended: set<Pid>, p: Pid, owner: UserId, h: TokenHash)
    requires Inv(cfg, s) && Spared(s, p, h) && h.token.Jwt? && h.token.claims.sub == owner
    requires AllFinished(s, ended) && !OtherRevoker(s, ended, p, owner, h)
    ensures Spared(Step(cfg, s, a), p, h)
  {
    if Actor(a) == Some(p) {
      if a.Move? {
        SpareOnward(cfg, s, p, h, a.id, a.hash);
      }
    } else {
      OthersDoNotMove(cfg, s, a, p);
      if a.Move? && a.pid in s.procs && a.pid !in ended {
        assert h in s.db.tokens ==> GoodTokenRow(cfg, s.db, h);
        assert ProcessInv(cfg, s, a.pid);
        OutsiderSpares(cfg, s, a.pid, owner, h, a.id, a.hash);
      }
    }
  }

  lemma RequestsStay(cfg: Config, s: State, a: Action)
    ensures forall q | q in s.procs ::
              q in Step(cfg, s, a).procs && Step(cfg, s, a).procs[q].request == s.procs[q].request
  {
    if a.Move? && a.pid in s.procs {
      OnlyActorMoves(cfg, s, a.pid, a.id, a.hash);
    }
  }

  lemma {:induction false} NoRevokerBefore(
      cfg: Config, s: State, schedule: seq<Action>, ended: set<Pid>, p: Pid, owner: UserId, h: TokenHash)
    requires !OtherRevoker(Exec(cfg, s, schedule), ended, p, owner, h)
    ensures !OtherRevoker(s, ended, p, owner, h)
    decreases |schedule|
  {
    if schedule != [] {
      NoRevokerBefore(cfg, Step(cfg, s, schedule[0]), schedule[1..], ended, p, owner, h);
      RequestsStay(cfg, s, schedule[0]);
    }
  }

  lemma {:induction false} SpareRun(
      cfg: Config, s: State, schedule: seq<Action>, ended: set<Pid>, p: Pid, owner: UserId, h: TokenHash)
    requires Inv(cfg, s) && Spared(s, p, h) && h.token.Jwt? && h.token.claims.sub == owner
    requires AllFinished(s, ended) && !OtherRevoker(Exec(cfg, s, schedule), ended, p, owner, h)
    ensures Spared(Exec(cfg, s, schedule), p, h)
    decreases |schedule|
  {
    if schedule != [] {
      NoRevokerBefore(cfg, s, schedule, ended, p, owner, h);
      StepKeeps(cfg, s, schedule[0]);
      FinishedStay(cfg, s, schedule[0], ended);
      SpareStep(cfg, s, schedule[0], ended, p, owner, h);
      SpareRun(cfg, Step(cfg, s, schedule[0]), schedule[1..], ended, p, owner, h);
    }
  }

  // ----- exactly which rows -----

  /** The UPDATE of process p has ended: a logout has answered, a deactivation has its last statement ahead or has
      answered. */
  ghost predicate UpdateEnded(s: State, p: Pid) {
    p in s.procs && (s.procs[p].pc.DeactivateDelete? || (s.procs[p].pc.Done? && s.procs[p].pc.reply != Failed))
  }

  /** The state after a whole schedule that begins with the start of the UPDATE of process p. */
  ghost function AfterUpdate(cfg: Config, s: State, p: Pid, id: UserId, hash: TokenHash, schedule: seq<Action>): State {
    Exec(cfg, Step(cfg, s, Move(p, id, hash)), schedule)
  }

  lemma UpdateStarts(cfg: Config, s: State, p: Pid, owner: UserId, id: UserId, hash: TokenHash)
    requires Inv(cfg, s) && p in s.procs && s.procs[p].pc == RevokeStart(owner)
    ensures var s1 := Step(cfg, s, Move(p, id, hash));
            && Inv(cfg, s1)
            && s1 == Goto(s, p, RevokeEach(owner, UnrevokedOf(s.db, owner), {}))
  {
    StepKeeps(cfg, s, Move(p, id, hash));
  }

  /** Every row stored when the UPDATE started is revoked once it has ended, whatever interleaves. */
  lemma EarlierRowsAreRevoked(
      cfg: Config, s: State, schedule: seq<Action>, p: Pid, owner: UserId, h: TokenHash, id: UserId, hash: TokenHash)
    requires Inv(cfg, s) && p in s.procs && s.procs[p].pc == RevokeStart(owner)
    requires UpdateEnded(AfterUpdate(cfg, s, p, id, hash, schedule), p)
    requires h in s.db.tokens && s.db.tokens[h].userId == owner
    ensures var end := AfterUpdate(cfg, s, p, id, hash, schedule); h in end.db.tokens && end.db.tokens[h].revoked
  {
    var rows := set x | x in s.db.tokens && s.db.tokens[x].userId == owner;
    UpdateStarts(cfg, s, p, owner, id, hash);
    SweepRun(cfg, Step(cfg, s, Move(p, id, hash)), schedule, p, rows);
    assert h in rows;
  }

  lemma LaterRowsAreSpared(
      cfg: Config, s: State, schedule: seq<Action>, p: Pid, owner: UserId, h: TokenHash, id: UserId, hash: TokenHash)
    requires Inv(cfg, s) && p in s.procs && s.procs[p].pc == RevokeStart(owner)
    requires !OtherRevoker(AfterUpdate(cfg, s, p, id, hash, schedule), Finished(s), p, owner, h)
    requires h !in s.db.tokens && h.token.Jwt? && h.token.claims.sub == owner
    ensures Unrevoked(AfterUpdate(cfg, s, p, id, hash, schedule).db, h)
  {
    UpdateStarts(cfg, s, p, owner, id, hash);
    FinishedStay(cfg, s, Move(p, id, hash), Finished(s));
    SpareRun(cfg, Step(cfg, s, Move(p, id, hash)), schedule, Finished(s), p, owner, h);
  }

  /** Logout of all sessions and deactivation, at statement grain: once the UPDATE has ended, a row of the user is
      revoked if it was stored when the UPDATE started, and only then, unless some other call that had not answered by
      that time can revoke it. */
  lemma MassRevocationRevokesExactly(
      cfg: Config, s: State, schedule: seq<Action>, p: Pid, owner: UserId, h: TokenHash, id: UserId, hash: TokenHash)
    requires Inv(cfg, s) && p in s.procs && s.procs[p].pc == RevokeStart(owner)
    requires UpdateEnded(AfterUpdate(cfg, s, p, id, hash, schedule), p)
    requires var end := AfterUpdate(cfg, s, p, id, hash, schedule);
             h in end.db.tokens && end.db.tokens[h].userId == owner
    ensures var end := AfterUpdate(cfg, s, p, id, hash, schedule);
            && (h in s.db.tokens ==> end.db.tokens[h].revoked)
            && (!OtherRevoker(end, Finished(s), p, owner, h) ==> (end.db.tokens[h].revoked <==> h in s.db.tokens))
  {
    var end := AfterUpdate(cfg, s, p, id, hash, schedule);
    UpdateStarts(cfg, s, p, owner, id, hash);
    ScheduleKeeps(cfg, Step(cfg, s, Move(p, id, hash)), schedule);
    NothingIsUndone(cfg, Step(cfg, s, Move(p, id, hash)), schedule);
    assert GoodTokenRow(cfg, end.db, h);
    if h in s.db.tokens {
      EarlierRowsAreRevoked(cfg, s, schedule, p, owner, h, id, hash);
    } else if !OtherRevoker(end, Finished(s), p, owner, h) {
      LaterRowsAreSpared(cfg, s, schedule, p, owner, h, id, hash);
    }
  }

  /** No token the user held when the UPDATE started is traded in after it has ended, in any continuation. */
  lemma EndedSessionsStayEnded(
      cfg: Config, s: State, schedule: seq<Action>, p: Pid, owner: UserId, h: TokenHash, id: UserId, hash: TokenHash,
      later: seq<Action>, i: nat)
    requires Inv(cfg, s) && p in s.procs && s.procs[p].pc == RevokeStart(owner)
    requires UpdateEnded(AfterUpdate(cfg, s, p, id, hash, schedule), p)
    requires h in s.db.tokens && s.db.tokens[h].userId == owner
    requires var log := Exec(cfg, AfterUpdate(cfg, s, p, id, hash, schedule), later).log;
             i < |log| && log[i].Issued? && log[i].parent == Some(h.token)
    ensures i < |AfterUpdate(cfg, s, p, id, hash, schedule).log|
  {
    UpdateStarts(cfg, s, p, owner, id, hash);
    ScheduleKeeps(cfg, Step(cfg, s, Move(p, id, hash)), schedule);
    EarlierRowsAreRevoked(cfg, s, schedule, p, owner, h, id, hash);
    RevokedIsFinal(cfg, AfterUpdate(cfg, s, p, id, hash, schedule), later, h, i);
  }

  // ----- who can still store a row for an account that is switched off -----

  /** Call q is a registration or login that has read the account and not yet stored its token. */
  ghost predicate Midway(s: State, q: Pid, id: UserId) {
    && q in s.procs && (s.procs[q].request.AskRegister? || s.procs[q].request.AskLogin?)
    && match s.procs[q].pc
       case IssueAccess(_, user) => user.id == id
       case IssueRefresh(_, user, _) => user.id == id
       case IssueStamp(_, user, _, _) => user.id == id
       case IssueInsert(_, user, _, _, _) => user.id == id
       case _ => false
  }

  lemma LoginReadsActive(cfg: Config, s: State, q: Pid, email: string, password: string, id: UserId)
    requires DbInv(cfg, s.db) && q in s.procs && s.procs[q].pc.LoginFind?
    requires Midway(LoginStep(cfg, s, q, email, password), q, id)
    ensures id in s.db.users && s.db.users[id].isActive
  {
    var user := FindByEmail(s.db, Normalize(email)).value;
    var i :| HoldsEmail(s.db, i, Normalize(email)) && user == s.db.users[i];
    assert GoodUser(s.db, i);
  }

  lemma RegisterReadsFresh(s: State, q: Pid, email: string, hashed: string, drawn: UserId, id: UserId)
    requires q in s.procs && s.procs[q].pc.RegisterInsert?
    requires Midway(RegisterStep(s, q, email, hashed, RegisterInsert, drawn), q, id)
    ensures id !in s.db.users
  {
  }

  lemma InsertEndsIt(
      cfg: Config, s: State, q: Pid, tx: Tx, user: User, access: Millis, refresh: Millis, store: Millis, id: UserId)
    requires q in s.procs && s.procs[q].pc == IssueInsert(tx, user, access, refresh, store)
    requires Midway(InsertStep(cfg, s, q, tx, user, access, refresh, store), q, id)
    ensures Midway(s, q, id)
  {
  }

  /** The statements of a registration or login. */
  predicate Opens(pc: Pc) {
    || pc.RegisterFind? || pc.RegisterInsert? || pc.LoginFind? || pc.IssueAccess? || pc.IssueRefresh?
    || pc.IssueStamp? || pc.IssueInsert? || pc.Done?
  }

  lemma MidwayBeforeMove(cfg: Config, s: State, q: Pid, drawn: UserId, hash: TokenHash, id: UserId)
    requires Inv(cfg, s) && id in s.db.users && !s.db.users[id].isActive && q in s.procs && Opens(s.procs[q].pc)
    requires Midway(Advance(cfg, s, q, drawn, hash), q, id)
    ensures Midway(s, q, id)
  {
    var request := s.procs[q].request;
    match s.procs[q].pc
    case LoginFind => LoginReadsActive(cfg, s, q, request.email, request.password, id);
    case RegisterInsert => RegisterReadsFresh(s, q, request.email, request.hashed, drawn, id);
    case IssueInsert(tx, user, access, refresh, store) => InsertEndsIt(cfg, s, q, tx, user, access, refresh, store, id);
    case _ =>
  }

  lemma OpenersOpen(cfg: Config, s: State, q: Pid)
    requires q in s.procs && ProcessInv(cfg, s, q) && (s.procs[q].request.AskRegister? || s.procs[q].request.AskLogin?)
    ensures Opens(s.procs[q].pc)
  {
  }

  lemma MidwayBefore(cfg: Config, s: State, a: Action, q: Pid, id: UserId)
    requires Inv(cfg, s) && id in s.db.users && !s.db.users[id].isActive
    requires Midway(Step(cfg, s, a), q, id)
    ensures Midway(s, q, id)
  {
    match a
    case Move(p, drawn, hash) =>
      if p in s.procs {
        OnlyActorMoves(cfg, s, p, drawn, hash);
        if p == q {
          OpenersOpen(cfg, s, q);
          MidwayBeforeMove(cfg, s, q, drawn, hash, id);
        }
      }
    case _ =>
  }

  /** Whatever stores a row for an account after its isActive = false is visible is a registration or login that had
      read the account before that. */
  lemma {:induction false} StragglersReadBefore(cfg: Config, s: State, schedule: seq<Action>, id: UserId, i: nat)
    requires Inv(cfg, s) && id in s.db.users && !s.db.users[id].isActive
    requires |s.log| <= i < |Exec(cfg, s, schedule).log|
    requires var e := Exec(cfg, s, schedule).log[i]; e.Issued? && e.userId == id
    ensures var e := Exec(cfg, s, schedule).log[i]; e.parent == None && Midway(s, e.pid, id)
    decreases |schedule|
  {
    if schedule != [] {
      var mid, e := Step(cfg, s, schedule[0]), Exec(cfg, s, schedule).log[i];
      StepKeeps(cfg, s, schedule[0]);
      StepGrows(cfg, s, schedule[0]);
      NothingIsUndone(cfg, mid, schedule[1..]);
      if i < |mid.log| {
        NewEntryOfStep(cfg, s, schedule[0], i);
        assert ProcessInv(cfg, s, e.pid);
      } else {
        StragglersReadBefore(cfg, mid, schedule[1..], id, i);
        MidwayBefore(cfg, s, schedule[0], e.pid, id);
      }
    }
  }
}
