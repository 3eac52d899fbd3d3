/** createProfile at statement grain: any number of calls for any users, with removals among them. */
module ProfileRace {
  import opened Options
  import opened Emails
  import opened Tokens
  import opened Profiles

  type Pid = nat

  datatype Request = AskCreate(profile: NewProfile) | AskRemove(userId: UserId)

  datatype Pc =
    | Find
    | InsertRow
    | FindAgain
    | SoftRemove(row: ProfileId)
    | Returned(row: ProfileId)
    | Stopped(reply: Reply)

  datatype Process = Process(request: Request, pc: Pc)

  datatype State = State(table: Table, procs: map<Pid, Process>)

  /** `id` is the value gen_random_uuid() gives should a row be inserted. */
  datatype Action = Start(pid: Pid, request: Request) | Move(pid: Pid, id: ProfileId)

  const INITIAL := State(map[], map[])

  function Goto(s: State, p: Pid, pc: Pc): State
    requires p in s.procs
  {
    s.(procs := s.procs[p := s.procs[p].(pc := pc)])
  }

  ghost function CreateStep(s: State, p: Pid, profile: NewProfile, id: ProfileId): State
    requires p in s.procs
  {
    match s.procs[p].pc
    case Find =>
      (match FindByUser(s.table, profile.userId)
       case Some(row) => Goto(s, p, Returned(row.id))
       case None => Goto(s, p, InsertRow))
    case InsertRow =>
      (match Insert(s.table, FreshRow(id, profile))
       case Some(t) => Goto(s.(table := t), p, Returned(id))
       case None => Goto(s, p, FindAgain))
    case FindAgain =>
      (match FindByUser(s.table, profile.userId)
       case Some(row) => Goto(s, p, Returned(row.id))
       case None => Goto(s, p, Stopped(Failed)))
    case _ => s
  }

  ghost function RemoveStep(s: State, p: Pid, userId: UserId): State
    requires p in s.procs
  {
    match s.procs[p].pc
    case Find =>
      (match FindByUser(s.table, userId)
       case Some(row) => Goto(s, p, SoftRemove(row.id))
       case None => Goto(s, p, Stopped(NotFound)))
    case SoftRemove(row) =>
      if row in s.table
      then Goto(s.(table := s.table[row := s.table[row].(deleted := true)]), p, Stopped(Deleted))
      else s
    case _ => s
  }

  ghost function Step(s: State, a: Action): State {
    match a
    case Start(p, request) => if p in s.procs then s else s.(procs := s.procs[p := Process(request, Find)])
    case Move(p, id) =>
      if p !in s.procs then s
      else match s.procs[p].request
        case AskCreate(profile) => CreateStep(s, p, profile, id)
        case AskRemove(userId) => RemoveStep(s, p, userId)
  }

  ghost function Exec(s: State, schedule: seq<Action>): State
    decreases |schedule|
  {
    if schedule == [] then s else Exec(Step(s, schedule[0]), schedule[1..])
  }

  // ----- whatever interleaves -----

  ghost predicate ProcessInv(s: State, p: Pid)
    requires p in s.procs
  {
    match s.procs[p]
    case Process(AskCreate(profile), Returned(row)) => row in s.table && s.table[row].userId == profile.userId
    case Process(AskCreate(_), Stopped(reply)) => reply == Failed
    case Process(AskRemove(userId), SoftRemove(row)) => row in s.table && s.table[row].userId == userId
    case Process(AskRemove(_), Stopped(reply)) => reply == NotFound || reply == Deleted
    case _ => true
  }

  ghost predicate Inv(s: State) {
    && TableInv(s.table)
    && (forall p {:trigger ProcessInv(s, p)} | p in s.procs :: ProcessInv(s, p))
  }

  ghost predicate Creates(s: State, p: Pid, userId: UserId) {
    p in s.procs && s.procs[p].request.AskCreate? && s.procs[p].request.profile.userId == userId
  }

  lemma InsertKeepsTable(t: Table, row: Profile)
    requires TableInv(t) && Insert(t, row).Some? && !row.deleted
    ensures TableInv(Insert(t, row).value) && LiveFor(Insert(t, row).value, row.id, row.userId)
  {
    var t' := Insert(t, row).value;
    assert forall i :: !LiveFor(t, i, row.userId);
    forall i, j, u | LiveFor(t', i, u) && LiveFor(t', j, u) ensures i == j {
      assert i != row.id ==> LiveFor(t, i, u);
      assert j != row.id ==> LiveFor(t, j, u);
    }
  }

  lemma DeleteKeepsTable(t: Table, row: ProfileId)
    requires TableInv(t) && row in t
    ensures TableInv(t[row := t[row].(deleted := true)])
  {
    var t' := t[row := t[row].(deleted := true)];
    forall i, j, u | LiveFor(t', i, u) && LiveFor(t', j, u) ensures i == j {
      assert LiveFor(t, i, u) && LiveFor(t, j, u);
    }
  }

  lemma CreateKeepsTable(s: State, p: Pid, profile: NewProfile, id: ProfileId)
    requires TableInv(s.table) && p in s.procs
    ensures var t := CreateStep(s, p, profile, id).table; TableInv(t) && TableGrows(s.table, t)
  {
    var row := FreshRow(id, profile);
    if s.procs[p].pc.InsertRow? && Insert(s.table, row).Some? {
      InsertKeepsTable(s.table, row);
    }
  }

  lemma RemoveKeepsTable(s: State, p: Pid, userId: UserId)
    requires TableInv(s.table) && p in s.procs
    ensures var t := RemoveStep(s, p, userId).table; TableInv(t) && TableGrows(s.table, t)
  {
    if s.procs[p].pc.SoftRemove? && s.procs[p].pc.row in s.table {
      DeleteKeepsTable(s.table, s.procs[p].pc.row);
    }
  }

  lemma StepKeepsTable(s: State, a: Action)
    requires TableInv(s.table)
    ensures TableInv(Step(s, a).table) && TableGrows(s.table, Step(s, a).table)
  {
    if a.Move? && a.pid in s.procs {
      match s.procs[a.pid].request
      case AskCreate(profile) => CreateKeepsTable(s, a.pid, profile, a.id);
      case AskRemove(userId) => RemoveKeepsTable(s, a.pid, userId);
    }
  }

  lemma ActorKeeps(s: State, p: Pid, id: ProfileId)
    requires TableInv(s.table) && p in s.procs && ProcessInv(s, p)
    ensures p in Step(s, Move(p, id)).procs && ProcessInv(Step(s, Move(p, id)), p)
  {
  }

  /** One step keeps the invariant: at most one live row per user, and answers of the right user. */
  lemma StepKeeps(s: State, a: Action)
    requires Inv(s)
    ensures Inv(Step(s, a)) && TableGrows(s.table, Step(s, a).table)
  {
    var s' := Step(s, a);
    StepKeepsTable(s, a);
    forall p | p in s'.procs ensures ProcessInv(s', p) {
      if p in s.procs {
        assert ProcessInv(s, p);
        if a.Move? && a.pid == p {
          ActorKeeps(s, p, a.id);
        } else {
          OnlyActorMoves(s, a, p);
        }
      }
    }
  }

  /** In every schedule the table has at most one live row per user, and a call only ever answers with a row of
      the user it was asked for. */
  lemma {:induction false} AtMostOneLiveRow(s: State, schedule: seq<Action>)
    requires Inv(s)
    ensures Inv(Exec(s, schedule)) && TableGrows(s.table, Exec(s, schedule).table)
    decreases |schedule|
  {
    if schedule != [] {
      StepKeeps(s, schedule[0]);
      AtMostOneLiveRow(Step(s, schedule[0]), schedule[1..]);
    }
  }

  // ----- what each statement does -----

  /** The statement is the UPDATE of a removal that has found this row. */
  predicate Deletes(s: State, p: Pid, row: ProfileId) {
    p in s.procs && s.procs[p].request.AskRemove? && s.procs[p].pc == SoftRemove(row)
  }

  /** The statement is the INSERT of a create, and the user has no live row. */
  ghost predicate Stores(s: State, p: Pid) {
    p in s.procs && s.procs[p].request.AskCreate? && s.procs[p].pc.InsertRow?
    && !HasLive(s.table, s.procs[p].request.profile.userId)
  }

  /** No statement changes anything of a row that is there but to mark it deleted, when it is the row a removal of its
      user has found; and none adds one but the INSERT of a create, with the names and address of its request in their
      stored form, the drawn id and nothing else filled in. */
  lemma RowsAtStatement(s: State, p: Pid, id: ProfileId, row: ProfileId)
    requires Inv(s) && p in s.procs
    ensures var t, request := Step(s, Move(p, id)).table, s.procs[p].request;
            if row in s.table then
              && row in t
              && t[row] == s.table[row].(deleted := s.table[row].deleted || Deletes(s, p, row))
              && (Deletes(s, p, row) ==> s.table[row].userId == request.userId)
            else
              && (row in t <==> row == id && Stores(s, p))
              && (row in t ==>
                    t[row] == Profile(id, request.profile.userId, Normalize(request.profile.email),
                                      Trim(request.profile.firstName), Trim(request.profile.lastName),
                                      None, None, None, None, false))
  {
    assert ProcessInv(s, p);
  }

  /** What each look-up leads to: a create answers with the live row there is, a removal goes for it, and a removal
      that finds none is not found. */
  lemma LookUpsFindTheRow(s: State, p: Pid, id: ProfileId, row: ProfileId, userId: UserId)
    requires Inv(s) && p in s.procs && (s.procs[p].pc.Find? || s.procs[p].pc.FindAgain?)
    ensures Creates(s, p, userId) && LiveFor(s.table, row, userId) ==> Step(s, Move(p, id)).procs[p].pc == Returned(row)
    ensures Creates(s, p, userId) && !HasLive(s.table, userId) ==>
              Step(s, Move(p, id)).procs[p].pc == (if s.procs[p].pc.Find? then InsertRow else Stopped(Failed))
    ensures s.procs[p] == Process(AskRemove(userId), Find) && LiveFor(s.table, row, userId) ==>
              Step(s, Move(p, id)).procs[p].pc == SoftRemove(row)
    ensures s.procs[p] == Process(AskRemove(userId), Find) && !HasLive(s.table, userId) ==>
              Step(s, Move(p, id)).procs[p].pc == Stopped(NotFound)
  {
    if LiveFor(s.table, row, userId) {
      FindByUserIsTheRow(s.table, row, userId);
    }
  }

  /** The writes answer: the INSERT of a create with the row it has stored, unless there is one it has met; the UPDATE
      of a removal always. */
  lemma WritesAnswer(s: State, p: Pid, id: ProfileId)
    requires Inv(s) && p in s.procs
    ensures s.procs[p].request.AskCreate? && s.procs[p].pc.InsertRow? ==>
              Step(s, Move(p, id)).procs[p].pc
              == (if id !in s.table && Stores(s, p) then Returned(id) else FindAgain)
    ensures s.procs[p].request.AskRemove? && s.procs[p].pc.SoftRemove? ==>
              Step(s, Move(p, id)).procs[p].pc == Stopped(Deleted)
  {
    assert ProcessInv(s, p);
  }

  // ----- while no removal of the user is under way -----

  ghost predicate HasLive(t: Table, userId: UserId) {
    exists row :: LiveFor(t, row, userId)
  }

  /** The calls that have answered, and those whose INSERT has met a row of the user that is gone by now. */
  ghost function Behind(s: State, userId: UserId): set<Pid> {
    set p | p in s.procs &&
      (s.procs[p].pc.Returned? || s.procs[p].pc.Stopped? || (s.procs[p].pc.FindAgain? && !HasLive(s.table, userId)))
  }

  /** The calls in `past` write nothing any more. */
  ghost predicate AllBehind(s: State, past: set<Pid>) {
    forall p | p in past ::
      p in s.procs && (s.procs[p].pc.Returned? || s.procs[p].pc.Stopped? || s.procs[p].pc.FindAgain?)
  }

  /** The creates for the user that race: all but those in `past`. */
  ghost predicate Races(s: State, past: set<Pid>, p: Pid, userId: UserId) {
    p !in past && Creates(s, p, userId)
  }

  ghost predicate NoRemovalOf(s: State, past: set<Pid>, userId: UserId) {
    forall p | p in s.procs && p !in past :: s.procs[p].request != AskRemove(userId)
  }

  /** No removal of the user is asked for, and ids drawn for new rows are not in use. */
  ghost predicate Undisturbed(s: State, schedule: seq<Action>, userId: UserId)
    decreases |schedule|
  {
    schedule != [] ==>
      && (schedule[0].Start? ==> schedule[0].request != AskRemove(userId))
      && FreshId(s, schedule[0])
      && Undisturbed(Step(s, schedule[0]), schedule[1..], userId)
  }

  /** The create has not failed; what it is about to find, or has answered with, is the live row. */
  ghost predicate SteadyProcess(s: State, p: Pid, userId: UserId)
    requires p in s.procs
  {
    && !s.procs[p].pc.Stopped?
    && (s.procs[p].pc.FindAgain? ==> HasLive(s.table, userId))
    && (s.procs[p].pc.Returned? ==> LiveFor(s.table, s.procs[p].pc.row, userId))
  }

  ghost predicate Steady(s: State, past: set<Pid>, userId: UserId) {
    && Inv(s) && AllBehind(s, past) && NoRemovalOf(s, past, userId)
    && (forall p | Races(s, past, p, userId) :: SteadyProcess(s, p, userId))
  }

  lemma LiveRowStays(s: State, a: Action, row: ProfileId, past: set<Pid>, userId: UserId)
    requires Inv(s) && AllBehind(s, past) && NoRemovalOf(s, past, userId) && LiveFor(s.table, row, userId)
    ensures LiveFor(Step(s, a).table, row, userId)
  {
    if a.Move? && a.pid in s.procs {
      assert ProcessInv(s, a.pid);
    }
  }

  lemma OnlyActorMoves(s: State, a: Action, p: Pid)
    requires p in s.procs && !(a.Move? && a.pid == p)
    ensures p in Step(s, a).procs && Step(s, a).procs[p] == s.procs[p]
  {
  }

  lemma BehindStay(s: State, a: Action, past: set<Pid>)
    requires AllBehind(s, past)
    ensures AllBehind(Step(s, a), past)
  {
    forall p | p in past
      ensures p in Step(s, a).procs
      ensures var pc := Step(s, a).procs[p].pc; pc.Returned? || pc.Stopped? || pc.FindAgain?
    {
      if !(a.Move? && a.pid == p) {
        OnlyActorMoves(s, a, p);
      }
    }
  }

  lemma RequestsStay(s: State, a: Action, p: Pid)
    requires p in Step(s, a).procs
    ensures if p in s.procs then Step(s, a).procs[p].request == s.procs[p].request
            else a == Start(p, Step(s, a).procs[p].request) && Step(s, a).procs[p].pc == Find
  {
  }

  lemma SteadyCreate(s: State, p: Pid, id: ProfileId, userId: UserId)
    requires Inv(s) && Creates(s, p, userId) && SteadyProcess(s, p, userId) && FreshId(s, Move(p, id))
    ensures SteadyProcess(CreateStep(s, p, s.procs[p].request.profile, id), p, userId)
  {
    var row := FreshRow(id, s.procs[p].request.profile);
    if s.procs[p].pc.InsertRow? && Insert(s.table, row).Some? {
      InsertKeepsTable(s.table, row);
    }
  }

  /** A racing create stays steady. */
  lemma RacerStaysSteady(s: State, a: Action, past: set<Pid>, userId: UserId, p: Pid)
    requires Steady(s, past, userId) && Undisturbed(s, [a], userId) && Races(Step(s, a), past, p, userId)
    ensures SteadyProcess(Step(s, a), p, userId)
  {
    var s' := Step(s, a);
    RequestsStay(s, a, p);
    if p in s.procs {
      assert Races(s, past, p, userId);
      if a.Move? && a.pid == p {
        SteadyCreate(s, p, a.id, userId);
      } else {
        OnlyActorMoves(s, a, p);
        forall row | LiveFor(s.table, row, userId) ensures LiveFor(s'.table, row, userId) {
          LiveRowStays(s, a, row, past, userId);
        }
      }
    }
  }

  lemma SteadyStep(s: State, a: Action, past: set<Pid>, userId: UserId)
    requires Steady(s, past, userId) && Undisturbed(s, [a], userId)
    ensures Steady(Step(s, a), past, userId)
  {
    var s' := Step(s, a);
    StepKeeps(s, a);
    BehindStay(s, a, past);
    forall p | p in s'.procs && p !in past ensures s'.procs[p].request != AskRemove(userId) {
      RequestsStay(s, a, p);
    }
    forall p | Races(s', past, p, userId) ensures SteadyProcess(s', p, userId) {
      RacerStaysSteady(s, a, past, userId, p);
    }
  }

  lemma {:induction false} SteadyRun(s: State, schedule: seq<Action>, past: set<Pid>, userId: UserId)
    requires Steady(s, past, userId) && Undisturbed(s, schedule, userId)
    ensures Steady(Exec(s, schedule), past, userId)
    decreases |schedule|
  {
    if schedule != [] {
      assert [schedule[0]][0] == schedule[0] && [schedule[0]][1..] == [];
      SteadyStep(s, schedule[0], past, userId);
      SteadyRun(Step(s, schedule[0]), schedule[1..], past, userId);
    }
  }

  /** However many createProfile calls for one user interleave, from any state in which no removal of that user is
      under way and with none asked for meanwhile, none fails and all that have returned name the same row, which is
      the user's one live row. (Calls that had answered before, or whose INSERT had met a row since removed, apart.) */
  lemma ConcurrentCreatesAgree(s: State, schedule: seq<Action>, userId: UserId, p: Pid, q: Pid)
    requires Inv(s) && NoRemovalOf(s, Behind(s, userId), userId) && Undisturbed(s, schedule, userId)
    requires Races(Exec(s, schedule), Behind(s, userId), p, userId)
    requires Races(Exec(s, schedule), Behind(s, userId), q, userId)
    ensures var end := Exec(s, schedule);
            && !end.procs[p].pc.Stopped?
            && (end.procs[p].pc.Returned? ==> LiveFor(end.table, end.procs[p].pc.row, userId))
            && (end.procs[p].pc.Returned? && end.procs[q].pc.Returned? ==> end.procs[p].pc.row == end.procs[q].pc.row)
  {
    SteadyRun(s, schedule, Behind(s, userId), userId);
  }

  // ----- exactly when a create fails -----

  /** The action is the UPDATE of a removal, and the row it found is still the user's live one. */
  ghost predicate RemovesLive(s: State, a: Action, userId: UserId) {
    && a.Move? && a.pid in s.procs && s.procs[a.pid].request.AskRemove?
    && s.procs[a.pid].pc.SoftRemove? && LiveFor(s.table, s.procs[a.pid].pc.row, userId)
  }

  /** The action is the INSERT of a create for the user. */
  ghost predicate Inserts(s: State, a: Action, userId: UserId) {
    a.Move? && Creates(s, a.pid, userId) && s.procs[a.pid].pc.InsertRow?
  }

  /** An id drawn for a new row is not in use. */
  ghost predicate FreshId(s: State, a: Action) {
    a.Move? && a.pid in s.procs && s.procs[a.pid].pc.InsertRow? ==> a.id !in s.table
  }

  ghost predicate FreshAt(s: State, schedule: seq<Action>, j: nat) {
    j < |schedule| && FreshId(Exec(s, schedule[..j]), schedule[j])
  }

  ghost predicate FreshIds(s: State, schedule: seq<Action>) {
    forall j: nat | j < |schedule| :: FreshAt(s, schedule, j)
  }

  /** After an action the user has a live row exactly if it was an INSERT for the user, whether or not it met one,
      or there was one that it did not remove. */
  lemma LiveAfterStep(s: State, a: Action, userId: UserId)
    requires Inv(s) && FreshId(s, a)
    ensures HasLive(Step(s, a).table, userId)
            <==> Inserts(s, a, userId) || (HasLive(s.table, userId) && !RemovesLive(s, a, userId))
  {
    var s' := Step(s, a);
    if a.Move? && a.pid in s.procs {
      assert ProcessInv(s, a.pid);
      if s.procs[a.pid].request.AskCreate? && s.procs[a.pid].pc.InsertRow? {
        InsertLeavesLive(s, a.pid, a.id, userId);
      } else if s.procs[a.pid].request.AskRemove? && s.procs[a.pid].pc.SoftRemove? {
        RemovalTakesLive(s, a.pid, a.id, userId);
      } else {
        assert s'.table == s.table;
      }
    }
  }

  lemma InsertLeavesLive(s: State, p: Pid, id: ProfileId, userId: UserId)
    requires Inv(s) && p in s.procs && s.procs[p].request.AskCreate? && s.procs[p].pc.InsertRow? && id !in s.table
    ensures HasLive(Step(s, Move(p, id)).table, userId) <==> Creates(s, p, userId) || HasLive(s.table, userId)
  {
    var row := FreshRow(id, s.procs[p].request.profile);
    if Insert(s.table, row).Some? {
      InsertKeepsTable(s.table, row);
      forall i | i in s.table ensures LiveFor(Insert(s.table, row).value, i, userId) <==> LiveFor(s.table, i, userId) {
      }
    }
  }

  lemma RemovalTakesLive(s: State, p: Pid, id: ProfileId, userId: UserId)
    requires Inv(s) && p in s.procs && s.procs[p].request.AskRemove? && s.procs[p].pc.SoftRemove?
    ensures HasLive(Step(s, Move(p, id)).table, userId)
            <==> HasLive(s.table, userId) && !LiveFor(s.table, s.procs[p].pc.row, userId)
  {
    var t' := Step(s, Move(p, id)).table;
    forall i ensures LiveFor(t', i, userId) <==> LiveFor(s.table, i, userId) && i != s.procs[p].pc.row {
      assert ProcessInv(s, p);
    }
  }

  /** In the window, action k removes the user's live row, and no INSERT for the user comes after it. */
  ghost predicate RemovedLast(s: State, window: seq<Action>, userId: UserId, k: nat) {
    && k < |window|
    && RemovesLive(Exec(s, window[..k]), window[k], userId)
    && (forall j | k < j < |window| :: !Inserts(Exec(s, window[..j]), window[j], userId))
  }

  ghost predicate Vanishes(s: State, window: seq<Action>, userId: UserId) {
    exists k: nat :: RemovedLast(s, window, userId, k)
  }

  lemma ExecLast(s: State, schedule: seq<Action>)
    requires schedule != []
    ensures var n := |schedule| - 1; Exec(s, schedule) == Step(Exec(s, schedule[..n]), schedule[n])
  {
    var n := |schedule| - 1;
    assert schedule == schedule[..n] + [schedule[n]];
    ExecAppend(s, schedule[..n], schedule[n]);
  }

  lemma RemovedLastExtends(s: State, window: seq<Action>, userId: UserId, k: nat)
    requires window != []
    ensures var n := |window| - 1;
            RemovedLast(s, window, userId, k) <==>
              if k == n then RemovesLive(Exec(s, window[..n]), window[n], userId)
              else RemovedLast(s, window[..n], userId, k) && !Inserts(Exec(s, window[..n]), window[n], userId)
  {
    var n := |window| - 1;
    assert forall j | 0 <= j <= n :: window[..n][..j] == window[..j];
  }

  lemma FreshPrefix(s: State, schedule: seq<Action>, k: nat)
    requires FreshIds(s, schedule) && k <= |schedule|
    ensures FreshIds(s, schedule[..k])
  {
    forall j: nat | j < k ensures FreshAt(s, schedule[..k], j) {
      assert schedule[..k][..j] == schedule[..j];
      assert FreshAt(s, schedule, j);
    }
  }

  /** A window that starts with a live row ends without one exactly if the last thing it did to the user's row was to
      remove it. */
  lemma {:induction false} EmptyIffRemovedLast(s: State, window: seq<Action>, userId: UserId)
    requires Inv(s) && HasLive(s.table, userId) && FreshIds(s, window)
    ensures !HasLive(Exec(s, window).table, userId) <==> Vanishes(s, window, userId)
    decreases |window|
  {
    if window != [] {
      var n := |window| - 1;
      var t := Exec(s, window[..n]);
      FreshPrefix(s, window, n);
      assert FreshAt(s, window, n);
      EmptyIffRemovedLast(s, window[..n], userId);
      AtMostOneLiveRow(s, window[..n]);
      ExecLast(s, window);
      LiveAfterStep(t, window[n], userId);
      if k: nat :| RemovedLast(s, window, userId, k) {
        RemovedLastExtends(s, window, userId, k);
      }
      if RemovesLive(t, window[n], userId) {
        RemovedLastExtends(s, window, userId, n);
      } else if k: nat :| RemovedLast(s, window[..n], userId, k) {
        RemovedLastExtends(s, window, userId, k);
      }
    }
  }

  /** No action of call p. */
  predicate Pauses(window: seq<Action>, p: Pid) {
    forall a | a in window :: !(a.Move? && a.pid == p)
  }

  lemma {:induction false} PausedStays(s: State, window: seq<Action>, p: Pid)
    requires p in s.procs && Pauses(window, p)
    ensures p in Exec(s, window).procs && Exec(s, window).procs[p] == s.procs[p]
    decreases |window|
  {
    if window != [] {
      OnlyActorMoves(s, window[0], p);
      PausedStays(Step(s, window[0]), window[1..], p);
    }
  }

  /** The two statements of a create that did not find a row at first: its INSERT, and, whatever interleaves, what it
      does next. It fails exactly if the INSERT met a live row and the last thing done to that user's row in between
      was to remove it; otherwise it returns a row. */
  lemma CreateFailsIff(s: State, p: Pid, userId: UserId, id: ProfileId, window: seq<Action>, id': ProfileId)
    requires Inv(s) && Creates(s, p, userId) && s.procs[p].pc.InsertRow? && id !in s.table
    requires Pauses(window, p) && FreshIds(Step(s, Move(p, id)), window)
    ensures var s1 := Step(s, Move(p, id));
            var s2 := Step(Exec(s1, window), Move(p, id'));
            && p in s2.procs
            && (s2.procs[p].pc == Stopped(Failed)
                <==> HasLive(s.table, userId) && Vanishes(s1, window, userId))
            && (s2.procs[p].pc == Stopped(Failed) || s2.procs[p].pc.Returned?)
  {
    var s1 := Step(s, Move(p, id));
    StepKeeps(s, Move(p, id));
    PausedStays(s1, window, p);
    if HasLive(s.table, userId) {
      assert s1 == Goto(s, p, FindAgain);
      EmptyIffRemovedLast(s1, window, userId);
    } else {
      assert forall i :: !LiveFor(s.table, i, userId);
      assert s1.procs[p].pc.Returned?;
    }
  }

  // ----- the same over whole runs -----

  /** Action m is the INSERT of create p and meets a live row. */
  ghost predicate Conflicts(schedule: seq<Action>, p: Pid, userId: UserId, m: nat) {
    && m < |schedule| && schedule[m].Move? && schedule[m].pid == p
    && var s := Exec(INITIAL, schedule[..m]);
       Creates(s, p, userId) && s.procs[p].pc.InsertRow? && HasLive(s.table, userId)
  }

  /** Create p meets a live row at its INSERT, action m, and looks again at action n. */
  ghost predicate LooksAgain(schedule: seq<Action>, p: Pid, userId: UserId, m: nat, n: nat) {
    && m < n < |schedule|
    && Conflicts(schedule, p, userId, m)
    && Pauses(schedule[m + 1..n], p) && schedule[n].Move? && schedule[n].pid == p
  }

  /** In between that row was removed, and none inserted after it. */
  ghost predicate RowVanishes(schedule: seq<Action>, p: Pid, userId: UserId, m: nat, n: nat) {
    && LooksAgain(schedule, p, userId, m, n)
    && Vanishes(Exec(INITIAL, schedule[..m + 1]), schedule[m + 1..n], userId)
  }

  /** Create p has failed within the first k actions. */
  ghost predicate StoppedBy(schedule: seq<Action>, p: Pid, k: nat) {
    && k <= |schedule|
    && p in Exec(INITIAL, schedule[..k]).procs && Exec(INITIAL, schedule[..k]).procs[p].pc.Stopped?
  }

  lemma {:induction false} ExecSplit(s: State, a: seq<Action>, b: seq<Action>)
    ensures Exec(s, a + b) == Exec(Exec(s, a), b)
    decreases |b|
  {
    if b == [] {
      assert a + b == a;
    } else {
      var n := |b| - 1;
      assert a + b == (a + b[..n]) + [b[n]] && b == b[..n] + [b[n]];
      ExecSplit(s, a, b[..n]);
      ExecAppend(s, a + b[..n], b[n]);
      ExecAppend(Exec(s, a), b[..n], b[n]);
    }
  }

  lemma OnlyAConflictLooksAgain(s: State, a: Action, p: Pid, userId: UserId)
    requires FreshId(s, a) && Creates(Step(s, a), p, userId) && Step(s, a).procs[p].pc.FindAgain?
    ensures Creates(s, p, userId)
    ensures if a.Move? && a.pid == p then s.procs[p].pc.InsertRow? && HasLive(s.table, userId)
            else s.procs[p].pc.FindAgain?
  {
    if p in s.procs && !(a.Move? && a.pid == p) {
      OnlyActorMoves(s, a, p);
    }
  }

  /** A create about to look again has met a live row at its INSERT, and not moved since. */
  lemma {:induction false} ConflictPoint(schedule: seq<Action>, p: Pid, userId: UserId) returns (m: nat)
    requires FreshIds(INITIAL, schedule)
    requires Creates(Exec(INITIAL, schedule), p, userId) && Exec(INITIAL, schedule).procs[p].pc.FindAgain?
    ensures Conflicts(schedule, p, userId, m) && Pauses(schedule[m + 1..], p)
    decreases |schedule|
  {
    m := |schedule| - 1;
    ExecLast(INITIAL, schedule);
    assert FreshAt(INITIAL, schedule, m);
    OnlyAConflictLooksAgain(Exec(INITIAL, schedule[..m]), schedule[m], p, userId);
    if !(schedule[m].Move? && schedule[m].pid == p) {
      var n := m;
      FreshPrefix(INITIAL, schedule, n);
      m := ConflictPoint(schedule[..n], p, userId);
      assert schedule[..n][..m] == schedule[..m];
      assert schedule[m + 1..] == schedule[..n][m + 1..] + [schedule[n]];
    }
  }

  lemma PrefixExtends(schedule: seq<Action>, k: nat, n: nat)
    requires k <= n <= |schedule|
    ensures Exec(INITIAL, schedule[..n]) == Exec(Exec(INITIAL, schedule[..k]), schedule[k..n])
  {
    assert schedule[..n] == schedule[..k] + schedule[k..n];
    ExecSplit(INITIAL, schedule[..k], schedule[k..n]);
  }

  lemma RestFollows(schedule: seq<Action>, k: nat)
    requires k <= |schedule|
    ensures Exec(INITIAL, schedule) == Exec(Exec(INITIAL, schedule[..k]), schedule[k..])
  {
    assert schedule == schedule[..k] + schedule[k..];
    ExecSplit(INITIAL, schedule[..k], schedule[k..]);
  }

  lemma PrefixGrows(schedule: seq<Action>, n: nat)
    requires n < |schedule|
    ensures Exec(INITIAL, schedule[..n + 1]) == Step(Exec(INITIAL, schedule[..n]), schedule[n])
  {
    ExecLast(INITIAL, schedule[..n + 1]);
    assert schedule[..n + 1][..n] == schedule[..n];
  }

  lemma FreshWindow(schedule: seq<Action>, k: nat, n: nat)
    requires FreshIds(INITIAL, schedule) && k <= n <= |schedule|
    ensures FreshIds(Exec(INITIAL, schedule[..k]), schedule[k..n])
  {
    var window := schedule[k..n];
    forall j: nat | j < |window| ensures FreshAt(Exec(INITIAL, schedule[..k]), window, j) {
      PrefixExtends(schedule, k, k + j);
      assert window[..j] == schedule[k..k + j];
      assert FreshAt(INITIAL, schedule, k + j);
    }
  }

  /** The outcome of a create that has met a live row. */
  lemma ConflictOutcome(schedule: seq<Action>, p: Pid, userId: UserId, m: nat, n: nat)
    requires FreshIds(INITIAL, schedule) && LooksAgain(schedule, p, userId, m, n)
    ensures StoppedBy(schedule, p, n + 1) <==> RowVanishes(schedule, p, userId, m, n)
  {
    var s := Exec(INITIAL, schedule[..m]);
    AtMostOneLiveRow(INITIAL, schedule[..m]);
    assert FreshAt(INITIAL, schedule, m);
    PrefixGrows(schedule, m);
    PrefixGrows(schedule, n);
    PrefixExtends(schedule, m + 1, n);
    FreshWindow(schedule, m + 1, n);
    CreateFailsIff(s, p, userId, schedule[m].id, schedule[m + 1..n], schedule[n].id);
  }

  lemma {:induction false} StoppedStays(s: State, schedule: seq<Action>, p: Pid)
    requires p in s.procs && s.procs[p].pc.Stopped?
    ensures p in Exec(s, schedule).procs && Exec(s, schedule).procs[p] == s.procs[p]
    decreases |schedule|
  {
    if schedule != [] {
      if !(schedule[0].Move? && schedule[0].pid == p) {
        OnlyActorMoves(s, schedule[0], p);
      }
      StoppedStays(Step(s, schedule[0]), schedule[1..], p);
    }
  }

  lemma StoppedForGood(schedule: seq<Action>, k: nat, p: Pid)
    requires StoppedBy(schedule, p, k)
    ensures StoppedBy(schedule, p, |schedule|)
  {
    assert schedule[..|schedule|] == schedule;
    RestFollows(schedule, k);
    StoppedStays(Exec(INITIAL, schedule[..k]), schedule[k..], p);
  }

  lemma VanishedRowFails(schedule: seq<Action>, p: Pid, userId: UserId, m: nat, n: nat)
    requires FreshIds(INITIAL, schedule) && RowVanishes(schedule, p, userId, m, n)
    ensures StoppedBy(schedule, p, |schedule|)
  {
    ConflictOutcome(schedule, p, userId, m, n);
    StoppedForGood(schedule, n + 1, p);
  }

  lemma VanishesInPrefix(schedule: seq<Action>, p: Pid, userId: UserId, m: nat, n: nat, k: nat)
    requires k <= |schedule| && RowVanishes(schedule[..k], p, userId, m, n)
    ensures RowVanishes(schedule, p, userId, m, n)
  {
    assert schedule[..k][..m] == schedule[..m] && schedule[..k][..m + 1] == schedule[..m + 1];
    assert schedule[..k][m + 1..n] == schedule[m + 1..n];
  }

  lemma OnlyTheSecondLookUpFails(s: State, a: Action, p: Pid, userId: UserId)
    requires Creates(Step(s, a), p, userId) && Step(s, a).procs[p].pc.Stopped?
    ensures Creates(s, p, userId)
    ensures s.procs[p].pc.Stopped? || (a.Move? && a.pid == p && s.procs[p].pc.FindAgain?)
  {
    if p in s.procs && !(a.Move? && a.pid == p) {
      OnlyActorMoves(s, a, p);
    }
  }

  lemma {:induction false} FailureHasItsReason(schedule: seq<Action>, p: Pid, userId: UserId) returns (m: nat, n: nat)
    requires FreshIds(INITIAL, schedule)
    requires Creates(Exec(INITIAL, schedule), p, userId) && Exec(INITIAL, schedule).procs[p].pc.Stopped?
    ensures RowVanishes(schedule, p, userId, m, n)
    decreases |schedule|
  {
    var k := |schedule| - 1;
    ExecLast(INITIAL, schedule);
    FreshPrefix(INITIAL, schedule, k);
    OnlyTheSecondLookUpFails(Exec(INITIAL, schedule[..k]), schedule[k], p, userId);
    if Exec(INITIAL, schedule[..k]).procs[p].pc.Stopped? {
      m, n := FailureHasItsReason(schedule[..k], p, userId);
      VanishesInPrefix(schedule, p, userId, m, n, k);
    } else {
      n := k;
      m := ConflictPoint(schedule[..n], p, userId);
      assert schedule[..n][..m] == schedule[..m] && schedule[..n][m + 1..] == schedule[m + 1..n];
      assert schedule[..n + 1] == schedule;
      ConflictOutcome(schedule, p, userId, m, n);
    }
  }

  /** Over every run: a create has failed exactly if the row it met at its INSERT was gone by its second look-up. */
  lemma FailedIffRowVanished(schedule: seq<Action>, p: Pid, userId: UserId)
    requires FreshIds(INITIAL, schedule) && Creates(Exec(INITIAL, schedule), p, userId)
    ensures Exec(INITIAL, schedule).procs[p].pc.Stopped?
            <==> exists m: nat, n: nat :: RowVanishes(schedule, p, userId, m, n)
  {
    if m: nat, n: nat :| RowVanishes(schedule, p, userId, m, n) {
      VanishedRowFails(schedule, p, userId, m, n);
      assert schedule[..|schedule|] == schedule;
    }
    if Exec(INITIAL, schedule).procs[p].pc.Stopped? {
      var m, n := FailureHasItsReason(schedule, p, userId);
    }
  }

  /** Call 1 has met the row that call 2 inserted, and is about to look for it again. */
  ghost predicate InConflict(s: State, profile: NewProfile) {
    && s.table.Keys == {0} && LiveFor(s.table, 0, profile.userId) && s.table[0].id == 0
    && s.procs.Keys == {1, 2}
    && s.procs[1] == Process(AskCreate(profile), FindAgain)
  }

  lemma ReachConflict(profile: NewProfile) returns (schedule: seq<Action>, s: State)
    ensures Exec(INITIAL, schedule) == s && InConflict(s, profile)
  {
    schedule, s := [], INITIAL;
    schedule, s := Extend(schedule, s, Start(1, AskCreate(profile)));
    schedule, s := Extend(schedule, s, Move(1, 0));
    schedule, s := Extend(schedule, s, Start(2, AskCreate(profile)));
    schedule, s := Extend(schedule, s, Move(2, 0));
    assert forall i :: !LiveFor(s.table, i, profile.userId);
    schedule, s := Extend(schedule, s, Move(2, 0));
    assert LiveFor(s.table, 0, profile.userId);
    schedule, s := Extend(schedule, s, Move(1, 1));
  }

  /** A removal between the conflicting INSERT and the second look-up makes a create fail. */
  lemma RemovalCanFailACreate(profile: NewProfile)
    ensures exists schedule: seq<Action> ::
              var s := Exec(INITIAL, schedule);
              Creates(s, 1, profile.userId) && s.procs[1].pc == Stopped(Failed)
  {
    var schedule, s := ReachConflict(profile);
    schedule, s := Extend(schedule, s, Start(3, AskRemove(profile.userId)));
    schedule, s := Extend(schedule, s, Move(3, 0));
    schedule, s := Extend(schedule, s, Move(3, 0));
    assert forall i :: !LiveFor(s.table, i, profile.userId);
    schedule, s := Extend(schedule, s, Move(1, 0));
  }

  lemma Extend(schedule: seq<Action>, s: State, a: Action) returns (schedule': seq<Action>, s': State)
    requires Exec(INITIAL, schedule) == s
    ensures schedule' == schedule + [a] && s' == Step(s, a) && Exec(INITIAL, schedule') == s'
  {
    schedule', s' := schedule + [a], Step(s, a);
    ExecAppend(INITIAL, schedule, a);
  }

  lemma {:induction false} ExecAppend(s: State, schedule: seq<Action>, a: Action)
    ensures Exec(s, schedule + [a]) == Step(Exec(s, schedule), a)
    decreases |schedule|
  {
    if schedule == [] {
      assert schedule + [a] == [a] && [a][1..] == [];
    } else {
      assert (schedule + [a])[0] == schedule[0] && (schedule + [a])[1..] == schedule[1..] + [a];
      ExecAppend(Step(s, schedule[0]), schedule[1..], a);
    }
  }
}
