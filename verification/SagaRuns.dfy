/** Runs in which the gateway's operations come to their end: from any state that a run can reach, and whatever is
    under way there. */
module SagaRuns {
  import opened Emails
  import opened Tokens
  import opened AuthStore
  import opened AuthHistory
  import opened AuthEffects
  import opened Profiles
  import opened Sagas

  const NO_WAITS := Waits(0, 0, 0, 0, 0)

  lemma {:induction false} ExecAppend(cfg: Config, s: State, a: seq<Action>, b: seq<Action>)
    ensures Exec(cfg, s, a + b) == Exec(cfg, Exec(cfg, s, a), b)
    decreases |a|
  {
    if a == [] {
      assert a + b == b;
    } else {
      assert (a + b)[0] == a[0] && (a + b)[1..] == a[1..] + b;
      ExecAppend(cfg, Sagas.Step(cfg, s, a[0]), a[1..], b);
    }
  }

  lemma Extend(cfg: Config, start: State, schedule: seq<Action>, s: State, a: Action)
      returns (schedule': seq<Action>, s': State)
    requires Inv(cfg, s) && Exec(cfg, start, schedule) == s
    ensures s' == Sagas.Step(cfg, s, a) && Inv(cfg, s') && Exec(cfg, start, schedule') == s'
  {
    schedule', s' := schedule + [a], Sagas.Step(cfg, s, a);
    Sagas.StepKeeps(cfg, s, a);
    ExecAppend(cfg, start, schedule, [a]);
    assert [a][1..] == [];
  }

  lemma HandlingMovesNobody(cfg: Config, s: State, m: Message, id: nat, hashed: string)
    ensures Handle(cfg, s, m, id, hashed, NO_WAITS).sagas == s.sagas
  {
  }

  lemma HearingEnters(cfg: Config, s: State, p: Pid, answer: Answer)
    requires p in s.sagas && Awaited(p, s.sagas[p]).Some?
    requires Delivery(Awaited(p, s.sagas[p]).value, answer) in s.replies
    ensures Sagas.Step(cfg, s, Hear(p, answer)) == Enter(s, p, AfterReply(s.sagas[p], answer))
  {
  }

  /** A message is handled and its reply heard. */
  lemma RoundTrip(
      cfg: Config, start: State, schedule: seq<Action>, s: State, p: Pid, id: nat, hashed: string, answer: Answer)
      returns (schedule': seq<Action>, s': State)
    requires Inv(cfg, s) && Exec(cfg, start, schedule) == s
    requires p in s.sagas && Awaited(p, s.sagas[p]).Some? && Awaited(p, s.sagas[p]).value in s.sent
    requires Delivery(Awaited(p, s.sagas[p]).value, answer)
             in Handle(cfg, s, Awaited(p, s.sagas[p]).value, id, hashed, NO_WAITS).replies
    ensures Inv(cfg, s') && Exec(cfg, start, schedule') == s'
    ensures s' == Enter(Handle(cfg, s, Awaited(p, s.sagas[p]).value, id, hashed, NO_WAITS), p,
                        AfterReply(s.sagas[p], answer))
  {
    var m := Awaited(p, s.sagas[p]).value;
    var handled := Handle(cfg, s, m, id, hashed, NO_WAITS);
    HandlingMovesNobody(cfg, s, m, id, hashed);
    schedule', s' := Extend(cfg, start, schedule, s, Deliver(m, id, hashed, NO_WAITS));
    assert s' == handled;
    HearingEnters(cfg, handled, p, answer);
    schedule', s' := Extend(cfg, start, schedule', handled, Hear(p, answer));
  }

  lemma RegisterLeg(
      cfg: Config, start: State, schedule: seq<Action>, s: State, p: Pid, dto: Dto, hashed: string, id: UserId)
      returns (schedule': seq<Action>, s': State)
    requires Inv(cfg, s) && Exec(cfg, start, schedule) == s
    requires p in s.sagas && s.sagas[p] == Registering(dto) && Message(p, RegisterAccount(dto)) in s.sent
    requires Free(s.auth.db, Normalize(dto.email)) && id !in s.auth.db.users
    ensures Inv(cfg, s') && Exec(cfg, start, schedule') == s' && s'.profiles == s.profiles
    ensures p in s'.sagas && s'.sagas[p].Profiling? && s'.sagas[p].dto == dto && s'.sagas[p].account.id == id
    ensures Awaited(p, s'.sagas[p]).value in s'.sent && Live(s'.auth.db, id)
  {
    var call := Call(DoRegister(dto.email, hashed, id), NO_WAITS);
    Auth.RegistrableIffFree(cfg, s.auth.db, dto.email, hashed, id, Reading(s.auth.clock, NO_WAITS));
    AnswersDescribeTheRow(cfg, s.auth, call);
    schedule', s' := RoundTrip(cfg, start, schedule, s, p, id, hashed, FromAuth(Serve(cfg, s.auth, call).reply));
  }

  /** A registration of a free address gets as far as asking for the profile. */
  lemma ReachProfiling(cfg: Config, s: State, p: Pid, dto: Dto, hashed: string, id: UserId)
      returns (schedule: seq<Action>, end: State)
    requires Inv(cfg, s) && p !in s.sagas && Free(s.auth.db, Normalize(dto.email)) && id !in s.auth.db.users
    ensures Inv(cfg, end) && Exec(cfg, s, schedule) == end && end.profiles == s.profiles
    ensures p in end.sagas && end.sagas[p].Profiling? && end.sagas[p].dto == dto && end.sagas[p].account.id == id
    ensures Awaited(p, end.sagas[p]).value in end.sent && Live(end.auth.db, id)
  {
    schedule, end := Extend(cfg, s, [], s, StartRegister(p, dto));
    schedule, end := RegisterLeg(cfg, s, schedule, end, p, dto, hashed, id);
  }

  lemma ProfileLeg(cfg: Config, start: State, schedule: seq<Action>, s: State, p: Pid, profileId: ProfileId)
      returns (schedule': seq<Action>, s': State)
    requires Inv(cfg, s) && Exec(cfg, start, schedule) == s
    requires p in s.sagas && s.sagas[p].Profiling? && Awaited(p, s.sagas[p]).value in s.sent
    requires profileId !in s.profiles && forall i :: !LiveFor(s.profiles, i, s.sagas[p].account.id)
    ensures Exec(cfg, start, schedule') == s' && p in s'.sagas && s'.sagas[p].Registered?
  {
    var saga := s.sagas[p];
    var profile := NewProfile(saga.account.id, saga.account.email, saga.dto.firstName, saga.dto.lastName);
    CreateExactly(s.profiles, profile, profileId);
    var answer := FromUsers(Create(s.profiles, profile, profileId).reply);
    schedule', s' := RoundTrip(cfg, start, schedule, s, p, profileId, "", answer);
  }

  /** A registration can succeed. */
  lemma RegistrationCanSucceed(
      cfg: Config, s: State, p: Pid, dto: Dto, hashed: string, id: UserId, profileId: ProfileId)
      returns (schedule: seq<Action>)
    requires Inv(cfg, s) && p !in s.sagas && Free(s.auth.db, Normalize(dto.email)) && id !in s.auth.db.users
    requires profileId !in s.profiles
    ensures var end := Exec(cfg, s, schedule); p in end.sagas && end.sagas[p].Registered?
  {
    var end;
    schedule, end := ReachProfiling(cfg, s, p, dto, hashed, id);
    forall i ensures !LiveFor(end.profiles, i, id) {
      if i in s.profiles {
        assert GoodProfile(s, i);
      }
    }
    schedule, end := ProfileLeg(cfg, s, schedule, end, p, profileId);
  }

  lemma DeactivationIsAcknowledged(cfg: Config, s: State, m: Message, id: UserId)
    requires Inv(cfg, s) && m.body == DeactivateAccount(id) && Live(s.auth.db, id)
    ensures Delivery(m, FromAuth(Auth.Ack)) in Handle(cfg, s, m, 0, "", NO_WAITS).replies
    ensures Handle(cfg, s, m, 0, "", NO_WAITS).profiles == s.profiles
    ensures Handle(cfg, s, m, 0, "", NO_WAITS).sagas == s.sagas
  {
    RefusalsExactly(cfg, s.auth.db, id, "", "", "", Reading(s.auth.clock, NO_WAITS));
  }

  lemma CompensationLeg(cfg: Config, start: State, schedule: seq<Action>, s: State, p: Pid, account: Auth.UserView)
      returns (schedule': seq<Action>, s': State)
    requires Inv(cfg, s) && Exec(cfg, start, schedule) == s
    requires p in s.sagas && s.sagas[p] == Compensating(account) && CompensationSent(s, p, account)
    requires Live(s.auth.db, account.id)
    ensures Inv(cfg, s') && Exec(cfg, start, schedule') == s' && p in s'.sagas && s'.sagas[p] == Compensated(account)
  {
    DeactivationIsAcknowledged(cfg, s, Message(p, DeactivateAccount(account.id)), account.id);
    schedule', s' := RoundTrip(cfg, start, schedule, s, p, 0, "", FromAuth(Auth.Ack));
  }

  /** A registration whose profile is not created in time can be compensated. */
  lemma CompensationCanSucceed(cfg: Config, s: State, p: Pid, dto: Dto, hashed: string, id: UserId)
      returns (schedule: seq<Action>)
    requires Inv(cfg, s) && p !in s.sagas && Free(s.auth.db, Normalize(dto.email)) && id !in s.auth.db.users
    ensures var end := Exec(cfg, s, schedule);
            p in end.sagas && end.sagas[p].Compensated? && end.sagas[p].account.id == id
  {
    var end;
    schedule, end := ReachProfiling(cfg, s, p, dto, hashed, id);
    var account := end.sagas[p].account;
    schedule, end := Extend(cfg, s, schedule, end, GiveUp(p));
    schedule, end := CompensationLeg(cfg, s, schedule, end, p, account);
  }

  lemma FindIsAnswered(cfg: Config, s: State, m: Message, profileId: ProfileId)
    requires m.body == FindProfile(profileId) && TableInv(s.profiles)
    requires profileId in s.profiles && !s.profiles[profileId].deleted
    ensures Delivery(m, FromUsers(View(s.profiles[profileId]))) in Handle(cfg, s, m, 0, "", NO_WAITS).replies
    ensures Handle(cfg, s, m, 0, "", NO_WAITS).profiles == s.profiles
    ensures Handle(cfg, s, m, 0, "", NO_WAITS).auth == s.auth && Handle(cfg, s, m, 0, "", NO_WAITS).sagas == s.sagas
  {
    FindOneExactly(s.profiles, profileId);
  }

  lemma FindToRemoveLeg(cfg: Config, start: State, schedule: seq<Action>, s: State, p: Pid, profileId: ProfileId)
      returns (schedule': seq<Action>, s': State)
    requires Inv(cfg, s) && Exec(cfg, start, schedule) == s
    requires p in s.sagas && s.sagas[p] == Finding(profileId) && Message(p, FindProfile(profileId)) in s.sent
    requires profileId in s.profiles && !s.profiles[profileId].deleted
    ensures Inv(cfg, s') && Exec(cfg, start, schedule') == s' && s'.profiles == s.profiles && s'.auth == s.auth
    ensures var owner := s.profiles[profileId].userId;
            p in s'.sagas && s'.sagas[p] == Deactivating(owner) && Message(p, DeactivateAccount(owner)) in s'.sent
  {
    FindIsAnswered(cfg, s, Message(p, FindProfile(profileId)), profileId);
    schedule', s' := RoundTrip(cfg, start, schedule, s, p, 0, "", FromUsers(View(s.profiles[profileId])));
  }

  lemma FindToUpdateLeg(
      cfg: Config, start: State, schedule: seq<Action>, s: State, p: Pid, profileId: ProfileId, changes: Changes)
      returns (schedule': seq<Action>, s': State)
    requires Inv(cfg, s) && Exec(cfg, start, schedule) == s
    requires p in s.sagas && s.sagas[p] == FindingToUpdate(profileId, changes)
    requires Message(p, FindProfile(profileId)) in s.sent && profileId in s.profiles && !s.profiles[profileId].deleted
    ensures Inv(cfg, s') && Exec(cfg, start, schedule') == s' && s'.profiles == s.profiles
    ensures var owner := s.profiles[profileId].userId;
            && p in s'.sagas && s'.sagas[p] == Updating(owner, changes)
            && Message(p, UpdateProfile(owner, changes)) in s'.sent
  {
    FindIsAnswered(cfg, s, Message(p, FindProfile(profileId)), profileId);
    schedule', s' := RoundTrip(cfg, start, schedule, s, p, 0, "", FromUsers(View(s.profiles[profileId])));
  }

  lemma DeactivateLeg(cfg: Config, start: State, schedule: seq<Action>, s: State, p: Pid, owner: UserId)
      returns (schedule': seq<Action>, s': State)
    requires Inv(cfg, s) && Exec(cfg, start, schedule) == s
    requires p in s.sagas && s.sagas[p] == Deactivating(owner) && Message(p, DeactivateAccount(owner)) in s.sent
    requires Live(s.auth.db, owner)
    ensures Inv(cfg, s') && Exec(cfg, start, schedule') == s' && s'.profiles == s.profiles
    ensures p in s'.sagas && s'.sagas[p] == Removing(owner) && Message(p, RemoveProfile(owner)) in s'.sent
  {
    DeactivationIsAcknowledged(cfg, s, Message(p, DeactivateAccount(owner)), owner);
    schedule', s' := RoundTrip(cfg, start, schedule, s, p, 0, "", FromAuth(Auth.Ack));
  }

  lemma RemoveLeg(cfg: Config, start: State, schedule: seq<Action>, s: State, p: Pid, owner: UserId, row: ProfileId)
      returns (schedule': seq<Action>, s': State)
    requires Inv(cfg, s) && Exec(cfg, start, schedule) == s && LiveFor(s.profiles, row, owner)
    requires p in s.sagas && s.sagas[p] == Removing(owner) && Message(p, RemoveProfile(owner)) in s.sent
    ensures Exec(cfg, start, schedule') == s' && p in s'.sagas && s'.sagas[p] == Removed(owner)
  {
    RemoveExactly(s.profiles, owner);
    schedule', s' := RoundTrip(cfg, start, schedule, s, p, 0, "", FromUsers(Deleted));
  }

  /** The removal of a live profile with a live account can succeed. */
  lemma RemovalCanSucceed(cfg: Config, s: State, p: Pid, profileId: ProfileId) returns (schedule: seq<Action>)
    requires Inv(cfg, s) && p !in s.sagas
    requires profileId in s.profiles && !s.profiles[profileId].deleted && Live(s.auth.db, s.profiles[profileId].userId)
    ensures var end := Exec(cfg, s, schedule);
            p in end.sagas && end.sagas[p] == Removed(s.profiles[profileId].userId)
  {
    var owner := s.profiles[profileId].userId;
    var end;
    schedule, end := Extend(cfg, s, [], s, StartRemove(p, profileId));
    schedule, end := FindToRemoveLeg(cfg, s, schedule, end, p, profileId);
    schedule, end := DeactivateLeg(cfg, s, schedule, end, p, owner);
    schedule, end := RemoveLeg(cfg, s, schedule, end, p, owner, profileId);
  }

  lemma UpdateLeg(
      cfg: Config, start: State, schedule: seq<Action>, s: State, p: Pid, owner: UserId, changes: Changes,
      row: ProfileId)
      returns (schedule': seq<Action>, s': State)
    requires Inv(cfg, s) && Exec(cfg, start, schedule) == s && LiveFor(s.profiles, row, owner)
    requires p in s.sagas && s.sagas[p] == Updating(owner, changes)
    requires Message(p, UpdateProfile(owner, changes)) in s.sent
    ensures Exec(cfg, start, schedule') == s' && p in s'.sagas && s'.sagas[p].Updated?
  {
    UpdateChangesWhatIsGiven(s.profiles, owner, changes, row);
    schedule', s' := RoundTrip(cfg, start, schedule, s, p, 0, "", FromUsers(Update(s.profiles, owner, changes).reply));
  }

  /** The update of a live profile can succeed. */
  lemma UpdateCanSucceed(cfg: Config, s: State, p: Pid, profileId: ProfileId, changes: Changes)
      returns (schedule: seq<Action>)
    requires Inv(cfg, s) && p !in s.sagas && profileId in s.profiles && !s.profiles[profileId].deleted
    ensures var end := Exec(cfg, s, schedule); p in end.sagas && end.sagas[p].Updated?
  {
    var end;
    schedule, end := Extend(cfg, s, [], s, StartUpdate(p, profileId, changes));
    schedule, end := FindToUpdateLeg(cfg, s, schedule, end, p, profileId, changes);
    schedule, end := UpdateLeg(cfg, s, schedule, end, p, s.profiles[profileId].userId, changes, profileId);
  }
}
