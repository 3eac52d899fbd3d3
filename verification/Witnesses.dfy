/** Concrete schedules showing where a plausible promise of the auth service stops holding. */
module Witnesses {
  import opened Options
  import opened Emails
  import opened Tokens
  import opened AuthStore
  import opened AuthHandlers
  import opened AuthMachine

  const EMAIL := "a"
  const PASSWORD := "p"
  const ANY_HASH := Sha256(Opaque(""))

  /** The clock stands at `start`; call 1 has stored the account and call 2 has logged in to it. */
  ghost predicate BothIssuing(s: State, start: Millis) {
    var user := NewUser(0, EMAIL, PASSWORD);
    && s.db == Db(map[0 := user], map[])
    && s.procs.Keys == {1, 2}
    && s.procs[1] == Process(AskRegister(EMAIL, PASSWORD), IssueAccess(NoTx, user))
    && s.procs[2] == Process(AskLogin(EMAIL, PASSWORD), IssueAccess(NoTx, user))
    && s.tokenLock == map[] && s.userLock == map[] && s.births == map[] && s.log == [] && s.now == start
  }

  lemma ReachBothIssuing(cfg: Config, start: Millis) returns (schedule: seq<Action>, s: State)
    requires cfg.compare(PASSWORD, PASSWORD)
    ensures Exec(cfg, INITIAL, schedule) == s && BothIssuing(s, start)
  {
    schedule, s := [], INITIAL;
    schedule, s := Extend(cfg, INITIAL, schedule, s, Tick(start));
    schedule, s := Extend(cfg, INITIAL, schedule, s, Start(1, AskRegister(EMAIL, PASSWORD)));
    assert Normalize(EMAIL) == EMAIL by {
      assert Lower(EMAIL) == EMAIL;
    }
    assert FindByEmail(s.db, EMAIL) == None;
    schedule, s := Extend(cfg, INITIAL, schedule, s, Move(1, 0, ANY_HASH));
    var user := NewUser(0, EMAIL, PASSWORD);
    assert InsertUser(s.db, user) == Some(Db(map[0 := user], map[])) by {
      assert forall id :: !HoldsEmail(s.db, id, EMAIL);
    }
    schedule, s := Extend(cfg, INITIAL, schedule, s, Move(1, 0, ANY_HASH));
    schedule, s := Extend(cfg, INITIAL, schedule, s, Start(2, AskLogin(EMAIL, PASSWORD)));
    assert HoldsEmail(s.db, 0, EMAIL);
    assert FindByEmail(s.db, EMAIL) == Some(user);
    schedule, s := Extend(cfg, INITIAL, schedule, s, Move(2, 0, ANY_HASH));
  }

  /** An issuance outside a transaction, run from its refresh signature to its INSERT with nothing in between. */
  lemma FinishIssuing(cfg: Config, schedule: seq<Action>, s: State, p: Pid, user: User, access: Millis)
      returns (schedule': seq<Action>, s': State)
    requires Exec(cfg, INITIAL, schedule) == s
    requires p in s.procs && s.procs[p].pc == IssueRefresh(NoTx, user, access)
    ensures Exec(cfg, INITIAL, schedule') == s'
    ensures s' == InsertStep(cfg, Goto(s, p, IssueInsert(NoTx, user, access, s.now, s.now)),
                             p, NoTx, user, access, s.now, s.now)
  {
    schedule', s' := Extend(cfg, INITIAL, schedule, s, Move(p, 0, ANY_HASH));
    schedule', s' := Extend(cfg, INITIAL, schedule', s', Move(p, 0, ANY_HASH));
    assert s' == Goto(s, p, IssueInsert(NoTx, user, access, s.now, s.now));
    schedule', s' := Extend(cfg, INITIAL, schedule', s', Move(p, 0, ANY_HASH));
  }

  /** Two issuances whose access tokens are signed in one second and whose refresh tokens are signed in
      different seconds hand out the same access token. */
  lemma AccessTokensCanCoincide(cfg: Config)
    requires cfg.Valid() && cfg.compare(PASSWORD, PASSWORD)
    ensures exists schedule: seq<Action> ::
              var s := Exec(cfg, INITIAL, schedule);
              && |s.log| == 2 && s.log[0].Issued? && s.log[1].Issued?
              && s.log[0].pid != s.log[1].pid
              && s.log[0].tokens.accessToken == s.log[1].tokens.accessToken
  {
    var schedule, s := ReachFirstIssued(cfg);
    schedule, s := IssueAcrossTheSecond(cfg, schedule, s);
  }

  /** Call 1 has stored its token; call 2 has signed its access token in the same millisecond. */
  ghost predicate FirstIssued(cfg: Config, s: State) {
    var user := NewUser(0, EMAIL, PASSWORD);
    && s.now == 999 && s.tokenLock == map[]
    && s.db.tokens.Keys == {Sha256(SignRefresh(cfg, user.Who(), 999))}
    && 2 in s.procs && s.procs[2] == Process(AskLogin(EMAIL, PASSWORD), IssueRefresh(NoTx, user, 999))
    && |s.log| == 1 && s.log[0].Issued? && s.log[0].pid == 1
    && s.log[0].tokens.accessToken == SignAccess(cfg, user.Who(), 999)
  }

  lemma ReachFirstIssued(cfg: Config) returns (schedule: seq<Action>, s: State)
    requires cfg.compare(PASSWORD, PASSWORD)
    ensures Exec(cfg, INITIAL, schedule) == s && FirstIssued(cfg, s)
  {
    schedule, s := ReachBothIssuing(cfg, 999);
    var user := NewUser(0, EMAIL, PASSWORD);
    schedule, s := Extend(cfg, INITIAL, schedule, s, Move(1, 0, ANY_HASH));
    schedule, s := Extend(cfg, INITIAL, schedule, s, Move(2, 0, ANY_HASH));
    schedule, s := FinishIssuing(cfg, schedule, s, 1, user, 999);
  }

  lemma IssueAcrossTheSecond(cfg: Config, schedule: seq<Action>, s: State) returns (schedule': seq<Action>, s': State)
    requires Exec(cfg, INITIAL, schedule) == s && FirstIssued(cfg, s)
    ensures Exec(cfg, INITIAL, schedule') == s'
    ensures |s'.log| == 2 && s'.log[0] == s.log[0] && s'.log[1].Issued? && s'.log[1].pid == 2
    ensures s'.log[1].tokens.accessToken == SignAccess(cfg, Identity(0, EMAIL, Member), 999)
  {
    var user := NewUser(0, EMAIL, PASSWORD);
    schedule', s' := Extend(cfg, INITIAL, schedule, s, Tick(1));
    assert Sha256(SignRefresh(cfg, user.Who(), 1000)) !in s'.db.tokens;
    schedule', s' := FinishIssuing(cfg, schedule', s', 2, user, 999);
  }

  /** A login that slips in between a registration's two INSERTs, in the same second, takes the very token
      the registration is about to store: the registration then reports a conflict although its account
      exists and nobody else registered. */
  lemma RegistrationCanConflictWithItself(cfg: Config)
    requires cfg.Valid() && cfg.compare(PASSWORD, PASSWORD)
    ensures exists schedule: seq<Action> ::
              var s := Exec(cfg, INITIAL, schedule);
              && s.procs.Keys == {1, 2}
              && s.procs[1] == Process(AskRegister(EMAIL, PASSWORD), Done(Conflict))
              && s.procs[2].request == AskLogin(EMAIL, PASSWORD)
              && HoldsEmail(s.db, 0, EMAIL)
  {
    var schedule, s := ReachBothIssuing(cfg, 0);
    var user := NewUser(0, EMAIL, PASSWORD);
    schedule, s := Extend(cfg, INITIAL, schedule, s, Move(1, 0, ANY_HASH));
    schedule, s := Extend(cfg, INITIAL, schedule, s, Move(2, 0, ANY_HASH));
    schedule, s := FinishIssuing(cfg, schedule, s, 2, user, 0);
    assert Sha256(SignRefresh(cfg, user.Who(), 0)) in s.db.tokens;
    schedule, s := FinishIssuing(cfg, schedule, s, 1, user, 0);
  }

  /** An uninterrupted deactivation of an account without tokens. */
  lemma DeactivateBetween(cfg: Config, schedule: seq<Action>, s: State) returns (schedule': seq<Action>, s': State)
    requires Exec(cfg, INITIAL, schedule) == s
    requires 3 !in s.procs && s.db.tokens == map[] && s.tokenLock == map[] && s.userLock == map[]
    requires Live(s.db, 0) && s.db.users[0].id == 0
    ensures Exec(cfg, INITIAL, schedule') == s'
    ensures 3 in s'.procs && s'.procs[3] == Process(AskDeactivate(0), Done(Ack)) && Dead(s'.db, 0)
    ensures s'.db.tokens == map[] && s'.tokenLock == map[] && s'.now == s.now
    ensures forall q | q in s.procs :: q in s'.procs && s'.procs[q] == s.procs[q]
  {
    schedule', s' := Extend(cfg, INITIAL, schedule, s, Start(3, AskDeactivate(0)));
    schedule', s' := Extend(cfg, INITIAL, schedule', s', Move(3, 0, ANY_HASH));
    assert s'.procs[3] == Process(AskDeactivate(0), DeactivateWrite);
    schedule', s' := SwitchOff(cfg, schedule', s');
    schedule', s' := FinishDeactivating(cfg, schedule', s');
  }

  lemma SwitchOff(cfg: Config, schedule: seq<Action>, s: State) returns (schedule': seq<Action>, s': State)
    requires Exec(cfg, INITIAL, schedule) == s
    requires 3 in s.procs && s.procs[3] == Process(AskDeactivate(0), DeactivateWrite)
    requires s.db.tokens == map[] && s.userLock == map[] && Live(s.db, 0) && s.db.users[0].id == 0
    ensures Exec(cfg, INITIAL, schedule') == s'
    ensures s'.procs == s.procs[3 := Process(AskDeactivate(0), RevokeEach(0, {}, {}))]
    ensures s'.db.tokens == map[] && s'.tokenLock == s.tokenLock && s'.userLock == map[] && s'.now == s.now
    ensures 0 in s'.db.users && s'.db.users[0].id == 0 && !s'.db.users[0].isActive
  {
    schedule', s' := Extend(cfg, INITIAL, schedule, s, Move(3, 0, ANY_HASH));
    assert s'.procs[3].pc == RevokeStart(0) && UnrevokedOf(s'.db, 0) == {};
    schedule', s' := Extend(cfg, INITIAL, schedule', s', Move(3, 0, ANY_HASH));
  }

  lemma FinishDeactivating(cfg: Config, schedule: seq<Action>, s: State) returns (schedule': seq<Action>, s': State)
    requires Exec(cfg, INITIAL, schedule) == s
    requires 3 in s.procs && s.procs[3] == Process(AskDeactivate(0), RevokeEach(0, {}, {}))
    requires s.db.tokens == map[] && s.tokenLock == map[] && s.userLock == map[]
    requires 0 in s.db.users && s.db.users[0].id == 0 && !s.db.users[0].isActive
    ensures Exec(cfg, INITIAL, schedule') == s'
    ensures s'.procs == s.procs[3 := Process(AskDeactivate(0), Done(Ack))] && Dead(s'.db, 0)
    ensures s'.db.tokens == map[] && s'.tokenLock == map[] && s'.now == s.now
  {
    schedule', s' := Extend(cfg, INITIAL, schedule, s, Move(3, 0, ANY_HASH));
    assert s'.db.tokens == map[] && s'.userLock == map[];
    schedule', s' := Extend(cfg, INITIAL, schedule', s', Move(3, 0, ANY_HASH));
  }

  /** A login that read the account before it was switched off may store its token after the sweep: the account
      is dead and yet has an unrevoked row. (No refresh will ever accept it: DeactivationBeatsRefresh.) */
  lemma LateLoginLeavesUnrevokedRow(cfg: Config)
    requires cfg.Valid() && cfg.compare(PASSWORD, PASSWORD)
    ensures exists schedule: seq<Action>, hash: TokenHash ::
              var s := Exec(cfg, INITIAL, schedule);
              && 3 in s.procs && s.procs[3] == Process(AskDeactivate(0), Done(Ack))
              && Dead(s.db, 0)
              && hash in s.db.tokens && s.db.tokens[hash].userId == 0 && !s.db.tokens[hash].revoked
  {
    var schedule, s := ReachBothIssuing(cfg, 0);
    var user := NewUser(0, EMAIL, PASSWORD);
    schedule, s := Extend(cfg, INITIAL, schedule, s, Move(2, 0, ANY_HASH));
    schedule, s := DeactivateBetween(cfg, schedule, s);
    schedule, s := FinishIssuing(cfg, schedule, s, 2, user, 0);
    var hash := Sha256(SignRefresh(cfg, user.Who(), 0));
    assert hash in s.db.tokens && s.db.tokens[hash].userId == 0 && !s.db.tokens[hash].revoked;
  }
}
