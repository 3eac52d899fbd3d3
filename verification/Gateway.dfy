/** The gateway's admission decision and its runs, with the expiring blacklist and with a permanent one. */
module Gateway {
  import opened Options
  import opened Duration
  import opened Tokens
  import opened Blacklist
  import opened AuthHandlers

  /** A missing header, or the canonical one of section 2.1 of RFC 6750. */
  datatype Header = Missing | Bearer(token: Token)

  /** How the auth service answers the strategy's validate message. */
  datatype Lookup = Account(user: UserView) | Refused(status: nat) | Unreachable

  datatype Decision = Pass | Admit(user: UserView) | Deny(status: nat)

  /** JwtStrategy.validate. */
  function Strategy(claims: Claims, lookup: Lookup): Decision {
    if claims.typ != AccessType then Deny(401)
    else match lookup
      case Account(user) => Admit(user)
      case Refused(status) => if status == 403 then Deny(403) else Deny(401)
      case Unreachable => Deny(503)
  }

  /** passport-jwt: signature and expiry, then the strategy. Only tokens that were issued carry a signature. */
  function Passport(secret: string, issued: set<Token>, header: Header, now: Millis, lookup: Lookup): Decision {
    match header
    case Missing => Deny(401)
    case Bearer(token) =>
      if token in issued && Verifies(secret, token, now) then Strategy(token.claims, lookup) else Deny(401)
  }

  /** JwtAuthGuard.canActivate. */
  function CanActivate(secret: string, isPublic: bool, issued: set<Token>, header: Header, isRevoked: bool,
                       now: Millis, lookup: Lookup): Decision {
    if isPublic then Pass
    else if header.Bearer? && isRevoked then Deny(401)
    else Passport(secret, issued, header, now, lookup)
  }

  // ----- runs -----

  datatype Memory = Ttl(store: map<TokenHash, Millis>) | Forever(revoked: set<TokenHash>)

  /** A request that the guard has looked up in the blacklist and not yet passed on to passport. */
  datatype Check = Check(isPublic: bool, header: Header, isRevoked: bool)

  type VisitId = nat

  datatype State = State(
    issued: set<Token>,
    admitted: set<Token>,
    now: Millis,
    memory: Memory,
    checks: map<VisitId, Check>)

  /** `lifetime` is what the JWT library makes of the configured access lifetime, `ttl` what the blacklist does. */
  datatype Settings = Settings(secret: string, lifetime: nat, ttl: nat)

  datatype Event =
    | IssueAccess(who: Identity)
    | IssueOther(token: Token)
    | Tick(delay: nat)
    | Expire(key: TokenHash)
    | Arrive(visit: VisitId, isPublic: bool, header: Header)
    | Authenticate(visit: VisitId, lookup: Lookup)
    | Revoke(token: Token)

  function SignedAccess(cfg: Settings, who: Identity, now: Millis): Token {
    Jwt(cfg.secret, Claims(who.id, who.email, who.role, AccessType, now / 1000, now / 1000 + cfg.lifetime))
  }

  predicate IsRevoked(memory: Memory, token: Token) {
    match memory
    case Ttl(store) => Sha256(token) in store
    case Forever(revoked) => Sha256(token) in revoked
  }

  /** What becomes of a request whose blacklist look-up is done: the token is verified now. */
  function Answer(cfg: Settings, s: State, visit: VisitId, lookup: Lookup): Decision
    requires visit in s.checks
  {
    var c := s.checks[visit];
    CanActivate(cfg.secret, c.isPublic, s.issued, c.header, c.isRevoked, s.now, lookup)
  }

  /** The guard asks the blacklist when a request arrives, and passport verifies the token at some later moment;
      anything may happen in between. Logout and a successful password change revoke the bearer token of a request
      the guard admitted, at some later moment; Redis drops keys when it may; tokens with the access secret and type come
      only from issuing. */
  function Step(cfg: Settings, s: State, e: Event): State {
    match e
    case IssueAccess(who) => s.(issued := s.issued + {SignedAccess(cfg, who, s.now)})
    case IssueOther(token) =>
      if token.Jwt? && token.secret == cfg.secret && token.claims.typ == AccessType then s
      else s.(issued := s.issued + {token})
    case Tick(delay) => s.(now := s.now + delay)
    case Expire(key) =>
      (match s.memory
       case Ttl(store) => s.(memory := Ttl(Forget(store, key, s.now)))
       case Forever(_) => s)
    case Arrive(visit, isPublic, header) =>
      if visit in s.checks then s
      else
        var isRevoked := !isPublic && header.Bearer? && IsRevoked(s.memory, header.token);
        s.(checks := s.checks[visit := Check(isPublic, header, isRevoked)])
    case Authenticate(visit, lookup) =>
      if visit !in s.checks then s
      else
        var s1 := s.(checks := s.checks - {visit});
        if s.checks[visit].header.Bearer? && Answer(cfg, s, visit, lookup).Admit?
        then s1.(admitted := s.admitted + {s.checks[visit].header.token}) else s1
    case Revoke(token) =>
      if token !in s.admitted then s
      else match s.memory
        case Ttl(store) => s.(memory := Ttl(Remember(store, token, s.now, cfg.ttl)))
        case Forever(revoked) => s.(memory := Forever(revoked + {Sha256(token)}))
  }

  /** The decisions of a run, in order; a decision is given when the token has been verified. */
  function Decisions(cfg: Settings, s: State, events: seq<Event>): seq<Decision>
    decreases |events|
  {
    if events == [] then []
    else
      (if events[0].Authenticate? && events[0].visit in s.checks
       then [Answer(cfg, s, events[0].visit, events[0].lookup)] else [])
      + Decisions(cfg, Step(cfg, s, events[0]), events[1..])
  }

  function After(cfg: Settings, s: State, events: seq<Event>): State
    decreases |events|
  {
    if events == [] then s else After(cfg, Step(cfg, s, events[0]), events[1..])
  }

  const EXPIRING := State({}, {}, 0, Ttl(map[]), map[])
  const PERMANENT := State({}, {}, 0, Forever({}), map[])

  // ----- the expiring blacklist refines the permanent one -----

  /** Genuine access tokens carry the configured lifetime and were signed in the past. */
  predicate Genuine(cfg: Settings, s: State) {
    forall t | t in s.issued && t.Jwt? && t.secret == cfg.secret && t.claims.typ == AccessType ::
      t.claims.exp == t.claims.iat + cfg.lifetime && 1000 * t.claims.iat <= s.now
  }

  predicate AdmittedAreGenuine(cfg: Settings, s: State) {
    forall t | t in s.admitted ::
      t in s.issued && t.Jwt? && t.secret == cfg.secret && t.claims.typ == AccessType
  }

  /** The bearer token of a request has expired. */
  predicate Expired(header: Header, now: Millis) {
    header.Bearer? && header.token.Jwt? && ExpiryInstant(header.token) <= now
  }

  /** Two look-ups agree, except that the forgetful blacklist may have missed a token that has expired. */
  predicate AgreeingChecks(a: Check, b: Check, now: Millis) {
    && a.isPublic == b.isPublic && a.header == b.header
    && (a.isRevoked ==> b.isRevoked)
    && (b.isRevoked && !a.isRevoked ==> Expired(b.header, now))
  }

  /** Both remember the same revocations, except those of tokens that have expired; and no key may be
      dropped before its token expires. */
  predicate Agree(cfg: Settings, a: State, b: State) {
    && a.issued == b.issued && a.admitted == b.admitted && a.now == b.now
    && a.memory.Ttl? && b.memory.Forever?
    && Genuine(cfg, a) && AdmittedAreGenuine(cfg, a)
    && (forall k | k in a.memory.store :: k in b.memory.revoked)
    && (forall k | k in b.memory.revoked ::
          && k.token.Jwt?
          && (if k in a.memory.store then ExpiryInstant(k.token) <= a.memory.store[k]
              else ExpiryInstant(k.token) <= a.now))
    && a.checks.Keys == b.checks.Keys
    && (forall v | v in a.checks :: AgreeingChecks(a.checks[v], b.checks[v], a.now))
  }

  lemma AgreeingAnswers(cfg: Settings, a: State, b: State, visit: VisitId, lookup: Lookup)
    requires Agree(cfg, a, b) && visit in a.checks
    ensures Answer(cfg, a, visit, lookup) == Answer(cfg, b, visit, lookup)
  {
    var header := a.checks[visit].header;
    if header.Bearer? && header.token.Jwt? {
      VerifiesUntilExpiryInstant(cfg.secret, header.token, a.now);
    }
  }

  /** A key written at `now` outlives the token it stands for: the floor in `iat` only makes the token
      expire earlier, and the TTL is at least the lifetime. */
  lemma AgreeingSteps(cfg: Settings, a: State, b: State, e: Event)
    requires cfg.lifetime <= cfg.ttl && Agree(cfg, a, b)
    ensures Agree(cfg, Step(cfg, a, e), Step(cfg, b, e))
  {
    match e
    case Authenticate(visit, lookup) =>
      if visit in a.checks {
        AgreeingAnswers(cfg, a, b, visit, lookup);
      }
    case Revoke(token) =>
      if token in a.admitted {
        assert ExpiryInstant(token) <= a.now + 1000 * cfg.ttl;
      }
    case _ =>
  }

  lemma {:induction false} AgreeingRuns(cfg: Settings, a: State, b: State, events: seq<Event>)
    requires cfg.lifetime <= cfg.ttl && Agree(cfg, a, b)
    ensures Decisions(cfg, a, events) == Decisions(cfg, b, events)
    decreases |events|
  {
    if events != [] {
      if events[0].Authenticate? && events[0].visit in a.checks {
        AgreeingAnswers(cfg, a, b, events[0].visit, events[0].lookup);
      }
      AgreeingSteps(cfg, a, b, events[0]);
      AgreeingRuns(cfg, Step(cfg, a, events[0]), Step(cfg, b, events[0]), events[1..]);
    }
  }

  lemma {:induction false} RunsAppend(cfg: Settings, s: State, a: seq<Event>, b: seq<Event>)
    ensures Decisions(cfg, s, a + b) == Decisions(cfg, s, a) + Decisions(cfg, After(cfg, s, a), b)
    ensures After(cfg, s, a + b) == After(cfg, After(cfg, s, a), b)
    decreases |a|
  {
    if a == [] {
      assert a + b == b;
    } else {
      assert (a + b)[0] == a[0] && (a + b)[1..] == a[1..] + b;
      RunsAppend(cfg, Step(cfg, s, a[0]), a[1..], b);
    }
  }

  /** A request with nothing in between. */
  function Visit(visit: VisitId, token: Token, user: UserView): seq<Event> {
    [Arrive(visit, false, Bearer(token)), Authenticate(visit, Account(user))]
  }

  lemma VisitAlone(cfg: Settings, s: State, visit: VisitId, token: Token, user: UserView)
    requires visit !in s.checks && token in s.issued
    requires Verifies(cfg.secret, token, s.now) && token.claims.typ == AccessType
    ensures Decisions(cfg, s, Visit(visit, token, user))
            == [if IsRevoked(s.memory, token) then Deny(401) else Admit(user)]
    ensures After(cfg, s, Visit(visit, token, user))
            == if IsRevoked(s.memory, token) then s else s.(admitted := s.admitted + {token})
  {
    var events := Visit(visit, token, user);
    var s1 := Step(cfg, s, events[0]);
    assert events[1..] == [events[1]] && events[1..][1..] == [];
    assert s1.checks - {visit} == s.checks;
    assert After(cfg, s1, [events[1]]) == Step(cfg, s1, events[1]);
    assert Decisions(cfg, s1, [events[1]]) == [Answer(cfg, s1, visit, Account(user))];
  }

  /** Log out, wait out the TTL. */
  function Leave(cfg: Settings, token: Token): seq<Event> {
    [Revoke(token), Tick(1000 * cfg.ttl), Expire(Sha256(token))]
  }

  lemma LeaveAlone(cfg: Settings, s: State, token: Token)
    requires token in s.admitted && s.now == 0 && (s.memory == Ttl(map[]) || s.memory == Forever({}))
    ensures Decisions(cfg, s, Leave(cfg, token)) == []
    ensures After(cfg, s, Leave(cfg, token))
            == s.(now := 1000 * cfg.ttl, memory := if s.memory.Ttl? then Ttl(map[]) else Forever({Sha256(token)}))
  {
    var key, events := Sha256(token), Leave(cfg, token);
    var s1 := s.(memory := if s.memory.Ttl? then Ttl(map[key := 1000 * cfg.ttl]) else Forever({key}));
    assert {} + {key} == {key} && map[][key := 0 + 1000 * cfg.ttl] == map[key := 1000 * cfg.ttl];
    assert map[key := 1000 * cfg.ttl] - {key} == map[];
    assert Step(cfg, s, events[0]) == s1;
    var s2 := s1.(now := 1000 * cfg.ttl);
    assert Step(cfg, s1, events[1]) == s2;
    var s3 := Step(cfg, s2, events[2]);
    assert events[1..][1..] == [events[2]] && [events[2]][1..] == [];
    assert After(cfg, s2, [events[2]]) == s3 && Decisions(cfg, s2, [events[2]]) == [];
    assert After(cfg, s1, events[1..]) == s3 && Decisions(cfg, s1, events[1..]) == [];
  }

  /** Log in, log out, wait out the TTL, come back. */
  function Comeback(cfg: Settings, who: Identity, user: UserView): seq<Event> {
    var token := SignedAccess(cfg, who, 0);
    [IssueAccess(who)] + Visit(0, token, user) + Leave(cfg, token) + Visit(1, token, user)
  }

  lemma ComebackRun(cfg: Settings, start: State, who: Identity, user: UserView)
    requires cfg.ttl < cfg.lifetime && (start == EXPIRING || start == PERMANENT)
    ensures Decisions(cfg, start, Comeback(cfg, who, user))
            == [Admit(user), if start == EXPIRING then Admit(user) else Deny(401)]
  {
    var token := SignedAccess(cfg, who, 0);
    assert Verifies(cfg.secret, token, 0) && Verifies(cfg.secret, token, 1000 * cfg.ttl) by {
      assert 1000 * cfg.ttl / 1000 == cfg.ttl;
    }
    var s1 := Step(cfg, start, IssueAccess(who));
    assert After(cfg, start, [IssueAccess(who)]) == s1 && Decisions(cfg, start, [IssueAccess(who)]) == [];
    VisitAlone(cfg, s1, 0, token, user);
    var s2 := After(cfg, s1, Visit(0, token, user));
    LeaveAlone(cfg, s2, token);
    var s3 := After(cfg, s2, Leave(cfg, token));
    VisitAlone(cfg, s3, 1, token, user);
    RunsAppend(cfg, start, [IssueAccess(who)], Visit(0, token, user));
    RunsAppend(cfg, start, [IssueAccess(who)] + Visit(0, token, user), Leave(cfg, token));
    RunsAppend(cfg, start, [IssueAccess(who)] + Visit(0, token, user) + Leave(cfg, token), Visit(1, token, user));
  }

  /** With a TTL shorter than the lifetime a revoked token comes back to life. */
  lemma ShortTtlForgetsTooSoon(cfg: Settings, who: Identity, user: UserView)
    requires cfg.ttl < cfg.lifetime
    ensures Decisions(cfg, EXPIRING, Comeback(cfg, who, user)) == [Admit(user), Admit(user)]
    ensures Decisions(cfg, PERMANENT, Comeback(cfg, who, user)) == [Admit(user), Deny(401)]
  {
    ComebackRun(cfg, EXPIRING, who, user);
    ComebackRun(cfg, PERMANENT, who, user);
  }

  /** The forgetful blacklist answers every request of every run like the permanent one exactly when its TTL
      is at least the lifetime of the tokens. */
  lemma ExpiringRefinesPermanentIff(cfg: Settings)
    ensures (forall events: seq<Event> :: Decisions(cfg, EXPIRING, events) == Decisions(cfg, PERMANENT, events))
            <==> cfg.lifetime <= cfg.ttl
  {
    if cfg.lifetime <= cfg.ttl {
      forall events: seq<Event>
        ensures Decisions(cfg, EXPIRING, events) == Decisions(cfg, PERMANENT, events)
      {
        AgreeingRuns(cfg, EXPIRING, PERMANENT, events);
      }
    } else {
      var who := Identity(0, "", Member);
      var user := UserView(0, "", Member, true, true);
      ShortTtlForgetsTooSoon(cfg, who, user);
      assert Decisions(cfg, EXPIRING, Comeback(cfg, who, user)) != Decisions(cfg, PERMANENT, Comeback(cfg, who, user));
    }
  }

  // ----- admission over whole runs -----

  /** In the run the token was revoked, by a request that had been admitted with it. */
  predicate WasRevoked(cfg: Settings, s: State, events: seq<Event>, token: Token)
    decreases |events|
  {
    events != [] &&
      ((events[0] == Revoke(token) && token in s.admitted)
       || WasRevoked(cfg, Step(cfg, s, events[0]), events[1..], token))
  }

  lemma {:induction false} PermanentRemembersExactly(
      cfg: Settings, a: State, b: State, events: seq<Event>, token: Token)
    requires cfg.lifetime <= cfg.ttl && Agree(cfg, a, b)
    ensures Agree(cfg, After(cfg, a, events), After(cfg, b, events))
    ensures Sha256(token) in After(cfg, b, events).memory.revoked
            <==> Sha256(token) in b.memory.revoked || WasRevoked(cfg, a, events, token)
    decreases |events|
  {
    if events != [] {
      AgreeingSteps(cfg, a, b, events[0]);
      PermanentRemembersExactly(cfg, Step(cfg, a, events[0]), Step(cfg, b, events[0]), events[1..], token);
    }
  }

  /** The request has not been answered. */
  predicate Unanswered(events: seq<Event>, visit: VisitId) {
    forall e | e in events && e.Authenticate? :: e.visit != visit
  }

  lemma {:induction false} CheckStays(cfg: Settings, s: State, events: seq<Event>, visit: VisitId)
    requires visit in s.checks && Unanswered(events, visit)
    ensures visit in After(cfg, s, events).checks && After(cfg, s, events).checks[visit] == s.checks[visit]
    decreases |events|
  {
    if events != [] {
      assert events[0] in events;
      CheckStays(cfg, Step(cfg, s, events[0]), events[1..], visit);
    }
  }

  /** The request carries an issued access token that verifies now. */
  predicate Presents(cfg: Settings, s: State, header: Header) {
    && header.Bearer? && header.token in s.issued
    && Verifies(cfg.secret, header.token, s.now) && header.token.claims.typ == AccessType
  }

  /** A request, whatever its header, arrives after any run, and anything happens before its token is verified. It is let
      pass unauthenticated exactly if its route is public. Otherwise it gets in exactly with an issued access token that
      verifies then, was not revoked when the request arrived although keys expire, and whose account the auth service
      vouches for, and then as that very account. It is forbidden exactly if everything but the account's standing is in
      order, and put off exactly if the auth service cannot be asked; in all other cases, a missing header among them,
      it is unauthorized. (A revocation after the look-up comes too late for this request.) */
  lemma AnsweredExactly(
      cfg: Settings, before: seq<Event>, visit: VisitId, isPublic: bool, header: Header, between: seq<Event>,
      lookup: Lookup)
    requires cfg.lifetime <= cfg.ttl
    requires visit !in After(cfg, EXPIRING, before).checks && Unanswered(between, visit)
    ensures var s := After(cfg, Step(cfg, After(cfg, EXPIRING, before), Arrive(visit, isPublic, header)), between);
            && visit in s.checks
            && var answer := Answer(cfg, s, visit, lookup);
               var entitled := !isPublic && Presents(cfg, s, header) && !WasRevoked(cfg, EXPIRING, before, header.token);
               && (answer == Pass <==> isPublic)
               && (answer.Admit? <==> entitled && lookup.Account?)
               && (answer.Admit? ==> answer.user == lookup.user)
               && (answer == Deny(403) <==> entitled && lookup == Refused(403))
               && (answer == Deny(503) <==> entitled && lookup == Unreachable)
               && (answer.Deny? ==> answer.status == 401 || answer.status == 403 || answer.status == 503)
  {
    var a, b := After(cfg, EXPIRING, before), After(cfg, PERMANENT, before);
    var arrive := Arrive(visit, isPublic, header);
    var token := if header.Bearer? then header.token else Opaque("");
    PermanentRemembersExactly(cfg, EXPIRING, PERMANENT, before, token);
    AgreeingSteps(cfg, a, b, arrive);
    PermanentRemembersExactly(cfg, Step(cfg, a, arrive), Step(cfg, b, arrive), between, token);
    CheckStays(cfg, Step(cfg, a, arrive), between, visit);
    CheckStays(cfg, Step(cfg, b, arrive), between, visit);
    AgreeingAnswers(cfg, After(cfg, Step(cfg, a, arrive), between), After(cfg, Step(cfg, b, arrive), between),
                    visit, lookup);
  }

  /** The tokens of the model's gateway are those the auth service signs. */
  lemma GatewayKnowsIssuedTokens(cfg: Config, who: Identity, now: Millis)
    ensures SignedAccess(FromConfig(cfg), who, now) == SignAccess(cfg, who, now)
  {
  }

  function FromConfig(cfg: Config): Settings {
    Settings(cfg.accessSecret, JwtLifetime(cfg.accessExpiresIn), ParseDurationSeconds(cfg.accessExpiresIn))
  }

  /** Every configured lifetime of digits and a unit meets the condition: signer and blacklist read the
      same setting through tables that agree. */
  lemma ConfiguredBlacklistNeverForgetsTooSoon(cfg: Config, events: seq<Event>)
    requires WellFormed(cfg.accessExpiresIn)
    ensures Decisions(FromConfig(cfg), EXPIRING, events) == Decisions(FromConfig(cfg), PERMANENT, events)
  {
    WellFormedLifetime(cfg.accessExpiresIn);
    AgreeingRuns(FromConfig(cfg), EXPIRING, PERMANENT, events);
  }

  /** Outside the pattern the blacklist falls back to one day, so it is right exactly when the JWT library
      reads the setting as at most a day. */
  lemma UnmatchedLifetimeIsSafeUpToADay(secret: string, expiresIn: string, lifetime: nat)
    requires ParseAmount(expiresIn) == None
    ensures var cfg := Settings(secret, lifetime, ParseDurationSeconds(expiresIn));
            (forall events: seq<Event> :: Decisions(cfg, EXPIRING, events) == Decisions(cfg, PERMANENT, events))
            <==> lifetime <= DAY_SECONDS
  {
    ExpiringRefinesPermanentIff(Settings(secret, lifetime, ParseDurationSeconds(expiresIn)));
  }
}
