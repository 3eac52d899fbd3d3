/** Gateway and auth service together: who is admitted, given what has been revoked at the one and which calls the
    other has served. */
module Admission {
  import opened Duration
  import opened Tokens
  import opened AuthStore
  import Auth = AuthHandlers
  import opened AuthHistory
  import opened Gateway

  /** What the strategy hears when its validate message gets this reply: an error keeps its status. */
  function Heard(reply: Auth.Reply): Lookup {
    match reply
    case Valid(user) => Account(user)
    case Unauthorized => Refused(401)
    case Forbidden => Refused(403)
    case _ => Refused(500)
  }

  /** A request with this bearer has been looked up in the blacklist, and its token has still to be verified. */
  predicate AwaitsVerification(s: Gateway.State, visit: VisitId, token: Token, id: UserId) {
    && visit in s.checks && s.checks[visit].header == Bearer(token) && !s.checks[visit].isPublic
    && token.Jwt? && token.claims.sub == id
  }

  /** Once a deactivation has answered Ack, no bearer of the account is admitted, whatever the auth service has been
      asked since, whatever state the gateway is in, and although no token of the account need be on the blacklist. */
  lemma DeactivatedIsNeverAdmitted(
      cfg: Config, sys: System, ending: Call, id: UserId, calls: seq<Call>,
      gateway: Settings, s: Gateway.State, visit: VisitId, token: Token)
    requires cfg.Valid() && DbInv(cfg, sys.db)
    requires ending.request == DoDeactivate(id) && Serve(cfg, sys, ending).reply == Auth.Ack
    requires AwaitsVerification(s, visit, token, id)
    ensures var reply := Auth.Validate(Run(cfg, AuthHistory.Next(cfg, sys, ending), calls).db, id);
            && Answer(gateway, s, visit, Heard(reply)) == Deny(401)
  {
    var mid := AuthHistory.Next(cfg, sys, ending);
    ServeKeeps(cfg, sys, ending);
    MassRevocationRevokes(cfg, sys, ending, id);
    var validate := Call(DoValidate(id), Waits(0, 0, 0, 0, 0));
    DeactivationIsFinal(cfg, mid, calls, id, validate);
    RunKeeps(cfg, mid, calls);
    assert Serve(cfg, Run(cfg, mid, calls), validate).reply == Auth.Validate(Run(cfg, mid, calls).db, id);
    assert Run(cfg, mid, calls).db.users[id].id == id by {
      assert GoodUser(Run(cfg, mid, calls).db, id);
    }
  }

  /** What a bearer is answered, whatever the gateway has been through, by an auth service with these accounts: it is
      admitted exactly if its token is in order and its account is live and active, and then as the account's row shows;
      forbidden exactly if the token is in order and the account is switched off without being deleted; and
      unauthorized otherwise. */
  lemma AnsweredByTheAccount(
      cfg: Config, db: Db, before: seq<Gateway.Event>, visit: VisitId, token: Token, between: seq<Gateway.Event>)
    requires cfg.Valid() && DbInv(cfg, db) && token.Jwt?
    requires visit !in After(FromConfig(cfg), EXPIRING, before).checks && Unanswered(between, visit)
    ensures var gateway, id := FromConfig(cfg), token.claims.sub;
            var arrived := Gateway.Step(gateway, After(gateway, EXPIRING, before), Arrive(visit, false, Bearer(token)));
            var s := After(gateway, arrived, between);
            && visit in s.checks
            && var answer := Answer(gateway, s, visit, Heard(Auth.Validate(db, id)));
               var inOrder := Presents(gateway, s, Bearer(token)) && !WasRevoked(gateway, EXPIRING, before, token);
               && (answer.Admit? <==> inOrder && Live(db, id) && db.users[id].isActive)
               && (answer.Admit? ==> Auth.Describes(answer.user, db.users[id]))
               && (answer == Deny(403) <==> inOrder && Live(db, id) && !db.users[id].isActive)
               && (answer == Deny(401) <==> !inOrder || !Live(db, id))
  {
    WellFormedLifetime(cfg.accessExpiresIn);
    AnsweredExactly(FromConfig(cfg), before, visit, false, Bearer(token), between,
                    Heard(Auth.Validate(db, token.claims.sub)));
  }

  /** For an account in service: a bearer that arrives after any run of the gateway is admitted, by what the auth
      service says after any sequence of calls, exactly if the token was issued and verifies, was not revoked when the
      request arrived, and none of the calls was the deactivation of its account; and then with the address, role and
      standing that the account's row has at that moment. */
  lemma AdmittedIffNeitherRevokedNorDeactivated(
      cfg: Config, sys: System, calls: seq<Call>,
      before: seq<Gateway.Event>, visit: VisitId, token: Token, between: seq<Gateway.Event>)
    requires cfg.Valid() && DbInv(cfg, sys.db) && token.Jwt?
    requires Live(sys.db, token.claims.sub) && sys.db.users[token.claims.sub].isActive
    requires visit !in After(FromConfig(cfg), EXPIRING, before).checks && Unanswered(between, visit)
    ensures var gateway := FromConfig(cfg);
            var arrived := Gateway.Step(gateway, After(gateway, EXPIRING, before), Arrive(visit, false, Bearer(token)));
            var s := After(gateway, arrived, between);
            var reply := Auth.Validate(Run(cfg, sys, calls).db, token.claims.sub);
            && visit in s.checks
            && (Answer(gateway, s, visit, Heard(reply)).Admit?
                <==> token in s.issued && Verifies(cfg.accessSecret, token, s.now) && token.claims.typ == AccessType
                     && !WasRevoked(gateway, EXPIRING, before, token)
                     && !exists k :: 0 <= k < |calls| && calls[k].request == DoDeactivate(token.claims.sub))
            && (Answer(gateway, s, visit, Heard(reply)).Admit? ==>
                  && token.claims.sub in Run(cfg, sys, calls).db.users
                  && Auth.Describes(Answer(gateway, s, visit, Heard(reply)).user,
                                    Run(cfg, sys, calls).db.users[token.claims.sub]))
  {
    ValidUntilDeactivated(cfg, sys, calls, token.claims.sub);
    RunKeeps(cfg, sys, calls);
    AnsweredByTheAccount(cfg, Run(cfg, sys, calls).db, before, visit, token, between);
  }
}
