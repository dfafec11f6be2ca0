// packages/accessgovernance: decisions and calls told by the fields of requests,
// policies, grants and reviews.
module AccessOnFields {
  import opened Basics
  import opened Text
  import opened AccessDecision
  import opened AccessEngine

  // ---------- rules and policies ----------

  predicate Among(x: string, list: seq<string>) {
    exists i :: 0 <= i < |list| && list[i] == x
  }

  // The hour of the day, in seconds since midnight of some day.
  predicate InHours(w: TimeWindow, t: int) {
    var second := t % 86400;
    !w.enabled
    || (w.start <= w.end && w.start * 3600 <= second < w.end * 3600)
    || (w.start > w.end && !(w.end * 3600 <= second < w.start * 3600))
  }

  predicate Fits(r: Rule, req: Request) {
    && (r.actions != [] ==> Among(req.action, r.actions))
    && (r.roles != [] ==> exists i :: 0 <= i < |req.roles| && Among(req.roles[i], r.roles))
    && (r.jurisdictions != [] ==>
          exists i :: 0 <= i < |r.jurisdictions| && CaseVariants(r.jurisdictions[i], req.jurisdiction))
    && (r.requireCaseScope ==> req.caseId != 0)
    && InHours(r.window, req.now)
  }

  lemma FitsIff(r: Rule, req: Request)
    ensures RuleMatches(r, req) <==> Fits(r, req)
  {
    hide ToLower, CaseVariants;
    HoursIff(r.window, req.now);
    forall i | 0 <= i < |r.jurisdictions|
      ensures EqualFold(r.jurisdictions[i], req.jurisdiction) <==> CaseVariants(r.jurisdictions[i], req.jurisdiction)
    {
      ToLowerIff(r.jurisdictions[i], req.jurisdiction);
    }
    if i :| 0 <= i < |r.roles| && r.roles[i] in req.roles {
      var k :| 0 <= k < |req.roles| && req.roles[k] == r.roles[i];
      assert Among(req.roles[k], r.roles);
    }
    if k :| 0 <= k < |req.roles| && Among(req.roles[k], r.roles) {
      var i :| 0 <= i < |r.roles| && r.roles[i] == req.roles[k];
      assert r.roles[i] in req.roles;
    }
  }

  lemma HoursIff(w: TimeWindow, t: int)
    ensures Allows(w, t) <==> InHours(w, t)
  {
    var second := t % 86400;
    assert t / 3600 % 24 == second / 3600;
  }

  // A policy's word is that of its first rule that fits, if it is active.
  lemma PolicyOnFields(p: Policy, req: Request, e: Effect)
    ensures Verdict(p, req) == Some(e) <==>
      p.active && exists i :: 0 <= i < |p.rules| && p.rules[i].effect == e && FirstToFit(p.rules, req, i)
    ensures Verdict(p, req) == None <==> !p.active || forall i :: 0 <= i < |p.rules| ==> !Fits(p.rules[i], req)
  {
    hide RuleMatches, Fits;
    FirstMatchSpeaks(p.rules, req, e);
    forall i | 0 <= i < |p.rules| ensures RuleMatches(p.rules[i], req) <==> Fits(p.rules[i], req) {
      FitsIff(p.rules[i], req);
    }
    if i :| 0 <= i < |p.rules| && p.rules[i].effect == e && FirstToFit(p.rules, req, i) {
      assert RuleMatches(p.rules[i], req);
    }
    if i :| 0 <= i < |p.rules| && RuleMatches(p.rules[i], req) && p.rules[i].effect == e
            && forall j :: 0 <= j < i ==> !RuleMatches(p.rules[j], req)
    {
      assert FirstToFit(p.rules, req, i);
    }
  }

  predicate FirstToFit(rules: seq<Rule>, req: Request, i: int)
    requires 0 <= i < |rules|
  {
    Fits(rules[i], req) && forall j :: 0 <= j < i ==> !Fits(rules[j], req)
  }

  // ---------- decisions ----------

  // A grant of the request's tenant, case and actor that is neither revoked nor
  // past its end.
  predicate InForce(g: CaseGrant, req: Request) {
    && g.tenantId == req.tenant && g.caseId == req.caseId && g.grantee == req.actor
    && g.revokedAt == None && req.now < g.expiresAt
  }

  predicate Restricts(s: State, req: Request, x: Id) {
    && req.caseId != 0 && x in s.caseGrants && InForce(s.caseGrants[x], req)
    && s.caseGrants[x].deny && (s.caseGrants[x].permissions == [] || Among(req.action, s.caseGrants[x].permissions))
  }

  predicate Permits(s: State, req: Request, x: Id) {
    && req.caseId != 0 && x in s.caseGrants && InForce(s.caseGrants[x], req)
    && !s.caseGrants[x].deny && Among(req.action, s.caseGrants[x].permissions)
  }

  predicate Elevates(s: State, req: Request, x: Id) {
    x in s.elevations &&
    var g := s.elevations[x];
    && g.tenantId == req.tenant && g.grantee == req.actor && g.action == req.action
    && (g.caseId == 0 || g.caseId == req.caseId) && g.revokedAt == None && req.now < g.expiresAt
  }

  ghost predicate Speaks(s: State, req: Request, x: Id, e: Effect) {
    && x in s.policies && s.policies[x].tenantId == req.tenant && s.policies[x].active
    && exists i :: 0 <= i < |s.policies[x].rules| && s.policies[x].rules[i].effect == e
                   && FirstToFit(s.policies[x].rules, req, i)
  }

  // What a decision says, and on what: a restriction first, then a permission,
  // then an elevation, then any policy that speaks, and deny without one.
  lemma DecisionOnFields(s: State, req: Request, d: Decision)
    requires Reached(s, req, d)
    ensures d.evaluatedAt == req.now && (d.effect == Allow <==>
      d.reason == CasePermits || d.reason == ElevationPermits || d.reason == PolicyMatched)
    ensures d.reason == CaseRestricts <==> exists x :: Restricts(s, req, x)
    ensures d.reason == CasePermits <==> (forall x :: !Restricts(s, req, x)) && exists x :: Permits(s, req, x)
    ensures d.reason == ElevationPermits <==>
      (forall x :: !Restricts(s, req, x) && !Permits(s, req, x)) && exists x :: Elevates(s, req, x)
    ensures d.reason == CaseRestricts ==> Restricts(s, req, d.grantId) && d.policyId == 0
    ensures d.reason == CasePermits ==> Permits(s, req, d.grantId) && d.policyId == 0
    ensures d.reason == ElevationPermits ==> Elevates(s, req, d.grantId) && d.policyId == 0
    ensures d.reason == PolicyMatched ==> Speaks(s, req, d.policyId, Allow) && d.grantId == 0
    ensures d.reason == PolicyMatchedDeny ==> Speaks(s, req, d.policyId, Deny) && d.grantId == 0
    ensures d.reason == NothingMatched ==>
      d.policyId == 0 && d.grantId == 0 && forall x :: !Speaks(s, req, x, Allow) && !Speaks(s, req, x, Deny)
  {
    hide Verdict, Fits, FirstToFit, Speaks;
    SetsOnFields(s, req);
    forall x ensures x in Deciders(s, req) <==> Speaks(s, req, x, Allow) || Speaks(s, req, x, Deny) {
      DecidersOnFields(s, req, x);
    }
    if d.reason == PolicyMatched || d.reason == PolicyMatchedDeny { DecidersOnFields(s, req, d.policyId); }
    assert Deniers(s, req) != {} <==> exists x :: x in Deniers(s, req);
    assert Permitters(s, req) != {} <==> exists x :: x in Permitters(s, req);
    assert Elevators(s, req) != {} <==> exists x :: x in Elevators(s, req);
  }

  lemma SetsOnFields(s: State, req: Request)
    ensures forall x :: x in Deniers(s, req) <==> Restricts(s, req, x)
    ensures forall x :: x in Permitters(s, req) <==> Permits(s, req, x)
    ensures forall x :: x in Elevators(s, req) <==> Elevates(s, req, x)
  {
  }

  lemma DecidersOnFields(s: State, req: Request, x: Id)
    ensures x in Deciders(s, req) <==> Speaks(s, req, x, Allow) || Speaks(s, req, x, Deny)
    ensures forall e :: Speaks(s, req, x, e) <==>
      x in Deciders(s, req) && Verdict(s.policies[x], req) == Some(e)
  {
    hide Verdict, Fits, FirstToFit;
    forall e ensures Speaks(s, req, x, e) <==> x in Deciders(s, req) && Verdict(s.policies[x], req) == Some(e) {
      if x in s.policies { PolicyOnFields(s.policies[x], req, e); }
    }
    if x in Deciders(s, req) { assert Verdict(s.policies[x], req).value in {Allow, Deny}; }
  }

  lemma RequestsOnFields(r: Request)
    ensures ValidateRequest(r).None? <==> r.actor != 0 && r.tenant != 0 && NonBlank(r.action)
    ensures ValidateRequest(r) == Some(Forbidden) <==> r.actor == 0
    ensures ValidateRequest(r) == Some(EmptyTenantId) <==> r.actor != 0 && r.tenant == 0
  {
    hide TrimSpace;
    NonBlankIff(r.action);
  }

  // ---------- calls ----------

  lemma GrantOnFields(s: State, ctx: Context, g: CaseGrant)
    ensures var o := Apply(s, ctx, GrantCaseAccess(g)); var id := if g.id == 0 then ctx.freshId else g.id;
      && (o.failure == None <==>
            ctx.tenant != 0 && g.caseId != 0 && g.grantee != 0 && g.expiresAt != 0 && (g.deny || |g.permissions| > 0))
      && (o.failure == Some(EmptyTenantId) <==> ctx.tenant == 0)
      && (o.failure != None && ctx.tenant != 0 ==> o.failure == Some(InvalidGrant))
      && (o.failure != None ==> o.state == s)
      && (o.failure == None ==>
            && id in o.state.caseGrants && o.state == s.(caseGrants := s.caseGrants[id := o.state.caseGrants[id]])
            && var h := o.state.caseGrants[id];
               && (h.id, h.tenantId, h.caseId, h.grantee) == (id, ctx.tenant, g.caseId, g.grantee)
               && (h.permissions, h.deny, h.expiresAt, h.revokedAt) == (g.permissions, g.deny, g.expiresAt, g.revokedAt)
               && h.grantedBy == (if g.grantedBy == 0 then ctx.user else g.grantedBy)
               && h.grantedAt == (if g.grantedAt == 0 then ctx.now else g.grantedAt))
  {
  }

  // An elevation lasts an hour where no span is given.
  lemma ElevateOnFields(s: State, ctx: Context, grantee: Id, action: string, caseId: Id, why: string, ttl: int)
    ensures var end := ctx.now + (if ttl <= 0 then 3600 else ttl);
      var o := Apply(s, ctx, Elevate(grantee, action, caseId, why, ttl));
      && (o.failure == None <==>
            ctx.tenant != 0 && grantee != 0 && NonBlank(action) && end != 0 && NonBlank(why))
      && (o.failure == Some(EmptyTenantId) <==> ctx.tenant == 0)
      && (o.failure == Some(JustificationRequired) <==>
            ctx.tenant != 0 && grantee != 0 && NonBlank(action) && end != 0 && !NonBlank(why))
      && (o.failure != None ==> o.state == s)
      && (o.failure == None ==> o.state == s.(elevations := s.elevations[ctx.freshId :=
            Grant(ctx.freshId, ctx.tenant, grantee, action, caseId, why, ctx.now, end, ctx.user, None)]))
  {
    hide TrimSpace;
    NonBlankIff(action);
    NonBlankIff(why);
  }

  lemma PolicyCallsOnFields(s: State, ctx: Context, p: Policy, id: Id, active: bool)
    ensures var o := Apply(s, ctx, CreatePolicy(p)); var pid := if p.id == 0 then ctx.freshId else p.id;
      && (o.failure == None <==> ctx.tenant != 0 && NonBlank(p.name))
      && (o.failure != None ==> o.state == s)
      && (o.failure == None ==>
            && pid in o.state.policies && o.state == s.(policies := s.policies[pid := o.state.policies[pid]])
            && var q := o.state.policies[pid];
               && (q.id, q.tenantId, q.name, q.rules, q.active) == (pid, ctx.tenant, p.name, p.rules, p.active)
               && q.createdBy == (if p.createdBy == 0 then ctx.user else p.createdBy)
               && q.createdAt == (if p.createdAt == 0 then ctx.now else p.createdAt) && q.updatedAt == ctx.now)
    ensures var o := Apply(s, ctx, ActivatePolicy(id, active));
      && (o.failure == None <==> id in s.policies && s.policies[id].tenantId == ctx.tenant)
      && (o.failure != None ==> o == Outcome(s, Some(PolicyNotFound)))
      && (o.failure == None ==>
            && id in o.state.policies && o.state == s.(policies := s.policies[id := o.state.policies[id]])
            && var was, q := s.policies[id], o.state.policies[id];
               q.active == active && q.updatedAt == ctx.now
               && q.(active := was.active, updatedAt := was.updatedAt) == was)
  {
    hide TrimSpace;
    NonBlankIff(p.name);
  }

  lemma RevokeOnFields(s: State, ctx: Context, id: Id)
    ensures var o := Apply(s, ctx, RevokeCaseAccess(id));
      && (o.failure == None <==> id in s.caseGrants && s.caseGrants[id].tenantId == ctx.tenant)
      && (o.failure != None ==> o == Outcome(s, Some(GrantNotFound)))
      && (o.failure == None ==>
            && id in o.state.caseGrants && o.state == s.(caseGrants := s.caseGrants[id := o.state.caseGrants[id]])
            && o.state.caseGrants[id].revokedAt == Some(ctx.now)
            && o.state.caseGrants[id].(revokedAt := s.caseGrants[id].revokedAt) == s.caseGrants[id])
  {
  }

  // ---------- reviews ----------

  lemma ScheduleOnFields(s: State, ctx: Context, kind: string, subject: Id, requestedBy: Id, dueAt: int)
    ensures var o := Apply(s, ctx, ScheduleReview(kind, subject, requestedBy, dueAt));
      && (o.failure == None <==> ctx.tenant != 0 && (kind == "case_grant" || kind == "elevation") && subject != 0)
      && (o.failure != None ==> o.state == s)
      && (o.failure == None ==> o.state == s.(reviews := s.reviews[ctx.freshId :=
            Review(ctx.freshId, ctx.tenant, kind, subject, requestedBy, dueAt, "", 0, None, "", ctx.now)]))
  {
  }

  // Who may attest what, and what is written; the subject of a revoking
  // attestation is revoked with it if it is the tenant's.
  lemma AttestOnFields(s: State, ctx: Context, id: Id, decision: string, notes: string)
    ensures var o := Apply(s, ctx, Attest(id, decision, notes)); var m := s.reviews;
      var admitted := (decision == "approve" || decision == "revoke") && id in m && m[id].tenantId == ctx.tenant
        && m[id].decision == "" && (ctx.user == 0 || m[id].requestedBy != ctx.user);
      && (!admitted ==> o.failure != None && o.state == s)
      && (o.failure == Some(SegregationOfDuties) <==>
            (decision == "approve" || decision == "revoke") && id in m && m[id].tenantId == ctx.tenant
            && m[id].decision == "" && ctx.user != 0 && m[id].requestedBy == ctx.user)
      && (o.failure == Some(ReviewAlreadyDecided) <==>
            (decision == "approve" || decision == "revoke") && id in m && m[id].tenantId == ctx.tenant
            && m[id].decision != "")
      && (o.failure == Some(InvalidAttestationDecision) <==> decision != "approve" && decision != "revoke")
      && (admitted ==>
            && id in o.state.reviews && o.state.reviews == m[id := o.state.reviews[id]]
            && o.state.policies == s.policies
            && var rv := o.state.reviews[id];
               && (rv.decision, rv.attestedBy, rv.attestedAt, rv.notes) == (decision, ctx.user, Some(ctx.now), notes)
               && rv.(decision := "", attestedBy := m[id].attestedBy, attestedAt := m[id].attestedAt,
                      notes := m[id].notes) == m[id]
               && SubjectRevoked(s, o, ctx, rv))
  {
  }

  predicate SubjectRevoked(s: State, o: Outcome, ctx: Context, rv: Review) {
    var x := rv.subjectId;
    if rv.decision == "revoke" && rv.subjectKind == "case_grant" && x in s.caseGrants
       && s.caseGrants[x].tenantId == ctx.tenant then
      && o.failure == None && o.state.elevations == s.elevations
      && o.state.caseGrants == s.caseGrants[x := s.caseGrants[x].(revokedAt := Some(ctx.now))]
    else if rv.decision == "revoke" && rv.subjectKind == "elevation" && x in s.elevations
            && s.elevations[x].tenantId == ctx.tenant then
      && o.failure == None && o.state.caseGrants == s.caseGrants
      && o.state.elevations == s.elevations[x := s.elevations[x].(revokedAt := Some(ctx.now))]
    else
      && o.state.caseGrants == s.caseGrants && o.state.elevations == s.elevations
      && (o.failure == None <==> rv.decision == "approve")
  }

  lemma {:induction false} RunKeyed(s: State, ops: seq<(Context, Op)>)
    requires Keyed(s)
    ensures Keyed(Run(s, ops))
    decreases |ops|
  {
    hide Step, Keyed;
    if ops != [] {
      StepKeyed(s, ops[0].0, ops[0].1);
      RunKeyed(Step(s, ops[0].0, ops[0].1), ops[1..]);
    }
  }

  // From an engine without reviews on, whatever is called: a decided review was
  // decided by somebody it does not name as requester, and stays as it is.
  lemma DecidedOnFields(s: State, ops: seq<(Context, Op)>, more: seq<(Context, Op)>, x: Id)
    requires Keyed(s) && s.reviews == map[] && FreshReviewIds(s, ops) && FreshReviewIds(Run(s, ops), more)
    ensures var now, later := Run(s, ops).reviews, Run(Run(s, ops), more).reviews;
      x in now && now[x].decision != "" ==>
        && (now[x].attestedBy != now[x].requestedBy || now[x].attestedBy == 0)
        && x in later && later[x] == now[x]
  {
    hide Step, Run, Keyed, FreshReviewIds;
    DecidedForGood(s, ops, x);
    RunKeyed(s, ops);
    DecidedForGood(Run(s, ops), more, x);
  }
}
