// packages/accessgovernance: types.go and the decision of engine.go.
// Which decisions a request can get. The stores hand their contents out in map
// order, which is any order, so a decision is described by a relation, and
// what does not depend on the order is a theorem. Times are seconds after the
// zero instant of Go's time.Time; UUIDs are numbers, 0 for uuid.Nil.
module AccessDecision {
  import opened Basics
  import opened Text

  type Id = nat
  const NIL: Id := 0
  const ZERO_TIME: int := 0

  datatype Effect = Allow | Deny

  datatype Request = Request(actor: Id, roles: seq<string>, tenant: Id, caseId: Id, jurisdiction: string,
                             action: string, now: int)

  datatype Error =
    | Forbidden | EmptyTenantId | InvalidPolicy | PolicyNotFound | GrantNotFound | InvalidGrant | JustificationRequired
    | ReviewNotFound | ReviewAlreadyDecided | InvalidAttestationDecision | SegregationOfDuties | CrossTenantAccess

  function ValidateRequest(r: Request): Option<Error> {
    if r.actor == NIL then Some(Forbidden)
    else if r.tenant == NIL then Some(EmptyTenantId)
    else if TrimSpace(r.action) == "" then Some(InvalidPolicy)
    else None
  }

  // ---------- policies ----------

  datatype TimeWindow = TimeWindow(start: int, end: int, enabled: bool)

  function HourOf(t: int): (h: int)
    ensures 0 <= h < 24
  {
    t / 3600 % 24
  }

  predicate Allows(w: TimeWindow, t: int) {
    if !w.enabled then true
    else if w.start <= w.end then w.start <= HourOf(t) < w.end
    else HourOf(t) >= w.start || HourOf(t) < w.end
  }

  datatype Rule = Rule(actions: seq<string>, roles: seq<string>, jurisdictions: seq<string>, requireCaseScope: bool,
                       window: TimeWindow, effect: Effect)

  predicate EqualFold(a: string, b: string) {
    ToLower(a) == ToLower(b)
  }

  predicate RuleMatches(r: Rule, req: Request) {
    && (r.actions == [] || req.action in r.actions)
    && (r.roles == [] || exists i :: 0 <= i < |r.roles| && r.roles[i] in req.roles)
    && (r.jurisdictions == []
        || exists i :: 0 <= i < |r.jurisdictions| && EqualFold(r.jurisdictions[i], req.jurisdiction))
    && (r.requireCaseScope ==> req.caseId != NIL)
    && Allows(r.window, req.now)
  }

  datatype Policy = Policy(id: Id, tenantId: Id, name: string, rules: seq<Rule>, active: bool, createdBy: Id,
                           createdAt: int, updatedAt: int)

  function FirstMatch(rules: seq<Rule>, req: Request): Option<Effect> {
    if rules == [] then None
    else if RuleMatches(rules[0], req) then Some(rules[0].effect)
    else FirstMatch(rules[1..], req)
  }

  // An inactive policy, or one without a matching rule, has no say.
  function Verdict(p: Policy, req: Request): Option<Effect> {
    if p.active then FirstMatch(p.rules, req) else None
  }

  // The first matching rule speaks, and no other.
  lemma {:induction false} FirstMatchSpeaks(rules: seq<Rule>, req: Request, e: Effect)
    ensures FirstMatch(rules, req) == Some(e) <==>
      exists i :: 0 <= i < |rules| && RuleMatches(rules[i], req) && rules[i].effect == e
                  && forall j :: 0 <= j < i ==> !RuleMatches(rules[j], req)
    ensures FirstMatch(rules, req).None? <==> forall i :: 0 <= i < |rules| ==> !RuleMatches(rules[i], req)
  {
    hide RuleMatches;
    if rules != [] && !RuleMatches(rules[0], req) {
      FirstMatchSpeaks(rules[1..], req, e);
      assert forall i :: 1 <= i < |rules| ==> rules[i] == rules[1..][i - 1];
      if FirstMatch(rules, req) == Some(e) {
        var i :| 0 <= i < |rules[1..]| && RuleMatches(rules[1..][i], req) && rules[1..][i].effect == e
                 && forall j :: 0 <= j < i ==> !RuleMatches(rules[1..][j], req);
        assert RuleMatches(rules[i + 1], req);
      }
      if k: nat :| k < |rules| && RuleMatches(rules[k], req) && rules[k].effect == e
                   && forall j :: 0 <= j < k ==> !RuleMatches(rules[j], req) {
        assert RuleMatches(rules[1..][k - 1], req);
        assert forall j :: 0 <= j < k - 1 ==> rules[1..][j] == rules[j + 1];
      }
    } else if rules != [] {
      assert rules[0] == rules[0];
    }
  }

  method Evaluate(p: Policy, req: Request) returns (verdict: Option<Effect>)
    ensures verdict == Verdict(p, req)
  {
    hide RuleMatches;
    if !p.active { return None; }
    for i := 0 to |p.rules|
      invariant FirstMatch(p.rules, req) == FirstMatch(p.rules[i..], req)
    {
      if RuleMatches(p.rules[i], req) { return Some(p.rules[i].effect); }
    }
    verdict := None;
  }

  // ---------- grants ----------

  datatype CaseGrant = CaseGrant(id: Id, tenantId: Id, caseId: Id, grantee: Id, permissions: seq<string>, deny: bool,
                                 expiresAt: int, grantedBy: Id, grantedAt: int, revokedAt: Option<int>)

  datatype Grant = Grant(id: Id, tenantId: Id, grantee: Id, action: string, caseId: Id, justification: string,
                         grantedAt: int, expiresAt: int, requestedBy: Id, revokedAt: Option<int>)

  predicate CaseGrantExpired(g: CaseGrant, now: int) {
    g.revokedAt.Some? || now >= g.expiresAt
  }

  predicate GrantExpired(g: Grant, now: int) {
    g.revokedAt.Some? || now >= g.expiresAt
  }

  predicate GrantsPermission(g: CaseGrant, perm: string) {
    !g.deny && perm in g.permissions
  }

  // A deny without a list restricts everything.
  predicate DeniesPermission(g: CaseGrant, perm: string) {
    g.deny && (g.permissions == [] || perm in g.permissions)
  }

  datatype State = State(policies: map<Id, Policy>, caseGrants: map<Id, CaseGrant>, elevations: map<Id, Grant>,
                         reviews: map<Id, Review>)

  datatype Review = Review(id: Id, tenantId: Id, subjectKind: string, subjectId: Id, requestedBy: Id, dueAt: int,
                           decision: string, attestedBy: Id, attestedAt: Option<int>, notes: string, createdAt: int)

  // ---------- who has a say ----------

  predicate LiveCaseGrant(g: CaseGrant, req: Request) {
    g.tenantId == req.tenant && g.caseId == req.caseId && g.grantee == req.actor && !CaseGrantExpired(g, req.now)
  }

  predicate LiveElevation(g: Grant, req: Request) {
    && g.tenantId == req.tenant && g.grantee == req.actor && g.action == req.action
    && (g.caseId == NIL || g.caseId == req.caseId)
    && !GrantExpired(g, req.now)
  }

  // Case grants are looked up only for a case-scoped request.
  function Deniers(s: State, req: Request): set<Id> {
    set x | x in s.caseGrants && req.caseId != NIL && LiveCaseGrant(s.caseGrants[x], req)
            && DeniesPermission(s.caseGrants[x], req.action)
  }

  function Permitters(s: State, req: Request): set<Id> {
    set x | x in s.caseGrants && req.caseId != NIL && LiveCaseGrant(s.caseGrants[x], req)
            && GrantsPermission(s.caseGrants[x], req.action)
  }

  function Elevators(s: State, req: Request): set<Id> {
    set x | x in s.elevations && LiveElevation(s.elevations[x], req)
  }

  function Deciders(s: State, req: Request): set<Id> {
    set x | x in s.policies && s.policies[x].tenantId == req.tenant && Verdict(s.policies[x], req).Some?
  }

  datatype Reason = CaseRestricts | CasePermits | ElevationPermits | PolicyMatched | PolicyMatchedDeny | NothingMatched

  datatype Decision = Decision(effect: Effect, reason: Reason, policyId: Id, grantId: Id, evaluatedAt: int)

  predicate Restricted(s: State, req: Request, d: Decision) {
    d.grantId in Deniers(s, req) && d == Decision(Deny, CaseRestricts, NIL, d.grantId, req.now)
  }

  predicate Permitted(s: State, req: Request, d: Decision) {
    d.grantId in Permitters(s, req) && d == Decision(Allow, CasePermits, NIL, d.grantId, req.now)
  }

  predicate Elevated(s: State, req: Request, d: Decision) {
    d.grantId in Elevators(s, req) && d == Decision(Allow, ElevationPermits, NIL, d.grantId, req.now)
  }

  predicate ByPolicy(s: State, req: Request, d: Decision) {
    if Deciders(s, req) == {} then d == Decision(Deny, NothingMatched, NIL, NIL, req.now)
    else
      d.policyId in Deciders(s, req) &&
      var e := Verdict(s.policies[d.policyId], req).value;
      d == Decision(e, if e == Deny then PolicyMatchedDeny else PolicyMatched, d.policyId, NIL, req.now)
  }

  // The decisions the code can come to, whatever order the stores list in.
  predicate Reached(s: State, req: Request, d: Decision) {
    if Deniers(s, req) != {} then Restricted(s, req, d)
    else if Permitters(s, req) != {} then Permitted(s, req, d)
    else if Elevators(s, req) != {} then Elevated(s, req, d)
    else ByPolicy(s, req, d)
  }

  // The decisions the doc comment of Evaluate promises: it ranks an elevation
  // above a permitting case grant.
  predicate Documented(s: State, req: Request, d: Decision) {
    if Deniers(s, req) != {} then Restricted(s, req, d)
    else if Elevators(s, req) != {} then Elevated(s, req, d)
    else if Permitters(s, req) != {} then Permitted(s, req, d)
    else ByPolicy(s, req, d)
  }

  // ---------- main results about one decision ----------

  function PolicyDecision(s: State, req: Request, p: Id): (d: Decision)
    requires p in Deciders(s, req)
    ensures ByPolicy(s, req, d)
  {
    var e := Verdict(s.policies[p], req).value;
    Decision(e, if e == Deny then PolicyMatchedDeny else PolicyMatched, p, NIL, req.now)
  }

  lemma SomePermit(s: State, req: Request) returns (d: Decision)
    requires Permitters(s, req) != {}
    ensures Permitted(s, req, d)
  {
    var x :| x in Permitters(s, req);
    d := Decision(Allow, CasePermits, NIL, x, req.now);
  }

  lemma SomeElevation(s: State, req: Request) returns (d: Decision)
    requires Elevators(s, req) != {}
    ensures Elevated(s, req, d)
  {
    var x :| x in Elevators(s, req);
    d := Decision(Allow, ElevationPermits, NIL, x, req.now);
  }

  // Code and comment reach the same decisions exactly unless a permitting case
  // grant and an elevation both match and nothing restricts.
  lemma DocumentedOrderIff(s: State, req: Request)
    ensures (forall d :: Reached(s, req, d) <==> Documented(s, req, d)) <==>
            Deniers(s, req) != {} || Permitters(s, req) == {} || Elevators(s, req) == {}
  {
    hide Deniers, Permitters, Elevators, ByPolicy;
    if Deniers(s, req) == {} && Permitters(s, req) != {} && Elevators(s, req) != {} {
      var d := SomePermit(s, req);
      assert Reached(s, req, d) && !Documented(s, req, d);
    }
  }

  // The effect is the documented one in every case.
  lemma EffectAsDocumented(s: State, req: Request)
    ensures forall d :: Reached(s, req, d) ==> exists e :: Documented(s, req, e) && e.effect == d.effect
    ensures forall e :: Documented(s, req, e) ==> exists d :: Reached(s, req, d) && e.effect == d.effect
  {
    hide Deniers, Permitters, Elevators, ByPolicy;
    if Deniers(s, req) == {} && Permitters(s, req) != {} && Elevators(s, req) != {} {
      var p := SomePermit(s, req);
      var q := SomeElevation(s, req);
      assert Reached(s, req, p) && Documented(s, req, q);
    } else {
      DocumentedOrderIff(s, req);
    }
  }

  // The order of the stores decides the effect only where nothing but policies
  // speaks and two of them disagree.
  lemma EffectDeterminedIff(s: State, req: Request)
    ensures (forall d, e :: Reached(s, req, d) && Reached(s, req, e) ==> d.effect == e.effect) <==>
            Deniers(s, req) + Permitters(s, req) + Elevators(s, req) != {}
            || forall p, q :: p in Deciders(s, req) && q in Deciders(s, req) ==>
                 Verdict(s.policies[p], req) == Verdict(s.policies[q], req)
  {
    hide Deniers, Permitters, Elevators, Verdict;
    if p, q :| p in Deciders(s, req) && q in Deciders(s, req)
               && Verdict(s.policies[p], req) != Verdict(s.policies[q], req)
    {
      if Deniers(s, req) == {} && Permitters(s, req) == {} && Elevators(s, req) == {} {
        assert Reached(s, req, PolicyDecision(s, req, p)) && Reached(s, req, PolicyDecision(s, req, q));
      }
    }
  }

  // Access is possible at all only without a live restriction, and comes from
  // a live grant, a live elevation or an allowing policy.
  lemma AllowNeeds(s: State, req: Request, d: Decision)
    requires Reached(s, req, d)
    ensures d.effect == Allow <==>
            Deniers(s, req) == {} &&
            (Permitters(s, req) + Elevators(s, req) != {}
             || (d.policyId in Deciders(s, req) && Verdict(s.policies[d.policyId], req) == Some(Allow)))
  {
    hide Deniers, Permitters, Elevators, Verdict;
  }
}
