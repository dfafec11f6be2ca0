// packages/accessgovernance: engine.go, review.go, review_types.go,
// inmemory_repository.go. The engine over its four stores: granting, elevating,
// revoking, reviewing, and what a revocation or an attestation settles for good.
// The caller of every method is one the identity layer let through: a user of
// the tenant holding the permission the method asks for.
module AccessEngine {
  import opened Basics
  import opened Text
  import opened AccessDecision

  const DEFAULT_ELEVATION_TTL: int := 3600
  const APPROVE := "approve"
  const REVOKE := "revoke"
  const CASE_GRANT := "case_grant"
  const ELEVATION := "elevation"

  // Who calls, for which tenant, what the clock says, what uuid.New returns.
  datatype Context = Context(user: Id, tenant: Id, now: int, freshId: Id)

  // ---------- validation ----------

  function ValidatePolicy(p: Policy): Option<Error> {
    if p.tenantId == NIL then Some(EmptyTenantId)
    else if TrimSpace(p.name) == "" then Some(InvalidPolicy)
    else None
  }

  function ValidateCaseGrant(g: CaseGrant): Option<Error> {
    if g.tenantId == NIL then Some(EmptyTenantId)
    else if g.caseId == NIL || g.grantee == NIL || g.expiresAt == ZERO_TIME then Some(InvalidGrant)
    else if !g.deny && g.permissions == [] then Some(InvalidGrant)
    else None
  }

  function ValidateGrant(g: Grant): Option<Error> {
    if g.tenantId == NIL then Some(EmptyTenantId)
    else if g.grantee == NIL || TrimSpace(g.action) == "" || g.expiresAt == ZERO_TIME then Some(InvalidGrant)
    else if TrimSpace(g.justification) == "" then Some(JustificationRequired)
    else None
  }

  function ValidateReview(r: Review): Option<Error> {
    if r.tenantId == NIL then Some(EmptyTenantId)
    else if r.subjectKind != CASE_GRANT && r.subjectKind != ELEVATION then Some(InvalidGrant)
    else if r.subjectId == NIL then Some(InvalidGrant)
    else None
  }

  // ---------- segregation of duties ----------

  const REQUESTER_CANNOT_APPROVE := "requester_cannot_approve"
  const APPROVER_NOT_SOLE_AUTHOR := "approver_not_sole_author"
  const DEFAULT_RULES := [REQUESTER_CANNOT_APPROVE, APPROVER_NOT_SOLE_AUTHOR]

  // A rule the requester violates by acting as approver.
  predicate Violates(rule: string, soleAuthor: bool) {
    rule == "requester_cannot_approve" || (rule == "approver_not_sole_author" && soleAuthor)
  }

  predicate FirstViolated(rules: seq<string>, soleAuthor: bool, i: int) {
    0 <= i < |rules| && Violates(rules[i], soleAuthor) && forall k :: 0 <= k < i ==> !Violates(rules[k], soleAuthor)
  }

  // The first violated rule, "" for none.
  method CheckConflict(requestedBy: Id, acting: Id, soleAuthor: bool, rules: seq<string>) returns (violated: string)
    ensures var same := acting == requestedBy && acting != NIL;
      && (violated != "" <==> same && exists i :: 0 <= i < |rules| && Violates(rules[i], soleAuthor))
      && (violated != "" ==> exists i :: FirstViolated(rules, soleAuthor, i) && rules[i] == violated)
    ensures rules == DEFAULT_RULES ==>
      violated == if acting == requestedBy && acting != NIL then "requester_cannot_approve" else ""
  {
    if acting == NIL || requestedBy == NIL || acting != requestedBy { return ""; }
    for i := 0 to |rules|
      invariant forall k :: 0 <= k < i ==> !Violates(rules[k], soleAuthor)
      invariant i > 0 ==> !Violates(rules[0], soleAuthor)
    {
      assert Violates(rules[i], soleAuthor) ==> FirstViolated(rules, soleAuthor, i);
      if rules[i] == REQUESTER_CANNOT_APPROVE { return REQUESTER_CANNOT_APPROVE; }
      if rules[i] == APPROVER_NOT_SOLE_AUTHOR && soleAuthor { return APPROVER_NOT_SOLE_AUTHOR; }
    }
    violated := "";
  }

  // ---------- what each call does ----------

  datatype Op =
    | CreatePolicy(p: Policy)
    | ActivatePolicy(id: Id, active: bool)
    | GrantCaseAccess(g: CaseGrant)
    | RevokeCaseAccess(id: Id)
    | Elevate(grantee: Id, action: string, caseId: Id, justification: string, ttl: int)
    | ScheduleReview(subjectKind: string, subjectId: Id, requestedBy: Id, dueAt: int)
    | Attest(reviewId: Id, decision: string, notes: string)

  // A failed Attest can leave something behind, so a state comes with every outcome.
  datatype Outcome = Outcome(state: State, failure: Option<Error>)

  function StampedPolicy(p: Policy, ctx: Context): Policy {
    p.(tenantId := ctx.tenant, id := if p.id == NIL then ctx.freshId else p.id,
       createdBy := if p.createdBy == NIL then ctx.user else p.createdBy,
       createdAt := if p.createdAt == ZERO_TIME then ctx.now else p.createdAt, updatedAt := ctx.now)
  }

  function StampedCaseGrant(g: CaseGrant, ctx: Context): CaseGrant {
    g.(tenantId := ctx.tenant, id := if g.id == NIL then ctx.freshId else g.id,
       grantedAt := if g.grantedAt == ZERO_TIME then ctx.now else g.grantedAt,
       grantedBy := if g.grantedBy == NIL then ctx.user else g.grantedBy)
  }

  function Elevation(ctx: Context, grantee: Id, action: string, caseId: Id, justification: string, ttl: int): Grant {
    Grant(ctx.freshId, ctx.tenant, grantee, action, caseId, justification, ctx.now,
          ctx.now + (if ttl <= 0 then DEFAULT_ELEVATION_TTL else ttl), ctx.user, None)
  }

  function NewReview(ctx: Context, kind: string, subject: Id, requestedBy: Id, dueAt: int): Review {
    Review(ctx.freshId, ctx.tenant, kind, subject, requestedBy, dueAt, "", NIL, None, "", ctx.now)
  }

  function Revoked(s: State, tenant: Id, kind: string, id: Id, now: int): Outcome {
    if kind == CASE_GRANT then
      if id !in s.caseGrants || s.caseGrants[id].tenantId != tenant then Outcome(s, Some(GrantNotFound))
      else Outcome(s.(caseGrants := s.caseGrants[id := s.caseGrants[id].(revokedAt := Some(now))]), None)
    else if kind == ELEVATION then
      if id !in s.elevations || s.elevations[id].tenantId != tenant then Outcome(s, Some(GrantNotFound))
      else Outcome(s.(elevations := s.elevations[id := s.elevations[id].(revokedAt := Some(now))]), None)
    else Outcome(s, Some(InvalidGrant))
  }

  function Attested(rv: Review, ctx: Context, decision: string, notes: string): Review {
    rv.(decision := decision, attestedBy := ctx.user, attestedAt := Some(ctx.now), notes := notes)
  }

  // Why Attest stops before it decides anything.
  function AttestError(s: State, ctx: Context, reviewId: Id, decision: string): Option<Error> {
    if decision != APPROVE && decision != REVOKE then Some(InvalidAttestationDecision)
    else if reviewId !in s.reviews || s.reviews[reviewId].tenantId != ctx.tenant then Some(ReviewNotFound)
    else if s.reviews[reviewId].decision != "" then Some(ReviewAlreadyDecided)
    else if ctx.user != NIL && s.reviews[reviewId].requestedBy == ctx.user then Some(SegregationOfDuties)
    else None
  }

  function Apply(s: State, ctx: Context, op: Op): Outcome {
    match op
    case CreatePolicy(p) =>
      var q := StampedPolicy(p, ctx);
      if ValidatePolicy(q).Some? then Outcome(s, ValidatePolicy(q))
      else Outcome(s.(policies := s.policies[q.id := q]), None)
    case ActivatePolicy(id, active) =>
      if id !in s.policies || s.policies[id].tenantId != ctx.tenant then Outcome(s, Some(PolicyNotFound))
      else Outcome(s.(policies := s.policies[id := s.policies[id].(active := active, updatedAt := ctx.now)]), None)
    case GrantCaseAccess(g) =>
      var h := StampedCaseGrant(g, ctx);
      if ValidateCaseGrant(h).Some? then Outcome(s, ValidateCaseGrant(h))
      else Outcome(s.(caseGrants := s.caseGrants[h.id := h]), None)
    case RevokeCaseAccess(id) => Revoked(s, ctx.tenant, CASE_GRANT, id, ctx.now)
    case Elevate(grantee, action, caseId, justification, ttl) =>
      var g := Elevation(ctx, grantee, action, caseId, justification, ttl);
      if ValidateGrant(g).Some? then Outcome(s, ValidateGrant(g))
      else Outcome(s.(elevations := s.elevations[g.id := g]), None)
    case ScheduleReview(kind, subject, requestedBy, dueAt) =>
      var rv := NewReview(ctx, kind, subject, requestedBy, dueAt);
      if ValidateReview(rv).Some? then Outcome(s, ValidateReview(rv))
      else Outcome(s.(reviews := s.reviews[rv.id := rv]), None)
    case Attest(reviewId, decision, notes) =>
      if AttestError(s, ctx, reviewId, decision).Some? then Outcome(s, AttestError(s, ctx, reviewId, decision))
      else
        var rv := Attested(s.reviews[reviewId], ctx, decision, notes);
        var t := s.(reviews := s.reviews[reviewId := rv]);
        if decision == REVOKE then Revoked(t, ctx.tenant, rv.subjectKind, rv.subjectId, ctx.now) else Outcome(t, None)
  }

  predicate Keyed(s: State) {
    && (forall x :: x in s.policies ==> s.policies[x].id == x)
    && (forall x :: x in s.caseGrants ==> s.caseGrants[x].id == x)
    && (forall x :: x in s.elevations ==> s.elevations[x].id == x)
    && (forall x :: x in s.reviews ==> s.reviews[x].id == x)
  }

  // ---------- the stores ----------

  predicate OfCase(g: CaseGrant, tenant: Id, caseId: Id) {
    g.tenantId == tenant && g.caseId == caseId
  }

  predicate ActiveIn(g: Grant, tenant: Id, now: int) {
    g.tenantId == tenant && !GrantExpired(g, now)
  }

  class InMemoryPolicyRepository {
    var policies: map<Id, Policy>

    constructor ()
      ensures policies == map[]
    {
      policies := map[];
    }

    method Create(p: Policy)
      modifies this
      ensures policies == old(policies)[p.id := p]
    {
      policies := policies[p.id := p];
    }

    method Get(tenant: Id, id: Id) returns (r: Option<Policy>)
      ensures r == if id in policies && policies[id].tenantId == tenant then Some(policies[id]) else None
    {
      if id !in policies || policies[id].tenantId != tenant { return None; }
      r := Some(policies[id]);
    }

    method List(tenant: Id) returns (out: seq<Policy>)
      requires forall x :: x in policies ==> policies[x].id == x
      ensures forall k :: 0 <= k < |out| ==>
        out[k].id in policies && policies[out[k].id] == out[k] && out[k].tenantId == tenant
      ensures forall x :: x in policies && policies[x].tenantId == tenant ==> policies[x] in out
    {
      var todo := policies.Keys;
      out := [];
      while todo != {}
        invariant todo <= policies.Keys
        invariant forall k :: 0 <= k < |out| ==>
          out[k].id in policies && policies[out[k].id] == out[k] && out[k].tenantId == tenant
        invariant forall x :: x in policies && x !in todo && policies[x].tenantId == tenant ==> policies[x] in out
        decreases |todo|
      {
        var x :| x in todo;
        todo := todo - {x};
        if policies[x].tenantId == tenant { out := out + [policies[x]]; }
      }
    }

    method Update(tenant: Id, p: Policy) returns (failure: Option<Error>)
      modifies this
      ensures failure == if p.id in old(policies) && old(policies)[p.id].tenantId == tenant then None
        else Some(PolicyNotFound)
      ensures policies == if failure.None? then old(policies)[p.id := p.(tenantId := tenant)] else old(policies)
    {
      if p.id !in policies || policies[p.id].tenantId != tenant { return Some(PolicyNotFound); }
      policies := policies[p.id := p.(tenantId := tenant)];
      failure := None;
    }
  }

  class InMemoryCaseGrantRepository {
    var grants: map<Id, CaseGrant>

    constructor ()
      ensures grants == map[]
    {
      grants := map[];
    }

    method Create(g: CaseGrant)
      modifies this
      ensures grants == old(grants)[g.id := g]
    {
      grants := grants[g.id := g];
    }

    method ListForCase(tenant: Id, caseId: Id) returns (out: seq<CaseGrant>)
      requires forall x :: x in grants ==> grants[x].id == x
      ensures forall k :: 0 <= k < |out| ==>
        out[k].id in grants && grants[out[k].id] == out[k] && OfCase(out[k], tenant, caseId)
      ensures forall x :: x in grants && OfCase(grants[x], tenant, caseId) ==> grants[x] in out
    {
      var todo := grants.Keys;
      out := [];
      while todo != {}
        invariant todo <= grants.Keys
        invariant forall k :: 0 <= k < |out| ==>
          out[k].id in grants && grants[out[k].id] == out[k] && OfCase(out[k], tenant, caseId)
        invariant forall x :: x in grants && x !in todo && OfCase(grants[x], tenant, caseId) ==> grants[x] in out
        decreases |todo|
      {
        var x :| x in todo;
        todo := todo - {x};
        if grants[x].tenantId == tenant && grants[x].caseId == caseId { out := out + [grants[x]]; }
      }
    }

    method Revoke(tenant: Id, id: Id, at: int) returns (failure: Option<Error>)
      modifies this
      ensures failure == if id in old(grants) && old(grants)[id].tenantId == tenant then None else Some(GrantNotFound)
      ensures grants == if failure.None? then old(grants)[id := old(grants)[id].(revokedAt := Some(at))]
        else old(grants)
    {
      if id !in grants || grants[id].tenantId != tenant { return Some(GrantNotFound); }
      grants := grants[id := grants[id].(revokedAt := Some(at))];
      failure := None;
    }
  }

  class InMemoryGrantRepository {
    var grants: map<Id, Grant>

    constructor ()
      ensures grants == map[]
    {
      grants := map[];
    }

    method Create(g: Grant)
      modifies this
      ensures grants == old(grants)[g.id := g]
    {
      grants := grants[g.id := g];
    }

    method ListActive(tenant: Id, now: int) returns (out: seq<Grant>)
      requires forall x :: x in grants ==> grants[x].id == x
      ensures forall k :: 0 <= k < |out| ==>
        out[k].id in grants && grants[out[k].id] == out[k] && ActiveIn(out[k], tenant, now)
      ensures forall x :: x in grants && ActiveIn(grants[x], tenant, now) ==> grants[x] in out
    {
      var todo := grants.Keys;
      out := [];
      while todo != {}
        invariant todo <= grants.Keys
        invariant forall k :: 0 <= k < |out| ==>
          out[k].id in grants && grants[out[k].id] == out[k] && ActiveIn(out[k], tenant, now)
        invariant forall x :: x in grants && x !in todo && ActiveIn(grants[x], tenant, now) ==> grants[x] in out
        decreases |todo|
      {
        var x :| x in todo;
        todo := todo - {x};
        if grants[x].tenantId == tenant && !GrantExpired(grants[x], now) { out := out + [grants[x]]; }
      }
    }

    method Revoke(tenant: Id, id: Id, at: int) returns (failure: Option<Error>)
      modifies this
      ensures failure == if id in old(grants) && old(grants)[id].tenantId == tenant then None else Some(GrantNotFound)
      ensures grants == if failure.None? then old(grants)[id := old(grants)[id].(revokedAt := Some(at))]
        else old(grants)
    {
      if id !in grants || grants[id].tenantId != tenant { return Some(GrantNotFound); }
      grants := grants[id := grants[id].(revokedAt := Some(at))];
      failure := None;
    }
  }

  class InMemoryReviewRepository {
    var reviews: map<Id, Review>

    constructor ()
      ensures reviews == map[]
    {
      reviews := map[];
    }

    method Create(rv: Review)
      modifies this
      ensures reviews == old(reviews)[rv.id := rv]
    {
      reviews := reviews[rv.id := rv];
    }

    method Get(tenant: Id, id: Id) returns (r: Option<Review>)
      ensures r == if id in reviews && reviews[id].tenantId == tenant then Some(reviews[id]) else None
    {
      if id !in reviews || reviews[id].tenantId != tenant { return None; }
      r := Some(reviews[id]);
    }

    method Update(tenant: Id, rv: Review) returns (failure: Option<Error>)
      modifies this
      ensures failure == if rv.id in old(reviews) && old(reviews)[rv.id].tenantId == tenant then None
        else Some(ReviewNotFound)
      ensures reviews == if failure.None? then old(reviews)[rv.id := rv.(tenantId := tenant)] else old(reviews)
    {
      if rv.id !in reviews || reviews[rv.id].tenantId != tenant { return Some(ReviewNotFound); }
      reviews := reviews[rv.id := rv.(tenantId := tenant)];
      failure := None;
    }
  }

  // ---------- the engine ----------

  class Engine {
    const policies: InMemoryPolicyRepository
    const grants: InMemoryCaseGrantRepository
    const elevate: InMemoryGrantRepository
    const reviews: InMemoryReviewRepository

    constructor (policies: InMemoryPolicyRepository, grants: InMemoryCaseGrantRepository,
                 elevate: InMemoryGrantRepository, reviews: InMemoryReviewRepository)
      ensures this.policies == policies && this.grants == grants && this.elevate == elevate && this.reviews == reviews
    {
      this.policies, this.grants, this.elevate, this.reviews := policies, grants, elevate, reviews;
    }

    function Snapshot(): State
      reads policies, grants, elevate, reviews
    {
      State(policies.policies, grants.grants, elevate.grants, reviews.reviews)
    }

    // The answer is one of the decisions the state admits; now is the clock's
    // answer, for a request that carries no time of its own.
    method Evaluate(req: Request, now: int) returns (r: Result<Decision, Error>)
      requires Keyed(Snapshot())
      ensures r.Err? <==> ValidateRequest(req).Some?
      ensures r.Err? ==> Some(r.error) == ValidateRequest(req)
      ensures r.Ok? ==> Reached(Snapshot(), if req.now == ZERO_TIME then req.(now := now) else req, r.value)
    {
      hide Reached;
      var invalid := ValidateRequest(req);
      if invalid.Some? { return Err(invalid.value); }
      var d := EvaluateLocked(if req.now == ZERO_TIME then req.(now := now) else req);
      r := Ok(d);
    }

    method EvaluateLocked(req: Request) returns (d: Decision)
      requires Keyed(Snapshot())
      ensures Reached(Snapshot(), req, d)
    {
      hide Deniers, Permitters, Elevators, Deciders, Verdict;
      ghost var s := Snapshot();
      var hit: Option<Decision> := None;
      if req.caseId != NIL {
        hit := CaseGrantDecision(req, true);
        if hit.Some? { return hit.value; }
        hit := CaseGrantDecision(req, false);
        if hit.Some? { return hit.value; }
      } else {
        NotCaseScoped(s, req);
      }
      hit := ElevationDecision(req);
      if hit.Some? { return hit.value; }
      hit := PolicyVerdict(req);
      if hit.Some? { return hit.value; }
      d := Decision(Deny, NothingMatched, NIL, NIL, req.now);
    }

    // One pass over the case's grants: for the restricting ones, then for the
    // permitting ones.
    method CaseGrantDecision(req: Request, denying: bool) returns (hit: Option<Decision>)
      requires Keyed(Snapshot()) && req.caseId != NIL
      ensures denying ==> if hit.None? then Deniers(Snapshot(), req) == {} else Restricted(Snapshot(), req, hit.value)
      ensures !denying ==> if hit.None? then Permitters(Snapshot(), req) == {}
        else Permitted(Snapshot(), req, hit.value)
    {
      var caseGrants := grants.ListForCase(req.tenant, req.caseId);
      for i := 0 to |caseGrants|
        invariant forall j :: 0 <= j < i ==> !HasSay(caseGrants[j], req, denying)
      {
        var g := caseGrants[i];
        if g.grantee != req.actor { continue; }
        if CaseGrantExpired(g, req.now) { continue; }
        if denying && DeniesPermission(g, req.action) {
          return Some(Decision(Deny, CaseRestricts, NIL, g.id, req.now));
        }
        if !denying && GrantsPermission(g, req.action) {
          return Some(Decision(Allow, CasePermits, NIL, g.id, req.now));
        }
      }
      hit := None;
      NoCaseGrant(Snapshot(), req, caseGrants, denying);
    }

    method ElevationDecision(req: Request) returns (hit: Option<Decision>)
      requires Keyed(Snapshot())
      ensures if hit.None? then Elevators(Snapshot(), req) == {} else Elevated(Snapshot(), req, hit.value)
    {
      var elevations := elevate.ListActive(req.tenant, req.now);
      for i := 0 to |elevations|
        invariant forall j :: 0 <= j < i ==> !LiveElevation(elevations[j], req)
      {
        var g := elevations[i];
        if g.grantee != req.actor || g.action != req.action { continue; }
        if g.caseId != NIL && g.caseId != req.caseId { continue; }
        if GrantExpired(g, req.now) { continue; }
        return Some(Decision(Allow, ElevationPermits, NIL, g.id, req.now));
      }
      hit := None;
      NoElevation(Snapshot(), req, elevations);
    }

    method PolicyVerdict(req: Request) returns (hit: Option<Decision>)
      requires Keyed(Snapshot())
      ensures if hit.None? then Deciders(Snapshot(), req) == {}
              else Deciders(Snapshot(), req) != {} && ByPolicy(Snapshot(), req, hit.value)
    {
      hide Verdict;
      var list := policies.List(req.tenant);
      for i := 0 to |list|
        invariant forall j :: 0 <= j < i ==> Verdict(list[j], req).None?
      {
        var p := list[i];
        var verdict := AccessDecision.Evaluate(p, req);
        if verdict.Some? {
          assert p.id in Deciders(Snapshot(), req);
          var reason := if verdict.value == Deny then PolicyMatchedDeny else PolicyMatched;
          return Some(Decision(verdict.value, reason, p.id, NIL, req.now));
        }
      }
      hit := None;
      forall x | x in policies.policies && policies.policies[x].tenantId == req.tenant
        ensures Verdict(policies.policies[x], req).None?
      {
        assert policies.policies[x] in list;
      }
    }

    method CreatePolicy(ctx: Context, p: Policy) returns (r: Result<Policy, Error>)
      modifies policies
      ensures Outcome(Snapshot(), if r.Ok? then None else Some(r.error)) ==
        Apply(old(Snapshot()), ctx, Op.CreatePolicy(p))
      ensures r.Ok? ==> r.value.id in policies.policies && policies.policies[r.value.id] == r.value
    {
      var q := p.(tenantId := ctx.tenant);
      if q.id == NIL { q := q.(id := ctx.freshId); }
      if q.createdBy == NIL { q := q.(createdBy := ctx.user); }
      if q.createdAt == ZERO_TIME { q := q.(createdAt := ctx.now); }
      q := q.(updatedAt := ctx.now);
      var invalid := ValidatePolicy(q);
      if invalid.Some? { return Err(invalid.value); }
      policies.Create(q);
      r := Ok(q);
    }

    method ActivatePolicy(ctx: Context, id: Id, active: bool) returns (r: Result<Policy, Error>)
      requires Keyed(Snapshot())
      modifies policies
      ensures Outcome(Snapshot(), if r.Ok? then None else Some(r.error)) ==
              Apply(old(Snapshot()), ctx, Op.ActivatePolicy(id, active))
    {
      var p := policies.Get(ctx.tenant, id);
      if p.None? { return Err(PolicyNotFound); }
      var q := p.value.(active := active, updatedAt := ctx.now);
      var failure := policies.Update(ctx.tenant, q);
      r := if failure.None? then Ok(q) else Err(PolicyNotFound);
    }

    method GrantCaseAccess(ctx: Context, g: CaseGrant) returns (r: Result<CaseGrant, Error>)
      modifies grants
      ensures Outcome(Snapshot(), if r.Ok? then None else Some(r.error)) ==
        Apply(old(Snapshot()), ctx, Op.GrantCaseAccess(g))
      ensures r.Ok? ==> r.value.id in grants.grants && grants.grants[r.value.id] == r.value
    {
      var h := g.(tenantId := ctx.tenant);
      if h.id == NIL { h := h.(id := ctx.freshId); }
      if h.grantedAt == ZERO_TIME { h := h.(grantedAt := ctx.now); }
      if h.grantedBy == NIL { h := h.(grantedBy := ctx.user); }
      var invalid := ValidateCaseGrant(h);
      if invalid.Some? { return Err(invalid.value); }
      grants.Create(h);
      r := Ok(h);
    }

    method RevokeCaseAccess(ctx: Context, id: Id) returns (failure: Option<Error>)
      modifies grants
      ensures Outcome(Snapshot(), failure) == Apply(old(Snapshot()), ctx, Op.RevokeCaseAccess(id))
    {
      failure := grants.Revoke(ctx.tenant, id, ctx.now);
    }

    method Elevate(ctx: Context, grantee: Id, action: string, caseId: Id, justification: string, ttl: int)
      returns (r: Result<Grant, Error>)
      modifies elevate
      ensures Outcome(Snapshot(), if r.Ok? then None else Some(r.error)) ==
              Apply(old(Snapshot()), ctx, Op.Elevate(grantee, action, caseId, justification, ttl))
      ensures r.Ok? ==> r.value.id in elevate.grants && elevate.grants[r.value.id] == r.value
    {
      var span := ttl;
      if span <= 0 { span := DEFAULT_ELEVATION_TTL; }
      var g := Grant(ctx.freshId, ctx.tenant, grantee, action, caseId, justification, ctx.now, ctx.now + span,
                     ctx.user, None);
      var invalid := ValidateGrant(g);
      if invalid.Some? { return Err(invalid.value); }
      elevate.Create(g);
      r := Ok(g);
    }

    method ScheduleReview(ctx: Context, kind: string, subject: Id, requestedBy: Id, dueAt: int)
      returns (r: Result<Review, Error>)
      modifies reviews
      ensures Outcome(Snapshot(), if r.Ok? then None else Some(r.error)) ==
              Apply(old(Snapshot()), ctx, Op.ScheduleReview(kind, subject, requestedBy, dueAt))
      ensures r.Ok? ==> r.value.id in reviews.reviews && reviews.reviews[r.value.id] == r.value
    {
      var rv := Review(ctx.freshId, ctx.tenant, kind, subject, requestedBy, dueAt, "", NIL, None, "", ctx.now);
      var invalid := ValidateReview(rv);
      if invalid.Some? { return Err(invalid.value); }
      reviews.Create(rv);
      r := Ok(rv);
    }

    method Attest(ctx: Context, reviewId: Id, decision: string, notes: string) returns (r: Result<Review, Error>)
      requires Keyed(Snapshot())
      modifies grants, elevate, reviews
      ensures Outcome(Snapshot(), if r.Ok? then None else Some(r.error)) ==
              Apply(old(Snapshot()), ctx, Op.Attest(reviewId, decision, notes))
    {
      if decision != APPROVE && decision != REVOKE { return Err(InvalidAttestationDecision); }
      var found := reviews.Get(ctx.tenant, reviewId);
      if found.None? { return Err(ReviewNotFound); }
      var rv := found.value;
      if rv.decision != "" { return Err(ReviewAlreadyDecided); }
      var violated := CheckConflict(rv.requestedBy, ctx.user, false, DEFAULT_RULES);
      if violated != "" { return Err(SegregationOfDuties); }
      rv := rv.(decision := decision, attestedBy := ctx.user, attestedAt := Some(ctx.now), notes := notes);
      var failure := reviews.Update(ctx.tenant, rv);
      if failure.Some? { return Err(ReviewNotFound); }
      if decision == REVOKE {
        failure := RevokeSubject(ctx.tenant, rv.subjectKind, rv.subjectId, ctx.now);
        if failure.Some? { return Err(failure.value); }
      }
      r := Ok(rv);
    }

    method RevokeSubject(tenant: Id, kind: string, id: Id, now: int) returns (failure: Option<Error>)
      modifies grants, elevate
      ensures Outcome(Snapshot(), failure) == Revoked(old(Snapshot()), tenant, kind, id, now)
    {
      if kind == CASE_GRANT { failure := grants.Revoke(tenant, id, now); return; }
      if kind == ELEVATION { failure := elevate.Revoke(tenant, id, now); return; }
      failure := Some(InvalidGrant);
    }
  }

  predicate HasSay(g: CaseGrant, req: Request, denying: bool) {
    LiveCaseGrant(g, req) && if denying then DeniesPermission(g, req.action) else GrantsPermission(g, req.action)
  }

  lemma NotCaseScoped(s: State, req: Request)
    requires req.caseId == NIL
    ensures Deniers(s, req) == {} && Permitters(s, req) == {}
  {
  }

  lemma NoCaseGrant(s: State, req: Request, list: seq<CaseGrant>, denying: bool)
    requires forall j :: 0 <= j < |list| ==> !HasSay(list[j], req, denying)
    requires forall x :: x in s.caseGrants && OfCase(s.caseGrants[x], req.tenant, req.caseId) ==>
      s.caseGrants[x] in list
    ensures denying ==> Deniers(s, req) == {}
    ensures !denying ==> Permitters(s, req) == {}
  {
    forall x | x in s.caseGrants ensures !HasSay(s.caseGrants[x], req, denying) {
      if LiveCaseGrant(s.caseGrants[x], req) { assert s.caseGrants[x] in list; }
    }
  }

  lemma NoElevation(s: State, req: Request, list: seq<Grant>)
    requires forall j :: 0 <= j < |list| ==> !LiveElevation(list[j], req)
    requires forall x :: x in s.elevations && ActiveIn(s.elevations[x], req.tenant, req.now) ==> s.elevations[x] in list
    ensures Elevators(s, req) == {}
  {
    hide GrantExpired;
    forall g | g in list ensures !LiveElevation(g, req) {}
  }

  // ---------- runs ----------

  function Step(s: State, ctx: Context, op: Op): State {
    Apply(s, ctx, op).state
  }

  function Run(s: State, ops: seq<(Context, Op)>): State
    decreases |ops|
  {
    if ops == [] then s else Run(Step(s, ops[0].0, ops[0].1), ops[1..])
  }

  lemma StepKeyed(s: State, ctx: Context, op: Op)
    requires Keyed(s)
    ensures Keyed(Step(s, ctx, op))
  {
    hide ValidatePolicy, ValidateCaseGrant, ValidateGrant, ValidateReview;
  }

  // ---------- how long a grant stays as it was stored ----------

  // A call that revokes: RevokeCaseAccess, or Attest with a revoke decision.
  predicate RevokesNow(s: State, ctx: Context, op: Op, kind: string, id: Id) {
    Apply(s, ctx, op).failure.None? &&
    match op
    case RevokeCaseAccess(x) => kind == CASE_GRANT && x == id
    case Attest(reviewId, decision, notes) =>
      decision == REVOKE && s.reviews[reviewId].subjectKind == kind && s.reviews[reviewId].subjectId == id
    case _ => false
  }

  // A call that stores another record under this id: GrantCaseAccess with an ID
  // of the caller's choosing, or a uuid.New that repeats itself.
  predicate Replaces(s: State, ctx: Context, op: Op, kind: string, id: Id) {
    match op
    case GrantCaseAccess(g) =>
      var h := StampedCaseGrant(g, ctx);
      kind == CASE_GRANT && h.id == id && ValidateCaseGrant(h).None? && (id in s.caseGrants ==> s.caseGrants[id] != h)
    case Elevate(grantee, action, caseId, justification, ttl) =>
      var g := Elevation(ctx, grantee, action, caseId, justification, ttl);
      kind == ELEVATION && g.id == id && ValidateGrant(g).None? && (id in s.elevations ==> s.elevations[id] != g)
    case _ => false
  }

  predicate Unrevoked(s: State, kind: string, id: Id) {
    if kind == CASE_GRANT then id in s.caseGrants && s.caseGrants[id].revokedAt.None?
    else kind == ELEVATION && id in s.elevations && s.elevations[id].revokedAt.None?
  }

  predicate SameGrant(s: State, t: State, kind: string, id: Id) {
    if kind == CASE_GRANT then id in s.caseGrants && id in t.caseGrants && s.caseGrants[id] == t.caseGrants[id]
    else id in s.elevations && id in t.elevations && s.elevations[id] == t.elevations[id]
  }

  // Only these calls touch an unrevoked grant.
  lemma GrantStaysIff(s: State, ctx: Context, op: Op, kind: string, id: Id)
    requires Unrevoked(s, kind, id)
    ensures SameGrant(s, Step(s, ctx, op), kind, id) <==>
            !RevokesNow(s, ctx, op, kind, id) && !Replaces(s, ctx, op, kind, id)
  {
    hide ValidatePolicy, ValidateCaseGrant, ValidateGrant, ValidateReview;
  }

  predicate Undisturbed(s: State, ops: seq<(Context, Op)>, kind: string, id: Id)
    decreases |ops|
  {
    ops == [] || (&& !RevokesNow(s, ops[0].0, ops[0].1, kind, id) && !Replaces(s, ops[0].0, ops[0].1, kind, id)
                  && Undisturbed(Step(s, ops[0].0, ops[0].1), ops[1..], kind, id))
  }

  lemma {:induction false} RunKeepsGrant(s: State, ops: seq<(Context, Op)>, kind: string, id: Id)
    requires Unrevoked(s, kind, id) && Undisturbed(s, ops, kind, id)
    ensures SameGrant(s, Run(s, ops), kind, id)
    decreases |ops|
  {
    hide Step, RevokesNow, Replaces;
    if ops != [] {
      GrantStaysIff(s, ops[0].0, ops[0].1, kind, id);
      RunKeepsGrant(Step(s, ops[0].0, ops[0].1), ops[1..], kind, id);
    }
  }

  // ---------- what a grant is good for ----------

  // A restriction wins over every grant, elevation and policy until it ends,
  // through every run that neither revokes nor replaces it.
  lemma DenyGrantDenies(s: State, ctx: Context, g: CaseGrant, ops: seq<(Context, Op)>, req: Request, d: Decision)
    requires Apply(s, ctx, GrantCaseAccess(g)).failure.None?
    requires g.deny && (g.permissions == [] || req.action in g.permissions) && g.revokedAt.None?
    requires req.tenant == ctx.tenant && req.caseId == g.caseId && req.actor == g.grantee && req.now < g.expiresAt
    requires Undisturbed(Step(s, ctx, GrantCaseAccess(g)), ops, CASE_GRANT, StampedCaseGrant(g, ctx).id)
    requires Reached(Run(Step(s, ctx, GrantCaseAccess(g)), ops), req, d)
    ensures d.effect == Deny && d.reason == CaseRestricts
  {
    hide Permitters, Elevators, Deciders, Verdict, Run, Undisturbed;
    var h, t := StampedCaseGrant(g, ctx), Step(s, ctx, GrantCaseAccess(g));
    RunKeepsGrant(t, ops, CASE_GRANT, h.id);
    assert h.id in Deniers(Run(t, ops), req);
  }

  // An elevation allows its action until it runs out, through every such run,
  // exactly where no live restriction stands against it.
  lemma ElevationAllowsIff(s: State, ctx: Context, op: Op, ops: seq<(Context, Op)>, req: Request, d: Decision)
    requires op.Elevate? && Apply(s, ctx, op).failure.None?
    requires req.tenant == ctx.tenant && req.actor == op.grantee && req.action == op.action
    requires op.caseId == NIL || op.caseId == req.caseId
    requires req.now < ctx.now + (if op.ttl <= 0 then DEFAULT_ELEVATION_TTL else op.ttl)
    requires Undisturbed(Step(s, ctx, op), ops, ELEVATION, ctx.freshId)
    requires Reached(Run(Step(s, ctx, op), ops), req, d)
    ensures d.effect == Allow <==> Deniers(Run(Step(s, ctx, op), ops), req) == {}
  {
    hide Permitters, Deciders, Verdict, ValidateGrant, Run, Undisturbed;
    var g, t := Elevation(ctx, op.grantee, op.action, op.caseId, op.justification, op.ttl), Step(s, ctx, op);
    assert t.elevations == s.elevations[g.id := g];
    RunKeepsGrant(t, ops, ELEVATION, g.id);
    assert g.id in Elevators(Run(t, ops), req);
  }

  // ---------- revocation is for good ----------

  predicate IsRevoked(s: State, kind: string, id: Id) {
    if kind == CASE_GRANT then id in s.caseGrants && s.caseGrants[id].revokedAt.Some?
    else kind == ELEVATION && id in s.elevations && s.elevations[id].revokedAt.Some?
  }

  // A call that stores a live grant under this id: GrantCaseAccess with an ID of
  // the caller's choosing, or a uuid.New that repeats itself.
  predicate Revives(ctx: Context, op: Op, kind: string, id: Id) {
    match op
    case GrantCaseAccess(g) =>
      var h := StampedCaseGrant(g, ctx);
      kind == CASE_GRANT && h.id == id && h.revokedAt.None? && ValidateCaseGrant(h).None?
    case Elevate(grantee, action, caseId, justification, ttl) =>
      var g := Elevation(ctx, grantee, action, caseId, justification, ttl);
      kind == ELEVATION && g.id == id && ValidateGrant(g).None?
    case _ => false
  }

  // Nothing else brings a revoked grant back.
  lemma StaysRevokedIff(s: State, ctx: Context, op: Op, kind: string, id: Id)
    requires Keyed(s) && IsRevoked(s, kind, id)
    ensures IsRevoked(Step(s, ctx, op), kind, id) <==> !Revives(ctx, op, kind, id)
  {
    hide ValidatePolicy, ValidateCaseGrant, ValidateGrant, ValidateReview;
  }

  predicate NeverRevived(ops: seq<(Context, Op)>, kind: string, id: Id) {
    forall i :: 0 <= i < |ops| ==> !Revives(ops[i].0, ops[i].1, kind, id)
  }

  lemma {:induction false} RunStaysRevoked(s: State, ops: seq<(Context, Op)>, kind: string, id: Id)
    requires Keyed(s) && IsRevoked(s, kind, id) && NeverRevived(ops, kind, id)
    ensures Keyed(Run(s, ops)) && IsRevoked(Run(s, ops), kind, id)
    decreases |ops|
  {
    hide Step, Keyed, IsRevoked, Revives;
    if ops != [] {
      var (ctx, op) := ops[0];
      assert !Revives(ops[0].0, ops[0].1, kind, id);
      StaysRevokedIff(s, ctx, op, kind, id);
      StepKeyed(s, ctx, op);
      forall i | 0 <= i < |ops[1..]| ensures !Revives(ops[1..][i].0, ops[1..][i].1, kind, id) {
        assert ops[1..][i] == ops[i + 1];
      }
      RunStaysRevoked(Step(s, ctx, op), ops[1..], kind, id);
    }
  }

  // The decision rests on this grant.
  predicate RestsOn(d: Decision, kind: string, id: Id) {
    d.grantId == id &&
    if kind == CASE_GRANT then d.reason in {CaseRestricts, CasePermits} else d.reason == ElevationPermits
  }

  lemma RevokedDoesNotDecide(s: State, req: Request, d: Decision, kind: string, id: Id)
    requires IsRevoked(s, kind, id) && Reached(s, req, d)
    ensures !RestsOn(d, kind, id)
  {
    hide Verdict;
  }

  // Whatever happens after a revocation, at whatever time a request is judged,
  // the revoked grant decides nothing any more.
  lemma RevokedNeverDecides(s: State, ctx: Context, op: Op, kind: string, id: Id, ops: seq<(Context, Op)>,
                            req: Request, d: Decision)
    requires Keyed(s) && RevokesNow(s, ctx, op, kind, id) && NeverRevived(ops, kind, id)
    requires Reached(Run(Step(s, ctx, op), ops), req, d)
    ensures !RestsOn(d, kind, id)
  {
    hide Reached, RestsOn, NeverRevived, Run;
    assert IsRevoked(Step(s, ctx, op), kind, id);
    StepKeyed(s, ctx, op);
    RunStaysRevoked(Step(s, ctx, op), ops, kind, id);
    RevokedDoesNotDecide(Run(Step(s, ctx, op), ops), req, d, kind, id);
  }

  // ---------- a review is decided once ----------

  // Attest writes its decision before it revokes. A revoke attestation that got
  // past its checks fails exactly if its subject is not among the tenant's
  // grants; the review is decided either way, and the same decision cannot be
  // taken again.
  lemma AttestRevokeFailsIff(s: State, ctx: Context, reviewId: Id, notes: string)
    requires Keyed(s) && AttestError(s, ctx, reviewId, REVOKE).None?
    ensures var o := Apply(s, ctx, Attest(reviewId, REVOKE, notes));
      var rv := s.reviews[reviewId];
      && (o.failure.Some? <==> !(rv.subjectKind == CASE_GRANT && rv.subjectId in s.caseGrants
                                 && s.caseGrants[rv.subjectId].tenantId == ctx.tenant)
                               && !(rv.subjectKind == ELEVATION && rv.subjectId in s.elevations
                                    && s.elevations[rv.subjectId].tenantId == ctx.tenant))
      && reviewId in o.state.reviews && o.state.reviews[reviewId].decision == REVOKE
      && (forall later: Context, again, more :: Apply(o.state, later, Attest(reviewId, again, more)).failure.Some?)
  {
  }

  predicate FreshReviewId(s: State, ctx: Context, op: Op) {
    op.ScheduleReview? ==> ctx.freshId !in s.reviews
  }

  predicate FreshReviewIds(s: State, ops: seq<(Context, Op)>)
    decreases |ops|
  {
    ops == [] || (FreshReviewId(s, ops[0].0, ops[0].1) && FreshReviewIds(Step(s, ops[0].0, ops[0].1), ops[1..]))
  }

  predicate IsDecided(s: State, id: Id) {
    id in s.reviews && s.reviews[id].decision != ""
  }

  // A decided review was decided by somebody else than it names as requester.
  predicate Segregated(s: State) {
    forall x :: x in s.reviews && s.reviews[x].decision != "" ==>
      s.reviews[x].attestedBy != s.reviews[x].requestedBy || s.reviews[x].attestedBy == NIL
  }

  lemma StepKeepsReviews(s: State, ctx: Context, op: Op, id: Id)
    requires Keyed(s) && FreshReviewId(s, ctx, op)
    ensures Segregated(s) ==> Segregated(Step(s, ctx, op))
    ensures IsDecided(s, id) ==> IsDecided(Step(s, ctx, op), id) && Step(s, ctx, op).reviews[id] == s.reviews[id]
  {
    hide ValidatePolicy, ValidateCaseGrant, ValidateGrant, ValidateReview;
  }

  lemma {:induction false} DecidedForGood(s: State, ops: seq<(Context, Op)>, id: Id)
    requires Keyed(s) && FreshReviewIds(s, ops) && Segregated(s)
    ensures Segregated(Run(s, ops))
    ensures IsDecided(s, id) ==> IsDecided(Run(s, ops), id) && Run(s, ops).reviews[id] == s.reviews[id]
    decreases |ops|
  {
    hide Step, Keyed, Segregated, FreshReviewId;
    if ops != [] {
      var (ctx, op) := ops[0];
      StepKeepsReviews(s, ctx, op, id);
      StepKeyed(s, ctx, op);
      DecidedForGood(Step(s, ctx, op), ops[1..], id);
    }
  }

  lemma StepKeepsRequester(s: State, ctx: Context, op: Op, id: Id)
    requires FreshReviewId(s, ctx, op) && id in s.reviews
    ensures var t := Step(s, ctx, op);
      id in t.reviews && t.reviews[id].requestedBy == s.reviews[id].requestedBy
      && t.reviews[id].tenantId == s.reviews[id].tenantId
  {
    hide ValidatePolicy, ValidateCaseGrant, ValidateGrant, ValidateReview;
  }

  lemma {:induction false} RunKeepsRequester(s: State, ops: seq<(Context, Op)>, id: Id)
    requires FreshReviewIds(s, ops) && id in s.reviews
    ensures var t := Run(s, ops);
      id in t.reviews && t.reviews[id].requestedBy == s.reviews[id].requestedBy
      && t.reviews[id].tenantId == s.reviews[id].tenantId
    decreases |ops|
  {
    hide Step, FreshReviewId;
    if ops != [] {
      StepKeepsRequester(s, ops[0].0, ops[0].1, id);
      RunKeepsRequester(Step(s, ops[0].0, ops[0].1), ops[1..], id);
    }
  }

  // Whom a case grant or an elevation was given to.
  function HolderOf(s: State, kind: string, id: Id): Id {
    if kind == CASE_GRANT && id in s.caseGrants then s.caseGrants[id].grantee
    else if kind == ELEVATION && id in s.elevations then s.elevations[id].grantee
    else NIL
  }

  // Attest compares its caller with the requester the review carries, which is
  // whatever ScheduleReview was told: as long as the review is open, the holder
  // of a grant is kept from attesting it exactly if the review names that holder.
  lemma HolderRefusedIff(s: State, ctx: Context, kind: string, id: Id, requestedBy: Id, dueAt: int,
                         ops: seq<(Context, Op)>, holder: Context, decision: string, notes: string)
    requires HolderOf(s, kind, id) == holder.user != NIL && id != NIL
    requires holder.tenant == ctx.tenant != NIL && decision in {APPROVE, REVOKE}
    requires FreshReviewIds(Step(s, ctx, ScheduleReview(kind, id, requestedBy, dueAt)), ops)
    ensures var t := Run(Step(s, ctx, ScheduleReview(kind, id, requestedBy, dueAt)), ops);
      var o := Apply(t, holder, Attest(ctx.freshId, decision, notes));
      && ctx.freshId in t.reviews
      && (!IsDecided(t, ctx.freshId) ==> (o.failure == Some(SegregationOfDuties) <==> requestedBy == holder.user))
  {
    hide Run, FreshReviewIds;
    var scheduled := Step(s, ctx, ScheduleReview(kind, id, requestedBy, dueAt));
    assert ctx.freshId in scheduled.reviews && scheduled.reviews[ctx.freshId].requestedBy == requestedBy;
    RunKeepsRequester(scheduled, ops, ctx.freshId);
  }

  // ---------- runs on the failing side ----------

  const EMPTY: State := State(map[], map[], map[], map[])

  function SampleContext(freshId: Id): Context {
    Context(9, 1, 5, freshId)
  }

  const SAMPLE_REQUEST: Request := Request(2, [], 1, 1, "", "view", 6)

  function ViewGrant(): CaseGrant {
    CaseGrant(10, 1, 1, 2, ["view"], false, 100, 9, 5, None)
  }

  lemma RunTwo(s: State, a: (Context, Op), b: (Context, Op))
    ensures Run(s, [a, b]) == Step(Step(s, a.0, a.1), b.0, b.1)
  {
    hide Step;
    var t := Step(s, a.0, a.1);
    assert [a, b][1..] == [b] && [b][1..] == [];
    assert Run(t, [b]) == Run(Step(t, b.0, b.1), []);
  }

  // A case grant and an elevation for one action: the code answers with the
  // grant, where its comment promises the elevation.
  lemma GrantShadowsElevation() returns (d: Decision)
    ensures var ops := [(SampleContext(10), GrantCaseAccess(ViewGrant())),
                        (SampleContext(11), Elevate(2, "view", 1, "why", 0))];
      var s := Run(EMPTY, ops);
      Keyed(s) && Reached(s, SAMPLE_REQUEST, d) && !Documented(s, SAMPLE_REQUEST, d)
  {
    hide Step, Run, Keyed;
    var a, b := GrantCaseAccess(ViewGrant()), Elevate(2, "view", 1, "why", 0);
    RunTwo(EMPTY, (SampleContext(10), a), (SampleContext(11), b));
    EmptyIsKeyed();
    StepKeyed(EMPTY, SampleContext(10), a);
    StepKeyed(Step(EMPTY, SampleContext(10), a), SampleContext(11), b);
    var s := Run(EMPTY, [(SampleContext(10), a), (SampleContext(11), b)]);
    GrantAndElevation();
    assert 10 in Permitters(s, SAMPLE_REQUEST) && 11 in Elevators(s, SAMPLE_REQUEST);
    d := Decision(Allow, CasePermits, NIL, 10, 6);
  }

  lemma EmptyIsKeyed()
    ensures Keyed(EMPTY)
  {
  }

  lemma GrantAndElevation()
    ensures var s := Step(Step(EMPTY, SampleContext(10), GrantCaseAccess(ViewGrant())), SampleContext(11),
                          Elevate(2, "view", 1, "why", 0));
      && s.caseGrants == map[10 := ViewGrant()]
      && s.elevations == map[11 := Grant(11, 1, 2, "view", 1, "why", 5, 3605, 9, None)]
  {
    assert TrimSpace("view") == "view" && TrimSpace("why") == "why";
  }

  function Blanket(id: Id, effect: Effect): Policy {
    Policy(id, 1, "p", [Rule([], [], [], false, TimeWindow(0, 0, false), effect)], true, 9, 5, 5)
  }

  // Two active policies that disagree on every request: access is allowed or
  // denied as the store happens to list them.
  lemma PolicyOrderDecides()
    ensures var ops := [(SampleContext(20), CreatePolicy(Blanket(20, Allow))),
                        (SampleContext(21), CreatePolicy(Blanket(21, Deny)))];
      var s := Run(EMPTY, ops);
      && Keyed(s)
      && Reached(s, SAMPLE_REQUEST, Decision(Allow, PolicyMatched, 20, NIL, 6))
      && Reached(s, SAMPLE_REQUEST, Decision(Deny, PolicyMatchedDeny, 21, NIL, 6))
  {
    hide Step, Run, Verdict;
    var a, b := CreatePolicy(Blanket(20, Allow)), CreatePolicy(Blanket(21, Deny));
    RunTwo(EMPTY, (SampleContext(20), a), (SampleContext(21), b));
    TwoPolicies();
    BlanketSpeaks(20, Allow);
    BlanketSpeaks(21, Deny);
    var s := Run(EMPTY, [(SampleContext(20), a), (SampleContext(21), b)]);
    assert 20 in Deciders(s, SAMPLE_REQUEST) && 21 in Deciders(s, SAMPLE_REQUEST);
    assert Deniers(s, SAMPLE_REQUEST) == {} && Permitters(s, SAMPLE_REQUEST) == {};
    assert Elevators(s, SAMPLE_REQUEST) == {};
  }

  lemma TwoPolicies()
    ensures Step(Step(EMPTY, SampleContext(20), CreatePolicy(Blanket(20, Allow))), SampleContext(21),
                 CreatePolicy(Blanket(21, Deny))) ==
            EMPTY.(policies := map[20 := Blanket(20, Allow), 21 := Blanket(21, Deny)])
  {
    assert TrimSpace("p") == "p";
  }

  lemma BlanketSpeaks(id: Id, effect: Effect)
    ensures Verdict(Blanket(id, effect), SAMPLE_REQUEST) == Some(effect)
  {
  }

  // A review of a grant that does not exist, attested as revoked: the call fails
  // and the review is decided.
  lemma FailedAttestDecides()
    ensures var first := SampleContext(30);
      var second := Attest(30, REVOKE, "");
      var s := Step(EMPTY, first, ScheduleReview(CASE_GRANT, 77, 3, 0));
      Apply(s, first, second).failure == Some(GrantNotFound) && IsDecided(Step(s, first, second), 30)
  {
  }

  // A review that names nobody: the holder approves the own grant.
  lemma HolderCanApprove()
    ensures var ctx, holder := SampleContext(30), Context(2, 1, 6, 31);
      var s := Step(EMPTY.(caseGrants := map[10 := ViewGrant()]), ctx, ScheduleReview(CASE_GRANT, 10, NIL, 0));
      Apply(s, holder, Attest(30, APPROVE, "")).failure == None
  {
  }
}
