// packages/annotations: what every call asks for and what it leaves in the
// fields of the stored annotations; what the listings list.
module AnnotationsOnFields {
  import opened Basics
  import opened Text
  import opened Annotations
  import Sorting

  // ---------- what is accepted ----------

  predicate Anchored(a: Annotation) {
    || (a.anchorType == "case" && !NonBlank(a.anchorId))
    || (a.anchorType == "tree_node" && NonBlank(a.anchorId))
    || (a.anchorType == "evidence_segment" && NonBlank(a.anchorId))
  }

  lemma ValidOnFields(a: Annotation)
    ensures Validate(a).None? <==>
      a.caseId != 0 && a.tenantId != 0 && a.authorId != 0 && NonBlank(a.body) && Anchored(a)
    ensures Validate(a) == Some(EmptyCaseId) <==> a.caseId == 0
    ensures Validate(a) == Some(EmptyTenantId) <==> a.caseId != 0 && a.tenantId == 0
    ensures Validate(a) == Some(Unauthenticated) <==> a.caseId != 0 && a.tenantId != 0 && a.authorId == 0
    ensures Validate(a) == Some(EmptyBody) <==>
      a.caseId != 0 && a.tenantId != 0 && a.authorId != 0 && !NonBlank(a.body)
    ensures Validate(a) == Some(UnexpectedAnchorId) ==> a.anchorType == "case" && NonBlank(a.anchorId)
    ensures Validate(a) == Some(EmptyAnchorId) ==>
      (a.anchorType == "tree_node" || a.anchorType == "evidence_segment") && !NonBlank(a.anchorId)
    ensures Validate(a) == Some(InvalidAnchorType) ==>
      a.anchorType != "case" && a.anchorType != "tree_node" && a.anchorType != "evidence_segment"
  {
    hide TrimSpace, NonBlank;
    NonBlankIff(a.body);
    NonBlankIff(a.anchorId);
  }

  // ---------- what each call does ----------

  // A reply's parent: a root of the tenant and case that is there.
  predicate ParentThere(m: Records, tenant: Id, caseId: Id, parent: Option<Id>) {
    parent.Some? ==> parent.value in m && m[parent.value].tenantId == tenant && m[parent.value].caseId == caseId
                     && m[parent.value].parentId.None?
  }

  // The annotation is the tenant's, of a case the caller sees.
  predicate Reachable(m: Records, ctx: Context, id: Id) {
    id in m && m[id].tenantId == ctx.tenant && (ctx.tenant, m[id].caseId) in ctx.cases
  }

  predicate OneMoreRecord(before: Audit, after: Audit, a: Annotation, verb: Verb, ctx: Context) {
    after == before[a.id := (if a.id in before then before[a.id] else []) +
                            [AuditRecord(a.id, a.caseId, a.tenantId, verb, ctx.user, ctx.now)]]
  }

  lemma CreateOnFields(s: Store, ctx: Context, a: Annotation)
    ensures var r := Apply(s, ctx, Create(a));
      r.Ok? <==>
        && (ctx.tenant, a.caseId) in ctx.cases && (a.tenantId == 0 || a.tenantId == ctx.tenant)
        && a.caseId != 0 && ctx.tenant != 0 && ctx.user != 0 && NonBlank(a.body) && Anchored(a)
        && ParentThere(s.records, ctx.tenant, a.caseId, a.parentId)
    ensures var r := Apply(s, ctx, Create(a));
      r.Ok? ==>
        var id := if a.id == 0 then ctx.freshId else a.id;
        && id in r.value.records && r.value.records == s.records[id := r.value.records[id]]
        && var b := r.value.records[id];
           && (b.id, b.caseId, b.tenantId, b.authorId) == (id, a.caseId, ctx.tenant, ctx.user)
           && (b.body, b.anchorType, b.anchorId, b.parentId) == (a.body, a.anchorType, a.anchorId, a.parentId)
           && (b.resolved, b.resolvedBy, b.resolvedAt) == (a.resolved, a.resolvedBy, a.resolvedAt)
           && b.createdAt == (if a.createdAt == 0 then ctx.now else a.createdAt) && b.updatedAt == ctx.now
           && OneMoreRecord(s.audit, r.value.audit, b, Created, ctx)
  {
    hide Validate, NonBlank;
    ValidOnFields(WithTenant(a.(authorId := ctx.user), ctx.tenant));
  }

  // The body changes, and with it nothing but the time of the last change.
  lemma UpdateBodyOnFields(s: Store, ctx: Context, id: Id, body: string)
    requires Keyed(s.records)
    ensures var r := Apply(s, ctx, UpdateBody(id, body));
      r.Ok? ==> Reachable(s.records, ctx, id) && s.records[id].authorId == ctx.user && NonBlank(body)
    ensures var r := Apply(s, ctx, UpdateBody(id, body));
      (Reachable(s.records, ctx, id) && s.records[id].authorId == ctx.user && NonBlank(body)
       && Validate(s.records[id]).None?) ==> r.Ok?
    ensures var r := Apply(s, ctx, UpdateBody(id, body));
      r.Ok? ==>
        && id in r.value.records && r.value.records == s.records[id := r.value.records[id]]
        && var a, b := s.records[id], r.value.records[id];
           b.body == body && b.updatedAt == ctx.now && b.(body := a.body, updatedAt := a.updatedAt) == a
           && OneMoreRecord(s.audit, r.value.audit, b, Edited, ctx)
  {
    hide Validate, NonBlank;
    if id in s.records {
      ValidOnFields(s.records[id]);
      ValidOnFields(Rewritten(s.records[id], body, ctx.now));
    }
  }

  lemma ResolveOnFields(s: Store, ctx: Context, id: Id)
    requires Keyed(s.records)
    ensures var r := Apply(s, ctx, Resolve(id));
      && (r.Ok? <==> Reachable(s.records, ctx, id) && !s.records[id].resolved)
      && (r.Ok? ==>
            && id in r.value.records && r.value.records == s.records[id := r.value.records[id]]
            && var a, b := s.records[id], r.value.records[id];
               && b.resolved && b.resolvedBy == Some(ctx.user) && b.resolvedAt == Some(ctx.now)
               && b.updatedAt == ctx.now
               && b.(resolved := a.resolved, resolvedBy := a.resolvedBy, resolvedAt := a.resolvedAt,
                     updatedAt := a.updatedAt) == a
               && OneMoreRecord(s.audit, r.value.audit, b, Resolved, ctx))
  {
  }

  lemma ReopenOnFields(s: Store, ctx: Context, id: Id)
    requires Keyed(s.records)
    ensures var r := Apply(s, ctx, Reopen(id));
      && (r.Ok? <==> Reachable(s.records, ctx, id) && s.records[id].resolved)
      && (r.Ok? ==>
            && id in r.value.records && r.value.records == s.records[id := r.value.records[id]]
            && var a, b := s.records[id], r.value.records[id];
               && !b.resolved && b.resolvedBy == None && b.resolvedAt == None && b.updatedAt == ctx.now
               && b.(resolved := a.resolved, resolvedBy := a.resolvedBy, resolvedAt := a.resolvedAt,
                     updatedAt := a.updatedAt) == a
               && OneMoreRecord(s.audit, r.value.audit, b, Reopened, ctx))
  {
  }

  // The annotation goes, and with it what replies to it; the rest stays as it is.
  lemma DeleteOnFields(s: Store, ctx: Context, id: Id)
    requires Keyed(s.records)
    ensures var r := Apply(s, ctx, Delete(id));
      && (r.Ok? <==> Reachable(s.records, ctx, id) && s.records[id].authorId == ctx.user)
      && (r.Ok? ==>
            && (forall x :: x in r.value.records <==> x in s.records && x != id && s.records[x].parentId != Some(id))
            && (forall x :: x in r.value.records ==> r.value.records[x] == s.records[x])
            && OneMoreRecord(s.audit, r.value.audit, s.records[id], Deleted, ctx))
  {
  }

  // Which error a call on a stored annotation gives where it is refused.
  lemma RefusalsOnFields(s: Store, ctx: Context, call: Call)
    requires !call.Create? && Apply(s, ctx, call).Err?
    ensures var e := Apply(s, ctx, call).error; var m := s.records;
      && (e == NotFound <==> !(call.id in m && m[call.id].tenantId == ctx.tenant))
      && (e == Forbidden <==>
            call.id in m && m[call.id].tenantId == ctx.tenant && (ctx.tenant, m[call.id].caseId) !in ctx.cases)
      && (e == NotAuthor <==> (call.UpdateBody? || call.Delete?) && Reachable(m, ctx, call.id)
                              && m[call.id].authorId != ctx.user)
      && (e == AlreadyResolved ==> call.Resolve? && m[call.id].resolved)
      && (e == NotResolved ==> call.Reopen? && !m[call.id].resolved)
  {
    hide TrimSpace;
  }

  // ---------- what the listings list ----------

  // Exactly the tenant's annotations of the case under the anchor asked for,
  // each once, the older ones first.
  lemma ListingOnFields(out: seq<Annotation>, m: Records, tenant: Id, caseId: Id, f: AnchorFilter)
    requires Keyed(m) && Lists(multiset(out), CaseIds(m, tenant, caseId, f), m) && Sorting.Sorted(out, Older())
    ensures forall x :: x in m ==>
      multiset(out)[m[x]] ==
        if m[x].tenantId == tenant && m[x].caseId == caseId
           && (f.anchorType != "" ==> m[x].anchorType == f.anchorType && (f.id != "" ==> m[x].anchorId == f.id))
        then 1 else 0
    ensures forall a :: a in out ==> a.id in m && m[a.id] == a
    ensures forall i, k :: 0 <= i < k < |out| ==> out[i].createdAt <= out[k].createdAt
  {
    forall i, k | 0 <= i < k < |out| ensures out[i].createdAt <= out[k].createdAt {
      assert !Older()(out[k], out[i]);
    }
    forall a | a in out ensures a.id in m && m[a.id] == a { assert a in multiset(out); }
  }

  // The same for the replies of a thread.
  lemma RepliesOnFields(out: seq<Annotation>, m: Records, tenant: Id, root: Id)
    requires Keyed(m) && Lists(multiset(out), ReplyIds(m, tenant, root), m) && Sorting.Sorted(out, Older())
    ensures forall x :: x in m ==>
      multiset(out)[m[x]] == if m[x].tenantId == tenant && m[x].parentId == Some(root) then 1 else 0
    ensures forall a :: a in out ==> a.id in m && m[a.id] == a
    ensures forall i, k :: 0 <= i < k < |out| ==> out[i].createdAt <= out[k].createdAt
  {
    forall i, k | 0 <= i < k < |out| ensures out[i].createdAt <= out[k].createdAt {
      assert !Older()(out[k], out[i]);
    }
    forall a | a in out ensures a.id in m && m[a.id] == a { assert a in multiset(out); }
  }
}
