// packages/annotations: types.go, inmemory_repository.go, service.go, audit.go.
// Comment threads one level deep, and the audit trail that has to tell how
// every annotation got to where it is. UUIDs are numbers here, with 0 for
// uuid.Nil; the clock and uuid.New are given with each call.
module Annotations {
  import opened Basics
  import opened Text
  import Sorting

  type Id = nat
  const NIL: Id := 0
  const ZERO_TIME: int := 0

  datatype Annotation = Annotation(
    id: Id, caseId: Id, tenantId: Id, authorId: Id, body: string, anchorType: string, anchorId: string,
    parentId: Option<Id>, resolved: bool, resolvedBy: Option<Id>, resolvedAt: Option<int>,
    createdAt: int, updatedAt: int)

  datatype Error =
    | EmptyCaseId | EmptyTenantId | Unauthenticated | EmptyBody | InvalidAnchorType | UnexpectedAnchorId | EmptyAnchorId
    | Forbidden | NotFound | CrossTenantAccess | NotAuthor | ParentNotFound | ParentIsReply
    | AlreadyResolved | NotResolved

  datatype Verb = Created | Edited | Deleted | Resolved | Reopened

  datatype AuditRecord = AuditRecord(annotationId: Id, caseId: Id, tenantId: Id, verb: Verb, actor: Id, occurredAt: int)

  type Records = map<Id, Annotation>
  type Audit = map<Id, seq<AuditRecord>>

  function Validate(a: Annotation): Option<Error> {
    if a.caseId == NIL then Some(EmptyCaseId)
    else if a.tenantId == NIL then Some(EmptyTenantId)
    else if a.authorId == NIL then Some(Unauthenticated)
    else if TrimSpace(a.body) == "" then Some(EmptyBody)
    else if a.anchorType == "case" then if TrimSpace(a.anchorId) != "" then Some(UnexpectedAnchorId) else None
    else if a.anchorType in {"tree_node", "evidence_segment"} then
      if TrimSpace(a.anchorId) == "" then Some(EmptyAnchorId) else None
    else Some(InvalidAnchorType)
  }

  // Who calls, for which tenant, when, with which cases visible
  // (caselifecycle.Repository.Get), and what uuid.New would return.
  datatype Context = Context(user: Id, tenant: Id, now: int, cases: set<(Id, Id)>, freshId: Id)

  // ---------- what each operation stores ----------

  predicate InTenant(m: Records, tenant: Id, id: Id) {
    id in m && m[id].tenantId == tenant
  }

  function WithTenant(a: Annotation, tenant: Id): Annotation {
    if a.tenantId == NIL then a.(tenantId := tenant) else a
  }

  function Stamped(a: Annotation, now: int, freshId: Id): Annotation {
    a.(id := if a.id == NIL then freshId else a.id,
       createdAt := if a.createdAt == ZERO_TIME then now else a.createdAt, updatedAt := now)
  }

  function ParentError(m: Records, tenant: Id, a: Annotation): Option<Error> {
    if a.parentId.None? then None
    else
      var p := a.parentId.value;
      if !InTenant(m, tenant, p) || m[p].caseId != a.caseId then Some(ParentNotFound)
      else if m[p].parentId.Some? then Some(ParentIsReply)
      else None
  }

  function TenantError(tenant: Id, entity: Id): Option<Error> {
    if entity != NIL && entity != tenant then Some(CrossTenantAccess) else None
  }

  // The annotation Create stores, or why it stores none.
  function Admitted(m: Records, tenant: Id, given: Annotation, now: int, freshId: Id): Result<Annotation, Error> {
    var a := WithTenant(given, tenant);
    if TenantError(tenant, a.tenantId).Some? then Err(TenantError(tenant, a.tenantId).value)
    else if Validate(a).Some? then Err(Validate(a).value)
    else if ParentError(m, tenant, a).Some? then Err(ParentError(m, tenant, a).value)
    else Ok(Stamped(a, now, freshId))
  }

  // Deleting an annotation takes whatever replies to it along.
  function Without(m: Records, id: Id): Records {
    map x | x in m && x != id && m[x].parentId != Some(id) :: m[x]
  }

  function Rewritten(a: Annotation, body: string, now: int): Annotation {
    a.(body := body, updatedAt := now)
  }

  function Closed(a: Annotation, who: Id, now: int): Annotation {
    a.(resolved := true, resolvedBy := Some(who), resolvedAt := Some(now), updatedAt := now)
  }

  function Opened(a: Annotation, now: int): Annotation {
    a.(resolved := false, resolvedBy := None, resolvedAt := None, updatedAt := now)
  }

  function Trail(log: Audit, id: Id): seq<AuditRecord> {
    if id in log then log[id] else []
  }

  function Entry(a: Annotation, verb: Verb, actor: Id, now: int): AuditRecord {
    AuditRecord(a.id, a.caseId, a.tenantId, verb, actor, now)
  }

  function Logged(log: Audit, e: AuditRecord): Audit {
    log[e.annotationId := Trail(log, e.annotationId) + [e]]
  }

  // ---------- the service's calls ----------

  datatype Store = Store(records: Records, audit: Audit)

  datatype Call =
    | Create(a: Annotation)
    | UpdateBody(id: Id, body: string)
    | Delete(id: Id)
    | Resolve(id: Id)
    | Reopen(id: Id)

  // The annotation a call names, if it and its case are visible.
  function Visible(m: Records, ctx: Context, id: Id): Result<Annotation, Error> {
    if !InTenant(m, ctx.tenant, id) then Err(NotFound)
    else if (ctx.tenant, m[id].caseId) !in ctx.cases then Err(Forbidden)
    else Ok(m[id])
  }

  function Put(s: Store, ctx: Context, key: Id, a: Annotation, verb: Verb): Store {
    Store(s.records[key := a], Logged(s.audit, Entry(a, verb, ctx.user, ctx.now)))
  }

  function Apply(s: Store, ctx: Context, call: Call): Result<Store, Error> {
    match call
    case Create(a) =>
      if (ctx.tenant, a.caseId) !in ctx.cases then Err(Forbidden)
      else
        (match Admitted(s.records, ctx.tenant, a.(authorId := ctx.user), ctx.now, ctx.freshId)
         case Err(e) => Err(e)
         case Ok(stored) => Ok(Put(s, ctx, stored.id, stored, Created)))
    case UpdateBody(id, body) =>
      (match Visible(s.records, ctx, id)
       case Err(e) => Err(e)
       case Ok(a) =>
         if a.authorId != ctx.user then Err(NotAuthor)
         else if Validate(Rewritten(a, body, ctx.now)).Some? then Err(Validate(Rewritten(a, body, ctx.now)).value)
         else Ok(Put(s, ctx, id, Rewritten(a, body, ctx.now), Edited)))
    case Delete(id) =>
      (match Visible(s.records, ctx, id)
       case Err(e) => Err(e)
       case Ok(a) =>
         if a.authorId != ctx.user then Err(NotAuthor)
         else Ok(Store(Without(s.records, id), Logged(s.audit, Entry(a, Deleted, ctx.user, ctx.now)))))
    case Resolve(id) =>
      (match Visible(s.records, ctx, id)
       case Err(e) => Err(e)
       case Ok(a) =>
         if a.resolved then Err(AlreadyResolved)
         else Ok(Put(s, ctx, id, Closed(a, ctx.user, ctx.now), Resolved)))
    case Reopen(id) =>
      (match Visible(s.records, ctx, id)
       case Err(e) => Err(e)
       case Ok(a) =>
         if !a.resolved then Err(NotResolved)
         else Ok(Put(s, ctx, id, Opened(a, ctx.now), Reopened)))
  }

  // ---------- listings ----------

  datatype AnchorFilter = AnchorFilter(anchorType: string, id: string)

  predicate Matches(a: Annotation, f: AnchorFilter) {
    f.anchorType == "" || (a.anchorType == f.anchorType && (f.id == "" || a.anchorId == f.id))
  }

  function CaseIds(m: Records, tenant: Id, caseId: Id, f: AnchorFilter): set<Id> {
    set x | x in m && m[x].tenantId == tenant && m[x].caseId == caseId && Matches(m[x], f)
  }

  function ReplyIds(m: Records, tenant: Id, root: Id): set<Id> {
    set x | x in m && m[x].tenantId == tenant && m[x].parentId == Some(root)
  }

  predicate Keyed(m: Records) {
    forall x :: x in m ==> m[x].id == x
  }

  // Exactly the annotations with these ids, each once.
  ghost predicate Lists(out: multiset<Annotation>, ids: set<Id>, m: Records) {
    && (forall x :: x in ids ==> x in m && out[m[x]] == 1)
    && (forall a :: a in out ==> a.id in ids && a.id in m && m[a.id] == a)
  }

  lemma ListsOneMore(out: multiset<Annotation>, ids: set<Id>, m: Records, x: Id)
    requires Lists(out, ids, m) && x in m && x !in ids && Keyed(m)
    ensures Lists(out + multiset{m[x]}, ids + {x}, m)
  {
    assert m[x] !in out;
  }

  lemma NonePicked(ids: set<Id>, m: Records)
    requires ids <= m.Keys
    ensures Lists(multiset([]), ids - m.Keys, m)
  {
  }

  lemma OneMorePicked(out: seq<Annotation>, ids: set<Id>, todo: set<Id>, m: Records, x: Id)
    requires Lists(multiset(out), ids - todo, m) && x in todo && x in m && Keyed(m)
    ensures Lists(multiset(if x in ids then out + [m[x]] else out), ids - (todo - {x}), m)
  {
    hide Lists, Keyed;
    if x in ids {
      ListsOneMore(multiset(out), ids - todo, m, x);
      assert ids - todo + {x} == ids - (todo - {x});
      assert multiset(out + [m[x]]) == multiset(out) + multiset{m[x]};
    } else {
      assert ids - todo == ids - (todo - {x});
    }
  }

  function Older(): (Annotation, Annotation) -> bool {
    (a: Annotation, b: Annotation) => a.createdAt < b.createdAt
  }

  // ---------- the in-memory repository ----------

  class InMemoryRepository {
    var records: Records
    var audit: Audit

    constructor ()
      ensures Valid() && Snapshot() == Store(map[], map[])
    {
      records, audit := map[], map[];
    }

    predicate Valid()
      reads this
    {
      Keyed(records)
    }

    function Snapshot(): Store
      reads this
    {
      Store(records, audit)
    }

    method Create(tenant: Id, given: Annotation, now: int, freshId: Id) returns (r: Result<Annotation, Error>)
      requires Valid()
      modifies this`records
      ensures Valid() && r == Admitted(old(records), tenant, given, now, freshId)
      ensures records == if r.Ok? then old(records)[r.value.id := r.value] else old(records)
    {
      var a := given;
      if a.tenantId == NIL { a := a.(tenantId := tenant); }
      var mismatch := TenantError(tenant, a.tenantId);
      if mismatch.Some? { return Err(mismatch.value); }
      var invalid := Validate(a);
      if invalid.Some? { return Err(invalid.value); }
      if a.parentId.Some? {
        var p := a.parentId.value;
        if p !in records || records[p].tenantId != tenant || records[p].caseId != a.caseId {
          return Err(ParentNotFound);
        }
        if records[p].parentId.Some? { return Err(ParentIsReply); }
      }
      if a.id == NIL { a := a.(id := freshId); }
      if a.createdAt == ZERO_TIME { a := a.(createdAt := now); }
      a := a.(updatedAt := now);
      records := records[a.id := a];
      r := Ok(a);
    }

    method Get(tenant: Id, id: Id) returns (r: Result<Annotation, Error>)
      ensures r == if InTenant(records, tenant, id) then Ok(records[id]) else Err(NotFound)
    {
      if id !in records || records[id].tenantId != tenant { return Err(NotFound); }
      r := Ok(records[id]);
    }

    // Map iteration picks the annotations up in any order; sort.Slice then orders
    // them by creation time.
    method ListByCase(tenant: Id, caseId: Id, filter: AnchorFilter) returns (out: seq<Annotation>)
      requires Valid()
      ensures Lists(multiset(out), CaseIds(records, tenant, caseId, filter), records)
      ensures Sorting.Sorted(out, Older())
    {
      out := Pick(CaseIds(records, tenant, caseId, filter));
    }

    method Thread(tenant: Id, rootId: Id) returns (r: Result<seq<Annotation>, Error>)
      requires Valid()
      ensures r.Err? <==> !InTenant(records, tenant, rootId)
      ensures r.Err? ==> r.error == NotFound
      ensures r.Ok? ==>
        && r.value != [] && r.value[0] == records[rootId]
        && Lists(multiset(r.value[1..]), ReplyIds(records, tenant, rootId), records)
        && Sorting.Sorted(r.value[1..], Older())
    {
      if rootId !in records || records[rootId].tenantId != tenant { return Err(NotFound); }
      var replies := Pick(ReplyIds(records, tenant, rootId));
      assert ([records[rootId]] + replies)[1..] == replies;
      r := Ok([records[rootId]] + replies);
    }

    method Pick(ids: set<Id>) returns (out: seq<Annotation>)
      requires Valid() && ids <= records.Keys
      ensures Lists(multiset(out), ids, records)
      ensures Sorting.Sorted(out, Older())
    {
      hide Lists, Keyed;
      var todo := records.Keys;
      out := [];
      NonePicked(ids, records);
      while todo != {}
        invariant todo <= records.Keys
        invariant Lists(multiset(out), ids - todo, records)
        decreases |todo|
      {
        var id :| id in todo;
        OneMorePicked(out, ids, todo, records, id);
        todo := todo - {id};
        if id in ids { out := out + [records[id]]; }
      }
      assert ids - {} == ids;
      Sorting.SortSorts(out, Older());
      Sorting.SortPermutes(out, Older());
      out := Sorting.StableSort(out, Older());
    }

    method UpdateBody(tenant: Id, id: Id, body: string, now: int) returns (r: Result<Annotation, Error>)
      requires Valid()
      modifies this`records
      ensures Valid()
      ensures r == if !InTenant(old(records), tenant, id) then Err(NotFound)
                   else if Validate(Rewritten(old(records)[id], body, now)).Some?
                   then Err(Validate(Rewritten(old(records)[id], body, now)).value)
                   else Ok(Rewritten(old(records)[id], body, now))
      ensures records == if r.Ok? then old(records)[id := r.value] else old(records)
    {
      if id !in records || records[id].tenantId != tenant { return Err(NotFound); }
      var updated := records[id].(body := body, updatedAt := now);
      var invalid := Validate(updated);
      if invalid.Some? { return Err(invalid.value); }
      records := records[id := updated];
      r := Ok(updated);
    }

    method Delete(tenant: Id, id: Id) returns (failure: Option<Error>)
      requires Valid()
      modifies this`records
      ensures Valid()
      ensures failure == if InTenant(old(records), tenant, id) then None else Some(NotFound)
      ensures records == if failure.None? then Without(old(records), id) else old(records)
    {
      if id !in records || records[id].tenantId != tenant { return Some(NotFound); }
      ghost var was := records;
      records := records - {id};
      var todo := records.Keys;
      while todo != {}
        invariant todo <= records.Keys <= was.Keys - {id}
        invariant forall x :: x in records ==> records[x] == was[x]
        invariant forall x :: x in was && x != id && x !in todo ==> (x in records <==> was[x].parentId != Some(id))
        decreases |todo|
      {
        var other :| other in todo;
        todo := todo - {other};
        if records[other].parentId == Some(id) { records := records - {other}; }
      }
      failure := None;
    }

    method Resolve(tenant: Id, id: Id, who: Id, now: int) returns (r: Result<Annotation, Error>)
      requires Valid()
      modifies this`records
      ensures Valid()
      ensures r == if !InTenant(old(records), tenant, id) then Err(NotFound)
                   else if old(records)[id].resolved then Err(AlreadyResolved)
                   else Ok(Closed(old(records)[id], who, now))
      ensures records == if r.Ok? then old(records)[id := r.value] else old(records)
    {
      if id !in records || records[id].tenantId != tenant { return Err(NotFound); }
      if records[id].resolved { return Err(AlreadyResolved); }
      var updated := records[id].(resolved := true, resolvedBy := Some(who), resolvedAt := Some(now), updatedAt := now);
      records := records[id := updated];
      r := Ok(updated);
    }

    method Reopen(tenant: Id, id: Id, now: int) returns (r: Result<Annotation, Error>)
      requires Valid()
      modifies this`records
      ensures Valid()
      ensures r == if !InTenant(old(records), tenant, id) then Err(NotFound)
                   else if !old(records)[id].resolved then Err(NotResolved)
                   else Ok(Opened(old(records)[id], now))
      ensures records == if r.Ok? then old(records)[id := r.value] else old(records)
    {
      if id !in records || records[id].tenantId != tenant { return Err(NotFound); }
      if !records[id].resolved { return Err(NotResolved); }
      var updated := records[id].(resolved := false, resolvedBy := None, resolvedAt := None, updatedAt := now);
      records := records[id := updated];
      r := Ok(updated);
    }

    method AppendAudit(e: AuditRecord)
      modifies this`audit
      ensures audit == Logged(old(audit), e)
    {
      audit := audit[e.annotationId := (if e.annotationId in audit then audit[e.annotationId] else []) + [e]];
    }
  }

  // ---------- the service ----------

  class Service {
    const repo: InMemoryRepository

    constructor (repo: InMemoryRepository)
      ensures this.repo == repo
    {
      this.repo := repo;
    }

    method Existing(ctx: Context, id: Id) returns (r: Result<Annotation, Error>)
      ensures r == Visible(repo.records, ctx, id)
    {
      r := repo.Get(ctx.tenant, id);
      if r.Err? { return; }
      if (ctx.tenant, r.value.caseId) !in ctx.cases { return Err(Forbidden); }
    }

    method Create(ctx: Context, a: Annotation) returns (r: Result<Annotation, Error>)
      requires repo.Valid()
      modifies repo
      ensures repo.Valid()
      ensures Apply(old(repo.Snapshot()), ctx, Call.Create(a)) == if r.Ok? then Ok(repo.Snapshot()) else Err(r.error)
      ensures r.Err? ==> repo.Snapshot() == old(repo.Snapshot())
      ensures r.Ok? ==> r.value.id in repo.records && repo.records[r.value.id] == r.value
    {
      if (ctx.tenant, a.caseId) !in ctx.cases { return Err(Forbidden); }
      r := repo.Create(ctx.tenant, a.(authorId := ctx.user), ctx.now, ctx.freshId);
      if r.Err? { return; }
      repo.AppendAudit(Entry(r.value, Created, ctx.user, ctx.now));
    }

    method UpdateBody(ctx: Context, id: Id, body: string) returns (r: Result<Annotation, Error>)
      requires repo.Valid()
      modifies repo
      ensures repo.Valid()
      ensures Apply(old(repo.Snapshot()), ctx, Call.UpdateBody(id, body)) ==
              if r.Ok? then Ok(repo.Snapshot()) else Err(r.error)
      ensures r.Err? ==> repo.Snapshot() == old(repo.Snapshot())
      ensures r.Ok? ==> id in repo.records && repo.records[id] == r.value
    {
      var existing := Existing(ctx, id);
      if existing.Err? { return existing; }
      if existing.value.authorId != ctx.user { return Err(NotAuthor); }
      r := repo.UpdateBody(ctx.tenant, id, body, ctx.now);
      if r.Err? { return; }
      repo.AppendAudit(Entry(r.value, Edited, ctx.user, ctx.now));
    }

    method Delete(ctx: Context, id: Id) returns (failure: Option<Error>)
      requires repo.Valid()
      modifies repo
      ensures repo.Valid()
      ensures Apply(old(repo.Snapshot()), ctx, Call.Delete(id)) ==
              if failure.None? then Ok(repo.Snapshot()) else Err(failure.value)
      ensures failure.Some? ==> repo.Snapshot() == old(repo.Snapshot())
    {
      var existing := Existing(ctx, id);
      if existing.Err? { return Some(existing.error); }
      if existing.value.authorId != ctx.user { return Some(NotAuthor); }
      failure := repo.Delete(ctx.tenant, id);
      if failure.Some? { return; }
      repo.AppendAudit(Entry(existing.value, Deleted, ctx.user, ctx.now));
    }

    method Resolve(ctx: Context, id: Id) returns (r: Result<Annotation, Error>)
      requires repo.Valid()
      modifies repo
      ensures repo.Valid()
      ensures Apply(old(repo.Snapshot()), ctx, Call.Resolve(id)) == if r.Ok? then Ok(repo.Snapshot()) else Err(r.error)
      ensures r.Err? ==> repo.Snapshot() == old(repo.Snapshot())
      ensures r.Ok? ==> id in repo.records && repo.records[id] == r.value
    {
      var existing := Existing(ctx, id);
      if existing.Err? { return existing; }
      r := repo.Resolve(ctx.tenant, id, ctx.user, ctx.now);
      if r.Err? { return; }
      repo.AppendAudit(Entry(r.value, Resolved, ctx.user, ctx.now));
    }

    method Reopen(ctx: Context, id: Id) returns (r: Result<Annotation, Error>)
      requires repo.Valid()
      modifies repo
      ensures repo.Valid()
      ensures Apply(old(repo.Snapshot()), ctx, Call.Reopen(id)) == if r.Ok? then Ok(repo.Snapshot()) else Err(r.error)
      ensures r.Err? ==> repo.Snapshot() == old(repo.Snapshot())
      ensures r.Ok? ==> id in repo.records && repo.records[id] == r.value
    {
      var existing := Existing(ctx, id);
      if existing.Err? { return existing; }
      r := repo.Reopen(ctx.tenant, id, ctx.now);
      if r.Err? { return; }
      repo.AppendAudit(Entry(r.value, Reopened, ctx.user, ctx.now));
    }
  }

  // ---------- threads stay whole ----------

  // Nothing stored is invalid, and every reply hangs under a present root of
  // its own tenant and case.
  predicate Placed(m: Records, a: Annotation) {
    Validate(a).None? &&
    (a.parentId.Some? ==>
      var p := a.parentId.value;
      p in m && m[p].parentId.None? && m[p].tenantId == a.tenantId && m[p].caseId == a.caseId)
  }

  predicate ThreadsOk(m: Records) {
    Keyed(m) && forall x :: x in m ==> Placed(m, m[x])
  }

  // What a caller of Create can check beforehand: a new root may take an id
  // over only if the replies to that id are of its tenant and case; a reply,
  // only if there are none, and not its own parent's.
  predicate MayTake(m: Records, a: Annotation, id: Id) {
    if a.parentId.None?
    then forall x :: x in m && m[x].parentId == Some(id) ==> m[x].tenantId == a.tenantId && m[x].caseId == a.caseId
    else a.parentId != Some(id) && forall x :: x in m ==> m[x].parentId != Some(id)
  }

  lemma CreateKeepsThreadsIff(m: Records, tenant: Id, given: Annotation, now: int, freshId: Id)
    requires ThreadsOk(m) && Admitted(m, tenant, given, now, freshId).Ok?
    ensures var a := Admitted(m, tenant, given, now, freshId).value;
      ThreadsOk(m[a.id := a]) <==> MayTake(m, a, a.id)
  {
    hide Validate;
    var a := Admitted(m, tenant, given, now, freshId).value;
    var after := m[a.id := a];
    StampKeepsValid(WithTenant(given, tenant), now, freshId);
    assert Placed(m, a);
    if MayTake(m, a, a.id) {
      forall x | x in after ensures Placed(after, after[x]) {
        if x != a.id { assert Placed(m, m[x]); }
      }
    } else if a.parentId == Some(a.id) {
      assert !Placed(after, after[a.id]);
    } else {
      var x :| x in m && m[x].parentId == Some(a.id) &&
        (a.parentId.None? ==> m[x].tenantId != a.tenantId || m[x].caseId != a.caseId);
      assert Placed(m, m[x]);
      if x != a.id { assert !Placed(after, after[x]); }
    }
  }

  lemma StampKeepsValid(a: Annotation, now: int, freshId: Id)
    ensures Validate(Stamped(a, now, freshId)) == Validate(a)
  {
  }

  // A Create under an id never used before; uuid.New promises it, a caller that
  // sets the ID must keep to it.
  predicate FreshId(s: Store, ctx: Context, call: Call) {
    call.Create? ==> Stamped(call.a, ctx.now, ctx.freshId).id !in s.audit
  }

  predicate AllLogged(s: Store) {
    forall x :: x in s.records ==> x in s.audit
  }

  lemma FreshMayTake(m: Records, a: Annotation)
    requires ThreadsOk(m) && a.id !in m
    requires a.parentId.Some? ==> a.parentId.value in m
    ensures MayTake(m, a, a.id)
  {
    hide Validate;
    forall x | x in m ensures m[x].parentId != Some(a.id) {
      assert Placed(m, m[x]);
    }
  }

  lemma PutKeepsThreads(m: Records, id: Id, b: Annotation)
    requires ThreadsOk(m) && id in m && Validate(b).None?
    requires b.(body := "", resolved := false, resolvedBy := None, resolvedAt := None, updatedAt := 0)
          == m[id].(body := "", resolved := false, resolvedBy := None, resolvedAt := None, updatedAt := 0)
    ensures ThreadsOk(m[id := b])
  {
    hide Validate;
    assert b.id == m[id].id && b.parentId == m[id].parentId && b.tenantId == m[id].tenantId && b.caseId == m[id].caseId;
    var after := m[id := b];
    forall x | x in after ensures Placed(after, after[x]) {
      assert Placed(m, m[x]);
    }
  }

  lemma DeleteKeepsThreads(m: Records, id: Id)
    requires ThreadsOk(m)
    ensures ThreadsOk(Without(m, id))
  {
    hide Validate;
    var after := Without(m, id);
    forall x | x in after ensures Placed(after, after[x]) {
      assert Placed(m, m[x]);
    }
  }

  lemma ResolvingKeepsValid(a: Annotation, who: Id, now: int)
    ensures Validate(Closed(a, who, now)) == Validate(Opened(a, now)) == Validate(a)
  {
  }

  lemma CallKeepsThreads(s: Store, ctx: Context, call: Call)
    requires ThreadsOk(s.records) && AllLogged(s) && FreshId(s, ctx, call) && Apply(s, ctx, call).Ok?
    ensures var t := Apply(s, ctx, call).value; ThreadsOk(t.records) && AllLogged(t)
  {
    hide Validate, MayTake;
    match call
    case Create(a) =>
      var stored := Admitted(s.records, ctx.tenant, a.(authorId := ctx.user), ctx.now, ctx.freshId).value;
      FreshMayTake(s.records, stored);
      CreateKeepsThreadsIff(s.records, ctx.tenant, a.(authorId := ctx.user), ctx.now, ctx.freshId);
    case UpdateBody(id, body) => PutKeepsThreads(s.records, id, Rewritten(s.records[id], body, ctx.now));
    case Delete(id) => DeleteKeepsThreads(s.records, id);
    case Resolve(id) =>
      ResolvingKeepsValid(s.records[id], ctx.user, ctx.now);
      assert Placed(s.records, s.records[id]);
      PutKeepsThreads(s.records, id, Closed(s.records[id], ctx.user, ctx.now));
    case Reopen(id) =>
      ResolvingKeepsValid(s.records[id], ctx.user, ctx.now);
      assert Placed(s.records, s.records[id]);
      PutKeepsThreads(s.records, id, Opened(s.records[id], ctx.now));
  }

  // A refused call changes nothing.
  function Step(s: Store, ctx: Context, call: Call): Store {
    if Apply(s, ctx, call).Ok? then Apply(s, ctx, call).value else s
  }

  function Run(s: Store, calls: seq<(Context, Call)>): Store
    decreases |calls|
  {
    if calls == [] then s else Run(Step(s, calls[0].0, calls[0].1), calls[1..])
  }

  predicate FreshIds(s: Store, calls: seq<(Context, Call)>)
    decreases |calls|
  {
    calls == [] || (FreshId(s, calls[0].0, calls[0].1) && FreshIds(Step(s, calls[0].0, calls[0].1), calls[1..]))
  }

  lemma {:induction false} RunKeepsThreads(s: Store, calls: seq<(Context, Call)>)
    requires ThreadsOk(s.records) && AllLogged(s) && FreshIds(s, calls)
    ensures ThreadsOk(Run(s, calls).records) && AllLogged(Run(s, calls))
    decreases |calls|
  {
    hide ThreadsOk, AllLogged, Apply;
    if calls != [] {
      var (ctx, call) := calls[0];
      if Apply(s, ctx, call).Ok? { CallKeepsThreads(s, ctx, call); }
      RunKeepsThreads(Step(s, ctx, call), calls[1..]);
    }
  }

  // ---------- what a thread is ----------

  function ThreadIds(m: Records, tenant: Id, root: Id): set<Id> {
    {root} + ReplyIds(m, tenant, root)
  }

  function RootOf(a: Annotation): Id {
    if a.parentId.Some? then a.parentId.value else a.id
  }

  // Deleting a root removes exactly its thread; deleting a reply, only it.
  lemma DeleteRemovesThread(m: Records, id: Id)
    requires ThreadsOk(m) && id in m
    ensures Without(m, id).Keys ==
            m.Keys - if m[id].parentId.None? then ThreadIds(m, m[id].tenantId, id) else {id}
    ensures forall x :: x in Without(m, id) ==> Without(m, id)[x] == m[x]
  {
    hide Validate;
    forall x | x in m && m[x].parentId == Some(id) ensures m[id].parentId.None? && m[x].tenantId == m[id].tenantId {
      assert Placed(m, m[x]);
    }
  }

  const EVERYTHING := AnchorFilter("", "")

  // The threads of a case's roots share nothing and together are the case's
  // unfiltered listing.
  lemma ThreadsPartitionCase(m: Records, tenant: Id, caseId: Id)
    requires ThreadsOk(m)
    ensures forall x, root :: root in CaseIds(m, tenant, caseId, EVERYTHING) && m[root].parentId.None? ==>
      (x in ThreadIds(m, tenant, root) <==> x in CaseIds(m, tenant, caseId, EVERYTHING) && RootOf(m[x]) == root)
    ensures forall x :: x in CaseIds(m, tenant, caseId, EVERYTHING) ==>
      RootOf(m[x]) in CaseIds(m, tenant, caseId, EVERYTHING) && m[RootOf(m[x])].parentId.None?
  {
    hide Validate;
    forall x | x in m ensures Placed(m, m[x]) {}
  }

  // ---------- who can change what ----------

  // A Create that stores its annotation under the ID of a stored one.
  predicate TakesOver(s: Store, ctx: Context, call: Call, x: Id) {
    call.Create? && Apply(s, ctx, call).Ok? && x in s.records && Stamped(call.a, ctx.now, ctx.freshId).id == x
  }

  predicate RemovedAlong(s: Store, ctx: Context, call: Call, x: Id) {
    call.Delete? && Apply(s, ctx, call).Ok? && x in s.records && s.records[x].parentId == Some(call.id)
  }

  // Unless a Create takes its ID over, a body changes only at its author's hand.
  // An annotation disappears only when its author deletes it, or the author of
  // its root deletes the root. Another tenant's annotation changes exactly when
  // its ID is taken over, or when it hangs under the root that goes, which it
  // does not as long as threads are whole.
  lemma OnlyAuthorsChange(s: Store, ctx: Context, call: Call, x: Id)
    requires Keyed(s.records) && x in s.records
    ensures var before := s.records[x]; var after := Step(s, ctx, call).records;
      && (x !in after ==> call.Delete? && call.id in s.records && s.records[call.id].authorId == ctx.user
                          && (call.id == x || before.parentId == Some(call.id)))
      && (TakesOver(s, ctx, call, x) ==> x in after && after[x].authorId == ctx.user && after[x].tenantId == ctx.tenant)
      && (!TakesOver(s, ctx, call, x) && x in after ==>
            after[x].authorId == before.authorId && (after[x].body != before.body ==> ctx.user == before.authorId))
      && (before.tenantId != ctx.tenant ==>
            (x !in after || after[x] != before <==> TakesOver(s, ctx, call, x) || RemovedAlong(s, ctx, call, x)))
      && (ThreadsOk(s.records) && RemovedAlong(s, ctx, call, x) ==> before.tenantId == ctx.tenant)
  {
    hide Validate, TrimSpace, ParentError;
    if ThreadsOk(s.records) { assert Placed(s.records, s.records[x]); }
  }

  // ---------- the audit trail ----------

  function Target(s: Store, ctx: Context, call: Call): Id {
    if call.Create? then Stamped(call.a, ctx.now, ctx.freshId).id else call.id
  }

  function VerbOf(call: Call): Verb {
    match call
    case Create(_) => Created
    case UpdateBody(_, _) => Edited
    case Delete(_) => Deleted
    case Resolve(_) => Resolved
    case Reopen(_) => Reopened
  }

  // Every successful call leaves one record, under the id it acted on.
  lemma OneRecordPerCall(s: Store, ctx: Context, call: Call)
    requires Keyed(s.records) && Apply(s, ctx, call).Ok?
    ensures var t := Apply(s, ctx, call).value; var x := Target(s, ctx, call);
      exists e :: t.audit == s.audit[x := Trail(s.audit, x) + [e]]
        && e.annotationId == x && e.verb == VerbOf(call) && e.actor == ctx.user && e.occurredAt == ctx.now
        && e.tenantId == ctx.tenant
  {
    hide Validate, ParentError;
    var t := Apply(s, ctx, call).value;
    var x := Target(s, ctx, call);
    var a := if call.Create? then t.records[x] else s.records[x];
    var e := Entry(a, VerbOf(call), ctx.user, ctx.now);
    assert t.audit == s.audit[x := Trail(s.audit, x) + [e]];
  }

  // What a trail says became of its annotation.
  datatype Life = Unborn | Alive(resolved: bool) | Gone | Impossible

  function Next(l: Life, v: Verb): Life {
    match (l, v)
    case (Unborn, Created) => Alive(false)
    case (Alive(r), Edited) => l
    case (Alive(r), Deleted) => Gone
    case (Alive(r), Resolved) => if r then Impossible else Alive(true)
    case (Alive(r), Reopened) => if r then Alive(false) else Impossible
    case (_, _) => Impossible
  }

  function Replay(trail: seq<AuditRecord>): Life {
    if trail == [] then Unborn else Next(Replay(trail[..|trail| - 1]), trail[|trail| - 1].verb)
  }

  function Toggles(trail: seq<AuditRecord>): seq<Verb> {
    if trail == [] then []
    else
      var v := trail[|trail| - 1].verb;
      Toggles(trail[..|trail| - 1]) + if v == Resolved || v == Reopened then [v] else []
  }

  // A possible trail resolves and reopens by turns, starting with resolved.
  lemma {:induction false} TogglesAlternate(trail: seq<AuditRecord>)
    requires Replay(trail) != Impossible
    ensures forall k :: 0 <= k < |Toggles(trail)| ==> Toggles(trail)[k] == if k % 2 == 0 then Resolved else Reopened
    ensures Replay(trail).Alive? ==> Replay(trail).resolved == (|Toggles(trail)| % 2 == 1)
    ensures Replay(trail).Unborn? ==> trail == []
  {
    if trail != [] { TogglesAlternate(trail[..|trail| - 1]); }
  }

  // The trail of x is possible, and decides the stored Resolved flag.
  predicate Tracks(s: Store, x: Id) {
    && (x in s.audit ==> s.audit[x] != [] && Replay(s.audit[x]) != Impossible)
    && (x in s.records ==> x in s.audit && Replay(s.audit[x]) == Alive(s.records[x].resolved))
  }

  predicate BornUnresolved(ctx: Context, call: Call, x: Id) {
    call.Create? && Stamped(call.a, ctx.now, ctx.freshId).id == x ==> !call.a.resolved
  }

  lemma ReplayOneMore(trail: seq<AuditRecord>, e: AuditRecord)
    ensures Replay(trail + [e]) == Next(Replay(trail), e.verb)
  {
    assert (trail + [e])[..|trail|] == trail;
  }

  // One call keeps the trail of x true; where it creates x with a fresh id, it
  // does so exactly if x is created unresolved.
  lemma CallTracks(s: Store, ctx: Context, call: Call, x: Id)
    requires Keyed(s.records) && FreshId(s, ctx, call) && Tracks(s, x) && Apply(s, ctx, call).Ok?
    ensures Tracks(Apply(s, ctx, call).value, x) <==> BornUnresolved(ctx, call, x)
  {
    hide Replay, Validate, ParentError;
    var y := Target(s, ctx, call);
    OneRecordPerCall(s, ctx, call);
    var t := Apply(s, ctx, call).value;
    var e :| t.audit == s.audit[y := Trail(s.audit, y) + [e]] && e.verb == VerbOf(call);
    ReplayOneMore(Trail(s.audit, y), e);
    NothingReplaysToUnborn();
  }

  lemma NothingReplaysToUnborn()
    ensures Replay([]) == Unborn
  {
  }

  predicate AllBornUnresolved(calls: seq<(Context, Call)>, x: Id) {
    forall i :: 0 <= i < |calls| ==> BornUnresolved(calls[i].0, calls[i].1, x)
  }

  // Over any run with fresh ids, an annotation created unresolved has a possible
  // trail, and replaying it gives the stored Resolved flag.
  lemma {:induction false} RunTracks(s: Store, calls: seq<(Context, Call)>, x: Id)
    requires ThreadsOk(s.records) && AllLogged(s) && FreshIds(s, calls) && Tracks(s, x) && AllBornUnresolved(calls, x)
    ensures Tracks(Run(s, calls), x)
    decreases |calls|
  {
    hide ThreadsOk, AllLogged, Apply, Tracks, BornUnresolved;
    if calls != [] {
      var (ctx, call) := calls[0];
      assert BornUnresolved(calls[0].0, calls[0].1, x);
      if Apply(s, ctx, call).Ok? {
        CallKeepsThreads(s, ctx, call);
        ThreadsAreKeyed(s.records);
        CallTracks(s, ctx, call, x);
      }
      forall i | 0 <= i < |calls[1..]| ensures BornUnresolved(calls[1..][i].0, calls[1..][i].1, x) {
        assert calls[1..][i] == calls[i + 1];
      }
      RunTracks(Step(s, ctx, call), calls[1..], x);
    }
  }

  lemma ThreadsAreKeyed(m: Records)
    requires ThreadsOk(m)
    ensures Keyed(m)
  {
  }

  // A service started empty, after any run.
  lemma AuditReplays(calls: seq<(Context, Call)>, x: Id)
    requires FreshIds(Store(map[], map[]), calls) && AllBornUnresolved(calls, x)
    ensures var s := Run(Store(map[], map[]), calls);
      var trail := Trail(s.audit, x);
      && (forall k :: 0 <= k < |Toggles(trail)| ==> Toggles(trail)[k] == if k % 2 == 0 then Resolved else Reopened)
      && (x in s.records ==> s.records[x].resolved == (|Toggles(trail)| % 2 == 1))
      && (Replay(trail).Gone? ==> x !in s.records)
  {
    hide Run;
    RunTracks(Store(map[], map[]), calls, x);
    NothingReplaysToUnborn();
    TogglesAlternate(Trail(Run(Store(map[], map[]), calls).audit, x));
  }

  // Of the annotations a Delete removes, only the one it names gets a deleted
  // record: replies taken along leave no trace of their removal.
  lemma RemovalLoggedIff(s: Store, ctx: Context, id: Id, x: Id)
    requires ThreadsOk(s.records) && Apply(s, ctx, Delete(id)).Ok? && x in s.records && Tracks(s, x)
    requires x !in Apply(s, ctx, Delete(id)).value.records
    ensures Replay(Trail(Apply(s, ctx, Delete(id)).value.audit, x)).Gone? <==> x == id
  {
    hide Validate, Replay;
    OneRecordPerCall(s, ctx, Delete(id));
    var t := Apply(s, ctx, Delete(id)).value;
    var e :| t.audit == s.audit[id := Trail(s.audit, id) + [e]] && e.verb == Deleted;
    ReplayOneMore(Trail(s.audit, id), e);
  }

  // ---------- runs on the failing side ----------

  const EMPTY: Store := Store(map[], map[])

  function SampleContext(): Context {
    Context(7, 1, 5, {(1, 1), (1, 2)}, 99)
  }

  function Note(id: Id, caseId: Id, parentId: Option<Id>): Annotation {
    Annotation(id, caseId, 1, 7, "x", "case", "", parentId, false, None, None, 5, 5)
  }

  lemma RunThree(s: Store, ctx: Context, a: Call, b: Call, c: Call)
    ensures Run(s, [(ctx, a), (ctx, b), (ctx, c)]) == Step(Step(Step(s, ctx, a), ctx, b), ctx, c)
  {
    hide Step;
    var calls := [(ctx, a), (ctx, b), (ctx, c)];
    var t := Step(s, ctx, a);
    var u := Step(t, ctx, b);
    assert calls[1..] == [(ctx, b), (ctx, c)] && [(ctx, b), (ctx, c)][1..] == [(ctx, c)] && [(ctx, c)][1..] == [];
    assert Run(t, [(ctx, b), (ctx, c)]) == Run(u, [(ctx, c)]);
    assert Run(u, [(ctx, c)]) == Run(Step(u, ctx, c), []);
  }

  lemma NotesAdmitted(m: Records, id: Id, caseId: Id, parentId: Option<Id>)
    requires id != NIL && caseId in {1, 2} && ParentError(m, 1, Note(id, caseId, parentId)) == None
    ensures Admitted(m, 1, Note(id, caseId, parentId), 5, 99) == Ok(Note(id, caseId, parentId))
  {
    assert TrimSpace("x") == "x" && TrimSpace("") == "";
  }

  function ThreadOfTwo(): Records {
    map[10 := Note(10, 1, None), 11 := Note(11, 1, Some(10))]
  }

  lemma RootAndReply()
    ensures var s := Step(Step(EMPTY, SampleContext(), Create(Note(10, 1, None))), SampleContext(),
                          Create(Note(11, 1, Some(10))));
      && s.records == ThreadOfTwo() && Keyed(s.records)
      && Trail(s.audit, 11) == [Entry(Note(11, 1, Some(10)), Created, 7, 5)]
  {
    hide Validate, Admitted;
    NotesAdmitted(map[], 10, 1, None);
    var s := Step(EMPTY, SampleContext(), Create(Note(10, 1, None)));
    assert s.records == map[10 := Note(10, 1, None)];
    NotesAdmitted(s.records, 11, 1, Some(10));
  }

  // A root, its reply, and a Create that is given the root's ID for another case:
  // all accepted, and the reply hangs under a root of a case it is not in.
  lemma CreateCanOrphanReply()
    ensures var calls := [(SampleContext(), Create(Note(10, 1, None))),
                          (SampleContext(), Create(Note(11, 1, Some(10)))),
                          (SampleContext(), Create(Note(10, 2, None)))];
      var m := Run(EMPTY, calls).records;
      && 11 in m && m[11].parentId == Some(10) && 10 in m && m[10].caseId != m[11].caseId && !ThreadsOk(m)
  {
    hide Validate, Admitted, Step, Run;
    var ctx := SampleContext();
    var a, b, c := Create(Note(10, 1, None)), Create(Note(11, 1, Some(10))), Create(Note(10, 2, None));
    RunThree(EMPTY, ctx, a, b, c);
    RootAndReply();
    var s := Step(Step(EMPTY, ctx, a), ctx, b);
    OverwriteStep(s);
    var m := Step(s, ctx, c).records;
    assert !Placed(m, m[11]);
  }

  lemma OverwriteStep(s: Store)
    requires s.records == ThreadOfTwo()
    ensures Step(s, SampleContext(), Create(Note(10, 2, None))).records ==
            map[10 := Note(10, 2, None), 11 := Note(11, 1, Some(10))]
  {
    hide Validate, Admitted;
    NotesAdmitted(s.records, 10, 2, None);
  }

  function ForeignNote(): Annotation {
    Annotation(10, 1, 2, 8, "x", "case", "", None, false, None, None, 6, 6)
  }

  // A Create of tenant 2 under the ID of tenant 1's annotation: accepted, and
  // that annotation is gone.
  lemma CreateReplacesForeign()
    ensures var first, second := SampleContext(), Context(8, 2, 6, {(2, 1)}, 99);
      var calls := [(first, Create(Note(10, 1, None))), (second, Create(ForeignNote()))];
      && Run(EMPTY, calls[..1]).records == map[10 := Note(10, 1, None)]
      && Run(EMPTY, calls).records == map[10 := ForeignNote()]
  {
    hide Validate, Admitted, Step;
    var first, second := SampleContext(), Context(8, 2, 6, {(2, 1)}, 99);
    var a, b := (first, Create(Note(10, 1, None))), (second, Create(ForeignNote()));
    var t := Step(EMPTY, a.0, a.1);
    assert [a, b][..1] == [a] && [a, b][1..] == [b];
    RunOne(EMPTY, a);
    RunOne(t, b);
    FirstNoteStored();
    ForeignNoteStored(t, second);
  }

  lemma RunOne(s: Store, c: (Context, Call))
    ensures Run(s, [c]) == Step(s, c.0, c.1)
  {
    var calls := [c];
    assert calls[1..] == [];
  }

  lemma FirstNoteStored()
    ensures Step(EMPTY, SampleContext(), Create(Note(10, 1, None))).records == map[10 := Note(10, 1, None)]
  {
    hide Validate, Admitted;
    NotesAdmitted(map[], 10, 1, None);
  }

  lemma ForeignNoteStored(t: Store, ctx: Context)
    requires t.records == map[10 := Note(10, 1, None)] && ctx == Context(8, 2, 6, {(2, 1)}, 99)
    ensures Step(t, ctx, Create(ForeignNote())).records == map[10 := ForeignNote()]
  {
    assert TrimSpace("x") == "x" && TrimSpace("") == "";
  }

  // A root, its reply, and the root's deletion: the reply is gone, and its trail
  // still says that it is there, unresolved.
  lemma CascadeLeavesNoTrace()
    ensures var calls := [(SampleContext(), Create(Note(10, 1, None))),
                          (SampleContext(), Create(Note(11, 1, Some(10)))),
                          (SampleContext(), Delete(10))];
      var s := Run(EMPTY, calls);
      11 !in s.records && Replay(Trail(s.audit, 11)) == Alive(false)
  {
    hide Validate, Admitted, Step, Run;
    var ctx := SampleContext();
    var a, b := Create(Note(10, 1, None)), Create(Note(11, 1, Some(10)));
    RunThree(EMPTY, ctx, a, b, Delete(10));
    RootAndReply();
    CascadeStep(Step(Step(EMPTY, ctx, a), ctx, b));
    ReplayOneMore([], Entry(Note(11, 1, Some(10)), Created, 7, 5));
    assert [] + [Entry(Note(11, 1, Some(10)), Created, 7, 5)] == [Entry(Note(11, 1, Some(10)), Created, 7, 5)];
  }

  lemma CascadeStep(s: Store)
    requires s.records == ThreadOfTwo()
    ensures var t := Step(s, SampleContext(), Delete(10));
      t.records == map[] && Trail(t.audit, 11) == Trail(s.audit, 11)
  {
    hide Validate;
  }
}
