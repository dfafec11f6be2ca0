// packages/auditlog: store.go, inmemory_repository.go, retention.go. Appending,
// listing, querying and purging the events of many tenants, and what these do
// to the verdict of VerifyTenantChain over whole runs.
module AuditStore {
  import opened Basics
  import opened Text
  import opened Sorting
  import opened AuditChain

  datatype Error = EmptyTenantId | EmptyAction | EmptyActor | InvalidKind | InvalidRetention | CrossTenantAccess

  // Events per tenant, in the order they were inserted.
  type Log = map<Uuid, seq<Event>>

  const DEFAULT_QUERY_LIMIT: nat := 1000

  function Rows(log: Log, tenant: Uuid): seq<Event> {
    if tenant in log then log[tenant] else []
  }

  // ---------- the order ListAll and Query present ----------

  predicate ChainBefore(e: Event, f: Event) {
    e.time < f.time || (e.time == f.time && StrLess(e.id, f.id))
  }

  lemma ChainBeforeIsOrder()
    ensures StrictWeakOrder(ChainBefore)
  {
    forall x: Event ensures !ChainBefore(x, x) {
      StrLessTotal(x.id, x.id);
    }
    forall x: Event, y: Event, z: Event | ChainBefore(x, y) && ChainBefore(y, z) ensures ChainBefore(x, z) {
      if x.time == y.time == z.time { StrLessTransitive(x.id, y.id, z.id); }
    }
    forall x: Event, y: Event, z: Event | !ChainBefore(x, y) && !ChainBefore(y, z) ensures !ChainBefore(x, z) {
      if x.time == y.time == z.time { StrLessNegTransitive(x.id, y.id, z.id); }
    }
  }

  function ListAll(rows: seq<Event>): seq<Event> {
    StableSort(rows, ChainBefore)
  }

  // ---------- Filter, Query ----------

  datatype EventFilter = EventFilter(
    actor: string, caseId: Uuid, kinds: seq<string>, action: string, since: Time, until: Time, limit: int)

  predicate MatchesFilter(f: EventFilter, e: Event) {
    && (f.actor == "" || e.actor == f.actor)
    && (f.caseId == NIL_UUID || e.caseId == f.caseId)
    && (f.action == "" || e.action == f.action)
    && (f.kinds == [] || e.kind in f.kinds)
    && (f.since == ZERO_TIME || e.time >= f.since)
    && (f.until == ZERO_TIME || e.time <= f.until)
  }

  function Limit(f: EventFilter): nat {
    if f.limit <= 0 then DEFAULT_QUERY_LIMIT else f.limit
  }

  function QueryResult(rows: seq<Event>, f: EventFilter): seq<Event> {
    Take(ListAll(Filter(rows, e => MatchesFilter(f, e))), Limit(f))
  }

  // ---------- Append ----------

  const KINDS: set<string> := {"data_access", "reasoning", "signoff", "data_change", "admin", "export", "system"}

  function Stamped(e: Event, now: Time, freshId: Uuid): Event {
    e.(id := if e.id == NIL_UUID then freshId else e.id,
       time := if e.time == ZERO_TIME then now else e.time,
       kind := if e.kind == "" then "system" else e.kind)
  }

  function ValidationError(e: Event): Option<Error> {
    if e.tenant == NIL_UUID then Some(EmptyTenantId)
    else if TrimSpace(e.action) == "" then Some(EmptyAction)
    else if TrimSpace(e.actor) == "" then Some(EmptyActor)
    else if e.kind !in KINDS then Some(InvalidKind)
    else None
  }

  function TailHash(rows: seq<Event>): string {
    if rows == [] then "" else rows[|rows| - 1].chainHash
  }

  function AppendOutcome(codec: Codec, log: Log, e: Event, now: Time, freshId: Uuid): Result<Event, Error> {
    var s := Stamped(e, now, freshId);
    match ValidationError(s)
    case Some(err) => Err(err)
    case None => Ok(Restamp(codec, TailHash(Rows(log, e.tenant)), s))
  }

  function AfterAppend(codec: Codec, log: Log, e: Event, now: Time, freshId: Uuid): Log {
    match AppendOutcome(codec, log, e, now, freshId)
    case Err(_) => log
    case Ok(f) => log[f.tenant := Rows(log, f.tenant) + [f]]
  }

  // ---------- Purge ----------

  function Survivors(rows: seq<Event>, cutoff: Time): (kept: seq<Event>)
    ensures |kept| <= |rows|
  {
    Filter(rows, (e: Event) => e.time >= cutoff)
  }

  function PurgeEvent(codec: Codec, tenant: Uuid, actor: Uuid, removed: nat, cutoff: Time): Event {
    Event(NIL_UUID, tenant, ZERO_TIME, actor, "audit.purged", tenant, "success", "system", NIL_UUID,
          "purged " + Itoa(removed) + " events before " + codec.cutoffText(cutoff), "", "")
  }

  function AfterPurge(codec: Codec, log: Log, tenant: Uuid, actor: Uuid, window: int, now: Time, later: Time,
                      freshId: Uuid): Log {
    if tenant == NIL_UUID || window <= 0 then log
    else
      var kept := Survivors(Rows(log, tenant), now - window);
      var removed := |Rows(log, tenant)| - |kept|;
      var cut := log[tenant := kept];
      if removed == 0 then cut
      else AfterAppend(codec, cut, PurgeEvent(codec, tenant, actor, removed, now - window), later, freshId)
  }

  // ---------- the in-memory repository ----------

  class InMemoryRepository {
    var events: Log

    constructor ()
      ensures events == map[]
    {
      events := map[];
    }

    method Append(tenant: Uuid, event: Event) returns (r: Result<Event, Error>)
      modifies this
      ensures r == if event.tenant == NIL_UUID then Ok(event.(tenant := tenant))
                   else if event.tenant != tenant then Err(CrossTenantAccess) else Ok(event)
      ensures events == if r.Ok? then old(events)[tenant := Rows(old(events), tenant) + [r.value]] else old(events)
    {
      var e := event;
      if e.tenant == NIL_UUID { e := e.(tenant := tenant); }
      if e.tenant != tenant { return Err(CrossTenantAccess); }
      events := events[tenant := Rows(events, tenant) + [e]];
      r := Ok(e);
    }

    method Last(tenant: Uuid) returns (e: Option<Event>)
      ensures e == if Rows(events, tenant) == [] then None
                   else Some(Rows(events, tenant)[|Rows(events, tenant)| - 1])
    {
      var list := Rows(events, tenant);
      e := if |list| == 0 then None else Some(list[|list| - 1]);
    }

    method Query(tenant: Uuid, f: EventFilter) returns (out: seq<Event>)
      ensures out == QueryResult(Rows(events, tenant), f)
    {
      var limit := if f.limit <= 0 then DEFAULT_QUERY_LIMIT else f.limit;
      var list := Rows(events, tenant);
      out := [];
      for i := 0 to |list|
        invariant out == Filter(list[..i], e => MatchesFilter(f, e))
      {
        assert list[..i + 1] == list[..i] + [list[i]];
        if MatchesFilter(f, list[i]) { out := out + [list[i]]; }
      }
      assert list[..|list|] == list;
      out := ListAll(out);
      if |out| > limit { out := out[..limit]; }
    }

    method PurgeBefore(tenant: Uuid, cutoff: Time) returns (removed: nat)
      modifies this
      ensures events == old(events)[tenant := Survivors(Rows(old(events), tenant), cutoff)]
      ensures removed == |Rows(old(events), tenant)| - |Survivors(Rows(old(events), tenant), cutoff)|
    {
      var list := Rows(events, tenant);
      var kept := [];
      removed := 0;
      for i := 0 to |list|
        invariant kept == Survivors(list[..i], cutoff) && removed == i - |kept|
      {
        assert list[..i + 1] == list[..i] + [list[i]];
        if list[i].time < cutoff { removed := removed + 1; } else { kept := kept + [list[i]]; }
      }
      assert list[..|list|] == list;
      events := events[tenant := kept];
    }
  }

  // ---------- the store ----------

  class Store {
    const codec: Codec
    const repo: InMemoryRepository

    constructor (codec: Codec, repo: InMemoryRepository)
      ensures this.codec == codec && this.repo == repo
    {
      this.codec, this.repo := codec, repo;
    }

    method Append(event: Event, now: Time, freshId: Uuid) returns (r: Result<Event, Error>)
      modifies repo
      ensures r == AppendOutcome(codec, old(repo.events), event, now, freshId)
      ensures repo.events == AfterAppend(codec, old(repo.events), event, now, freshId)
    {
      if event.tenant == NIL_UUID { return Err(EmptyTenantId); }
      var e := Stamped(event, now, freshId);
      var invalid := ValidationError(e);
      if invalid.Some? { return Err(invalid.value); }
      var last := repo.Last(e.tenant);
      var prevHash := if last.Some? then last.value.chainHash else "";
      e := Restamp(codec, prevHash, e);
      r := repo.Append(e.tenant, e);
    }

    method VerifyTenantChain(tenant: Uuid) returns (v: Verdict)
      ensures ReportsFirstBreak(codec, ListAll(Rows(repo.events, tenant)), v)
      ensures v.Intact? <==> Linked(codec, ListAll(Rows(repo.events, tenant)))
    {
      v := VerifyChain(codec, ListAll(Rows(repo.events, tenant)));
    }

    method Purge(tenant: Uuid, actor: Uuid, window: int, now: Time, later: Time, freshId: Uuid)
      returns (r: Result<nat, Error>)
      modifies repo
      ensures repo.events == AfterPurge(codec, old(repo.events), tenant, actor, window, now, later, freshId)
      ensures tenant == NIL_UUID ==> r == Err(EmptyTenantId)
      ensures tenant != NIL_UUID && window <= 0 ==> r == Err(InvalidRetention)
      ensures tenant != NIL_UUID && window > 0 ==>
        var rows := Rows(old(repo.events), tenant);
        r == Ok(|rows| - |Survivors(rows, now - window)|)
    {
      hide Survivors, PurgeEvent, AfterAppend, AppendOutcome;
      if tenant == NIL_UUID { return Err(EmptyTenantId); }
      if window <= 0 { return Err(InvalidRetention); }
      var cutoff := now - window;
      var removed := repo.PurgeBefore(tenant, cutoff);
      if removed > 0 {
        var event := PurgeEvent(codec, tenant, actor, removed, cutoff);
        var appended := Append(event, later, freshId);
      }
      r := Ok(removed);
    }
  }

  // The record a purge leaves behind passes Append's checks, and no other event
  // has its digest.
  lemma PurgeEventAccepted(codec: Codec, tenant: Uuid, actor: Uuid, removed: nat, cutoff: Time, later: Time,
                           freshId: Uuid)
    requires tenant != NIL_UUID
    ensures var s := Stamped(PurgeEvent(codec, tenant, actor, removed, cutoff), later, freshId);
      ValidationError(s) == None && s.time == later && s.id == freshId
  {
    assert TrimSpace("audit.purged") == "audit.purged";
    var a := actor;
    assert IsHexChar(a[0]) && IsHexChar(a[35]);
    assert TrimLeft(a) == a && TrimRight(a) == a;
  }

  lemma {:induction false} PurgeEventUnambiguous(codec: Codec, tenant: Uuid, actor: Uuid, removed: nat, cutoff: Time)
    requires codec.WellFormed()
    ensures Unambiguous(PurgeEvent(codec, tenant, actor, removed, cutoff))
  {
    var e := PurgeEvent(codec, tenant, actor, removed, cutoff);
    UuidPipeFree(actor);
    UuidPipeFree(tenant);
    ItoaPipeFree(removed);
    assert PipeFree("purged ") && PipeFree(" events before ");
    SplitPipeFree(e.detail);
  }

  // ---------- one tenant's rows ----------

  predicate InOrderAfter(rows: seq<Event>, e: Event) {
    rows == [] || !ChainBefore(e, rows[|rows| - 1])
  }

  predicate Verifiable(codec: Codec, rows: seq<Event>) {
    Linked(codec, rows) && Sorted(rows, ChainBefore)
  }

  lemma AppendedLinked(codec: Codec, rows: seq<Event>, e: Event)
    requires Linked(codec, rows)
    ensures Linked(codec, rows + [Restamp(codec, TailHash(rows), e)])
  {
    hide Preimage, ContentDigest;
    var f := Restamp(codec, TailHash(rows), e);
    var out := rows + [f];
    RestampHashes(codec, TailHash(rows), e);
    forall i | 0 <= i < |out| ensures LinkOk(codec, out, i) {
      if i < |rows| { assert LinkOk(codec, rows, i); }
    }
  }

  lemma AppendedSorted(rows: seq<Event>, e: Event)
    requires Sorted(rows, ChainBefore) && InOrderAfter(rows, e)
    ensures Sorted(rows + [e], ChainBefore)
  {
    ChainBeforeIsOrder();
    var out, n := rows + [e], |rows|;
    forall i, j | 0 <= i < j < |out| ensures !ChainBefore(out[j], out[i]) {
      if j == n && i < n - 1 { assert !ChainBefore(rows[n - 1], rows[i]); }
    }
  }

  // In whatever order rows were inserted, what verification looks at loses
  // exactly a prefix by a purge, all of it before the cutoff.
  lemma PurgeRemovesPrefix(codec: Codec, rows: seq<Event>, cutoff: Time) returns (k: nat)
    ensures k <= |ListAll(rows)| && ListAll(Survivors(rows, cutoff)) == ListAll(rows)[k..]
    ensures forall i :: 0 <= i < k ==> ListAll(rows)[i].time < cutoff
    ensures forall i :: k <= i < |rows| ==> ListAll(rows)[i].time >= cutoff
    ensures Linked(codec, ListAll(rows)) ==> Linked(codec, ListAll(Survivors(rows, cutoff)))
    ensures Verifiable(codec, rows) ==> Verifiable(codec, Survivors(rows, cutoff))
  {
    hide Preimage, ContentDigest, ChainBefore, StableSort;
    var recent := (e: Event) => e.time >= cutoff;
    var all := ListAll(rows);
    ChainBeforeIsOrder();
    SortSorts(rows, ChainBefore);
    SortFilters(rows, ChainBefore, recent);
    TimesAscend(all);
    k := FilterIsSuffix(all, recent);
    if Linked(codec, all) { LinkedSuffix(codec, all, k); }
    if Verifiable(codec, rows) {
      SortFixesSorted(rows, ChainBefore);
      SuffixVerifiable(codec, rows, k);
    }
  }

  lemma SuffixVerifiable(codec: Codec, rows: seq<Event>, k: nat)
    requires Verifiable(codec, rows) && k <= |rows|
    ensures Verifiable(codec, rows[k..])
  {
    hide LinkOk, ChainBefore;
    LinkedSuffix(codec, rows, k);
    assert Sorted(rows[k..], ChainBefore);
  }

  // ---------- when ListAll verifies ----------

  // ListAll re-sorts rows that were linked in insertion order. With no hash
  // repeated it verifies exactly when insertion followed (Time, ID).
  lemma ListAllVerifiesIff(codec: Codec, rows: seq<Event>)
    requires Linked(codec, rows) && FreshHashes(rows)
    ensures Linked(codec, ListAll(rows)) <==> Sorted(rows, ChainBefore)
  {
    hide Preimage, ContentDigest, ChainBefore, FreshHashes, StableSort;
    if Sorted(rows, ChainBefore) {
      SortFixesSorted(rows, ChainBefore);
    }
    var out := ListAll(rows);
    if Linked(codec, out) {
      SortPermutes(rows, ChainBefore);
      var idx := Positions(out, rows);
      assert out == Select(rows, idx);
      SelectionVerifiesIff(codec, rows, idx);
      ConsecutiveCovers(idx, |rows|);
      assert out == rows;
      ChainBeforeIsOrder();
      SortSorts(rows, ChainBefore);
    }
  }

  ghost function Positions(out: seq<Event>, rows: seq<Event>): (idx: seq<nat>)
    requires multiset(out) == multiset(rows)
    ensures |idx| == |out|
    ensures forall k :: 0 <= k < |idx| ==> idx[k] < |rows| && rows[idx[k]] == out[k]
  {
    seq(|out|, k requires 0 <= k < |out| =>
      assert out[k] in multiset(out);
      assert out[k] in rows;
      var i: nat :| i < |rows| && rows[i] == out[k]; i)
  }

  lemma ConsecutiveCovers(idx: seq<nat>, n: nat)
    requires Consecutive(idx) && |idx| == n && forall k :: 0 <= k < n ==> idx[k] < n
    ensures forall k :: 0 <= k < n ==> idx[k] == k
  {
    var k := 0;
    while k + 1 < n
      invariant 0 <= k <= n && (n > 0 ==> k < n)
      invariant forall i :: 0 <= i <= k && i < n ==> idx[i] == idx[0] + i
    {
      assert idx[k + 1] == idx[k] + 1;
      k := k + 1;
    }
    if n > 0 { assert idx[n - 1] < n; }
  }

  // So an Append is noticed as tampering, though nothing was tampered with,
  // exactly when its (Time, ID) lies before the row it was linked to.
  lemma AppendVerifiesIff(codec: Codec, rows: seq<Event>, e: Event)
    requires Verifiable(codec, rows)
    requires FreshHashes(rows + [Restamp(codec, TailHash(rows), e)])
    ensures Linked(codec, ListAll(rows + [Restamp(codec, TailHash(rows), e)])) <==> InOrderAfter(rows, e)
  {
    hide Preimage, ContentDigest, FreshHashes, StableSort;
    var f := Restamp(codec, TailHash(rows), e);
    var out := rows + [f];
    AppendedLinked(codec, rows, e);
    ListAllVerifiesIff(codec, out);
    if InOrderAfter(rows, e) {
      AppendedSorted(rows, f);
    } else {
      assert ChainBefore(out[|rows|], out[|rows| - 1]);
    }
  }

  // ---------- Query ----------

  // Filtering and limiting rows that are in order selects increasing positions;
  // the answer verifies on its own exactly when they are contiguous.
  lemma QueryVerifiesIff(codec: Codec, rows: seq<Event>, f: EventFilter) returns (idx: seq<nat>)
    requires Verifiable(codec, rows) && FreshHashes(rows)
    ensures forall k :: 0 <= k < |idx| ==> idx[k] < |rows|
    ensures QueryResult(rows, f) == Select(rows, idx)
    ensures Increasing(idx)
    ensures Linked(codec, QueryResult(rows, f)) <==> Consecutive(idx)
  {
    hide Preimage, ContentDigest, ChainBefore, FreshHashes, Linked;
    idx := HitPositions(rows, f);
    idx := Take(idx, Limit(f));
    assert QueryResult(rows, f) == Select(rows, idx);
    SelectionVerifiesIff(codec, rows, idx);
  }

  lemma HitPositions(rows: seq<Event>, f: EventFilter) returns (idx: seq<nat>)
    requires Sorted(rows, ChainBefore)
    ensures forall k :: 0 <= k < |idx| ==> idx[k] < |rows|
    ensures Increasing(idx)
    ensures forall i :: 0 <= i < |rows| ==> (MatchesFilter(f, rows[i]) <==> i in idx)
    ensures ListAll(Filter(rows, e => MatchesFilter(f, e))) == Select(rows, idx)
  {
    hide ChainBefore, MatchesFilter;
    var p := (e: Event) => MatchesFilter(f, e);
    var hits := Filter(rows, p);
    idx := FilterPositions(rows, p);
    PositionsIncrease(rows, p);
    PositionsYieldFilter(rows, p);
    forall i | 0 <= i < |rows| ensures MatchesFilter(f, rows[i]) <==> i in idx {
      PositionsOfHits(rows, p, i);
    }
    assert Sorted(hits, ChainBefore);
    SortFixesSorted(hits, ChainBefore);
    assert hits == Select(rows, idx);
  }

  // A query by time window and limit alone answers with a segment of the chain,
  // which verifies as it stands.
  lemma WindowQueryIsSegment(codec: Codec, rows: seq<Event>, f: EventFilter) returns (lo: nat, hi: nat)
    requires Verifiable(codec, rows)
    requires f.actor == "" && f.caseId == NIL_UUID && f.action == "" && f.kinds == []
    ensures lo <= hi <= |rows| && QueryResult(rows, f) == rows[lo..hi]
    ensures Linked(codec, QueryResult(rows, f))
    ensures forall i :: 0 <= i < |rows| && MatchesFilter(f, rows[i]) ==> lo <= i && (i < hi || hi - lo == Limit(f))
  {
    hide Preimage, ContentDigest, ChainBefore, LinkOk, StableSort, Filter;
    var idx := HitPositions(rows, f);
    TimesAscend(rows);
    WindowHitsConsecutive(rows, f, idx);
    ConsecutiveFrom(idx);
    var n := if |idx| > Limit(f) then Limit(f) else |idx|;
    lo := if idx == [] then 0 else idx[0];
    hi := lo + n;
    if idx != [] { assert idx[|idx| - 1] == idx[0] + (|idx| - 1); }
    assert Select(rows, idx)[..n] == rows[lo..hi];
    SegmentLinked(codec, rows, lo, hi);
    forall i | 0 <= i < |rows| && MatchesFilter(f, rows[i]) ensures lo <= i && (i < hi || n == Limit(f)) {
      var k :| 0 <= k < |idx| && idx[k] == i;
    }
  }

  lemma WindowHitsConsecutive(rows: seq<Event>, f: EventFilter, idx: seq<nat>)
    requires forall i, j :: 0 <= i <= j < |rows| ==> rows[i].time <= rows[j].time
    requires f.actor == "" && f.caseId == NIL_UUID && f.action == "" && f.kinds == []
    requires forall k :: 0 <= k < |idx| ==> idx[k] < |rows|
    requires Increasing(idx)
    requires forall i :: 0 <= i < |rows| ==> (MatchesFilter(f, rows[i]) <==> i in idx)
    ensures Consecutive(idx)
  {
    forall k | 0 <= k < |idx| - 1 ensures idx[k + 1] == idx[k] + 1 {
      var i := idx[k] + 1;
      assert idx[k] in idx && idx[k + 1] in idx;
      assert rows[idx[k]].time <= rows[i].time <= rows[idx[k + 1]].time;
      assert i in idx;
      var j :| 0 <= j < |idx| && idx[j] == i;
    }
  }

  lemma TimesAscend(rows: seq<Event>)
    requires Sorted(rows, ChainBefore)
    ensures forall i, j :: 0 <= i <= j < |rows| ==> rows[i].time <= rows[j].time
  {
    forall i, j | 0 <= i <= j < |rows| ensures rows[i].time <= rows[j].time {
      if i < j { assert !ChainBefore(rows[j], rows[i]); }
    }
  }

  lemma ConsecutiveFrom(idx: seq<nat>)
    requires Consecutive(idx)
    ensures forall k :: 0 <= k < |idx| ==> idx[k] == idx[0] + k
  {
    var k := 0;
    while k + 1 < |idx|
      invariant 0 <= k <= |idx|
      invariant forall i :: 0 <= i <= k && i < |idx| ==> idx[i] == idx[0] + i
    {
      assert idx[k + 1] == idx[k] + 1;
      k := k + 1;
    }
  }

  // ---------- whole runs over many tenants ----------

  datatype Op =
    | AppendOp(event: Event, now: Time, freshId: Uuid)
    | PurgeOp(tenant: Uuid, actor: Uuid, window: int, now: Time, later: Time, freshId: Uuid)

  function After(codec: Codec, log: Log, op: Op): Log {
    match op
    case AppendOp(e, now, freshId) => AfterAppend(codec, log, e, now, freshId)
    case PurgeOp(t, actor, window, now, later, freshId) => AfterPurge(codec, log, t, actor, window, now, later, freshId)
  }

  function AfterAll(codec: Codec, log: Log, ops: seq<Op>): Log {
    if ops == [] then log else After(codec, AfterAll(codec, log, ops[..|ops| - 1]), ops[|ops| - 1])
  }

  // A step that adds a row adds it at or after the tenant's last one by
  // (Time, ID); a refused append and a purge that removes nothing add none.
  predicate OpInOrder(log: Log, op: Op) {
    match op
    case AppendOp(e, now, freshId) =>
      ValidationError(Stamped(e, now, freshId)) == None ==> InOrderAfter(Rows(log, e.tenant), Stamped(e, now, freshId))
    case PurgeOp(t, actor, window, now, later, freshId) =>
      var rows := Rows(log, t);
      var kept := Survivors(rows, now - window);
      t != NIL_UUID && window > 0 && |kept| < |rows| ==>
        kept == [] || later > kept[|kept| - 1].time
        || (later == kept[|kept| - 1].time && !StrLess(freshId, kept[|kept| - 1].id))
  }

  predicate RunInOrder(codec: Codec, log: Log, ops: seq<Op>) {
    forall i :: 0 <= i < |ops| ==> OpInOrder(AfterAll(codec, log, ops[..i]), ops[i])
  }

  ghost predicate AllVerifiable(codec: Codec, log: Log) {
    forall t: Uuid :: Verifiable(codec, Rows(log, t))
  }

  lemma AppendKeepsVerifiable(codec: Codec, log: Log, e: Event, now: Time, freshId: Uuid)
    requires AllVerifiable(codec, log)
    requires ValidationError(Stamped(e, now, freshId)) == None ==>
      InOrderAfter(Rows(log, e.tenant), Stamped(e, now, freshId))
    ensures AllVerifiable(codec, AfterAppend(codec, log, e, now, freshId))
  {
    hide Preimage, ContentDigest, Verifiable, ValidationError;
    var s := Stamped(e, now, freshId);
    assert Verifiable(codec, Rows(log, e.tenant));
    if ValidationError(s) == None { AppendedVerifiable(codec, Rows(log, e.tenant), s); }
    var log' := AfterAppend(codec, log, e, now, freshId);
    forall t: Uuid ensures Verifiable(codec, Rows(log', t)) {
      assert Verifiable(codec, Rows(log, t));
    }
  }

  lemma AppendedVerifiable(codec: Codec, rows: seq<Event>, e: Event)
    requires Verifiable(codec, rows) && InOrderAfter(rows, e)
    ensures Verifiable(codec, rows + [Restamp(codec, TailHash(rows), e)])
  {
    hide Preimage, ContentDigest;
    AppendedLinked(codec, rows, e);
    AppendedSorted(rows, Restamp(codec, TailHash(rows), e));
  }

  lemma PurgeKeepsVerifiable(codec: Codec, log: Log, op: Op)
    requires AllVerifiable(codec, log) && op.PurgeOp? && OpInOrder(log, op)
    ensures AllVerifiable(codec, After(codec, log, op))
  {
    hide Preimage, ContentDigest, Verifiable, Survivors, PurgeEvent, AfterAppend, ChainBefore, Stamped;
    var t, cutoff := op.tenant, op.now - op.window;
    if t == NIL_UUID || op.window <= 0 {
      assert After(codec, log, op) == log;
    } else {
      var rows := Rows(log, t);
      var kept := Survivors(rows, cutoff);
      PurgedVerifiable(codec, rows, cutoff);
      var cut := log[t := kept];
      forall u: Uuid ensures Verifiable(codec, Rows(cut, u)) { assert Verifiable(codec, Rows(log, u)); }
      var removed := |rows| - |kept|;
      if removed == 0 {
        assert After(codec, log, op) == cut;
      } else {
        PurgeEventInOrder(codec, log, op, removed);
        AppendKeepsVerifiable(codec, cut, PurgeEvent(codec, t, op.actor, removed, cutoff), op.later, op.freshId);
      }
    }
  }

  lemma PurgeEventInOrder(codec: Codec, log: Log, op: Op, removed: nat)
    requires op.PurgeOp? && OpInOrder(log, op) && op.tenant != NIL_UUID && op.window > 0
    requires |Survivors(Rows(log, op.tenant), op.now - op.window)| < |Rows(log, op.tenant)|
    ensures var cutoff := op.now - op.window;
      var e := PurgeEvent(codec, op.tenant, op.actor, removed, cutoff);
      e.tenant == op.tenant && InOrderAfter(Survivors(Rows(log, op.tenant), cutoff), Stamped(e, op.later, op.freshId))
  {
    hide Survivors, StrLess;
    PurgeEventAccepted(codec, op.tenant, op.actor, removed, op.now - op.window, op.later, op.freshId);
  }

  lemma PurgedVerifiable(codec: Codec, rows: seq<Event>, cutoff: Time)
    requires Verifiable(codec, rows)
    ensures Verifiable(codec, Survivors(rows, cutoff))
  {
    var k := PurgeRemovesPrefix(codec, rows, cutoff);
  }

  // Every run of appends and purges whose steps are in (Time, ID) order leaves
  // every tenant's chain accepted by VerifyTenantChain.
  lemma {:induction false} RunVerifies(codec: Codec, ops: seq<Op>)
    requires RunInOrder(codec, map[], ops)
    ensures AllVerifiable(codec, AfterAll(codec, map[], ops))
    ensures forall t: Uuid ::
      var rows := Rows(AfterAll(codec, map[], ops), t);
      ListAll(rows) == rows && Linked(codec, ListAll(rows))
  {
    hide Preimage, ContentDigest, StableSort;
    RunAllVerifiable(codec, ops);
    forall t: Uuid
      ensures var rows := Rows(AfterAll(codec, map[], ops), t);
        ListAll(rows) == rows && Linked(codec, ListAll(rows))
    {
      var rows := Rows(AfterAll(codec, map[], ops), t);
      assert Verifiable(codec, rows);
      SortFixesSorted(rows, ChainBefore);
    }
  }

  lemma StepKeepsVerifiable(codec: Codec, log: Log, op: Op)
    requires AllVerifiable(codec, log) && OpInOrder(log, op)
    ensures AllVerifiable(codec, After(codec, log, op))
  {
    hide Preimage, ContentDigest, AllVerifiable;
    if op.AppendOp? {
      AppendKeepsVerifiable(codec, log, op.event, op.now, op.freshId);
    } else {
      PurgeKeepsVerifiable(codec, log, op);
    }
  }

  lemma {:induction false} RunAllVerifiable(codec: Codec, ops: seq<Op>)
    requires RunInOrder(codec, map[], ops)
    ensures AllVerifiable(codec, AfterAll(codec, map[], ops))
  {
    if ops == [] {
    } else {
      hide After, OpInOrder, AllVerifiable;
      var n := |ops| - 1;
      var before := ops[..n];
      forall i | 0 <= i < n ensures OpInOrder(AfterAll(codec, map[], before[..i]), before[i]) {
        assert before[..i] == ops[..i] && OpInOrder(AfterAll(codec, map[], ops[..i]), ops[i]);
      }
      RunAllVerifiable(codec, before);
      assert OpInOrder(AfterAll(codec, map[], ops[..n]), ops[n]);
      StepKeepsVerifiable(codec, AfterAll(codec, map[], before), ops[n]);
    }
  }

  // Without any assumption on times: after a run of appends alone, rows are
  // linked in insertion order, so a tenant's chain is accepted exactly when its
  // events were inserted in (Time, ID) order.
  lemma {:induction false} AppendOnlyRunVerifiesIff(codec: Codec, ops: seq<Op>, t: Uuid)
    requires forall i :: 0 <= i < |ops| ==> ops[i].AppendOp?
    requires FreshHashes(Rows(AfterAll(codec, map[], ops), t))
    ensures var rows := Rows(AfterAll(codec, map[], ops), t);
      Linked(codec, ListAll(rows)) <==> Sorted(rows, ChainBefore)
  {
    AppendOnlyRunLinked(codec, ops, t);
    ListAllVerifiesIff(codec, Rows(AfterAll(codec, map[], ops), t));
  }

  lemma {:induction false} AppendOnlyRunLinked(codec: Codec, ops: seq<Op>, t: Uuid)
    requires forall i :: 0 <= i < |ops| ==> ops[i].AppendOp?
    ensures Linked(codec, Rows(AfterAll(codec, map[], ops), t))
  {
    hide Preimage, ContentDigest, LinkOk;
    if ops != [] {
      var n := |ops| - 1;
      AppendOnlyRunLinked(codec, ops[..n], t);
      var op, rows := ops[n], Rows(AfterAll(codec, map[], ops[..n]), t);
      AppendedLinked(codec, rows, Stamped(op.event, op.now, op.freshId));
    }
  }
}
