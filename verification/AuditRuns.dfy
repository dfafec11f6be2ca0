// packages/auditlog: what VerifyTenantChain says after any run of appends and
// purges, in whatever order events carry their times.
module AuditRuns {
  import opened Basics
  import opened Text
  import opened Sorting
  import opened AuditChain
  import opened AuditStore

  // ---------- one tenant's rows, with what they were linked to ----------

  // Every row ever stored, in the order of insertion; for each the row it was
  // linked to; and which of them are still there.
  datatype Trace = Trace(history: seq<Event>, after: seq<Option<nat>>, present: seq<nat>)

  predicate Indexed(tr: Trace) {
    && |tr.after| == |tr.history|
    && (forall k :: 0 <= k < |tr.present| ==> tr.present[k] < |tr.history|)
  }

  function Remaining(tr: Trace): (rows: seq<Event>)
    requires Indexed(tr)
  {
    Select(tr.history, tr.present)
  }

  function Extended(codec: Codec, tr: Trace, e: Event): (r: Trace)
    requires Indexed(tr)
    ensures Indexed(r)
  {
    var n := |tr.present|;
    Trace(tr.history + [Restamp(codec, TailHash(Remaining(tr)), e)],
          tr.after + [if n == 0 then None else Some(tr.present[n - 1])],
          tr.present + [|tr.history|])
  }

  function Survived(tr: Trace, cutoff: Time): (idx: seq<nat>)
    requires Indexed(tr)
    ensures |idx| <= |tr.present| && forall k :: 0 <= k < |idx| ==> idx[k] < |tr.present|
  {
    PositionsYieldFilter(Remaining(tr), (e: Event) => e.time >= cutoff);
    FilterPositions(Remaining(tr), (e: Event) => e.time >= cutoff)
  }

  // The rows from before the cutoff go.
  function Cut(tr: Trace, cutoff: Time): (r: Trace)
    requires Indexed(tr)
    ensures Indexed(r)
  {
    var idx := Survived(tr, cutoff);
    tr.(present := seq(|idx|, k requires 0 <= k < |idx| => tr.present[idx[k]]))
  }

  function Traced(codec: Codec, tr: Trace, op: Op, tenant: Uuid): (r: Trace)
    requires Indexed(tr)
    ensures Indexed(r)
  {
    match op
    case AppendOp(e, now, freshId) =>
      var s := Stamped(e, now, freshId);
      if e.tenant == tenant && ValidationError(s) == None then Extended(codec, tr, s) else tr
    case PurgeOp(t, actor, window, now, later, freshId) =>
      if t != tenant || t == NIL_UUID || window <= 0 then tr
      else
        var cut := Cut(tr, now - window);
        if |cut.present| == |tr.present| then cut
        else
          var removed: nat := |tr.present| - |cut.present|;
          Extended(codec, cut, Stamped(PurgeEvent(codec, t, actor, removed, now - window), later, freshId))
  }

  function TraceOf(codec: Codec, ops: seq<Op>, tenant: Uuid): (tr: Trace)
    ensures Indexed(tr)
  {
    if ops == [] then Trace([], [], [])
    else Traced(codec, TraceOf(codec, ops[..|ops| - 1], tenant), ops[|ops| - 1], tenant)
  }

  // ---------- what holds of every trace ----------

  predicate LinkedAsTold(codec: Codec, tr: Trace, i: nat)
    requires Indexed(tr) && i < |tr.history|
  {
    && (tr.after[i].Some? ==> tr.after[i].value < i)
    && tr.history[i].prevHash == (if tr.after[i].None? then "" else tr.history[tr.after[i].value].chainHash)
    && tr.history[i].chainHash == ChainHash(codec, tr.history[i].prevHash, tr.history[i])
  }

  // Present rows keep the order of insertion, and each but the first was linked
  // to the one before it or to a later one that has gone.
  predicate Ordered(tr: Trace)
    requires Indexed(tr)
  {
    && Increasing(tr.present)
    && forall k :: 0 < k < |tr.present| ==>
         tr.after[tr.present[k]].Some? && tr.present[k - 1] <= tr.after[tr.present[k]].value
  }

  predicate Faithful(codec: Codec, tr: Trace) {
    && Indexed(tr) && Ordered(tr)
    && forall i :: 0 <= i < |tr.history| ==> LinkedAsTold(codec, tr, i)
  }

  lemma ExtendedFaithful(codec: Codec, tr: Trace, e: Event)
    requires Faithful(codec, tr)
    ensures Faithful(codec, Extended(codec, tr, e))
    ensures Remaining(Extended(codec, tr, e)) == Remaining(tr) + [Restamp(codec, TailHash(Remaining(tr)), e)]
  {
    hide Preimage, ContentDigest, ChainHash;
    var r := Extended(codec, tr, e);
    RestampHashes(codec, TailHash(Remaining(tr)), e);
    forall i | 0 <= i < |r.history| ensures LinkedAsTold(codec, r, i) {
      if i < |tr.history| { assert LinkedAsTold(codec, tr, i); }
    }
  }

  lemma CutFaithful(codec: Codec, tr: Trace, cutoff: Time)
    requires Faithful(codec, tr)
    ensures Faithful(codec, Cut(tr, cutoff))
    ensures Remaining(Cut(tr, cutoff)) == Survivors(Remaining(tr), cutoff)
  {
    hide ChainHash, Filter, FilterPositions;
    var rows, r, idx := Remaining(tr), Cut(tr, cutoff), Survived(tr, cutoff);
    PositionsIncrease(rows, (e: Event) => e.time >= cutoff);
    PositionsYieldFilter(rows, (e: Event) => e.time >= cutoff);
    PickedOrdered(tr, r, idx);
    forall i | 0 <= i < |r.history| ensures LinkedAsTold(codec, r, i) { assert LinkedAsTold(codec, tr, i); }
  }

  lemma PickedOrdered(tr: Trace, r: Trace, idx: seq<nat>)
    requires Indexed(tr) && Indexed(r) && Ordered(tr) && r == tr.(present := r.present)
    requires |idx| == |r.present| && Increasing(idx)
    requires forall k :: 0 <= k < |idx| ==> idx[k] < |tr.present| && r.present[k] == tr.present[idx[k]]
    ensures Ordered(r)
  {
    forall k | 0 < k < |idx|
      ensures r.after[r.present[k]].Some? && r.present[k - 1] <= r.after[r.present[k]].value
    {
      assert idx[k - 1] < idx[k];
      assert tr.present[idx[k - 1]] <= tr.present[idx[k] - 1];
    }
  }

  lemma RestampTenant(codec: Codec, prev: string, e: Event)
    ensures Restamp(codec, prev, e).tenant == e.tenant
  {
  }

  // What an accepted Append does to its tenant's rows, and to all others.
  lemma AppendTouchesOne(codec: Codec, log: Log, e: Event, now: Time, freshId: Uuid, tenant: Uuid)
    ensures var s := Stamped(e, now, freshId);
      Rows(AfterAppend(codec, log, e, now, freshId), tenant) ==
        if e.tenant == tenant && ValidationError(s) == None
        then Rows(log, tenant) + [Restamp(codec, TailHash(Rows(log, tenant)), s)] else Rows(log, tenant)
  {
    hide Restamp, ValidationError;
    RestampTenant(codec, TailHash(Rows(log, e.tenant)), Stamped(e, now, freshId));
  }

  lemma TracedFaithful(codec: Codec, log: Log, tr: Trace, op: Op, tenant: Uuid)
    requires Faithful(codec, tr) && Rows(log, tenant) == Remaining(tr)
    ensures Faithful(codec, Traced(codec, tr, op, tenant))
    ensures Rows(After(codec, log, op), tenant) == Remaining(Traced(codec, tr, op, tenant))
  {
    hide Survivors, PurgeEvent, ValidationError, AfterAppend, Ordered, LinkedAsTold, Remaining, Cut, Extended;
    match op {
      case AppendOp(e, now, freshId) =>
        AppendTouchesOne(codec, log, e, now, freshId, tenant);
        ExtendedFaithful(codec, tr, Stamped(e, now, freshId));
      case PurgeOp(t, actor, window, now, later, freshId) =>
        if t != NIL_UUID && window > 0 { PurgeTraced(codec, log, tr, op, tenant); }
    }
  }

  lemma RowsReplaced(log: Log, t: Uuid, kept: seq<Event>, tenant: Uuid)
    ensures Rows(log[t := kept], tenant) == if t == tenant then kept else Rows(log, tenant)
  {
  }

  function PurgedRows(codec: Codec, rows: seq<Event>, op: Op): seq<Event>
    requires op.PurgeOp?
  {
    var kept := Survivors(rows, op.now - op.window);
    var removed: nat := |rows| - |kept|;
    if removed == 0 then kept
    else
      var e := PurgeEvent(codec, op.tenant, op.actor, removed, op.now - op.window);
      kept + [Restamp(codec, TailHash(kept), Stamped(e, op.later, op.freshId))]
  }

  lemma PurgeUnfolds(codec: Codec, log: Log, op: Op)
    requires op.PurgeOp? && op.tenant != NIL_UUID && op.window > 0
    ensures var t, rows := op.tenant, Rows(log, op.tenant);
      var kept := Survivors(rows, op.now - op.window);
      var removed: nat := |rows| - |kept|;
      After(codec, log, op) ==
        if removed == 0 then log[t := kept]
        else AfterAppend(codec, log[t := kept], PurgeEvent(codec, t, op.actor, removed, op.now - op.window), op.later,
                         op.freshId)
  {
    hide Survivors, PurgeEvent, AfterAppend;
  }

  // What a purge does to its tenant's rows, and to all others.
  lemma PurgeTouchesOne(codec: Codec, log: Log, op: Op, tenant: Uuid)
    requires op.PurgeOp? && op.tenant != NIL_UUID && op.window > 0
    ensures Rows(After(codec, log, op), tenant) ==
            if op.tenant == tenant then PurgedRows(codec, Rows(log, tenant), op) else Rows(log, tenant)
  {
    hide Survivors, PurgeEvent, After, AfterAppend, Stamped, Restamp, ValidationError, Rows, TailHash;
    var t, cutoff := op.tenant, op.now - op.window;
    var kept := Survivors(Rows(log, t), cutoff);
    var removed: nat := |Rows(log, t)| - |kept|;
    PurgeUnfolds(codec, log, op);
    RowsReplaced(log, t, kept, tenant);
    PurgeEventAccepted(codec, t, op.actor, removed, cutoff, op.later, op.freshId);
    PurgeEventTenant(codec, t, op.actor, removed, cutoff);
    AppendTouchesOne(codec, log[t := kept], PurgeEvent(codec, t, op.actor, removed, cutoff), op.later, op.freshId,
                     tenant);
  }

  lemma PurgeTraced(codec: Codec, log: Log, tr: Trace, op: Op, tenant: Uuid)
    requires Faithful(codec, tr) && op.PurgeOp? && op.tenant != NIL_UUID && op.window > 0
    requires Rows(log, tenant) == Remaining(tr)
    ensures Faithful(codec, Traced(codec, tr, op, tenant))
    ensures Rows(After(codec, log, op), tenant) == Remaining(Traced(codec, tr, op, tenant))
  {
    hide Survivors, PurgeEvent, After, Stamped, Restamp, Ordered, LinkedAsTold, Cut, Extended;
    PurgeTouchesOne(codec, log, op, tenant);
    if op.tenant == tenant {
      var cutoff, cut := op.now - op.window, Cut(tr, op.now - op.window);
      CutFaithful(codec, tr, cutoff);
      var removed: nat := |tr.present| - |cut.present|;
      ExtendedFaithful(codec, cut,
                       Stamped(PurgeEvent(codec, tenant, op.actor, removed, cutoff), op.later, op.freshId));
    }
  }

  lemma PurgeEventTenant(codec: Codec, tenant: Uuid, actor: Uuid, removed: nat, cutoff: Time)
    ensures PurgeEvent(codec, tenant, actor, removed, cutoff).tenant == tenant
  {
  }

  // The trace is the tenant's part of the log.
  lemma {:induction false} TraceIsFaithful(codec: Codec, ops: seq<Op>, tenant: Uuid)
    ensures var tr := TraceOf(codec, ops, tenant);
      Faithful(codec, tr) && Rows(AfterAll(codec, map[], ops), tenant) == Remaining(tr)
  {
    hide Faithful, Traced, After;
    if ops == [] {
      NothingTraced(codec);
    } else {
      var init := ops[..|ops| - 1];
      TraceIsFaithful(codec, init, tenant);
      TracedFaithful(codec, AfterAll(codec, map[], init), TraceOf(codec, init, tenant), ops[|ops| - 1], tenant);
    }
  }

  lemma NothingTraced(codec: Codec)
    ensures Faithful(codec, Trace([], [], []))
  {
  }

  // ---------- the verdict ----------

  // Every present row but the first was linked to a row that is still there.
  predicate NoGap(tr: Trace)
    requires Indexed(tr)
  {
    forall k :: 0 < k < |tr.present| ==>
      tr.after[tr.present[k]].Some? && tr.after[tr.present[k]].value in tr.present
  }

  ghost predicate NoHashTwice(codec: Codec, history: seq<Event>) {
    && codec.WellFormed() && DistinctIds(history) && NoCollision(codec, history, history)
  }

  lemma HashIsIndex(codec: Codec, tr: Trace, i: nat, j: nat)
    requires Faithful(codec, tr) && NoHashTwice(codec, tr.history)
    requires i < |tr.history| && j < |tr.history| && tr.history[i].chainHash == tr.history[j].chainHash
    ensures i == j
  {
    hide Preimage, ContentDigest, IsHexDigest;
    assert LinkedAsTold(codec, tr, i) && LinkedAsTold(codec, tr, j);
    HashShapes(codec, tr, i);
    HashShapes(codec, tr, j);
    assert !Collide(codec, tr.history[i], tr.history[j]);
    SameHashSameInput(codec, tr.history[i], tr.history[j]);
  }

  lemma HashShapes(codec: Codec, tr: Trace, i: nat)
    requires Faithful(codec, tr) && NoHashTwice(codec, tr.history) && i < |tr.history|
    ensures PrevShape(tr.history[i].prevHash) && IsHexDigest(tr.history[i].chainHash)
  {
    hide Preimage, ContentDigest;
    assert LinkedAsTold(codec, tr, i);
    if tr.after[i].Some? { assert LinkedAsTold(codec, tr, tr.after[i].value); }
  }

  // A row names another as its predecessor exactly if it was linked to it.
  lemma PredecessorIff(codec: Codec, tr: Trace, i: nat, j: nat)
    requires Faithful(codec, tr) && NoHashTwice(codec, tr.history) && i < |tr.history| && j < |tr.history|
    ensures tr.history[i].prevHash == tr.history[j].chainHash <==> tr.after[i] == Some(j)
  {
    hide NoHashTwice, Ordered;
    assert LinkedAsTold(codec, tr, i);
    HashShapes(codec, tr, j);
    if tr.after[i].Some? && tr.history[tr.after[i].value].chainHash == tr.history[j].chainHash {
      HashIsIndex(codec, tr, tr.after[i].value, j);
    }
  }

  // After any run whatsoever a tenant's chain is accepted exactly when its rows
  // were inserted in (Time, ID) order and none but the first was linked to a row
  // that has gone: both can be told from times, IDs and cutoffs alone.
  lemma RunVerifiesIff(codec: Codec, ops: seq<Op>, tenant: Uuid)
    requires NoHashTwice(codec, TraceOf(codec, ops, tenant).history)
    ensures var rows := Rows(AfterAll(codec, map[], ops), tenant);
      Linked(codec, ListAll(rows)) <==> Sorted(rows, ChainBefore) && NoGap(TraceOf(codec, ops, tenant))
  {
    hide AfterAll, TraceOf, NoHashTwice, Faithful, NoGap, StableSort, ChainBefore, LinkOk;
    var tr, rows := TraceOf(codec, ops, tenant), Rows(AfterAll(codec, map[], ops), tenant);
    TraceIsFaithful(codec, ops, tenant);
    if Linked(codec, ListAll(rows)) {
      AcceptedInOrder(codec, tr);
    }
    if Sorted(rows, ChainBefore) && NoGap(tr) {
      SortFixesSorted(rows, ChainBefore);
      NoGapLinked(codec, tr);
    }
  }

  lemma NoGapLinked(codec: Codec, tr: Trace)
    requires Faithful(codec, tr) && NoGap(tr)
    ensures Linked(codec, Remaining(tr))
  {
    hide ChainHash;
    var rows := Remaining(tr);
    forall k | 0 <= k < |rows| ensures LinkOk(codec, rows, k) {
      var i := tr.present[k];
      assert LinkedAsTold(codec, tr, i);
      if k > 0 {
        var j :| 0 <= j < |tr.present| && tr.present[j] == tr.after[i].value;
        assert tr.present[j] < tr.present[k] && tr.present[k - 1] <= tr.present[j];
        assert j == k - 1;
      }
    }
  }

  lemma AcceptedInOrder(codec: Codec, tr: Trace)
    requires Faithful(codec, tr) && NoHashTwice(codec, tr.history)
    requires Linked(codec, ListAll(Remaining(tr)))
    ensures Sorted(Remaining(tr), ChainBefore) && NoGap(tr)
  {
    hide StableSort, ChainBefore, ChainHash, Ordered, LinkedAsTold, NoHashTwice;
    var rows := Remaining(tr);
    var out := ListAll(rows);
    SortPermutes(rows, ChainBefore);
    var idx := Positions(out, rows);
    forall k | 0 <= k < |idx| - 1
      ensures idx[k] < idx[k + 1] && tr.after[tr.present[idx[k + 1]]] == Some(tr.present[idx[k]])
    {
      assert LinkOk(codec, out, k + 1);
      FollowsIn(codec, tr, idx[k], idx[k + 1]);
    }
    RisingCovers(idx, |rows|);
    assert out == rows;
    ChainBeforeIsOrder();
    SortSorts(rows, ChainBefore);
    forall k | 0 < k < |tr.present|
      ensures tr.after[tr.present[k]].Some? && tr.after[tr.present[k]].value in tr.present
    {
      assert idx[k - 1 + 1] == k && idx[k - 1] == k - 1;
      assert tr.after[tr.present[k]] == Some(tr.present[k - 1]);
    }
  }

  lemma FollowsIn(codec: Codec, tr: Trace, a: nat, c: nat)
    requires Faithful(codec, tr) && NoHashTwice(codec, tr.history) && a < |tr.present| && c < |tr.present|
    requires Remaining(tr)[c].prevHash == Remaining(tr)[a].chainHash
    ensures a < c && tr.after[tr.present[c]] == Some(tr.present[a])
  {
    hide NoHashTwice, ChainHash;
    PredecessorIff(codec, tr, tr.present[c], tr.present[a]);
    assert LinkedAsTold(codec, tr, tr.present[c]);
  }

  lemma RisingCovers(idx: seq<nat>, n: nat)
    requires |idx| == n && forall k :: 0 <= k < n ==> idx[k] < n
    requires forall k :: 0 <= k < n - 1 ==> idx[k] < idx[k + 1]
    ensures forall k :: 0 <= k < n ==> idx[k] == k
  {
    forall k | 0 <= k < n ensures idx[k] == k {
      RisingAtLeast(idx, k);
      RisingAtMost(idx, k);
    }
  }

  lemma {:induction false} RisingAtLeast(idx: seq<nat>, k: nat)
    requires k < |idx| && forall i :: 0 <= i < |idx| - 1 ==> idx[i] < idx[i + 1]
    ensures k <= idx[k]
  {
    if k > 0 {
      RisingAtLeast(idx, k - 1);
      assert idx[k - 1] < idx[k - 1 + 1];
    }
  }

  lemma {:induction false} RisingAtMost(idx: seq<nat>, k: nat)
    requires k < |idx| && (forall i :: 0 <= i < |idx| - 1 ==> idx[i] < idx[i + 1]) && idx[|idx| - 1] < |idx|
    ensures idx[k] <= k
    decreases |idx| - k
  {
    if k + 1 < |idx| { RisingAtMost(idx, k + 1); }
  }

  // ---------- runs on the failing side ----------

  // A codec whose hash tells a first event from all others by the '-' at index 8.
  function SampleCodec(): Codec {
    Codec((s: string) => seq(64, _ => if |s| > 8 && s[8] == '-' then '0' else '1'), SampleTimeText, (t: Time) => "")
  }

  function SampleEvent(id: Uuid, tenant: Uuid, time: Time): Event {
    Event(id, tenant, time, "a", "b", "", "", "system", NIL_UUID, "", "", "")
  }

  lemma SampleCodecWellFormed()
    ensures SampleCodec().WellFormed()
  {
    var codec := SampleCodec();
    SampleTimes();
    forall s ensures IsHexDigest(codec.hash(s)) {
      assert forall i :: 0 <= i < 64 ==> codec.hash(s)[i] == '0' || codec.hash(s)[i] == '1';
    }
  }

  lemma SampleAccepted(id: Uuid, tenant: Uuid, time: Time, freshId: Uuid)
    requires tenant != NIL_UUID && id != NIL_UUID && time > 0
    ensures var e := SampleEvent(id, tenant, time); Stamped(e, 9, freshId) == e && ValidationError(e) == None
  {
    assert TrimSpace("a") == "a" && TrimSpace("b") == "b";
  }

  lemma SampleHashes(codec: Codec, e: Event)
    requires codec == SampleCodec() && e.chainHash == ChainHash(codec, e.prevHash, e) && PrevShape(e.prevHash)
    ensures IsHexDigest(e.chainHash) && e.chainHash[0] == if e.prevHash == "" then '0' else '1'
  {
    hide ContentDigest;
    SampleCodecWellFormed();
    PreimageNinthChar(e.prevHash, e.id, ContentDigest(codec, e));
  }

  lemma SampleAppend(codec: Codec, log: Log, tenant: Uuid, id: Uuid, time: Time)
    requires tenant != NIL_UUID && id != NIL_UUID && time > 0
    ensures var e := SampleEvent(id, tenant, time);
      Rows(After(codec, log, AppendOp(e, 9, id)), tenant) ==
        Rows(log, tenant) + [Restamp(codec, TailHash(Rows(log, tenant)), e)]
  {
    hide AfterAppend, Stamped, ValidationError, Restamp;
    SampleAccepted(id, tenant, time, id);
    AppendTouchesOne(codec, log, SampleEvent(id, tenant, time), 9, id, tenant);
  }

  lemma OneMore(codec: Codec, ops: seq<Op>, op: Op)
    ensures AfterAll(codec, map[], ops + [op]) == After(codec, AfterAll(codec, map[], ops), op)
  {
    assert (ops + [op])[..|ops|] == ops;
  }

  function FirstRow(tenant: Uuid, id: Uuid): Event {
    Restamp(SampleCodec(), "", SampleEvent(id, tenant, 2))
  }

  function SecondRow(tenant: Uuid, id: Uuid, other: Uuid): Event {
    Restamp(SampleCodec(), FirstRow(tenant, id).chainHash, SampleEvent(other, tenant, 1))
  }

  function TwoAppends(tenant: Uuid, id: Uuid, other: Uuid): seq<Op> {
    [AppendOp(SampleEvent(id, tenant, 2), 9, id), AppendOp(SampleEvent(other, tenant, 1), 9, other)]
  }

  lemma TwoRows(tenant: Uuid, id: Uuid, other: Uuid)
    requires tenant != NIL_UUID && id != NIL_UUID && other != NIL_UUID
    ensures var x, y := FirstRow(tenant, id), SecondRow(tenant, id, other);
      && Rows(AfterAll(SampleCodec(), map[], TwoAppends(tenant, id, other)), tenant) == [x, y]
      && x.chainHash[..1] == "0" && y.chainHash[..1] == "1" && x.prevHash == "" && y.prevHash == x.chainHash
      && IsHexDigest(x.chainHash) && IsHexDigest(y.chainHash)
  {
    hide After, AfterAll, SampleCodec, Restamp, Preimage, ContentDigest, ChainHash, SampleEvent;
    var codec, e, f := SampleCodec(), SampleEvent(id, tenant, 2), SampleEvent(other, tenant, 1);
    var x, y := FirstRow(tenant, id), SecondRow(tenant, id, other);
    NoOps(codec);
    OneMore(codec, [], AppendOp(e, 9, id));
    OneMore(codec, [AppendOp(e, 9, id)], AppendOp(f, 9, other));
    assert [] + [AppendOp(e, 9, id)] == [AppendOp(e, 9, id)];
    assert [AppendOp(e, 9, id)] + [AppendOp(f, 9, other)] == TwoAppends(tenant, id, other);
    SampleAppend(codec, map[], tenant, id, 2);
    SampleAppend(codec, AfterAll(codec, map[], [AppendOp(e, 9, id)]), tenant, other, 1);
    RestampHashes(codec, "", e);
    RestampHashes(codec, x.chainHash, f);
    SampleHashes(codec, x);
    SampleHashes(codec, y);
  }

  lemma NoOps(codec: Codec)
    ensures AfterAll(codec, map[], []) == map[]
  {
  }

  // Two accepted appends, the second with the earlier time: no hash is repeated,
  // nothing was changed, and the chain is reported as broken.
  lemma OutOfOrderAppendBreaks(tenant: Uuid, id: Uuid, other: Uuid)
    requires tenant != NIL_UUID && id != NIL_UUID && other != NIL_UUID
    ensures var codec := SampleCodec();
      var rows := Rows(AfterAll(codec, map[], TwoAppends(tenant, id, other)), tenant);
      && codec.WellFormed() && |rows| == 2 && FreshHashes(rows)
      && Linked(codec, rows) && !Linked(codec, ListAll(rows))
  {
    hide Preimage, ContentDigest, StableSort, SampleCodec, AfterAll, Rows, ChainHash, Codec.WellFormed, LinkOk;
    var codec, x, y := SampleCodec(), FirstRow(tenant, id), SecondRow(tenant, id, other);
    SampleCodecWellFormed();
    TwoRows(tenant, id, other);
    AppendOnlyRunLinked(codec, TwoAppends(tenant, id, other), tenant);
    ListAllVerifiesIff(codec, [x, y]);
    assert ChainBefore([x, y][1], [x, y][0]);
  }

  lemma SurvivorsOne(x: Event, cutoff: Time)
    ensures Survivors([x], cutoff) == if x.time >= cutoff then [x] else []
  {
    FilterSingle(x, (e: Event) => e.time >= cutoff);
  }

  lemma SurvivorsConcat(a: seq<Event>, b: seq<Event>, cutoff: Time)
    ensures Survivors(a + b, cutoff) == Survivors(a, cutoff) + Survivors(b, cutoff)
  {
    FilterConcat(a, b, (e: Event) => e.time >= cutoff);
  }

  // The same run with a purge behind it that takes the second row: accepted.
  lemma PurgeMendsReport(tenant: Uuid, id: Uuid, other: Uuid, third: Uuid)
    requires tenant != NIL_UUID && id != NIL_UUID && other != NIL_UUID && third != NIL_UUID
    ensures var codec, ops := SampleCodec(), TwoAppends(tenant, id, other);
      && !Linked(codec, ListAll(Rows(AfterAll(codec, map[], ops), tenant)))
      && Linked(codec, ListAll(Rows(AfterAll(codec, map[], ops + [PurgeOp(tenant, tenant, 1, 3, 9, third)]), tenant)))
  {
    hide After, AfterAll, SampleCodec, Restamp, Linked, ListAll, Rows, FirstRow, Stamped, PurgeEvent;
    var codec := SampleCodec();
    OutOfOrderAppendBreaks(tenant, id, other);
    MendedRows(tenant, id, other, third);
    PurgeEventAccepted(codec, tenant, tenant, 1, 2, 9, third);
    OneRowVerifies(codec, tenant, id);
    LaterRowVerifies(codec, FirstRow(tenant, id), Stamped(PurgeEvent(codec, tenant, tenant, 1, 2), 9, third));
  }

  lemma MendedRows(tenant: Uuid, id: Uuid, other: Uuid, third: Uuid)
    requires tenant != NIL_UUID && id != NIL_UUID && other != NIL_UUID && third != NIL_UUID
    ensures var codec, x := SampleCodec(), FirstRow(tenant, id);
      var ops := TwoAppends(tenant, id, other) + [PurgeOp(tenant, tenant, 1, 3, 9, third)];
      x.time == 2 && Rows(AfterAll(codec, map[], ops), tenant) ==
        [x] + [Restamp(codec, TailHash([x]), Stamped(PurgeEvent(codec, tenant, tenant, 1, 2), 9, third))]
  {
    hide After, AfterAll, SampleCodec, Restamp, Stamped, PurgeEvent, Survivors, FirstRow, SecondRow, IsHexDigest;
    var codec, ops, op := SampleCodec(), TwoAppends(tenant, id, other), PurgeOp(tenant, tenant, 1, 3, 9, third);
    TwoRows(tenant, id, other);
    OneMore(codec, ops, op);
    PurgeTouchesOne(codec, AfterAll(codec, map[], ops), op, tenant);
    SampleTimesKept(tenant, id, other);
  }

  lemma LaterRowVerifies(codec: Codec, x: Event, e: Event)
    requires Verifiable(codec, [x]) && x.time < e.time
    ensures Linked(codec, ListAll([x] + [Restamp(codec, TailHash([x]), e)]))
  {
    hide Restamp, LinkOk, StableSort;
    AppendedVerifiable(codec, [x], e);
    SortFixesSorted([x] + [Restamp(codec, TailHash([x]), e)], ChainBefore);
  }

  lemma SampleTimesKept(tenant: Uuid, id: Uuid, other: Uuid)
    ensures var x, y := FirstRow(tenant, id), SecondRow(tenant, id, other);
      x.time == 2 && y.time == 1 && Survivors([x, y], 2) == [x]
  {
    hide ChainHash, Survivors;
    var x, y := FirstRow(tenant, id), SecondRow(tenant, id, other);
    SurvivorsConcat([x], [y], 2);
    SurvivorsOne(x, 2);
    SurvivorsOne(y, 2);
    assert [x] + [y] == [x, y] && [x] + [] == [x];
  }

  lemma OneRowVerifies(codec: Codec, tenant: Uuid, id: Uuid)
    requires codec == SampleCodec()
    ensures Verifiable(codec, [FirstRow(tenant, id)])
  {
    hide ChainHash, SampleCodec;
    AppendedLinked(codec, [], SampleEvent(id, tenant, 2));
    assert [] + [FirstRow(tenant, id)] == [FirstRow(tenant, id)];
  }

  function ThirdRow(tenant: Uuid, id: Uuid, other: Uuid, third: Uuid): Event {
    Restamp(SampleCodec(), SecondRow(tenant, id, other).chainHash, SampleEvent(third, tenant, 3))
  }

  function ThreeAppends(tenant: Uuid, id: Uuid, other: Uuid, third: Uuid): seq<Op> {
    TwoAppends(tenant, id, other) + [AppendOp(SampleEvent(third, tenant, 3), 9, third)]
  }

  lemma ThreeRows(tenant: Uuid, id: Uuid, other: Uuid, third: Uuid)
    requires tenant != NIL_UUID && id != NIL_UUID && other != NIL_UUID && third != NIL_UUID
    ensures var x, y, z := FirstRow(tenant, id), SecondRow(tenant, id, other), ThirdRow(tenant, id, other, third);
      && Rows(AfterAll(SampleCodec(), map[], ThreeAppends(tenant, id, other, third)), tenant) == [x, y] + [z]
      && z.time == 3 && z.prevHash != x.chainHash
  {
    hide After, AfterAll, SampleCodec, Restamp, ChainHash, SampleEvent, FirstRow, SecondRow;
    var codec, two, e := SampleCodec(), TwoAppends(tenant, id, other), SampleEvent(third, tenant, 3);
    TwoRows(tenant, id, other);
    OneMore(codec, two, AppendOp(e, 9, third));
    SampleAppend(codec, AfterAll(codec, map[], two), tenant, third, 3);
    RestampHashes(codec, SecondRow(tenant, id, other).chainHash, e);
    RestampTime(codec, SecondRow(tenant, id, other).chainHash, e);
    SampleEventTime(third, tenant, 3);
  }

  lemma SampleEventTime(id: Uuid, tenant: Uuid, time: Time)
    ensures SampleEvent(id, tenant, time).time == time
  {
  }

  lemma GapStays(codec: Codec, x: Event, y: Event, z: Event, e: Event)
    requires x.time == 2 && y.time == 1 && z.time == 3 && e.time == 9 && z.prevHash != x.chainHash
    ensures Survivors([x, y] + [z], 2) == [x, z]
    ensures var rows := [x, z] + [Restamp(codec, TailHash([x, z]), e)];
      Sorted(rows, ChainBefore) && !Linked(codec, ListAll(rows))
  {
    hide Restamp, StableSort, ChainHash, Survivors;
    SurvivorsConcat([x, y], [z], 2);
    SurvivorsConcat([x], [y], 2);
    SurvivorsOne(x, 2);
    SurvivorsOne(y, 2);
    SurvivorsOne(z, 2);
    assert [x] + [y] == [x, y] && [x] + [] == [x] && [x] + [z] == [x, z];
    RestampTime(codec, z.chainHash, e);
    var rows := [x, z] + [Restamp(codec, TailHash([x, z]), e)];
    SortFixesSorted(rows, ChainBefore);
    assert !LinkOk(codec, rows, 1);
  }

  // Rows in order of time and untouched, yet broken: the purge took the row the
  // last append had been linked to, and left the one before it.
  lemma PurgeLeavesGap(tenant: Uuid, id: Uuid, other: Uuid, third: Uuid, fourth: Uuid)
    requires tenant != NIL_UUID && id != NIL_UUID && other != NIL_UUID && third != NIL_UUID && fourth != NIL_UUID
    ensures var codec := SampleCodec();
      var ops := ThreeAppends(tenant, id, other, third) + [PurgeOp(tenant, tenant, 1, 3, 9, fourth)];
      var rows := Rows(AfterAll(codec, map[], ops), tenant);
      |rows| == 3 && Sorted(rows, ChainBefore) && !Linked(codec, ListAll(rows))
  {
    hide After, AfterAll, SampleCodec, Restamp, Stamped, PurgeEvent, Survivors, StableSort, Linked, ChainBefore;
    var codec, op := SampleCodec(), PurgeOp(tenant, tenant, 1, 3, 9, fourth);
    var ops := ThreeAppends(tenant, id, other, third);
    var x, y, z := FirstRow(tenant, id), SecondRow(tenant, id, other), ThirdRow(tenant, id, other, third);
    ThreeRows(tenant, id, other, third);
    SampleTimesKept(tenant, id, other);
    OneMore(codec, ops, op);
    PurgeTouchesOne(codec, AfterAll(codec, map[], ops), op, tenant);
    var e := Stamped(PurgeEvent(codec, tenant, tenant, 1, 2), 9, fourth);
    PurgeEventAccepted(codec, tenant, tenant, 1, 2, 9, fourth);
    GapStays(codec, x, y, z, e);
  }

  lemma RestampTime(codec: Codec, prev: string, e: Event)
    ensures Restamp(codec, prev, e).time == e.time
  {
  }
}
