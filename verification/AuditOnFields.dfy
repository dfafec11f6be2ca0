// packages/auditlog: what appending, querying and purging mean for the fields of
// the events themselves.
module AuditOnFields {
  import opened Basics
  import opened Text
  import opened Sorting
  import opened AuditChain
  import opened AuditStore

  // ---------- queries ----------

  // Which rows a query answers with, how often, and in what order; and when the
  // limit cuts, that it is the earliest that stay.
  lemma QueryAnswers(rows: seq<Event>, f: EventFilter)
    ensures var out := QueryResult(rows, f);
      forall e :: e in out ==>
        && e in rows
        && (f.actor != "" ==> e.actor == f.actor) && (f.caseId != NIL_UUID ==> e.caseId == f.caseId)
        && (f.action != "" ==> e.action == f.action) && (|f.kinds| > 0 ==> e.kind in f.kinds)
        && (f.since != 0 ==> f.since <= e.time) && (f.until != 0 ==> e.time <= f.until)
    ensures var out := QueryResult(rows, f);
      forall e :: e in rows
        && (f.actor != "" ==> e.actor == f.actor) && (f.caseId != NIL_UUID ==> e.caseId == f.caseId)
        && (f.action != "" ==> e.action == f.action) && (|f.kinds| > 0 ==> e.kind in f.kinds)
        && (f.since != 0 ==> f.since <= e.time) && (f.until != 0 ==> e.time <= f.until)
        ==> multiset(out)[e] == multiset(rows)[e]
            || (|out| == (if f.limit <= 0 then 1000 else f.limit) && forall k :: 0 <= k < |out| ==> !Earlier(e, out[k]))
    ensures var out := QueryResult(rows, f);
      && |out| <= (if f.limit <= 0 then 1000 else f.limit)
      && (forall e :: multiset(out)[e] <= multiset(rows)[e])
      && (forall i, k :: 0 <= i < k < |out| ==> !Earlier(out[k], out[i]))
  {
    hide StableSort, Filter, ChainBefore, MatchesFilter, Earlier;
    var p := (e: Event) => MatchesFilter(f, e);
    var all, out := ListAll(Filter(rows, p)), QueryResult(rows, f);
    ChainBeforeIsOrder();
    SortSorts(Filter(rows, p), ChainBefore);
    SortPermutes(Filter(rows, p), ChainBefore);
    assert all == out + all[|out|..];
    forall e ensures multiset(out)[e] <= multiset(rows)[e] && (e in out ==> e in rows && MatchesFilter(f, e)) {
      FilterCounts(rows, p, e);
      assert multiset(all) == multiset(out) + multiset(all[|out|..]);
      assert e in out ==> e in multiset(out);
    }
    forall e | e in rows && MatchesFilter(f, e) && multiset(out)[e] != multiset(rows)[e]
      ensures |out| == Limit(f) && forall k :: 0 <= k < |out| ==> !Earlier(e, out[k])
    {
      FilterCounts(rows, p, e);
      CutOff(all, |out|, e);
      forall k | 0 <= k < |out| ensures !Earlier(e, out[k]) { EarlierIff(e, out[k]); }
    }
    forall i, k | 0 <= i < k < |out| ensures !Earlier(out[k], out[i]) { EarlierIff(out[k], out[i]); }
    forall e ensures MatchesFilter(f, e) <==>
      && (f.actor != "" ==> e.actor == f.actor) && (f.caseId != NIL_UUID ==> e.caseId == f.caseId)
      && (f.action != "" ==> e.action == f.action) && (|f.kinds| > 0 ==> e.kind in f.kinds)
      && (f.since != 0 ==> f.since <= e.time) && (f.until != 0 ==> e.time <= f.until)
    {
      MatchesOnFields(f, e);
    }
  }

  lemma MatchesOnFields(f: EventFilter, e: Event)
    ensures MatchesFilter(f, e) <==>
      && (f.actor != "" ==> e.actor == f.actor) && (f.caseId != NIL_UUID ==> e.caseId == f.caseId)
      && (f.action != "" ==> e.action == f.action) && (|f.kinds| > 0 ==> e.kind in f.kinds)
      && (f.since != 0 ==> f.since <= e.time) && (f.until != 0 ==> e.time <= f.until)
  {
  }

  // By time, and at one time by the first place where the IDs differ.
  ghost predicate Earlier(e: Event, f: Event) {
    e.time < f.time
    || (e.time == f.time && exists i :: 0 <= i < 36 && e.id[..i] == f.id[..i] && e.id[i] < f.id[i])
  }

  lemma EarlierIff(e: Event, f: Event)
    ensures Earlier(e, f) <==> ChainBefore(e, f)
  {
    StrLessIff(e.id, f.id);
    assert |e.id| == |f.id| == 36;
  }

  lemma CutOff(all: seq<Event>, n: nat, e: Event)
    requires n <= |all| && Sorted(all, ChainBefore) && multiset(all[..n])[e] < multiset(all)[e]
    ensures n < |all| && forall k :: 0 <= k < n ==> !ChainBefore(e, all[k])
  {
    hide ChainBefore;
    assert all == all[..n] + all[n..];
    assert multiset(all) == multiset(all[..n]) + multiset(all[n..]);
    assert e in multiset(all[n..]);
    var k :| 0 <= k < |all[n..]| && all[n..][k] == e;
    assert all[n + k] == e;
  }

  // ---------- appending ----------

  // Append takes an event exactly under these conditions, and what it adds to
  // the tenant's rows is the event with its gaps filled, behind the row added
  // last. Every other row of every tenant stays.
  lemma AppendStores(codec: Codec, log: Log, e: Event, now: Time, freshId: Uuid)
    ensures var out := AppendOutcome(codec, log, e, now, freshId);
      out.Ok? <==>
        && e.tenant != NIL_UUID && NonBlank(e.action) && NonBlank(e.actor)
        && e.kind in {"", "data_access", "reasoning", "signoff", "data_change", "admin", "export", "system"}
    ensures var out, rows := AppendOutcome(codec, log, e, now, freshId), if e.tenant in log then log[e.tenant] else [];
      out.Ok? ==>
        && (out.value.tenant, out.value.actor, out.value.action, out.value.target) ==
             (e.tenant, e.actor, e.action, e.target)
        && (out.value.outcome, out.value.caseId, out.value.detail) == (e.outcome, e.caseId, e.detail)
        && out.value.id == (if e.id == NIL_UUID then freshId else e.id)
        && out.value.time == (if e.time == 0 then now else e.time)
        && out.value.kind == (if e.kind == "" then "system" else e.kind)
        && out.value.prevHash == (if rows == [] then "" else rows[|rows| - 1].chainHash)
        && AfterAppend(codec, log, e, now, freshId) == log[e.tenant := rows + [out.value]]
    ensures AppendOutcome(codec, log, e, now, freshId).Err? ==> AfterAppend(codec, log, e, now, freshId) == log
  {
    hide TrimSpace, ChainHash, NonBlank;
    NonBlankIff(e.action);
    NonBlankIff(e.actor);
  }

  // What stands between the bars, and what is hashed.
  lemma HashedText(codec: Codec, prev: string, e: Event)
    ensures ContentDigest(codec, e) ==
      e.tenant + "|" + (codec.timeText(e.time) + "|" + (e.actor + "|" + (e.action + "|" + (e.target + "|" + (
      e.outcome + "|" + (e.kind + "|" + (e.caseId + "|" + e.detail)))))))
    ensures var d := ContentDigest(codec, e); ChainHash(codec, prev, e) == codec.hash(prev + (e.id + (Itoa(|d|) + d)))
  {
    hide Join, Itoa;
    var fs := Fields(codec, e);
    JoinTail(fs[7], [fs[8]]);
    JoinTail(fs[6], [fs[7]] + [fs[8]]);
    JoinTail(fs[5], fs[6..]);
    JoinTail(fs[4], fs[5..]);
    JoinTail(fs[3], fs[4..]);
    JoinTail(fs[2], fs[3..]);
    JoinTail(fs[1], fs[2..]);
    JoinTail(fs[0], fs[1..]);
    JoinOne(fs[8]);
    assert fs[7..] == [fs[7]] + [fs[8]] && fs[6..] == [fs[6]] + fs[7..] && fs[5..] == [fs[5]] + fs[6..];
    assert fs[4..] == [fs[4]] + fs[5..] && fs[3..] == [fs[3]] + fs[4..] && fs[2..] == [fs[2]] + fs[3..];
    assert fs[1..] == [fs[1]] + fs[2..] && fs == [fs[0]] + fs[1..];
  }

  lemma JoinTail(t: string, ts: seq<string>)
    requires ts != []
    ensures Join([t] + ts) == t + "|" + Join(ts)
  {
    JoinCons(t, ts);
  }

  lemma JoinOne(t: string)
    ensures Join([t]) == t
  {
  }

  // ---------- purging ----------

  // A purge keeps exactly the tenant's rows from the cutoff on, in their order,
  // and leaves a record of itself behind them when rows went; nothing else
  // changes, and nothing at all without a tenant or a positive window.
  lemma PurgeLeaves(codec: Codec, log: Log, t: Uuid, actor: Uuid, window: int, now: Time, later: Time, freshId: Uuid)
    returns (kept: seq<Event>, mark: seq<Event>)
    ensures t == NIL_UUID || window <= 0 ==> AfterPurge(codec, log, t, actor, window, now, later, freshId) == log
    ensures t != NIL_UUID && window > 0 ==>
      var rows := if t in log then log[t] else [];
      && (forall e :: multiset(kept)[e] == if e.time >= now - window then multiset(rows)[e] else 0)
      && InOrderOf(kept, rows) && |kept| <= |rows|
      && |mark| == (if |kept| == |rows| then 0 else 1)
      && (mark != [] ==>
            && (mark[0].id, mark[0].tenant, mark[0].time, mark[0].actor) == (freshId, t, later, actor)
            && (mark[0].action, mark[0].target, mark[0].outcome) == ("audit.purged", t, "success")
            && (mark[0].kind, mark[0].caseId) == ("system", NIL_UUID)
            && mark[0].detail == "purged " + Itoa(|rows| - |kept|) + " events before " + codec.cutoffText(now - window)
            && mark[0].prevHash == (if kept == [] then "" else kept[|kept| - 1].chainHash))
      && AfterPurge(codec, log, t, actor, window, now, later, freshId) == log[t := kept + mark]
  {
    hide ChainHash, Survivors, Itoa, InOrderOf, PurgeEvent, Stamped, AfterPurge;
    kept, mark := [], [];
    if t == NIL_UUID || window <= 0 {
      NothingToPurge(codec, log, t, actor, window, now, later, freshId);
    } else {
      var rows, cutoff := Rows(log, t), now - window;
      kept := Survivors(rows, cutoff);
      var removed: nat := |rows| - |kept|;
      mark := Mark(codec, kept, PurgeEvent(codec, t, actor, removed, cutoff), removed, later, freshId);
      SurvivorsOnFields(rows, cutoff);
      PurgeEventOnFields(codec, t, actor, removed, cutoff, later, freshId);
      PurgeIs(codec, log, t, actor, window, now, later, freshId);
    }
  }

  lemma NothingToPurge(codec: Codec, log: Log, t: Uuid, actor: Uuid, window: int, now: Time, later: Time, freshId: Uuid)
    requires t == NIL_UUID || window <= 0
    ensures AfterPurge(codec, log, t, actor, window, now, later, freshId) == log
  {
  }

  function Mark(codec: Codec, kept: seq<Event>, e: Event, removed: nat, later: Time, freshId: Uuid): seq<Event> {
    if removed == 0 then [] else [Restamp(codec, TailHash(kept), Stamped(e, later, freshId))]
  }

  lemma PurgeIs(codec: Codec, log: Log, t: Uuid, actor: Uuid, window: int, now: Time, later: Time, freshId: Uuid)
    requires t != NIL_UUID && window > 0
    ensures var rows := Rows(log, t);
      var kept := Survivors(rows, now - window);
      var removed: nat := |rows| - |kept|;
      AfterPurge(codec, log, t, actor, window, now, later, freshId) ==
        log[t := kept + Mark(codec, kept, PurgeEvent(codec, t, actor, removed, now - window), removed, later, freshId)]
  {
    hide TrimSpace, ChainHash, Survivors, PurgeEvent, Stamped, ValidationError;
    var rows := Rows(log, t);
    var kept := Survivors(rows, now - window);
    var removed: nat := |rows| - |kept|;
    PurgeEventAccepted(codec, t, actor, removed, now - window, later, freshId);
    PurgeEventOnFields(codec, t, actor, removed, now - window, later, freshId);
    assert kept + [] == kept;
  }

  lemma SurvivorsOnFields(rows: seq<Event>, cutoff: Time)
    ensures var kept := Survivors(rows, cutoff);
      && (forall e :: multiset(kept)[e] == if e.time >= cutoff then multiset(rows)[e] else 0)
      && InOrderOf(kept, rows)
  {
    hide Filter;
    var p := (e: Event) => e.time >= cutoff;
    forall e ensures multiset(Filter(rows, p))[e] == if p(e) then multiset(rows)[e] else 0 { FilterCounts(rows, p, e); }
    FilterInOrder(rows, p);
  }

  lemma PurgeEventOnFields(codec: Codec, t: Uuid, actor: Uuid, removed: nat, cutoff: Time, later: Time, freshId: Uuid)
    ensures PurgeEvent(codec, t, actor, removed, cutoff).tenant == t
    ensures var e := Stamped(PurgeEvent(codec, t, actor, removed, cutoff), later, freshId);
      && (e.id, e.tenant, e.time, e.actor, e.action, e.target) == (freshId, t, later, actor, "audit.purged", t)
      && (e.outcome, e.kind, e.caseId) == ("success", "system", NIL_UUID)
      && e.detail == "purged " + Itoa(removed) + " events before " + codec.cutoffText(cutoff)
  {
    hide Itoa;
  }

  // The elements of one sequence come in the order they have in the other.
  ghost predicate InOrderOf(kept: seq<Event>, rows: seq<Event>) {
    exists idx: seq<nat> :: Increasing(idx) && Picks(kept, rows, idx)
  }

  predicate Picks(kept: seq<Event>, rows: seq<Event>, idx: seq<nat>) {
    |idx| == |kept| && forall k :: 0 <= k < |idx| ==> idx[k] < |rows| && kept[k] == rows[idx[k]]
  }

  lemma FilterInOrder(rows: seq<Event>, p: Event -> bool)
    ensures InOrderOf(Filter(rows, p), rows)
  {
    hide Filter, FilterPositions;
    PositionsIncrease(rows, p);
    PositionsYieldFilter(rows, p);
    assert Picks(Filter(rows, p), rows, FilterPositions(rows, p));
  }
}
