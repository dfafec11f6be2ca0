// packages/adaptiveretrieval: what a Build asks of the walker, what it answers,
// and what its counters count, in terms of the fields of query and budget.
module RetrievalOnFields {
  import opened Basics
  import opened Text
  import opened Sorting
  import opened RetrievalCache
  import opened RetrievalBuilder

  type Run = seq<RetrievalBuilder.Op>

  // ---------- what is asked ----------

  // The i-th hop of the query, or of the sequence a query without hops gets.
  function HopAt(q: AdaptiveQuery, i: nat): string
    requires i < if |q.hops| == 0 then 3 else |q.hops|
  {
    if |q.hops| == 0 then ["governing_rule", "controlling_precedent", "distinguishing_facts"][i] else q.hops[i]
  }

  predicate Means(spec: HopSpec, hop: string) {
    && (spec == ViaGoverningRule <==> hop == "governing_rule")
    && (spec == ViaControllingPrecedent <==> hop == "controlling_precedent")
    && (spec == ViaDistinguishingFacts <==> hop == "distinguishing_facts")
  }

  predicate Known(hop: string) {
    hop == "governing_rule" || hop == "controlling_precedent" || hop == "distinguishing_facts"
  }

  // With n hops and a limit of m: all of them up to one vector hit, one less for
  // two to four, two less from five on, but one at least and m at most.
  lemma DepthInNumbers(q: AdaptiveQuery, b: BuildBudget)
    ensures var n := if |q.hops| == 0 then 3 else |q.hops|;
      var m := if b.maxHops <= 0 then 4 else b.maxHops;
      && (q.vectorHits <= 1 ==> Depth(q, b) == if n <= m then n else m)
      && (2 <= q.vectorHits <= 4 && n == 1 ==> Depth(q, b) == 1)
      && (2 <= q.vectorHits <= 4 && n > 1 ==> Depth(q, b) == if n - 1 <= m then n - 1 else m)
      && (q.vectorHits >= 5 && n <= 2 ==> Depth(q, b) == 1)
      && (q.vectorHits >= 5 && n > 2 ==> Depth(q, b) == if n - 2 <= m then n - 2 else m)
  {
  }

  // The walk starts at the anchor and takes the known ones among the first
  // Depth hops, each as what it means, in their order.
  lemma WalkAsksFor(q: AdaptiveQuery, b: BuildBudget) returns (idx: seq<nat>)
    ensures var t := ToTraversalQuery(q, b);
      && t.caseId == q.caseId && t.start == q.anchor && t.maxDepth == Depth(q, b)
      && Increasing(idx) && |idx| == |t.hops|
      && (forall k :: 0 <= k < |idx| ==> idx[k] < Depth(q, b) && Means(t.hops[k], HopAt(q, idx[k])))
      && (forall i :: 0 <= i < Depth(q, b) ==> (i in idx <==> Known(HopAt(q, i))))
  {
    hide Means, Known;
    HopsInOrder(q, b);
    idx := TranslatedHops(WalkedHops(q, b));
  }

  lemma HopsInOrder(q: AdaptiveQuery, b: BuildBudget)
    ensures var walked := WalkedHops(q, b);
      |walked| == Depth(q, b) && forall i :: 0 <= i < |walked| ==> walked[i] == HopAt(q, i)
  {
  }

  lemma {:induction false} TranslatedHops(hops: seq<string>) returns (idx: seq<nat>)
    ensures Increasing(idx) && |idx| == |TranslateHops(hops)|
    ensures forall k :: 0 <= k < |idx| ==> idx[k] < |hops| && Means(TranslateHops(hops)[k], hops[idx[k]])
    ensures forall i :: 0 <= i < |hops| ==> (i in idx <==> Known(hops[i]))
  {
    hide Known, Means;
    if hops == [] {
      idx := [];
    } else {
      hide TranslateHops;
      var n := |hops| - 1;
      var init := TranslatedHops(hops[..n]);
      LastHop(hops);
      idx := if Known(hops[n]) then init + [n] else init;
      OneMoreIndex(hops, init, idx, TranslateHops(hops[..n]), TranslateHops(hops));
    }
  }

  lemma OneMoreIndex(hops: seq<string>, init: seq<nat>, idx: seq<nat>, specs: seq<HopSpec>, all: seq<HopSpec>)
    requires hops != [] && |init| == |specs| && Increasing(init)
    requires forall k :: 0 <= k < |init| ==> init[k] < |hops| - 1 && Means(specs[k], hops[init[k]])
    requires forall i :: 0 <= i < |hops| - 1 ==> (i in init <==> Known(hops[..|hops| - 1][i]))
    requires var n := |hops| - 1;
      if Known(hops[n]) then idx == init + [n] && all != [] && all[..|all| - 1] == specs
                             && Means(all[|all| - 1], hops[n])
      else idx == init && all == specs
    ensures Increasing(idx) && |idx| == |all|
    ensures forall k :: 0 <= k < |idx| ==> idx[k] < |hops| && Means(all[k], hops[idx[k]])
    ensures forall i :: 0 <= i < |hops| ==> (i in idx <==> Known(hops[i]))
  {
    hide Known, Means;
    var n := |hops| - 1;
    forall i | 0 <= i < |hops| ensures i in idx <==> Known(hops[i]) {
      if i < n {
        assert hops[..n][i] == hops[i];
      } else {
        assert Known(hops[n]) ==> idx[|init|] == n;
      }
    }
    forall k | 0 <= k < |idx| ensures idx[k] < |hops| && Means(all[k], hops[idx[k]]) {
      if k < |init| { assert all[k] == specs[k] && idx[k] == init[k]; }
    }
  }

  lemma {:induction false} LastHop(hops: seq<string>)
    requires hops != []
    ensures var n, all := |hops| - 1, TranslateHops(hops);
      if Known(hops[n])
      then all != [] && all[..|all| - 1] == TranslateHops(hops[..n]) && Means(all[|all| - 1], hops[n])
      else all == TranslateHops(hops[..n])
  {
    var n := |hops| - 1;
    if n > 0 {
      LastHop(hops[1..]);
      assert hops[1..][..n - 1] == hops[..n][1..];
    }
  }

  // So a walk over known hops asks for exactly those, one by one.
  lemma KnownHopsAllAsked(q: AdaptiveQuery, b: BuildBudget)
    requires forall i :: 0 <= i < Depth(q, b) ==> Known(HopAt(q, i))
    ensures var hops := ToTraversalQuery(q, b).hops;
      |hops| == Depth(q, b) && forall i :: 0 <= i < |hops| ==> Means(hops[i], HopAt(q, i))
  {
    hide Means, Known, TranslateHops;
    HopsInOrder(q, b);
    AllTranslated(WalkedHops(q, b));
  }

  lemma {:induction false} AllTranslated(hops: seq<string>)
    requires forall i :: 0 <= i < |hops| ==> Known(hops[i])
    ensures |TranslateHops(hops)| == |hops|
    ensures forall i :: 0 <= i < |hops| ==> Means(TranslateHops(hops)[i], hops[i])
  {
    if hops != [] { AllTranslated(hops[1..]); }
  }

  // ---------- what is answered ----------

  // The cache misses a key nothing is stored under; the entry under it is served
  // unless it is older than the revision set for its case, 0 if none is set.
  lemma LookupOnFields(es: seq<CacheEntry>, revisions: Revisions, k: CacheKey)
    requires forall i, j :: 0 <= i < j < |es| ==> es[i].key != es[j].key
    ensures var r := LookupResult(es, revisions, k);
      && (r == Miss <==> forall i :: 0 <= i < |es| ==> es[i].key != k)
      && forall i :: 0 <= i < |es| && es[i].key == k ==>
           r == if es[i].subgraph.revision < (if k.caseId in revisions then revisions[k.caseId] else 0)
                then Stale(es[i].subgraph) else Hit(es[i].subgraph)
  {
    hide Find;
    FindNone(es, k);
    if Find(es, k).Some? {
      var j :| 0 <= j < |es| && es[j] == CacheEntry(k, Find(es, k).value);
      forall i | 0 <= i < |es| && es[i].key == k ensures i == j {}
    }
  }

  // A walk counts if it came back in time and within the node budget, and the
  // subgraph is the walk's, under the query's case and anchor.
  lemma FreshBuildOnFields(walk: Walk, trees: Trees, q: AdaptiveQuery, b: BuildBudget, g: Subgraph)
    ensures FreshBuild(walk, trees, q, b) == Some(g) <==>
      var w := walk(if q.caseId in trees then trees[q.caseId] else 0, ToTraversalQuery(q, b));
      && w.Some? && w.value.visited <= (if b.maxNodes <= 0 then 200 else b.maxNodes)
      && g == Subgraph(q.caseId, q.anchor, w.value.paths, Depth(q, b), w.value.visited, w.value.truncated, Built, 0)
  {
    hide Depth, ToTraversalQuery;
  }

  // Errors for a query without a case, then for one without an anchor; a served
  // entry under Cached; else the walk of this very query; else the fallback; and
  // failure only where all of these are missing.
  lemma BuildAnswers(walk: Walk, b: BuildBudget, s: State, c: BuildCall)
    ensures var r := BuildResult(walk, b, s, c);
      && (r == Err(EmptyCaseId) <==> c.q.caseId == "")
      && (r == Err(EmptyAnchor) <==> c.q.caseId != "" && c.q.anchor == "")
      && (r.Ok? && r.value.source == Cached ==>
            && CacheAnswer(b, s, c.q).Hit?
            && r.value.(source := Built) == CacheAnswer(b, s, c.q).subgraph.(source := Built))
      && (r.Ok? && r.value.source == Built ==>
            !c.interrupted && !c.late && FreshBuild(walk, s.trees, c.q, b) == Some(r.value))
      && (r.Ok? && r.value.source == Fallback ==>
            && c.fallback.Some? && (c.interrupted || c.late || FreshBuild(walk, s.trees, c.q, b) == None)
            && r.value == Subgraph(c.q.caseId, c.q.anchor, c.fallback.value.paths,
                                   if b.maxHops <= 0 then 4 else b.maxHops, c.fallback.value.nodes, false, Fallback, 0))
      && (r == Err(BuildFailed) <==>
            && c.q.caseId != "" && c.q.anchor != "" && !CacheAnswer(b, s, c.q).Hit? && c.fallback.None?
            && (c.interrupted || c.late || FreshBuild(walk, s.trees, c.q, b) == None))
      && (r.Ok? && CacheAnswer(b, s, c.q).Hit? ==> r.value.source == Cached)
  {
    hide CacheAnswer, Depth, ToTraversalQuery;
  }

  // A tree that changed is what the next build of its case walks, once the
  // revision is raised with it.
  lemma EditIsSeen(walk: Walk, b: BuildBudget, capacity: nat, s: State, t: Tree, r: int, c: BuildCall)
    requires Unstamped(s.entries) && r > 0 && c.q.caseId != "" && c.q.anchor != "" && !c.interrupted && !c.late
    ensures var w := walk(t, ToTraversalQuery(c.q, b));
      w.Some? && w.value.visited <= (if b.maxNodes <= 0 then 200 else b.maxNodes) ==>
        BuildResult(walk, b, After(walk, b, capacity, s, EditOp(c.q.caseId, t, r)), c) ==
        Ok(Subgraph(c.q.caseId, c.q.anchor, w.value.paths, Depth(c.q, b), w.value.visited, w.value.truncated, Built, 0))
  {
    hide Depth, ToTraversalQuery, ShapeKey, LookupResult, Find;
    var s' := After(walk, b, capacity, s, EditOp(c.q.caseId, t, r));
    HitMeans(b, s', c.q);
  }

  // ---------- what entries are stored under ----------

  function HopText(hops: seq<string>): string {
    if hops == [] then "" else "|" + (hops[0] + HopText(hops[1..]))
  }

  // The case, and in the key case, anchor, depth, hops and edge type with bars
  // between them.
  lemma KeyText(q: AdaptiveQuery, b: BuildBudget)
    ensures KeyOf(q, b) == CacheKey(q.caseId,
      q.caseId + ("|" + (q.anchor + ("|" + (Itoa(Depth(q, b)) + (HopText(q.hops) + ("|" + q.edgeType)))))))
  {
    hide Depth, Itoa, Join, HopText;
    var d := Itoa(Depth(q, b));
    HopsJoined(d, q.hops, q.edgeType);
    JoinCons(q.anchor, [d] + (q.hops + [q.edgeType]));
    JoinCons(q.caseId, [q.anchor] + ([d] + (q.hops + [q.edgeType])));
    assert ShapeParts(q, Depth(q, b)) == [q.caseId] + ([q.anchor] + ([d] + (q.hops + [q.edgeType])));
  }

  lemma {:induction false} HopsJoined(first: string, hops: seq<string>, last: string)
    ensures Join([first] + (hops + [last])) == first + (HopText(hops) + ("|" + last))
    decreases |hops|
  {
    hide Join, HopText;
    JoinCons(first, hops + [last]);
    HopTextStep(hops);
    if hops == [] {
      JoinCons(last, []);
      Regroup(first, "", "", last);
      assert hops + [last] == [last] + [];
    } else {
      HopsJoined(hops[0], hops[1..], last);
      assert hops + [last] == [hops[0]] + (hops[1..] + [last]);
      Regroup(first, hops[0], HopText(hops[1..]), "|" + last);
    }
  }

  lemma HopTextStep(hops: seq<string>)
    ensures HopText(hops) == if hops == [] then "" else "|" + (hops[0] + HopText(hops[1..]))
  {
  }

  lemma Regroup(a: string, b: string, c: string, d: string)
    ensures a + [SEP] + (b + (c + d)) == a + (("|" + (b + c)) + d)
    ensures a + [SEP] + d == a + ("" + ("|" + d))
  {
    assert a + [SEP] + (b + (c + d)) == a + ([SEP] + (b + (c + d))) && [SEP] == "|";
    assert [SEP] + (b + (c + d)) == ([SEP] + (b + c)) + d;
    assert a + [SEP] + d == a + ([SEP] + d) && "" + ("|" + d) == "|" + d;
  }

  // ---------- what is counted ----------

  const NOTHING_COUNTED: Telemetry := Telemetry(0, 0, 0, 0, 0, 0)

  // How many calls of the run were answered from this source.
  function Answered(walk: Walk, b: BuildBudget, capacity: nat, s: State, ops: Run, source: Source): nat {
    if ops == [] then 0
    else
      var n := |ops| - 1;
      var before := AfterAll(walk, b, capacity, s, ops[..n]);
      Answered(walk, b, capacity, s, ops[..n], source) +
        if ops[n].BuildOp? && BuildResult(walk, b, before, ops[n].c).Ok?
           && BuildResult(walk, b, before, ops[n].c).value.source == source then 1 else 0
  }

  function Valid(ops: Run): nat {
    if ops == [] then 0
    else
      var n := |ops| - 1;
      Valid(ops[..n]) + if ops[n].BuildOp? && ops[n].c.q.caseId != "" && ops[n].c.q.anchor != "" then 1 else 0
  }

  // The nodes a call walked, None when it walked none: answered from the cache,
  // cut off, or failed.
  function Walked(walk: Walk, b: BuildBudget, before: State, c: BuildCall): Option<int> {
    if c.q.caseId == "" || c.q.anchor == "" || CacheAnswer(b, before, c.q).Hit? || c.interrupted then None
    else match walk(TreeOf(before.trees, c.q.caseId), ToTraversalQuery(c.q, b))
      case None => None
      case Some(w) => Some(w.visited)
  }

  function Walks(walk: Walk, b: BuildBudget, capacity: nat, s: State, ops: Run): (nat, int) {
    if ops == [] then (0, 0)
    else
      var n := |ops| - 1;
      var (count, nodes) := Walks(walk, b, capacity, s, ops[..n]);
      var before := AfterAll(walk, b, capacity, s, ops[..n]);
      if ops[n].BuildOp? && Walked(walk, b, before, ops[n].c).Some?
      then (count + 1, nodes + Walked(walk, b, before, ops[n].c).value) else (count, nodes)
  }

  // How many calls found an entry that was out of date.
  function Refreshes(walk: Walk, b: BuildBudget, capacity: nat, s: State, ops: Run): nat {
    if ops == [] then 0
    else
      var n := |ops| - 1;
      var before := AfterAll(walk, b, capacity, s, ops[..n]);
      Refreshes(walk, b, capacity, s, ops[..n]) +
        if ops[n].BuildOp? && ops[n].c.q.caseId != "" && ops[n].c.q.anchor != ""
           && CacheAnswer(b, before, ops[n].c.q).Stale? then 1 else 0
  }

  // Every valid call is a hit or a miss; hits are the answers given as cached,
  // fallbacks those given as such; a walk that ended counts as a build even when
  // it is thrown away, and its nodes with it.
  lemma CountersCount(walk: Walk, b: BuildBudget, capacity: nat, s: State, ops: Run)
    requires s.telemetry == NOTHING_COUNTED
    ensures var t := AfterAll(walk, b, capacity, s, ops).telemetry;
      && t.hits + t.misses == Valid(ops)
      && t.hits == Answered(walk, b, capacity, s, ops, Cached)
      && t.fallbacks == Answered(walk, b, capacity, s, ops, Fallback)
      && (t.builds, t.nodesVisited) == Walks(walk, b, capacity, s, ops)
      && Answered(walk, b, capacity, s, ops, Built) <= t.builds
      && t.staleRefreshes == Refreshes(walk, b, capacity, s, ops) <= t.misses
  {
    hide AfterAll, Answered, Walks, Refreshes;
    AnswersCount(walk, b, capacity, s, ops);
    WalksCount(walk, b, capacity, s, ops);
  }

  lemma {:induction false} AnswersCount(walk: Walk, b: BuildBudget, capacity: nat, s: State, ops: Run)
    requires s.telemetry == NOTHING_COUNTED
    ensures var t := AfterAll(walk, b, capacity, s, ops).telemetry;
      && t.hits + t.misses == Valid(ops)
      && t.hits == Answered(walk, b, capacity, s, ops, Cached)
      && t.fallbacks == Answered(walk, b, capacity, s, ops, Fallback)
  {
    if ops != [] {
      hide BuildResult, Walked, After, TelemetryAfterBuild;
      var n := |ops| - 1;
      AnswersCount(walk, b, capacity, s, ops[..n]);
      var before := AfterAll(walk, b, capacity, s, ops[..n]);
      CountersAfter(walk, b, capacity, before, ops[n]);
      if ops[n].BuildOp? { OneCallCounts(walk, b, before, ops[n].c); }
    }
  }

  lemma {:induction false} WalksCount(walk: Walk, b: BuildBudget, capacity: nat, s: State, ops: Run)
    requires s.telemetry == NOTHING_COUNTED
    ensures var t := AfterAll(walk, b, capacity, s, ops).telemetry;
      && (t.builds, t.nodesVisited) == Walks(walk, b, capacity, s, ops)
      && Answered(walk, b, capacity, s, ops, Built) <= t.builds
      && t.staleRefreshes == Refreshes(walk, b, capacity, s, ops) <= t.misses
  {
    hide AfterAll, Walks, Answered, Refreshes, BuildResult, Walked, CacheAnswer, After, TelemetryAfterBuild;
    if ops == [] {
      NoOps(walk, b, capacity, s);
    } else {
      var n := |ops| - 1;
      WalksCount(walk, b, capacity, s, ops[..n]);
      var before := AfterAll(walk, b, capacity, s, ops[..n]);
      OneMoreOp(walk, b, capacity, s, ops);
      CountersAfter(walk, b, capacity, before, ops[n]);
      if ops[n].BuildOp? { OneCallCounts(walk, b, before, ops[n].c); }
    }
  }

  lemma NoOps(walk: Walk, b: BuildBudget, capacity: nat, s: State)
    ensures AfterAll(walk, b, capacity, s, []) == s && Walks(walk, b, capacity, s, []) == (0, 0)
    ensures Answered(walk, b, capacity, s, [], Built) == 0 == Refreshes(walk, b, capacity, s, [])
  {
  }

  lemma OneMoreOp(walk: Walk, b: BuildBudget, capacity: nat, s: State, ops: Run)
    requires ops != []
    ensures var n := |ops| - 1; var before := AfterAll(walk, b, capacity, s, ops[..n]);
      && AfterAll(walk, b, capacity, s, ops) == After(walk, b, capacity, before, ops[n])
      && Walks(walk, b, capacity, s, ops) ==
         (var w := Walks(walk, b, capacity, s, ops[..n]);
          if ops[n].BuildOp? && Walked(walk, b, before, ops[n].c).Some?
          then (w.0 + 1, w.1 + Walked(walk, b, before, ops[n].c).value) else w)
      && Answered(walk, b, capacity, s, ops, Built) ==
         Answered(walk, b, capacity, s, ops[..n], Built) +
         (if ops[n].BuildOp? && BuildResult(walk, b, before, ops[n].c).Ok?
             && BuildResult(walk, b, before, ops[n].c).value.source == Built then 1 else 0)
      && Refreshes(walk, b, capacity, s, ops) ==
         Refreshes(walk, b, capacity, s, ops[..n]) +
         (if ops[n].BuildOp? && ops[n].c.q.caseId != "" && ops[n].c.q.anchor != ""
             && CacheAnswer(b, before, ops[n].c.q).Stale? then 1 else 0)
  {
    hide After, Walked, BuildResult, CacheAnswer;
  }

  lemma CountersAfter(walk: Walk, b: BuildBudget, capacity: nat, s: State, op: RetrievalBuilder.Op)
    ensures After(walk, b, capacity, s, op).telemetry ==
            if op.BuildOp? then TelemetryAfterBuild(walk, b, s, op.c) else s.telemetry
  {
  }

  lemma OneCallCounts(walk: Walk, b: BuildBudget, s: State, c: BuildCall)
    ensures var t, r, w := TelemetryAfterBuild(walk, b, s, c), BuildResult(walk, b, s, c), Walked(walk, b, s, c);
      && t.hits == s.telemetry.hits + (if r.Ok? && r.value.source == Cached then 1 else 0)
      && t.fallbacks == s.telemetry.fallbacks + (if r.Ok? && r.value.source == Fallback then 1 else 0)
      && t.builds == s.telemetry.builds + (if w.Some? then 1 else 0)
      && t.nodesVisited == s.telemetry.nodesVisited + (if w.Some? then w.value else 0)
      && (r.Ok? && r.value.source == Built ==> w.Some?)
      && t.hits + t.misses == s.telemetry.hits + s.telemetry.misses
                              + (if c.q.caseId != "" && c.q.anchor != "" then 1 else 0)
      && t.misses >= s.telemetry.misses
      && t.staleRefreshes - s.telemetry.staleRefreshes ==
         (if c.q.caseId != "" && c.q.anchor != "" && CacheAnswer(b, s, c.q).Stale? then 1 else 0)
      && t.staleRefreshes - s.telemetry.staleRefreshes <= t.misses - s.telemetry.misses
  {
    hide CacheAnswer, Depth, ToTraversalQuery, MaxNodes;
  }
}
