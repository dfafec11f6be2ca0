// packages/adaptiveretrieval: query.go, depth.go, translate.go, builder.go. An
// adaptive build answered from the cache must be the walk it stands for.
module RetrievalBuilder {
  import opened Basics
  import opened Text
  import opened RetrievalCache

  // ---------- queries ----------

  datatype AdaptiveQuery = AdaptiveQuery(caseId: string, anchor: string, hops: seq<string>, vectorHits: int,
                                         edgeType: string)

  datatype BuildBudget = BuildBudget(maxNodes: int, maxHops: int)

  const DEFAULT_MAX_NODES: nat := 200
  const DEFAULT_MAX_HOPS: nat := 4
  const FEW_VECTOR_HITS: nat := 1
  const MANY_VECTOR_HITS: nat := 5

  function MaxNodes(b: BuildBudget): int {
    if b.maxNodes <= 0 then DEFAULT_MAX_NODES else b.maxNodes
  }

  function MaxHops(b: BuildBudget): nat {
    if b.maxHops <= 0 then DEFAULT_MAX_HOPS else b.maxHops
  }

  const GOVERNING_RULE: string := "governing_rule"
  const CONTROLLING_PRECEDENT: string := "controlling_precedent"
  const DISTINGUISHING_FACTS: string := "distinguishing_facts"
  const DEFAULT_HOPS: seq<string> := [GOVERNING_RULE, CONTROLLING_PRECEDENT, DISTINGUISHING_FACTS]

  function HopSequence(q: AdaptiveQuery): (s: seq<string>)
    ensures |s| > 0
  {
    if q.hops == [] then DEFAULT_HOPS else q.hops
  }

  function Max(a: int, b: int): int {
    if a > b then a else b
  }

  // AdaptiveDepth: how many hops of the sequence to walk.
  function Depth(q: AdaptiveQuery, b: BuildBudget): (d: nat)
    ensures d <= |HopSequence(q)|
  {
    var n := |HopSequence(q)|;
    var want := if q.vectorHits >= MANY_VECTOR_HITS then Max(1, n - 2)
                else if q.vectorHits > FEW_VECTOR_HITS then Max(1, n - 1) else n;
    if want > MaxHops(b) then MaxHops(b) else want
  }

  function WalkedHops(q: AdaptiveQuery, b: BuildBudget): seq<string> {
    HopSequence(q)[..Depth(q, b)]
  }

  // More corroborating hits never deepen the walk, which always takes at least
  // one hop and never more than the budget allows.
  lemma DepthBands(q: AdaptiveQuery, r: AdaptiveQuery, b: BuildBudget)
    requires q.hops == r.hops && q.vectorHits <= r.vectorHits
    ensures 1 <= Depth(r, b) <= Depth(q, b) <= MaxHops(b)
    ensures Depth(q, b) - Depth(r, b) <= 2
  {
  }

  // ---------- translation ----------

  datatype HopSpec = ViaGoverningRule | ViaControllingPrecedent | ViaDistinguishingFacts
  datatype TraversalQuery = TraversalQuery(caseId: string, start: string, hops: seq<HopSpec>, maxDepth: nat)

  function TranslateHops(hops: seq<string>): seq<HopSpec> {
    if hops == [] then []
    else
      var h, rest := hops[0], TranslateHops(hops[1..]);
      if h == GOVERNING_RULE then [ViaGoverningRule] + rest
      else if h == CONTROLLING_PRECEDENT then [ViaControllingPrecedent] + rest
      else if h == DISTINGUISHING_FACTS then [ViaDistinguishingFacts] + rest
      else rest
  }

  function ToTraversalQuery(q: AdaptiveQuery, b: BuildBudget): TraversalQuery {
    TraversalQuery(q.caseId, q.anchor, TranslateHops(WalkedHops(q, b)), Depth(q, b))
  }

  // ---------- the shape key ----------

  function ShapeParts(q: AdaptiveQuery, depth: nat): seq<string> {
    [q.caseId, q.anchor, Itoa(depth)] + q.hops + [q.edgeType]
  }

  function ShapeKey(q: AdaptiveQuery, depth: nat): string {
    Join(ShapeParts(q, depth))
  }

  predicate IsNumeral(s: string) {
    s != "" && forall i :: 0 <= i < |s| ==> '0' <= s[i] <= '9'
  }

  // The case is part of the cache key on its own, and the anchor may hold
  // anything: hops that are no numerals leave the depth as the last one.
  predicate KeyReadable(q: AdaptiveQuery) {
    PipeFree(q.edgeType) && forall i :: 0 <= i < |q.hops| ==> PipeFree(q.hops[i]) && !IsNumeral(q.hops[i])
  }

  // hybridretrieval.ExpansionHop.IsValid
  predicate Recognized(h: string) {
    h in {GOVERNING_RULE, CONTROLLING_PRECEDENT, DISTINGUISHING_FACTS}
  }

  // Whatever the anchor, queries in the vocabulary of hops are readable.
  lemma VocabularyReadable(q: AdaptiveQuery)
    requires PipeFree(q.edgeType) && forall i :: 0 <= i < |q.hops| ==> Recognized(q.hops[i])
    ensures KeyReadable(q)
  {
    assert PipeFree(GOVERNING_RULE) && PipeFree(CONTROLLING_PRECEDENT) && PipeFree(DISTINGUISHING_FACTS);
    assert GOVERNING_RULE[0] == 'g' && CONTROLLING_PRECEDENT[0] == 'c' && DISTINGUISHING_FACTS[0] == 'd';
    forall i | 0 <= i < |q.hops| ensures PipeFree(q.hops[i]) && !IsNumeral(q.hops[i]) {
      assert Recognized(q.hops[i]);
    }
  }

  // The last numeral before the final token is found at one place only.
  lemma LastNumeral(a: seq<string>, n: string, h: seq<string>, e: string,
                    c: seq<string>, m: string, k: seq<string>, f: string)
    requires a + [n] + h + [e] == c + [m] + k + [f]
    requires IsNumeral(n) && forall i :: 0 <= i < |h| ==> !IsNumeral(h[i])
    requires IsNumeral(m) && forall i :: 0 <= i < |k| ==> !IsNumeral(k[i])
    ensures a == c && n == m && h == k && e == f
  {
    hide IsNumeral;
    var s, t := a + [n] + h + [e], c + [m] + k + [f];
    assert s[|s| - 1] == e && t[|t| - 1] == f;
    assert s[..|a|] == a && t[..|c|] == c && s[|a|] == n && t[|c|] == m;
    assert forall i :: |a| < i < |s| - 1 ==> s[i] == h[i - |a| - 1];
    assert forall i :: |c| < i < |t| - 1 ==> t[i] == k[i - |c| - 1];
    assert |a| == |c|;
    assert s[|a| + 1..|s| - 1] == h && t[|c| + 1..|t| - 1] == k;
  }

  lemma NumeralItoa(n: nat)
    ensures IsNumeral(Itoa(n))
  {
    ItoaDigits(n);
  }

  predicate SharesEntry(q: AdaptiveQuery, r: AdaptiveQuery, b: BuildBudget) {
    q.caseId == r.caseId && ShapeKey(q, Depth(q, b)) == ShapeKey(r, Depth(r, b))
  }

  // What a key reads after the case: the tokens of the anchor, the depth, the
  // tokens of the hops and those of the edge type.
  function KeyTokens(q: AdaptiveQuery, d: nat): (ts: seq<string>)
    ensures Split(q.anchor) <= ts && |Split(q.anchor)| < |ts| - 1 && ts[|Split(q.anchor)|] == Itoa(d)
  {
    Split(q.anchor) + [Itoa(d)] + Tokens(q.hops) + Split(q.edgeType)
  }

  // Whatever the fields hold, keys of one case are equal exactly when they read
  // alike token by token.
  lemma SameKeyIff(q: AdaptiveQuery, d: nat, r: AdaptiveQuery, e: nat)
    requires q.caseId == r.caseId
    ensures ShapeKey(q, d) == ShapeKey(r, e) <==> KeyTokens(q, d) == KeyTokens(r, e)
  {
    hide Join, Tokens, Split, Itoa, KeyTokens;
    SameTokensSameText(ShapeParts(q, d), ShapeParts(r, e));
    ShapeTokens(q, d);
    ShapeTokens(r, e);
    var c, s, t := Split(q.caseId), KeyTokens(q, d), KeyTokens(r, e);
    assert (c + s)[|c|..] == s && (c + t)[|c|..] == t;
  }

  lemma ShapeTokens(q: AdaptiveQuery, d: nat)
    ensures Tokens(ShapeParts(q, d)) == Split(q.caseId) + KeyTokens(q, d)
  {
    hide Tokens, Split, Itoa, PipeFree;
    assert ShapeParts(q, d) == [q.caseId] + ([q.anchor] + ([Itoa(d)] + (q.hops + [q.edgeType])));
    TokensConcat([q.caseId], [q.anchor] + ([Itoa(d)] + (q.hops + [q.edgeType])));
    TokensConcat([q.anchor], [Itoa(d)] + (q.hops + [q.edgeType]));
    TokensConcat([Itoa(d)], q.hops + [q.edgeType]);
    TokensConcat(q.hops, [q.edgeType]);
    TokensOne(q.caseId);
    TokensOne(q.anchor);
    TokensOne(q.edgeType);
    TokensOfDepth(d);
  }

  lemma TokensOfDepth(d: nat)
    ensures Tokens([Itoa(d)]) == [Itoa(d)]
  {
    TokensOne(Itoa(d));
    ItoaPipeFree(d);
    SplitPipeFree(Itoa(d));
  }

  lemma ReadableTokens(q: AdaptiveQuery, d: nat)
    requires KeyReadable(q)
    ensures KeyTokens(q, d) == Split(q.anchor) + [Itoa(d)] + q.hops + [q.edgeType]
  {
    hide Tokens, Split, Itoa, PipeFree, IsNumeral;
    TokensPipeFree(q.hops);
    SplitPipeFree(q.edgeType);
  }

  // Queries that share a cache entry ask for the same walk.
  lemma EqualShapesEqualWalks(q: AdaptiveQuery, r: AdaptiveQuery, b: BuildBudget)
    requires KeyReadable(q) && KeyReadable(r) && q.caseId == r.caseId
    requires ShapeKey(q, Depth(q, b)) == ShapeKey(r, Depth(r, b))
    ensures ToTraversalQuery(q, b) == ToTraversalQuery(r, b)
    ensures q.anchor == r.anchor && q.hops == r.hops && Depth(q, b) == Depth(r, b)
  {
    hide Join, Tokens, Split, TranslateHops, Itoa, Depth, IsNumeral, PipeFree, ShapeKey, KeyTokens;
    var d, e := Depth(q, b), Depth(r, b);
    SameKeyIff(q, d, r, e);
    ReadableTokens(q, d);
    ReadableTokens(r, e);
    NumeralItoa(d);
    NumeralItoa(e);
    LastNumeral(Split(q.anchor), Itoa(d), q.hops, q.edgeType, Split(r.anchor), Itoa(e), r.hops, r.edgeType);
    SplitInjective(q.anchor, r.anchor);
    ItoaInjective(d, e);
  }

  // ---------- where a key that cannot be read back leads ----------

  // The place of the last numeral before the final token.
  function Cut(ts: seq<string>, n: nat): (p: nat)
    requires n < |ts|
    ensures p <= n
    ensures p > 0 ==> IsNumeral(ts[p])
    ensures forall i :: p < i <= n ==> !IsNumeral(ts[i])
  {
    if n == 0 || IsNumeral(ts[n]) then n else Cut(ts, n - 1)
  }

  function CutOf(q: AdaptiveQuery, b: BuildBudget): (p: nat)
    ensures |Split(q.anchor)| <= p < |KeyTokens(q, Depth(q, b))| - 1
  {
    var ts := KeyTokens(q, Depth(q, b));
    NumeralItoa(Depth(q, b));
    Cut(ts, |ts| - 2)
  }

  // The key of q read back: the last numeral is the depth, everything before it
  // the anchor, and the final token the edge type.
  function Reading(q: AdaptiveQuery, b: BuildBudget, hits: int): AdaptiveQuery {
    var ts, p := KeyTokens(q, Depth(q, b)), CutOf(q, b);
    AdaptiveQuery(q.caseId, Join(ts[..p]), ts[p + 1..|ts| - 1], hits, ts[|ts| - 1])
  }

  // The depth written in q's key is the one its reading walks.
  predicate ReadsBack(q: AdaptiveQuery, b: BuildBudget, hits: int) {
    KeyTokens(q, Depth(q, b))[CutOf(q, b)] == Itoa(Depth(Reading(q, b, hits), b))
  }

  lemma ReadingReadable(q: AdaptiveQuery, b: BuildBudget, hits: int)
    ensures KeyReadable(Reading(q, b, hits))
  {
    hide Join, Split, Tokens, Depth, IsNumeral, Itoa, PipeFree, KeyTokens;
    var ts, p := KeyTokens(q, Depth(q, b)), CutOf(q, b);
    KeyTokensPipeFree(q, Depth(q, b));
    var hops := ts[p + 1..|ts| - 1];
    assert forall i :: 0 <= i < |hops| ==> hops[i] == ts[p + 1 + i];
  }

  lemma KeyTokensPipeFree(q: AdaptiveQuery, d: nat)
    ensures forall i :: 0 <= i < |KeyTokens(q, d)| ==> PipeFree(KeyTokens(q, d)[i])
  {
    hide Split, Tokens, Itoa, PipeFree;
    SplitTokensPipeFree(q.anchor);
    SplitTokensPipeFree(q.edgeType);
    ItoaPipeFree(d);
    AllTokensPipeFree(q.hops);
  }

  lemma {:induction false} AllTokensPipeFree(fs: seq<string>)
    ensures forall i :: 0 <= i < |Tokens(fs)| ==> PipeFree(Tokens(fs)[i])
  {
    hide Split, PipeFree;
    if fs != [] {
      AllTokensPipeFree(fs[1..]);
      SplitTokensPipeFree(fs[0]);
    }
  }

  lemma ReadingTokens(q: AdaptiveQuery, b: BuildBudget, hits: int, e: nat)
    ensures var ts, p := KeyTokens(q, Depth(q, b)), CutOf(q, b);
      && Split(Reading(q, b, hits).anchor) == ts[..p]
      && KeyTokens(Reading(q, b, hits), e) == ts[..p] + [Itoa(e)] + ts[p + 1..]
  {
    hide Join, Split, Tokens, Depth, IsNumeral, Itoa, PipeFree, KeyTokens, CutOf;
    var ts, p, r := KeyTokens(q, Depth(q, b)), CutOf(q, b), Reading(q, b, hits);
    ReadingReadable(q, b, hits);
    ReadableTokens(r, e);
    KeyTokensPipeFree(q, Depth(q, b));
    TokensPipeFree(ts[..p]);
    SplitJoin(ts[..p]);
    assert ts[p + 1..] == ts[p + 1..|ts| - 1] + [ts[|ts| - 1]];
  }

  // Any query whatsoever shares its entry with a readable one exactly when that
  // one is its reading and walks to the depth the key shows.
  lemma SharesIffReading(q: AdaptiveQuery, r: AdaptiveQuery, b: BuildBudget)
    requires KeyReadable(r) && q.caseId == r.caseId
    ensures SharesEntry(q, r, b) <==> r == Reading(q, b, r.vectorHits) && ReadsBack(q, b, r.vectorHits)
  {
    hide Join, Split, Tokens, Depth, IsNumeral, Itoa, PipeFree, ShapeKey, KeyReadable, KeyTokens, CutOf, Reading;
    var ts, p, e := KeyTokens(q, Depth(q, b)), CutOf(q, b), Depth(r, b);
    SameKeyIff(q, Depth(q, b), r, e);
    ReadingTokens(q, b, r.vectorHits, e);
    if SharesEntry(q, r, b) { SharerIsReading(q, r, b); }
    assert ts == ts[..p] + [ts[p]] + ts[p + 1..];
  }

  lemma SharerIsReading(q: AdaptiveQuery, r: AdaptiveQuery, b: BuildBudget)
    requires KeyReadable(r) && q.caseId == r.caseId && KeyTokens(q, Depth(q, b)) == KeyTokens(r, Depth(r, b))
    ensures r == Reading(q, b, r.vectorHits) && ReadsBack(q, b, r.vectorHits)
  {
    hide Join, Split, Tokens, Depth, IsNumeral, Itoa, PipeFree, KeyTokens;
    var ts, p, e := KeyTokens(q, Depth(q, b)), CutOf(q, b), Depth(r, b);
    var hops, edge := ts[p + 1..|ts| - 1], ts[|ts| - 1];
    ReadableTokens(r, e);
    NumeralItoa(e);
    assert ts == ts[..p] + [ts[p]] + hops + [edge];
    assert forall i :: 0 <= i < |hops| ==> hops[i] == ts[p + 1 + i];
    LastNumeral(ts[..p], ts[p], hops, edge, Split(r.anchor), Itoa(e), r.hops, r.edgeType);
    JoinSplit(r.anchor);
  }

  // Vector hits tell only three depths apart.
  function Band(hits: int): (h: int)
    ensures h in {0, 2, 5}
  {
    if hits >= MANY_VECTOR_HITS then 5 else if hits > FEW_VECTOR_HITS then 2 else 0
  }

  lemma ReadsBackByBand(q: AdaptiveQuery, b: BuildBudget, hits: int)
    ensures ReadsBack(q, b, hits) <==> ReadsBack(q, b, Band(hits))
    ensures ToTraversalQuery(Reading(q, b, hits), b) == ToTraversalQuery(Reading(q, b, Band(hits)), b)
  {
    hide Join, KeyTokens, CutOf, TranslateHops, Itoa;
    var r := Reading(q, b, hits);
    assert Reading(q, b, Band(hits)) == r.(vectorHits := Band(hits));
    assert Depth(r, b) == Depth(r.(vectorHits := Band(hits)), b);
  }

  predicate ReadsElsewhere(q: AdaptiveQuery, b: BuildBudget, hits: int) {
    ReadsBack(q, b, hits) && ToTraversalQuery(Reading(q, b, hits), b) != ToTraversalQuery(q, b)
  }

  // Three numbers of hits stand for all.
  predicate Misread(q: AdaptiveQuery, b: BuildBudget) {
    ReadsElsewhere(q, b, 0) || ReadsElsewhere(q, b, 2) || ReadsElsewhere(q, b, 5)
  }

  // So any query shares its entry with a readable one that asks for another walk
  // exactly when it is misread.
  lemma SharedWithAnotherWalkIff(q: AdaptiveQuery, b: BuildBudget)
    ensures (exists r :: KeyReadable(r) && SharesEntry(q, r, b) && ToTraversalQuery(r, b) != ToTraversalQuery(q, b))
      <==> Misread(q, b)
  {
    hide SharesEntry, KeyReadable, ReadsBack, Reading, ToTraversalQuery;
    forall h: int | ReadsBack(q, b, h)
      ensures KeyReadable(Reading(q, b, h)) && SharesEntry(q, Reading(q, b, h), b)
    {
      ReadingCase(q, b, h);
      ReadingReadable(q, b, h);
      SharesIffReading(q, Reading(q, b, h), b);
    }
    forall r | KeyReadable(r) && SharesEntry(q, r, b)
      ensures ToTraversalQuery(r, b) != ToTraversalQuery(q, b) ==> ReadsElsewhere(q, b, Band(r.vectorHits))
    {
      SharersOfOneCase(q, r, b);
      SharesIffReading(q, r, b);
      ReadsBackByBand(q, b, r.vectorHits);
    }
  }

  lemma ReadableNotMisread(q: AdaptiveQuery, b: BuildBudget)
    requires KeyReadable(q)
    ensures !Misread(q, b)
  {
    hide KeyReadable, ShapeKey, ToTraversalQuery, Misread;
    SharedWithAnotherWalkIff(q, b);
    forall r | KeyReadable(r) && SharesEntry(q, r, b) ensures ToTraversalQuery(r, b) == ToTraversalQuery(q, b) {
      EqualShapesEqualWalks(q, r, b);
    }
  }

  lemma ReadingCase(q: AdaptiveQuery, b: BuildBudget, hits: int)
    ensures Reading(q, b, hits).caseId == q.caseId && Reading(q, b, hits).vectorHits == hits
  {
  }

  lemma SharersOfOneCase(q: AdaptiveQuery, r: AdaptiveQuery, b: BuildBudget)
    requires SharesEntry(q, r, b)
    ensures q.caseId == r.caseId
  {
  }

  lemma SharerHasAnchor(q: AdaptiveQuery, r: AdaptiveQuery, b: BuildBudget)
    requires KeyReadable(r) && SharesEntry(q, r, b) && q.anchor != ""
    ensures r.anchor != ""
  {
    hide Join, Split, Tokens, Depth, IsNumeral, Itoa, ShapeKey, KeyReadable, KeyTokens, CutOf, Reading;
    SharesIffReading(q, r, b);
    ReadingTokens(q, b, r.vectorHits, 0);
    var ts, n := KeyTokens(q, Depth(q, b)), |Split(q.anchor)|;
    SplitPipeFree("");
    if r.anchor == "" {
      assert n == 1 && Split(q.anchor)[0] == ts[0] == "";
      SplitInjective(q.anchor, "");
    }
  }

  // The query that reads the m-th hop as its depth and all before it as anchor.
  function Rest(q: AdaptiveQuery, b: BuildBudget, m: nat, hits: int): AdaptiveQuery
    requires m < |q.hops|
  {
    AdaptiveQuery(q.caseId, Join([q.anchor, Itoa(Depth(q, b))] + q.hops[..m]), q.hops[m + 1..], hits, q.edgeType)
  }

  lemma RestAnchorTokens(q: AdaptiveQuery, b: BuildBudget, m: nat, hits: int)
    requires m < |q.hops|
    ensures Split(Rest(q, b, m, hits).anchor) == Split(q.anchor) + [Itoa(Depth(q, b))] + Tokens(q.hops[..m])
  {
    hide Join, Split, Tokens, Depth, Itoa;
    var d := Itoa(Depth(q, b));
    SplitJoin([q.anchor, d] + q.hops[..m]);
    TokensConcat([q.anchor, d], q.hops[..m]);
    TokensConcat([q.anchor], [d]);
    assert [q.anchor] + [d] == [q.anchor, d];
    TokensOne(q.anchor);
    TokensOfDepth(Depth(q, b));
  }

  lemma TokensAround(fs: seq<string>, m: nat)
    requires m < |fs|
    ensures Tokens(fs) == Tokens(fs[..m]) + (Split(fs[m]) + Tokens(fs[m + 1..]))
  {
    hide Split, Tokens;
    Around(fs, m);
    TokensConcat(fs[..m], [fs[m]] + fs[m + 1..]);
    TokensConcat([fs[m]], fs[m + 1..]);
    TokensOne(fs[m]);
  }

  lemma Around<T>(s: seq<T>, m: nat)
    requires m < |s|
    ensures s == s[..m] + ([s[m]] + s[m + 1..])
  {
  }

  // A hop that is the depth of the query it leaves behind shares its entry with
  // that query, which asks for a walk from elsewhere.
  lemma NumeralHopSharesShape(q: AdaptiveQuery, b: BuildBudget, m: nat, hits: int)
    requires m < |q.hops| && q.hops[m] == Itoa(Depth(Rest(q, b, m, hits), b))
    ensures var r := Rest(q, b, m, hits);
      && ShapeKey(q, Depth(q, b)) == ShapeKey(r, Depth(r, b)) && r.anchor != q.anchor
      && ToTraversalQuery(q, b) != ToTraversalQuery(r, b)
  {
    hide Join, Split, Tokens, Itoa, Depth, TranslateHops, ShapeKey, PipeFree;
    var r := Rest(q, b, m, hits);
    RestAnchorTokens(q, b, m, hits);
    TokensAround(q.hops, m);
    ItoaPipeFree(Depth(r, b));
    SplitPipeFree(q.hops[m]);
    SameKeyIff(q, Depth(q, b), r, Depth(r, b));
    assert |Split(r.anchor)| > |Split(q.anchor)|;
  }

  // The smallest such pair; the hop "1" is none that the walker knows.
  lemma SharedShapeDifferentWalk()
    ensures var q := AdaptiveQuery("c", "n|1", [], 5, ""); var r := AdaptiveQuery("c", "n", ["1"], 5, "");
      var b := BuildBudget(0, 0);
      && ShapeKey(q, Depth(q, b)) == ShapeKey(r, Depth(r, b))
      && ToTraversalQuery(q, b) != ToTraversalQuery(r, b)
  {
    var q, r, b := AdaptiveQuery("c", "n|1", [], 5, ""), AdaptiveQuery("c", "n", ["1"], 5, ""), BuildBudget(0, 0);
    assert Depth(q, b) == 1 && Depth(r, b) == 1;
    assert Itoa(1) == "1";
    var x, y := ["c", "n|1", "1", ""], ["c", "n", "1", "1", ""];
    assert ShapeParts(q, 1) == x && ShapeParts(r, 1) == y;
    assert x[1..] == ["n|1", "1", ""] && x[1..][1..] == ["1", ""] && ["1", ""][1..] == [""];
    assert y[1..] == ["n", "1", "1", ""] && y[1..][1..] == ["1", "1", ""] && ["1", "1", ""][1..] == ["1", ""];
    assert Join(["1", ""]) == "1|";
    assert Join(["n|1", "1", ""]) == "n|1|1|" && Join(["1", "1", ""]) == "1|1|";
    assert Join(["n", "1", "1", ""]) == "n|1|1|";
  }

  // Known hops do not help against an edge type that holds a bar.
  lemma EdgeBarSharesShape()
    ensures var q := AdaptiveQuery("c", "n", [CONTROLLING_PRECEDENT], 0, "");
      var r := AdaptiveQuery("c", "n", [], 5, CONTROLLING_PRECEDENT + "|"); var b := BuildBudget(0, 0);
      && SharesEntry(q, r, b) && ToTraversalQuery(q, b) != ToTraversalQuery(r, b)
  {
    var q := AdaptiveQuery("c", "n", [CONTROLLING_PRECEDENT], 0, "");
    var r, b := AdaptiveQuery("c", "n", [], 5, CONTROLLING_PRECEDENT + "|"), BuildBudget(0, 0);
    assert Depth(q, b) == 1 && Depth(r, b) == 1;
    EdgeBarKeys();
    assert WalkedHops(q, b) == [CONTROLLING_PRECEDENT] && WalkedHops(r, b) == [GOVERNING_RULE];
    assert TranslateHops([CONTROLLING_PRECEDENT]) == [ViaControllingPrecedent];
    assert TranslateHops([GOVERNING_RULE]) == [ViaGoverningRule];
  }

  lemma EdgeBarKeys()
    ensures ShapeKey(AdaptiveQuery("c", "n", [CONTROLLING_PRECEDENT], 0, ""), 1) ==
            ShapeKey(AdaptiveQuery("c", "n", [], 5, CONTROLLING_PRECEDENT + "|"), 1)
  {
    hide Split, Tokens, Itoa, ShapeKey;
    var h := CONTROLLING_PRECEDENT;
    SameKeyIff(AdaptiveQuery("c", "n", [h], 0, ""), 1, AdaptiveQuery("c", "n", [], 5, h + "|"), 1);
    SplitConcat(h, "");
    assert h + [SEP] + "" == h + "|";
    TokensOne(h);
    TokensNone();
  }

  lemma TokensNone()
    ensures Tokens([]) == []
  {
  }

  // ---------- walks ----------

  datatype WalkResult = WalkResult(paths: seq<Path>, visited: int, truncated: bool)

  // traversal.Walker over one case's tree: a function of the tree and the query,
  // None standing for an error. The tree's content is abstracted to a value.
  type Tree = int
  type Walk = (Tree, TraversalQuery) -> Option<WalkResult>
  type Trees = map<string, Tree>

  function TreeOf(trees: Trees, caseId: string): Tree {
    if caseId in trees then trees[caseId] else 0
  }

  // What a walk of the case's current tree yields for q, when it stays in budget.
  function FreshBuild(walk: Walk, trees: Trees, q: AdaptiveQuery, b: BuildBudget): Option<Subgraph> {
    match walk(TreeOf(trees, q.caseId), ToTraversalQuery(q, b))
    case None => None
    case Some(w) =>
      if w.visited > MaxNodes(b) then None
      else Some(Subgraph(q.caseId, q.anchor, w.paths, Depth(q, b), w.visited, w.truncated, Built, 0))
  }

  // ---------- Build ----------

  datatype Error = EmptyCaseId | EmptyAnchor | BuildFailed
  datatype FallbackAnswer = FallbackAnswer(paths: seq<Path>, nodes: nat)

  datatype Telemetry = Telemetry(builds: nat, hits: nat, misses: nat, nodesVisited: int, fallbacks: nat,
                                 staleRefreshes: nat)

  // One Build call: the clock decides `interrupted` (the deadline cut the walk
  // off) and `late` (the walk came back after the deadline); `fallback` is the
  // treeindex answer, None without a usable index.
  datatype BuildCall = BuildCall(q: AdaptiveQuery, interrupted: bool, late: bool, fallback: Option<FallbackAnswer>)

  datatype State = State(entries: seq<CacheEntry>, revisions: Revisions, trees: Trees, telemetry: Telemetry)

  function QueryError(q: AdaptiveQuery): Option<Error> {
    if q.caseId == "" then Some(EmptyCaseId) else if q.anchor == "" then Some(EmptyAnchor) else None
  }

  function KeyOf(q: AdaptiveQuery, b: BuildBudget): CacheKey {
    CacheKey(q.caseId, ShapeKey(q, Depth(q, b)))
  }

  function CacheAnswer(b: BuildBudget, s: State, q: AdaptiveQuery): Lookup {
    LookupResult(s.entries, s.revisions, KeyOf(q, b))
  }

  // The subgraph build() returns, when it returns one.
  function BuildAnswer(walk: Walk, b: BuildBudget, s: State, c: BuildCall): Option<Subgraph> {
    if c.interrupted || c.late then None else FreshBuild(walk, s.trees, c.q, b)
  }

  function FallbackSubgraph(q: AdaptiveQuery, b: BuildBudget, f: FallbackAnswer): Subgraph {
    Subgraph(q.caseId, q.anchor, f.paths, MaxHops(b), f.nodes, false, Fallback, 0)
  }

  function BuildResult(walk: Walk, b: BuildBudget, s: State, c: BuildCall): Result<Subgraph, Error> {
    match QueryError(c.q)
    case Some(e) => Err(e)
    case None =>
      match CacheAnswer(b, s, c.q)
      case Hit(g) => Ok(g.(source := Cached))
      case _ =>
        match BuildAnswer(walk, b, s, c)
        case Some(g) => Ok(g)
        case None =>
          match c.fallback
          case None => Err(BuildFailed)
          case Some(f) => Ok(FallbackSubgraph(c.q, b, f))
  }

  function EntriesAfterBuild(walk: Walk, b: BuildBudget, capacity: nat, s: State, c: BuildCall): seq<CacheEntry> {
    if QueryError(c.q).Some? then s.entries
    else
      var k := KeyOf(c.q, b);
      var touched := AfterGet(s.entries, k);
      if CacheAnswer(b, s, c.q).Hit? then touched
      else
        match BuildAnswer(walk, b, s, c)
        case Some(g) => AfterPut(touched, capacity, k, g)
        case None => touched
  }

  function TelemetryAfterBuild(walk: Walk, b: BuildBudget, s: State, c: BuildCall): Telemetry {
    var t := s.telemetry;
    if QueryError(c.q).Some? then t
    else if CacheAnswer(b, s, c.q).Hit? then t.(hits := t.hits + 1)
    else
      var u := t.(misses := t.misses + 1,
                  staleRefreshes := t.staleRefreshes + if CacheAnswer(b, s, c.q).Stale? then 1 else 0);
      var v := if c.interrupted then u else
        match walk(TreeOf(s.trees, c.q.caseId), ToTraversalQuery(c.q, b))
        case None => u
        case Some(w) => u.(builds := u.builds + 1, nodesVisited := u.nodesVisited + w.visited);
      if BuildAnswer(walk, b, s, c).None? && c.fallback.Some? then v.(fallbacks := v.fallbacks + 1) else v
  }

  // The graph store the walker reads; cases change outside this package.
  class GraphStore {
    var trees: Trees

    constructor ()
      ensures trees == map[]
    {
      trees := map[];
    }
  }

  class Builder {
    const walk: Walk
    const budget: BuildBudget
    const store: GraphStore
    const cache: Cache
    var telemetry: Telemetry

    constructor (walk: Walk, budget: BuildBudget, store: GraphStore, cache: Cache)
      ensures this.walk == walk && this.budget == budget && this.store == store && this.cache == cache
      ensures telemetry == Telemetry(0, 0, 0, 0, 0, 0)
    {
      this.walk, this.budget, this.store, this.cache := walk, budget, store, cache;
      telemetry := Telemetry(0, 0, 0, 0, 0, 0);
    }

    ghost function Current(): State
      requires cache.Valid()
      reads this, cache, store
    {
      State(cache.Entries(), cache.revisions, store.trees, telemetry)
    }

    method Build(c: BuildCall) returns (r: Result<Subgraph, Error>)
      requires cache.Valid()
      modifies this, cache
      ensures cache.Valid()
      ensures r == BuildResult(walk, budget, old(Current()), c)
      ensures cache.Entries() == EntriesAfterBuild(walk, budget, cache.capacity, old(Current()), c)
      ensures telemetry == TelemetryAfterBuild(walk, budget, old(Current()), c)
      ensures cache.revisions == old(cache.revisions)
    {
      hide ShapeKey, AfterGet, AfterPut, Find, ToTraversalQuery, Depth, WalkedHops;
      var q := c.q;
      var invalid := QueryError(q);
      if invalid.Some? { return Err(invalid.value); }
      var depth := Depth(q, budget);
      var shape := ShapeKey(q, depth);
      var found := cache.Get(q.caseId, shape);
      match found {
        case Hit(g) =>
          telemetry := telemetry.(hits := telemetry.hits + 1);
          return Ok(g.(source := Cached));
        case Stale(_) =>
          telemetry := telemetry.(staleRefreshes := telemetry.staleRefreshes + 1);
        case Miss =>
      }
      telemetry := telemetry.(misses := telemetry.misses + 1);
      var built := BuildFresh(q, depth, c.interrupted, c.late);
      if built.Some? {
        cache.Put(q.caseId, shape, built.value);
        return Ok(built.value);
      }
      if c.fallback.None? { return Err(BuildFailed); }
      telemetry := telemetry.(fallbacks := telemetry.fallbacks + 1);
      r := Ok(FallbackSubgraph(q, budget, c.fallback.value));
    }

    // build(): the bounded walk itself. It never sets Revision.
    method BuildFresh(q: AdaptiveQuery, depth: nat, interrupted: bool, late: bool) returns (g: Option<Subgraph>)
      requires depth == Depth(q, budget)
      modifies this`telemetry
      ensures g == if interrupted || late then None else FreshBuild(walk, store.trees, q, budget)
      ensures telemetry ==
        if interrupted then old(telemetry) else
          match walk(TreeOf(store.trees, q.caseId), ToTraversalQuery(q, budget))
          case None => old(telemetry)
          case Some(w) => old(telemetry).(builds := old(telemetry).builds + 1,
                                          nodesVisited := old(telemetry).nodesVisited + w.visited)
    {
      if interrupted { return None; }
      var result := walk(TreeOf(store.trees, q.caseId), ToTraversalQuery(q, budget));
      if result.None? { return None; }
      var w := result.value;
      telemetry := telemetry.(builds := telemetry.builds + 1, nodesVisited := telemetry.nodesVisited + w.visited);
      if w.visited > MaxNodes(budget) { return None; }
      if late { return None; }
      g := Some(Subgraph(q.caseId, q.anchor, w.paths, depth, w.visited, w.truncated, Built, 0));
    }

    // ReindexOnRevision
    method SetRevision(caseId: string, revision: int) returns (ok: bool)
      requires cache.Valid()
      modifies cache
      ensures cache.Valid() && cache.Entries() == old(cache.Entries())
      ensures ok <==> caseId != ""
      ensures cache.revisions == if ok then old(cache.revisions)[caseId := revision] else old(cache.revisions)
    {
      ok := caseId != "";
      if ok { cache.SetRevision(caseId, revision); }
    }
  }

  // ---------- runs ----------

  datatype Op =
    | BuildOp(c: BuildCall)
    | RevisionOp(caseId: string, revision: int)
    | EditOp(caseId: string, tree: Tree, revision: int)   // the tree changes and SetRevision follows

  function After(walk: Walk, b: BuildBudget, capacity: nat, s: State, op: Op): State {
    match op
    case BuildOp(c) =>
      s.(entries := EntriesAfterBuild(walk, b, capacity, s, c), telemetry := TelemetryAfterBuild(walk, b, s, c))
    case RevisionOp(k, r) => s.(revisions := s.revisions[k := r])
    case EditOp(k, t, r) => s.(trees := s.trees[k := t], revisions := s.revisions[k := r])
  }

  // Revisions never go back, and a changed tree comes with a raised one.
  predicate Allowed(s: State, op: Op) {
    match op
    case BuildOp(c) => true
    case RevisionOp(k, r) => r >= RevisionFor(s.revisions, k)
    case EditOp(k, _, r) => r > RevisionFor(s.revisions, k)
  }

  function AfterAll(walk: Walk, b: BuildBudget, capacity: nat, s: State, ops: seq<Op>): State {
    if ops == [] then s else After(walk, b, capacity, AfterAll(walk, b, capacity, s, ops[..|ops| - 1]), ops[|ops| - 1])
  }

  predicate AllAllowed(walk: Walk, b: BuildBudget, capacity: nat, s: State, ops: seq<Op>) {
    forall i :: 0 <= i < |ops| ==> Allowed(AfterAll(walk, b, capacity, s, ops[..i]), ops[i])
  }

  predicate AllReadable(ops: seq<Op>) {
    forall i :: 0 <= i < |ops| && ops[i].BuildOp? ==> KeyReadable(ops[i].c.q)
  }

  // A cached entry is a walk of its case's tree: of the current one as long as
  // the case's revision has not been raised.
  ghost predicate Sound(walk: Walk, b: BuildBudget, s: State, e: CacheEntry) {
    && e.subgraph.revision == 0 && e.subgraph.visited <= MaxNodes(b)
    && RevisionFor(s.revisions, e.key.caseId) >= 0
    && (RevisionFor(s.revisions, e.key.caseId) == 0 ==> exists q :: Stands(walk, b, s.trees, e, q))
  }

  predicate Stands(walk: Walk, b: BuildBudget, trees: Trees, e: CacheEntry, q: AdaptiveQuery) {
    KeyReadable(q) && KeyOf(q, b) == e.key && FreshBuild(walk, trees, q, b) == Some(e.subgraph)
  }

  ghost predicate AllSound(walk: Walk, b: BuildBudget, s: State) {
    && (forall i :: 0 <= i < |s.entries| ==> Sound(walk, b, s, s.entries[i]))
    && (forall k :: k in s.revisions ==> s.revisions[k] >= 0)
  }

  lemma {:induction false} WithoutSubset(es: seq<CacheEntry>, k: CacheKey, e: CacheEntry)
    requires e in Without(es, k)
    ensures e in es
  {
    if es != [] && !(es[0].key != k && e == es[0]) {
      WithoutSubset(es[1..], k, e);
    }
  }

  // Whatever the call does, each entry it leaves was there before or is the
  // subgraph it has just built.
  lemma EntriesFromBuild(walk: Walk, b: BuildBudget, capacity: nat, s: State, c: BuildCall, e: CacheEntry)
    requires e in EntriesAfterBuild(walk, b, capacity, s, c)
    ensures e in s.entries ||
      (BuildAnswer(walk, b, s, c) == Some(e.subgraph) && e.key == KeyOf(c.q, b))
  {
    hide Without, Find, KeyOf, BuildAnswer, Join, ShapeKey;
    var k := KeyOf(c.q, b);
    var touched := AfterGet(s.entries, k);
    FindNone(s.entries, k);
    if e in touched && e !in s.entries {
      assert e in Without(s.entries, k);
      WithoutSubset(s.entries, k, e);
    }
    if e in Without(touched, k) { WithoutSubset(touched, k, e); }
  }

  lemma BuildKeepsSound(walk: Walk, b: BuildBudget, capacity: nat, s: State, c: BuildCall)
    requires AllSound(walk, b, s) && KeyReadable(c.q)
    ensures AllSound(walk, b, After(walk, b, capacity, s, BuildOp(c)))
  {
    hide EntriesAfterBuild, TelemetryAfterBuild, KeyReadable, KeyOf;
    var s' := After(walk, b, capacity, s, BuildOp(c));
    forall i | 0 <= i < |s'.entries| ensures Sound(walk, b, s', s'.entries[i]) {
      var e := s'.entries[i];
      EntriesFromBuild(walk, b, capacity, s, c, e);
      if e in s.entries {
        var k :| 0 <= k < |s.entries| && s.entries[k] == e;
        assert Sound(walk, b, s, s.entries[k]);
      } else {
        assert Stands(walk, b, s.trees, e, c.q);
      }
    }
  }

  lemma RevisionKeepsSound(walk: Walk, b: BuildBudget, capacity: nat, s: State, op: Op)
    requires AllSound(walk, b, s) && Allowed(s, op) && !op.BuildOp?
    ensures AllSound(walk, b, After(walk, b, capacity, s, op))
  {
    hide KeyReadable, KeyOf;
    var s' := After(walk, b, capacity, s, op);
    forall i | 0 <= i < |s'.entries| ensures Sound(walk, b, s', s'.entries[i]) {
      var e := s.entries[i];
      assert Sound(walk, b, s, e);
      if RevisionFor(s'.revisions, e.key.caseId) == 0 {
        var q :| Stands(walk, b, s.trees, e, q);
        StandsInCase(walk, b, s.trees, s'.trees, e, q);
      }
    }
  }

  lemma StandsInCase(walk: Walk, b: BuildBudget, trees: Trees, trees': Trees, e: CacheEntry, q: AdaptiveQuery)
    requires Stands(walk, b, trees, e, q) && TreeOf(trees, e.key.caseId) == TreeOf(trees', e.key.caseId)
    ensures Stands(walk, b, trees', e, q)
  {
  }

  const NOTHING_BUILT: State := State([], map[], map[], Telemetry(0, 0, 0, 0, 0, 0))

  lemma {:induction false} RunSound(walk: Walk, b: BuildBudget, capacity: nat, s: State, ops: seq<Op>)
    requires s.entries == [] && s.revisions == map[] && AllAllowed(walk, b, capacity, s, ops) && AllReadable(ops)
    ensures AllSound(walk, b, AfterAll(walk, b, capacity, s, ops))
  {
    hide After, Sound, Allowed, KeyReadable;
    if ops != [] {
      var n := |ops| - 1;
      var init, op := ops[..n], ops[n];
      forall i | 0 <= i < n ensures Allowed(AfterAll(walk, b, capacity, s, init[..i]), init[i]) {
        assert init[..i] == ops[..i];
        assert Allowed(AfterAll(walk, b, capacity, s, ops[..i]), ops[i]);
      }
      RunSound(walk, b, capacity, s, init);
      StepSound(walk, b, capacity, AfterAll(walk, b, capacity, s, init), op);
    }
  }

  lemma StepSound(walk: Walk, b: BuildBudget, capacity: nat, s: State, op: Op)
    requires AllSound(walk, b, s) && Allowed(s, op) && (op.BuildOp? ==> KeyReadable(op.c.q))
    ensures AllSound(walk, b, After(walk, b, capacity, s, op))
  {
    hide AllSound, After, KeyReadable;
    match op {
      case BuildOp(c) => BuildKeepsSound(walk, b, capacity, s, c);
      case _ => RevisionKeepsSound(walk, b, capacity, s, op);
    }
  }

  // Cache transparency: after any allowed run, a subgraph that Build returns as
  // built or cached is, up to Source, a fresh walk of the case's current tree
  // for that very query, and visits no more nodes than the budget allows.
  lemma {:induction false} CacheTransparent(walk: Walk, b: BuildBudget, capacity: nat, s: State, ops: seq<Op>,
                                            c: BuildCall)
    requires s.entries == [] && s.revisions == map[] && AllAllowed(walk, b, capacity, s, ops)
    requires AllReadable(ops) && !Misread(c.q, b)
    ensures var now := AfterAll(walk, b, capacity, s, ops);
      var r := BuildResult(walk, b, now, c);
      r.Ok? && r.value.source != Fallback ==>
        r.value.visited <= MaxNodes(b) && FreshBuild(walk, now.trees, c.q, b) == Some(r.value.(source := Built))
  {
    hide After, AllAllowed, KeyReadable, Misread;
    RunSound(walk, b, capacity, s, ops);
    var now := AfterAll(walk, b, capacity, s, ops);
    if QueryError(c.q) == None && CacheAnswer(b, now, c.q).Hit? {
      HitIsFresh(walk, b, now, c.q);
    }
  }

  lemma HitIsFresh(walk: Walk, b: BuildBudget, s: State, q: AdaptiveQuery)
    requires AllSound(walk, b, s) && !Misread(q, b) && CacheAnswer(b, s, q).Hit?
    ensures FreshBuild(walk, s.trees, q, b) == Some(CacheAnswer(b, s, q).subgraph)
    ensures RevisionFor(s.revisions, q.caseId) == 0
  {
    hide Join, Find, KeyReadable, Depth, ShapeKey, TranslateHops, Misread, WalkedHops;
    var k := KeyOf(q, b);
    FindNone(s.entries, k);
    var e := CacheEntry(k, Find(s.entries, k).value);
    var i :| 0 <= i < |s.entries| && s.entries[i] == e;
    assert Sound(walk, b, s, s.entries[i]);
    var r :| Stands(walk, b, s.trees, e, r);
    SharedWithAnotherWalkIff(q, b);
    assert SharesEntry(q, r, b);
  }

  // And no more can be had: a misread query is served another query's walk, in
  // the shortest of runs, for some behaviour of the walker.
  lemma MisreadIsServedWrong(q: AdaptiveQuery, b: BuildBudget, capacity: nat)
    returns (walk: Walk, r: AdaptiveQuery)
    requires Misread(q, b) && QueryError(q) == None && capacity > 0
    ensures KeyReadable(r)
    ensures var now := AfterAll(walk, b, capacity, NOTHING_BUILT, [BuildOp(BuildCall(r, false, false, None))]);
      var answer := BuildResult(walk, b, now, BuildCall(q, false, false, None));
      && answer.Ok? && answer.value.source == Cached
      && FreshBuild(walk, now.trees, q, b) != Some(answer.value.(source := Built))
  {
    hide Misread, KeyReadable, ShapeKey, Depth, WalkedHops, TranslateHops;
    SharedWithAnotherWalkIff(q, b);
    r :| KeyReadable(r) && SharesEntry(q, r, b) && ToTraversalQuery(r, b) != ToTraversalQuery(q, b);
    var target := ToTraversalQuery(r, b);
    walk := (tree, t) => if t == target then Some(WalkResult([], 0, false)) else None;
    SharerHasAnchor(q, r, b);
    var c, first := BuildCall(r, false, false, None), [BuildOp(BuildCall(r, false, false, None))];
    assert first[..0] == [] && AfterAll(walk, b, capacity, NOTHING_BUILT, []) == NOTHING_BUILT;
    var k := KeyOf(r, b);
    var g := FreshBuild(walk, map[], r, b).value;
    assert AfterGet([], k) == [] && AfterPut([], capacity, k, g) == [CacheEntry(k, g)];
    assert KeyOf(q, b) == k;
  }

  // ---------- the revision a build never carries ----------

  ghost predicate Unstamped(es: seq<CacheEntry>) {
    forall i :: 0 <= i < |es| ==> es[i].subgraph.revision == 0
  }

  lemma {:induction false} RunUnstamped(walk: Walk, b: BuildBudget, capacity: nat, s: State, ops: seq<Op>)
    requires Unstamped(s.entries)
    ensures Unstamped(AfterAll(walk, b, capacity, s, ops).entries)
  {
    hide EntriesAfterBuild, TelemetryAfterBuild, KeyOf, BuildAnswer;
    if ops != [] {
      var n := |ops| - 1;
      RunUnstamped(walk, b, capacity, s, ops[..n]);
      var before, now := AfterAll(walk, b, capacity, s, ops[..n]), AfterAll(walk, b, capacity, s, ops);
      forall i | 0 <= i < |now.entries| ensures now.entries[i].subgraph.revision == 0 {
        if ops[n].BuildOp? {
          EntriesFromBuild(walk, b, capacity, before, ops[n].c, now.entries[i]);
          AnswerUnstamped(walk, b, before, ops[n].c);
        }
      }
    }
  }

  lemma AnswerUnstamped(walk: Walk, b: BuildBudget, s: State, c: BuildCall)
    ensures BuildAnswer(walk, b, s, c).Some? ==> BuildAnswer(walk, b, s, c).value.revision == 0
  {
    hide ToTraversalQuery, Depth;
  }

  // So a case's entries are served only while its revision is not above 0, on
  // every run and whatever the queries: from the first raise on, every Build of
  // the case walks again, though each result is cached anew.
  lemma {:induction false} HitsOnlyAtRevisionZero(walk: Walk, b: BuildBudget, capacity: nat, s: State, ops: seq<Op>,
                                                  q: AdaptiveQuery)
    requires s.entries == []
    ensures var now := AfterAll(walk, b, capacity, s, ops);
      CacheAnswer(b, now, q).Hit? <==>
        Find(now.entries, KeyOf(q, b)).Some? && RevisionFor(now.revisions, q.caseId) <= 0
  {
    hide AfterAll, Find, KeyOf;
    RunUnstamped(walk, b, capacity, s, ops);
    var now := AfterAll(walk, b, capacity, s, ops);
    HitMeans(b, now, q);
  }

  lemma HitMeans(b: BuildBudget, s: State, q: AdaptiveQuery)
    requires Unstamped(s.entries)
    ensures CacheAnswer(b, s, q).Hit? <==>
            Find(s.entries, KeyOf(q, b)).Some? && RevisionFor(s.revisions, q.caseId) <= 0
  {
    hide Find, ShapeKey, Depth;
    var k := KeyOf(q, b);
    FindNone(s.entries, k);
    if Find(s.entries, k).Some? {
      var i :| 0 <= i < |s.entries| && s.entries[i] == CacheEntry(k, Find(s.entries, k).value);
    }
  }

  // Once the revision is raised, building twice in a row misses twice.
  lemma RaisedCaseMissesAgain(walk: Walk, b: BuildBudget, capacity: nat, s: State, c: BuildCall)
    requires s.entries == [] && capacity > 0 && QueryError(c.q) == None
    requires BuildAnswer(walk, b, s, c).Some?
    ensures var ops := [RevisionOp(c.q.caseId, 1), BuildOp(c)];
      var now := AfterAll(walk, b, capacity, s, ops);
      Find(now.entries, KeyOf(c.q, b)).Some? && CacheAnswer(b, now, c.q).Stale?
  {
    hide KeyOf, FreshBuild, TelemetryAfterBuild;
    var ops := [RevisionOp(c.q.caseId, 1), BuildOp(c)];
    var first := [RevisionOp(c.q.caseId, 1)];
    assert ops[..1] == first && first[..0] == [] && AfterAll(walk, b, capacity, s, []) == s;
    var t := AfterAll(walk, b, capacity, s, ops[..1]);
    assert t == s.(revisions := s.revisions[c.q.caseId := 1]);
    assert BuildAnswer(walk, b, t, c) == BuildAnswer(walk, b, s, c);
    AnswerUnstamped(walk, b, s, c);
    var k, g := KeyOf(c.q, b), BuildAnswer(walk, b, s, c).value;
    assert AfterGet(t.entries, k) == [];
    assert AfterPut([], capacity, k, g) == [CacheEntry(k, g)];
    KeyOfCase(c.q, b);
  }

  lemma KeyOfCase(q: AdaptiveQuery, b: BuildBudget)
    ensures KeyOf(q, b).caseId == q.caseId
  {
  }
}
