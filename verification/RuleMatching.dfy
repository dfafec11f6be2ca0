// packages/application: match.go, and the selection in service.go.
// Rules are scored against an issue by shared words, sorted by a hand-written
// insertion sort, and the best positive ones kept. Scores are reals.
module RuleMatching {
  import opened Basics
  import opened Text
  import Sorting

  datatype OriginatedRule = OriginatedRule(id: string, text: string)
  datatype RuleMatch = RuleMatch(rule: OriginatedRule, score: real)
  datatype Error = EmptyInput | CyclicChain | NoMatchingRules

  // ---------- words ----------

  predicate IsWordChar(c: char) {
    'a' <= c <= 'z' || '0' <= c <= '9'
  }

  // The words of a text, with the word under way at its end kept apart.
  function Words(s: string): (set<string>, string) {
    if s == "" then ({}, "")
    else
      var (done, current) := Words(s[..|s| - 1]);
      var c := s[|s| - 1];
      if IsWordChar(c) then (done, current + [c])
      else (if current == "" then done else done + {current}, "")
  }

  function Tokenize(text: string): set<string> {
    var (done, current) := Words(ToLower(text));
    if current == "" then done else done + {current}
  }

  // ---------- overlap ----------

  function Smaller(a: nat, b: nat): nat {
    if a <= b then a else b
  }

  function Overlap(a: set<string>, b: set<string>): real {
    if a == {} || b == {} then 0.0 else |a * b| as real / Smaller(|a|, |b|) as real
  }

  method TokenOverlapScore(a: set<string>, b: set<string>) returns (score: real)
    ensures score == Overlap(a, b)
  {
    if |a| == 0 || |b| == 0 { return 0.0; }
    var small, large := a, b;
    if |b| < |a| { small, large := b, a; }
    var shared := 0;
    var todo := small;
    while todo != {}
      invariant todo <= small && shared == |(small - todo) * large|
      decreases |todo|
    {
      var token :| token in todo;
      OneMoreShared(small, large, todo, token);
      todo := todo - {token};
      if token in large { shared := shared + 1; }
    }
    AllShared(small, large, a, b);
    score := shared as real / |small| as real;
  }

  lemma OneMoreShared(small: set<string>, large: set<string>, todo: set<string>, token: string)
    requires token in todo && todo <= small
    ensures |(small - (todo - {token})) * large| == |(small - todo) * large| + if token in large then 1 else 0
  {
    var seen := (small - todo) * large;
    if token in large {
      assert (small - (todo - {token})) * large == seen + {token};
    } else {
      assert (small - (todo - {token})) * large == seen;
    }
  }

  lemma AllShared(small: set<string>, large: set<string>, a: set<string>, b: set<string>)
    requires (small, large) == (a, b) || (small, large) == (b, a)
    ensures (small - {}) * large == a * b
  {
  }

  lemma SubsetCard(a: set<string>, b: set<string>)
    requires a <= b
    ensures |a| <= |b| && (|a| == |b| ==> a == b)
  {
    assert b == a + (b - a);
    assert |b| == |a| + |b - a|;
  }

  // The score is symmetric and lies between 0 and 1; it is 0 exactly for sets
  // without a common word, and on non-empty sets 1 exactly where one contains
  // the other.
  lemma OverlapMeans(a: set<string>, b: set<string>)
    ensures Overlap(a, b) == Overlap(b, a)
    ensures 0.0 <= Overlap(a, b) <= 1.0
    ensures Overlap(a, b) == 0.0 <==> a * b == {}
    ensures a != {} && b != {} ==> (Overlap(a, b) == 1.0 <==> a <= b || b <= a)
  {
    assert a * b == b * a;
    SubsetCard(a * b, a);
    SubsetCard(a * b, b);
    if a != {} && b != {} {
      var n, m := |a * b| as real, Smaller(|a|, |b|) as real;
      QuotientMeans(n, m);
      assert a <= b ==> a * b == a;
      assert b <= a ==> a * b == b;
      if a <= b { SubsetCard(a, b); }
      if b <= a { SubsetCard(b, a); }
      assert a * b == {} <==> |a * b| == 0;
    }
  }

  lemma QuotientMeans(n: real, m: real)
    requires 0.0 <= n <= m && m > 0.0
    ensures 0.0 <= n / m <= 1.0 && (n / m == 0.0 <==> n == 0.0) && (n / m == 1.0 <==> n == m)
  {
    assert n / m * m == n;
  }

  // ---------- the sort ----------

  function Higher(): (RuleMatch, RuleMatch) -> bool {
    (x: RuleMatch, y: RuleMatch) => x.score > y.score
  }

  lemma {:induction false} InsertIs(s: seq<RuleMatch>, x: RuleMatch, k: nat)
    requires k <= |s| && (k > 0 ==> !Higher()(x, s[k - 1])) && forall i :: k <= i < |s| ==> Higher()(x, s[i])
    ensures Sorting.Insert(s, x, Higher()) == s[..k] + [x] + s[k..]
  {
    if k == |s| {
      assert s[..k] == s && s[k..] == [];
    } else {
      var t := s[..|s| - 1];
      InsertIs(t, x, k);
      assert t[..k] == s[..k] && t[k..] + [s[|s| - 1]] == s[k..];
    }
  }

  // The sorted prefix p with x on its way down, j elements before it.
  function Sinking(p: seq<RuleMatch>, x: RuleMatch, j: nat, rest: seq<RuleMatch>): (r: seq<RuleMatch>)
    requires j <= |p|
    ensures |r| == |p| + 1 + |rest| && r[j] == x
    ensures j > 0 ==> r[j - 1] == p[j - 1]
  {
    p[..j] + [x] + p[j..] + rest
  }

  lemma Swapped(p: seq<RuleMatch>, x: RuleMatch, j: nat, rest: seq<RuleMatch>)
    requires 0 < j <= |p|
    ensures var r := Sinking(p, x, j, rest);
      Sinking(p, x, j - 1, rest) == r[j := r[j - 1]][j - 1 := r[j]]
  {
  }

  lemma Sunk(was: seq<RuleMatch>, i: nat, p: seq<RuleMatch>, j: nat)
    requires i < |was|
    requires j <= i && p == Sorting.StableSort(was[..i], Higher())
    requires j > 0 ==> !(was[i].score > p[j - 1].score)
    requires forall k :: j <= k < i ==> was[i].score > p[k].score
    ensures var r := Sinking(p, was[i], j, was[i + 1..]);
      r[..i + 1] == Sorting.StableSort(was[..i + 1], Higher()) && r[i + 1..] == was[i + 1..]
  {
    hide Sorting.StableSort, Sorting.Insert;
    forall k | j <= k < |p| ensures Higher()(was[i], p[k]) {
      assert was[i].score > p[k].score;
    }
    InsertIs(p, was[i], j);
    SortOneMore(was, i);
  }

  method SortMatchesDescending(a: array<RuleMatch>)
    modifies a
    ensures a[..] == Sorting.StableSort(old(a[..]), Higher())
  {
    hide Sorting.Insert, Sorting.StableSort, Sinking;
    ghost var was := a[..];
    NothingToSort(was);
    for i := 0 to a.Length
      invariant a[..i] == Sorting.StableSort(was[..i], Higher())
      invariant a[i..] == was[i..]
    {
      ghost var p := a[..i];
      var j := i;
      StartsSinking(a[..], was, i);
      while j > 0 && a[j].score > a[j - 1].score
        invariant 0 <= j <= i
        invariant a[..] == Sinking(p, was[i], j, was[i + 1..])
        invariant forall k :: j <= k < i ==> was[i].score > p[k].score
      {
        Swapped(p, was[i], j, was[i + 1..]);
        ghost var before := a[..];
        a[j], a[j - 1] := a[j - 1], a[j];
        assert a[..] == before[j := before[j - 1]][j - 1 := before[j]];
        j := j - 1;
      }
      Sunk(was, i, p, j);
      assert a[..][..i + 1] == a[..i + 1] && a[..][i + 1..] == a[i + 1..];
    }
    assert was[..a.Length] == was;
    assert a[..a.Length] == a[..];
  }

  lemma StartsSinking(now: seq<RuleMatch>, was: seq<RuleMatch>, i: nat)
    requires i < |now| == |was| && now[i..] == was[i..]
    ensures now == Sinking(now[..i], was[i], i, was[i + 1..])
  {
    assert now[i] == was[i..][0] == was[i];
    assert now[i + 1..] == was[i..][1..] == was[i + 1..];
  }

  lemma NothingToSort(s: seq<RuleMatch>)
    ensures Sorting.StableSort(s[..0], Higher()) == []
  {
  }

  lemma SortOneMore(s: seq<RuleMatch>, i: nat)
    requires i < |s|
    ensures Sorting.StableSort(s[..i + 1], Higher()) ==
            Sorting.Insert(Sorting.StableSort(s[..i], Higher()), s[i], Higher())
  {
    assert s[..i + 1][..i] == s[..i];
  }

  lemma HigherIsOrder()
    ensures Sorting.StrictWeakOrder(Higher())
  {
  }

  // Descending, a permutation, and matches of one score keep their order.
  lemma SortedStably(s: seq<RuleMatch>, score: real)
    ensures var r := Sorting.StableSort(s, Higher());
      && multiset(r) == multiset(s)
      && (forall i, j :: 0 <= i < j < |r| ==> r[i].score >= r[j].score)
      && Sorting.Filter(r, (m: RuleMatch) => m.score == score) == Sorting.Filter(s, (m: RuleMatch) => m.score == score)
  {
    hide Sorting.Filter, Sorting.StableSort;
    HigherIsOrder();
    Sorting.SortSorts(s, Higher());
    Sorting.SortPermutes(s, Higher());
    Sorting.SortIsStable(s, Higher(), (m: RuleMatch) => m.score == score);
  }

  // ---------- where a match ends up ----------

  // How many of s score at least as high as x, and how many higher.
  function AtLeast(s: seq<RuleMatch>, x: RuleMatch): nat {
    if s == [] then 0 else AtLeast(s[..|s| - 1], x) + if s[|s| - 1].score >= x.score then 1 else 0
  }

  function Above(s: seq<RuleMatch>, x: RuleMatch): nat {
    if s == [] then 0 else Above(s[..|s| - 1], x) + if s[|s| - 1].score > x.score then 1 else 0
  }

  // Ahead of the i-th match: the higher ones, and the equal ones before it.
  function Rank(s: seq<RuleMatch>, i: nat): nat
    requires i < |s|
  {
    AtLeast(s[..i], s[i]) + Above(s[i + 1..], s[i])
  }

  lemma {:induction false} AtLeastConcat(a: seq<RuleMatch>, b: seq<RuleMatch>, x: RuleMatch)
    ensures AtLeast(a + b, x) == AtLeast(a, x) + AtLeast(b, x)
  {
    if b == [] {
      assert a + b == a;
    } else {
      assert (a + b)[..|a + b| - 1] == a + b[..|b| - 1];
      AtLeastConcat(a, b[..|b| - 1], x);
    }
  }

  lemma {:induction false} AtLeastAll(s: seq<RuleMatch>, x: RuleMatch, all: bool)
    requires forall i :: 0 <= i < |s| ==> (s[i].score >= x.score) == all
    ensures AtLeast(s, x) == if all then |s| else 0
  {
    if s != [] { AtLeastAll(s[..|s| - 1], x, all); }
  }

  lemma {:induction false} SortKeepsAtLeast(s: seq<RuleMatch>, x: RuleMatch)
    ensures AtLeast(Sorting.StableSort(s, Higher()), x) == AtLeast(s, x)
  {
    hide Sorting.Insert;
    if s != [] {
      var t, y := s[..|s| - 1], s[|s| - 1];
      var p := Sorting.StableSort(t, Higher());
      SortKeepsAtLeast(t, x);
      var k := Sorting.InsertSplits(p, y, Higher());
      AtLeastConcat(p[..k] + [y], p[k..], x);
      AtLeastConcat(p[..k], [y], x);
      AtLeastConcat(p[..k], p[k..], x);
      assert p == p[..k] + p[k..];
      assert [y][..0] == [];
    }
  }

  // The last match is inserted right behind those that score at least as high.
  lemma InsertionPoint(t: seq<RuleMatch>, x: RuleMatch) returns (k: nat)
    ensures k == AtLeast(t, x) <= |t|
    ensures var p := Sorting.StableSort(t, Higher());
      && Sorting.Insert(p, x, Higher()) == p[..k] + [x] + p[k..]
      && (forall i :: 0 <= i < k ==> p[i].score >= x.score) && (forall i :: k <= i < |p| ==> p[i].score < x.score)
  {
    hide Sorting.StableSort, Sorting.Insert, AtLeast;
    var p := Sorting.StableSort(t, Higher());
    HigherIsOrder();
    Sorting.SortSorts(t, Higher());
    k := Sorting.InsertSplits(p, x, Higher());
    if k > 0 { assert forall i :: 0 <= i < k - 1 ==> !Higher()(p[k - 1], p[i]); }
    SortKeepsAtLeast(t, x);
    AtLeastConcat(p[..k], p[k..], x);
    AtLeastAll(p[..k], x, true);
    AtLeastAll(p[k..], x, false);
    assert p == p[..k] + p[k..];
  }

  lemma RankOfLast(s: seq<RuleMatch>)
    requires s != []
    ensures Rank(s, |s| - 1) == AtLeast(s[..|s| - 1], s[|s| - 1])
  {
  }

  lemma RankOfOther(s: seq<RuleMatch>, i: nat)
    requires i < |s| - 1
    ensures Rank(s, i) == Rank(s[..|s| - 1], i) + if s[|s| - 1].score > s[i].score then 1 else 0
  {
    var t := s[..|s| - 1];
    assert t[..i] == s[..i];
    assert s[i + 1..][..|s| - i - 2] == t[i + 1..];
  }

  // The sort puts every match at its rank ...
  lemma {:induction false} SortPlacesByRank(s: seq<RuleMatch>, i: nat)
    requires i < |s|
    ensures Rank(s, i) < |s| && Sorting.StableSort(s, Higher())[Rank(s, i)] == s[i]
    decreases |s|
  {
    hide Sorting.Insert, Rank, AtLeast;
    var n := |s| - 1;
    var t, x := s[..n], s[n];
    var k := InsertionPoint(t, x);
    if i == n {
      RankOfLast(s);
    } else {
      SortPlacesByRank(t, i);
      RankOfOther(s, i);
    }
  }

  // ... and every place is some match's rank.
  lemma {:induction false} RankIsOnto(s: seq<RuleMatch>, pos: nat) returns (i: nat)
    requires pos < |s|
    ensures i < |s| && Rank(s, i) == pos
    decreases |s|
  {
    hide Sorting.Insert, Rank, AtLeast;
    var n := |s| - 1;
    var t, x := s[..n], s[n];
    var k := InsertionPoint(t, x);
    if pos == k {
      RankOfLast(s);
      i := n;
    } else {
      i := RankIsOnto(t, if pos < k then pos else pos - 1);
      SortPlacesByRank(t, i);
      RankOfOther(s, i);
    }
  }

  // No two matches share a rank.
  lemma {:induction false} RanksDiffer(s: seq<RuleMatch>, i: nat, j: nat)
    requires i < j < |s|
    ensures Rank(s, i) != Rank(s, j)
    decreases |s|
  {
    hide Sorting.Insert, Rank, AtLeast;
    var n := |s| - 1;
    var k := InsertionPoint(s[..n], s[n]);
    RankOfOther(s, i);
    SortPlacesByRank(s[..n], i);
    if j == n {
      RankOfLast(s);
    } else {
      RankOfOther(s, j);
      SortPlacesByRank(s[..n], j);
      RanksDiffer(s[..n], i, j);
    }
  }

  // ---------- the selection ----------

  function Scored(issue: string, rules: seq<OriginatedRule>): (r: seq<RuleMatch>)
    ensures |r| == |rules|
  {
    seq(|rules|, i requires 0 <= i < |rules| => RuleMatch(rules[i], Overlap(Tokenize(issue), Tokenize(rules[i].text))))
  }

  function Positive(s: seq<RuleMatch>): (r: seq<RuleMatch>)
    ensures |r| <= |s|
  {
    if s == [] then []
    else if s[|s| - 1].score > 0.0 then Positive(s[..|s| - 1]) + [s[|s| - 1]]
    else Positive(s[..|s| - 1])
  }

  function Capped(s: seq<RuleMatch>, topN: int): seq<RuleMatch> {
    if topN > 0 && |s| > topN then s[..topN] else s
  }

  function Selected(matches: seq<RuleMatch>, topN: int): seq<RuleMatch> {
    Capped(Positive(Sorting.StableSort(matches, Higher())), topN)
  }

  method MatchIssueToRules(issue: string, rules: seq<OriginatedRule>) returns (matches: array<RuleMatch>)
    ensures fresh(matches) && matches[..] == Sorting.StableSort(Scored(issue, rules), Higher())
  {
    hide Sorting.StableSort, Tokenize, Overlap;
    var issueTokens := Tokenize(issue);
    matches := new RuleMatch[|rules|](_ => RuleMatch(OriginatedRule("", ""), 0.0));
    for i := 0 to |rules|
      invariant fresh(matches) && matches.Length == |rules|
      invariant forall k :: 0 <= k < i ==> matches[k] == Scored(issue, rules)[k]
    {
      var score := TokenOverlapScore(issueTokens, Tokenize(rules[i].text));
      matches[i] := RuleMatch(rules[i], score);
    }
    assert matches[..] == Scored(issue, rules);
    SortMatchesDescending(matches);
  }

  // RuleChain.Validate: a rule ID that appears twice is a cycle.
  predicate Repeats(chain: seq<OriginatedRule>) {
    exists i, j :: 0 <= i < j < |chain| && chain[i].id == chain[j].id
  }

  method ValidateChain(chain: seq<OriginatedRule>) returns (cyclic: bool)
    ensures cyclic <==> Repeats(chain)
  {
    var seen: set<string> := {};
    for i := 0 to |chain|
      invariant forall k :: 0 <= k < i ==> chain[k].id in seen
      invariant forall x :: x in seen ==> exists k :: 0 <= k < i && chain[k].id == x
      invariant forall j, k :: 0 <= j < k < i ==> chain[j].id != chain[k].id
    {
      if chain[i].id in seen { return true; }
      seen := seen + {chain[i].id};
    }
    cyclic := false;
  }

  // The errors in the service's order; hasFacts says whether the request carries
  // facts, and an empty chain is none.
  method SelectMatches(issue: string, rules: seq<OriginatedRule>, chain: seq<OriginatedRule>, hasFacts: bool, topN: int)
    returns (r: Result<seq<RuleMatch>, Error>)
    ensures issue == "" || rules == [] || !hasFacts <==> r == Err(EmptyInput)
    ensures r == Err(CyclicChain) <==> issue != "" && rules != [] && hasFacts && Repeats(chain)
    ensures r.Err? && r.error == NoMatchingRules ==> Selected(Scored(issue, rules), topN) == []
    ensures r.Ok? ==> r.value == Selected(Scored(issue, rules), topN) != []
  {
    hide Scored, Sorting.StableSort, Positive;
    if issue == "" || |rules| == 0 || !hasFacts { return Err(EmptyInput); }
    if |chain| > 0 {
      var cyclic := ValidateChain(chain);
      if cyclic { return Err(CyclicChain); }
    }
    var matches := MatchIssueToRules(issue, rules);
    var positive := [];
    NonePositive();
    for i := 0 to matches.Length
      invariant matches[..] == Sorting.StableSort(Scored(issue, rules), Higher())
      invariant positive == Positive(matches[..i])
    {
      OneMorePositive(matches[..], i);
      assert matches[..][..i] == matches[..i] && matches[..][..i + 1] == matches[..i + 1];
      if matches[i].score > 0.0 { positive := positive + [matches[i]]; }
    }
    assert matches[..matches.Length] == matches[..];
    if |positive| == 0 { return Err(NoMatchingRules); }
    if topN > 0 && |positive| > topN { positive := positive[..topN]; }
    r := Ok(positive);
  }

  lemma NonePositive()
    ensures Positive([]) == []
  {
  }

  lemma OneMorePositive(s: seq<RuleMatch>, i: nat)
    requires i < |s|
    ensures Positive(s[..i + 1]) == if s[i].score > 0.0 then Positive(s[..i]) + [s[i]] else Positive(s[..i])
  {
    assert s[..i + 1][..i] == s[..i];
  }

  // In a descending sequence the positive matches come first.
  lemma {:induction false} PositiveIsPrefix(s: seq<RuleMatch>)
    requires forall i, j :: 0 <= i < j < |s| ==> s[i].score >= s[j].score
    ensures Positive(s) == s[..|Positive(s)|]
    ensures forall i :: 0 <= i < |s| ==> (i < |Positive(s)| <==> s[i].score > 0.0)
  {
    if s != [] {
      var n := |s| - 1;
      PositiveIsPrefix(s[..n]);
      if s[n].score > 0.0 {
        assert forall i :: 0 <= i < n ==> s[..n][i].score > 0.0;
        assert n > 0 ==> s[..n][n - 1].score > 0.0;
        assert |Positive(s[..n])| == n;
      }
    }
  }

  predicate Taken(s: seq<RuleMatch>, place: int) {
    exists i :: 0 <= i < |s| && Rank(s, i) == place
  }

  // Exactly the topN best positive matches are kept, best first, equal scores in
  // input order: match i is at its rank if it is kept, and kept exactly if it is
  // positive and its rank below topN; nothing else is there.
  lemma SelectionIsTopN(s: seq<RuleMatch>, topN: int)
    ensures var kept := Selected(s, topN);
      && (forall i :: 0 <= i < |s| ==>
            (s[i].score > 0.0 && (topN <= 0 || Rank(s, i) < topN) <==> Rank(s, i) < |kept|)
            && (Rank(s, i) < |kept| ==> kept[Rank(s, i)] == s[i]))
      && (forall k :: 0 <= k < |kept| ==> Taken(s, k))
  {
    hide Rank, Positive, Sorting.StableSort;
    var sorted := Sorting.StableSort(s, Higher());
    SortedStably(s, 0.0);
    PositiveIsPrefix(sorted);
    var kept := Selected(s, topN);
    forall i | 0 <= i < |s|
      ensures s[i].score > 0.0 && (topN <= 0 || Rank(s, i) < topN) <==> Rank(s, i) < |kept|
      ensures Rank(s, i) < |kept| ==> kept[Rank(s, i)] == s[i]
    {
      SortPlacesByRank(s, i);
    }
    forall k | 0 <= k < |kept| ensures Taken(s, k) {
      var i := RankIsOnto(s, k);
    }
  }

  // Nothing is selected exactly if no rule shares a word with the issue.
  lemma NoMatchIff(issue: string, rules: seq<OriginatedRule>, topN: int)
    ensures Selected(Scored(issue, rules), topN) == [] <==>
            forall i :: 0 <= i < |rules| ==> Tokenize(issue) * Tokenize(rules[i].text) == {}
  {
    hide Rank, Tokenize, Overlap, Selected;
    var s := Scored(issue, rules);
    SelectionIsTopN(s, topN);
    forall i | 0 <= i < |rules|
      ensures s[i].score >= 0.0 && (s[i].score == 0.0 <==> Tokenize(issue) * Tokenize(rules[i].text) == {})
    {
      OverlapMeans(Tokenize(issue), Tokenize(rules[i].text));
    }
    var kept := Selected(s, topN);
    if kept != [] {
      assert Taken(s, 0);
      var j :| 0 <= j < |s| && Rank(s, j) == 0;
      assert s[j].score > 0.0;
    }
    if i :| 0 <= i < |rules| && s[i].score > 0.0 {
      var j := RankIsOnto(s, 0);
      SortPlacesByRank(s, i);
      SortPlacesByRank(s, j);
      SortedStably(s, 0.0);
      assert s[j].score >= s[i].score;
      assert 0 < |kept|;
    }
  }
}
