// packages/bulkimport/dedup.go: the key RunBatch recognises duplicates by.
module DedupKey {
  import opened Text
  import opened Sorting

  function Normalize(s: string): string {
    ToLower(TrimSpace(s))
  }

  // Party names, normalised, blanks dropped.
  function NormalParties(ps: seq<string>): seq<string> {
    if ps == [] then []
    else
      var rest, p := NormalParties(ps[..|ps| - 1]), Normalize(ps[|ps| - 1]);
      if p != "" then rest + [p] else rest
  }

  function CommaJoin(ts: seq<string>): string {
    if ts == [] then "" else if |ts| == 1 then ts[0] else ts[0] + "," + CommaJoin(ts[1..])
  }

  // The last of the three fields: the names in order, joined by commas.
  function PartyText(parties: seq<string>): string {
    CommaJoin(StableSort(NormalParties(parties), StrLess))
  }

  function Composite(caseNumber: string, jurisdiction: string, parties: seq<string>): string {
    Join([Normalize(caseNumber), Normalize(jurisdiction), PartyText(parties)])
  }

  // Nothing to recognise the record by.
  predicate NothingToKey(caseNumber: string, jurisdiction: string, parties: seq<string>) {
    Normalize(caseNumber) == "" && Normalize(jurisdiction) == "" && NormalParties(parties) == []
  }

  function ComputeDedupKey(hash: string -> string, caseNumber: string, jurisdiction: string,
                           parties: seq<string>): string {
    if NothingToKey(caseNumber, jurisdiction, parties) then ""
    else hash(Composite(caseNumber, jurisdiction, parties))
  }

  lemma StrLessIsTotalOrder()
    ensures StrictWeakOrder(StrLess) && Total(StrLess)
  {
    forall x: string ensures !StrLess(x, x) { StrLessTotal(x, x); }
    forall x: string, y: string ensures StrLess(x, y) || StrLess(y, x) || x == y { StrLessTotal(x, y); }
    forall x: string, y: string, z: string | StrLess(x, y) && StrLess(y, z) ensures StrLess(x, z) {
      StrLessTransitive(x, y, z);
    }
    forall x: string, y: string, z: string | !StrLess(x, y) && !StrLess(y, z) ensures !StrLess(x, z) {
      StrLessNegTransitive(x, y, z);
    }
  }

  // Records that agree on the normalised fields and name the same parties, in
  // any order, get the same key.
  lemma {:induction false} KeyIgnoresFormatAndOrder(hash: string -> string,
      c: string, j: string, ps: seq<string>, d: string, k: string, qs: seq<string>)
    requires Normalize(c) == Normalize(d) && Normalize(j) == Normalize(k)
    requires multiset(NormalParties(ps)) == multiset(NormalParties(qs))
    ensures ComputeDedupKey(hash, c, j, ps) == ComputeDedupKey(hash, d, k, qs)
  {
    hide Normalize, NormalParties, CommaJoin, Join, StableSort, StrLess;
    StrLessIsTotalOrder();
    SortIgnoresInputOrder(NormalParties(ps), NormalParties(qs), StrLess);
    assert NormalParties(ps) == [] <==> |multiset(NormalParties(ps))| == 0;
    assert NormalParties(qs) == [] <==> |multiset(NormalParties(qs))| == 0;
  }

  // ---------- what Normalize leaves alone ----------

  predicate Trimmed(s: string) {
    s == "" || (!IsSpace(s[0]) && !IsSpace(s[|s| - 1]))
  }

  predicate LowerCase(s: string) {
    forall i :: 0 <= i < |s| ==> !('A' <= s[i] <= 'Z')
  }

  predicate Normal(s: string) {
    Trimmed(s) && LowerCase(s)
  }

  lemma {:induction false} TrimLeftTrims(s: string)
    ensures TrimLeft(s) == "" || !IsSpace(TrimLeft(s)[0])
  {
    if s != [] { TrimLeftTrims(s[1..]); }
  }

  lemma {:induction false} TrimRightTrims(s: string)
    ensures TrimRight(s) <= s
    ensures TrimRight(s) == "" || !IsSpace(TrimRight(s)[|TrimRight(s)| - 1])
  {
    if s != [] { TrimRightTrims(s[..|s| - 1]); }
  }

  // Normalize makes a text normal and changes no normal one.
  lemma NormalizeNormalizes(s: string)
    ensures Normal(Normalize(s))
    ensures Normal(s) <==> Normalize(s) == s
  {
    TrimLeftTrims(s);
    TrimRightTrims(TrimLeft(s));
    if Normal(s) {
      assert TrimSpace(s) == s;
      assert ToLower(s) == s;
    }
  }

  predicate AllNames(x: seq<string>) {
    forall i :: 0 <= i < |x| ==> x[i] != "" && Normal(x[i])
  }

  lemma {:induction false} PartiesAreNames(ps: seq<string>)
    ensures AllNames(NormalParties(ps))
  {
    hide Normalize, Normal;
    if ps != [] {
      PartiesAreNames(ps[..|ps| - 1]);
      NormalizeNormalizes(ps[|ps| - 1]);
    }
  }

  // Names that are normal already are taken over as they are.
  lemma {:induction false} NamesStay(x: seq<string>)
    requires AllNames(x)
    ensures NormalParties(x) == x
  {
    hide Normalize, Normal;
    if x != [] {
      var n := |x| - 1;
      NamesStay(x[..n]);
      NormalizeNormalizes(x[n]);
      assert x == x[..n] + [x[n]];
    }
  }

  // ---------- reading the names back ----------

  // Every comma of the name has a blank next to it, as in "Doe, Jane".
  predicate Spaced(s: string) {
    forall i :: 0 <= i < |s| && s[i] == ',' ==> SpacedAt(s, i)
  }

  predicate SpacedAt(s: string, i: int) {
    0 <= i < |s| && ((i > 0 && IsSpace(s[i - 1])) || (i + 1 < |s| && IsSpace(s[i + 1])))
  }

  // A comma without one, which is how names are joined.
  predicate Boundary(s: string, i: int) {
    && 0 <= i < |s| && s[i] == ','
    && (i == 0 || !IsSpace(s[i - 1])) && (i + 1 == |s| || !IsSpace(s[i + 1]))
  }

  lemma {:induction false} CommaJoinNormal(x: seq<string>)
    requires AllNames(x)
    ensures Normal(CommaJoin(x)) && (CommaJoin(x) == "" <==> x == [])
    ensures x != [] ==> CommaJoin(x)[0] == x[0][0]
  {
    if |x| > 1 {
      CommaJoinNormal(x[1..]);
      var s, t := CommaJoin(x), CommaJoin(x[1..]);
      assert s == x[0] + "," + t;
      assert s[|s| - 1] == t[|t| - 1];
    }
  }

  lemma InsideName(a: string, t: string, i: nat)
    requires i < |a| && Spaced(a)
    ensures !Boundary(a + t, i)
  {
    var s := a + t;
    hide IsSpace;
    assert s[i] == a[i];
    if a[i] == ',' {
      assert SpacedAt(a, i);
      if i > 0 && IsSpace(a[i - 1]) {
        assert s[i - 1] == a[i - 1];
      } else {
        assert i + 1 < |a| && s[i + 1] == a[i + 1];
      }
    }
  }

  lemma BetweenNames(a: string, rest: string)
    requires a != "" && Trimmed(a) && rest != "" && !IsSpace(rest[0])
    ensures var s, n := a + "," + rest, |a|; Boundary(s, n) && s[..n] == a && s[n + 1..] == rest
  {
    var s, n := a + "," + rest, |a|;
    assert s[n - 1] == a[n - 1] && s[n] == ',' && s[n + 1] == rest[0];
  }

  lemma CommaJoinHead(x: seq<string>)
    requires AllNames(x) && |x| > 0 && Spaced(x[0])
    ensures var s, n := CommaJoin(x), |x[0]|;
      && n <= |s| && x[0] == s[..n]
      && (forall i :: 0 <= i < n ==> !Boundary(s, i))
      && (|x| == 1 <==> |s| == n)
      && (|x| > 1 ==> Boundary(s, n) && s[n + 1..] == CommaJoin(x[1..]))
  {
    hide Spaced, Boundary, IsSpace, LowerCase;
    var s, n := CommaJoin(x), |x[0]|;
    var t := "";
    assert Normal(x[0]);
    if |x| > 1 {
      assert Normal(x[1]) && x[1..][0] == x[1];
      var rest := CommaJoin(x[1..]);
      CommaJoinNormal(x[1..]);
      BetweenNames(x[0], rest);
      t := "," + rest;
      assert s == x[0] + "," + rest;
    }
    assert s == x[0] + t;
    forall i | 0 <= i < n ensures !Boundary(s, i) { InsideName(x[0], t, i); }
  }

  lemma {:induction false} CommaJoinInjective(x: seq<string>, y: seq<string>)
    requires AllNames(x) && AllNames(y) && CommaJoin(x) == CommaJoin(y)
    requires forall i :: 0 <= i < |x| ==> Spaced(x[i])
    requires forall i :: 0 <= i < |y| ==> Spaced(y[i])
    ensures x == y
    decreases |x|
  {
    hide Normal, Spaced, Boundary;
    CommaJoinNormal(x);
    CommaJoinNormal(y);
    if x != [] && y != [] {
      CommaJoinHead(x);
      CommaJoinHead(y);
      assert |x[0]| == |y[0]|;
      if |x| > 1 { CommaJoinInjective(x[1..], y[1..]); }
      assert x == [x[0]] + x[1..] && y == [y[0]] + y[1..];
    }
  }

  // Sorting keeps the names, and whatever holds of each of them.
  lemma SortedNames(ps: seq<string>)
    ensures var x := StableSort(NormalParties(ps), StrLess);
      && multiset(x) == multiset(NormalParties(ps)) && |x| == |NormalParties(ps)| && AllNames(x) && Sorted(x, StrLess)
      && forall i :: 0 <= i < |x| ==> x[i] in NormalParties(ps)
  {
    hide Normal, StrLess, NormalParties, StableSort;
    var ns := NormalParties(ps);
    var x := StableSort(ns, StrLess);
    SortPermutes(ns, StrLess);
    StrLessIsTotalOrder();
    SortSorts(ns, StrLess);
    PartiesAreNames(ps);
    forall i | 0 <= i < |x| ensures x[i] in ns && x[i] != "" && Normal(x[i]) {
      assert x[i] in multiset(x);
      var k :| 0 <= k < |ns| && ns[k] == x[i];
    }
  }

  // The converse of KeyIgnoresFormatAndOrder, for fields without a vertical bar
  // and names whose commas have a blank next to them: equal keys mean equal
  // normal forms, unless SHA-256 collides on the two composites.
  lemma EqualKeysEqualForms(hash: string -> string,
      c: string, j: string, ps: seq<string>, d: string, k: string, qs: seq<string>)
    requires !NothingToKey(c, j, ps) && !NothingToKey(d, k, qs)
    requires PipeFree(Normalize(c)) && PipeFree(Normalize(j)) && PipeFree(Normalize(d)) && PipeFree(Normalize(k))
    requires forall i :: 0 <= i < |NormalParties(ps)| ==> Spaced(NormalParties(ps)[i])
    requires forall i :: 0 <= i < |NormalParties(qs)| ==> Spaced(NormalParties(qs)[i])
    requires hash(Composite(c, j, ps)) == hash(Composite(d, k, qs)) ==> Composite(c, j, ps) == Composite(d, k, qs)
    ensures ComputeDedupKey(hash, c, j, ps) == ComputeDedupKey(hash, d, k, qs) <==>
      SameForms(c, j, ps, d, k, qs)
  {
    hide Normalize, NormalParties, Composite, Spaced;
    if ComputeDedupKey(hash, c, j, ps) == ComputeDedupKey(hash, d, k, qs) {
      CompositeInjective(c, j, ps, d, k, qs);
    }
    if SameForms(c, j, ps, d, k, qs) { KeyIgnoresFormatAndOrder(hash, c, j, ps, d, k, qs); }
  }

  predicate SameForms(c: string, j: string, ps: seq<string>, d: string, k: string, qs: seq<string>) {
    && Normalize(c) == Normalize(d) && Normalize(j) == Normalize(k)
    && multiset(NormalParties(ps)) == multiset(NormalParties(qs))
  }

  lemma CompositeInjective(c: string, j: string, ps: seq<string>, d: string, k: string, qs: seq<string>)
    requires PipeFree(Normalize(c)) && PipeFree(Normalize(j)) && PipeFree(Normalize(d)) && PipeFree(Normalize(k))
    requires forall i :: 0 <= i < |NormalParties(ps)| ==> Spaced(NormalParties(ps)[i])
    requires forall i :: 0 <= i < |NormalParties(qs)| ==> Spaced(NormalParties(qs)[i])
    requires Composite(c, j, ps) == Composite(d, k, qs)
    ensures SameForms(c, j, ps, d, k, qs)
  {
    hide Normalize, NormalParties, StableSort, StrLess, CommaJoin, Spaced, Join;
    ThreeFields(Normalize(c), Normalize(j), PartyText(ps), Normalize(d), Normalize(k), PartyText(qs));
    SortedNames(ps);
    SortedNames(qs);
    CommaJoinInjective(StableSort(NormalParties(ps), StrLess), StableSort(NormalParties(qs), StrLess));
  }

  lemma ThreeFields(a: string, b: string, c: string, x: string, y: string, z: string)
    requires PipeFree(a) && PipeFree(b) && PipeFree(x) && PipeFree(y)
    requires Join([a, b, c]) == Join([x, y, z])
    ensures a == x && b == y && c == z
  {
    hide Join, Split;
    SameTokensSameText([a, b, c], [x, y, z]);
    TokensOfThree(a, b, c);
    TokensOfThree(x, y, z);
    var s, t := [a, b] + Split(c), [x, y] + Split(z);
    assert s[0] == t[0] && s[1] == t[1] && s[2..] == t[2..];
    SplitInjective(c, z);
  }

  lemma TokensOfThree(a: string, b: string, c: string)
    requires PipeFree(a) && PipeFree(b)
    ensures Tokens([a, b, c]) == [a, b] + Split(c)
  {
    hide Join, Split;
    SplitPipeFree(a);
    SplitPipeFree(b);
    assert [a, b, c][1..] == [b, c] && [b, c][1..] == [c] && [c][1..] == [];
    assert Tokens([c]) == Split(c) + Tokens([]);
    assert Tokens([b, c]) == [b] + Tokens([c]);
  }

  // ---------- exactly which records a key tells from all others ----------

  // A place where a name could also be read as two names in order.
  predicate SplitsAt(p: string, k: int) {
    && 0 <= k < |p| && p[k] == ',' && AllNames([p[..k], p[k + 1..]]) && !StrLess(p[k + 1..], p[..k])
  }

  ghost predicate PartiesDetermined(ps: seq<string>) {
    forall qs :: PartyText(qs) == PartyText(ps) ==> multiset(NormalParties(qs)) == multiset(NormalParties(ps))
  }

  // Two names or more read just as well as one name that holds them all.
  lemma MergedParties(hash: string -> string, c: string, j: string, ps: seq<string>)
    requires |NormalParties(ps)| >= 2
    ensures var qs := [PartyText(ps)];
      && PartyText(qs) == PartyText(ps) && multiset(NormalParties(qs)) != multiset(NormalParties(ps))
      && ComputeDedupKey(hash, c, j, qs) == ComputeDedupKey(hash, c, j, ps)
  {
    hide Normalize, StableSort, StrLess, CommaJoin, NormalParties, Normal, Join;
    var qs := [PartyText(ps)];
    SortedNames(ps);
    CommaJoinNormal(StableSort(NormalParties(ps), StrLess));
    NamesStay(qs);
    OneName(qs[0]);
    assert |multiset(NormalParties(qs))| == 1 && |multiset(NormalParties(ps))| == |NormalParties(ps)|;
  }

  lemma OneName(p: string)
    ensures StableSort([p], StrLess) == [p] && CommaJoin([p]) == p
  {
    hide StrLess;
    assert [p][..0] == [];
  }

  lemma TwoNames(a: string, b: string)
    requires AllNames([a, b]) && !StrLess(b, a)
    ensures PartyText([a, b]) == a + "," + b && NormalParties([a, b]) == [a, b]
  {
    hide StrLess, StableSort, NormalParties, Normal;
    NamesStay([a, b]);
    SortFixesSorted([a, b], StrLess);
    assert [a, b][1..] == [b] && CommaJoin([b]) == b;
    assert CommaJoin([a, b]) == a + "," + b;
  }

  lemma {:induction false} LongerIsNotLess(b: string, t: string, a: string)
    requires StrLess(b + t, a)
    ensures StrLess(b, a)
  {
    if b == [] {
    } else if b[0] == a[0] {
      assert (b + t)[1..] == b[1..] + t;
      LongerIsNotLess(b[1..], t, a[1..]);
    }
  }

  // Names of a list of two or more split its text after the first of them.
  lemma ListSplits(y: seq<string>)
    requires |y| >= 2 && AllNames(y) && Sorted(y, StrLess)
    ensures |y[0]| < |CommaJoin(y)| && SplitsAt(CommaJoin(y), |y[0]|)
  {
    hide StrLess, Normal;
    var p, k, rest := CommaJoin(y), |y[0]|, CommaJoin(y[1..]);
    CommaJoinNormal(y[1..]);
    assert p == y[0] + "," + rest;
    assert p[..k] == y[0] && p[k + 1..] == rest;
    assert !StrLess(y[1], y[0]);
    var t := if |y| == 2 then "" else "," + CommaJoin(y[1..][1..]);
    assert rest == y[1] + t;
    if StrLess(rest, y[0]) { LongerIsNotLess(y[1], t, y[0]); }
  }

  lemma PartiesDeterminedIff(ps: seq<string>)
    ensures var ns := NormalParties(ps);
      PartiesDetermined(ps) <==> ns == [] || (|ns| == 1 && forall k :: 0 <= k < |ns[0]| ==> !SplitsAt(ns[0], k))
  {
    hide StableSort, StrLess, CommaJoin, NormalParties, Normal, AllNames;
    var ns := NormalParties(ps);
    SortedNames(ps);
    if |ns| >= 2 {
      MergedParties(s => s, "", "", ps);
      assert PartyText([PartyText(ps)]) == PartyText(ps);
    } else {
      SmallLists(ps);
      if k :| |ns| == 1 && 0 <= k < |ns[0]| && SplitsAt(ns[0], k) {
        var p := ns[0];
        TwoNames(p[..k], p[k + 1..]);
        assert p == p[..k] + "," + p[k + 1..];
        var qs := [p[..k], p[k + 1..]];
        assert PartyText(qs) == PartyText(ps);
        assert |multiset(NormalParties(qs))| == 2 && |multiset(ns)| == 1;
      } else {
        forall qs | PartyText(qs) == PartyText(ps) ensures multiset(NormalParties(qs)) == multiset(ns) {
          OnlyReading(ps, qs);
        }
      }
    }
  }

  lemma SmallLists(ps: seq<string>)
    requires |NormalParties(ps)| <= 1
    ensures PartyText(ps) == if NormalParties(ps) == [] then "" else NormalParties(ps)[0]
  {
    hide NormalParties, StrLess;
    var ns := NormalParties(ps);
    if |ns| == 1 {
      OneName(ns[0]);
      assert ns == [ns[0]];
    }
  }

  lemma OnlyReading(ps: seq<string>, qs: seq<string>)
    requires |NormalParties(ps)| <= 1 && PartyText(qs) == PartyText(ps)
    requires |NormalParties(ps)| == 1 ==> forall k :: 0 <= k < |NormalParties(ps)[0]| ==>
      !SplitsAt(NormalParties(ps)[0], k)
    ensures multiset(NormalParties(qs)) == multiset(NormalParties(ps))
  {
    hide StableSort, StrLess, CommaJoin, NormalParties, Normal, SplitsAt;
    SmallLists(ps);
    PartiesAreNames(ps);
    SortedNames(qs);
    var y := StableSort(NormalParties(qs), StrLess);
    CommaJoinNormal(y);
    if |y| >= 2 { ListSplits(y); }
    if |y| <= 1 { SmallLists(qs); }
    NamesEqual(NormalParties(ps), NormalParties(qs));
  }

  lemma NamesEqual(a: seq<string>, b: seq<string>)
    ensures |a| == |b| == 1 && a[0] == b[0] ==> multiset(a) == multiset(b)
    ensures a == [] && b == [] ==> multiset(a) == multiset(b)
  {
    if |a| == |b| == 1 && a[0] == b[0] { assert a == b; }
  }

  // A way to read a composite as three trimmed fields.
  predicate Cut(s: string, p: int, q: int) {
    && 0 <= p < q < |s| && s[p] == SEP && s[q] == SEP
    && Trimmed(s[..p]) && Trimmed(s[p + 1..q]) && Trimmed(s[q + 1..])
  }

  lemma CompositeText(c: string, j: string, ps: seq<string>)
    ensures Composite(c, j, ps) == Normalize(c) + [SEP] + Normalize(j) + [SEP] + PartyText(ps)
  {
    hide Normalize, PartyText, Join;
    var a, b, t := Normalize(c), Normalize(j), PartyText(ps);
    JoinCons(a, [b, t]);
    JoinCons(b, [t]);
    JoinCons(t, []);
    assert [a] + [b, t] == [a, b, t] && [b] + [t] == [b, t] && [t] + [] == [t];
    assert a + [SEP] + (b + [SEP] + t) == a + [SEP] + b + [SEP] + t;
  }

  lemma JoinedIsCut(a: string, b: string, t: string)
    requires Normal(a) && Normal(b) && Normal(t)
    ensures var s, p, q := a + [SEP] + b + [SEP] + t, |a|, |a| + 1 + |b|;
      Cut(s, p, q) && LowerCase(s) && s[..p] == a && s[p + 1..q] == b && s[q + 1..] == t
  {
    hide Trimmed;
    var s, p, q := a + [SEP] + b + [SEP] + t, |a|, |a| + 1 + |b|;
    assert s[..p] == a && s[p + 1..q] == b && s[q + 1..] == t;
  }

  // A record is a cut of its composite, and every cut is a record.
  lemma RecordCuts(c: string, j: string, ps: seq<string>)
    ensures var s, p := Composite(c, j, ps), |Normalize(c)|; var q := p + 1 + |Normalize(j)|;
      && Cut(s, p, q) && LowerCase(s)
      && s[..p] == Normalize(c) && s[p + 1..q] == Normalize(j) && s[q + 1..] == PartyText(ps)
  {
    hide Normalize, Composite, Normal, Cut, LowerCase, StableSort, StrLess, NormalParties, CommaJoin;
    CompositeText(c, j, ps);
    NormalizeNormalizes(c);
    NormalizeNormalizes(j);
    SortedNames(ps);
    CommaJoinNormal(StableSort(NormalParties(ps), StrLess));
    JoinedIsCut(Normalize(c), Normalize(j), PartyText(ps));
  }

  lemma CutRecord(s: string, p: int, q: int)
    requires Cut(s, p, q) && LowerCase(s)
    ensures var c, j, ps := s[..p], s[p + 1..q], [s[q + 1..]];
      Composite(c, j, ps) == s && Normalize(c) == c && Normalize(j) == j
  {
    hide Normalize, Composite, StableSort, StrLess;
    var c, j, t := s[..p], s[p + 1..q], s[q + 1..];
    NormalizeNormalizes(c);
    NormalizeNormalizes(j);
    NormalizeNormalizes(t);
    assert [t][..0] == [];
    SmallLists([t]);
    CompositeText(c, j, [t]);
    assert s == c + [SEP] + j + [SEP] + t;
  }

  ghost predicate Determined(c: string, j: string, ps: seq<string>) {
    forall d, k, qs :: Composite(d, k, qs) == Composite(c, j, ps) ==> SameForms(c, j, ps, d, k, qs)
  }

  // What a caller can look up: the composite has no other cut, and there is no
  // party, or one that does not split.
  predicate ReadsOneWay(c: string, j: string, ps: seq<string>) {
    var p := |Normalize(c)|;
    var q := p + 1 + |Normalize(j)|;
    var s, ns := Composite(c, j, ps), NormalParties(ps);
    && (forall x, y :: 0 <= x < y < |s| && Cut(s, x, y) ==> x == p && y == q)
    && (ns == [] || (|ns| == 1 && forall k :: 0 <= k < |ns[0]| ==> !SplitsAt(ns[0], k)))
  }

  lemma DeterminedIff(c: string, j: string, ps: seq<string>)
    ensures Determined(c, j, ps) <==> ReadsOneWay(c, j, ps)
  {
    hide Normalize, Composite, NormalParties, PartyText, SplitsAt, Trimmed, LowerCase;
    var s, p := Composite(c, j, ps), |Normalize(c)|;
    var q := p + 1 + |Normalize(j)|;
    RecordCuts(c, j, ps);
    PartiesDeterminedIff(ps);
    if x, y :| Cut(s, x, y) && !(x == p && y == q) {
      OtherCut(s, p, q, x, y);
      CutRecord(s, x, y);
      assert !SameForms(c, j, ps, s[..x], s[x + 1..y], [s[y + 1..]]);
    } else if !PartiesDetermined(ps) {
      var qs :| PartyText(qs) == PartyText(ps) && multiset(NormalParties(qs)) != multiset(NormalParties(ps));
      CompositeText(c, j, ps);
      CompositeText(c, j, qs);
      assert !SameForms(c, j, ps, c, j, qs);
    } else {
      forall d, k, qs | Composite(d, k, qs) == s ensures SameForms(c, j, ps, d, k, qs) {
        RecordCuts(d, k, qs);
      }
    }
  }

  lemma OtherCut(s: string, p: int, q: int, x: int, y: int)
    requires Cut(s, p, q) && Cut(s, x, y) && !(x == p && y == q)
    ensures s[..x] != s[..p] || s[x + 1..y] != s[p + 1..q]
  {
    assert |s[..x]| == x && |s[..p]| == p;
    if x == p { assert |s[x + 1..y]| == y - x - 1 && |s[p + 1..q]| == q - p - 1; }
  }

  // RunBatch takes another record's row for a duplicate of this one although
  // their normal forms differ, for some other record, exactly if this record
  // does not read one way only; SHA-256 is taken not to collide with its text.
  lemma FalseDuplicateIff(hash: string -> string, c: string, j: string, ps: seq<string>)
    requires !NothingToKey(c, j, ps) && hash(Composite(c, j, ps)) != ""
    requires forall s :: hash(s) == hash(Composite(c, j, ps)) ==> s == Composite(c, j, ps)
    ensures (exists d, k, qs :: ComputeDedupKey(hash, d, k, qs) == ComputeDedupKey(hash, c, j, ps)
                                && !SameForms(c, j, ps, d, k, qs)) <==> !ReadsOneWay(c, j, ps)
  {
    hide Composite, SameForms, ReadsOneWay, NothingToKey;
    DeterminedIff(c, j, ps);
    if d, k, qs :| Composite(d, k, qs) == Composite(c, j, ps) && !SameForms(c, j, ps, d, k, qs) {
      NothingHasNoText(c, j, ps, d, k, qs);
      assert ComputeDedupKey(hash, d, k, qs) == ComputeDedupKey(hash, c, j, ps);
    }
  }

  lemma NothingHasNoText(c: string, j: string, ps: seq<string>, d: string, k: string, qs: seq<string>)
    requires Composite(d, k, qs) == Composite(c, j, ps)
    ensures NothingToKey(d, k, qs) <==> NothingToKey(c, j, ps)
  {
    hide Normalize, Composite, NormalParties, StableSort, StrLess, CommaJoin, Normal;
    CompositeText(c, j, ps);
    CompositeText(d, k, qs);
    SortedNames(ps);
    SortedNames(qs);
    CommaJoinNormal(StableSort(NormalParties(ps), StrLess));
    CommaJoinNormal(StableSort(NormalParties(qs), StrLess));
    assert NothingToKey(c, j, ps) <==> |Composite(c, j, ps)| == 2;
    assert NothingToKey(d, k, qs) <==> |Composite(d, k, qs)| == 2;
  }

  // One such pair: two case numbers of two jurisdictions under one key.
  lemma SeparatorMakesFalseDuplicate(hash: string -> string)
    ensures Normalize("a|b") != Normalize("a")
    ensures ComputeDedupKey(hash, "a|b", "c", []) == ComputeDedupKey(hash, "a", "b|c", [])
  {
    var s := "a|b";
    assert TrimSpace(s) == s;
    assert ToLower("a|b") == "a|b" && ToLower("c") == "c" && ToLower("a") == "a" && ToLower("b|c") == "b|c";
    assert [Normalize("a|b"), "c", ""] == ["a|b", "c", ""];
    ShiftedFields();
  }

  lemma ShiftedFields()
    ensures Join(["a|b", "c", ""]) == Join(["a", "b|c", ""])
  {
    assert ["a|b", "c", ""][1..] == ["c", ""] && ["c", ""][1..] == [""];
    assert ["a", "b|c", ""][1..] == ["b|c", ""] && ["b|c", ""][1..] == [""];
    assert Join(["c", ""]) == "c|" && Join(["b|c", ""]) == "b|c|";
    assert "a|b" + [SEP] + "c|" == "a" + [SEP] + "b|c|";
  }
}
