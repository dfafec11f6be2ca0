// packages/bulkimport/dedup.go: which differences in spelling a key ignores, told
// by the characters of the fields.
module DedupOnFields {
  import opened Text
  import opened Sorting
  import opened DedupKey

  lemma TrimIgnoresBlanks(a: string, m: string, b: string)
    requires AllBlank(a) && AllBlank(b)
    ensures TrimSpace(a + m + b) == TrimSpace(m)
  {
    hide TrimSpace;
    var c, d := TrimSpaceCuts(m);
    var k := TrimSpace(m);
    assert a + m + b == (a + c) + k + (d + b);
    TrimSpaceIs(a + c, k, d + b);
  }

  // Blanks added at either end leave the normal form as it is.
  lemma EndBlanksIgnored(a: string, s: string, b: string)
    requires AllBlank(a) && AllBlank(b)
    ensures Normalize(a + s + b) == Normalize(s)
  {
    TrimIgnoresBlanks(a, s, b);
  }

  lemma LowerKeepsBlanks(s: string)
    ensures AllBlank(ToLower(s)) <==> AllBlank(s)
  {
    assert forall i :: 0 <= i < |s| ==> ToLower(s)[i] == s[i] || 'A' <= s[i] <= 'Z';
  }

  lemma LowerTrims(s: string)
    ensures TrimSpace(ToLower(s)) == ToLower(TrimSpace(s))
  {
    hide TrimSpace;
    var a, b := TrimSpaceCuts(s);
    var m := TrimSpace(s);
    var x, k, y := ToLower(a), ToLower(m), ToLower(b);
    assert ToLower(s) == x + k + y;
    LowerKeepsBlanks(a);
    LowerKeepsBlanks(b);
    if m != "" {
      assert k[..1] == ToLower(m[..1]) && k[|k| - 1..] == ToLower(m[|m| - 1..]);
      LowerKeepsBlanks(m[..1]);
      LowerKeepsBlanks(m[|m| - 1..]);
    }
    TrimSpaceIs(x, k, y);
  }

  // One text is the other with other letters upper case and other blanks around.
  ghost predicate Respelled(s: string, t: string) {
    exists a, m, b, x, n, y :: Around(s, a, m, b) && Around(t, x, n, y) && CaseVariants(m, n)
  }

  predicate Around(s: string, a: string, m: string, b: string) {
    AllBlank(a) && AllBlank(b) && s == a + m + b
  }

  lemma NormalFormIff(s: string, t: string)
    ensures Normalize(s) == Normalize(t) <==> Respelled(s, t)
  {
    hide TrimSpace, ToLower, CaseVariants;
    if Normalize(s) == Normalize(t) {
      var a, b := TrimSpaceCuts(s);
      var x, y := TrimSpaceCuts(t);
      ToLowerIff(TrimSpace(s), TrimSpace(t));
      assert Around(s, a, TrimSpace(s), b) && Around(t, x, TrimSpace(t), y);
    }
    if Respelled(s, t) {
      var a, m, b, x, n, y :| Around(s, a, m, b) && Around(t, x, n, y) && CaseVariants(m, n);
      TrimIgnoresBlanks(a, m, b);
      TrimIgnoresBlanks(x, n, y);
      ToLowerIff(m, n);
      LowerTrims(m);
      LowerTrims(n);
    }
  }

  // Of texts without blanks at their ends only the case of letters is ignored.
  lemma TrimmedFormIff(s: string, t: string)
    requires s != "" ==> !AllBlank(s[..1]) && !AllBlank(s[|s| - 1..])
    requires t != "" ==> !AllBlank(t[..1]) && !AllBlank(t[|t| - 1..])
    ensures Normalize(s) == Normalize(t) <==> CaseVariants(s, t)
  {
    hide TrimSpace;
    assert "" + s + "" == s && "" + t + "" == t;
    TrimSpaceIs("", s, "");
    TrimSpaceIs("", t, "");
    ToLowerIff(s, t);
  }

  // ---------- the key ----------

  lemma {:induction false} PartiesConcat(x: seq<string>, y: seq<string>)
    ensures NormalParties(x + y) == NormalParties(x) + NormalParties(y)
  {
    hide Normalize;
    if y == [] {
      assert x + y == x;
    } else {
      assert (x + y)[..|x + y| - 1] == x + y[..|y| - 1];
      PartiesConcat(x, y[..|y| - 1]);
    }
  }

  // Taking one name out.
  lemma PartiesWithout(y: seq<string>, i: nat)
    requires i < |y|
    ensures var rest := y[..i] + y[i + 1..];
      && multiset(y) == multiset(rest) + multiset{y[i]}
      && multiset(NormalParties(y)) == multiset(NormalParties(rest)) + multiset(NormalParties([y[i]]))
  {
    hide NormalParties;
    var a, p, b := y[..i], [y[i]], y[i + 1..];
    assert y == a + p + b;
    PartiesConcat(a + p, b);
    PartiesConcat(a, p);
    PartiesConcat(a, b);
  }

  lemma {:induction false} PartiesPermuted(x: seq<string>, y: seq<string>)
    requires multiset(x) == multiset(y)
    ensures multiset(NormalParties(x)) == multiset(NormalParties(y))
    decreases |x|
  {
    hide NormalParties;
    if x != [] {
      var n := |x| - 1;
      assert x[n] in multiset(y);
      var i :| 0 <= i < |y| && y[i] == x[n];
      PartiesWithout(x, n);
      PartiesWithout(y, i);
      assert x[..n] + x[n + 1..] == x[..n];
      assert multiset(x[..n]) == multiset(x) - multiset{x[n]};
      assert multiset(y[..i] + y[i + 1..]) == multiset(y) - multiset{x[n]};
      PartiesPermuted(x[..n], y[..i] + y[i + 1..]);
    } else {
      assert |multiset(y)| == |y| == 0;
    }
  }

  lemma {:induction false} PartiesRespelled(x: seq<string>, y: seq<string>)
    requires |x| == |y| && forall i :: 0 <= i < |x| ==> Respelled(x[i], y[i])
    ensures NormalParties(x) == NormalParties(y)
  {
    hide Normalize, Respelled;
    if x != [] {
      var n := |x| - 1;
      PartiesRespelled(x[..n], y[..n]);
      NormalFormIff(x[n], y[n]);
    }
  }

  // Case of letters, blanks around any field or name, and the order of the names
  // make no difference to the key: rs are the names qs in the order of ps.
  lemma KeyIgnoresSpelling(hash: string -> string, c: string, j: string, ps: seq<string>,
                           d: string, k: string, qs: seq<string>, rs: seq<string>)
    requires Respelled(c, d) && Respelled(j, k)
    requires |ps| == |rs| && (forall i :: 0 <= i < |ps| ==> Respelled(ps[i], rs[i])) && multiset(rs) == multiset(qs)
    ensures ComputeDedupKey(hash, c, j, ps) == ComputeDedupKey(hash, d, k, qs)
  {
    hide Normalize, Respelled, NormalParties;
    NormalFormIff(c, d);
    NormalFormIff(j, k);
    PartiesRespelled(ps, rs);
    PartiesPermuted(rs, qs);
    KeyIgnoresFormatAndOrder(hash, c, j, ps, d, k, qs);
  }

  // A record has no key exactly if none of its fields and names has anything in
  // it; else its key is the hash of the three fields between bars.
  lemma KeyOnFields(hash: string -> string, c: string, j: string, ps: seq<string>)
    ensures var nothing := !NonBlank(c) && !NonBlank(j) && forall i :: 0 <= i < |ps| ==> !NonBlank(ps[i]);
      ComputeDedupKey(hash, c, j, ps) ==
        if nothing then "" else hash(Normalize(c) + "|" + (Normalize(j) + "|" + PartyText(ps)))
  {
    hide PartyText, NonBlank;
    NormalBlankIff(c);
    NormalBlankIff(j);
    NoPartiesIff(ps);
    var a, b, p := Normalize(c), Normalize(j), PartyText(ps);
    assert [a, b, p][1..] == [b, p] && [b, p][1..] == [p];
    assert Join([b, p]) == b + "|" + p;
  }

  lemma NormalBlankIff(s: string)
    ensures Normalize(s) == "" <==> !NonBlank(s)
  {
    hide TrimSpace;
    NonBlankIff(s);
    assert |Normalize(s)| == |TrimSpace(s)|;
  }

  lemma {:induction false} NoPartiesIff(ps: seq<string>)
    ensures NormalParties(ps) == [] <==> forall i :: 0 <= i < |ps| ==> !NonBlank(ps[i])
  {
    hide Normalize, NonBlank;
    if ps != [] {
      NoPartiesIff(ps[..|ps| - 1]);
      NormalBlankIff(ps[|ps| - 1]);
    }
  }

  // Two names stand in alphabetical order, in lower case, with a comma between.
  lemma TwoPartyText(x: string, y: string)
    requires NonBlank(x) && NonBlank(y)
    ensures var a, b := Normalize(x), Normalize(y);
      PartyText([x, y]) == if StrLess(b, a) then b + "," + a else a + "," + b
  {
    hide Normalize, NonBlank, StrLess, StableSort, NormalParties, Normal, CommaJoin;
    var a, b := Normalize(x), Normalize(y);
    NormalBlankIff(x);
    NormalBlankIff(y);
    NormalizeNormalizes(x);
    NormalizeNormalizes(y);
    StrLessTotal(a, b);
    NormalOfTwo(x, y);
    if StrLess(b, a) {
      TwoNames(b, a);
      StrLessIsTotalOrder();
      SortIgnoresInputOrder([a, b], [b, a], StrLess);
    } else {
      TwoNames(a, b);
    }
  }

  lemma NormalOfTwo(x: string, y: string)
    requires Normalize(x) != "" && Normalize(y) != ""
    ensures NormalParties([x, y]) == [Normalize(x), Normalize(y)]
  {
    hide Normalize;
    assert [x, y][..1] == [x] && [x][..0] == [];
    assert NormalParties([x]) == [] + [Normalize(x)];
    assert NormalParties([x, y]) == NormalParties([x]) + [Normalize(y)];
  }
}
