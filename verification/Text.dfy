// Byte strings as the Go sources handle them: decimal rendering of lengths and
// depths (strconv.Itoa), UUID and digest shapes, and records written as fields
// joined by '|'. Every `char` stands for one byte.
module Text {

  const SEP: char := '|'

  predicate IsHexChar(c: char) {
    '0' <= c <= '9' || 'a' <= c <= 'f'
  }

  // hex.EncodeToString of a SHA-256 sum.
  predicate IsHexDigest(s: string) {
    |s| == 64 && forall i :: 0 <= i < |s| ==> IsHexChar(s[i])
  }

  predicate IsUuidText(s: string) {
    |s| == 36 &&
    forall i :: 0 <= i < 36 ==>
      if i == 8 || i == 13 || i == 18 || i == 23 then s[i] == '-' else IsHexChar(s[i])
  }

  const NIL_UUID: string := "00000000-0000-0000-0000-000000000000"

  type Uuid = s: string | IsUuidText(s) witness NIL_UUID

  predicate PipeFree(s: string) {
    SEP !in s
  }

  // ---------- strconv.Itoa on non-negative numbers ----------

  function DigitChar(d: nat): char
    requires d < 10
  {
    "0123456789"[d]
  }

  function Itoa(n: nat): string {
    if n < 10 then [DigitChar(n)] else Itoa(n / 10) + [DigitChar(n % 10)]
  }

  lemma {:induction false} ItoaDigits(n: nat)
    ensures |Itoa(n)| > 0
    ensures forall i :: 0 <= i < |Itoa(n)| ==> '0' <= Itoa(n)[i] <= '9'
  {
    if n >= 10 { ItoaDigits(n / 10); }
  }

  // The number a row of digits stands for.
  function Decimal(s: string): int {
    if s == "" then 0 else 10 * Decimal(s[..|s| - 1]) + (s[|s| - 1] as int - '0' as int)
  }

  lemma {:induction false} ItoaReadsBack(n: nat)
    ensures Decimal(Itoa(n)) == n && (n > 0 ==> Itoa(n)[0] != '0')
  {
    hide Itoa;
    ItoaShape(n);
    DigitValue(n % 10);
    var s := Itoa(n);
    if n >= 10 {
      ItoaReadsBack(n / 10);
      assert s[0] == s[..|s| - 1][0];
    } else {
      assert s[..|s| - 1] == "";
    }
  }

  lemma DigitValue(d: nat)
    requires d < 10
    ensures DigitChar(d) as int - '0' as int == d
  {
  }

  lemma ItoaPipeFree(n: nat)
    ensures PipeFree(Itoa(n))
  {
    ItoaDigits(n);
  }

  lemma ItoaShape(n: nat)
    ensures var s := Itoa(n);
      && |s| > 0 && s[|s| - 1] == DigitChar(n % 10)
      && (n < 10 <==> |s| == 1)
      && (n >= 10 ==> s[..|s| - 1] == Itoa(n / 10))
  {
    if n >= 10 { ItoaDigits(n / 10); }
  }

  lemma {:induction false} ItoaInjective(m: nat, n: nat)
    requires Itoa(m) == Itoa(n)
    ensures m == n
  {
    hide Itoa;
    ItoaShape(m);
    ItoaShape(n);
    if m >= 10 { ItoaInjective(m / 10, n / 10); }
    assert m % 10 == n % 10;
  }

  lemma {:induction false} ItoaLengthMonotone(m: nat, n: nat)
    requires m <= n
    ensures |Itoa(m)| <= |Itoa(n)|
  {
    ItoaDigits(n);
    if m >= 10 { ItoaLengthMonotone(m / 10, n / 10); }
    else if n >= 10 { ItoaDigits(n / 10); }
  }

  // A text framed as Itoa(|d|) + d can be decoded from its total length alone:
  // n + digits(n) is strictly increasing.
  lemma LengthFrameInjective(d: string, e: string)
    requires Itoa(|d|) + d == Itoa(|e|) + e
    ensures d == e
  {
    var f, g := Itoa(|d|) + d, Itoa(|e|) + e;
    if |d| < |e| { ItoaLengthMonotone(|d|, |e|); }
    if |e| < |d| { ItoaLengthMonotone(|e|, |d|); }
    assert |d| == |e|;
    assert d == f[|f| - |d|..] && e == g[|g| - |e|..];
  }

  // ---------- fields separated by '|' ----------

  function FirstPipe(s: string): (i: nat)
    ensures i <= |s|
    ensures forall k :: 0 <= k < i ==> s[k] != SEP
    ensures i < |s| ==> s[i] == SEP
  {
    if s == [] || s[0] == SEP then 0 else 1 + FirstPipe(s[1..])
  }

  function Split(s: string): (ts: seq<string>)
    ensures |ts| >= 1
    decreases |s|
  {
    var i := FirstPipe(s);
    if i == |s| then [s] else [s[..i]] + Split(s[i + 1..])
  }

  function Join(ts: seq<string>): string
    requires |ts| >= 1
  {
    if |ts| == 1 then ts[0] else ts[0] + [SEP] + Join(ts[1..])
  }

  lemma JoinCons(t: string, ts: seq<string>)
    ensures Join([t] + ts) == if ts == [] then t else t + [SEP] + Join(ts)
  {
    assert ([t] + ts)[1..] == ts;
  }

  lemma {:induction false} JoinSplit(s: string)
    ensures Join(Split(s)) == s
    decreases |s|
  {
    hide Split, Join, FirstPipe;
    var i := FirstPipe(s);
    SplitUnfolds(s);
    if i < |s| {
      JoinSplit(s[i + 1..]);
      JoinCons(s[..i], Split(s[i + 1..]));
      assert s == s[..i] + [SEP] + s[i + 1..];
    } else {
      JoinCons(s, []);
      assert [s] + [] == [s];
    }
  }

  lemma SplitInjective(s: string, t: string)
    requires Split(s) == Split(t)
    ensures s == t
  {
    JoinSplit(s);
    JoinSplit(t);
  }

  lemma {:induction false} SplitPipeFree(s: string)
    ensures PipeFree(s) <==> |Split(s)| == 1
    ensures PipeFree(s) ==> Split(s) == [s]
  {
    var i := FirstPipe(s);
    if i < |s| { assert s[i] in s; }
  }

  lemma {:induction false} SplitTokensPipeFree(s: string)
    ensures forall k :: 0 <= k < |Split(s)| ==> PipeFree(Split(s)[k])
    decreases |s|
  {
    var i := FirstPipe(s);
    if i < |s| { SplitTokensPipeFree(s[i + 1..]); }
  }

  // Splitting is a homomorphism: the separator written between two texts is a
  // token boundary whatever the texts contain.
  lemma {:induction false} SplitConcat(a: string, b: string)
    ensures Split(a + [SEP] + b) == Split(a) + Split(b)
    decreases |a|
  {
    hide Split, FirstPipe;
    var s, i := a + [SEP] + b, FirstPipe(a);
    FirstPipeConcat(a, b);
    SplitUnfolds(a);
    SplitUnfolds(s);
    if i == |a| {
      assert s[..i] == a && s[i + 1..] == b;
    } else {
      var head, rest := a[..i], a[i + 1..];
      assert s[..i] == head && s[i + 1..] == rest + [SEP] + b;
      SplitConcat(rest, b);
    }
  }

  lemma SplitUnfolds(s: string)
    ensures var i := FirstPipe(s);
      Split(s) == if i == |s| then [s] else [s[..i]] + Split(s[i + 1..])
  {
    hide FirstPipe;
  }

  lemma FirstPipeConcat(a: string, b: string)
    ensures FirstPipe(a + [SEP] + b) == FirstPipe(a)
  {
    var s, i, j := a + [SEP] + b, FirstPipe(a), FirstPipe(a + [SEP] + b);
    assert s[|a|] == SEP;
    assert forall k :: 0 <= k < |a| ==> s[k] == a[k];
  }

  // The tokens of Join(fs), when the fields may themselves hold separators.
  function Tokens(fs: seq<string>): (ts: seq<string>)
    ensures |ts| >= |fs|
  {
    if fs == [] then [] else Split(fs[0]) + Tokens(fs[1..])
  }

  lemma TokensOne(s: string)
    ensures Tokens([s]) == Split(s)
  {
    assert [s][1..] == [];
  }

  lemma {:induction false} TokensConcat(fs: seq<string>, gs: seq<string>)
    ensures Tokens(fs + gs) == Tokens(fs) + Tokens(gs)
  {
    hide Split;
    if fs == [] {
      assert fs + gs == gs;
    } else {
      assert (fs + gs)[1..] == fs[1..] + gs;
      TokensConcat(fs[1..], gs);
    }
  }

  lemma {:induction false} TokensPipeFree(fs: seq<string>)
    ensures |Tokens(fs)| == |fs| <==> forall i :: 0 <= i < |fs| ==> PipeFree(fs[i])
    ensures |Tokens(fs)| == |fs| ==> Tokens(fs) == fs
  {
    if fs != [] {
      TokensPipeFree(fs[1..]);
      SplitPipeFree(fs[0]);
      assert fs == [fs[0]] + fs[1..];
    }
  }

  lemma {:induction false} SplitJoin(fs: seq<string>)
    requires |fs| >= 1
    ensures Split(Join(fs)) == Tokens(fs)
  {
    if |fs| > 1 {
      SplitJoin(fs[1..]);
      SplitConcat(fs[0], Join(fs[1..]));
    }
  }

  lemma SameTokensSameText(fs: seq<string>, gs: seq<string>)
    requires |fs| >= 1 && |gs| >= 1
    ensures Join(fs) == Join(gs) <==> Tokens(fs) == Tokens(gs)
  {
    SplitJoin(fs);
    SplitJoin(gs);
    if Tokens(fs) == Tokens(gs) { SplitInjective(Join(fs), Join(gs)); }
  }

  // ---------- strings.TrimSpace, strings.ToLower (ASCII) ----------

  predicate IsSpace(c: char) {
    c == ' ' || c == '\t' || c == '\n' || c == '\r' || c == 11 as char || c == 12 as char
  }

  function TrimLeft(s: string): string {
    if s != [] && IsSpace(s[0]) then TrimLeft(s[1..]) else s
  }

  function TrimRight(s: string): string {
    if s != [] && IsSpace(s[|s| - 1]) then TrimRight(s[..|s| - 1]) else s
  }

  function TrimSpace(s: string): string {
    TrimRight(TrimLeft(s))
  }

  function ToLower(s: string): (r: string)
    ensures |r| == |s|
  {
    seq(|s|, i requires 0 <= i < |s| => if 'A' <= s[i] <= 'Z' then s[i] - 'A' + 'a' else s[i])
  }

  // Blanks by their codes: space, and 9 to 13.
  predicate AllBlank(s: string) {
    forall i :: 0 <= i < |s| ==> s[i] == ' ' || 9 <= s[i] as int <= 13
  }

  lemma {:induction false} TrimLeftDrops(a: string, m: string)
    requires AllBlank(a) && (m == "" || !AllBlank(m[..1]))
    ensures TrimLeft(a + m) == m
  {
    if a != "" {
      assert (a + m)[1..] == a[1..] + m && (a + m)[0] == a[0];
      TrimLeftDrops(a[1..], m);
    } else {
      assert a + m == m;
      assert m != "" ==> m[..1][0] == m[0];
    }
  }

  lemma {:induction false} TrimRightDrops(m: string, b: string)
    requires AllBlank(b) && (m == "" || !AllBlank(m[|m| - 1..]))
    ensures TrimRight(m + b) == m
  {
    if b != "" {
      var n := |b| - 1;
      assert (m + b)[..|m + b| - 1] == m + b[..n] && (m + b)[|m + b| - 1] == b[n];
      TrimRightDrops(m, b[..n]);
    } else {
      assert m + b == m;
      assert m != "" ==> m[|m| - 1..][0] == m[|m| - 1];
    }
  }

  // Trimming takes off exactly the blanks at both ends.
  lemma TrimSpaceIs(a: string, m: string, b: string)
    requires AllBlank(a) && AllBlank(b) && (m == "" || (!AllBlank(m[..1]) && !AllBlank(m[|m| - 1..])))
    ensures TrimSpace(a + m + b) == m
  {
    hide TrimLeft, TrimRight;
    if m == "" {
      assert a + m + b == (a + b) + "";
      TrimLeftDrops(a + b, "");
      TrimRightDrops("", "");
      assert "" + "" == "";
    } else {
      assert a + m + b == a + (m + b) && (m + b)[..1] == m[..1];
      TrimLeftDrops(a, m + b);
      TrimRightDrops(m, b);
    }
  }

  // Every text comes apart in this way.
  lemma {:induction false} TrimSpaceCuts(s: string) returns (a: string, b: string)
    ensures AllBlank(a) && AllBlank(b) && s == a + TrimSpace(s) + b
    ensures var m := TrimSpace(s); m == "" || (!AllBlank(m[..1]) && !AllBlank(m[|m| - 1..]))
    decreases |s|
  {
    if s == "" {
      a, b := "", "";
    } else if AllBlank(s[..1]) {
      a, b := TrimSpaceCuts(s[1..]);
      var m := TrimSpace(s[1..]);
      assert s == s[..1] + s[1..];
      assert s == (s[..1] + a) + m + b;
      TrimSpaceIs(s[..1] + a, m, b);
      a := s[..1] + a;
    } else if AllBlank(s[|s| - 1..]) {
      var n := |s| - 1;
      a, b := TrimSpaceCuts(s[..n]);
      var m := TrimSpace(s[..n]);
      assert s == s[..n] + s[n..];
      assert s == a + m + (b + s[n..]);
      TrimSpaceIs(a, m, b + s[n..]);
      b := b + s[n..];
    } else {
      a, b := "", "";
      assert s == "" + s + "";
      TrimSpaceIs("", s, "");
    }
  }

  lemma BlankIff(s: string)
    ensures TrimSpace(s) == "" <==> AllBlank(s)
  {
    var a, b := TrimSpaceCuts(s);
    if AllBlank(s) {
      assert s == s + "" + "";
      TrimSpaceIs(s, "", "");
    }
  }

  // A text with something to see in it.
  predicate NonBlank(s: string) {
    exists i :: 0 <= i < |s| && s[i] != ' ' && !(9 <= s[i] as int <= 13)
  }

  lemma NonBlankIff(s: string)
    ensures NonBlank(s) <==> TrimSpace(s) != ""
  {
    BlankIff(s);
  }

  // The same letter, in the same or the other case, or the same character.
  predicate CaseVariant(c: char, d: char) {
    c == d || ('A' <= c <= 'Z' && 'a' <= d <= 'z' && c - 'A' == d - 'a')
    || ('A' <= d <= 'Z' && 'a' <= c <= 'z' && d - 'A' == c - 'a')
  }

  predicate CaseVariants(s: string, t: string) {
    |s| == |t| && forall i :: 0 <= i < |s| ==> CaseVariant(s[i], t[i])
  }

  lemma ToLowerIff(s: string, t: string)
    ensures ToLower(s) == ToLower(t) <==> CaseVariants(s, t)
    ensures CaseVariants(s, ToLower(s)) && forall i :: 0 <= i < |s| ==> !('A' <= ToLower(s)[i] <= 'Z')
  {
    var x, y := ToLower(s), ToLower(t);
    if x == y {
      forall i | 0 <= i < |s| ensures CaseVariant(s[i], t[i]) {
        assert x[i] == y[i];
      }
    }
    if CaseVariants(s, t) {
      forall i | 0 <= i < |x| ensures x[i] == y[i] {
        assert CaseVariant(s[i], t[i]);
      }
    }
  }

  // ---------- Go's string order ----------

  predicate StrLess(a: string, b: string) {
    if b == [] then false
    else if a == [] then true
    else if a[0] != b[0] then a[0] < b[0]
    else StrLess(a[1..], b[1..])
  }

  lemma {:induction false} StrLessTotal(a: string, b: string)
    ensures !(StrLess(a, b) && StrLess(b, a))
    ensures StrLess(a, b) || StrLess(b, a) || a == b
    ensures !StrLess(a, a)
  {
    if a != [] { StrLessTotal(a[1..], a[1..]); }
    if a != [] && b != [] && a[0] == b[0] {
      StrLessTotal(a[1..], b[1..]);
      assert a == [a[0]] + a[1..] && b == [b[0]] + b[1..];
    }
  }

  lemma {:induction false} StrLessTransitive(a: string, b: string, c: string)
    requires StrLess(a, b) && StrLess(b, c)
    ensures StrLess(a, c)
  {
    if a != [] && a[0] == b[0] == c[0] {
      StrLessTransitive(a[1..], b[1..], c[1..]);
    }
  }

  // Lexicographic: the first difference decides, or the shorter text.
  lemma {:induction false} StrLessIff(a: string, b: string)
    ensures StrLess(a, b) <==>
      exists i :: 0 <= i <= |a| && i < |b| && a[..i] == b[..i] && (i == |a| || a[i] < b[i])
  {
    if a != [] && b != [] && a[0] == b[0] {
      StrLessIff(a[1..], b[1..]);
      var x, y := a[1..], b[1..];
      if i :| 0 <= i <= |x| && i < |y| && x[..i] == y[..i] && (i == |x| || x[i] < y[i]) {
        assert a[..i + 1] == [a[0]] + x[..i] && b[..i + 1] == [b[0]] + y[..i];
      }
      if j :| 0 <= j <= |a| && j < |b| && a[..j] == b[..j] && (j == |a| || a[j] < b[j]) {
        assert j > 0;
        assert x[..j - 1] == a[..j][1..] && y[..j - 1] == b[..j][1..];
      }
    } else if b != [] {
      assert a[..0] == b[..0];
      forall j | 0 < j <= |a| && j < |b| ensures a[..j] != b[..j] {
        assert a[..j][0] == a[0] && b[..j][0] == b[0];
      }
    }
  }

  lemma StrLessNegTransitive(a: string, b: string, c: string)
    requires !StrLess(a, b) && !StrLess(b, c)
    ensures !StrLess(a, c)
  {
    StrLessTotal(a, b);
    StrLessTotal(b, c);
    StrLessTotal(a, c);
    if StrLess(b, a) && StrLess(c, b) { StrLessTransitive(c, b, a); }
  }
}
