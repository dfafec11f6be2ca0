// packages/application/match.go: what counts as a word, told by the characters
// of the text.
module MatchingOnFields {
  import opened Text
  import opened RuleMatching

  // Letters of either case and digits.
  predicate WordAt(text: string, i: int) {
    0 <= i < |text| && ('a' <= text[i] <= 'z' || 'A' <= text[i] <= 'Z' || '0' <= text[i] <= '9')
  }

  // A stretch of them that neither begins nor ends in the middle of one.
  predicate WordBetween(text: string, i: int, k: int) {
    && 0 <= i < k <= |text| && (forall m :: i <= m < k ==> WordAt(text, m))
    && !WordAt(text, i - 1) && !WordAt(text, k)
  }

  // The stretch in lower case.
  predicate SpelledLower(w: string, text: string, i: int)
    requires 0 <= i && i + |w| <= |text|
  {
    forall m :: 0 <= m < |w| ==>
      w[m] as int == text[i + m] as int + if 'A' <= text[i + m] <= 'Z' then 32 else 0
  }

  predicate WordSpelled(text: string, i: int, w: string) {
    WordBetween(text, i, i + |w|) && SpelledLower(w, text, i)
  }

  ghost predicate HasWord(text: string, w: string) {
    exists i :: WordSpelled(text, i, w)
  }

  // The tokens are exactly the words.
  lemma TokensAreWords(text: string, w: string)
    ensures w in Tokenize(text) <==> HasWord(text, w)
  {
    hide Words, ToLower, IsWordChar, Ends, WordSpelled;
    var t := ToLower(text);
    var j := WordsSoFar(t);
    if HasWord(text, w) {
      var i :| WordSpelled(text, i, w);
      LoweredWord(text, i, w);
      if i + |w| == |t| {
        SameSuffix(t, i, j, w);
        WordIsThere(t, i, w);
        assert t[j..] == t[i..i + |w|];
      } else {
        assert Before(t, w);
      }
    }
    if w in Tokenize(text) {
      if w in Words(t).0 {
        var i :| 0 <= i && i + |w| < |t| && Ends(t, i, w);
        LoweredWord(text, i, w);
      } else {
        LastWordEnds(t, j, w);
        LoweredWord(text, j, w);
      }
    }
  }

  lemma WordIsThere(t: string, i: int, w: string)
    requires 0 <= i && i + |w| <= |t| && Ends(t, i, w)
    ensures w != "" && t[i..i + |w|] == w
  {
  }

  lemma LastWordEnds(t: string, j: nat, w: string)
    requires j <= |t| && w == t[j..] && w != ""
    requires (forall m :: j <= m < |t| ==> IsWordChar(t[m])) && (j > 0 ==> !IsWordChar(t[j - 1]))
    ensures Ends(t, j, w)
  {
  }

  // w stands at i in a text of lower-case letters, and cannot be made longer.
  predicate Ends(t: string, i: int, w: string)
    requires 0 <= i && i + |w| <= |t|
  {
    && w != "" && t[i..i + |w|] == w && (forall m :: i <= m < i + |w| ==> IsWordChar(t[m]))
    && (i > 0 ==> !IsWordChar(t[i - 1])) && (i + |w| < |t| ==> !IsWordChar(t[i + |w|]))
  }

  lemma LoweredWord(text: string, i: int, w: string)
    ensures var t := ToLower(text);
      WordSpelled(text, i, w) <==> 0 <= i && i + |w| <= |t| && Ends(t, i, w)
  {
    var t := ToLower(text);
    forall m | 0 <= m < |t| ensures IsWordChar(t[m]) <==> WordAt(text, m) {}
    if 0 <= i && i + |w| <= |t| {
      var part := t[i..i + |w|];
      assert forall m :: 0 <= m < |w| ==> part[m] == t[i + m];
      if WordSpelled(text, i, w) { assert part == w; }
    }
  }

  lemma SameSuffix(t: string, i: int, j: int, w: string)
    requires 0 <= i && i + |w| == |t| && Ends(t, i, w)
    requires 0 <= j <= |t| && (forall m :: j <= m < |t| ==> IsWordChar(t[m])) && (j > 0 ==> !IsWordChar(t[j - 1]))
    ensures i == j
  {
    hide IsWordChar;
  }

  // What the scan has found by the end of t: the words that ended before it, and
  // the one under way from j on.
  lemma {:induction false} WordsSoFar(t: string) returns (j: nat)
    ensures j <= |t| && Words(t).1 == t[j..] && (forall m :: j <= m < |t| ==> IsWordChar(t[m]))
    ensures j > 0 ==> !IsWordChar(t[j - 1])
    ensures forall w :: w in Words(t).0 <==> Before(t, w)
  {
    hide Words, IsWordChar, Ends, Before;
    if t == "" {
      NothingScanned();
      j := 0;
    } else {
      var n := |t| - 1;
      var u := t[..n];
      var i := WordsSoFar(u);
      WordsStep(t);
      j := if IsWordChar(t[n]) then i else |t|;
      assert t[i..] == u[i..] + [t[n]] && u[i..] == t[i..n];
      forall w ensures w in Words(t).0 <==> Before(t, w) {
        BeforeStep(t, i, w);
      }
    }
  }

  lemma NothingScanned()
    ensures Words("") == ({}, "") && forall w :: !Before("", w)
  {
    hide Ends;
  }

  lemma WordsStep(t: string)
    requires t != ""
    ensures var n := |t| - 1; var (done, current) := Words(t[..n]);
      Words(t) == if IsWordChar(t[n]) then (done, current + [t[n]])
                  else (if current == "" then done else done + {current}, "")
  {
    hide IsWordChar;
  }

  // A word of t that something follows.
  ghost predicate Before(t: string, w: string) {
    exists i :: 0 <= i && i + |w| < |t| && Ends(t, i, w)
  }

  // A word that ends before the last character is the same word without it.
  lemma EndsEarlier(t: string, i: int, w: string)
    requires t != "" && 0 <= i && i + |w| < |t| - 1
    ensures Ends(t, i, w) <==> Ends(t[..|t| - 1], i, w)
  {
    hide IsWordChar;
    assert t[i..i + |w|] == t[..|t| - 1][i..i + |w|];
  }

  lemma EndsLast(t: string, i: int, w: string)
    requires t != "" && 0 <= i && i + |w| == |t| - 1
    ensures Ends(t, i, w) <==> Ends(t[..|t| - 1], i, w) && !IsWordChar(t[|t| - 1])
  {
    hide IsWordChar;
    assert t[i..i + |w|] == t[..|t| - 1][i..i + |w|];
  }

  lemma BeforeStep(t: string, j: nat, w: string)
    requires t != "" && j < |t| && (forall m :: j <= m < |t| - 1 ==> IsWordChar(t[m]))
    requires j > 0 ==> !IsWordChar(t[j - 1])
    ensures var n := |t| - 1;
      Before(t, w) <==> Before(t[..n], w) || (!IsWordChar(t[n]) && w != "" && w == t[j..n])
  {
    hide IsWordChar, Ends;
    var n := |t| - 1;
    var u := t[..n];
    assert u[j..] == t[j..n];
    if i :| 0 <= i && i + |w| < |u| && Ends(u, i, w) {
      EndsEarlier(t, i, w);
    }
    if !IsWordChar(t[n]) && w != "" && w == t[j..n] {
      LastWordEnds(u, j, w);
      EndsLast(t, j, w);
    }
    if i :| 0 <= i && i + |w| < |t| && Ends(t, i, w) {
      if i + |w| < n {
        EndsEarlier(t, i, w);
      } else {
        EndsLast(t, i, w);
        SameSuffix(u, i, j, w);
        WordIsThere(u, i, w);
      }
    }
  }

  // A rule scores the share of the smaller of the two sets of words that both
  // have.
  lemma ScoreOnWords(issue: string, rules: seq<OriginatedRule>, i: nat, a: set<string>, b: set<string>)
    requires i < |rules|
    requires forall w :: w in a <==> HasWord(issue, w)
    requires forall w :: w in b <==> HasWord(rules[i].text, w)
    ensures Scored(issue, rules)[i] ==
            RuleMatch(rules[i], if a == {} || b == {} then 0.0
                                else |a * b| as real / (if |b| < |a| then |b| else |a|) as real)
  {
    hide Tokenize, HasWord;
    forall w ensures w in a <==> w in Tokenize(issue) { TokensAreWords(issue, w); }
    forall w ensures w in b <==> w in Tokenize(rules[i].text) { TokensAreWords(rules[i].text, w); }
    assert a == Tokenize(issue) && b == Tokenize(rules[i].text);
  }

  // So nothing is selected exactly if no rule has a word of the issue.
  lemma NoMatchOnWords(issue: string, rules: seq<OriginatedRule>, topN: int)
    ensures Selected(Scored(issue, rules), topN) == [] <==>
            forall i, w :: 0 <= i < |rules| && HasWord(issue, w) ==> !HasWord(rules[i].text, w)
  {
    hide Tokenize, HasWord, Selected, Scored;
    NoMatchIff(issue, rules, topN);
    forall i, w | 0 <= i < |rules|
      ensures w in Tokenize(issue) * Tokenize(rules[i].text) <==> HasWord(issue, w) && HasWord(rules[i].text, w)
    {
      TokensAreWords(issue, w);
      TokensAreWords(rules[i].text, w);
    }
    if Selected(Scored(issue, rules), topN) != [] {
      var i :| 0 <= i < |rules| && Tokenize(issue) * Tokenize(rules[i].text) != {};
      var w :| w in Tokenize(issue) * Tokenize(rules[i].text);
      assert HasWord(issue, w) && HasWord(rules[i].text, w);
    }
  }
}
