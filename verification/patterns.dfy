/**
 * The fragment of JavaScript regular expressions used by the proxy's
 * classification patterns (literals, alternation, concatenation and `.*`),
 * with the `i` flag: a declarative span semantics, an executable matcher, and
 * the proof that the two agree.
 */
module Patterns {
  import opened Text

  datatype Re =
    | Lit(text: string)         // a literal, compared case-insensitively
    | Alt(left: Re, right: Re)  // left|right
    | Cat(first: Re, second: Re)
    | AnyRun                    // .*

  /** `re` matches `s[i..j]` (ASCII letters compared without case, as the `i` flag does). */
  ghost predicate Span(re: Re, s: string, i: int, j: int)
    decreases re
  {
    0 <= i <= j <= |s| &&
    match re
    case Lit(p) => Fold(s[i..j]) == Fold(p)
    case Alt(a, b) => Span(a, s, i, j) || Span(b, s, i, j)
    case Cat(a, b) => exists k :: Span(a, s, i, k) && Span(b, s, k, j)
    case AnyRun => forall k :: i <= k < j ==> !IsLineTerminator(s[k])
  }

  /** `re.test(s)` for a pattern without anchors: some substring matches. */
  ghost predicate Test(re: Re, s: string)
  {
    exists i, j :: Span(re, s, i, j)
  }

  /** An alternation of literals, `p0|p1|...`. */
  function Choice(ps: seq<string>): Re
    requires ps != []
  {
    if |ps| == 1 then Lit(ps[0]) else Alt(Lit(ps[0]), Choice(ps[1..]))
  }

  /** The first line terminator at or after `i`, or `|s|`. */
  function RunEnd(s: string, i: nat): (r: nat)
    requires i <= |s|
    ensures i <= r <= |s|
    ensures forall k :: i <= k < r ==> !IsLineTerminator(s[k])
    ensures r < |s| ==> IsLineTerminator(s[r])
    decreases |s| - i
  {
    if i == |s| || IsLineTerminator(s[i]) then i else RunEnd(s, i + 1)
  }

  /** Every end position `j` such that `re` matches `s[i..j]`. */
  function Ends(re: Re, s: string, i: nat): (r: set<nat>)
    requires i <= |s|
    ensures forall j :: j in r ==> i <= j <= |s|
    decreases re
  {
    match re
    case Lit(p) => if i + |p| <= |s| && Fold(s[i..i + |p|]) == Fold(p) then {i + |p|} else {}
    case Alt(a, b) => Ends(a, s, i) + Ends(b, s, i)
    case Cat(a, b) => set k, j | k in Ends(a, s, i) && j in Ends(b, s, k) :: j
    case AnyRun => Interval(i, RunEnd(s, i))
  }

  function Interval(lo: nat, hi: nat): (r: set<nat>)
    ensures forall j :: j in r <==> lo <= j <= hi
    decreases hi - lo
  {
    if lo > hi then {} else {lo} + Interval(lo + 1, hi)
  }

  /** The executable `re.test(s)`: a match starts at some position. */
  predicate Search(re: Re, s: string)
  {
    exists i :: 0 <= i <= |s| && Ends(re, s, i) != {}
  }

  lemma {:induction false} EndsCorrect(re: Re, s: string, i: nat, j: int)
    requires i <= |s|
    ensures j in Ends(re, s, i) <==> Span(re, s, i, j)
    decreases re
  {
    match re
    case Lit(p) =>
    case Alt(a, b) =>
      EndsCorrect(a, s, i, j);
      EndsCorrect(b, s, i, j);
    case Cat(a, b) =>
      if j in Ends(re, s, i) {
        var k :| k in Ends(a, s, i) && j in Ends(b, s, k);
        EndsCorrect(a, s, i, k);
        EndsCorrect(b, s, k, j);
      }
      if Span(re, s, i, j) {
        assert Span(Cat(a, b), s, i, j);
        var k :| Span(a, s, i, k) && Span(b, s, k, j);
        EndsCorrect(a, s, i, k);
        EndsCorrect(b, s, k, j);
        assert j in Ends(b, s, k);
      }
    case AnyRun =>
  }

  /** The matcher decides exactly the span semantics. */
  lemma SearchCorrect(re: Re, s: string)
    ensures Search(re, s) <==> Test(re, s)
  {
    if Search(re, s) {
      var i :| 0 <= i <= |s| && Ends(re, s, i) != {};
      var j :| j in Ends(re, s, i);
      EndsCorrect(re, s, i, j);
      assert Span(re, s, i, j);
    }
    if Test(re, s) {
      var i, j :| Span(re, s, i, j);
      EndsCorrect(re, s, i, j);
      assert Ends(re, s, i) != {};
    }
  }

  // ------------------------------------------------ reasoning about Test

  lemma TestAlt(a: Re, b: Re, s: string)
    ensures Test(Alt(a, b), s) <==> Test(a, s) || Test(b, s)
  {
    if Test(Alt(a, b), s) {
      var i, j :| Span(Alt(a, b), s, i, j);
      assert Span(Alt(a, b), s, i, j);
      assert Span(a, s, i, j) || Span(b, s, i, j);
    }
    if Test(a, s) {
      var i, j :| Span(a, s, i, j);
      assert Span(a, s, i, j);
      assert Span(Alt(a, b), s, i, j);
    }
    if Test(b, s) {
      var i, j :| Span(b, s, i, j);
      assert Span(b, s, i, j);
      assert Span(Alt(a, b), s, i, j);
    }
  }

  /** A match of `ab` contains a match of `a` and one of `b`. */
  lemma TestCat(a: Re, b: Re, s: string)
    requires Test(Cat(a, b), s)
    ensures Test(a, s) && Test(b, s)
  {
    var i, j :| Span(Cat(a, b), s, i, j);
    assert Span(Cat(a, b), s, i, j);
    var k :| Span(a, s, i, k) && Span(b, s, k, j);
    assert Span(a, s, i, k) && Span(b, s, k, j);
  }

  /** An alternation of literals matches where one of its literals does. */
  lemma {:induction false} SpanChoice(ps: seq<string>, m: nat, s: string, i: int, j: int)
    requires m < |ps| && Span(Lit(ps[m]), s, i, j)
    ensures Span(Choice(ps), s, i, j)
    decreases |ps|
  {
    if m > 0 {
      SpanChoice(ps[1..], m - 1, s, i, j);
    }
  }

  /** Every match of an alternation of literals is a match of one of them. */
  lemma {:induction false} ChoiceSpan(ps: seq<string>, s: string, i: int, j: int)
    requires ps != [] && Span(Choice(ps), s, i, j)
    ensures exists m :: 0 <= m < |ps| && Span(Lit(ps[m]), s, i, j)
    decreases |ps|
  {
    if |ps| > 1 && !Span(Lit(ps[0]), s, i, j) {
      ChoiceSpan(ps[1..], s, i, j);
      var m :| 0 <= m < |ps[1..]| && Span(Lit(ps[1..][m]), s, i, j);
      assert ps[1..][m] == ps[m + 1];
    }
  }

  /** `a(p0|p1|...)` read as substrings: the folded `a + pm` occurs for some `m`. */
  ghost predicate OccursOneOf(s: string, a: string, ps: seq<string>)
  {
    exists m :: 0 <= m < |ps| && Contains(Fold(s), Fold(a + ps[m]))
  }

  lemma LitChoiceCorrect(a: string, ps: seq<string>, s: string)
    requires ps != []
    ensures Test(Cat(Lit(a), Choice(ps)), s) <==> OccursOneOf(s, a, ps)
  {
    if Test(Cat(Lit(a), Choice(ps)), s) {
      LitChoiceOccurs(a, ps, s);
    }
    if OccursOneOf(s, a, ps) {
      OccursLitChoice(a, ps, s);
    }
  }

  lemma LitChoiceOccurs(a: string, ps: seq<string>, s: string)
    requires ps != [] && Test(Cat(Lit(a), Choice(ps)), s)
    ensures OccursOneOf(s, a, ps)
  {
    var i, j :| Span(Cat(Lit(a), Choice(ps)), s, i, j);
    assert Span(Cat(Lit(a), Choice(ps)), s, i, j);
    var k :| Span(Lit(a), s, i, k) && Span(Choice(ps), s, k, j);
    ChoiceSpan(ps, s, k, j);
    var m :| 0 <= m < |ps| && Span(Lit(ps[m]), s, k, j);
    LitSpanOccurs(a, s, i, k);
    LitSpanOccurs(ps[m], s, k, j);
    FoldConcat(a, ps[m]);
    OccursConcat(Fold(s), Fold(a), Fold(ps[m]), i);
  }

  /** Two adjacent occurrences make one occurrence of the concatenation. */
  lemma OccursConcat(f: string, x: string, y: string, i: int)
    requires OccursAt(f, x, i) && OccursAt(f, y, i + |x|)
    ensures OccursAt(f, x + y, i) && Contains(f, x + y)
  {
    assert f[i..i + |x| + |y|] == f[i..i + |x|] + f[i + |x|..i + |x| + |y|];
    assert OccursAt(f, x + y, i) && i <= |f| - |x + y|;
  }

  lemma OccursLitChoice(a: string, ps: seq<string>, s: string)
    requires ps != [] && OccursOneOf(s, a, ps)
    ensures Test(Cat(Lit(a), Choice(ps)), s)
  {
    var m :| 0 <= m < |ps| && Contains(Fold(s), Fold(a + ps[m]));
    var p := ps[m];
    FoldConcat(a, p);
    var i :| 0 <= i <= |Fold(s)| - |Fold(a) + Fold(p)| && OccursAt(Fold(s), Fold(a) + Fold(p), i);
    OccursSplit(Fold(s), Fold(a), Fold(p), i);
    var k, j := i + |a|, i + |a| + |p|;
    LitSpanOccurs(a, s, i, k);
    LitSpanOccurs(p, s, k, j);
    SpanChoice(ps, m, s, k, j);
    assert Span(Cat(Lit(a), Choice(ps)), s, i, j);
  }

  /** An occurrence of a concatenation is two adjacent occurrences. */
  lemma OccursSplit(f: string, x: string, y: string, i: int)
    requires OccursAt(f, x + y, i)
    ensures OccursAt(f, x, i) && OccursAt(f, y, i + |x|)
  {
    assert f[i..i + |x|] == f[i..i + |x| + |y|][..|x|];
    assert f[i + |x|..i + |x| + |y|] == f[i..i + |x| + |y|][|x|..];
  }

  /** A literal matches exactly where its folded text occurs in the folded string. */
  lemma TestLitContains(p: string, s: string)
    ensures Test(Lit(p), s) <==> Contains(Fold(s), Fold(p))
  {
    if Test(Lit(p), s) {
      var i, j :| Span(Lit(p), s, i, j);
      LitSpanOccurs(p, s, i, j);
      assert 0 <= i <= |Fold(s)| - |Fold(p)| && OccursAt(Fold(s), Fold(p), i);
    }
    if Contains(Fold(s), Fold(p)) {
      var i :| 0 <= i <= |Fold(s)| - |Fold(p)| && OccursAt(Fold(s), Fold(p), i);
      LitSpanOccurs(p, s, i, i + |p|);
      assert Span(Lit(p), s, i, i + |p|);
    }
  }

  /** A literal cannot match a string that has no character folding to its `m`-th. */
  lemma LitAbsent(p: string, m: nat, s: string)
    requires m < |p|
    requires forall k :: 0 <= k < |s| ==> FoldChar(s[k]) != FoldChar(p[m])
    ensures !Test(Lit(p), s)
  {
    forall i, j ensures !Span(Lit(p), s, i, j) {
      if 0 <= i <= j <= |s| && j - i == |p| {
        assert Fold(s[i..j])[m] == FoldChar(s[i + m]) != FoldChar(p[m]) == Fold(p)[m];
      }
    }
  }

  /**
   * `a.*b` read as substrings: the folded `a` occurs at `i`, the folded `b` at
   * some `j >= i + |a|`, and no line terminator lies between them.
   */
  ghost predicate GapOccurs(s: string, a: string, b: string)
  {
    exists i, j :: i + |a| <= j && OccursAt(Fold(s), Fold(a), i) && OccursAt(Fold(s), Fold(b), j)
                   && forall k :: i + |a| <= k < j ==> !IsLineTerminator(s[k])
  }

  lemma LitSpanOccurs(p: string, s: string, i: int, j: int)
    ensures Span(Lit(p), s, i, j) <==> j == i + |p| && OccursAt(Fold(s), Fold(p), i)
  {
    if 0 <= i <= j <= |s| {
      FoldSlice(s, i, j);
    }
    if OccursAt(Fold(s), Fold(p), i) {
      FoldSlice(s, i, i + |p|);
    }
  }

  lemma GapCorrect(a: string, b: string, s: string)
    ensures Test(Cat(Lit(a), Cat(AnyRun, Lit(b))), s) <==> GapOccurs(s, a, b)
  {
    if Test(Cat(Lit(a), Cat(AnyRun, Lit(b))), s) {
      GapMatchOccurs(a, b, s);
    }
    if GapOccurs(s, a, b) {
      GapOccursMatch(a, b, s);
    }
  }

  lemma GapMatchOccurs(a: string, b: string, s: string)
    requires Test(Cat(Lit(a), Cat(AnyRun, Lit(b))), s)
    ensures GapOccurs(s, a, b)
  {
    var re := Cat(Lit(a), Cat(AnyRun, Lit(b)));
    var i, j :| Span(re, s, i, j);
    assert Span(re, s, i, j);
    var k :| Span(Lit(a), s, i, k) && Span(Cat(AnyRun, Lit(b)), s, k, j);
    assert Span(Cat(AnyRun, Lit(b)), s, k, j);
    var l :| Span(AnyRun, s, k, l) && Span(Lit(b), s, l, j);
    assert Span(AnyRun, s, k, l);
    LitSpanOccurs(a, s, i, k);
    LitSpanOccurs(b, s, l, j);
    assert i + |a| <= l && OccursAt(Fold(s), Fold(a), i) && OccursAt(Fold(s), Fold(b), l);
  }

  lemma GapOccursMatch(a: string, b: string, s: string)
    requires GapOccurs(s, a, b)
    ensures Test(Cat(Lit(a), Cat(AnyRun, Lit(b))), s)
  {
    var i, l :| i + |a| <= l && OccursAt(Fold(s), Fold(a), i) && OccursAt(Fold(s), Fold(b), l)
                && forall k :: i + |a| <= k < l ==> !IsLineTerminator(s[k]);
    LitSpanOccurs(a, s, i, i + |a|);
    LitSpanOccurs(b, s, l, l + |b|);
    assert Span(AnyRun, s, i + |a|, l);
    assert Span(Cat(AnyRun, Lit(b)), s, i + |a|, l + |b|);
    assert Span(Cat(Lit(a), Cat(AnyRun, Lit(b))), s, i, l + |b|);
  }
}
