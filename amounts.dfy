/** Currency amounts as the bill parser reads them: every match of the
    pattern [\d,]+\.\d{2} (Combov1.py:206-207), scanned left to right
    without overlap as re.findall does, and the exact value of a matched
    literal once its thousands separators are dropped (Combov1.py:214-220). */
module Amounts {
  import opened Maybe
  import opened Text

  predicate IsAmountChar(c: char) {
    IsDigit(c) || c == ','
  }

  /** The whole of s matches [\d,]+\.\d{2}. */
  predicate IsAmountLiteral(s: string) {
    && |s| >= 4
    && s[|s| - 3] == '.' && IsDigit(s[|s| - 2]) && IsDigit(s[|s| - 1])
    && forall i :: 0 <= i < |s| - 3 ==> IsAmountChar(s[i])
  }

  type AmountLiteral = s: string | IsAmountLiteral(s) witness "0.00"

  /** End of the longest run of digits and commas starting at p. */
  function RunEnd(s: string, p: nat): (q: nat)
    requires p <= |s|
    ensures p <= q <= |s|
    decreases |s| - p
  {
    if p < |s| && IsAmountChar(s[p]) then RunEnd(s, p + 1) else p
  }

  /** The run is the longest one: every character in it is a digit or a
      comma, and the one after it is not. */
  lemma {:induction false} RunEndIsMaximal(s: string, p: nat)
    requires p <= |s|
    ensures forall i :: p <= i < RunEnd(s, p) ==> IsAmountChar(s[i])
    ensures RunEnd(s, p) < |s| ==> !IsAmountChar(s[RunEnd(s, p)])
    decreases |s| - p
  {
    if p < |s| && IsAmountChar(s[p]) {
      RunEndIsMaximal(s, p + 1);
    }
  }

  /** Where a match of [\d,]+\.\d{2} that starts at p ends. The greedy run
      of digits and commas cannot give anything back: the character after
      a shorter run is a digit or comma, never the required '.'. */
  function MatchEndAt(s: string, p: nat): (r: Option<nat>)
    ensures r.Some? ==> p < r.value <= |s| && IsAmountLiteral(s[p..r.value])
  {
    if p < |s| && IsAmountChar(s[p]) then
      var q := RunEnd(s, p);
      RunEndIsMaximal(s, p);
      if q + 3 <= |s| && s[q] == '.' && IsDigit(s[q + 1]) && IsDigit(s[q + 2])
      then Some(q + 3) else None
    else None
  }

  /** The regex matches at p exactly when some amount literal starts at p,
      and then it ends where that literal ends. */
  lemma MatchAtIff(s: string, p: nat, e: nat)
    requires p < e <= |s|
    ensures IsAmountLiteral(s[p..e]) <==> MatchEndAt(s, p) == Some(e)
  {
    if IsAmountLiteral(s[p..e]) {
      var lit := s[p..e];
      assert IsAmountChar(lit[0]);
      var q := RunEnd(s, p);
      RunEndIsMaximal(s, p);
      assert s[e - 3] == lit[|lit| - 3];
      assert q == e - 3;
    }
  }

  datatype AmountMatch = AmountMatch(start: nat, end: nat)

  /** re.findall of the amount pattern on s, from position p on. */
  function FindAmountsFrom(s: string, p: nat): (ms: seq<AmountMatch>)
    requires p <= |s|
    ensures forall m :: m in ms ==> p <= m.start < m.end <= |s| && IsAmountLiteral(s[m.start..m.end])
    decreases |s| - p
  {
    if p == |s| then []
    else match MatchEndAt(s, p)
      case Some(e) => [AmountMatch(p, e)] + FindAmountsFrom(s, e)
      case None => FindAmountsFrom(s, p + 1)
  }

  /** Every match findall reports is where the regex, tried at its start,
      ends. */
  lemma {:induction false} FindAmountsMatch(s: string, p: nat)
    requires p <= |s|
    ensures forall i :: 0 <= i < |FindAmountsFrom(s, p)| ==>
      MatchEndAt(s, FindAmountsFrom(s, p)[i].start) == Some(FindAmountsFrom(s, p)[i].end)
    decreases |s| - p
  {
    if p < |s| {
      var here := MatchEndAt(s, p);
      if here.None? {
        assert FindAmountsFrom(s, p) == FindAmountsFrom(s, p + 1);
        FindAmountsMatch(s, p + 1);
      } else {
        var rest := FindAmountsFrom(s, here.value);
        var ms := [AmountMatch(p, here.value)] + rest;
        assert FindAmountsFrom(s, p) == ms;
        FindAmountsMatch(s, here.value);
        forall i | 0 <= i < |ms|
          ensures MatchEndAt(s, ms[i].start) == Some(ms[i].end)
        {
          if i > 0 {
            assert ms[i] == rest[i - 1];
            assert MatchEndAt(s, rest[i - 1].start) == Some(rest[i - 1].end);
          }
        }
      }
    }
  }

  /** The matches come left to right without overlapping. */
  lemma {:induction false} FindAmountsOrdered(s: string, p: nat)
    requires p <= |s|
    ensures forall i :: 0 < i < |FindAmountsFrom(s, p)| ==>
      FindAmountsFrom(s, p)[i - 1].end <= FindAmountsFrom(s, p)[i].start
    decreases |s| - p
  {
    if p < |s| {
      var here := MatchEndAt(s, p);
      if here.None? {
        assert FindAmountsFrom(s, p) == FindAmountsFrom(s, p + 1);
        FindAmountsOrdered(s, p + 1);
      } else {
        var rest := FindAmountsFrom(s, here.value);
        var ms := [AmountMatch(p, here.value)] + rest;
        assert FindAmountsFrom(s, p) == ms;
        FindAmountsOrdered(s, here.value);
        forall i | 0 < i < |ms|
          ensures ms[i - 1].end <= ms[i].start
        {
          if i == 1 {
            assert rest[0] in rest;
          } else {
            assert ms[i - 1] == rest[i - 2] && ms[i] == rest[i - 1];
          }
        }
      }
    }
  }

  function FindAmounts(s: string): seq<AmountMatch> {
    FindAmountsFrom(s, 0)
  }

  /** The matched text. */
  function Literal(s: string, m: AmountMatch): (lit: AmountLiteral)
    requires m.start < m.end <= |s| && IsAmountLiteral(s[m.start..m.end])
    ensures OccursAt(s, lit, m.start)
  {
    s[m.start..m.end]
  }

  /** findall finds nothing exactly when the pattern matches nowhere, and
      its first match is the leftmost position where the pattern matches. */
  lemma {:induction false} FirstMatchIsLeftmost(s: string, p: nat)
    requires p <= |s|
    ensures FindAmountsFrom(s, p) == [] <==> forall k :: p <= k < |s| ==> MatchEndAt(s, k).None?
    ensures FindAmountsFrom(s, p) != [] ==>
              forall k :: p <= k < FindAmountsFrom(s, p)[0].start ==> MatchEndAt(s, k).None?
    decreases |s| - p
  {
    if p < |s| {
      var here := MatchEndAt(s, p);
      if here.None? {
        assert FindAmountsFrom(s, p) == FindAmountsFrom(s, p + 1);
        FirstMatchIsLeftmost(s, p + 1);
      } else {
        assert FindAmountsFrom(s, p)[0] == AmountMatch(p, here.value);
      }
    }
  }

  /** The pattern matches at no position in [a, b). */
  predicate NoMatchIn(s: string, a: nat, b: nat) {
    forall k :: a <= k < b ==> MatchEndAt(s, k).None?
  }

  /** findall skips nothing between two consecutive matches: the pattern
      matches nowhere from the end of one match to the start of the next. */
  lemma {:induction false} NextMatchIsLeftmost(s: string, p: nat)
    requires p <= |s|
    ensures forall i :: 0 < i < |FindAmountsFrom(s, p)| ==>
              NoMatchIn(s, FindAmountsFrom(s, p)[i - 1].end, FindAmountsFrom(s, p)[i].start)
    decreases |s| - p
  {
    if p < |s| {
      var here := MatchEndAt(s, p);
      if here.None? {
        assert FindAmountsFrom(s, p) == FindAmountsFrom(s, p + 1);
        NextMatchIsLeftmost(s, p + 1);
      } else {
        var e := here.value;
        var rest := FindAmountsFrom(s, e);
        var ms := [AmountMatch(p, e)] + rest;
        assert FindAmountsFrom(s, p) == ms;
        NextMatchIsLeftmost(s, e);
        forall i | 0 < i < |ms|
          ensures NoMatchIn(s, ms[i - 1].end, ms[i].start)
        {
          if i == 1 {
            FirstMatchIsLeftmost(s, e);
          } else {
            assert ms[i - 1] == rest[i - 2] && ms[i] == rest[i - 1];
          }
        }
      }
    }
  }

  /** Where the last of the matches ms ends, or p when there are none. */
  function LastEnd(ms: seq<AmountMatch>, p: nat): nat {
    if ms == [] then p else ms[|ms| - 1].end
  }

  lemma LastEndCons(m: AmountMatch, rest: seq<AmountMatch>, p: nat)
    ensures LastEnd([m] + rest, p) == LastEnd(rest, m.end)
  {
    if rest != [] {
      assert ([m] + rest)[|rest|] == rest[|rest| - 1];
    }
  }

  /** findall skips nothing at the end either: after its last match (from p
      on when there is none) the pattern matches nowhere. */
  lemma {:induction false} NoMatchAfterLast(s: string, p: nat)
    requires p <= |s|
    ensures NoMatchIn(s, LastEnd(FindAmountsFrom(s, p), p), |s|)
    decreases |s| - p
  {
    if p < |s| {
      var here := MatchEndAt(s, p);
      if here.None? {
        assert FindAmountsFrom(s, p) == FindAmountsFrom(s, p + 1);
        NoMatchAfterLast(s, p + 1);
      } else {
        var e := here.value;
        assert FindAmountsFrom(s, p) == [AmountMatch(p, e)] + FindAmountsFrom(s, e);
        LastEndCons(AmountMatch(p, e), FindAmountsFrom(s, e), p);
        NoMatchAfterLast(s, e);
      }
    }
  }

  function DigitValue(c: char): nat
    requires IsDigit(c)
  {
    c as int - '0' as int
  }

  /** The decimal number spelt by the digits of s, other characters skipped. */
  function DigitsValue(s: string): nat {
    if s == [] then 0
    else if IsDigit(s[|s| - 1]) then DigitsValue(s[..|s| - 1]) * 10 + DigitValue(s[|s| - 1])
    else DigitsValue(s[..|s| - 1])
  }

  /** float(lit.replace(',', '')) computed exactly: the literal has exactly
      two fraction digits, so its value is its digits read as paise. */
  function AmountValue(lit: AmountLiteral): (v: real)
    ensures v >= 0.0
  {
    DigitsValue(lit) as real / 100.0
  }

  /** The value is the integer part, read with its commas dropped, plus the
      two fraction digits as hundredths. */
  lemma AmountValueSplit(lit: AmountLiteral)
    ensures var n := |lit|;
      AmountValue(lit) == DigitsValue(lit[..n - 3]) as real
                          + (10 * DigitValue(lit[n - 2]) + DigitValue(lit[n - 1])) as real / 100.0
  {
    var n := |lit|;
    var d1, d2 := DigitValue(lit[n - 2]), DigitValue(lit[n - 1]);
    assert lit[..n - 1][..n - 2] == lit[..n - 2];
    assert lit[..n - 2][..n - 3] == lit[..n - 3];
    assert DigitsValue(lit[..n - 2]) == DigitsValue(lit[..n - 3]);
    assert DigitsValue(lit[..n - 1]) == DigitsValue(lit[..n - 3]) * 10 + d1;
    assert DigitsValue(lit) == DigitsValue(lit[..n - 3]) * 100 + 10 * d1 + d2;
  }
}
