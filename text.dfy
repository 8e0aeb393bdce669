/** The string primitives the billing engine relies on: Python's
    whitespace test and strip(), prefix and substring tests, rsplit,
    ' '.join, split()[0], and ASCII upper/lower/title case. */
module Text {
  import opened Maybe

  /** Python's str.isspace() for one code point. */
  predicate IsSpace(c: char) {
    var n := c as int;
    (9 <= n <= 13) || (28 <= n <= 32) || n == 0x85 || n == 0xA0 || n == 0x1680
    || (0x2000 <= n <= 0x200A) || n == 0x2028 || n == 0x2029 || n == 0x202F
    || n == 0x205F || n == 0x3000
  }

  predicate IsDigit(c: char) {
    '0' <= c <= '9'
  }

  /** str.lstrip() */
  function TrimStart(s: string): string {
    if s != [] && IsSpace(s[0]) then TrimStart(s[1..]) else s
  }

  /** lstrip removes exactly the leading blanks. */
  lemma {:induction false} TrimStartFacts(s: string)
    ensures |TrimStart(s)| <= |s| && TrimStart(s) == s[|s| - |TrimStart(s)|..]
    ensures TrimStart(s) == [] || !IsSpace(TrimStart(s)[0])
    ensures forall i :: 0 <= i < |s| - |TrimStart(s)| ==> IsSpace(s[i])
  {
    if s != [] && IsSpace(s[0]) {
      var t := s[1..];
      TrimStartFacts(t);
      assert TrimStart(s) == TrimStart(t);
      var n := |TrimStart(t)|;
      assert t[|t| - n..] == s[|s| - n..];
      forall i | 0 <= i < |s| - n
        ensures IsSpace(s[i])
      {
        if i > 0 {
          assert s[i] == t[i - 1];
        }
      }
    }
  }

  /** str.rstrip() */
  function TrimEnd(s: string): string {
    if s != [] && IsSpace(s[|s| - 1]) then TrimEnd(s[..|s| - 1]) else s
  }

  /** rstrip removes exactly the trailing blanks. */
  lemma {:induction false} TrimEndFacts(s: string)
    ensures |TrimEnd(s)| <= |s| && TrimEnd(s) == s[..|TrimEnd(s)|]
    ensures TrimEnd(s) == [] || !IsSpace(TrimEnd(s)[|TrimEnd(s)| - 1])
    ensures forall i :: |TrimEnd(s)| <= i < |s| ==> IsSpace(s[i])
  {
    if s != [] && IsSpace(s[|s| - 1]) {
      var t := s[..|s| - 1];
      TrimEndFacts(t);
      assert TrimEnd(s) == TrimEnd(t);
      var n := |TrimEnd(t)|;
      assert t[..n] == s[..n];
      forall i | n <= i < |s|
        ensures IsSpace(s[i])
      {
        if i < |s| - 1 {
          assert s[i] == t[i];
        }
      }
    }
  }

  /** str.strip() */
  function Strip(s: string): string {
    TrimEnd(TrimStart(s))
  }

  /** Stripping a text whose first character is not blank only removes
      trailing blanks: the result is a prefix, and what was cut is blank. */
  lemma StripKeepsPrefix(s: string)
    requires s != [] ==> !IsSpace(s[0])
    ensures |Strip(s)| <= |s| && Strip(s) == s[..|Strip(s)|]
    ensures forall i :: |Strip(s)| <= i < |s| ==> IsSpace(s[i])
  {
    assert TrimStart(s) == s;
    TrimEndFacts(s);
  }

  /** A stripped text has no blank at either end, so stripping is idempotent. */
  lemma StripIdempotent(s: string)
    ensures var t := Strip(s); t == [] || (!IsSpace(t[0]) && !IsSpace(t[|t| - 1]))
    ensures Strip(Strip(s)) == Strip(s)
  {
    var u := TrimStart(s);
    var t := TrimEnd(u);
    TrimStartFacts(s);
    TrimEndFacts(u);
    if t != [] {
      assert t[0] == u[0];
    }
    assert TrimStart(t) == t;
    assert TrimEnd(t) == t;
  }

  /** str.startswith(p) */
  predicate StartsWith(s: string, p: string) {
    |p| <= |s| && s[..|p|] == p
  }

  /** p occurs in s at index k. */
  predicate OccursAt(s: string, p: string, k: nat) {
    k + |p| <= |s| && s[k..k + |p|] == p
  }

  /** Python's `p in s` for strings. */
  predicate Contains(s: string, p: string) {
    exists k: nat :: k <= |s| && OccursAt(s, p, k)
  }

  /** The largest index at or below `k` where p occurs in s. */
  function LastOccurrenceFrom(s: string, p: string, k: nat): (r: Option<nat>)
    ensures r.Some? ==> r.value <= k
  {
    if OccursAt(s, p, k) then Some(k)
    else if k == 0 then None
    else LastOccurrenceFrom(s, p, k - 1)
  }

  /** The search finds an occurrence with none after it up to k, or finds
      nothing when there is no occurrence up to k. */
  lemma {:induction false} LastOccurrenceFromIsLast(s: string, p: string, k: nat)
    ensures var r := LastOccurrenceFrom(s, p, k);
      && (r.Some? ==> r.value <= k && OccursAt(s, p, r.value))
      && (r.Some? ==> forall j: nat :: r.value < j <= k ==> !OccursAt(s, p, j))
      && (r.None? ==> forall j: nat :: j <= k ==> !OccursAt(s, p, j))
  {
    if !OccursAt(s, p, k) && k > 0 {
      LastOccurrenceFromIsLast(s, p, k - 1);
    }
  }

  /** str.rfind(p), with None for -1. */
  function LastOccurrence(s: string, p: string): Option<nat> {
    LastOccurrenceFrom(s, p, |s|)
  }

  /** s.rsplit(sep, 1)[0]: what precedes the last occurrence of sep, or all
      of s when sep does not occur. */
  function RSplitHead(s: string, sep: string): string {
    match LastOccurrence(s, sep)
    case Some(k) => s[..k]
    case None => s
  }

  /** The head is a prefix of s; when sep occurs, it occurs right after the
      head and nowhere later; otherwise the head is all of s. */
  lemma RSplitHeadFacts(s: string, sep: string)
    ensures var r := RSplitHead(s, sep);
      && |r| <= |s| && r == s[..|r|]
      && (Contains(s, sep) ==> OccursAt(s, sep, |r|))
      && (Contains(s, sep) ==> forall j: nat :: |r| < j ==> !OccursAt(s, sep, j))
      && (!Contains(s, sep) ==> r == s)
  {
    LastOccurrenceFromIsLast(s, sep, |s|);
    var r := LastOccurrence(s, sep);
    if Contains(s, sep) {
      var k: nat :| k <= |s| && OccursAt(s, sep, k);
      assert r.Some?;
    }
    if r.Some? {
      assert Contains(s, sep);
    }
  }

  /** sep.join(parts) */
  function Join(parts: seq<string>, sep: string): string {
    if parts == [] then []
    else if |parts| == 1 then parts[0]
    else parts[0] + sep + Join(parts[1..], sep)
  }

  /** The joined text begins with the first part. */
  lemma JoinStartsWithFirst(parts: seq<string>, sep: string)
    requires parts != []
    ensures StartsWith(Join(parts, sep), parts[0])
  {
    if |parts| > 1 {
      assert (parts[0] + sep + Join(parts[1..], sep))[..|parts[0]|] == parts[0];
    }
  }

  /** s.split(sep) for a one-character separator: the pieces between the
      separators, always at least one. */
  function Split(s: string, sep: char): (r: seq<string>)
    ensures r != []
  {
    if s == [] then [[]]
    else if s[0] == sep then [[]] + Split(s[1..], sep)
    else
      var rest := Split(s[1..], sep);
      [[s[0]] + rest[0]] + rest[1..]
  }

  /** Putting the first character back in front of the first part. */
  lemma JoinConsFirst(c: char, parts: seq<string>, sep: string)
    requires parts != []
    ensures Join([[c] + parts[0]] + parts[1..], sep) == [c] + Join(parts, sep)
  {
    var ps := [[c] + parts[0]] + parts[1..];
    assert ps[1..] == parts[1..];
  }

  /** Joining the pieces with the separator gives the text back, and no
      piece holds the separator. */
  lemma {:induction false} SplitJoin(s: string, sep: char)
    ensures Join(Split(s, sep), [sep]) == s
    ensures forall i, k :: 0 <= i < |Split(s, sep)| && 0 <= k < |Split(s, sep)[i]| ==> Split(s, sep)[i][k] != sep
  {
    if s != [] {
      var rest := Split(s[1..], sep);
      SplitJoin(s[1..], sep);
      if s[0] == sep {
        assert ([[]] + rest)[1..] == rest;
        assert s == [s[0]] + s[1..];
      } else {
        JoinConsFirst(s[0], rest, [sep]);
        assert s == [s[0]] + s[1..];
        var r := Split(s, sep);
        forall i, k | 0 <= i < |r| && 0 <= k < |r[i]|
          ensures r[i][k] != sep
        {
          if i == 0 && k > 0 {
            assert r[0][k] == rest[0][k - 1];
          } else if i > 0 {
            assert r[i] == rest[i];
          }
        }
      }
    }
  }

  /** The leading run of non-blank characters of s. */
  function TakeWord(s: string): (r: string)
    ensures |r| <= |s| && r == s[..|r|]
    ensures forall i :: 0 <= i < |r| ==> !IsSpace(r[i])
    ensures |r| < |s| ==> IsSpace(s[|r|])
  {
    if s == [] || IsSpace(s[0]) then [] else [s[0]] + TakeWord(s[1..])
  }

  /** s.split()[0] for a text that holds a non-blank character. */
  function FirstWord(s: string): string {
    TakeWord(TrimStart(s))
  }

  function UpperChar(c: char): char {
    if 'a' <= c <= 'z' then (c as int - 32) as char else c
  }

  function LowerChar(c: char): char {
    if 'A' <= c <= 'Z' then (c as int + 32) as char else c
  }

  /** str.upper() on ASCII letters; other characters are kept. */
  function Upper(s: string): (r: string)
    ensures |r| == |s| && forall i :: 0 <= i < |s| ==> r[i] == UpperChar(s[i])
  {
    seq(|s|, i requires 0 <= i < |s| => UpperChar(s[i]))
  }

  /** str.lower() on ASCII letters; other characters are kept. */
  function Lower(s: string): (r: string)
    ensures |r| == |s| && forall i :: 0 <= i < |s| ==> r[i] == LowerChar(s[i])
  {
    seq(|s|, i requires 0 <= i < |s| => LowerChar(s[i]))
  }

  /** An upper-cased text holds no lower-case letter, upper-casing it again
      changes nothing, and lower-casing it gives what lower-casing the
      original gives: upper() only changes the case of letters. */
  lemma UpperFacts(s: string)
    ensures forall i :: 0 <= i < |s| ==> !('a' <= Upper(s)[i] <= 'z')
    ensures Upper(Upper(s)) == Upper(s)
    ensures Lower(Upper(s)) == Lower(s)
  {
    assert Upper(Upper(s)) == Upper(s) by {
      forall i | 0 <= i < |s| ensures Upper(Upper(s))[i] == Upper(s)[i] {}
    }
    assert Lower(Upper(s)) == Lower(s) by {
      forall i | 0 <= i < |s| ensures Lower(Upper(s))[i] == Lower(s)[i] {}
    }
  }

  /** The same for lower(): no upper-case letter is left, lower-casing
      again changes nothing, and upper-casing gives what upper-casing the
      original gives. */
  lemma LowerFacts(s: string)
    ensures forall i :: 0 <= i < |s| ==> !('A' <= Lower(s)[i] <= 'Z')
    ensures Lower(Lower(s)) == Lower(s)
    ensures Upper(Lower(s)) == Upper(s)
  {
    assert Lower(Lower(s)) == Lower(s) by {
      forall i | 0 <= i < |s| ensures Lower(Lower(s))[i] == Lower(s)[i] {}
    }
    assert Upper(Lower(s)) == Upper(s) by {
      forall i | 0 <= i < |s| ensures Upper(Lower(s))[i] == Upper(s)[i] {}
    }
  }

  /** Containment is transitive: a text holding p holds whatever p holds. */
  lemma ContainsTransitive(s: string, p: string, q: string)
    requires Contains(s, p) && Contains(p, q)
    ensures Contains(s, q)
  {
    var k: nat :| k <= |s| && OccursAt(s, p, k);
    var m: nat :| m <= |p| && OccursAt(p, q, m);
    forall i | 0 <= i < |q| ensures s[k + m + i] == q[i] {
      assert s[k + m + i] == p[m + i];
    }
    assert OccursAt(s, q, k + m);
  }

  predicate IsCased(c: char) {
    ('a' <= c <= 'z') || ('A' <= c <= 'Z')
  }

  /** str.title() on ASCII text: a letter is upper-cased when the character
      before it is not a letter and lower-cased otherwise. */
  function TitleFrom(s: string, afterLetter: bool): (r: string)
    ensures |r| == |s|
    ensures forall i :: 0 <= i < |s| ==> IsCased(r[i]) == IsCased(s[i])
    ensures forall i :: 0 <= i < |s| ==> UpperChar(r[i]) == UpperChar(s[i])
    ensures forall i :: 0 <= i < |s| && !IsCased(s[i]) ==> r[i] == s[i]
    ensures forall i :: 0 < i < |s| && IsCased(s[i]) ==>
              r[i] == if IsCased(s[i - 1]) then LowerChar(s[i]) else UpperChar(s[i])
    ensures 0 < |s| && IsCased(s[0]) ==>
              r[0] == if afterLetter then LowerChar(s[0]) else UpperChar(s[0])
  {
    if s == [] then []
    else
      var c := if !IsCased(s[0]) then s[0]
               else if afterLetter then LowerChar(s[0]) else UpperChar(s[0]);
      [c] + TitleFrom(s[1..], IsCased(s[0]))
  }

  function Title(s: string): string {
    TitleFrom(s, false)
  }

  /** s.replace(old, new) for single characters. */
  function ReplaceChar(s: string, from: char, to: char): (r: string)
    ensures |r| == |s|
    ensures forall i :: 0 <= i < |s| ==> r[i] == if s[i] == from then to else s[i]
  {
    seq(|s|, i requires 0 <= i < |s| => if s[i] == from then to else s[i])
  }

  /** After replace(from, to) with two different characters, from no longer
      occurs; a text without from is returned unchanged; and replacing a
      second time changes nothing. */
  lemma ReplaceCharFacts(s: string, from: char, to: char)
    ensures from != to ==> from !in ReplaceChar(s, from, to)
    ensures from !in s ==> ReplaceChar(s, from, to) == s
    ensures ReplaceChar(ReplaceChar(s, from, to), from, to) == ReplaceChar(s, from, to)
  {
    var r := ReplaceChar(s, from, to);
    if from !in s {
      assert forall i :: 0 <= i < |s| ==> s[i] != from;
      assert r == s;
    }
    assert ReplaceChar(r, from, to) == r;
  }
}
