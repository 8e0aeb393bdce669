/** The greedy JSON candidate scan used on model replies (Combov1.py:104-115):
    from the first '{', count braces until the depth first returns to zero.
    Braces inside string literals are counted like any other. */
module JsonScan {
  import opened Maybe
  import opened Text

  /** What one character does to the brace depth. */
  function Delta(c: char): int {
    if c == '{' then 1 else if c == '}' then -1 else 0
  }

  /** Opening braces minus closing braces in s. */
  function Balance(s: string): int {
    if s == [] then 0 else Balance(s[..|s| - 1]) + Delta(s[|s| - 1])
  }

  /** The depth of a concatenation is the sum of the depths. */
  lemma {:induction false} BalanceAppend(a: string, b: string)
    ensures Balance(a + b) == Balance(a) + Balance(b)
    decreases |b|
  {
    if b != [] {
      var b' := b[..|b| - 1];
      assert (a + b)[..|a + b| - 1] == a + b';
      assert (a + b)[|a + b| - 1] == b[|b| - 1];
      BalanceAppend(a, b');
    } else {
      assert a + b == a;
    }
  }

  /** text.find("{"), with None for -1. */
  function FirstBraceFrom(text: string, k: nat): (r: Option<nat>)
    requires k <= |text|
    ensures r.Some? ==> k <= r.value < |text| && text[r.value] == '{'
    ensures r.Some? ==> forall j :: k <= j < r.value ==> text[j] != '{'
    ensures r.None? ==> forall j :: k <= j < |text| ==> text[j] != '{'
    decreases |text| - k
  {
    if k == |text| then None
    else if text[k] == '{' then Some(k)
    else FirstBraceFrom(text, k + 1)
  }

  function FirstBrace(text: string): Option<nat> {
    FirstBraceFrom(text, 0)
  }

  /** c closes its own first brace: its depth is back to zero, and every
      shorter non-empty prefix is still open. */
  predicate FirstBalanced(c: string) {
    && c != []
    && Balance(c) == 0
    && forall k :: 0 < k < |c| ==> Balance(c[..k]) > 0
  }

  /** The scan, as the source writes it: a depth counter over the text from
      the first '{', stopping at the first '}' that brings it to zero. */
  method ExtractJsonCandidate(text: string) returns (candidate: Option<string>)
    ensures candidate.Some? ==> FirstBrace(text).Some?
    ensures candidate.Some? ==>
      && StartsWith(text[FirstBrace(text).value..], candidate.value)
      && FirstBalanced(candidate.value)
    ensures candidate.None? && FirstBrace(text).Some? ==>
      forall j :: FirstBrace(text).value < j <= |text| ==> Balance(text[FirstBrace(text).value..j]) > 0
  {
    candidate := None;
    var found := FirstBrace(text);
    if found.None? {
      return;
    }
    var start := found.value;
    var depth := 0;
    var i := start;
    while i < |text|
      invariant start <= i <= |text|
      invariant depth == Balance(text[start..i])
      invariant forall j :: start < j <= i ==> Balance(text[start..j]) > 0
    {
      BalanceStep(text, start, i);
      if text[i] == '{' {
        depth := depth + 1;
      } else if text[i] == '}' {
        depth := depth - 1;
        if depth == 0 {
          candidate := Some(text[start..i + 1]);
          ClosedPrefix(text, start, i + 1);
          return;
        }
      }
      i := i + 1;
    }
  }

  /** Scanning one more character adds its effect to the depth. */
  lemma BalanceStep(text: string, start: nat, i: nat)
    requires start <= i < |text|
    ensures Balance(text[start..i + 1]) == Balance(text[start..i]) + Delta(text[i])
  {
    assert text[start..i + 1][..i - start] == text[start..i];
  }

  /** A slice from the first brace whose depth is zero, with every shorter
      slice still open, is a candidate lying at the first brace. */
  lemma ClosedPrefix(text: string, start: nat, e: nat)
    requires start < e <= |text| && Balance(text[start..e]) == 0
    requires forall j :: start < j < e ==> Balance(text[start..j]) > 0
    ensures StartsWith(text[start..], text[start..e]) && FirstBalanced(text[start..e])
  {
    assert text[start..][..e - start] == text[start..e];
    forall k | 0 < k < e - start
      ensures Balance(text[start..e][..k]) > 0
    {
      assert text[start..e][..k] == text[start..start + k];
    }
  }

  /** No shorter prefix of a candidate is itself a candidate: the prefix
      that closes the first brace is unique. */
  lemma FirstBalancedUnique(s: string, m: nat, n: nat)
    requires 0 < m < n <= |s| && FirstBalanced(s[..n])
    ensures !FirstBalanced(s[..m])
  {
    assert s[..n][..m] == s[..m];
  }

  /** A candidate that begins with '{' ends with '}'. */
  lemma FirstBalancedShape(c: string)
    requires FirstBalanced(c) && c[0] == '{'
    ensures |c| >= 2 && c[|c| - 1] == '}'
  {
    assert Balance(c[..1]) == 1 by {
      assert c[..1][..0] == [];
    }
    assert Balance(c) == Balance(c[..|c| - 1]) + Delta(c[|c| - 1]);
  }
}
