/** The string predicates and trimming of the .NET base library that the runners use. */
module Text {
  import opened Wrappers

  /** `char.IsWhiteSpace`: the control characters U+0009..U+000D and U+0085, and the Unicode
      space, line and paragraph separators. */
  predicate IsWhiteSpace(c: char) {
    ('\t' <= c <= '\r') || c == ' ' || c == '\U{0085}' || c == '\U{00A0}' || c == '\U{1680}'
    || ('\U{2000}' <= c <= '\U{200A}') || c == '\U{2028}' || c == '\U{2029}'
    || c == '\U{202F}' || c == '\U{205F}' || c == '\U{3000}'
  }

  predicate AllWhiteSpace(s: string) {
    forall i :: 0 <= i < |s| ==> IsWhiteSpace(s[i])
  }

  /** Neither end of `s` is white space (vacuously true of the empty string). */
  predicate Bare(s: string) {
    s == [] || (!IsWhiteSpace(s[0]) && !IsWhiteSpace(s[|s| - 1]))
  }

  /** `string.IsNullOrEmpty` */
  predicate IsNullOrEmpty(s: Option<string>) {
    s.None? || s.value == ""
  }

  /** `string.IsNullOrWhiteSpace` */
  predicate IsNullOrWhiteSpace(s: Option<string>) {
    s.None? || AllWhiteSpace(s.value)
  }

  /** `s` is white space up to `k`, then `r`, then white space to its end. */
  predicate Surrounds(s: string, k: int, r: string) {
    0 <= k <= |s| - |r| && s[k..k + |r|] == r && AllWhiteSpace(s[..k]) && AllWhiteSpace(s[k + |r|..])
  }

  /** How many white-space characters `s` starts with. */
  function LeadingBlanks(s: string): (n: nat)
    ensures n <= |s|
    ensures n < |s| ==> !IsWhiteSpace(s[n])
  {
    if s != [] && IsWhiteSpace(s[0]) then 1 + LeadingBlanks(s[1..]) else 0
  }

  /** How many white-space characters `s` ends with. */
  function TrailingBlanks(s: string): (n: nat)
    ensures n <= |s|
    ensures n < |s| ==> !IsWhiteSpace(s[|s| - 1 - n])
  {
    if s != [] && IsWhiteSpace(s[|s| - 1]) then 1 + TrailingBlanks(s[..|s| - 1]) else 0
  }

  /** What LeadingBlanks counts is white space. */
  lemma {:induction false} LeadingBlanksAreWhiteSpace(s: string)
    ensures AllWhiteSpace(s[..LeadingBlanks(s)])
    decreases |s|
  {
    if s != [] && IsWhiteSpace(s[0]) {
      LeadingBlanksAreWhiteSpace(s[1..]);
      assert s[..LeadingBlanks(s)] == [s[0]] + s[1..][..LeadingBlanks(s[1..])];
    }
  }

  /** What TrailingBlanks counts is white space. */
  lemma {:induction false} TrailingBlanksAreWhiteSpace(s: string)
    ensures AllWhiteSpace(s[|s| - TrailingBlanks(s)..])
    decreases |s|
  {
    if s != [] && IsWhiteSpace(s[|s| - 1]) {
      var t := s[..|s| - 1];
      TrailingBlanksAreWhiteSpace(t);
      var m := TrailingBlanks(t);
      assert TrailingBlanks(s) == m + 1;
      var tail := s[|s| - (m + 1)..];
      forall i | 0 <= i < |tail| ensures IsWhiteSpace(tail[i]) {
        if i < m {
          assert tail[i] == t[|t| - m..][i];
        }
      }
    }
  }

  /** `string.TrimStart()`: drops the longest white-space prefix. */
  function TrimStart(s: string): string {
    s[LeadingBlanks(s)..]
  }

  /** `string.TrimEnd()`: drops the longest white-space suffix. */
  function TrimEnd(s: string): string {
    s[..|s| - TrailingBlanks(s)]
  }

  /** `string.Trim()`: `s` is white space, then the result, then white space, and the result
      has white space at neither end; it is empty exactly when `s` is all white space. */
  function Trim(s: string): (r: string)
    ensures Bare(r)
    ensures r == [] <==> AllWhiteSpace(s)
    ensures exists k :: Surrounds(s, k, r)
  {
    var r := TrimEnd(TrimStart(s));
    var k := |s| - |TrimStart(s)|;
    TrimShape(s, TrimStart(s), r, k);
    assert Surrounds(s, k, r);
    r
  }

  /** The facts behind Trim's contract, for the trim `r` of `s` that starts at `k`. */
  lemma TrimShape(s: string, t: string, r: string, k: int)
    requires t == TrimStart(s) && r == TrimEnd(t) && k == |s| - |t|
    ensures Bare(r)
    ensures r == [] <==> AllWhiteSpace(s)
    ensures 0 <= k <= |s| - |r| && s[k..k + |r|] == r
    ensures AllWhiteSpace(s[..k]) && AllWhiteSpace(s[k + |r|..])
  {
    LeadingBlanksAreWhiteSpace(s);
    TrailingBlanksAreWhiteSpace(t);
    assert t == s[k..];
    assert r == t[..|r|];
    assert s[k..k + |r|] == r;
    assert s[k + |r|..] == t[|r|..];
    if r == [] {
      assert t[|r|..] == t;
      assert t == [];
      assert s == s[..k];
    } else {
      assert r[0] == t[0];
      assert s[k] == t[0];
    }
  }

  /** Trimming a white-space prefix off a string that does not start with white space. */
  lemma {:induction false} TrimStartOfLead(lead: string, t: string)
    requires AllWhiteSpace(lead) && (t == [] || !IsWhiteSpace(t[0]))
    ensures TrimStart(lead + t) == t
    decreases |lead|
  {
    if lead == [] {
      assert lead + t == t;
    } else {
      assert (lead + t)[1..] == lead[1..] + t;
      TrimStartOfLead(lead[1..], t);
    }
  }

  /** Trimming a white-space suffix off a string that does not end with white space. */
  lemma {:induction false} TrimEndOfTrail(t: string, trail: string)
    requires AllWhiteSpace(trail) && (t == [] || !IsWhiteSpace(t[|t| - 1]))
    ensures TrimEnd(t + trail) == t
    decreases |trail|
  {
    if trail == [] {
      assert t + trail == t;
    } else {
      var n := |trail| - 1;
      assert (t + trail)[..|t + trail| - 1] == t + trail[..n];
      TrimEndOfTrail(t, trail[..n]);
    }
  }

  /** Trim removes exactly the surrounding white space: any split of `s` into white space,
      a bare middle and white space has that middle as its trim. */
  lemma TrimUnique(lead: string, mid: string, trail: string)
    requires AllWhiteSpace(lead) && AllWhiteSpace(trail) && Bare(mid)
    ensures Trim(lead + mid + trail) == mid
  {
    if mid == [] {
      assert lead + mid + trail == lead + trail;
      assert AllWhiteSpace(lead + trail);
    } else {
      assert lead + mid + trail == lead + (mid + trail);
      TrimStartOfLead(lead, mid + trail);
      TrimEndOfTrail(mid, trail);
    }
  }
}
