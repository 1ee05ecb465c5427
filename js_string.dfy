/**
 * The part of JavaScript's `String.prototype.trim` that the scan screen
 * relies on: removing white space and line terminators from both ends of
 * a string, and nothing else.
 */
module JsString {

  /** JavaScript's WhiteSpace and LineTerminator code points, the set `trim` strips. */
  predicate IsWhitespace(c: char) {
    || c == '\t' || c == '\n' || c == '\U{000B}' || c == '\U{000C}' || c == '\r'
    || c == ' ' || c == '\U{00A0}' || c == '\U{1680}'
    || ('\U{2000}' <= c <= '\U{200A}')
    || c == '\U{2028}' || c == '\U{2029}' || c == '\U{202F}' || c == '\U{205F}'
    || c == '\U{3000}' || c == '\U{FEFF}'
  }

  predicate AllWhitespace(s: string) {
    forall k :: 0 <= k < |s| ==> IsWhitespace(s[k])
  }

  /** Neither the first nor the last character of `s` is white space. */
  predicate NoEdgeWhitespace(s: string) {
    s == [] || (!IsWhitespace(s[0]) && !IsWhitespace(s[|s| - 1]))
  }

  /**
   * `r` is `s` with its edge white space removed, found at offset `i`:
   * everything before `i` and everything after `r` is white space, and
   * `r` itself begins and ends with something else.
   */
  ghost predicate TrimmedAt(s: string, i: nat, r: string) {
    && i + |r| <= |s|
    && r == s[i..i + |r|]
    && AllWhitespace(s[..i])
    && AllWhitespace(s[i + |r|..])
    && NoEdgeWhitespace(r)
  }

  /** The declarative meaning of trimming: `r` is what `trim` must return for `s`. */
  ghost predicate IsTrimOf(s: string, r: string) {
    exists i: nat :: TrimmedAt(s, i, r)
  }

  lemma AllWhitespaceConcat(a: string, b: string)
    requires AllWhitespace(a) && AllWhitespace(b)
    ensures AllWhitespace(a + b)
  {
    forall k | 0 <= k < |a + b| ensures IsWhitespace((a + b)[k]) {
      if k < |a| {
        assert (a + b)[k] == a[k];
      } else {
        assert (a + b)[k] == b[k - |a|];
      }
    }
  }

  /** Drops leading white space. */
  function TrimStart(s: string): (r: string)
    ensures |r| <= |s| && r == s[|s| - |r|..]
    ensures AllWhitespace(s[..|s| - |r|])
    ensures r == [] || !IsWhitespace(r[0])
  {
    if |s| > 0 && IsWhitespace(s[0]) then
      var r := TrimStart(s[1..]);
      assert s[..|s| - |r|] == [s[0]] + s[1..][..|s| - 1 - |r|];
      AllWhitespaceConcat([s[0]], s[1..][..|s| - 1 - |r|]);
      r
    else
      assert s[..0] == [];
      s
  }

  /** Drops trailing white space. */
  function TrimEnd(s: string): (r: string)
    ensures |r| <= |s| && r == s[..|r|]
    ensures AllWhitespace(s[|r|..])
    ensures r == [] || !IsWhitespace(r[|r| - 1])
  {
    if |s| > 0 && IsWhitespace(s[|s| - 1]) then
      var r := TrimEnd(s[..|s| - 1]);
      assert s[|r|..] == s[..|s| - 1][|r|..] + [s[|s| - 1]];
      AllWhitespaceConcat(s[..|s| - 1][|r|..], [s[|s| - 1]]);
      r
    else
      assert s[|s|..] == [];
      s
  }

  /** `s.trim()`. */
  function Trim(s: string): (r: string)
    ensures IsTrimOf(s, r)
    ensures NoEdgeWhitespace(r)
  {
    TrimStartThenEnd(s);
    TrimEnd(TrimStart(s))
  }

  lemma {:induction false} TrimStartThenEnd(s: string)
    ensures TrimmedAt(s, |s| - |TrimStart(s)|, TrimEnd(TrimStart(s)))
  {
    var t := TrimStart(s);
    TrimmedAtFromParts(s, |s| - |t|, t, TrimEnd(t));
  }

  /** Stripping the front of `s` to `t` and then the back of `t` to `r` trims `s`. */
  lemma {:induction false} TrimmedAtFromParts(s: string, i: nat, t: string, r: string)
    requires i <= |s| && t == s[i..] && AllWhitespace(s[..i])
    requires t == [] || !IsWhitespace(t[0])
    requires |r| <= |t| && r == t[..|r|] && AllWhitespace(t[|r|..])
    requires r == [] || !IsWhitespace(r[|r| - 1])
    ensures TrimmedAt(s, i, r)
  {
    assert s[i..][..|r|] == s[i..i + |r|];
    assert s[i..][|r|..] == s[i + |r|..];
    assert r != [] ==> r[0] == t[0];
  }

  /** The number of white space characters `s` starts with. */
  function LeadCount(s: string): (n: nat)
    ensures n <= |s|
  {
    if |s| > 0 && IsWhitespace(s[0]) then 1 + LeadCount(s[1..]) else 0
  }

  /** The number of white space characters `s` ends with. */
  function TrailCount(s: string): (n: nat)
    ensures n <= |s|
  {
    if |s| > 0 && IsWhitespace(s[|s| - 1]) then 1 + TrailCount(s[..|s| - 1]) else 0
  }

  /** An offset preceded only by white space and not itself at white space is the leading count. */
  lemma {:induction false} LeadCountAt(s: string, i: nat)
    requires i <= |s| && AllWhitespace(s[..i])
    requires i < |s| ==> !IsWhitespace(s[i])
    ensures LeadCount(s) == i
  {
    if i > 0 {
      assert s[..i][0] == s[0];
      assert s[1..][..i - 1] == s[..i][1..];
      LeadCountAt(s[1..], i - 1);
    }
  }

  /** An offset followed only by white space and not just after white space is where the trailing run starts. */
  lemma {:induction false} TrailCountAt(s: string, j: nat)
    requires j <= |s| && AllWhitespace(s[j..])
    requires j > 0 ==> !IsWhitespace(s[j - 1])
    ensures TrailCount(s) == |s| - j
  {
    if j < |s| {
      assert s[j..][|s| - 1 - j] == s[|s| - 1];
      assert s[..|s| - 1][j..] == s[j..][..|s| - 1 - j];
      TrailCountAt(s[..|s| - 1], j);
    }
  }

  /** Where a trim sits in `s` is fixed by the leading and trailing white space of `s`. */
  lemma TrimmedAtBounds(s: string, i: nat, r: string)
    requires TrimmedAt(s, i, r)
    ensures r != [] ==> i == LeadCount(s) && i + |r| == |s| - TrailCount(s)
    ensures r == [] ==> LeadCount(s) == |s|
  {
    if r != [] {
      NonEmptyTrimmedAtBounds(s, i, r);
    } else {
      EmptyTrimMeansAllWhitespace(s, i);
      assert s[..|s|] == s;
      LeadCountAt(s, |s|);
    }
  }

  lemma NonEmptyTrimmedAtBounds(s: string, i: nat, r: string)
    requires TrimmedAt(s, i, r) && r != []
    ensures i == LeadCount(s) && i + |r| == |s| - TrailCount(s)
  {
    var j := i + |r|;
    assert s[i] == r[0];
    assert s[j - 1] == r[|r| - 1];
    LeadCountAt(s, i);
    TrailCountAt(s, j);
  }

  lemma TrimmedAtUnique(s: string, i1: nat, r1: string, i2: nat, r2: string)
    requires TrimmedAt(s, i1, r1) && TrimmedAt(s, i2, r2)
    ensures r1 == r2
  {
    TrimmedAtBounds(s, i1, r1);
    TrimmedAtBounds(s, i2, r2);
  }

  /** Only one string is the trim of `s`, so `Trim` is fully determined by `IsTrimOf`. */
  lemma {:induction false} TrimOfUnique(s: string, r1: string, r2: string)
    requires IsTrimOf(s, r1) && IsTrimOf(s, r2)
    ensures r1 == r2
  {
    var i1: nat :| TrimmedAt(s, i1, r1);
    var i2: nat :| TrimmedAt(s, i2, r2);
    TrimmedAtUnique(s, i1, r1, i2, r2);
  }

  lemma {:induction false} EmptyTrimMeansAllWhitespace(s: string, i: nat)
    requires TrimmedAt(s, i, [])
    ensures AllWhitespace(s)
  {
    forall k | 0 <= k < |s| ensures IsWhitespace(s[k]) {
      if k < i {
        assert s[..i][k] == s[k];
      } else {
        assert s[i..][k - i] == s[k];
      }
    }
  }

  /** The trim is empty exactly when the input is nothing but white space. */
  lemma {:induction false} TrimEmptyIff(s: string)
    ensures Trim(s) == [] <==> AllWhitespace(s)
  {
    var i: nat :| TrimmedAt(s, i, Trim(s));
    if Trim(s) == [] {
      EmptyTrimMeansAllWhitespace(s, i);
    } else {
      assert s[i] == Trim(s)[0];
    }
  }

  /** Trimming twice is trimming once. */
  lemma {:induction false} TrimIdempotent(s: string)
    ensures Trim(Trim(s)) == Trim(s)
  {
    var r := Trim(s);
    assert TrimmedAt(r, 0, r) by {
      assert r[..0] == [] && r[|r|..] == [];
    }
    TrimOfUnique(r, Trim(r), r);
  }

  /** A string with no edge white space is left as it is. */
  lemma {:induction false} TrimOfTrimmed(s: string)
    requires NoEdgeWhitespace(s)
    ensures Trim(s) == s
  {
    assert TrimmedAt(s, 0, s) by {
      assert s[..0] == [] && s[|s|..] == [];
    }
    TrimOfUnique(s, Trim(s), s);
  }
}
