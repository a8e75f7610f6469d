/**
 * Python's whitespace test `str.isspace` and the trimming methods `str.lstrip`,
 * `str.rstrip` and `str.strip` called without arguments, on strings of Unicode
 * scalar values.
 */
module PyStrings {

  /** The characters for which Python's `str.isspace()` holds. */
  predicate IsSpace(c: char) {
    || c == ' '
    || ('\t' <= c <= '\r')
    || ('\U{1C}' <= c <= '\U{1F}')
    || c == '\U{85}'
    || c == '\U{A0}'
    || c == '\U{1680}'
    || ('\U{2000}' <= c <= '\U{200A}')
    || c == '\U{2028}'
    || c == '\U{2029}'
    || c == '\U{202F}'
    || c == '\U{205F}'
    || c == '\U{3000}'
  }

  predicate AllSpace(s: string) {
    forall i :: 0 <= i < |s| ==> IsSpace(s[i])
  }

  /** Where the run of whitespace starting at index `i` ends: the first non-whitespace index from `i` on, or `|s|`. */
  function SpaceRunEnd(s: string, i: nat): (n: nat)
    requires i <= |s|
    ensures i <= n <= |s|
    ensures forall j :: i <= j < n ==> IsSpace(s[j])
    ensures n == |s| || !IsSpace(s[n])
    decreases |s| - i
  {
    if i < |s| && IsSpace(s[i]) then SpaceRunEnd(s, i + 1) else i
  }

  /** Where the run of whitespace ending just before index `j` starts. */
  function SpaceRunStart(s: string, j: nat): (n: nat)
    requires j <= |s|
    ensures n <= j
    ensures forall k :: n <= k < j ==> IsSpace(s[k])
    ensures n == 0 || !IsSpace(s[n - 1])
  {
    if j > 0 && IsSpace(s[j - 1]) then SpaceRunStart(s, j - 1) else j
  }

  /** The end of a whitespace run is the one index with whitespace before it and none at it. */
  lemma {:induction false} SpaceRunEndUnique(s: string, i: nat, n: nat)
    requires i <= n <= |s|
    requires forall j :: i <= j < n ==> IsSpace(s[j])
    requires n == |s| || !IsSpace(s[n])
    ensures SpaceRunEnd(s, i) == n
    decreases n - i
  {
    if i < n {
      assert IsSpace(s[i]);
      SpaceRunEndUnique(s, i + 1, n);
    }
  }

  /** The start of a whitespace run is the one index with whitespace after it and none just before it. */
  lemma {:induction false} SpaceRunStartUnique(s: string, j: nat, n: nat)
    requires n <= j <= |s|
    requires forall k :: n <= k < j ==> IsSpace(s[k])
    requires n == 0 || !IsSpace(s[n - 1])
    ensures SpaceRunStart(s, j) == n
    decreases j - n
  {
    if n < j {
      assert IsSpace(s[j - 1]);
      SpaceRunStartUnique(s, j - 1, n);
    }
  }

  /** `s.lstrip()`: the suffix of `s` left after its leading whitespace. */
  function LStrip(s: string): (r: string)
    ensures |r| <= |s| && r == s[|s| - |r|..]
    ensures AllSpace(s[..|s| - |r|])
    ensures r == [] || !IsSpace(r[0])
  {
    var n := SpaceRunEnd(s, 0);
    assert forall j :: 0 <= j < n ==> s[..n][j] == s[j];
    s[n..]
  }

  /** `s.rstrip()`: the prefix of `s` left after its trailing whitespace. */
  function RStrip(s: string): (r: string)
    ensures |r| <= |s| && r == s[..|r|]
    ensures AllSpace(s[|r|..])
    ensures r == [] || !IsSpace(r[|r| - 1])
  {
    var n := SpaceRunStart(s, |s|);
    assert forall k :: 0 <= k < |s| - n ==> s[n..][k] == s[n + k];
    s[..n]
  }

  /** Slicing a suffix of `s` is slicing `s` itself, shifted by where the suffix starts. */
  lemma SuffixSlices(s: string, k: nat, n: nat)
    requires k + n <= |s|
    ensures s[k..][..n] == s[k..k + n]
    ensures s[k..][n..] == s[k + n..]
  {
  }

  /**
   * `s.strip()`: the middle of `s` once the whitespace at both ends is gone.
   * The result is a slice of `s` starting after the leading whitespace, and
   * only whitespace lies outside it.
   */
  function Strip(s: string): (r: string)
    ensures |r| <= |s|
    ensures var k := |s| - |LStrip(s)|;
      k + |r| <= |s| && r == s[k..k + |r|] && AllSpace(s[..k]) && AllSpace(s[k + |r|..])
    ensures r == [] || (!IsSpace(r[0]) && !IsSpace(r[|r| - 1]))
    ensures r == [] <==> AllSpace(s)
  {
    var l := LStrip(s);
    var r := RStrip(l);
    var k := |s| - |l|;
    SuffixSlices(s, k, |r|);
    assert r == [] ==> l[|r|..] == l;
    assert l != [] ==> l[0] == s[k];
    assert l == [] ==> s[..k] == s;
    r
  }

  /** Leading whitespace followed by a string that does not start with whitespace left-strips to that string. */
  lemma LStripAfterSpace(a: string, b: string)
    requires AllSpace(a)
    requires b == [] || !IsSpace(b[0])
    ensures LStrip(a + b) == b
  {
    var s := a + b;
    assert forall j :: 0 <= j < |a| ==> s[j] == a[j];
    assert |a| < |s| ==> s[|a|] == b[0];
    SpaceRunEndUnique(s, 0, |a|);
    assert s[|a|..] == b;
  }

  /**
   * `rstrip` of a concatenation: whitespace-only `b` vanishes and `a` is
   * stripped in turn; otherwise `a` is kept whole and only `b` is stripped.
   */
  lemma RStripAppend(a: string, b: string)
    ensures RStrip(a + b) == if AllSpace(b) then RStrip(a) else a + RStrip(b)
  {
    var s := a + b;
    if AllSpace(b) {
      var n := SpaceRunStart(a, |a|);
      assert forall k :: n <= k < |s| ==> IsSpace(s[k]) by {
        forall k | n <= k < |s| ensures IsSpace(s[k]) {
          if k < |a| { assert s[k] == a[k]; } else { assert s[k] == b[k - |a|]; }
        }
      }
      assert n > 0 ==> s[n - 1] == a[n - 1];
      SpaceRunStartUnique(s, |s|, n);
      assert s[..n] == a[..n];
    } else {
      var m := SpaceRunStart(b, |b|);
      var w :| 0 <= w < |b| && !IsSpace(b[w]);
      assert m > w;
      var n := |a| + m;
      assert forall k :: n <= k < |s| ==> IsSpace(s[k]) by {
        forall k | n <= k < |s| ensures IsSpace(s[k]) {
          assert s[k] == b[k - |a|];
        }
      }
      assert s[n - 1] == b[m - 1];
      SpaceRunStartUnique(s, |s|, n);
      assert s[..n] == a + b[..m];
    }
  }

  /** A string that is whitespace, then a core with no whitespace at either end, then whitespace, strips to its core. */
  lemma StripPadded(a: string, b: string, c: string)
    requires AllSpace(a) && AllSpace(c)
    requires b == [] || (!IsSpace(b[0]) && !IsSpace(b[|b| - 1]))
    ensures Strip(a + b + c) == b
  {
    if b == [] {
      assert a + b + c == a + c;
      assert AllSpace(a + c) by {
        forall i | 0 <= i < |a + c| ensures IsSpace((a + c)[i]) {
          if i < |a| { assert (a + c)[i] == a[i]; } else { assert (a + c)[i] == c[i - |a|]; }
        }
      }
    } else {
      assert a + b + c == a + (b + c);
      LStripAfterSpace(a, b + c);
      RStripAppend(b, c);
      assert RStrip(b) == b by {
        SpaceRunStartUnique(b, |b|, |b|);
      }
    }
  }
}
