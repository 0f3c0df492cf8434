/** Plain string helpers standing in for the Python `str` methods the dashboard calls
    (`find`, `split(c)[0]`, `rstrip(c)`, `strip()`), plus the Option type the decoders return. */
module Text {

  datatype Option<T> = None | Some(value: T)

  /** Position of the first `c` in `s`, or `|s|` when `s` has none (`str.find`, with `|s|` in place of -1). */
  function IndexOf(s: string, c: char): (i: nat)
    ensures i <= |s|
    ensures forall k :: 0 <= k < i ==> s[k] != c
    ensures i < |s| ==> s[i] == c
  {
    if s == [] || s[0] == c then 0 else 1 + IndexOf(s[1..], c)
  }

  /** Position of the first character of `s` that lies in `delims`, or `|s|` when there is none. */
  function IndexOfAny(s: string, delims: set<char>): (i: nat)
    ensures i <= |s|
    ensures forall k :: 0 <= k < i ==> s[k] !in delims
    ensures i < |s| ==> s[i] in delims
  {
    if s == [] || s[0] in delims then 0 else 1 + IndexOfAny(s[1..], delims)
  }

  /** `s.split(c)[0]`: the longest prefix of `s` that holds no `c`. */
  function CutAt(s: string, c: char): (r: string)
    ensures r <= s && c !in r
    ensures |r| < |s| ==> s[|r|] == c
  {
    s[..IndexOf(s, c)]
  }

  /** The longest prefix of `s` that holds no character of `delims`. */
  function CutAtAny(s: string, delims: set<char>): (r: string)
    ensures r <= s
    ensures forall k :: 0 <= k < |r| ==> r[k] !in delims
    ensures |r| < |s| ==> s[|r|] in delims
  {
    s[..IndexOfAny(s, delims)]
  }

  /** Cutting at `c` commutes with dropping a prefix that holds no `c`. */
  lemma CutAtSuffix(s: string, k: nat, c: char)
    requires k <= |s|
    requires c !in s[..k]
    ensures k <= |CutAt(s, c)|
    ensures CutAt(s, c)[k..] == CutAt(s[k..], c)
  {
    var i := IndexOf(s, c);
    var j := IndexOf(s[k..], c);
    assert forall m :: 0 <= m < k + j ==> s[m] != c by {
      forall m | 0 <= m < k + j ensures s[m] != c {
        if m < k { assert s[..k][m] == s[m]; } else { assert s[k..][m - k] == s[m]; }
      }
    }
    assert i == k + j;
  }

  /** Cutting at any of `delims` gives the same result before and after a cut at one of them. */
  lemma CutAtAnyAfterCut(s: string, c: char, delims: set<char>)
    requires c in delims
    ensures CutAtAny(CutAt(s, c), delims) == CutAtAny(s, delims)
  {
    var cut := CutAt(s, c);
    var m := IndexOfAny(s, delims);
    assert m <= |cut|;
    var m' := IndexOfAny(cut, delims);
    assert m' == m;
  }

  /** `s.rstrip(c)`: `s` without its trailing run of `c`. */
  function RStrip(s: string, c: char): (r: string)
    ensures r <= s
    ensures r == [] || r[|r| - 1] != c
    ensures forall k :: |r| <= k < |s| ==> s[k] == c
  {
    if s != [] && s[|s| - 1] == c then RStrip(s[..|s| - 1], c) else s
  }

  /** The characters Python's `str.isspace` accepts, and so the ones `str.strip()` removes. */
  predicate IsSpace(ch: char)
  {
    ch == ' ' || '\t' <= ch <= '\r' || '\U{1c}' <= ch <= '\U{1f}' || ch == '\U{85}' || ch == '\U{a0}'
    || ch == '\U{1680}' || '\U{2000}' <= ch <= '\U{200a}' || ch == '\U{2028}' || ch == '\U{2029}'
    || ch == '\U{202f}' || ch == '\U{205f}' || ch == '\U{3000}'
  }

  /** `s.lstrip()`: `s` without its leading whitespace. */
  function LStripSpace(s: string): (r: string)
    ensures |r| <= |s| && r == s[|s| - |r|..]
    ensures r == [] || !IsSpace(r[0])
    ensures forall k :: 0 <= k < |s| - |r| ==> IsSpace(s[k])
  {
    if s != [] && IsSpace(s[0]) then LStripSpace(s[1..]) else s
  }

  /** `s.rstrip()`: `s` without its trailing whitespace. */
  function RStripSpace(s: string): (r: string)
    ensures r <= s
    ensures r == [] || !IsSpace(r[|r| - 1])
    ensures forall k :: |r| <= k < |s| ==> IsSpace(s[k])
  {
    if s != [] && IsSpace(s[|s| - 1]) then RStripSpace(s[..|s| - 1]) else s
  }

  /** `s.strip()`. */
  function Strip(s: string): string
  {
    RStripSpace(LStripSpace(s))
  }

  /** `s.strip()` is empty exactly when every character of `s` is whitespace. */
  lemma StripEmptyIffBlank(s: string)
    ensures Strip(s) == [] <==> forall k :: 0 <= k < |s| ==> IsSpace(s[k])
  {
  }

  /** The first `c` of `a + b` is the first of `b` when `a` has none. */
  lemma IndexOfPast(a: string, b: string, c: char)
    requires c !in a
    ensures IndexOf(a + b, c) == |a| + IndexOf(b, c)
  {
    var i := |a| + IndexOf(b, c);
    assert forall k :: 0 <= k < i ==> (a + b)[k] != c by {
      forall k | 0 <= k < i ensures (a + b)[k] != c {
        if k >= |a| { assert (a + b)[k] == b[k - |a|]; }
      }
    }
    assert i < |a + b| ==> (a + b)[i] == b[i - |a|];
  }

  /** Splitting `v + t` at its first `c` gives `v` and `t` back when `v` has none and `t` starts with one. */
  lemma SplitAtFirst(v: string, t: string, c: char)
    requires c !in v && t != [] && t[0] == c
    ensures IndexOf(v + t, c) == |v|
    ensures (v + t)[..|v|] == v && (v + t)[|v|..] == t
  {
    IndexOfPast(v, t, c);
  }

  /** `s` without its prefix `p`, if `s` starts with `p`. */
  function DropPrefix(s: string, p: string): (r: Option<string>)
    ensures r.Some? <==> p <= s
    ensures r.Some? ==> r.value == s[|p|..]
  {
    if p == [] then Some(s)
    else if s == [] || s[0] != p[0] then None
    else DropPrefix(s[1..], p[1..])
  }

  /** Dropping `p` off `p + rest` leaves `rest`. */
  lemma DropPrefixOfConcat(p: string, rest: string)
    ensures DropPrefix(p + rest, p) == Some(rest)
  {
    assert (p + rest)[|p|..] == rest;
  }

  /** Concatenation regroups. */
  lemma Regroup(a: string, b: string, c: string)
    ensures a + b + c == a + (b + c)
  {
  }
}
