/** The few JavaScript primitives the application leans on: `undefined`,
    `String.prototype.trim`, the regular-expression class `\s` and `slice`.
    Strings are sequences of characters. */
module Js {

  /** A value that may be `undefined` (an optional field of a JSON record). */
  datatype Option<+T> = None | Some(value: T)

  /** The characters `trim` removes; ECMAScript defines `\s` as the same set
      (WhiteSpace and LineTerminator: tab, vertical tab, form feed, space,
      no-break space, the Zs separators, the byte order mark, line feed,
      carriage return, line and paragraph separators). */
  predicate IsSpace(c: char) {
    || c == '\t' || c == '\n' || c == '\U{000B}' || c == '\U{000C}' || c == '\r' || c == ' '
    || c == '\U{00A0}' || c == '\U{1680}' || ('\U{2000}' <= c <= '\U{200A}')
    || c == '\U{2028}' || c == '\U{2029}' || c == '\U{202F}' || c == '\U{205F}'
    || c == '\U{3000}' || c == '\U{FEFF}'
  }

  predicate AllSpace(s: string) {
    forall i :: 0 <= i < |s| ==> IsSpace(s[i])
  }

  /** Neither starts nor ends with white space: what `trim` leaves behind. */
  predicate Unpadded(s: string) {
    s == [] || (!IsSpace(s[0]) && !IsSpace(s[|s| - 1]))
  }

  /** The first index at or after `i` that does not hold white space, or `|s|`. */
  function SkipSpace(s: string, i: nat): (k: nat)
    requires i <= |s|
    ensures i <= k <= |s|
    ensures forall j :: i <= j < k ==> IsSpace(s[j])
    ensures k < |s| ==> !IsSpace(s[k])
    decreases |s| - i
  {
    if i == |s| || !IsSpace(s[i]) then i else SkipSpace(s, i + 1)
  }

  /** Scanning back from `hi` towards `lo`: the end of the last non-space
      character in `s[lo..hi]`, or `lo`. */
  function SkipSpaceBack(s: string, lo: nat, hi: nat): (k: nat)
    requires lo <= hi <= |s|
    ensures lo <= k <= hi
    ensures forall j :: k <= j < hi ==> IsSpace(s[j])
    ensures k > lo ==> !IsSpace(s[k - 1])
    decreases hi - lo
  {
    if hi == lo || !IsSpace(s[hi - 1]) then hi else SkipSpaceBack(s, lo, hi - 1)
  }

  /** Where the trimmed text starts in `s`. */
  function TrimOffset(s: string): (a: nat)
    ensures a <= |s|
  {
    SkipSpace(s, 0)
  }

  /** `s.trim()`: the unpadded middle of `s`, with white space only before
      and after it. */
  function Trim(s: string): (r: string)
    ensures Unpadded(r)
  {
    var a := SkipSpace(s, 0);
    s[a..SkipSpaceBack(s, a, |s|)]
  }

  /** What `trim` returns is the slice of `s` starting at `TrimOffset(s)`,
      with only white space before and after it. */
  lemma TrimShape(s: string)
    ensures TrimOffset(s) + |Trim(s)| <= |s|
    ensures Trim(s) == s[TrimOffset(s)..TrimOffset(s) + |Trim(s)|]
    ensures forall j :: 0 <= j < TrimOffset(s) ==> IsSpace(s[j])
    ensures forall j :: TrimOffset(s) + |Trim(s)| <= j < |s| ==> IsSpace(s[j])
  {
  }

  /** `trim` gives the empty string exactly for strings of white space only. */
  lemma TrimEmptyIff(s: string)
    ensures Trim(s) == [] <==> AllSpace(s)
  {
    if Trim(s) != [] {
      assert s[TrimOffset(s)] == Trim(s)[0];
      assert !IsSpace(s[TrimOffset(s)]);
    }
  }

  /** Reference characterisation of `trim`: whatever white space surrounds an
      unpadded string, trimming gives that string back. */
  lemma TrimOfPadded(pre: string, m: string, post: string)
    requires AllSpace(pre) && AllSpace(post) && Unpadded(m)
    ensures Trim(pre + m + post) == m
  {
    var s := pre + m + post;
    forall j | 0 <= j < |pre| ensures IsSpace(s[j]) {
      assert s[j] == pre[j];
    }
    forall j | |pre| + |m| <= j < |s| ensures IsSpace(s[j]) {
      assert s[j] == post[j - |pre| - |m|];
    }
    if m == [] {
      assert AllSpace(s);
      TrimEmptyIff(s);
    } else {
      assert s[|pre|] == m[0] && s[|pre| + |m| - 1] == m[|m| - 1];
      var a := SkipSpace(s, 0);
      assert a == |pre|;
      var b := SkipSpaceBack(s, a, |s|);
      assert b == |pre| + |m|;
      assert s[a..b] == m;
    }
  }

  /** `trim` is idempotent. */
  lemma TrimIdempotent(s: string)
    ensures Trim(Trim(s)) == Trim(s)
  {
    TrimOfPadded([], Trim(s), []);
    assert [] + Trim(s) + [] == Trim(s);
  }

  /** `SkipSpace` is pinned down by its contract. */
  lemma SkipSpaceIs(s: string, i: nat, k: nat)
    requires i <= k <= |s|
    requires forall j :: i <= j < k ==> IsSpace(s[j])
    requires k < |s| ==> !IsSpace(s[k])
    ensures SkipSpace(s, i) == k
  {
  }

  /** `SkipSpaceBack` is pinned down by its contract. */
  lemma SkipSpaceBackIs(s: string, lo: nat, hi: nat, k: nat)
    requires lo <= k <= hi <= |s|
    requires forall j :: k <= j < hi ==> IsSpace(s[j])
    requires k > lo ==> !IsSpace(s[k - 1])
    ensures SkipSpaceBack(s, lo, hi) == k
  {
  }

  /** Leading white space moves where the first non-space character is found. */
  lemma SkipSpaceAfterPrefix(pre: string, s: string)
    requires AllSpace(pre)
    ensures SkipSpace(pre + s, 0) == |pre| + SkipSpace(s, 0)
  {
    var t, n, a := pre + s, |pre|, SkipSpace(s, 0);
    forall j | 0 <= j < n + a ensures IsSpace(t[j]) {
      if j >= n { assert t[j] == s[j - n]; }
    }
    if n + a < |t| { assert t[n + a] == s[a]; }
    SkipSpaceIs(t, 0, n + a);
  }

  /** Scanning back over `pre + s` down to a point inside `s` finds the same
      end as scanning `s`. */
  lemma SkipSpaceBackAfterPrefix(pre: string, s: string, a: nat)
    requires a <= |s|
    ensures SkipSpaceBack(pre + s, |pre| + a, |pre| + |s|) == |pre| + SkipSpaceBack(s, a, |s|)
  {
    var t, n, b := pre + s, |pre|, SkipSpaceBack(s, a, |s|);
    forall j | n + b <= j < |t| ensures IsSpace(t[j]) {
      assert t[j] == s[j - n];
    }
    if n + b > n + a { assert t[n + b - 1] == s[b - 1]; }
    SkipSpaceBackIs(t, n + a, |t|, n + b);
  }

  /** A slice of `s` is the shifted slice of `pre + s`. */
  lemma SliceAfterPrefix(pre: string, s: string, a: nat, b: nat)
    requires a <= b <= |s|
    ensures (pre + s)[|pre| + a..|pre| + b] == s[a..b]
  {
    var t, n := pre + s, |pre|;
    forall i | 0 <= i < b - a ensures t[n + a..n + b][i] == s[a..b][i] {
      assert t[n + a + i] == s[a + i];
    }
  }

  /** Extra leading white space does not change what `trim` returns. */
  lemma TrimIgnoresLeadingSpace(pre: string, s: string)
    requires AllSpace(pre)
    ensures Trim(pre + s) == Trim(s)
  {
    var a := SkipSpace(s, 0);
    var b := SkipSpaceBack(s, a, |s|);
    var t, n := pre + s, |pre|;
    assert Trim(t) == t[n + a..n + b] by {
      SkipSpaceAfterPrefix(pre, s);
      SkipSpaceBackAfterPrefix(pre, s, a);
    }
    assert t[n + a..n + b] == s[a..b] by {
      SliceAfterPrefix(pre, s, a, b);
    }
  }

  /** `trim` returns a slice of its argument: what `s` avoids, its trim avoids. */
  lemma TrimAvoids(s: string, c: char)
    requires forall i :: 0 <= i < |s| ==> s[i] != c
    ensures forall i :: 0 <= i < |Trim(s)| ==> Trim(s)[i] != c
  {
    var r := Trim(s);
    forall i | 0 <= i < |r| ensures r[i] != c {
      assert r[i] == s[TrimOffset(s) + i];
    }
  }

  function Min(a: int, b: int): int { if a <= b then a else b }

  /** `xs.slice(0, n)` for a non-negative `n`: the first `n` elements, or all of them. */
  function Take<T>(xs: seq<T>, n: nat): (r: seq<T>)
    ensures |r| == Min(n, |xs|)
    ensures forall i :: 0 <= i < |r| ==> r[i] == xs[i]
  {
    xs[..Min(n, |xs|)]
  }
}
