/** The few `strings` helpers the core relies on: TrimSpace, ToLower, ToUpper
    and HasPrefix (which is Dafny's prefix relation `p <= s`). */
module Text {

  /** Go's unicode.IsSpace: tab, newline, vertical tab, form feed, carriage
      return, space, NEL, NBSP and the Unicode space separators. */
  predicate IsSpace(c: char)
  {
    || c == ' ' || '\t' <= c <= '\r' || c == '\U{0085}' || c == '\U{00A0}' || c == '\U{1680}'
    || '\U{2000}' <= c <= '\U{200A}' || c == '\U{2028}' || c == '\U{2029}' || c == '\U{202F}'
    || c == '\U{205F}' || c == '\U{3000}'
  }

  predicate AllSpace(s: string)
  {
    forall i :: 0 <= i < |s| ==> IsSpace(s[i])
  }

  /** True when `s` has no white space at either end. */
  predicate Trimmed(s: string)
  {
    s == [] || (!IsSpace(s[0]) && !IsSpace(s[|s| - 1]))
  }

  /** The index of the first character at or after `i` that is not white
      space (|s| when there is none). */
  function SkipLeft(s: string, i: nat): (j: nat)
    requires i <= |s|
    ensures i <= j <= |s|
    ensures forall k :: i <= k < j ==> IsSpace(s[k])
    ensures j == |s| || !IsSpace(s[j])
    decreases |s| - i
  {
    if i == |s| || !IsSpace(s[i]) then i else SkipLeft(s, i + 1)
  }

  /** The index just past the last character before `j` that is not white
      space, stopping at `i`. */
  function SkipRight(s: string, i: nat, j: nat): (k: nat)
    requires i <= j <= |s|
    ensures i <= k <= j
    ensures forall m :: k <= m < j ==> IsSpace(s[m])
    ensures k == i || !IsSpace(s[k - 1])
    decreases j
  {
    if j == i || !IsSpace(s[j - 1]) then j else SkipRight(s, i, j - 1)
  }

  /** strings.TrimSpace: `s` with white space removed from both ends. */
  function TrimSpace(s: string): (r: string)
    ensures Trimmed(r)
    ensures |r| <= |s|
  {
    var i := SkipLeft(s, 0);
    s[i..SkipRight(s, i, |s|)]
  }

  /** SkipLeft stops exactly at the end of a run of white space. */
  lemma {:induction false} SkipLeftAt(s: string, n: nat)
    requires n <= |s| && (forall k :: 0 <= k < n ==> IsSpace(s[k]))
    requires n == |s| || !IsSpace(s[n])
    ensures SkipLeft(s, 0) == n
  {
  }

  /** SkipRight stops exactly at the start of a trailing run of white space. */
  lemma {:induction false} SkipRightAt(s: string, i: nat, m: nat)
    requires i <= m <= |s| && (forall k :: m <= k < |s| ==> IsSpace(s[k]))
    requires m == i || !IsSpace(s[m - 1])
    ensures SkipRight(s, i, |s|) == m
  {
  }

  /** TrimSpace is determined by the padding: whatever white space surrounds
      a trimmed text, TrimSpace returns exactly that text. */
  lemma {:induction false} TrimSpaceOfPadded(p: string, r: string, q: string)
    requires AllSpace(p) && AllSpace(q) && Trimmed(r)
    ensures TrimSpace(p + r + q) == r
  {
    var s := p + r + q;
    if r == [] {
      SkipLeftAt(s, |s|);
      assert s[|s|..|s|] == r;
    } else {
      SkipLeftAt(s, |p|);
      SkipRightAt(s, |p|, |p| + |r|);
      assert s[|p|..|p| + |r|] == r;
    }
  }

  /** A text with no white space at either end is its own TrimSpace. */
  lemma {:induction false} TrimmedFixed(s: string)
    requires Trimmed(s)
    ensures TrimSpace(s) == s
  {
    TrimSpaceOfPadded([], s, []);
    assert [] + s + [] == s;
  }

  lemma {:induction false} AllSpaceAppend(a: string, b: string)
    requires AllSpace(a) && AllSpace(b)
    ensures AllSpace(a + b)
  {
    forall i | 0 <= i < |a + b| ensures IsSpace((a + b)[i]) {
      if i < |a| { assert (a + b)[i] == a[i]; } else { assert (a + b)[i] == b[i - |a|]; }
    }
  }

  /** Every text is its trimmed form surrounded by white space. */
  lemma {:induction false} SplitAroundTrim(s: string) returns (p: string, q: string)
    ensures AllSpace(p) && AllSpace(q) && s == p + TrimSpace(s) + q
  {
    var i := SkipLeft(s, 0);
    var k := SkipRight(s, i, |s|);
    p, q := s[..i], s[k..];
    assert s == s[..i] + s[i..k] + s[k..];
  }

  lemma {:induction false} Regroup(a: string, p: string, r: string, q: string, b: string)
    ensures a + (p + r + q) + b == (a + p) + r + (q + b)
  {
  }

  /** Trimming twice is trimming once. */
  lemma {:induction false} TrimSpaceIdempotent(s: string)
    ensures TrimSpace(TrimSpace(s)) == TrimSpace(s)
  {
    TrimmedFixed(TrimSpace(s));
  }

  /** Surrounding white space never changes what TrimSpace returns. */
  lemma {:induction false} TrimSpaceIgnoresPadding(a: string, s: string, b: string)
    requires AllSpace(a) && AllSpace(b)
    ensures TrimSpace(a + s + b) == TrimSpace(s)
  {
    var p, q := SplitAroundTrim(s);
    var r := TrimSpace(s);
    Regroup(a, p, r, q, b);
    AllSpaceAppend(a, p);
    AllSpaceAppend(q, b);
    TrimSpaceOfPadded(a + p, r, q + b);
  }

  /** unicode.ToLower restricted to ASCII letters. */
  function Lower(c: char): char
  {
    if 'A' <= c <= 'Z' then (c as int + 32) as char else c
  }

  /** unicode.ToUpper restricted to ASCII letters. */
  function Upper(c: char): char
  {
    if 'a' <= c <= 'z' then (c as int - 32) as char else c
  }

  /** strings.ToLower, character by character. */
  function ToLower(s: string): (r: string)
    ensures |r| == |s|
  {
    seq(|s|, i requires 0 <= i < |s| => Lower(s[i]))
  }

  /** strings.ToUpper, character by character. */
  function ToUpper(s: string): (r: string)
    ensures |r| == |s|
  {
    seq(|s|, i requires 0 <= i < |s| => Upper(s[i]))
  }

  lemma {:induction false} ToLowerAppend(a: string, b: string)
    ensures ToLower(a + b) == ToLower(a) + ToLower(b)
  {
    assert forall i :: 0 <= i < |a + b| ==> ToLower(a + b)[i] == (ToLower(a) + ToLower(b))[i];
  }

  /** Lower-casing twice is lower-casing once. */
  lemma {:induction false} ToLowerIdempotent(s: string)
    ensures ToLower(ToLower(s)) == ToLower(s)
  {
  }

  /** Upper-casing twice is upper-casing once. */
  lemma {:induction false} ToUpperIdempotent(s: string)
    ensures ToUpper(ToUpper(s)) == ToUpper(s)
  {
  }

  /** Case mapping neither creates nor removes white space. */
  lemma {:induction false} LowerKeepsSpace(c: char)
    ensures IsSpace(Lower(c)) <==> IsSpace(c)
  {
  }

  /** Lower-casing and trimming can be done in either order. */
  lemma {:induction false} TrimSpaceToLowerCommute(s: string)
    ensures ToLower(TrimSpace(s)) == TrimSpace(ToLower(s))
  {
    var r := TrimSpace(s);
    var p, q := SplitAroundTrim(s);
    ToLowerAppend(p + r, q);
    ToLowerAppend(p, r);
    var lp, lr, lq := ToLower(p), ToLower(r), ToLower(q);
    forall i | 0 <= i < |lp| ensures IsSpace(lp[i]) { LowerKeepsSpace(p[i]); }
    forall i | 0 <= i < |lq| ensures IsSpace(lq[i]) { LowerKeepsSpace(q[i]); }
    if r != [] {
      LowerKeepsSpace(r[0]);
      LowerKeepsSpace(r[|r| - 1]);
    }
    TrimSpaceOfPadded(lp, lr, lq);
  }

  /** Lower-casing an upper-cased text gives the lower-cased text. */
  lemma {:induction false} LowerOfUpper(s: string)
    ensures ToLower(ToUpper(s)) == ToLower(s)
  {
    assert forall i :: 0 <= i < |s| ==> ToLower(ToUpper(s))[i] == ToLower(s)[i];
  }
}
