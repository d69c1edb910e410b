/** Strings as the center compares and trims them. */
module Text {

  /** The order of strings: character by character, a proper prefix first. */
  predicate Before(a: string, b: string) {
    b != [] && (a == [] || a[0] < b[0] || (a[0] == b[0] && Before(a[1..], b[1..])))
  }

  lemma {:induction false} NotBeforeItself(a: string)
    ensures !Before(a, a)
  {
    if a != [] {
      NotBeforeItself(a[1..]);
    }
  }

  lemma {:induction false} BeforeIsTransitive(a: string, b: string, c: string)
    requires Before(a, b) && Before(b, c)
    ensures Before(a, c)
  {
    if a != [] && a[0] == b[0] == c[0] {
      BeforeIsTransitive(a[1..], b[1..], c[1..]);
    }
  }

  lemma {:induction false} BeforeIsTotal(a: string, b: string)
    ensures a == b || Before(a, b) || Before(b, a)
  {
    if a != [] && b != [] && a[0] == b[0] {
      BeforeIsTotal(a[1..], b[1..]);
      assert a == [a[0]] + a[1..] && b == [b[0]] + b[1..];
    }
  }

  lemma BeforeOnlyOneWay(a: string, b: string)
    requires Before(a, b)
    ensures a != b && !Before(b, a)
  {
    NotBeforeItself(a);
    if Before(b, a) {
      BeforeIsTransitive(a, b, a);
    }
  }

  /** White space: the characters with the White_Space property of the Unicode standard. */
  predicate IsSpace(c: char) {
    || c in {'\t', '\n', '\U{0B}', '\U{0C}', '\r', ' ', '\U{85}', '\U{A0}', '\U{1680}'}
    || '\U{2000}' <= c <= '\U{200A}'
    || c in {'\U{2028}', '\U{2029}', '\U{202F}', '\U{205F}', '\U{3000}'}
  }

  function TrimLeft(s: string): string {
    if s != [] && IsSpace(s[0]) then TrimLeft(s[1..]) else s
  }

  function TrimRight(s: string): string {
    if s != [] && IsSpace(s[|s| - 1]) then TrimRight(s[..|s| - 1]) else s
  }

  function TrimSpace(s: string): string {
    TrimRight(TrimLeft(s))
  }

  predicate Tight(s: string) {
    s != [] ==> !IsSpace(s[0]) && !IsSpace(s[|s| - 1])
  }

  predicate Blank(s: string, from: nat, to: nat)
    requires from <= to <= |s|
  {
    forall k | from <= k < to :: IsSpace(s[k])
  }

  /** What is left of `s` without the white space at its ends: `s[i..j]`. */
  predicate Middle(s: string, i: nat, j: nat) {
    i <= j <= |s| && Blank(s, 0, i) && Blank(s, j, |s|) && Tight(s[i..j])
  }

  /** `t` is `s` without the white space at its ends. */
  ghost predicate IsTrimmed(s: string, t: string) {
    exists i: nat, j: nat :: Middle(s, i, j) && t == s[i..j]
  }

  lemma {:induction false} TrimLeftCuts(s: string) returns (i: nat)
    ensures i <= |s| && TrimLeft(s) == s[i..] && Blank(s, 0, i)
    ensures TrimLeft(s) != [] ==> !IsSpace(TrimLeft(s)[0])
  {
    if s != [] && IsSpace(s[0]) {
      i := TrimLeftCuts(s[1..]);
      assert forall k | 1 <= k < i + 1 :: s[k] == s[1..][k - 1];
      i := i + 1;
    } else {
      i := 0;
    }
  }

  lemma {:induction false} TrimRightCuts(s: string) returns (j: nat)
    ensures j <= |s| && TrimRight(s) == s[..j] && Blank(s, j, |s|)
    ensures TrimRight(s) != [] ==> !IsSpace(TrimRight(s)[j - 1])
  {
    if s != [] && IsSpace(s[|s| - 1]) {
      j := TrimRightCuts(s[..|s| - 1]);
    } else {
      j := |s|;
    }
  }

  /** Trimming takes away the white space at both ends and nothing else. */
  lemma TrimmedIsTheMiddle(s: string)
    ensures IsTrimmed(s, TrimSpace(s))
  {
    var i := TrimLeftCuts(s);
    var j := TrimRightCuts(s[i..]);
    assert s[i..][..j] == s[i..i + j];
    assert forall k | i + j <= k < |s| :: s[k] == s[i..][k - i];
    assert Middle(s, i, i + j);
  }

  /** That leaves only one string: where it starts and ends is determined unless it is empty. */
  lemma TrimmedIsUnique(s: string, t: string, u: string)
    requires IsTrimmed(s, t) && IsTrimmed(s, u)
    ensures t == u
  {
    var i: nat, j: nat :| Middle(s, i, j) && t == s[i..j];
    var k: nat, l: nat :| Middle(s, k, l) && u == s[k..l];
    if i < j {
      assert s[i] == t[0] && s[j - 1] == t[|t| - 1];
      assert k <= i && j <= l;
    }
    if k < l {
      assert s[k] == u[0] && s[l - 1] == u[|u| - 1];
      assert i <= k && l <= j;
    }
  }

  /** What has no white space at its ends is left as it is; so trimming again does nothing. */
  lemma TightIsLeftAlone(s: string)
    ensures Tight(s) <==> TrimSpace(s) == s
  {
    TrimmedIsTheMiddle(s);
    if Tight(s) {
      assert s[0..|s|] == s;
      assert Middle(s, 0, |s|);
      TrimmedIsUnique(s, s, TrimSpace(s));
    }
  }
}
