/**
 * The handful of Python `str` operations the core relies on, stated over
 * `seq<char>`: finding a separator, `split(sep)[0]`, `split(sep, 1)`,
 * `startswith`, `strip()` and `rstrip(c)`.
 */
module Text {
  import opened Wrappers

  /** `p` occurs in `s` starting at index `i`. */
  predicate OccursAt(s: string, p: string, i: nat) {
    i + |p| <= |s| && s[i..i + |p|] == p
  }

  /** `p in s` for strings. */
  predicate Contains(s: string, p: string) {
    exists i: nat | i + |p| <= |s| :: OccursAt(s, p, i)
  }

  predicate StartsWith(s: string, p: string) {
    |p| <= |s| && s[..|p|] == p
  }

  predicate EndsWith(s: string, p: string) {
    |p| <= |s| && s[|s| - |p|..] == p
  }

  /** The index of the first occurrence of `p` in `s` at or after `from`, or `|s|` when there is none. */
  function FindFrom(s: string, p: string, from: nat): (k: nat)
    requires from <= |s|
    ensures from <= k <= |s|
    ensures k < |s| ==> OccursAt(s, p, k)
    ensures forall j: nat :: from <= j < k ==> !OccursAt(s, p, j)
    decreases |s| - from
  {
    if from + |p| > |s| then |s|
    else if s[from..from + |p|] == p then from
    else FindFrom(s, p, from + 1)
  }

  /** The index of the first occurrence of `p` in `s`, or `|s|` when there is none (`s.find(p)` with -1 read as `|s|`). */
  function Find(s: string, p: string): (k: nat)
    ensures k <= |s|
    ensures k < |s| ==> OccursAt(s, p, k)
    ensures forall j: nat :: j < k ==> !OccursAt(s, p, j)
  {
    FindFrom(s, p, 0)
  }

  /** `s.split(p)[0]`: the text before the first `p`, or all of `s`. */
  function Before(s: string, p: string): (r: string)
    ensures |r| <= |s| && r == s[..|r|]
    ensures !Contains(s, p) ==> r == s
  {
    s[..Find(s, p)]
  }

  /** `split(p)[0]` holds no `p`, and when `s` has one, the first starts right after it. */
  lemma BeforeHasNone(s: string, p: string)
    requires |p| > 0
    ensures !Contains(Before(s, p), p)
    ensures Contains(s, p) ==> OccursAt(s, p, |Before(s, p)|)
  {
    var k := Find(s, p);
    var r := Before(s, p);
    assert r == s[..k];
    forall j: nat | j + |p| <= |r| ensures !OccursAt(r, p, j) {
      assert j < k;
      assert !OccursAt(s, p, j);
      assert r[j..j + |p|] == s[j..j + |p|];
    }
  }

  /** The text after the first `p`, when there is one: the second half of `s.split(p, 1)`. */
  function After(s: string, p: string): (r: Option<string>)
    ensures r.Some? <==> Contains(s, p) && |s| > 0
    ensures r.Some? ==> s == Before(s, p) + p + r.value
  {
    var k := Find(s, p);
    if k < |s| then Some(s[k + |p|..]) else None
  }

  /** `p` occurs nowhere in `a + p` except at index `|a|`: the first `p` of `a + p + b` is the one after `a`. */
  predicate NoEarlyMatch(a: string, p: string) {
    forall j: nat :: j < |a| ==> !OccursAt(a + p, p, j)
  }

  /** Splitting `a + p + b` at its first `p` gives back `a` and `b` exactly when no `p` starts inside `a`. */
  lemma SplitConcat(a: string, p: string, b: string)
    requires NoEarlyMatch(a, p)
    ensures Find(a + p + b, p) == |a|
    ensures Before(a + p + b, p) == a
    ensures |a + p + b| > 0 ==> After(a + p + b, p) == Some(b)
  {
    var s := a + p + b;
    assert OccursAt(s, p, |a|) by {
      assert s[|a|..|a| + |p|] == p;
    }
    var k := Find(s, p);
    if k < |a| {
      assert OccursAt(s, p, k);
      assert s[k..k + |p|] == (a + p)[k..k + |p|];
      assert OccursAt(a + p, p, k);
    }
    assert s[..|a|] == a;
    assert s[|a| + |p|..] == b;
  }

  /** A string whose last character is not a character of `p`, and which does not contain `p`, has no early `p`. */
  lemma NoEarlyMatchByLastChar(a: string, p: string)
    requires |a| > 0 && a[|a| - 1] !in p
    requires !Contains(a, p)
    ensures NoEarlyMatch(a, p)
  {
    forall j: nat | j < |a| ensures !OccursAt(a + p, p, j) {
      if j + |p| <= |a| {
        assert (a + p)[j..j + |p|] == a[j..j + |p|];
        assert !OccursAt(a, p, j);
      } else {
        assert (a + p)[j..j + |p|][|a| - 1 - j] == a[|a| - 1] != p[|a| - 1 - j];
      }
    }
  }

  /** The separator `" - "` is first found right after `a` when `a` neither contains it nor ends in `" -"`. */
  lemma DashSeparatorSafe(a: string)
    requires !Contains(a, " - ") && !EndsWith(a, " -")
    ensures NoEarlyMatch(a, " - ")
  {
    var p := " - ";
    forall j: nat | j < |a| ensures !OccursAt(a + p, p, j) {
      var w := (a + p)[j..j + 3];
      if j + 3 <= |a| {
        assert w == a[j..j + 3];
        assert !OccursAt(a, p, j);
      } else if j + 2 == |a| {
        assert w[..2] == a[|a| - 2..] != p[..2];
      } else {
        assert w[1] == ' ' != p[1];
      }
    }
  }

  /** The separator `" ("` is first found right after `a` when `a` does not contain it. */
  lemma ParenSeparatorSafe(a: string)
    requires !Contains(a, " (")
    ensures NoEarlyMatch(a, " (")
  {
    var p := " (";
    forall j: nat | j < |a| ensures !OccursAt(a + p, p, j) {
      var w := (a + p)[j..j + 2];
      if j + 2 <= |a| {
        assert w == a[j..j + 2];
        assert !OccursAt(a, p, j);
      } else {
        assert w[1] == ' ' != p[1];
      }
    }
  }

  /** Appending a character that `p` does not contain cannot create an occurrence of `p`. */
  lemma AppendForeignChar(s: string, c: char, p: string)
    requires |p| > 0 && c !in p && !Contains(s, p)
    ensures !Contains(s + [c], p)
  {
    forall j: nat | j + |p| <= |s| + 1 ensures !OccursAt(s + [c], p, j) {
      if j + |p| <= |s| {
        assert (s + [c])[j..j + |p|] == s[j..j + |p|];
        assert !OccursAt(s, p, j);
      } else {
        assert (s + [c])[j..j + |p|][|s| - j] == c != p[|s| - j];
      }
    }
  }

  /** A string without the first character of `p` does not contain `p`. */
  lemma NoFirstChar(s: string, p: string)
    requires |p| > 0 && p[0] !in s
    ensures !Contains(s, p)
  {
    forall j: nat | j + |p| <= |s| ensures !OccursAt(s, p, j) {
      assert s[j..j + |p|][0] == s[j] != p[0];
    }
  }

  /** The whitespace that Python's `str.strip()` removes, restricted to ASCII. */
  predicate IsSpace(c: char) {
    c == ' ' || c == '\t' || c == '\n' || c == '\r' || c == '\U{0B}' || c == '\U{0C}'
    || c == '\U{1C}' || c == '\U{1D}' || c == '\U{1E}' || c == '\U{1F}'
  }

  /** `s.lstrip()`. */
  function LStrip(s: string): string {
    if s != [] && IsSpace(s[0]) then LStrip(s[1..]) else s
  }

  /** `s.rstrip()`. */
  function RStrip(s: string): string {
    if s != [] && IsSpace(s[|s| - 1]) then RStrip(s[..|s| - 1]) else s
  }

  /** `s.rstrip(c)`: `s` without its run of trailing `c`. */
  function RStripChar(s: string, c: char): string {
    if s != [] && s[|s| - 1] == c then RStripChar(s[..|s| - 1], c) else s
  }

  /** `s.strip()`. */
  function Strip(s: string): string {
    RStrip(LStrip(s))
  }

  /** `lstrip` removes exactly the leading run of whitespace. */
  lemma {:induction false} LStripRemovesLeadingSpace(s: string)
    ensures |LStrip(s)| <= |s| && LStrip(s) == s[|s| - |LStrip(s)|..]
    ensures LStrip(s) == "" || !IsSpace(LStrip(s)[0])
    ensures forall i :: 0 <= i < |s| - |LStrip(s)| ==> IsSpace(s[i])
  {
    if s != [] && IsSpace(s[0]) {
      LStripRemovesLeadingSpace(s[1..]);
      assert forall i :: 1 <= i < |s| - |LStrip(s)| ==> s[i] == s[1..][i - 1];
    }
  }

  /** `rstrip` removes exactly the trailing run of whitespace. */
  lemma {:induction false} RStripRemovesTrailingSpace(s: string)
    ensures |RStrip(s)| <= |s| && RStrip(s) == s[..|RStrip(s)|]
    ensures RStrip(s) == "" || !IsSpace(RStrip(s)[|RStrip(s)| - 1])
    ensures forall i :: |RStrip(s)| <= i < |s| ==> IsSpace(s[i])
  {
    if s != [] && IsSpace(s[|s| - 1]) {
      RStripRemovesTrailingSpace(s[..|s| - 1]);
      assert forall i :: 0 <= i < |s| - 1 ==> s[..|s| - 1][i] == s[i];
    }
  }

  /** `rstrip(c)` removes exactly the trailing run of `c`. */
  lemma {:induction false} RStripCharRemovesTrailing(s: string, c: char)
    ensures |RStripChar(s, c)| <= |s| && RStripChar(s, c) == s[..|RStripChar(s, c)|]
    ensures RStripChar(s, c) == "" || RStripChar(s, c)[|RStripChar(s, c)| - 1] != c
    ensures forall i :: |RStripChar(s, c)| <= i < |s| ==> s[i] == c
  {
    if s != [] && s[|s| - 1] == c {
      RStripCharRemovesTrailing(s[..|s| - 1], c);
      assert forall i :: 0 <= i < |s| - 1 ==> s[..|s| - 1][i] == s[i];
    }
  }

  /** `strip` keeps a slice of `s` that neither starts nor ends in whitespace, and removes only whitespace. */
  lemma StripKeepsInnerSlice(s: string)
    ensures exists i, j ::
              && 0 <= i <= j <= |s| && Strip(s) == s[i..j]
              && (forall k :: 0 <= k < i ==> IsSpace(s[k]))
              && (forall k :: j <= k < |s| ==> IsSpace(s[k]))
    ensures Strip(s) == "" || (!IsSpace(Strip(s)[0]) && !IsSpace(Strip(s)[|Strip(s)| - 1]))
  {
    var l := LStrip(s);
    LStripRemovesLeadingSpace(s);
    RStripRemovesTrailingSpace(l);
    var i := |s| - |l|;
    var j := i + |RStrip(l)|;
    assert Strip(s) == s[i..j];
    assert forall k :: j <= k < |s| ==> s[k] == l[k - i];
    if Strip(s) != "" {
      assert Strip(s)[0] == l[0];
    }
  }
}
