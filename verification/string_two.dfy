/**
 * The two pure string routines of stringTwo.c: `startsWith`, a prefix test
 * that hands back the rest of the string, and `_strcmp`, a three-way
 * comparison. Both walk two pointers forward in step; here a pointer is an
 * offset `i` into a `CString`, read through `At`.
 */
module StringTwo {
  import opened Wrappers
  import opened CStr

  // ---------------------------------------------------------------------------
  // startsWith
  // ---------------------------------------------------------------------------

  /**
   * The loop of `startsWith` after both pointers have advanced `i` places over
   * matching characters: stop with the rest of `s` at the end of `p`, with
   * NULL at the first mismatch. When `s` ends first, its terminator mismatches
   * the non-NUL character of `p`, so neither pointer ever passes its own
   * terminator.
   */
  function StartsWithFrom(s: CString, p: CString, i: nat): (r: Option<CString>)
    requires i <= |p| && i <= |s| && p[..i] == s[..i]
    ensures r.Some? <==> p <= s
    ensures r.Some? ==> s == p + r.value
    decreases |p| - i
  {
    if At(p, i) == NUL then
      assert p == p[..i] && s == s[..i] + s[i..];
      Some(s[i..])
    else if At(p, i) != At(s, i) then
      None
    else
      assert p[..i + 1] == p[..i] + [p[i]] && s[..i + 1] == s[..i] + [s[i]];
      StartsWithFrom(s, p, i + 1)
  }

  /**
   * `startsWith(s, p)`: the rest of `s` after the prefix `p`, or NULL when `p`
   * is not a prefix of `s` (in particular when `s` is the shorter one).
   */
  function StartsWith(s: CString, p: CString): (r: Option<CString>)
    ensures r.Some? <==> p <= s
    ensures r.Some? ==> r.value == s[|p|..]
    ensures |s| < |p| ==> r == None
    ensures p == [] ==> r == Some(s)
  {
    var r := StartsWithFrom(s, p, 0);
    assert r.Some? ==> s == p + r.value && r.value == s[|p|..];
    r
  }

  /** The suffix `startsWith` returns completes the round trip with the prefix. */
  lemma StartsWithConcat(p: CString, t: CString)
    ensures NoNul(p + t)
    ensures StartsWith(p + t, p) == Some(t)
  {
  }

  // ---------------------------------------------------------------------------
  // _strcmp
  // ---------------------------------------------------------------------------

  /** `k` is an index inside both strings where they first differ. */
  predicate MismatchAt(a: CString, b: CString, k: nat) {
    k < |a| && k < |b| && a[..k] == b[..k] && a[k] != b[k]
  }

  /**
   * The loop of `_strcmp` after both pointers have advanced `i` places over
   * equal characters. The result is the character difference at the first
   * mismatch; when one string ends first, -1 or 1 according to the signed
   * comparison of the terminator with the other string's next character.
   */
  function StrcmpFrom(a: CString, b: CString, i: nat): (r: int)
    requires i <= |a| && i <= |b| && a[..i] == b[..i]
    ensures r == 0 <==> a == b
    ensures forall k: nat :: MismatchAt(a, b, k) ==> r == a[k] as int - b[k] as int
    ensures a < b ==> r == (if b[|a|] > 0 then -1 else 1)
    ensures b < a ==> r == (if a[|b|] < 0 then -1 else 1)
    decreases |a| - i
  {
    var c1: int, c2: int := At(a, i), At(b, i);
    if c1 != NUL && c2 != NUL then
      if c1 != c2 then
        c1 - c2
      else
        assert a[..i + 1] == a[..i] + [a[i]] && b[..i + 1] == b[..i] + [b[i]];
        StrcmpFrom(a, b, i + 1)
    else
      if c1 == c2 then
        assert a == a[..i] && b == b[..i];
        0
      else if c1 < c2 then -1 else 1
  }

  /**
   * `_strcmp(a, b)`: zero exactly when the strings are equal, the character
   * difference at the first mismatch inside both, and -1 or 1 when one is a
   * proper prefix of the other. With signed chars, a prefix compares LESS
   * than a longer string whose next byte is ASCII and GREATER than one whose
   * next byte is 0x80..0xFF.
   */
  function Strcmp(a: CString, b: CString): (r: int)
    ensures r == 0 <==> a == b
    ensures forall k: nat :: MismatchAt(a, b, k) ==> r == a[k] as int - b[k] as int
    ensures a < b ==> r == (if b[|a|] > 0 then -1 else 1)
    ensures b < a ==> r == (if a[|b|] < 0 then -1 else 1)
  {
    StrcmpFrom(a, b, 0)
  }

  function Sign(x: int): int {
    if x < 0 then -1 else if x > 0 then 1 else 0
  }

  /** Offsets `i..` of the terminated buffers of `a` and `b`: the first one where they differ. */
  function FirstDiffFrom(a: CString, b: CString, i: nat): (k: nat)
    requires i <= |a| && i <= |b| && a[..i] == b[..i]
    ensures i <= k <= |a| && k <= |b| && a[..k] == b[..k]
    ensures At(a, k) == At(b, k) <==> a == b
    decreases |a| - i
  {
    if At(a, i) != At(b, i) then
      i
    else if At(a, i) == NUL then
      assert a == a[..i] && b == b[..i];
      i
    else
      assert a[..i + 1] == a[..i] + [a[i]] && b[..i + 1] == b[..i] + [b[i]];
      FirstDiffFrom(a, b, i + 1)
  }

  /**
   * The first offset where the terminated buffers of `a` and `b` differ, or
   * the common terminator's offset when `a == b`.
   */
  function FirstDiff(a: CString, b: CString): (k: nat)
    ensures k <= |a| && k <= |b| && a[..k] == b[..k]
    ensures At(a, k) == At(b, k) <==> a == b
  {
    FirstDiffFrom(a, b, 0)
  }

  /**
   * Reference ordering: the sign of `_strcmp` is the sign of the difference
   * of the terminated buffers at any offset where they first differ, i.e.
   * `_strcmp` orders strings lexicographically by signed char, the
   * terminator counting as 0.
   */
  lemma StrcmpAtDiff(a: CString, b: CString, k: nat)
    requires k <= |a| && k <= |b| && a[..k] == b[..k] && At(a, k) != At(b, k)
    ensures Sign(Strcmp(a, b)) == Sign(At(a, k) as int - At(b, k) as int)
  {
  }

  /** The sign of `_strcmp` for every pair of strings, through the reference ordering. */
  lemma StrcmpLexicographic(a: CString, b: CString)
    ensures var k := FirstDiff(a, b); Sign(Strcmp(a, b)) == Sign(At(a, k) as int - At(b, k) as int)
  {
  }

  /** Swapping the arguments flips the sign of the result. */
  lemma StrcmpAntisymmetric(a: CString, b: CString)
    ensures Sign(Strcmp(a, b)) == -Sign(Strcmp(b, a))
  {
    if a != b {
      var k := FirstDiff(a, b);
      StrcmpAtDiff(a, b, k);
      StrcmpAtDiff(b, a, k);
    }
  }

  /** "Compares less" is transitive, so `_strcmp` induces a strict total order. */
  lemma StrcmpTransitive(a: CString, b: CString, c: CString)
    requires Strcmp(a, b) < 0 && Strcmp(b, c) < 0
    ensures Strcmp(a, c) < 0
  {
    var i := FirstDiff(a, b);
    var j := FirstDiff(b, c);
    StrcmpAtDiff(a, b, i);
    StrcmpAtDiff(b, c, j);
    if i < j {
      assert a[..i] == b[..i] == b[..j][..i] == c[..j][..i] == c[..i];
      assert At(b, i) == b[..j][i] == c[..j][i] == At(c, i);
      StrcmpAtDiff(a, c, i);
    } else if j < i {
      assert a[..j] == a[..i][..j] == b[..i][..j] == b[..j] == c[..j];
      assert At(a, j) == a[..i][j] == b[..i][j] == At(b, j);
      StrcmpAtDiff(a, c, j);
    } else {
      StrcmpAtDiff(a, c, i);
    }
  }

  /** All characters are ASCII (non-negative). */
  predicate Ascii(s: CString) {
    forall i :: 0 <= i < |s| ==> s[i] >= 0
  }

  /** Over ASCII text a proper prefix compares less than the longer string. */
  lemma AsciiPrefixLess(a: CString, b: CString)
    requires Ascii(b) && a < b
    ensures Strcmp(a, b) == -1 && Strcmp(b, a) == 1
  {
  }

  /** With signed chars the empty string compares greater than "\xff". */
  lemma SignedPrefixGreater()
    ensures Strcmp([], [-1]) == 1
  {
  }
}
