/**
 * C strings as the shell's string routines see them: the characters before
 * the NUL terminator, each a plain `char`. This model assumes a platform
 * where plain `char` is signed (as on the x86-64 System V ABI), so bytes
 * 0x80..0xFF are the values -128..-1.
 */
module CStr {

  /** A signed C `char`. */
  type Char = c: int | -128 <= c < 128

  /** The signed `char` holding byte `b` (two's complement). */
  function CharOfByte(b: nat): (c: Char)
    requires b < 256
    ensures (c + 256) % 256 == b
    ensures c < 0 <==> b >= 128
  {
    if b < 128 then b else b - 256
  }

  /** The byte a signed `char` occupies. */
  function ByteOfChar(c: Char): (b: nat)
    ensures b < 256
    ensures CharOfByte(b) == c
  {
    if c >= 0 then c else c + 256
  }

  /** The terminator. */
  const NUL: Char := 0

  /** No terminator inside: the characters of a NUL-terminated buffer. */
  predicate NoNul(s: seq<Char>) {
    forall i :: 0 <= i < |s| ==> s[i] != NUL
  }

  /** The contents of a NUL-terminated string, terminator excluded. */
  type CString = s: seq<Char> | NoNul(s)

  /**
   * The character a pointer advanced `i` places from the start of `s` reads.
   * Offset `|s|` is the terminator; the precondition is what keeps a scan
   * from reading past it.
   */
  function At(s: CString, i: nat): (c: Char)
    requires i <= |s|
    ensures c == NUL <==> i == |s|
    ensures i < |s| ==> c == s[i]
  {
    if i < |s| then s[i] else NUL
  }
}
