/**
 * The buffered standard-output writer of stringTwo.c. `_putchar` keeps a
 * static buffer of WRITE_BUF_SIZE chars and a static fill index; here both
 * become the explicit state `State(buf, out)`, where `buf` is the pending
 * part of the static buffer and `out` is everything handed to `write(2)` on
 * descriptor 1 so far. Each call is a pure transition from one state to the
 * next.
 */
module Writer {
  import opened Wrappers
  import opened CStr

  /** Capacity of the static output buffer (simpleShell.h). */
  const WRITE_BUF_SIZE: nat := 1024

  /** The sentinel argument that asks `_putchar` to flush (simpleShell.h). */
  const BUF_FLUSH: Char := -1

  /** What a call to `_putchar` asks for: a flush, or one character to print. */
  datatype Arg = Flush | Ch(c: Char)

  /** Pending buffer contents and the bytes already written to stdout. */
  datatype State = State(buf: seq<Char>, out: seq<Char>)

  /** The zero-initialised static storage: index 0, nothing written. */
  const Init: State := State([], [])

  /** The fill index never exceeds the buffer's capacity. */
  predicate Valid(st: State) {
    |st.buf| <= WRITE_BUF_SIZE
  }

  /** Everything accepted so far, written or still pending, in order. */
  function Written(st: State): seq<Char> {
    st.out + st.buf
  }

  /** The character an argument contributes: none for a flush. */
  function Payload(a: Arg): seq<Char> {
    match a
    case Flush => []
    case Ch(c) => [c]
  }

  /**
   * One `_putchar` step. A flush, or a character arriving at a full buffer,
   * first writes the pending buffer out and empties it; a character is then
   * stored. Nothing is lost or reordered, and nothing is written while the
   * buffer still has room for the character.
   */
  function Put(st: State, a: Arg): (r: State)
    requires Valid(st)
    ensures Valid(r)
    ensures Written(r) == Written(st) + Payload(a)
    ensures a.Flush? ==> r.buf == [] && r.out == st.out + st.buf
    ensures a.Ch? && |st.buf| == WRITE_BUF_SIZE ==> r.out == st.out + st.buf && r.buf == [a.c]
    ensures a.Ch? && |st.buf| < WRITE_BUF_SIZE ==> r.out == st.out && r.buf == st.buf + [a.c]
  {
    var flushed := if a.Flush? || |st.buf| >= WRITE_BUF_SIZE then State([], st.out + st.buf) else st;
    match a
    case Flush => flushed
    case Ch(c) => flushed.(buf := flushed.buf + [c])
  }

  /**
   * `_putchar(c)` as written: the argument is a plain `char`, and the test
   * `c == BUF_FLUSH` compares it with -1. With signed `char` the byte 0xFF is
   * -1 as well, so printing that byte flushes the buffer instead.
   */
  function Classify(c: Char): Arg {
    if c == BUF_FLUSH then Flush else Ch(c)
  }

  /** Of the 256 bytes a `char` can carry, exactly 0xFF is taken for the flush sentinel. */
  lemma ClassifyByte(b: nat)
    requires b < 256
    ensures Classify(CharOfByte(b)).Flush? <==> b == 255
    ensures !Classify(CharOfByte(b)).Flush? ==> Classify(CharOfByte(b)) == Ch(CharOfByte(b))
  {
  }

  /**
   * `_putchar(c)` as written, with its return value: always 1, although its
   * comment promises -1 on error (the result of `write` is ignored).
   */
  function Putchar(st: State, c: Char): (r: (State, int))
    requires Valid(st)
    ensures r.1 == 1
    ensures Valid(r.0)
    ensures c != BUF_FLUSH ==> Written(r.0) == Written(st) + [c]
    ensures c == BUF_FLUSH ==> r.0.buf == [] && r.0.out == Written(st)
  {
    (Put(st, Classify(c)), 1)
  }

  // ---------------------------------------------------------------------------
  // A run of calls
  // ---------------------------------------------------------------------------

  /** The characters a run of calls asks to print, flushes dropped. */
  function Chars(args: seq<Arg>): seq<Char> {
    if args == [] then [] else Payload(args[0]) + Chars(args[1..])
  }

  /** Consecutive `_putchar` calls, first to last. */
  function Run(st: State, args: seq<Arg>): (r: State)
    requires Valid(st)
    ensures Valid(r)
    ensures Written(r) == Written(st) + Chars(args)
    ensures st.out <= r.out
    decreases |args|
  {
    if args == [] then st
    else
      var r := Run(Put(st, args[0]), args[1..]);
      assert Chars(args) == Payload(args[0]) + Chars(args[1..]);
      r
  }

  /**
   * Whatever calls were made since start-up, `out ++ buf` is exactly the
   * non-flush characters passed, in order.
   */
  lemma RunFromInit(args: seq<Arg>)
    ensures Written(Run(Init, args)) == Chars(args)
  {
  }

  // ---------------------------------------------------------------------------
  // _puts
  // ---------------------------------------------------------------------------

  /** One `Ch` call per character of `s`. */
  function Chs(s: seq<Char>): seq<Arg> {
    seq(|s|, i requires 0 <= i < |s| => Ch(s[i]))
  }

  /**
   * The loop of `_puts` from offset `i`, each character sent as a character.
   * The rest of the string is accepted exactly, the writer only ever emits
   * whole buffers, and it emits nothing while the string still fits.
   */
  function PutsFrom(st: State, s: CString, i: nat): (r: State)
    requires Valid(st) && i <= |s|
    ensures Valid(r)
    ensures Written(r) == Written(st) + s[i..]
    ensures st.out <= r.out
    ensures (|r.out| - |st.out|) % WRITE_BUF_SIZE == 0
    ensures |st.buf| + (|s| - i) <= WRITE_BUF_SIZE ==> r == State(st.buf + s[i..], st.out)
    decreases |s| - i
  {
    if At(s, i) == NUL then
      st
    else
      assert s[i..] == [s[i]] + s[i + 1..];
      PutsFrom(Put(st, Ch(s[i])), s, i + 1)
  }

  /**
   * `_puts(s)` with every character printed: NULL leaves the writer as it is,
   * and otherwise `out ++ buf` grows by exactly `s`.
   */
  function Puts(st: State, s: Option<CString>): (r: State)
    requires Valid(st)
    ensures Valid(r)
    ensures s.None? ==> r == st
    ensures s.Some? ==> Written(r) == Written(st) + s.value
    ensures st.out <= r.out
  {
    match s
    case None => st
    case Some(t) => PutsFrom(st, t, 0)
  }

  /** `_puts(s)` has the effect of one `_putchar(s[i])` per character, in order. */
  lemma {:induction false} PutsFromIsRun(st: State, s: CString, i: nat)
    requires Valid(st) && i <= |s|
    ensures PutsFrom(st, s, i) == Run(st, Chs(s[i..]))
    decreases |s| - i
  {
    if i < |s| {
      var args := Chs(s[i..]);
      assert args[0] == Ch(s[i]);
      assert args[1..] == Chs(s[i + 1..]);
      PutsFromIsRun(Put(st, Ch(s[i])), s, i + 1);
    }
  }

  /** The characters `_puts` as written actually prints: 0xFF bytes disappear. */
  function Visible(s: seq<Char>): seq<Char> {
    if s == [] then []
    else (if s[0] == BUF_FLUSH then [] else [s[0]]) + Visible(s[1..])
  }

  /** The loop of `_puts` as written, each character passed through `Putchar`. */
  function PutsCFrom(st: State, s: CString, i: nat): (r: State)
    requires Valid(st) && i <= |s|
    ensures Valid(r)
    ensures Written(r) == Written(st) + Visible(s[i..])
    decreases |s| - i
  {
    if At(s, i) == NUL then
      st
    else
      assert s[i..][0] == s[i] && s[i..][1..] == s[i + 1..];
      assert Visible(s[i..]) == Payload(Classify(s[i])) + Visible(s[i + 1..]);
      var next := Putchar(st, s[i]).0;
      assert Written(next) == Written(st) + Payload(Classify(s[i]));
      PutsCFrom(next, s, i + 1)
  }

  /** `_puts(s)` as written. */
  function PutsC(st: State, s: Option<CString>): (r: State)
    requires Valid(st)
    ensures Valid(r)
    ensures s.None? ==> r == st
    ensures s.Some? ==> Written(r) == Written(st) + Visible(s.value)
  {
    match s
    case None => st
    case Some(t) => PutsCFrom(st, t, 0)
  }

  /** Without a 0xFF byte, `_puts` as written and with every character printed agree. */
  lemma {:induction false} PutsCAgrees(st: State, s: CString, i: nat)
    requires Valid(st) && i <= |s|
    requires forall j :: 0 <= j < |s| ==> s[j] != BUF_FLUSH
    ensures PutsCFrom(st, s, i) == PutsFrom(st, s, i)
    decreases |s| - i
  {
    if i < |s| {
      PutsCAgrees(Put(st, Ch(s[i])), s, i + 1);
    }
  }

  /** `_puts("\xff")` as written prints nothing, where the one-char string was meant. */
  lemma PutsCDropsFF()
    ensures Written(PutsC(Init, Some([BUF_FLUSH]))) == []
    ensures Written(Puts(Init, Some([BUF_FLUSH]))) == [BUF_FLUSH]
  {
  }
}
