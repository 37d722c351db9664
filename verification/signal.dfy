/**
 * The SIGINT handler's effect on the writer. The handler itself is
 * asynchronous; only the writes it performs are modelled.
 */
module Signal {
  import opened Wrappers
  import opened CStr
  import opened Writer

  /** ASCII codes of the prompt text. */
  const NEWLINE: CString := [10]
  const PROMPT: CString := [36, 32]  // "$ "

  /**
   * `sigintHandler`: print a newline and a fresh prompt, then flush. The
   * buffer ends empty and stdout ends with everything accepted before,
   * followed by "\n$ ".
   */
  function Redraw(st: State): (r: State)
    requires Valid(st)
    ensures Valid(r)
    ensures r.buf == []
    ensures r.out == Written(st) + NEWLINE + PROMPT
  {
    Put(Puts(Puts(st, Some(NEWLINE)), Some(PROMPT)), Flush)
  }

  /**
   * The handler as written calls `_puts` and `_putchar(BUF_FLUSH)`; on this
   * text, free of 0xFF bytes, it reaches the same state as `Redraw`.
   */
  lemma RedrawAsWritten(st: State)
    requires Valid(st)
    ensures Putchar(PutsC(PutsC(st, Some(NEWLINE)), Some(PROMPT)), BUF_FLUSH).0 == Redraw(st)
  {
  }
}
