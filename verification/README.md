# arifshell string routines and buffered writer, in Dafny

This project models the string and output layer of the arifshell command
interpreter (`stringTwo.c`). The layer has three parts:

- `startsWith(str1, substring)` tests whether `substring` is a prefix of `str1`. It returns a pointer to the rest of `str1`, or NULL.
- `_strcmp(s1, s2)` is a three-way comparison of two strings.
- `_putchar` / `_puts` make up the shell's buffered standard-output writer.
  - `_putchar` holds a static 1024-char buffer (`WRITE_BUF_SIZE`, simpleShell.h:17) with a fill index.
  - It writes the buffer out on the `BUF_FLUSH` sentinel (-1, simpleShell.h:18) or when the buffer is full.
  - `_puts` feeds a string to `_putchar` one character at a time.

Representation:

- `CStr.Char` is a signed C `char` (-128..127). The model assumes a platform where plain `char` is signed, such as the x86-64 System V ABI. `CStr.CharOfByte` and `CStr.ByteOfChar` convert between bytes 0..255 and these values.
- `CStr.CString` is the contents of a NUL-terminated string: a sequence with no NUL in it.
- A NULL pointer is `Wrappers.Option.None`.
- A pointer advanced `i` places is the offset `i`. It is read through `CStr.At`, whose precondition `i <= |s|` forbids reading past the terminator.
- The writer's static storage is the explicit record `Writer.State(buf, out)`. `buf` is the pending part of the buffer. `out` is everything passed to `write(1, …)` so far.
- `Writer.Init` is the zero-initialised static state.
- `Writer.Valid` (fill index at most `WRITE_BUF_SIZE`) is the invariant the static state keeps from `Init` on. Every writer operation requires it and re-establishes it.

Files:

- `wrappers.dfy`: `Option`.
- `cstr.dfy`: characters and C strings.
- `string_two.dfy`: `startsWith` and `_strcmp`.
- `writer.dfy`: `_putchar` and `_puts`.
- `signal.dfy`: the effect on the writer of the SIGINT handler in `signal.c`.

`_strcmp` compares signed chars. This makes it differ from the C library's `strcmp`, which compares as `unsigned char`:

- `"\x7f"` compares greater than `"\x80"`.
- The empty string compares greater than `"\xff"` (`StringTwo.SignedPrefixGreater`).

It is still a strict total order (`StrcmpAntisymmetric`, `StrcmpTransitive`), and it is zero exactly on equal strings.

## Model

| member | source | states |
|---|---|---|
| StringTwo.StartsWithFrom | stringTwo.c:48-51 | the scan, after `i` matching characters, returns non-NULL exactly when `p` is a prefix of `s`, and then `s` is `p` followed by the result; neither pointer passes its terminator |
| StringTwo.StartsWith | stringTwo.c:46-52 | result is non-NULL iff `p` is a prefix of `s`, and then is the suffix of `s` from index `|p|`; NULL whenever `s` is shorter than `p`; an empty `p` gives `s` back |
| StringTwo.StartsWithConcat | stringTwo.c:46-52 | round trip: `startsWith(p ++ t, p)` returns `t` |
| StringTwo.StrcmpFrom | stringTwo.c:61-71 | the loop, after `i` equal characters: zero iff the strings are equal, `a[k] - b[k]` at the first mismatch `k`, and -1/1 by the signed next char when one string is a proper prefix of the other |
| StringTwo.Strcmp | stringTwo.c:59-72 | zero iff `a == b`; the character difference at the first index where both differ; for a proper prefix `a` of `b`, -1 if `b`'s next char is positive and 1 otherwise (and the mirror case) |
| StringTwo.StrcmpAtDiff | stringTwo.c:61-71 | the sign of the result equals the sign of the difference of the NUL-terminated buffers at their first differing offset (lexicographic order by signed char, terminator as 0) |
| StringTwo.StrcmpLexicographic | stringTwo.c:59-72 | for every pair of strings, the sign of the result is that of the lexicographic reference comparison at their first difference |
| StringTwo.StrcmpAntisymmetric | stringTwo.c:59-72 | `sign(_strcmp(a, b)) == -sign(_strcmp(b, a))` |
| StringTwo.StrcmpTransitive | stringTwo.c:59-72 | `_strcmp(a, b) < 0` and `_strcmp(b, c) < 0` imply `_strcmp(a, c) < 0` |
| StringTwo.AsciiPrefixLess | stringTwo.c:68-71 | over non-negative (ASCII) chars, a proper prefix compares -1 against the longer string and 1 with the arguments swapped |
| StringTwo.SignedPrefixGreater | stringTwo.c:68-71 | with signed chars, `_strcmp("", "\xff")` is 1 |
| Writer.Put | stringTwo.c:13-19 | a flush empties the buffer into stdout and accepts no character; a character at a full buffer is stored only after the full buffer is written; otherwise nothing is written; the fill index stays within 0..1024 and `out ++ buf` grows by exactly the character |
| Writer.ClassifyByte | stringTwo.c:13-19 | of the 256 bytes a signed `char` argument can carry, exactly byte 0xFF (the value -1) is taken for the flush sentinel; every other byte is a character to print |
| Writer.Putchar | stringTwo.c:8-21 | always returns 1; a char other than -1 is appended to `out ++ buf`; -1 leaves `buf` empty with everything accepted written out |
| Writer.Run | stringTwo.c:8-21 | over any sequence of calls the fill index stays in range, `out` only grows, and `out ++ buf` grows by exactly the non-flush characters in order |
| Writer.RunFromInit | stringTwo.c:10-20 | from the zero-initialised static state, `out ++ buf` is exactly the non-flush characters passed so far |
| Writer.PutsFrom | stringTwo.c:34-38 | the corrected `_puts` loop of "## Findings" (each character sent as a character, never as the sentinel) accepts exactly the rest of the string; `out` only grows, and only by whole 1024-char buffers; nothing is written while the rest fits in the buffer |
| Writer.Puts | stringTwo.c:28-39 | the corrected `_puts` of "## Findings": NULL leaves the writer unchanged; otherwise `out ++ buf` grows by exactly the string, 0xFF bytes included |
| Writer.PutsFromIsRun | stringTwo.c:34-38 | the corrected `_puts` loop of "## Findings" has the same effect as one character call per character, in order |
| Writer.PutsCFrom | stringTwo.c:34-38 | the loop as written accepts the rest of the string with its 0xFF bytes removed |
| Writer.PutsC | stringTwo.c:28-39 | `_puts` as written: NULL leaves the writer unchanged; otherwise `out ++ buf` grows by the string without its 0xFF bytes |
| Writer.PutsCAgrees | stringTwo.c:28-39 | for strings without a 0xFF byte, `_puts` as written and the corrected writer reach the same state |
| Writer.PutsCDropsFF | stringTwo.c:13-19 | `_puts("\xff")` as written accepts nothing, while the corrected writer accepts the byte |
| Signal.Redraw | signal.c:9-11 | the handler's writes leave the buffer empty and stdout ending with everything accepted before followed by `"\n$ "` |
| Signal.RedrawAsWritten | signal.c:9-11 | the handler as written (`_puts` twice, then `_putchar(BUF_FLUSH)` on a `char`) reaches the same state as `Redraw` |

## Left out

- The real `write(2)`: partial writes and errors cannot be modelled here, and its result is ignored (stringTwo.c:15). Each write appends the whole buffer to `out`.
- NULL arguments to `startsWith` and `_strcmp`: the C code dereferences them, so the model takes non-NULL strings. Only `_puts` checks for NULL.
- Platforms where plain `char` is unsigned: the model assumes signed `char`. With unsigned `char`, `_strcmp` orders as the C library does and byte 0xFF prints normally. But then the sentinel itself never flushes either: `BUF_FLUSH` converts to 255, and `255 == -1` is false. So `_putchar(BUF_FLUSH)` (signal.c:11) would store a 0xFF byte, and output would be written only when the buffer fills.
- Writer.Put, Writer.Putchar, Writer.PutsFrom, Writer.Puts: these require `Valid` (fill index at most 1024). States outside it are never reached from the zero-initialised static storage.
- StringTwo.StartsWith: returns the contents of the suffix, not the pointer `str1 + |p|`. So the identity of the returned pointer (that it points into `str1`, at offset `|p|`) is not modelled; the offset is `|p|` by the contract `r.value == s[|p|..]`.
- `_puts` indexes its string with an `int` (stringTwo.c:30), which would overflow past `INT_MAX` characters. The model's index is unbounded.
- Asynchronous delivery of SIGINT: Dafny has no notion of signals. Only the handler's writes are modelled (`Signal.Redraw`).
- The rest of the shell declared in simpleShell.h (chain splitting, tokenizing, alias and variable expansion, builtins, history, process launching): its code is not part of this model.

## Findings

| source | as written | input that shows it | evidently intended | confidence | as-written member | corrected member |
|---|---|---|---|---|---|---|
| stringTwo.c:8-19 | `_putchar(char c)` tests `c == BUF_FLUSH`. With signed `char`, byte 0xFF equals -1, so it flushes the buffer and is never printed. `_puts` therefore drops every 0xFF byte of its string. | `_puts("\xff")` on a fresh writer accepts no character | every byte of the string is printed; only the explicit sentinel flushes | medium, not executed | Writer.PutsCDropsFF | Writer.Puts |

The corrected writer takes an `Arg`, either `Flush` or `Ch(c)` (`Writer.Put`), so no character can be mistaken for the sentinel. `Signal.Redraw` uses it.
