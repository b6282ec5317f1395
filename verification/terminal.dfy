/**
 * The operating-system state the core reads and changes: one terminal
 * descriptor with its attribute record, its descriptor status flags, the
 * bytes waiting to be read from it, and whether the C library buffers it.
 * Every system call the core makes is a method here, and each one appends
 * what it did to `trace`, so that the order of calls is part of the state.
 */
module Terminal {
  import opened Termios

  /** One byte of terminal input. */
  type Byte = b: int | 0 <= b < 256

  /** What getchar returns at end of input. */
  const EOF: int := -1

  /** The non-blocking bit of the descriptor status flags, with the value Linux gives it. */
  const O_NONBLOCK: bv32 := 0x800

  /**
   * The flag word after turning non-blocking mode on (OR with the bit) or
   * off (AND with its complement): the non-blocking bit follows `enable`
   * and every other bit is left as it was.
   */
  function WithNonblock(flags: bv32, enable: bool): (r: bv32)
    ensures r & O_NONBLOCK == (if enable then O_NONBLOCK else 0)
    ensures r & !O_NONBLOCK == flags & !O_NONBLOCK
  {
    if enable then flags | O_NONBLOCK else flags & !O_NONBLOCK
  }

  /** Setting the bit the same way twice is setting it once. */
  lemma WithNonblockIdempotent(flags: bv32, enable: bool)
    ensures WithNonblock(WithNonblock(flags, enable), enable) == WithNonblock(flags, enable)
  {
  }

  /** Only the last setting counts. */
  lemma WithNonblockLastWins(flags: bv32, first: bool, second: bool)
    ensures WithNonblock(WithNonblock(flags, first), second) == WithNonblock(flags, second)
  {
    if first && !second {
      SetThenClear(flags);
    } else if !first && second {
      ClearThenSet(flags);
    }
  }

  lemma SetThenClear(w: bv32)
    ensures (w | O_NONBLOCK) & !O_NONBLOCK == w & !O_NONBLOCK
  {
  }

  lemma ClearThenSet(w: bv32)
    ensures (w & !O_NONBLOCK) | O_NONBLOCK == w | O_NONBLOCK
  {
  }

  /**
   * Enabling and then disabling gives back the original word exactly when
   * the bit was clear to begin with; otherwise the restore must use the
   * saved word, as getch.c does.
   */
  lemma EnableDisableRoundTrip(flags: bv32)
    ensures WithNonblock(WithNonblock(flags, true), false) == flags <==> flags & O_NONBLOCK == 0
  {
  }

  /** getchar: the next byte of input, or EOF when there is none. */
  function NextChar(input: seq<Byte>): (c: int)
    ensures c == EOF <==> input == []
    ensures -1 <= c < 256
  {
    if input == [] then EOF else input[0]
  }

  /** The input left after one getchar or one 1-byte read. */
  function AfterChar(input: seq<Byte>): (rest: seq<Byte>)
    ensures input == [] ==> rest == []
    ensures input != [] ==> [input[0]] + rest == input
  {
    if input == [] then [] else input[1..]
  }

  /** A system call the core made, as recorded in the trace. */
  datatype Event =
    | GetAttr                              // tcgetattr
    | SetAttr(action: int, attrs: Attributes)  // tcsetattr
    | GetFlags                             // fcntl(F_GETFL)
    | SetFlags(flags: bv32)                // fcntl(F_SETFL)
    | SetBuffering(on: bool)               // setbuf(stdin, buffer) or setbuf(stdin, NULL)
    | GetChar(ch: int)                     // getchar, with the value it returned
    | Read(count: int)                     // read of one byte, with its return value
    | Poll(ready: bool)                    // select with a zero timeout on the descriptor

  class Tty {
    /** The attribute record the terminal driver currently applies. */
    var attrs: Attributes
    /** The descriptor status flags (F_GETFL / F_SETFL). */
    var flags: bv32
    /** Bytes available to be read, oldest first. */
    var input: seq<Byte>
    /** Whether the C library reads the stream through a buffer. */
    var buffered: bool
    /** Whether the descriptor refers to a terminal; tcgetattr and tcsetattr fail (ENOTTY) if not. */
    const isTerminal: bool
    /** The system calls made so far, oldest first. */
    var trace: seq<Event>

    /** A descriptor in the given state, with buffering on and no calls made yet. */
    constructor (isTerminal: bool, attrs: Attributes, flags: bv32, input: seq<Byte>)
      ensures this.isTerminal == isTerminal && this.attrs == attrs && this.flags == flags
      ensures this.input == input && buffered && trace == []
    {
      this.isTerminal := isTerminal;
      this.attrs := attrs;
      this.flags := flags;
      this.input := input;
      buffered := true;
      trace := [];
    }

    /**
     * tcgetattr. On failure the caller's record is left as it was; the model
     * hands back the current record in both cases, since every tcsetattr on
     * a non-terminal fails as well.
     */
    method GetAttributes() returns (ok: bool, t: Attributes)
      modifies this`trace
      ensures ok == isTerminal && t == attrs
      ensures trace == old(trace) + [GetAttr]
    {
      ok, t := isTerminal, attrs;
      trace := trace + [GetAttr];
    }

    /** tcsetattr: fails on a non-terminal or an unknown apply-timing value, and then changes nothing. */
    method SetAttributes(action: int, t: Attributes) returns (ok: bool)
      modifies this`attrs, this`trace
      ensures ok == (isTerminal && ValidAction(action))
      ensures attrs == if ok then t else old(attrs)
      ensures trace == old(trace) + [SetAttr(action, t)]
    {
      ok := isTerminal && ValidAction(action);
      if ok {
        attrs := t;
      }
      trace := trace + [SetAttr(action, t)];
    }

    /** fcntl(F_GETFL). */
    method GetStatusFlags() returns (w: bv32)
      modifies this`trace
      ensures w == flags
      ensures trace == old(trace) + [GetFlags]
    {
      w := flags;
      trace := trace + [GetFlags];
    }

    /** fcntl(F_SETFL); whether the kernel refuses the update is the oracle `fails`. */
    method SetStatusFlags(w: bv32, fails: bool) returns (ok: bool)
      modifies this`flags, this`trace
      ensures ok == !fails
      ensures flags == if ok then w else old(flags)
      ensures trace == old(trace) + [SetFlags(w)]
    {
      ok := !fails;
      if ok {
        flags := w;
      }
      trace := trace + [SetFlags(w)];
    }

    /** setbuf on the stream: NULL turns buffering off, a buffer turns it on. */
    method SetBuffer(on: bool)
      modifies this`buffered, this`trace
      ensures buffered == on
      ensures trace == old(trace) + [SetBuffering(on)]
    {
      buffered := on;
      trace := trace + [SetBuffering(on)];
    }

    /** getchar: consumes the next byte, or returns EOF and consumes nothing. */
    method GetCharacter() returns (c: int)
      modifies this`input, this`trace
      ensures c == NextChar(old(input)) && input == AfterChar(old(input))
      ensures trace == old(trace) + [GetChar(c)]
    {
      c := NextChar(input);
      input := AfterChar(input);
      trace := trace + [GetChar(c)];
    }

    /**
     * read(fd, &ch, 1) on a non-blocking descriptor: 1 and the next byte when
     * one is available; otherwise -1 (EAGAIN) and the caller's byte `ch` is
     * left as it was. Unlike getchar, an empty queue here means "nothing
     * available yet", not end of input: a read at end of file, which returns
     * 0, is not modelled. Only the count recorded in the trace depends on
     * this; the byte handed back is `ch` in both cases.
     */
    method ReadByte(ch: Byte) returns (count: int, b: Byte)
      modifies this`input, this`trace
      ensures count == (if old(input) == [] then -1 else 1)
      ensures b == if old(input) == [] then ch else old(input)[0]
      ensures input == AfterChar(old(input))
      ensures trace == old(trace) + [Read(count)]
    {
      if input == [] {
        count, b := -1, ch;
      } else {
        count, b := 1, input[0];
      }
      input := AfterChar(input);
      trace := trace + [Read(count)];
    }

    /**
     * select on this descriptor with a zero timeout. Whether more input has
     * already arrived is the oracle `pending`.
     */
    method PollInput(pending: bool) returns (ready: bool)
      modifies this`trace
      ensures ready == pending
      ensures trace == old(trace) + [Poll(pending)]
    {
      ready := pending;
      trace := trace + [Poll(pending)];
    }
  }

  /** The trace `before`, followed by the calls that enter raw mode: a snapshot, then the raw record applied at once. */
  function RawModeTrace(before: seq<Event>, snapshot: Attributes): seq<Event> {
    before + [GetAttr] + [SetAttr(TCSANOW, RawMode(snapshot))]
  }

  /**
   * The opening of every raw-mode session in getch.c and getkey/getkey.c:
   * take a snapshot with tcgetattr, derive the raw record from it and apply
   * that with TCSANOW. Returns the snapshot; on a terminal the raw record is
   * now in force, otherwise nothing changed.
   */
  method EnterRawMode(tty: Tty) returns (snapshot: Attributes)
    modifies tty`attrs, tty`trace
    ensures snapshot == old(tty.attrs)
    ensures tty.attrs == if tty.isTerminal then RawMode(snapshot) else snapshot
    ensures tty.trace == RawModeTrace(old(tty.trace), snapshot)
  {
    var got;
    got, snapshot := tty.GetAttributes();
    var applied := tty.SetAttributes(TCSANOW, RawMode(snapshot));
  }
}
