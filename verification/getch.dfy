/**
 * getch.c: read one key from standard input in raw mode, turning the cursor
 * keys' control sequences into out-of-band key codes, or read one byte
 * without blocking. The cursor keys arrive as 7-bit CSI sequences (section
 * 5.4 of ECMA-48): ESC, '[', and the final byte of CUU (A), CUD (B),
 * CUF (C) or CUB (D) (sections 8.3.22, 8.3.19, 8.3.20 and 8.3.18).
 */
module Getch {
  import opened Lua
  import opened Termios
  import opened Terminal

  /** KEY_TUPLE: three ASCII values and four codes outside the byte range. */
  const KEY_ENTER: int := 10
  const KEY_ESCAPE: int := 27
  const KEY_SPACE: int := 32
  const KEY_UP: int := 256
  const KEY_DOWN: int := 257
  const KEY_LEFT: int := 258
  const KEY_RIGHT: int := 259

  /** The second byte of a 7-bit CSI sequence, '['. */
  const CSI_INTRODUCER: int := 91

  datatype Option<T> = None | Some(value: T)

  /** The switch on the final byte of a cursor-key sequence. */
  function ArrowKey(final: int): (k: Option<int>)
    ensures k.Some? <==> 'A' as int <= final <= 'D' as int
    ensures k.Some? ==> KEY_UP <= k.value <= KEY_RIGHT
  {
    if final == 'A' as int then Some(KEY_UP)
    else if final == 'B' as int then Some(KEY_DOWN)
    else if final == 'C' as int then Some(KEY_RIGHT)
    else if final == 'D' as int then Some(KEY_LEFT)
    else None
  }

  /** The final byte a terminal sends for an arrow key code. */
  function FinalByte(key: int): int
    requires KEY_UP <= key <= KEY_RIGHT
  {
    if key == KEY_UP then 'A' as int
    else if key == KEY_DOWN then 'B' as int
    else if key == KEY_RIGHT then 'C' as int
    else 'D' as int
  }

  /** Every arrow key code is produced by exactly the final byte FinalByte gives it. */
  lemma ArrowKeyRoundTrip(key: int)
    requires KEY_UP <= key <= KEY_RIGHT
    ensures ArrowKey(FinalByte(key)) == Some(key)
  {
  }

  /** ArrowKey is one-to-one: FinalByte recovers the byte it decoded. */
  lemma FinalByteRoundTrip(final: int)
    requires ArrowKey(final).Some?
    ensures FinalByte(ArrowKey(final).value) == final
  {
  }

  /** What the decoder makes of the input: a key code, or a sequence its `assert`s reject. */
  datatype KeyResult = Key(code: int) | Unrecognized

  /**
   * One run of the decoder: its result, the values getchar returned in
   * order, whether the zero-timeout probe was made, and the input left.
   */
  datatype Decoding = Decoding(result: KeyResult, chars: seq<int>, probed: bool, rest: seq<Byte>)

  /**
   * The decoding steps of l_getch_blocking over the input queue, where
   * `pending` is what the zero-timeout probe reports after an escape byte.
   * Each getchar takes the next byte, or gives EOF once the input is empty.
   */
  function DecodeKey(input: seq<Byte>, pending: bool): (d: Decoding)
    ensures 1 <= |d.chars| <= 3
  {
    var c0 := NextChar(input);
    var q1 := AfterChar(input);
    if c0 != KEY_ESCAPE then
      Decoding(Key(c0), [c0], false, q1)
    else if !pending then
      Decoding(Key(KEY_ESCAPE), [c0], true, q1)
    else
      var c1 := NextChar(q1);
      var q2 := AfterChar(q1);
      if c1 != CSI_INTRODUCER then
        Decoding(Unrecognized, [c0, c1], true, q2)
      else
        var c2 := NextChar(q2);
        var q3 := AfterChar(q2);
        match ArrowKey(c2)
        case Some(key) => Decoding(Key(key), [c0, c1, c2], true, q3)
        case None => Decoding(Unrecognized, [c0, c1, c2], true, q3)
  }

  /**
   * The decoder reads the input in order: the values getchar returned are
   * the leading bytes of the input, then EOF once it is exhausted; the
   * input left is what follows the bytes read. The probe is made exactly
   * after an escape byte, and reading goes on only if it reported input.
   */
  lemma DecodeReadsInOrder(input: seq<Byte>, pending: bool)
    ensures var d := DecodeKey(input, pending);
      && (forall i :: 0 <= i < |d.chars| ==> d.chars[i] == (if i < |input| then input[i] else EOF))
      && d.rest == (if |d.chars| <= |input| then input[|d.chars|..] else [])
      && (d.probed <==> d.chars[0] == KEY_ESCAPE)
      && (|d.chars| > 1 ==> d.probed && pending)
  {
  }

  /** A first byte other than escape, EOF included, is the key itself, and nothing more is read. */
  lemma DecodeOrdinary(input: seq<Byte>, pending: bool)
    requires NextChar(input) != KEY_ESCAPE
    ensures DecodeKey(input, pending) == Decoding(Key(NextChar(input)), [NextChar(input)], false, AfterChar(input))
  {
  }

  /** An escape byte with nothing pending is the Escape key, and nothing more is read. */
  lemma DecodeLoneEscape(rest: seq<Byte>)
    ensures DecodeKey([KEY_ESCAPE as Byte] + rest, false) == Decoding(Key(KEY_ESCAPE), [KEY_ESCAPE], true, rest)
  {
    assert ([KEY_ESCAPE as Byte] + rest)[1..] == rest;
  }

  /** ESC [ A/B/C/D with more input pending is an arrow key, after exactly three bytes. */
  lemma DecodeArrow(final: Byte, rest: seq<Byte>)
    requires ArrowKey(final).Some?
    ensures DecodeKey([KEY_ESCAPE as Byte, CSI_INTRODUCER as Byte, final] + rest, true)
         == Decoding(Key(ArrowKey(final).value), [KEY_ESCAPE, CSI_INTRODUCER, final], true, rest)
  {
    var input := [KEY_ESCAPE as Byte, CSI_INTRODUCER as Byte, final] + rest;
    assert input[1..][1..][1..] == rest;
  }

  /**
   * The decoder rejects the input exactly when an escape byte is followed by
   * pending input that is not '[' and a final byte A to D.
   */
  lemma DecodeUnrecognized(input: seq<Byte>, pending: bool)
    ensures DecodeKey(input, pending).result.Unrecognized?
        <==> (NextChar(input) == KEY_ESCAPE && pending
              && !(|input| >= 3 && input[1] == CSI_INTRODUCER && ArrowKey(input[2]).Some?))
  {
  }

  /**
   * A decoded key is either the first byte read (a byte value or EOF) or an
   * out-of-band arrow code that stands for a complete ESC [ final sequence.
   */
  lemma DecodedKeyRange(input: seq<Byte>, pending: bool)
    ensures var d := DecodeKey(input, pending);
      d.result.Key? ==>
        (EOF <= d.result.code < 256 && d.result.code == NextChar(input) && d.rest == AfterChar(input))
        || (KEY_UP <= d.result.code <= KEY_RIGHT && pending && |input| >= 3
            && input[..3] == [KEY_ESCAPE, CSI_INTRODUCER, FinalByte(d.result.code)] && d.rest == input[3..])
  {
  }

  /** The trace `before`, followed by the decoder's getchar and probe calls, in order. */
  function DecodeTrace(before: seq<Event>, pending: bool, d: Decoding): seq<Event>
    requires 1 <= |d.chars| <= 3
  {
    var first := before + [GetChar(d.chars[0])];
    var probed := if d.probed then first + [Poll(pending)] else first;
    if |d.chars| == 1 then probed
    else if |d.chars| == 2 then probed + [GetChar(d.chars[1])]
    else probed + [GetChar(d.chars[1])] + [GetChar(d.chars[2])]
  }

  /**
   * The trace `before`, followed by the calls of l_getch_blocking: snapshot,
   * raw mode, buffering off, the decoder's calls, and (unless an `assert`
   * aborted the process) buffering on and the snapshot re-applied, in that
   * order.
   */
  function BlockingTrace(before: seq<Event>, snapshot: Attributes, pending: bool, d: Decoding): seq<Event>
    requires 1 <= |d.chars| <= 3
  {
    var decoded := DecodeTrace(RawModeTrace(before, snapshot) + [SetBuffering(false)], pending, d);
    if d.result.Unrecognized? then decoded
    else decoded + [SetBuffering(true)] + [SetAttr(TCSANOW, snapshot)]
  }

  /** How a call from Lua ends: with values returned, or with the process aborted by `assert`. */
  datatype Outcome = Returned(values: seq<Value>) | AssertionFailed

  /**
   * The reading part of l_getch_blocking, between the brackets: one getchar,
   * and after an escape byte the probe and, if input is pending, two more
   * getchars and the switch on the final byte. `ch` is reassigned as bytes
   * are consumed.
   */
  method ReadKey(stdin: Tty, pending: bool) returns (r: KeyResult)
    modifies stdin`input, stdin`trace
    ensures var d := DecodeKey(old(stdin.input), pending);
      && r == d.result
      && stdin.input == d.rest
      && stdin.trace == DecodeTrace(old(stdin.trace), pending, d)
  {
    var ch := stdin.GetCharacter();
    if ch != KEY_ESCAPE {
      return Key(ch);
    }
    var sel := stdin.PollInput(pending);
    if !sel {
      return Key(ch);
    }
    ch := stdin.GetCharacter();
    if ch != CSI_INTRODUCER {
      return Unrecognized;
    }
    ch := stdin.GetCharacter();
    var key := ArrowKey(ch);
    if key.None? {
      return Unrecognized;
    }
    r := Key(key.value);
  }

  /**
   * l_getch_blocking. Returns the decoded key as its single result and
   * leaves the attributes as they were at entry, with buffering on. A
   * rejected sequence aborts the process between the two brackets, leaving
   * the terminal raw and unbuffered.
   */
  method GetchBlocking(stdin: Tty, pending: bool) returns (out: Outcome)
    modifies stdin`attrs, stdin`buffered, stdin`input, stdin`trace
    ensures var d := DecodeKey(old(stdin.input), pending);
      && stdin.input == d.rest
      && out == (if d.result.Key? then Returned([Number(d.result.code)]) else AssertionFailed)
      && stdin.trace == BlockingTrace(old(stdin.trace), old(stdin.attrs), pending, d)
    ensures out.Returned? ==> stdin.attrs == old(stdin.attrs) && stdin.buffered
    ensures out.AssertionFailed? ==>
      !stdin.buffered && stdin.attrs == (if stdin.isTerminal then RawMode(old(stdin.attrs)) else old(stdin.attrs))
  {
    var oldt := EnterRawMode(stdin);
    stdin.SetBuffer(false);
    var key := ReadKey(stdin, pending);
    if key.Unrecognized? {
      return AssertionFailed;
    }
    stdin.SetBuffer(true);
    var restored := stdin.SetAttributes(TCSANOW, oldt);
    out := Returned([Number(key.code)]);
  }

  /**
   * The trace `before`, followed by the calls of l_getch_non_blocking: the
   * flag word is read and the non-blocking bit set, raw mode is entered, one
   * 1-byte read is made, then the snapshot and the saved flag word are
   * re-applied, in that order.
   */
  function NonBlockingTrace(before: seq<Event>, snapshot: Attributes, saved: bv32, count: int): seq<Event> {
    RawModeTrace(before + [GetFlags] + [SetFlags(WithNonblock(saved, true))], snapshot)
    + [Read(count)] + [SetAttr(TCSANOW, snapshot)] + [SetFlags(saved)]
  }

  /**
   * l_getch_non_blocking. Returns one value, the last one pushed: the byte
   * read, or, when nothing could be read, whatever the uninitialised byte
   * `stale` held; the nil pushed for a failed read is not among the results.
   * Attributes and flag word end as they were at entry.
   */
  method GetchNonBlocking(stdin: Tty, stale: Byte) returns (values: seq<Value>)
    modifies stdin`attrs, stdin`flags, stdin`input, stdin`trace
    ensures values == [Number(if old(stdin.input) == [] then stale else old(stdin.input)[0])]
    ensures stdin.attrs == old(stdin.attrs) && stdin.flags == old(stdin.flags)
    ensures stdin.input == AfterChar(old(stdin.input))
    ensures stdin.trace
         == NonBlockingTrace(old(stdin.trace), old(stdin.attrs), old(stdin.flags), if old(stdin.input) == [] then -1 else 1)
  {
    var flags := stdin.GetStatusFlags();
    var updated := stdin.SetStatusFlags(WithNonblock(flags, true), false);
    var oldt := EnterRawMode(stdin);
    var stack: seq<Value> := [];
    var r, ch := stdin.ReadByte(stale);
    if r < 0 {
      stack := stack + [Nil];
    } else {
      stack := stack + [Number(ch)];
    }
    var restored := stdin.SetAttributes(TCSANOW, oldt);
    updated := stdin.SetStatusFlags(flags, false);
    stack := stack + [Number(ch)];
    values := Top(stack, 1);
  }
}
