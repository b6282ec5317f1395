/**
 * The POSIX terminal attribute record (struct termios) and the one
 * transformation every raw-mode session applies to it.
 */
module Termios {

  /** tcflag_t: an unsigned 32-bit flag word. */
  type Flags = bv32

  /**
   * struct termios: the four flag groups, and everything else in the record
   * (control characters, line discipline, speeds) kept as opaque bytes.
   */
  datatype Attributes = Attributes(iflag: Flags, oflag: Flags, cflag: Flags, lflag: Flags, cc: seq<bv8>)

  /** Local-mode bits, with the values Linux gives them. */
  const ICANON: Flags := 0x2
  const ECHO: Flags := 0x8

  /** The bits a raw-mode session clears from c_lflag. */
  const RAW_CLEARED: Flags := ICANON | ECHO

  /** Apply-timing values accepted by tcsetattr, with the values Linux gives them. */
  const TCSANOW: int := 0
  const TCSADRAIN: int := 1
  const TCSAFLUSH: int := 2

  /** tcsetattr refuses (EINVAL) any apply-timing value other than these three. */
  predicate ValidAction(action: int) {
    action == TCSANOW || action == TCSADRAIN || action == TCSAFLUSH
  }

  /**
   * The raw record derived from a snapshot: a copy whose local-mode word has
   * canonical mode and echo cleared. Every other local-mode bit and every
   * other field is the snapshot's.
   */
  function RawMode(t: Attributes): (r: Attributes)
    ensures r.lflag & RAW_CLEARED == 0
    ensures r.lflag & !RAW_CLEARED == t.lflag & !RAW_CLEARED
    ensures r.iflag == t.iflag && r.oflag == t.oflag && r.cflag == t.cflag && r.cc == t.cc
  {
    t.(lflag := t.lflag & !RAW_CLEARED)
  }

  /** The clauses of RawMode's contract pin the raw record down completely. */
  lemma RawModeUnique(t: Attributes, r: Attributes)
    requires r.lflag & RAW_CLEARED == 0
    requires r.lflag & !RAW_CLEARED == t.lflag & !RAW_CLEARED
    requires r.iflag == t.iflag && r.oflag == t.oflag && r.cflag == t.cflag && r.cc == t.cc
    ensures r == RawMode(t)
  {
    assert r.lflag == (r.lflag & RAW_CLEARED) | (r.lflag & !RAW_CLEARED);
  }

  /** Entering raw mode changes nothing exactly when canonical mode and echo are already off. */
  lemma RawModeFixedPoint(t: Attributes)
    ensures RawMode(t) == t <==> t.lflag & RAW_CLEARED == 0
  {
    var r := RawMode(t);
    if t.lflag & RAW_CLEARED == 0 {
      ClearedBitsAbsent(t.lflag);
      assert r.lflag == t.lflag;
    } else {
      assert r.lflag != t.lflag;
    }
  }

  lemma ClearedBitsAbsent(w: Flags)
    requires w & RAW_CLEARED == 0
    ensures w & !RAW_CLEARED == w
  {
  }

  /** Entering raw mode twice is entering it once. */
  lemma RawModeIdempotent(t: Attributes)
    ensures RawMode(RawMode(t)) == RawMode(t)
  {
    RawModeFixedPoint(RawMode(t));
  }

  /** The C conversion of a Lua integer to tcflag_t: reduction modulo 2^32. */
  function ToFlags(n: int): Flags
  {
    (n % 0x1_0000_0000) as Flags
  }

  /**
   * The conversion depends only on the integer modulo 2^32: integers that
   * differ by a multiple of 2^32 give the same flag word.
   */
  lemma {:induction false} ToFlagsCongruent(a: int, b: int)
    requires (a - b) % 0x1_0000_0000 == 0
    ensures ToFlags(a) == ToFlags(b)
  {
    var k := (a - b) / 0x1_0000_0000;
    assert a == b + k * 0x1_0000_0000;
    assert (b + k * 0x1_0000_0000) % 0x1_0000_0000 == b % 0x1_0000_0000;
  }

  /** A flag word pushed to Lua as a (non-negative) integer converts back to itself. */
  lemma ToFlagsOfFlags(f: Flags)
    ensures ToFlags(f as int) == f
  {
    FlagsBelowModulus(f);
    FlagsIntRoundTrip(f);
  }

  lemma FlagsBelowModulus(f: Flags)
    ensures f as int % 0x1_0000_0000 == f as int
  {
  }

  lemma FlagsIntRoundTrip(f: Flags)
    ensures (f as int) as Flags == f
  {
  }

  /** The C conversion of a Lua integer to `int` (two's complement wrap-around to 32 bits). */
  function ToCInt(n: int): (r: int)
    ensures -0x8000_0000 <= r < 0x8000_0000
    ensures (r - n) % 0x1_0000_0000 == 0
  {
    var m := n % 0x1_0000_0000;
    if m < 0x8000_0000 then m else m - 0x1_0000_0000
  }
}
