/**
 * getkey/getkey.c: the smallest raw-mode session. Snapshot the attributes,
 * apply the raw record, read one character, re-apply the snapshot.
 */
module Getkey {
  import opened Lua
  import opened Termios
  import opened Terminal

  /** The trace `before`, followed by the calls of mygetch, in order. */
  function GetkeyTrace(before: seq<Event>, snapshot: Attributes, ch: int): seq<Event> {
    RawModeTrace(before, snapshot) + [GetChar(ch)] + [SetAttr(TCSANOW, snapshot)]
  }

  /**
   * mygetch. Exactly one getchar, whose value (EOF included) is returned
   * unchanged; the raw record is applied with TCSANOW before it and the
   * snapshot re-applied after it, so the attributes end as they began.
   * Buffering and the descriptor flags are not touched.
   */
  method MyGetch(stdin: Tty) returns (ch: int)
    modifies stdin`attrs, stdin`input, stdin`trace
    ensures ch == NextChar(old(stdin.input)) && stdin.input == AfterChar(old(stdin.input))
    ensures stdin.attrs == old(stdin.attrs)
    ensures stdin.buffered == old(stdin.buffered) && stdin.flags == old(stdin.flags)
    ensures stdin.trace == GetkeyTrace(old(stdin.trace), old(stdin.attrs), ch)
  {
    var oldt := EnterRawMode(stdin);
    ch := stdin.GetCharacter();
    var restored := stdin.SetAttributes(TCSANOW, oldt);
  }

  /** getkey_wrapper: the character mygetch read, as the single Lua result. */
  method GetkeyWrapper(stdin: Tty) returns (values: seq<Value>)
    modifies stdin`attrs, stdin`input, stdin`trace
    ensures values == [Number(NextChar(old(stdin.input)))]
    ensures stdin.input == AfterChar(old(stdin.input))
    ensures stdin.attrs == old(stdin.attrs)
    ensures stdin.trace == GetkeyTrace(old(stdin.trace), old(stdin.attrs), NextChar(old(stdin.input)))
  {
    var ch := MyGetch(stdin);
    values := [Number(ch)];
  }
}
