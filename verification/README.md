# lua-getch, modelled in Dafny

lua-getch lets a Lua program read single key presses from a terminal. The
terminal must be out of canonical (line-buffered) mode and must not echo.
The model covers the parts of the repository that do this.

- `getch.c`:
  - `l_getch_blocking` enters raw mode and turns off stdin buffering.
  - It reads one key, turning the cursor-key sequences ESC `[` A/B/C/D into the out-of-band codes 256 to 259.
  - It then restores buffering and the terminal attributes.
  - `l_getch_non_blocking` enters raw mode inside an `O_NONBLOCK` bracket around one 1-byte read. It does not touch stdin buffering and decodes nothing.
- `getkey/getkey.c`: `mygetch` and `getkey_wrapper`, the smallest raw-mode session.
- `src/lua-getch.c`:
  - `l_get_termios_attributes` and `l_set_termios_attributes` read the four termios flag groups and merge optional overrides into them.
  - `l_set_nonblocking` sets or clears the non-blocking bit.
  - `l_select` splits its arguments into read and write sets at the first nil, calls select, and writes the outcome back onto the argument positions.

The operating system is one class, `Terminal.Tty`, whose fields hold:

- the termios record;
- the descriptor status flags;
- the bytes waiting on stdin;
- whether the C library buffers stdin;
- `trace`, the system calls made so far, in order.

Each system call is a method of `Tty` that updates those fields. Call order is stated through `trace`.

Things that cannot be known inside the model are parameters:

- what the zero-timeout probe reports (`pending`);
- what select reports (`SelectOutcome`);
- whether `fcntl(F_SETFL)` fails (`setFails`);
- the uninitialised byte in `l_getch_non_blocking` (`stale`).

In the model, `tcgetattr` fails exactly when the descriptor is not a terminal. `tcsetattr` fails exactly when the descriptor is not a terminal or the apply-timing value is not `TCSANOW`, `TCSADRAIN` or `TCSAFLUSH`. Other failures of these calls are not modelled (see "## Left out"). Constants take their Linux values: `ICANON` 0x2, `ECHO` 0x8, `O_NONBLOCK` 0x800, `TCSANOW` 0.

Files:

- `lua.dfy`: Lua values and `return n`.
- `termios.dfy`: the attribute record and the raw-mode transformation.
- `terminal.dfy`: the OS state and the raw-mode entry shared by `getch.c` and `getkey/getkey.c`.
- `getch.dfy`, `getkey.dfy` and `luagetch.dfy`: one per source file.

## Behaviour worth knowing

- `l_getch_blocking` does not restore the terminal when an escape sequence is rejected. The `assert` aborts the process between the two brackets, so the terminal is left raw and unbuffered (`Getch.GetchBlocking`, outcome `AssertionFailed`).
- `l_getch_blocking` always turns buffering back on with a static buffer, whatever the buffering was at entry.
- `l_set_nonblocking` returns true even when `fcntl(F_SETFL)` fails; the nil and the message it pushes are not among its results.
- `l_set_nonblocking` does not return the previous flag word, so a caller cannot restore it exactly. Turning non-blocking mode on and then off gives back the original word only if the bit was clear to begin with (`Terminal.EnableDisableRoundTrip`). `l_getch_non_blocking` avoids this by re-applying the word it saved.
- `l_select` goes on to call select even when it has no descriptors. With fewer than two arguments it pushes nil and a message first. With one argument, the one value it returns is that message.
- When nothing is available, `l_getch_non_blocking` returns whatever its uninitialised byte held. A caller cannot tell that result from a byte actually read.

## Model

| member | source | states |
|---|---|---|
| Termios.RawMode | getch.c:31-33 | the raw record clears ICANON and ECHO in c_lflag and keeps every other c_lflag bit and every other field of the snapshot |
| Termios.RawModeUnique | getch.c:32-33 | those properties determine the raw record completely |
| Termios.RawModeFixedPoint | getch.c:33 | entering raw mode leaves a record unchanged exactly when canonical mode and echo are already off |
| Termios.RawModeIdempotent | getch.c:100-102 | applying the raw-mode transformation to a raw record changes nothing |
| Termios.ToFlagsOfFlags | src/lua-getch.c:65-74 | a flag word pushed to Lua as an integer converts back to the same tcflag_t |
| Termios.ToFlagsCongruent | src/lua-getch.c:97-107 | assigning a Lua integer to a tcflag_t field (Termios.ToFlags) depends only on the integer modulo 2^32 |
| Termios.ToCInt | src/lua-getch.c:111-114 | the apply-timing argument becomes a signed 32-bit int congruent to the Lua integer modulo 2^32 |
| Terminal.WithNonblock | src/lua-getch.c:134-139 | the non-blocking bit follows the requested setting and every other bit of the flag word is preserved |
| Terminal.WithNonblockIdempotent | src/lua-getch.c:134-139 | enabling (or disabling) twice equals doing it once |
| Terminal.WithNonblockLastWins | src/lua-getch.c:134-139 | of two successive settings only the last one matters |
| Terminal.EnableDisableRoundTrip | getch.c:96-113 | enabling then disabling restores the flag word if and only if the bit was clear, which is why the exact saved word is re-applied |
| Terminal.NextChar | getch.c:40 | getchar returns EOF exactly on empty input, and otherwise a byte value |
| Terminal.AfterChar | getch.c:40 | one getchar consumes exactly the first byte, or nothing at end of input |
| Terminal.Tty.GetAttributes | getch.c:31 | tcgetattr succeeds exactly on a terminal and yields the record in force |
| Terminal.Tty.SetAttributes | getch.c:34 | tcsetattr succeeds exactly on a terminal with a valid apply-timing value, and only then changes the record |
| Terminal.Tty.GetStatusFlags | getch.c:96 | F_GETFL yields the current flag word |
| Terminal.Tty.SetStatusFlags | getch.c:98 | F_SETFL installs the word unless the kernel refuses it |
| Terminal.Tty.SetBuffer | getch.c:38 | setbuf turns C-library buffering of stdin off (NULL) or on (a buffer) |
| Terminal.Tty.GetCharacter | getch.c:40 | getchar returns and consumes the next byte, or EOF |
| Terminal.Tty.ReadByte | getch.c:105 | a 1-byte read yields 1 and the next byte, or -1 with the caller's byte untouched when nothing is available |
| Terminal.Tty.PollInput | getch.c:47-56 | the zero-timeout select on stdin reports whether more input is pending |
| Terminal.EnterRawMode | getkey/getkey.c:12-15 | the snapshot is the record at entry and the raw record derived from it is applied with TCSANOW |
| Getch.ArrowKey | getch.c:62-78 | exactly the final bytes A to D map to a code, and every such code is 256 to 259 |
| Getch.ArrowKeyRoundTrip | getch.c:14-21 | each of KEY_UP, KEY_DOWN, KEY_LEFT and KEY_RIGHT is produced by its final byte |
| Getch.FinalByteRoundTrip | getch.c:62-78 | the final-byte mapping is one-to-one |
| Getch.DecodeKey | getch.c:40-80 | the decoder calls getchar at least once and at most three times |
| Getch.DecodeReadsInOrder | getch.c:40-61 | the values read are the input's leading bytes, then EOF; the input left is what follows; the probe is made exactly after an escape byte, and more is read only if the probe reported input |
| Getch.DecodeOrdinary | getch.c:40-42 | a first byte other than 27, EOF included, is returned unchanged and only one byte is consumed |
| Getch.DecodeLoneEscape | getch.c:42-57 | byte 27 with nothing pending returns KEY_ESCAPE and consumes nothing more |
| Getch.DecodeArrow | getch.c:57-75 | 27, 91, then A/B/C/D with input pending returns 256/257/259/258 after consuming exactly three bytes |
| Getch.DecodeUnrecognized | getch.c:59-77 | the decoder rejects the input if and only if an escape with pending input is not followed by '[' and a final byte A to D |
| Getch.DecodedKeyRange | getch.c:40-88 | a returned key is the first byte read (a byte or EOF), or an out-of-band arrow code standing for a complete ESC [ final sequence |
| Getch.ReadKey | getch.c:40-80 | the reading steps return the decoder's result, consume exactly what it reads, and make its getchar and probe calls in order |
| Getch.GetchBlocking | getch.c:28-90 | raw mode is applied before buffering is disabled; on return buffering is restored, then the snapshot, and the single result is the decoded key; a rejected sequence aborts with the terminal left raw and unbuffered |
| Getch.GetchNonBlocking | getch.c:92-117 | O_NONBLOCK is set before raw mode; one 1-byte read happens; the attributes are restored, then the exact saved flag word; the single result is the last-pushed byte, never the nil pushed on a failed read |
| Getkey.MyGetch | getkey/getkey.c:8-19 | exactly one getchar, whose value is returned unchanged; raw record applied before it and the snapshot re-applied after it, so the attributes end as they began; buffering and descriptor flags untouched |
| Getkey.GetkeyWrapper | getkey/getkey.c:21-24 | the single Lua result is the character mygetch read, EOF included |
| LuaGetch.GetTermiosAttributes | src/lua-getch.c:48-77 | the four flag groups as four integers, or nil and a message when the attributes cannot be read |
| LuaGetch.AttributeValues | src/lua-getch.c:64-74 | four integers, in the order c_iflag, c_oflag, c_cflag, c_lflag, each the non-negative value of its flag group |
| LuaGetch.OverrideIsCongruent | src/lua-getch.c:97-108 | a flag group is kept when its argument is not a number, and is otherwise the flag word congruent to the argument modulo 2^32 |
| LuaGetch.MergeAttributes | src/lua-getch.c:93-108 | control characters and everything outside the four flag groups are copied unchanged |
| LuaGetch.MergeFields | src/lua-getch.c:94-108 | each flag group equals its numeric argument (truncated to tcflag_t) if one was given, otherwise the value just read |
| LuaGetch.MergeWithoutOverrides | src/lua-getch.c:94-108 | without numeric arguments 2 to 5 the record read is applied unchanged |
| LuaGetch.MergeIdempotent | src/lua-getch.c:94-108 | applying the same overrides twice equals applying them once |
| LuaGetch.GetThenSetRoundTrip | src/lua-getch.c:64-108 | passing the four integers get_termios_attributes returns to set_termios_attributes reproduces the record exactly |
| LuaGetch.ApplyAction | src/lua-getch.c:110-114 | the apply-timing value is TCSANOW unless argument 6 is a number, and then that number wrapped to a signed 32-bit int |
| LuaGetch.SetTermiosAttributes | src/lua-getch.c:80-126 | the apply timing is ApplyAction's; a failed read returns nil and a message and applies nothing; a failed apply returns nil and a message; success returns true with the merged record in force |
| LuaGetch.SetNonblocking | src/lua-getch.c:129-150 | the flag word gets the non-blocking bit as argument 2's truthiness dictates, and the single result is always true, even when F_SETFL fails |
| LuaGetch.TooFewArguments | src/lua-getch.c:161-165 | the message is the fixed text followed by the argument count as one digit and '!' |
| LuaGetch.MaxFd | src/lua-getch.c:169-181 | max_fd bounds every listed descriptor and is one of them, or 0 |
| LuaGetch.InterestStep | src/lua-getch.c:170-188 | each position joins the read set before the first nil and the write set after it, and a nil joins neither |
| LuaGetch.NoSeparatorOnlyReads | src/lua-getch.c:168-188 | without a nil every listed descriptor is read-interest and the write set is empty |
| LuaGetch.SurvivesIffReady | src/lua-getch.c:205-239 | a listed descriptor is still set after select exactly when select reports it ready in the direction it was listed under |
| LuaGetch.AllReadyKeepsArguments | src/lua-getch.c:218-241 | when every requested descriptor is ready, every argument is handed back |
| LuaGetch.NothingReadyClearsFiles | src/lua-getch.c:218-241 | when nothing is ready, every descriptor argument becomes false and the nils stay |
| LuaGetch.ScanDescriptors | src/lua-getch.c:167-188 | the first loop yields max_fd and exactly the read and write interest sets |
| LuaGetch.KeepReady | src/lua-getch.c:218-241 | the second loop keeps each descriptor still set in its own set, replaces every other descriptor with false and leaves nils alone |
| LuaGetch.Select | src/lua-getch.c:153-249 | select gets 1 + max_fd, the two interest sets, and a timeout exactly when argument 1 is a number; failure returns nil and a message; success returns arg_count values with true first and each position projected; fewer than two arguments do not stop the call |

## Left out

- Lua marshaling:
  - `get_file_from_lua_or_err` and `file_to_fd_or_err`: a handle is its descriptor (`Lua.Value.File`). Numeric descriptors opened with `fdopen`, and the Lua errors raised for non-file arguments, are not modelled, so `LuaGetch.Select` requires every argument after the first to be a file or nil.
  - Numeric strings and non-integral numbers under `lua_isnumber` and `lua_tointeger`: the model has only integers.
  - `luaopen_*` and the constant tables: host registration.
- The real system calls are state updates on `Terminal.Tty` with oracle parameters. Blocking, timing and concurrent use of a descriptor are not modelled.
- The `strerror` text after each error prefix is not modelled, and neither is the floating-point timeout split into seconds and microseconds.
- Descriptors at or above `FD_SETSIZE` are not modelled; `FD_SET` on them is undefined.
- Getch.GetchBlocking: only builds where `assert` aborts are modelled. With `NDEBUG`, the last byte read would be returned instead.
- Getch.GetchNonBlocking: all three `fcntl` calls (`F_GETFL`, then `F_SETFL` twice) are taken to succeed, since the code ignores their results.
- LuaGetch.SetNonblocking: a failing `F_GETFL` (which makes the flag word -1) is not modelled; the read is taken to succeed.
- LuaGetch.Select: what select reports is an input, so only descriptors select keeps, among those requested and below the descriptor count, can survive. Waiting until one is ready is not modelled.
- Terminal.Tty.SetAttributes: `tcsetattr` on a terminal with a valid apply-timing value is taken to succeed; interruption (`EINTR`) and I/O errors (`EIO`) are not modelled. The restore clauses (attributes equal to those at entry) of Getch.GetchBlocking, Getch.GetchNonBlocking, Getkey.MyGetch and Getkey.GetkeyWrapper depend on this. So does LuaGetch.SetTermiosAttributes, whose failed-apply result is reached only through an invalid apply-timing value.
- Terminal.Tty.GetAttributes: when `tcgetattr` fails, the record it hands back is the live one. In the source the caller's record is then uninitialised. On a non-terminal the traced raw-mode `SetAttr` therefore carries `RawMode` of the live record instead of indeterminate bytes. No result or state differs, because every `tcsetattr` on a non-terminal fails.
- Terminal.Tty.ReadByte: an empty queue means "nothing available yet" (-1, `EAGAIN`). A read at end of file, which returns 0, is not modelled. Only the count recorded in the trace would differ; the byte handed back is the caller's either way.
