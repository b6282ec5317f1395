/**
 * src/lua-getch.c: the Lua module's terminal-attribute, non-blocking and
 * readiness functions. Handles arrive already resolved: a file argument is
 * its descriptor, and the descriptor's state is the Tty passed beside it.
 */
module LuaGetch {
  import opened Lua
  import opened Termios
  import opened Terminal

  /** Error-message prefixes; the strerror text that follows them is not modelled. */
  const CANT_GET_ATTRIBUTES: string := "Can't get attributes: "
  const CANT_SET_ATTRIBUTES: string := "Can't set attributes: "
  const FCNTL_ERROR: string := "fcntl() error: "
  const SELECT_ERROR: string := "select() error: "

  const TOO_FEW_ARGUMENTS: string := "Requires at least 2 arguments, got: "

  /**
   * The message l_select pushes when it is given fewer than two arguments:
   * the fixed text, the count as one decimal digit, and '!'.
   */
  function TooFewArguments(count: nat): (msg: string)
    requires count < 2
    ensures |msg| == |TOO_FEW_ARGUMENTS| + 2 && msg[..|TOO_FEW_ARGUMENTS|] == TOO_FEW_ARGUMENTS
    ensures msg[|msg| - 2] as int - '0' as int == count && msg[|msg| - 1] == '!'
  {
    TOO_FEW_ARGUMENTS + [('0' as int + count) as char] + "!"
  }

  // ---------------------------------------------------------------------
  // Terminal attributes
  // ---------------------------------------------------------------------

  /**
   * The four flag groups as the Lua integers l_get_termios_attributes pushes,
   * in the order c_iflag, c_oflag, c_cflag, c_lflag: each a non-negative
   * integer below 2^32 whose bits are the group's.
   */
  function AttributeValues(t: Attributes): (values: seq<Value>)
    ensures |values| == 4
    ensures forall i :: 0 <= i < 4 ==> values[i].Number? && 0 <= values[i].n < 0x1_0000_0000
    ensures values[0].n == t.iflag as int && values[1].n == t.oflag as int
    ensures values[2].n == t.cflag as int && values[3].n == t.lflag as int
  {
    [Number(t.iflag as int), Number(t.oflag as int), Number(t.cflag as int), Number(t.lflag as int)]
  }

  /**
   * l_get_termios_attributes: the four flag groups as four integers, or nil
   * and a message when the descriptor is not a terminal.
   */
  method GetTermiosAttributes(tty: Tty) returns (values: seq<Value>)
    modifies tty`trace
    ensures values == if tty.isTerminal then AttributeValues(tty.attrs) else [Nil, Str(CANT_GET_ATTRIBUTES)]
    ensures tty.trace == old(tty.trace) + [GetAttr]
  {
    var ok, current := tty.GetAttributes();
    if !ok {
      values := [Nil, Str(CANT_GET_ATTRIBUTES)];
      return;
    }
    values := AttributeValues(current);
  }

  /** One flag group after an optional override: a numeric argument replaces it, anything else keeps it. */
  function Override(current: Flags, v: Value): Flags {
    if IsNumber(v) then ToFlags(v.n) else current
  }

  /**
   * The assignment of a Lua integer to a tcflag_t field: a numeric argument
   * yields the flag word congruent to it modulo 2^32; any other argument
   * leaves the group as it was.
   */
  lemma OverrideIsCongruent(current: Flags, v: Value, g: Flags)
    ensures !IsNumber(v) ==> Override(current, v) == current
    ensures IsNumber(v) && (v.n - g as int) % 0x1_0000_0000 == 0 ==> Override(current, v) == g
  {
    if IsNumber(v) && (v.n - g as int) % 0x1_0000_0000 == 0 {
      ToFlagsCongruent(v.n, g as int);
      ToFlagsOfFlags(g);
    }
  }

  /**
   * The record l_set_termios_attributes applies: the current record, with
   * c_iflag, c_oflag, c_cflag and c_lflag replaced by Lua arguments 2 to 5
   * where those are numbers. Control characters are always the current ones.
   */
  function MergeAttributes(current: Attributes, args: seq<Value>): (merged: Attributes)
    ensures merged.cc == current.cc
  {
    current.(iflag := Override(current.iflag, Arg(args, 2)),
             oflag := Override(current.oflag, Arg(args, 3)),
             cflag := Override(current.cflag, Arg(args, 4)),
             lflag := Override(current.lflag, Arg(args, 5)))
  }

  /** Each flag group is its numeric argument when one is given and the current value otherwise. */
  lemma MergeFields(current: Attributes, args: seq<Value>)
    ensures var merged := MergeAttributes(current, args);
      && merged.iflag == (if IsNumber(Arg(args, 2)) then ToFlags(Arg(args, 2).n) else current.iflag)
      && merged.oflag == (if IsNumber(Arg(args, 3)) then ToFlags(Arg(args, 3).n) else current.oflag)
      && merged.cflag == (if IsNumber(Arg(args, 4)) then ToFlags(Arg(args, 4).n) else current.cflag)
      && merged.lflag == (if IsNumber(Arg(args, 5)) then ToFlags(Arg(args, 5).n) else current.lflag)
      && merged.cc == current.cc
  {
  }

  /** Without numeric overrides the current record is applied unchanged. */
  lemma MergeWithoutOverrides(current: Attributes, args: seq<Value>)
    requires forall index :: 2 <= index <= 5 ==> !IsNumber(Arg(args, index))
    ensures MergeAttributes(current, args) == current
  {
    assert !IsNumber(Arg(args, 2)) && !IsNumber(Arg(args, 3));
    assert !IsNumber(Arg(args, 4)) && !IsNumber(Arg(args, 5));
  }

  /** Applying the same overrides twice is applying them once. */
  lemma MergeIdempotent(current: Attributes, args: seq<Value>)
    ensures MergeAttributes(MergeAttributes(current, args), args) == MergeAttributes(current, args)
  {
  }

  /**
   * Feeding the four integers l_get_termios_attributes returns back into
   * l_set_termios_attributes reproduces the record exactly.
   */
  lemma GetThenSetRoundTrip(current: Attributes, handle: Value)
    ensures MergeAttributes(current, [handle] + AttributeValues(current)) == current
  {
    var args := [handle] + AttributeValues(current);
    assert Arg(args, 2) == Number(current.iflag as int);
    assert Arg(args, 3) == Number(current.oflag as int);
    assert Arg(args, 4) == Number(current.cflag as int);
    assert Arg(args, 5) == Number(current.lflag as int);
    ToFlagsOfFlags(current.iflag);
    ToFlagsOfFlags(current.oflag);
    ToFlagsOfFlags(current.cflag);
    ToFlagsOfFlags(current.lflag);
  }

  /** The apply-timing value: Lua argument 6 converted to a C int if it is a number, TCSANOW otherwise. */
  function ApplyAction(args: seq<Value>): (action: int)
    ensures !IsNumber(Arg(args, 6)) ==> action == TCSANOW
    ensures IsNumber(Arg(args, 6)) ==>
      -0x8000_0000 <= action < 0x8000_0000 && (action - Arg(args, 6).n) % 0x1_0000_0000 == 0
  {
    if IsNumber(Arg(args, 6)) then ToCInt(Arg(args, 6).n) else TCSANOW
  }

  /**
   * l_set_termios_attributes. A failed read of the attributes returns nil
   * and a message and applies nothing; a failed apply returns nil and a
   * message; success returns the single value true with the merged record
   * in force.
   */
  method SetTermiosAttributes(tty: Tty, args: seq<Value>) returns (values: seq<Value>)
    modifies tty`attrs, tty`trace
    ensures !tty.isTerminal ==>
      values == [Nil, Str(CANT_GET_ATTRIBUTES)] && tty.attrs == old(tty.attrs) && tty.trace == old(tty.trace) + [GetAttr]
    ensures tty.isTerminal ==>
      tty.trace == old(tty.trace) + [GetAttr] + [SetAttr(ApplyAction(args), MergeAttributes(old(tty.attrs), args))]
    ensures tty.isTerminal && !ValidAction(ApplyAction(args)) ==>
      values == [Nil, Str(CANT_SET_ATTRIBUTES)] && tty.attrs == old(tty.attrs)
    ensures tty.isTerminal && ValidAction(ApplyAction(args)) ==>
      values == [Boolean(true)] && tty.attrs == MergeAttributes(old(tty.attrs), args)
  {
    var ok, current := tty.GetAttributes();
    if !ok {
      values := [Nil, Str(CANT_GET_ATTRIBUTES)];
      return;
    }
    var merged := MergeAttributes(current, args);
    var action := ApplyAction(args);
    var applied := tty.SetAttributes(action, merged);
    if !applied {
      values := [Nil, Str(CANT_SET_ATTRIBUTES)];
      return;
    }
    values := [Boolean(true)];
  }

  // ---------------------------------------------------------------------
  // Non-blocking mode
  // ---------------------------------------------------------------------

  /**
   * l_set_nonblocking. The non-blocking bit is set when Lua argument 2 is
   * truthy and cleared otherwise, every other bit kept. The single result is
   * always true: when F_SETFL fails, the nil and message are pushed below it
   * and are not returned.
   */
  method SetNonblocking(tty: Tty, args: seq<Value>, setFails: bool) returns (values: seq<Value>)
    modifies tty`flags, tty`trace
    ensures values == [Boolean(true)]
    ensures tty.flags == if setFails then old(tty.flags) else WithNonblock(old(tty.flags), Truthy(Arg(args, 2)))
    ensures tty.trace == old(tty.trace) + [GetFlags] + [SetFlags(WithNonblock(old(tty.flags), Truthy(Arg(args, 2))))]
  {
    var flags := tty.GetStatusFlags();
    flags := WithNonblock(flags, Truthy(Arg(args, 2)));
    var stack: seq<Value> := [];
    var ok := tty.SetStatusFlags(flags, setFails);
    if !ok {
      stack := stack + [Nil, Str(FCNTL_ERROR)];
    }
    stack := stack + [Boolean(true)];
    values := Top(stack, 1);
  }

  // ---------------------------------------------------------------------
  // Readiness
  // ---------------------------------------------------------------------

  /**
   * The arguments l_select works on, 0-based: position 0 is Lua argument 1
   * (the timeout), positions 1.. are files or nil separators.
   */
  predicate SelectArguments(args: seq<Value>) {
    forall k :: 1 <= k < |args| ==> args[k].Nil? || args[k].File?
  }

  /** Position k comes after the first nil among positions 1 to k - 1: it is write-interest. */
  predicate AfterSeparator(args: seq<Value>, k: int) {
    exists j :: 1 <= j < k && j < |args| && args[j].Nil?
  }

  /** The descriptors at positions 1 to n - 1 listed before the first nil. */
  function ReadInterest(args: seq<Value>, n: int): set<nat> {
    set k | 1 <= k < n && k < |args| && args[k].File? && !AfterSeparator(args, k) :: args[k].fd
  }

  /** The descriptors at positions 1 to n - 1 listed after the first nil. */
  function WriteInterest(args: seq<Value>, n: int): set<nat> {
    set k | 1 <= k < n && k < |args| && args[k].File? && AfterSeparator(args, k) :: args[k].fd
  }

  /** max_fd after positions 1 to n - 1: the largest descriptor listed there, and 0 if none is larger. */
  function MaxFd(args: seq<Value>, n: nat): (m: nat)
    ensures forall k :: 1 <= k < n && k < |args| && args[k].File? ==> args[k].fd <= m
    ensures m == 0 || exists k :: 1 <= k < n && k < |args| && args[k].File? && args[k].fd == m
  {
    if n <= 1 then 0
    else
      var m := MaxFd(args, n - 1);
      if n - 1 < |args| && args[n - 1].File? && args[n - 1].fd > m then args[n - 1].fd else m
  }

  /** Extending the scanned prefix by position i: the separator flag and the two interest sets grow by that position alone. */
  lemma InterestStep(args: seq<Value>, i: nat)
    requires SelectArguments(args) && 1 <= i < |args|
    ensures AfterSeparator(args, i + 1) == (AfterSeparator(args, i) || args[i].Nil?)
    ensures ReadInterest(args, i + 1)
      == ReadInterest(args, i) + (if args[i].File? && !AfterSeparator(args, i) then {args[i].fd} else {})
    ensures WriteInterest(args, i + 1)
      == WriteInterest(args, i) + (if args[i].File? && AfterSeparator(args, i) then {args[i].fd} else {})
    ensures MaxFd(args, i + 1) == if args[i].File? && args[i].fd > MaxFd(args, i) then args[i].fd else MaxFd(args, i)
  {
    if args[i].Nil? {
      assert AfterSeparator(args, i + 1) by {
        assert 1 <= i < i + 1 && args[i].Nil?;
      }
    }
    if AfterSeparator(args, i) {
      var j :| 1 <= j < i && j < |args| && args[j].Nil?;
      assert forall k :: i <= k ==> AfterSeparator(args, k);
    }
  }

  /** The select call l_select makes. */
  datatype SelectCall = SelectCall(nfds: nat, readSet: set<nat>, writeSet: set<nat>, timed: bool)

  /**
   * What select reports: failure, or the descriptors that are ready for
   * reading and for writing. Which descriptors are ready, and whether the
   * call fails, is outside the model.
   */
  datatype SelectOutcome = SelectFailed | SelectReady(readable: set<nat>, writable: set<nat>)

  /** A set select hands back: the requested descriptors below nfds that are ready. */
  function StillSet(requested: set<nat>, ready: set<nat>, nfds: nat): set<nat> {
    set fd | fd in requested && fd in ready && fd < nfds
  }

  /**
   * A listed file survives the call exactly when select reports it ready in
   * the direction it was listed under: it was requested in that direction
   * and lies below nfds.
   */
  lemma SurvivesIffReady(args: seq<Value>, k: nat, readable: set<nat>, writable: set<nat>)
    requires SelectArguments(args) && 1 <= k < |args| && args[k].File?
    ensures var nfds := MaxFd(args, |args|) + 1;
      && (!AfterSeparator(args, k) ==>
           (args[k].fd in StillSet(ReadInterest(args, |args|), readable, nfds) <==> args[k].fd in readable))
      && (AfterSeparator(args, k) ==>
           (args[k].fd in StillSet(WriteInterest(args, |args|), writable, nfds) <==> args[k].fd in writable))
  {
    assert args[k].fd <= MaxFd(args, |args|);
    if AfterSeparator(args, k) {
      assert args[k].fd in WriteInterest(args, |args|);
    } else {
      assert args[k].fd in ReadInterest(args, |args|);
    }
  }

  /**
   * What a successful l_select leaves at position k: nil stays nil, a file
   * stays if it is ready in the direction it was listed under, and becomes
   * false otherwise.
   */
  function Projected(args: seq<Value>, k: nat, readable: set<nat>, writable: set<nat>): Value
    requires SelectArguments(args) && 1 <= k < |args|
  {
    if args[k].Nil? then Nil
    else if args[k].fd in (if AfterSeparator(args, k) then writable else readable) then args[k]
    else Boolean(false)
  }

  /** Without a nil separator every listed file is read-interest and none is write-interest. */
  lemma NoSeparatorOnlyReads(args: seq<Value>)
    requires SelectArguments(args)
    requires forall k :: 1 <= k < |args| ==> args[k].File?
    ensures WriteInterest(args, |args|) == {}
    ensures forall k :: 1 <= k < |args| ==> args[k].fd in ReadInterest(args, |args|)
  {
    forall k | 1 <= k < |args|
      ensures args[k].fd in ReadInterest(args, |args|)
    {
      assert !AfterSeparator(args, k);
    }
  }

  /** When every requested descriptor is ready, a successful select hands back every argument unchanged. */
  lemma AllReadyKeepsArguments(args: seq<Value>, readable: set<nat>, writable: set<nat>)
    requires SelectArguments(args)
    requires ReadInterest(args, |args|) <= readable && WriteInterest(args, |args|) <= writable
    ensures forall k :: 1 <= k < |args| ==> Projected(args, k, readable, writable) == args[k]
  {
    forall k | 1 <= k < |args| && args[k].File?
      ensures Projected(args, k, readable, writable) == args[k]
    {
      if AfterSeparator(args, k) {
        assert args[k].fd in WriteInterest(args, |args|);
      } else {
        assert args[k].fd in ReadInterest(args, |args|);
      }
    }
  }

  /** When nothing is ready, a successful select replaces every file with false and keeps the nils. */
  lemma NothingReadyClearsFiles(args: seq<Value>)
    requires SelectArguments(args)
    ensures forall k :: 1 <= k < |args| ==>
      Projected(args, k, {}, {}) == if args[k].Nil? then Nil else Boolean(false)
  {
  }

  /**
   * The first loop of l_select: each file is read-interest until the first
   * nil and write-interest after it, and max_fd is the largest descriptor
   * seen.
   */
  method ScanDescriptors(args: seq<Value>) returns (maxFd: nat, readFds: set<nat>, writeFds: set<nat>)
    requires SelectArguments(args)
    ensures maxFd == MaxFd(args, |args|)
    ensures readFds == ReadInterest(args, |args|) && writeFds == WriteInterest(args, |args|)
  {
    var isWrite := false;
    maxFd, readFds, writeFds := 0, {}, {};
    var i := 1;
    while i < |args|
      invariant 1 <= i && (|args| >= 1 ==> i <= |args|)
      invariant isWrite == AfterSeparator(args, i)
      invariant maxFd == MaxFd(args, i)
      invariant readFds == ReadInterest(args, i) && writeFds == WriteInterest(args, i)
    {
      InterestStep(args, i);
      if args[i].Nil? {
        isWrite := true;
      } else {
        var fd := args[i].fd;
        if fd > maxFd {
          maxFd := fd;
        }
        if isWrite {
          writeFds := writeFds + {fd};
        } else {
          readFds := readFds + {fd};
        }
      }
      i := i + 1;
    }
  }

  /**
   * The second loop of l_select: every file select did not leave set, in the
   * direction it was listed under, is overwritten with false; nils and the
   * surviving files stay.
   */
  method KeepReady(args: seq<Value>, readable: set<nat>, writable: set<nat>, postRead: set<nat>, postWrite: set<nat>)
    returns (marked: seq<Value>)
    requires SelectArguments(args)
    requires postRead == StillSet(ReadInterest(args, |args|), readable, MaxFd(args, |args|) + 1)
    requires postWrite == StillSet(WriteInterest(args, |args|), writable, MaxFd(args, |args|) + 1)
    ensures |marked| == |args|
    ensures |args| >= 1 ==> marked[0] == args[0]
    ensures forall k :: 1 <= k < |args| ==> marked[k] == Projected(args, k, readable, writable)
  {
    marked := args;
    var isWrite := false;
    var i := 1;
    while i < |args|
      invariant 1 <= i && (|args| >= 1 ==> i <= |args|)
      invariant |marked| == |args|
      invariant isWrite == AfterSeparator(args, i)
      invariant |args| >= 1 ==> marked[0] == args[0]
      invariant forall k :: 1 <= k < i && k < |args| ==> marked[k] == Projected(args, k, readable, writable)
      invariant forall k :: i <= k < |args| ==> marked[k] == args[k]
    {
      InterestStep(args, i);
      if marked[i].Nil? {
        isWrite := true;
      } else {
        SurvivesIffReady(args, i, readable, writable);
        var fd := marked[i].fd;
        if isWrite {
          if fd !in postWrite {
            marked := marked[i := Boolean(false)];
          }
        } else {
          if fd !in postRead {
            marked := marked[i := Boolean(false)];
          }
        }
      }
      i := i + 1;
    }
  }

  /**
   * l_select. Files are classified as read- or write-interest by whether a
   * nil came before them; select is called with max_fd + 1, and with a
   * timeout exactly when Lua argument 1 is a number. On failure the results
   * are nil and a message. Otherwise each file select did not keep becomes
   * false, slot 1 becomes true, and the top arg_count slots are returned.
   * With fewer than two arguments, nil and a message are pushed first and the
   * function carries on.
   */
  method Select(args: seq<Value>, outcome: SelectOutcome) returns (values: seq<Value>, call: SelectCall)
    requires SelectArguments(args)
    ensures call.nfds == MaxFd(args, |args|) + 1
    ensures call.readSet == ReadInterest(args, |args|) && call.writeSet == WriteInterest(args, |args|)
    ensures call.timed == (|args| >= 1 && IsNumber(args[0]))
    ensures outcome.SelectFailed? ==> values == [Nil, Str(SELECT_ERROR)]
    ensures outcome.SelectReady? && |args| == 0 ==> values == []
    ensures outcome.SelectReady? && |args| == 1 ==> values == [Str(TooFewArguments(1))]
    ensures outcome.SelectReady? && |args| >= 2 ==>
      && |values| == |args|
      && values[0] == Boolean(true)
      && forall k :: 1 <= k < |args| ==> values[k] == Projected(args, k, outcome.readable, outcome.writable)
  {
    var argc := |args|;
    var stack := args;
    if argc < 2 {
      stack := stack + [Nil, Str(TooFewArguments(argc))];
    }
    var maxFd, readFds, writeFds := ScanDescriptors(args);
    call := SelectCall(maxFd + 1, readFds, writeFds, IsNumber(stack[0]));
    if outcome.SelectFailed? {
      stack := stack + [Nil, Str(SELECT_ERROR)];
      values := Top(stack, 2);
      return;
    }
    var postRead := StillSet(readFds, outcome.readable, call.nfds);
    var postWrite := StillSet(writeFds, outcome.writable, call.nfds);
    if argc >= 2 {
      stack := KeepReady(args, outcome.readable, outcome.writable, postRead, postWrite);
    }
    stack := stack[0 := Boolean(true)];
    values := Top(stack, argc);
  }
}
