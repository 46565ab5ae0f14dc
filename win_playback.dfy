/** Playback on Windows: which entries of a recording are replayed, how long
    the handler sleeps before each, computed on 32-bit tick values, and
    which `INPUT` each one becomes. */
module WinPlayback {
  import opened Values
  import WinHooks
  import WinKeyCodes

  /** A well-formed entry: a map with a string "type", a map "details" and
      an `int64_t` "timestamp", all at the top level. */
  datatype Entry = Entry(entryType: string, details: map<string, Value>, timestamp: int)

  function ParseEntry(v: Value): (r: Option<Entry>)
    ensures r.Some? <==>
      && v.Map?
      && LookupString(v.entries, "type").Some?
      && "details" in v.entries && v.entries["details"].Map?
      && "timestamp" in v.entries && v.entries["timestamp"].Int64?
    ensures r.Some? ==>
      r.value == Entry(v.entries["type"].s, v.entries["details"].entries, v.entries["timestamp"].i)
  {
    if v.Map? && LookupString(v.entries, "type").Some?
       && "details" in v.entries && v.entries["details"].Map?
       && "timestamp" in v.entries && v.entries["timestamp"].Int64?
    then Some(Entry(v.entries["type"].s, v.entries["details"].entries, v.entries["timestamp"].i))
    else None
  }

  // ------------------------------------------------------------ ticks

  /** 2^32, the number of distinct `DWORD` values. */
  const TickModulus: int := 0x1_0000_0000

  /** The tick the handler derives from a timestamp, as written: C++'s
      remainder by 0xFFFFFFFF, which truncates toward zero, then the
      conversion to `DWORD`, which is modulo 2^32. */
  function TickOfAsWritten(ts: int): (tick: WinHooks.DWord)
    ensures ts >= 0 ==> tick == ts % 0xFFFF_FFFF
  {
    var remainder := if ts >= 0 then ts % 0xFFFF_FFFF else -((-ts) % 0xFFFF_FFFF);
    remainder % TickModulus
  }

  /** The tick of a timestamp: its lower 32 bits. */
  function TickOf(ts: int): (tick: WinHooks.DWord)
    ensures (ts - tick) % TickModulus == 0
  {
    ts % TickModulus
  }

  /** The delay from tick `last` to tick `cur` in `DWORD` arithmetic: the
      plain difference, or across a wrap of the counter the distance through
      0xFFFFFFFF. Either way it is the elapsed count modulo 2^32. */
  function WrapDelay(last: WinHooks.DWord, cur: WinHooks.DWord): (delay: WinHooks.DWord)
    ensures delay == (cur - last) % TickModulus
  {
    if cur >= last then cur - last else (0xFFFF_FFFF - last) + cur + 1
  }

  /** With the lower 32 bits as the tick, the delay between two timestamps
      less than 2^32 ms apart is exactly the time between them. */
  lemma DelayIsElapsed(a: int, b: int)
    requires a <= b < a + TickModulus
    ensures WrapDelay(TickOf(a), TickOf(b)) == b - a
  {
    var ta, tb := TickOf(a), TickOf(b);
    assert a == (a / TickModulus) * TickModulus + ta;
    assert b == (b / TickModulus) * TickModulus + tb;
    var k := b / TickModulus - a / TickModulus;
    assert tb - ta == (b - a) - k * TickModulus;
    assert (tb - ta) % TickModulus == (b - a) % TickModulus by {
      ModuloShift(b - a, -k);
    }
  }

  lemma ModuloShift(n: int, k: int)
    ensures (n + k * TickModulus) % TickModulus == n % TickModulus
    decreases if k > 0 then k else -k
  {
    if k > 0 {
      ModuloShift(n, k - 1);
      assert n + k * TickModulus == (n + (k - 1) * TickModulus) + TickModulus;
    } else if k < 0 {
      ModuloShift(n, k + 1);
      assert n + k * TickModulus == (n + (k + 1) * TickModulus) - TickModulus;
    }
  }

  /** As written, two timestamps in the same block of 0xFFFFFFFF ms get the
      right delay. */
  lemma AsWrittenDelayWithinBlock(a: int, b: int)
    requires 0 <= a <= b && a / 0xFFFF_FFFF == b / 0xFFFF_FFFF
    ensures WrapDelay(TickOfAsWritten(a), TickOfAsWritten(b)) == b - a
  {
  }

  /** As written, the delay across the end of a block of 0xFFFFFFFF ms is
      1 ms too long: the wrap branch counts through 0xFFFFFFFF, a tick value
      the reduction by 0xFFFFFFFF never produces. */
  lemma AsWrittenDelayOvershoots()
    ensures TickOfAsWritten(0xFFFF_FFFE) == 0xFFFF_FFFE && TickOfAsWritten(0xFFFF_FFFF) == 0
    ensures WrapDelay(TickOfAsWritten(0xFFFF_FFFE), TickOfAsWritten(0xFFFF_FFFF)) == 2
    ensures WrapDelay(TickOf(0xFFFF_FFFE), TickOf(0xFFFF_FFFF)) == 1
  {
  }

  /** Which tick a timestamp becomes: the handler's reduction by
      0xFFFFFFFF as written, or the lower 32 bits its comment describes. */
  datatype TickRule = AsWritten | LowerBits

  function Tick(rule: TickRule, ts: int): (tick: WinHooks.DWord)
    ensures rule == AsWritten ==> tick == TickOfAsWritten(ts)
    ensures rule == LowerBits ==> tick == TickOf(ts)
  {
    match rule
    case AsWritten => TickOfAsWritten(ts)
    case LowerBits => TickOf(ts)
  }

  // ----------------------------------------------------------- inputs

  /** The recorded screen position of a mouse input; the scaling of it to
      the 0..65535 absolute range is not modelled. */
  datatype Position = Position(x: int, y: int)

  /** The `INPUT` structure handed to `SendInput`: a keyboard input with
      its virtual key and flags, or a mouse input with its position (absent
      when the fields were left zeroed), mouse data and flags. */
  datatype Input =
    | KeyInput(virtualKey: nat, flags: bv32)
    | MouseInput(position: Option<Position>, mouseData: WinHooks.DWord, flags: bv32)

  const KeyEventKeyUp: bv32 := 0x2

  const MouseEventMove: bv32 := 0x1
  const MouseEventLeftDown: bv32 := 0x2
  const MouseEventLeftUp: bv32 := 0x4
  const MouseEventRightDown: bv32 := 0x8
  const MouseEventRightUp: bv32 := 0x10
  const MouseEventMiddleDown: bv32 := 0x20
  const MouseEventMiddleUp: bv32 := 0x40
  const MouseEventWheel: bv32 := 0x800
  const MouseEventAbsolute: bv32 := 0x8000

  /** The flag a press (`down`) or release of the named button adds: none
      for a name other than "left", "right" and "middle". */
  function ButtonFlag(button: string, down: bool): (flag: bv32)
    ensures flag == 0 <==> button !in {"left", "right", "middle"}
  {
    if button == "left" then (if down then MouseEventLeftDown else MouseEventLeftUp)
    else if button == "right" then (if down then MouseEventRightDown else MouseEventRightUp)
    else if button == "middle" then (if down then MouseEventMiddleDown else MouseEventMiddleUp)
    else 0
  }

  predicate IsMouseType(entryType: string)
  {
    entryType == "mouseMove" || entryType == "mouseDown" || entryType == "mouseUp" || entryType == "mouseWheel"
  }

  /** The position of a mouse entry: present when both "x" and "y" hold
      32-bit integers. */
  function PositionOf(details: map<string, Value>): (p: Option<Position>)
    ensures p.Some? <==> LookupInt32(details, "x").Some? && LookupInt32(details, "y").Some?
    ensures p.Some? ==> p.value == Position(details["x"].i, details["y"].i)
  {
    match (LookupInt32(details, "x"), LookupInt32(details, "y"))
    case (Some(x), Some(y)) => Some(Position(x, y))
    case _ => None
  }

  /** The input an entry of the given type and details becomes, or `None`
      when it is skipped. */
  function BuildInput(entryType: string, details: map<string, Value>): (r: Option<Input>)
    ensures r.None? <==>
      || (!IsMouseType(entryType) && entryType != "keyDown" && entryType != "keyUp")
      || ((entryType == "keyDown" || entryType == "keyUp") && LookupInt32(details, "vk_code").None?)
      || (IsMouseType(entryType) && entryType != "mouseWheel" && PositionOf(details).None?)
      || ((entryType == "mouseDown" || entryType == "mouseUp") && LookupString(details, "button").None?)
      || (entryType == "mouseWheel" && LookupInt32(details, "delta").None?)
    ensures r.Some? && r.value.KeyInput? ==> entryType == "keyDown" || entryType == "keyUp"
  {
    if entryType == "keyDown" || entryType == "keyUp" then
      match LookupInt32(details, "vk_code")
      case None => None
      case Some(vk) => Some(KeyInput(vk % 0x1_0000, if entryType == "keyUp" then KeyEventKeyUp else 0))
    else if IsMouseType(entryType) then
      var position := PositionOf(details);
      if position.None? && entryType != "mouseWheel" then None
      else
        var placed: bv32 := if position.Some? then MouseEventAbsolute | MouseEventMove else 0;
        if entryType == "mouseDown" || entryType == "mouseUp" then
          match LookupString(details, "button")
          case None => None
          case Some(button) =>
            Some(MouseInput(position, 0,
                            (placed | ButtonFlag(button, entryType == "mouseDown")) | MouseEventMove | MouseEventAbsolute))
        else if entryType == "mouseWheel" then
          match LookupInt32(details, "delta")
          case None => None
          case Some(delta) => Some(MouseInput(position, delta % TickModulus, MouseEventWheel))
        else
          Some(MouseInput(position, 0, placed | MouseEventMove | MouseEventAbsolute))
    else
      None
  }

  /** A key entry presses or releases its "vk_code", cut to 16 bits; only a
      release carries the key-up flag. */
  lemma KeyInputFields(entryType: string, details: map<string, Value>)
    requires entryType == "keyDown" || entryType == "keyUp"
    requires LookupInt32(details, "vk_code").Some?
    ensures BuildInput(entryType, details) ==
      Some(KeyInput(details["vk_code"].i % 0x1_0000, if entryType == "keyUp" then KeyEventKeyUp else 0))
  {
  }

  /** A wheel entry's flags are exactly the wheel flag, and its mouse data is
      its "delta" as a `DWORD`. */
  lemma WheelInputFields(details: map<string, Value>)
    requires LookupInt32(details, "delta").Some?
    ensures BuildInput("mouseWheel", details).Some?
    ensures BuildInput("mouseWheel", details).value.flags == MouseEventWheel
    ensures BuildInput("mouseWheel", details).value.mouseData == details["delta"].i % TickModulus
  {
  }

  /** A press or release is placed at its position, with the button's flag
      added to the move and absolute flags; an unknown button adds none. */
  lemma ClickInputFields(entryType: string, details: map<string, Value>)
    requires entryType == "mouseDown" || entryType == "mouseUp"
    requires PositionOf(details).Some? && LookupString(details, "button").Some?
    ensures var button := details["button"].s;
      BuildInput(entryType, details) ==
        Some(MouseInput(PositionOf(details), 0,
                        MouseEventAbsolute | MouseEventMove | ButtonFlag(button, entryType == "mouseDown")))
    ensures details["button"].s !in {"left", "right", "middle"} ==>
      BuildInput(entryType, details).value.flags == MouseEventAbsolute | MouseEventMove
  {
  }

  /** Every mouse input other than a wheel's is placed at a position, so
      the later check for missing coordinates never skips anything. */
  lemma NonWheelMouseInputIsPlaced(entryType: string, details: map<string, Value>)
    requires IsMouseType(entryType) && entryType != "mouseWheel"
    requires BuildInput(entryType, details).Some?
    ensures BuildInput(entryType, details).value.position.Some?
    ensures BuildInput(entryType, details).value.flags & (MouseEventAbsolute | MouseEventMove)
         == MouseEventAbsolute | MouseEventMove
  {
  }

  // ----------------------------------------------------------- timing

  /** The timing state of the loop: whether no well-formed entry has been
      seen yet, and the tick of the last one. */
  datatype Timing = Timing(first: bool, last: WinHooks.DWord)

  const Start: Timing := Timing(true, 0)

  /** What playback does, in order. */
  datatype Action = Sleep(ms: int) | Send(input: Input)

  /** The sleep before a well-formed entry whose tick is `tick`: none for
      the first entry, none when the last tick is 0, none when the delay is
      0; there is no case of a negative delay. */
  function Wait(t: Timing, tick: WinHooks.DWord): (r: seq<Action>)
    ensures r != [] <==> !t.first && t.last != 0 && tick != t.last
    ensures r != [] ==> r == [Sleep(WrapDelay(t.last, tick))] && WrapDelay(t.last, tick) > 0
  {
    if !t.first && t.last != 0 then
      var delay := WrapDelay(t.last, tick);
      if delay > 0 then [Sleep(delay)] else []
    else []
  }

  /** The actions for one well-formed entry: the sleep, then the input if
      the entry's fields are valid for its type. */
  function Step(rule: TickRule, t: Timing, e: Entry): seq<Action>
  {
    Wait(t, Tick(rule, e.timestamp)) + (match BuildInput(e.entryType, e.details) case Some(i) => [Send(i)] case None => [])
  }

  /** What playing `entries` from timing state `t` does. An entry that does
      not parse is passed over without touching the timing state; one that
      parses moves the timing state on even when its fields are invalid. */
  function Replay(rule: TickRule, t: Timing, entries: seq<Value>): seq<Action>
    decreases |entries|
  {
    if entries == [] then []
    else
      match ParseEntry(entries[0])
      case None => Replay(rule, t, entries[1..])
      case Some(e) => Step(rule, t, e) + Replay(rule, Timing(false, Tick(rule, e.timestamp)), entries[1..])
  }

  /** Playing from position `i` on: the entry there, then the rest. */
  lemma ReplayFrom(rule: TickRule, t: Timing, entries: seq<Value>, i: nat)
    requires i < |entries|
    ensures Replay(rule, t, entries[i..]) ==
      match ParseEntry(entries[i])
      case None => Replay(rule, t, entries[i + 1..])
      case Some(e) => Step(rule, t, e) + Replay(rule, Timing(false, Tick(rule, e.timestamp)), entries[i + 1..])
  {
    assert entries[i..][0] == entries[i];
    assert entries[i..][1..] == entries[i + 1..];
  }

  /** The timing state after playing `entries` from `t`. */
  function After(rule: TickRule, t: Timing, entries: seq<Value>): Timing
    decreases |entries|
  {
    if entries == [] then t
    else
      match ParseEntry(entries[0])
      case None => After(rule, t, entries[1..])
      case Some(e) => After(rule, Timing(false, Tick(rule, e.timestamp)), entries[1..])
  }

  /** Playing two lists one after the other is playing their concatenation. */
  lemma {:induction false} ReplayAppend(rule: TickRule, t: Timing, xs: seq<Value>, ys: seq<Value>)
    ensures Replay(rule, t, xs + ys) == Replay(rule, t, xs) + Replay(rule, After(rule, t, xs), ys)
    decreases |xs|
  {
    if xs == [] {
      assert xs + ys == ys;
    } else {
      assert (xs + ys)[0] == xs[0];
      assert (xs + ys)[1..] == xs[1..] + ys;
      match ParseEntry(xs[0])
      case None =>
        ReplayAppend(rule, t, xs[1..], ys);
      case Some(e) =>
        ReplayAppend(rule, Timing(false, Tick(rule, e.timestamp)), xs[1..], ys);
    }
  }

  /** An entry that does not parse, anywhere in a recording, changes
      nothing: neither what is sent nor how long the handler sleeps. */
  lemma MalformedEntryIgnored(rule: TickRule, t: Timing, xs: seq<Value>, bad: Value, ys: seq<Value>)
    requires ParseEntry(bad).None?
    ensures Replay(rule, t, xs + [bad] + ys) == Replay(rule, t, xs + ys)
    ensures After(rule, t, xs + [bad] + ys) == After(rule, t, xs + ys)
  {
    var rest := [bad] + ys;
    assert xs + [bad] + ys == xs + rest;
    assert rest[0] == bad && rest[1..] == ys;
    ReplayAppend(rule, t, xs, rest);
    ReplayAppend(rule, t, xs, ys);
    AfterAppend(rule, t, xs, rest);
    AfterAppend(rule, t, xs, ys);
  }

  lemma {:induction false} AfterAppend(rule: TickRule, t: Timing, xs: seq<Value>, ys: seq<Value>)
    ensures After(rule, t, xs + ys) == After(rule, After(rule, t, xs), ys)
    decreases |xs|
  {
    if xs == [] {
      assert xs + ys == ys;
    } else {
      assert (xs + ys)[0] == xs[0];
      assert (xs + ys)[1..] == xs[1..] + ys;
      match ParseEntry(xs[0])
      case None =>
        AfterAppend(rule, t, xs[1..], ys);
      case Some(e) =>
        AfterAppend(rule, Timing(false, Tick(rule, e.timestamp)), xs[1..], ys);
    }
  }

  /** An entry that parses but whose fields are invalid sends nothing, yet
      its sleep still happens and its tick becomes the last one. */
  lemma InvalidEntryStillTimed(rule: TickRule, t: Timing, v: Value)
    requires ParseEntry(v).Some?
    requires var e := ParseEntry(v).value; BuildInput(e.entryType, e.details).None?
    ensures Replay(rule, t, [v]) == Wait(t, Tick(rule, ParseEntry(v).value.timestamp))
    ensures After(rule, t, [v]) == Timing(false, Tick(rule, ParseEntry(v).value.timestamp))
  {
    assert [v][1..] == [];
  }

  /** The inputs sent, in order. */
  function SentInputs(actions: seq<Action>): seq<Input>
  {
    if actions == [] then []
    else (if actions[0].Send? then [actions[0].input] else []) + SentInputs(actions[1..])
  }

  lemma {:induction false} SentInputsAppend(xs: seq<Action>, ys: seq<Action>)
    ensures SentInputs(xs + ys) == SentInputs(xs) + SentInputs(ys)
  {
    if xs == [] {
      assert xs + ys == ys;
    } else {
      assert (xs + ys)[0] == xs[0];
      assert (xs + ys)[1..] == xs[1..] + ys;
      SentInputsAppend(xs[1..], ys);
    }
  }

  /** The inputs the valid entries of a recording stand for, in the
      recording's order, whatever their timestamps. */
  function Built(entries: seq<Value>): seq<Input>
  {
    if entries == [] then []
    else
      (match ParseEntry(entries[0])
       case Some(e) => (match BuildInput(e.entryType, e.details) case Some(i) => [i] case None => [])
       case None => [])
      + Built(entries[1..])
  }

  /** Playback sends exactly the inputs of the valid entries, in the
      recording's order; the sleeps in between send nothing. */
  lemma {:induction false} ReplaySendsInOrder(rule: TickRule, t: Timing, entries: seq<Value>)
    ensures SentInputs(Replay(rule, t, entries)) == Built(entries)
    decreases |entries|
  {
    if entries != [] {
      match ParseEntry(entries[0])
      case None =>
        ReplaySendsInOrder(rule, t, entries[1..]);
      case Some(e) =>
        var next := Timing(false, Tick(rule, e.timestamp));
        ReplaySendsInOrder(rule, next, entries[1..]);
        StepSendsBuilt(rule, t, e);
        SentInputsAppend(Step(rule, t, e), Replay(rule, next, entries[1..]));
    }
  }

  /** One entry's step sends the entry's input, if any, and nothing else. */
  lemma StepSendsBuilt(rule: TickRule, t: Timing, e: Entry)
    ensures SentInputs(Step(rule, t, e)) ==
      match BuildInput(e.entryType, e.details) case Some(i) => [i] case None => []
  {
    var w := Wait(t, Tick(rule, e.timestamp));
    var sends := match BuildInput(e.entryType, e.details) case Some(i) => [Send(i)] case None => [];
    assert Step(rule, t, e) == w + sends;
    SentInputsAppend(w, sends);
    assert SentInputs(w) == [];
  }

  /** The milliseconds one action sleeps. */
  function SleptMs(a: Action): int
  {
    if a.Sleep? then a.ms else 0
  }

  /** Total time spent sleeping. */
  function TotalSleep(actions: seq<Action>): int
  {
    Sum(actions, SleptMs)
  }

  /** Starting from `from`, each well-formed entry's timestamp is at least
      the previous one and less than 2^32 ms after it, and none falls on a
      tick of 0. */
  predicate StampsWithinWrap(from: int, entries: seq<Value>)
    decreases |entries|
  {
    entries != [] ==>
      match ParseEntry(entries[0])
      case None => StampsWithinWrap(from, entries[1..])
      case Some(e) =>
        && from <= e.timestamp < from + TickModulus
        && TickOf(e.timestamp) != 0
        && StampsWithinWrap(e.timestamp, entries[1..])
  }

  /** The timestamp of the last well-formed entry, or `from` if there is
      none. */
  function LastStamp(from: int, entries: seq<Value>): int
    decreases |entries|
  {
    if entries == [] then from
    else
      match ParseEntry(entries[0])
      case None => LastStamp(from, entries[1..])
      case Some(e) => LastStamp(e.timestamp, entries[1..])
  }

  /** With the lower 32 bits as the tick, the sleeps add up to exactly the
      span the recording covers, even across wraps of the counter, when no
      two consecutive entries are 2^32 ms apart and no tick is 0. */
  lemma {:induction false} SleepsSpanRecording(last: int, entries: seq<Value>)
    requires TickOf(last) != 0
    requires StampsWithinWrap(last, entries)
    ensures TotalSleep(Replay(LowerBits, Timing(false, TickOf(last)), entries)) == LastStamp(last, entries) - last
    decreases |entries|
  {
    if entries != [] {
      match ParseEntry(entries[0])
      case None =>
        SleepsSpanRecording(last, entries[1..]);
      case Some(e) =>
        var t := Timing(false, TickOf(last));
        var w := Wait(t, TickOf(e.timestamp));
        DelayIsElapsed(last, e.timestamp);
        if w != [] {
          SumSingleton(w[0], SleptMs);
        }
        assert TotalSleep(w) == e.timestamp - last;
        SleepsSpanRecording(e.timestamp, entries[1..]);
        SumAppend(Step(LowerBits, t, e), Replay(LowerBits, Timing(false, TickOf(e.timestamp)), entries[1..]), SleptMs);
        SumAppend(w, Step(LowerBits, t, e)[|w|..], SleptMs);
        assert Step(LowerBits, t, e) == w + Step(LowerBits, t, e)[|w|..];
    }
  }

  /** The block of 0xFFFFFFFF ms a non-negative timestamp falls in, which
      the reduction as written leaves unchanged within. */
  function Block(ts: int): int
  {
    ts / 0xFFFF_FFFF
  }

  /** Starting from `from`, each well-formed entry's timestamp is at least
      the previous one and in the same block of 0xFFFFFFFF ms. */
  predicate StampsWithinBlock(from: int, entries: seq<Value>)
    decreases |entries|
  {
    entries != [] ==>
      match ParseEntry(entries[0])
      case None => StampsWithinBlock(from, entries[1..])
      case Some(e) =>
        && from <= e.timestamp && Block(e.timestamp) == Block(from)
        && StampsWithinBlock(e.timestamp, entries[1..])
  }

  /** Within one block, a later timestamp's tick as written is no smaller. */
  lemma AsWrittenTickGrowsWithinBlock(a: int, b: int)
    requires 0 <= a <= b && Block(a) == Block(b)
    ensures TickOfAsWritten(b) - TickOfAsWritten(a) == b - a
  {
  }

  /** The loop as written sleeps for exactly the span of a recording that
      stays within one block of 0xFFFFFFFF ms and starts at a non-zero
      tick; outside that, `AsWrittenReplayMisTimes` shows it goes wrong. */
  lemma {:induction false} SleepsSpanBlockAsWritten(last: int, entries: seq<Value>)
    requires 0 <= last && TickOfAsWritten(last) != 0
    requires StampsWithinBlock(last, entries)
    ensures TotalSleep(Replay(AsWritten, Timing(false, TickOfAsWritten(last)), entries)) == LastStamp(last, entries) - last
    decreases |entries|
  {
    if entries != [] {
      match ParseEntry(entries[0])
      case None =>
        SleepsSpanBlockAsWritten(last, entries[1..]);
      case Some(e) =>
        var t := Timing(false, TickOfAsWritten(last));
        var w := Wait(t, TickOfAsWritten(e.timestamp));
        AsWrittenTickGrowsWithinBlock(last, e.timestamp);
        AsWrittenDelayWithinBlock(last, e.timestamp);
        if w != [] {
          SumSingleton(w[0], SleptMs);
        }
        assert TotalSleep(w) == e.timestamp - last;
        SleepsSpanBlockAsWritten(e.timestamp, entries[1..]);
        SumAppend(Step(AsWritten, t, e), Replay(AsWritten, Timing(false, TickOfAsWritten(e.timestamp)), entries[1..]), SleptMs);
        SumAppend(w, Step(AsWritten, t, e)[|w|..], SleptMs);
        assert Step(AsWritten, t, e) == w + Step(AsWritten, t, e)[|w|..];
    }
  }

  /** An entry with a timestamp and nothing to send. */
  function Marker(ts: I64): Value
  {
    Map(map["type" := Str("marker"), "details" := Map(map[]), "timestamp" := Int64(ts)])
  }

  /** As written, a recording from 4294967294 to 4294967300 ms (6 ms) is
      replayed with 2 ms of sleep: the step across the block edge sleeps
      2 ms instead of 1, and the entry after it lands on tick 0, so the
      5 ms gap after it is not slept at all. With the lower 32 bits as the
      tick the sleeps are 1 ms and 5 ms. */
  lemma AsWrittenReplayMisTimes()
    ensures var entries := [Marker(0xFFFF_FFFE), Marker(0xFFFF_FFFF), Marker(0x1_0000_0004)];
      && Replay(AsWritten, Start, entries) == [Sleep(2)]
      && Replay(LowerBits, Start, entries) == [Sleep(1), Sleep(5)]
  {
    var entries := [Marker(0xFFFF_FFFE), Marker(0xFFFF_FFFF), Marker(0x1_0000_0004)];
    assert entries == [Marker(0xFFFF_FFFE)] + ([Marker(0xFFFF_FFFF)] + ([Marker(0x1_0000_0004)] + []));
    MarkersAsWritten();
    MarkersLowerBits();
  }

  lemma MarkersAsWritten()
    ensures Replay(AsWritten, Start, [Marker(0xFFFF_FFFE)] + ([Marker(0xFFFF_FFFF)] + ([Marker(0x1_0000_0004)] + [])))
         == [Sleep(2)]
  {
    assert TickOfAsWritten(0xFFFF_FFFE) == 0xFFFF_FFFE;
    assert TickOfAsWritten(0xFFFF_FFFF) == 0;
    assert TickOfAsWritten(0x1_0000_0004) == 5;
    var w1 := Wait(Start, 0xFFFF_FFFE);
    var w2 := Wait(Timing(false, 0xFFFF_FFFE), 0);
    var w3 := Wait(Timing(false, 0), 5);
    assert w1 == [] && w3 == [];
    assert WrapDelay(0xFFFF_FFFE, 0) == 2;
    assert w2 == [Sleep(2)];
    MarkerReplays(AsWritten, Timing(false, 0), 0x1_0000_0004, []);
    MarkerReplays(AsWritten, Timing(false, 0xFFFF_FFFE), 0xFFFF_FFFF, [Marker(0x1_0000_0004)] + []);
    MarkerReplays(AsWritten, Start, 0xFFFF_FFFE, [Marker(0xFFFF_FFFF)] + ([Marker(0x1_0000_0004)] + []));
  }

  lemma MarkersLowerBits()
    ensures Replay(LowerBits, Start, [Marker(0xFFFF_FFFE)] + ([Marker(0xFFFF_FFFF)] + ([Marker(0x1_0000_0004)] + [])))
         == [Sleep(1), Sleep(5)]
  {
    assert TickOf(0xFFFF_FFFE) == 0xFFFF_FFFE;
    assert TickOf(0xFFFF_FFFF) == 0xFFFF_FFFF;
    assert TickOf(0x1_0000_0004) == 4;
    var w1 := Wait(Start, 0xFFFF_FFFE);
    var w2 := Wait(Timing(false, 0xFFFF_FFFE), 0xFFFF_FFFF);
    var w3 := Wait(Timing(false, 0xFFFF_FFFF), 4);
    assert w1 == [];
    assert WrapDelay(0xFFFF_FFFE, 0xFFFF_FFFF) == 1;
    assert WrapDelay(0xFFFF_FFFF, 4) == 5;
    assert w2 == [Sleep(1)] && w3 == [Sleep(5)];
    MarkerReplays(LowerBits, Timing(false, 0xFFFF_FFFF), 0x1_0000_0004, []);
    MarkerReplays(LowerBits, Timing(false, 0xFFFF_FFFE), 0xFFFF_FFFF, [Marker(0x1_0000_0004)] + []);
    MarkerReplays(LowerBits, Start, 0xFFFF_FFFE, [Marker(0xFFFF_FFFF)] + ([Marker(0x1_0000_0004)] + []));
  }

  /** A marker in front of a recording only sleeps, then moves the tick on. */
  lemma MarkerReplays(rule: TickRule, t: Timing, ts: I64, rest: seq<Value>)
    ensures Replay(rule, t, [Marker(ts)] + rest)
         == Wait(t, Tick(rule, ts)) + Replay(rule, Timing(false, Tick(rule, ts)), rest)
  {
    var entries := [Marker(ts)] + rest;
    assert ParseEntry(entries[0]) == Some(Entry("marker", map[], ts));
    assert entries[1..] == rest;
    assert BuildInput("marker", map[]).None?;
  }

  // ------------------------------------------------- capture to playback

  /** A record exactly as a hook sent it has its timestamp inside
      "details", not at the top level, so playback passes over it. */
  lemma SentRecordIsSkipped(m: Message)
    ensures ParseEntry(Encode(m)).None?
  {
  }

  /** The round trip of a key record, whatever name its "key" field holds:
      playback presses or releases the captured virtual key (cut to 16
      bits), and sleeps by the tick-count difference. */
  lemma NamedKeyRecordReplays(wParam: int, info: WinHooks.KeyboardInfo, name: string, tick: UInt64,
                              states: WinHooks.KeyStates)
    requires WinHooks.KeyRecordType(wParam).Some?
    ensures var m := EventMessage(WinHooks.KeyRecordType(wParam).value, WinHooks.NamedKeyDetails(info, name, tick, states));
      var entry := ParseEntry(Map(Lift(m)));
      && entry == Some(Entry(m.recordType, m.details, WinHooks.ToInt64(tick)))
      && BuildInput(entry.value.entryType, entry.value.details) ==
         Some(KeyInput(info.vkCode % 0x1_0000, if m.recordType == "keyUp" then KeyEventKeyUp else 0))
  {
    var m := EventMessage(WinHooks.KeyRecordType(wParam).value, WinHooks.NamedKeyDetails(info, name, tick, states));
    WinHooks.NamedKeyDetailsDecode(info, name, tick, states);
    KeyInputFields(m.recordType, m.details);
    assert WinHooks.ToInt32(info.vkCode) % 0x1_0000 == info.vkCode % 0x1_0000;
  }

  /** A key record a hook captured replays as the key it was captured
      from. */
  lemma KeyRecordReplays(wParam: int, info: WinHooks.KeyboardInfo, tick: UInt64, states: WinHooks.KeyStates)
    requires WinHooks.KeyRecordType(wParam).Some?
    ensures var m := WinHooks.KeyRecord(wParam, info, tick, states).value;
      var entry := ParseEntry(Map(Lift(m)));
      && entry.Some? && entry.value.timestamp == WinHooks.ToInt64(tick)
      && BuildInput(entry.value.entryType, entry.value.details) ==
         Some(KeyInput(info.vkCode % 0x1_0000, if m.recordType == "keyUp" then KeyEventKeyUp else 0))
  {
    NamedKeyRecordReplays(wParam, info, WinKeyCodes.VKCodeToString(WinHooks.ToInt32(info.vkCode)), tick, states);
  }

  /** The input a captured mouse message should become: the same button
      action at the captured position, a move there, or the same wheel
      delta. */
  function ExpectedMouseInput(wParam: int, info: WinHooks.MouseInfo): Option<Input>
  {
    var at := Some(Position(info.x, info.y));
    var placed := MouseEventAbsolute | MouseEventMove;
    if wParam == WinHooks.WmLButtonDown then Some(MouseInput(at, 0, placed | MouseEventLeftDown))
    else if wParam == WinHooks.WmLButtonUp then Some(MouseInput(at, 0, placed | MouseEventLeftUp))
    else if wParam == WinHooks.WmRButtonDown then Some(MouseInput(at, 0, placed | MouseEventRightDown))
    else if wParam == WinHooks.WmRButtonUp then Some(MouseInput(at, 0, placed | MouseEventRightUp))
    else if wParam == WinHooks.WmMButtonDown then Some(MouseInput(at, 0, placed | MouseEventMiddleDown))
    else if wParam == WinHooks.WmMButtonUp then Some(MouseInput(at, 0, placed | MouseEventMiddleUp))
    else if wParam == WinHooks.WmMouseMove then Some(MouseInput(at, 0, placed))
    else if wParam == WinHooks.WmMouseWheel then
      Some(MouseInput(at, WinHooks.WheelDelta(info.mouseData) % TickModulus, MouseEventWheel))
    else None
  }

  /** A mouse record a hook captured parses, and replays as the input the
      message it was captured from stands for. */
  lemma MouseRecordReplays(wParam: int, info: WinHooks.MouseInfo, tick: UInt64)
    requires WinHooks.IsMouseRecordMessage(wParam)
    ensures var m := WinHooks.MouseRecord(wParam, info, tick).value;
      var entry := ParseEntry(Map(Lift(m)));
      && entry.Some? && entry.value.timestamp == WinHooks.ToInt64(tick)
      && BuildInput(entry.value.entryType, entry.value.details) == ExpectedMouseInput(wParam, info)
  {
    var m := WinHooks.MouseRecord(wParam, info, tick).value;
    WinHooks.MouseRecordFields(wParam, info, tick);
    WinHooks.MouseRecordType(wParam, info, tick);
    if WinHooks.ButtonOf(wParam).Some? {
      ClickInputFields(m.recordType, m.details);
    } else if wParam == WinHooks.WmMouseWheel {
      WheelInputFields(m.details);
    }
  }

  /** The wheel delta survives the round trip: the replayed mouse data, read
      back as a signed 32-bit number, is the delta the hook captured. */
  lemma WheelDeltaReplays(info: WinHooks.MouseInfo)
    ensures WinHooks.ToInt32(WinHooks.WheelDelta(info.mouseData) % TickModulus) == WinHooks.WheelDelta(info.mouseData)
  {
  }
}
