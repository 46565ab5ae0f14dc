/** Playback on macOS: which entries of a recording are replayed, how long
    the handler waits before each, and which CoreGraphics event each one
    becomes. */
module MacPlayback {
  import opened Values
  import MacCapture
  import MacKeyCodes

  /** The `CGEventType` cases playback posts. */
  datatype CGEventType =
    | LeftMouseDown | LeftMouseUp
    | RightMouseDown | RightMouseUp
    | OtherMouseDown | OtherMouseUp
    | MouseMoved | LeftMouseDragged | RightMouseDragged | OtherMouseDragged

  datatype CGMouseButton = Left | Right | Center

  /** An event posted to the HID event tap. A scroll event's wheels carry
      the recorded deltas as doubles; their conversion to 32-bit integers is
      not modelled. */
  datatype Injection =
    | KeyboardEvent(virtualKey: UInt16, keyDown: bool, flags: UInt64)
    | MouseEvent(mouseType: CGEventType, x: I64, y: I64, button: CGMouseButton, clickState: Option<I64>)
    | ScrollEvent(wheel1: Float, wheel2: Float)

  /** A coordinate for a posted mouse event: the global one when the entry
      has it as a number that converts to `Int`, else the window one, else 0. */
  function Coordinate(details: map<string, Value>, globalKey: string, localKey: string): (c: I64)
    ensures LookupInteger(details, globalKey, Int64Min, Int64Max).Some? ==>
      c == LookupInteger(details, globalKey, Int64Min, Int64Max).value
    ensures LookupInteger(details, globalKey, Int64Min, Int64Max).None? ==>
      if LookupInteger(details, localKey, Int64Min, Int64Max).Some?
      then c == LookupInteger(details, localKey, Int64Min, Int64Max).value
      else c == 0
  {
    match LookupInteger(details, globalKey, Int64Min, Int64Max)
    case Some(g) => g
    case None =>
      match LookupInteger(details, localKey, Int64Min, Int64Max)
      case Some(l) => l
      case None => 0
  }

  /** The button a click entry names: "right" and "middle" are recognised,
      anything else (or nothing) is the left button. */
  function ClickButton(name: Option<string>): (b: CGMouseButton)
    ensures b == Right <==> name == Some("right")
    ensures b == Center <==> name == Some("middle")
  {
    if name == Some("right") then Right
    else if name == Some("middle") then Center
    else Left
  }

  /** The event type of a button press or release. */
  function ClickType(down: bool, button: CGMouseButton): CGEventType
  {
    match button
    case Left => if down then LeftMouseDown else LeftMouseUp
    case Right => if down then RightMouseDown else RightMouseUp
    case Center => if down then OtherMouseDown else OtherMouseUp
  }

  /** The event type and button of a motion entry, from its
      "dragged_button" field. */
  function MotionType(dragged: Option<string>): (r: (CGEventType, CGMouseButton))
    ensures r.0 == MouseMoved <==> dragged !in {Some("left"), Some("right"), Some("other")}
  {
    if dragged == Some("left") then (LeftMouseDragged, Left)
    else if dragged == Some("right") then (RightMouseDragged, Right)
    else if dragged == Some("other") then (OtherMouseDragged, Center)
    else (MouseMoved, Left)
  }

  /** The event an entry of the given type and details becomes, or `None`
      when nothing is posted: a key entry without a "keyCode" that converts
      to `UInt16`, a wheel entry without a "deltaY" that converts to
      `Double`, or an unknown type. */
  function Simulate(entryType: string, details: map<string, Value>): (r: Option<Injection>)
    ensures r.None? <==>
      || entryType !in {"keyDown", "keyUp", "mouseDown", "mouseUp", "mouseMove", "mouseWheel"}
      || (entryType in {"keyDown", "keyUp"} && LookupInteger(details, "keyCode", 0, UInt16Max).None?)
      || (entryType == "mouseWheel" && LookupDouble(details, "deltaY").None?)
    ensures r.Some? && r.value.KeyboardEvent? ==>
      && LookupInteger(details, "keyCode", 0, UInt16Max) == Some(r.value.virtualKey)
      && (r.value.keyDown <==> entryType == "keyDown")
    ensures r.Some? && r.value.MouseEvent? ==>
      && r.value.x == Coordinate(details, "x_global", "x")
      && r.value.y == Coordinate(details, "y_global", "y")
  {
    var x := Coordinate(details, "x_global", "x");
    var y := Coordinate(details, "y_global", "y");
    var flags := LookupInteger(details, "modifierFlags", 0, UInt64Max);
    if entryType == "keyDown" || entryType == "keyUp" then
      match LookupInteger(details, "keyCode", 0, UInt16Max)
      case None => None
      case Some(keyCode) =>
        Some(KeyboardEvent(keyCode, entryType == "keyDown", if flags.Some? then flags.value else 0))
    else if entryType == "mouseDown" || entryType == "mouseUp" then
      var button := ClickButton(LookupString(details, "button"));
      var clicks := LookupInteger(details, "clickCount", Int64Min, Int64Max);
      Some(MouseEvent(ClickType(entryType == "mouseDown", button), x, y, button,
                      if clicks.Some? then Some(clicks.value) else None))
    else if entryType == "mouseMove" then
      var (motion, button) := MotionType(LookupString(details, "dragged_button"));
      Some(MouseEvent(motion, x, y, button, None))
    else if entryType == "mouseWheel" then
      match LookupDouble(details, "deltaY")
      case None => None
      case Some(dy) =>
        var dx := LookupDouble(details, "deltaX");
        Some(ScrollEvent(dy, if dx.Some? then dx.value else Integral(0)))
    else
      None
  }

  /** Numbers convert by value: a wheel entry whose "deltaY" was encoded
      as an integer still scrolls, by that whole number. */
  lemma IntegerWheelDeltaScrolls(d: map<string, Value>, n: int)
    requires Int32Min <= n <= Int32Max
    requires "deltaY" in d && d["deltaY"] == Int32(n) && "deltaX" !in d
    ensures Simulate("mouseWheel", d) == Some(ScrollEvent(Integral(n), Integral(0)))
  {
  }

  /** Numbers convert by value: a whole-number double "x_global" positions
      the event, in preference to "x". */
  lemma WholeDoubleCoordinate(d: map<string, Value>, n: I64)
    requires "x_global" in d && d["x_global"] == Double(Integral(n))
    ensures Coordinate(d, "x_global", "x") == n
  {
  }

  // -------------------------------------------------------------- timing

  /** A well-formed entry: a string "type", a dictionary "details" and an
      "timestamp" that converts to `Int64`, all at the top level. */
  datatype Entry = Entry(entryType: string, details: map<string, Value>, timestamp: I64)

  function ParseEntry(m: map<string, Value>): (r: Option<Entry>)
    ensures r.Some? <==>
      && LookupString(m, "type").Some?
      && "details" in m && m["details"].Map?
      && LookupInteger(m, "timestamp", Int64Min, Int64Max).Some?
    ensures r.Some? ==>
      r.value == Entry(m["type"].s, m["details"].entries, LookupInteger(m, "timestamp", Int64Min, Int64Max).value)
  {
    match (LookupString(m, "type"), LookupInteger(m, "timestamp", Int64Min, Int64Max))
    case (Some(entryType), Some(timestamp)) =>
      if "details" in m && m["details"].Map? then Some(Entry(entryType, m["details"].entries, timestamp))
      else None
    case _ => None
  }

  /** The loop's timing state: whether no well-formed entry has been seen
      yet, and the timestamp of the last one. */
  datatype Timing = Timing(first: bool, last: I64)

  const Start: Timing := Timing(true, 0)

  /** What playback does, in order. */
  datatype Action = Sleep(ms: int) | Post(injection: Injection)

  /** The wait before a well-formed entry stamped `timestamp`. */
  function Wait(t: Timing, timestamp: I64): (r: seq<Action>)
    ensures r != [] <==> !t.first && t.last != 0 && timestamp - t.last > 0
    ensures r != [] ==> r == [Sleep(timestamp - t.last)]
  {
    if !t.first && t.last != 0 && timestamp - t.last > 0 then [Sleep(timestamp - t.last)] else []
  }

  /** The actions for one well-formed entry. */
  function Step(t: Timing, e: Entry): seq<Action>
  {
    Wait(t, e.timestamp) + (match Simulate(e.entryType, e.details) case Some(i) => [Post(i)] case None => [])
  }

  /** What playing `entries` from timing state `t` does. A malformed entry
      is passed over without touching the timing state. */
  function Replay(t: Timing, entries: seq<map<string, Value>>): seq<Action>
    decreases |entries|
  {
    if entries == [] then []
    else
      match ParseEntry(entries[0])
      case None => Replay(t, entries[1..])
      case Some(e) => Step(t, e) + Replay(Timing(false, e.timestamp), entries[1..])
  }

  /** Playing from position `i` on: the entry there, then the rest. */
  lemma ReplayFrom(t: Timing, entries: seq<map<string, Value>>, i: nat)
    requires i < |entries|
    ensures Replay(t, entries[i..]) ==
      match ParseEntry(entries[i])
      case None => Replay(t, entries[i + 1..])
      case Some(e) => Step(t, e) + Replay(Timing(false, e.timestamp), entries[i + 1..])
  {
    assert entries[i..][0] == entries[i];
    assert entries[i..][1..] == entries[i + 1..];
  }

  /** The timing state after playing `entries` from `t`. */
  function After(t: Timing, entries: seq<map<string, Value>>): Timing
    decreases |entries|
  {
    if entries == [] then t
    else
      match ParseEntry(entries[0])
      case None => After(t, entries[1..])
      case Some(e) => After(Timing(false, e.timestamp), entries[1..])
  }

  /** Playing two lists one after the other is playing their concatenation. */
  lemma {:induction false} ReplayAppend(t: Timing, xs: seq<map<string, Value>>, ys: seq<map<string, Value>>)
    ensures Replay(t, xs + ys) == Replay(t, xs) + Replay(After(t, xs), ys)
    decreases |xs|
  {
    if xs == [] {
      assert xs + ys == ys;
    } else {
      assert (xs + ys)[0] == xs[0];
      assert (xs + ys)[1..] == xs[1..] + ys;
      match ParseEntry(xs[0])
      case None =>
        ReplayAppend(t, xs[1..], ys);
      case Some(e) =>
        ReplayAppend(Timing(false, e.timestamp), xs[1..], ys);
    }
  }

  /** A malformed entry anywhere in a recording changes nothing: neither
      what is posted nor how long the handler waits. */
  lemma MalformedEntryIgnored(t: Timing, xs: seq<map<string, Value>>, bad: map<string, Value>,
                              ys: seq<map<string, Value>>)
    requires ParseEntry(bad).None?
    ensures Replay(t, xs + [bad] + ys) == Replay(t, xs + ys)
  {
    ReplayAppend(t, xs, [bad] + ys);
    assert xs + [bad] + ys == xs + ([bad] + ys);
    assert ([bad] + ys)[1..] == ys;
    ReplayAppend(t, xs, ys);
  }

  /** The events posted, in order. */
  function Posted(actions: seq<Action>): seq<Injection>
  {
    if actions == [] then []
    else (if actions[0].Post? then [actions[0].injection] else []) + Posted(actions[1..])
  }

  lemma {:induction false} PostedAppend(xs: seq<Action>, ys: seq<Action>)
    ensures Posted(xs + ys) == Posted(xs) + Posted(ys)
  {
    if xs == [] {
      assert xs + ys == ys;
    } else {
      assert (xs + ys)[0] == xs[0];
      assert (xs + ys)[1..] == xs[1..] + ys;
      PostedAppend(xs[1..], ys);
    }
  }

  /** The events the well-formed entries of a recording stand for, in the
      recording's order, whatever their timestamps. */
  function Simulated(entries: seq<map<string, Value>>): seq<Injection>
  {
    if entries == [] then []
    else
      (match ParseEntry(entries[0])
       case Some(e) => (match Simulate(e.entryType, e.details) case Some(i) => [i] case None => [])
       case None => [])
      + Simulated(entries[1..])
  }

  /** Playback posts exactly the events of the well-formed entries, in the
      recording's order; the waits in between post nothing. */
  lemma {:induction false} ReplayPostsInOrder(t: Timing, entries: seq<map<string, Value>>)
    ensures Posted(Replay(t, entries)) == Simulated(entries)
    decreases |entries|
  {
    if entries != [] {
      match ParseEntry(entries[0])
      case None =>
        ReplayPostsInOrder(t, entries[1..]);
      case Some(e) =>
        var rest := Replay(Timing(false, e.timestamp), entries[1..]);
        ReplayPostsInOrder(Timing(false, e.timestamp), entries[1..]);
        PostedAppend(Step(t, e), rest);
        PostedAppend(Wait(t, e.timestamp), Step(t, e)[|Wait(t, e.timestamp)|..]);
        assert Step(t, e) == Wait(t, e.timestamp) + Step(t, e)[|Wait(t, e.timestamp)|..];
    }
  }

  /** The milliseconds one action sleeps. */
  function SleptMs(a: Action): int
  {
    if a.Sleep? then a.ms else 0
  }

  /** Total time spent sleeping. */
  function TotalSleep(actions: seq<Action>): int
  {
    Sum(actions, SleptMs)
  }

  /** The well-formed entries' timestamps never decrease, starting from
      `from`. */
  predicate StampsNondecreasing(from: int, entries: seq<map<string, Value>>)
    decreases |entries|
  {
    entries != [] ==>
      match ParseEntry(entries[0])
      case None => StampsNondecreasing(from, entries[1..])
      case Some(e) => from <= e.timestamp && StampsNondecreasing(e.timestamp, entries[1..])
  }

  /** When the timestamps never decrease and the clock is past zero, the
      waits add up to exactly the span the recording covers: from the
      entry already played to the last well-formed one. */
  lemma {:induction false} SleepsSpanRecording(last: I64, entries: seq<map<string, Value>>)
    requires 0 < last
    requires StampsNondecreasing(last, entries)
    ensures TotalSleep(Replay(Timing(false, last), entries)) == After(Timing(false, last), entries).last - last
    decreases |entries|
  {
    if entries != [] {
      match ParseEntry(entries[0])
      case None =>
        SleepsSpanRecording(last, entries[1..]);
      case Some(e) =>
        var t := Timing(false, last);
        SleepsSpanRecording(e.timestamp, entries[1..]);
        SumAppend(Step(t, e), Replay(Timing(false, e.timestamp), entries[1..]), SleptMs);
        SumAppend(Wait(t, e.timestamp), Step(t, e)[|Wait(t, e.timestamp)|..], SleptMs);
        assert Step(t, e) == Wait(t, e.timestamp) + Step(t, e)[|Wait(t, e.timestamp)|..];
    }
  }

  // ------------------------------------------------- capture to playback

  /** A record exactly as the recorder sent it has its timestamp inside
      "details", not at the top level, so playback passes over it. */
  lemma SentRecordIsSkipped(c: MacCapture.Captured, epochMs: I64)
    ensures ParseEntry(Encode(MacCapture.SentRecord(c, epochMs)).entries).None?
  {
  }

  /** Lifting a sent record gives a well-formed entry: the record's type,
      its details with the timestamp, and that timestamp. */
  lemma LiftedRecordParses(c: MacCapture.Captured, epochMs: I64)
    ensures ParseEntry(Lift(MacCapture.SentRecord(c, epochMs)))
         == Some(Entry(c.recordType, c.details["timestamp" := IntValue(epochMs)], epochMs))
  {
  }

  /** The round trip of a key record, whatever name its "key" field holds:
      playback reads only "keyCode" and "modifierFlags". */
  lemma NamedKeyRecordReplays(e: MacCapture.Event, name: string, epochMs: I64)
    requires e.eventType == MacCapture.KeyDown || e.eventType == MacCapture.KeyUp
    ensures var c := MacCapture.Captured(MacCapture.KeyRecordType(e.eventType).value, MacCapture.NamedKeyDetails(e, name));
      var entry := ParseEntry(Lift(MacCapture.SentRecord(c, epochMs)));
      && entry.Some? && entry.value.timestamp == epochMs
      && Simulate(entry.value.entryType, entry.value.details)
         == Some(KeyboardEvent(e.keyCode, e.eventType == MacCapture.KeyDown, e.modifierFlags))
  {
    var c := MacCapture.Captured(MacCapture.KeyRecordType(e.eventType).value, MacCapture.NamedKeyDetails(e, name));
    LiftedRecordParses(c, epochMs);
    var d := c.details["timestamp" := IntValue(epochMs)];
    assert LookupInteger(d, "keyCode", 0, UInt16Max) == Some(e.keyCode) by {
      assert d["keyCode"] == IntValue(e.keyCode);
    }
    assert LookupInteger(d, "modifierFlags", 0, UInt64Max) == Some(e.modifierFlags) by {
      assert d["modifierFlags"] == IntValue(e.modifierFlags);
    }
  }

  /** Capturing a key event, then playing the lifted record, posts the same
      key transition with the same modifier flags. */
  lemma KeyRecordReplays(e: MacCapture.Event, epochMs: I64)
    requires e.eventType == MacCapture.KeyDown || e.eventType == MacCapture.KeyUp
    ensures var entry := ParseEntry(Lift(MacCapture.SentRecord(MacCapture.KeyRecord(e).value, epochMs)));
      && entry.Some? && entry.value.timestamp == epochMs
      && Simulate(entry.value.entryType, entry.value.details)
         == Some(KeyboardEvent(e.keyCode, e.eventType == MacCapture.KeyDown, e.modifierFlags))
  {
    NamedKeyRecordReplays(e, MacKeyCodes.KeyStringFromKeyCode(e.keyCode), epochMs);
  }

  /** The event a captured mouse event should become on playback: the same
      kind of event at the global cursor position it was recorded at. */
  function ExpectedMouseInjection(e: MacCapture.Event, cursor: MacCapture.Point): Option<Injection>
  {
    match e.eventType
    case LeftMouseDown => Some(MouseEvent(LeftMouseDown, cursor.x, cursor.y, Left, Some(e.clickCount)))
    case RightMouseDown => Some(MouseEvent(RightMouseDown, cursor.x, cursor.y, Right, Some(e.clickCount)))
    case OtherMouseDown => Some(MouseEvent(OtherMouseDown, cursor.x, cursor.y, Center, Some(e.clickCount)))
    case LeftMouseUp => Some(MouseEvent(LeftMouseUp, cursor.x, cursor.y, Left, None))
    case RightMouseUp => Some(MouseEvent(RightMouseUp, cursor.x, cursor.y, Right, None))
    case OtherMouseUp => Some(MouseEvent(OtherMouseUp, cursor.x, cursor.y, Center, None))
    case MouseMoved => Some(MouseEvent(MouseMoved, cursor.x, cursor.y, Left, None))
    case LeftMouseDragged => Some(MouseEvent(LeftMouseDragged, cursor.x, cursor.y, Left, None))
    case RightMouseDragged => Some(MouseEvent(RightMouseDragged, cursor.x, cursor.y, Right, None))
    case OtherMouseDragged => Some(MouseEvent(OtherMouseDragged, cursor.x, cursor.y, Center, None))
    case ScrollWheel => Some(ScrollEvent(e.scrollingDeltaY, e.scrollingDeltaX))
    case _ => None
  }

  /** The lifted record of a captured mouse event, with its details. */
  lemma LiftedMouseRecord(e: MacCapture.Event, cursor: MacCapture.Point, epochMs: I64)
    requires MacCapture.IsMouseRecordType(e.eventType)
    ensures var c := MacCapture.MouseRecord(e, cursor).value;
      var d := c.details["timestamp" := IntValue(epochMs)];
      && ParseEntry(Lift(MacCapture.SentRecord(c, epochMs))) == Some(Entry(c.recordType, d, epochMs))
      && Coordinate(d, "x_global", "x") == cursor.x
      && Coordinate(d, "y_global", "y") == cursor.y
  {
    var c := MacCapture.MouseRecord(e, cursor).value;
    LiftedRecordParses(c, epochMs);
    MacCapture.MouseRecordBase(e, cursor);
    GlobalCoordinates(c.details["timestamp" := IntValue(epochMs)], cursor);
  }

  /** Details that carry the cursor as "x_global" and "y_global" position a
      posted mouse event there. */
  lemma GlobalCoordinates(d: map<string, Value>, cursor: MacCapture.Point)
    requires "x_global" in d && d["x_global"] == IntValue(cursor.x)
    requires "y_global" in d && d["y_global"] == IntValue(cursor.y)
    ensures Coordinate(d, "x_global", "x") == cursor.x
    ensures Coordinate(d, "y_global", "y") == cursor.y
  {
  }

  /** A press or release entry naming `name` as its button posts that
      button's event. */
  lemma ClickSimulates(entryType: string, d: map<string, Value>, name: string, clicks: Option<I64>,
                       cursor: MacCapture.Point)
    requires entryType == "mouseDown" || entryType == "mouseUp"
    requires LookupString(d, "button") == Some(name)
    requires LookupInteger(d, "clickCount", Int64Min, Int64Max) == if clicks.Some? then Some(clicks.value as int) else None
    requires Coordinate(d, "x_global", "x") == cursor.x && Coordinate(d, "y_global", "y") == cursor.y
    ensures var button := ClickButton(Some(name));
      Simulate(entryType, d) == Some(MouseEvent(ClickType(entryType == "mouseDown", button), cursor.x, cursor.y, button, clicks))
  {
  }

  /** A motion entry posts a move, or a drag of the button it names. */
  lemma MotionSimulates(d: map<string, Value>, dragged: Option<string>, cursor: MacCapture.Point)
    requires LookupString(d, "dragged_button") == dragged
    requires Coordinate(d, "x_global", "x") == cursor.x && Coordinate(d, "y_global", "y") == cursor.y
    ensures Simulate("mouseMove", d) == Some(MouseEvent(MotionType(dragged).0, cursor.x, cursor.y, MotionType(dragged).1, None))
  {
  }

  /** The round trip of a button press or release. */
  lemma ClickRecordReplays(e: MacCapture.Event, cursor: MacCapture.Point, epochMs: I64)
    requires MacCapture.IsButtonDown(e.eventType) || MacCapture.IsButtonUp(e.eventType)
    ensures var c := MacCapture.MouseRecord(e, cursor).value;
      Simulate(c.recordType, c.details["timestamp" := IntValue(epochMs)]) == ExpectedMouseInjection(e, cursor)
  {
    var c := MacCapture.MouseRecord(e, cursor).value;
    var d := c.details["timestamp" := IntValue(epochMs)];
    LiftedMouseRecord(e, cursor, epochMs);
    var name := MacCapture.ButtonName(e.eventType);
    if MacCapture.IsButtonDown(e.eventType) {
      MacCapture.MouseDownFields(e, cursor);
      assert LookupInteger(d, "clickCount", Int64Min, Int64Max) == Some(e.clickCount);
      ClickSimulates(c.recordType, d, name, Some(e.clickCount), cursor);
    } else {
      MacCapture.MouseUpFields(e, cursor);
      ClickSimulates(c.recordType, d, name, None, cursor);
    }
  }

  /** The round trip of a move or a drag. */
  lemma MotionRecordReplays(e: MacCapture.Event, cursor: MacCapture.Point, epochMs: I64)
    requires MacCapture.IsMotion(e.eventType)
    ensures var c := MacCapture.MouseRecord(e, cursor).value;
      Simulate(c.recordType, c.details["timestamp" := IntValue(epochMs)]) == ExpectedMouseInjection(e, cursor)
  {
    var c := MacCapture.MouseRecord(e, cursor).value;
    var d := c.details["timestamp" := IntValue(epochMs)];
    LiftedMouseRecord(e, cursor, epochMs);
    MacCapture.MotionFields(e, cursor);
    if e.eventType == MacCapture.MouseMoved {
      MotionSimulates(d, None, cursor);
    } else {
      MotionSimulates(d, Some(MacCapture.DraggedButtonName(e.eventType)), cursor);
    }
  }

  /** The round trip of a scroll. */
  lemma ScrollRecordReplays(e: MacCapture.Event, cursor: MacCapture.Point, epochMs: I64)
    requires e.eventType == MacCapture.ScrollWheel
    ensures var c := MacCapture.MouseRecord(e, cursor).value;
      Simulate(c.recordType, c.details["timestamp" := IntValue(epochMs)]) == ExpectedMouseInjection(e, cursor)
  {
    var c := MacCapture.MouseRecord(e, cursor).value;
    var d := c.details["timestamp" := IntValue(epochMs)];
    MacCapture.ScrollFields(e, cursor);
    assert LookupDouble(d, "deltaY") == Some(e.scrollingDeltaY);
    assert LookupDouble(d, "deltaX") == Some(e.scrollingDeltaX);
  }

  /** Capturing a mouse event, then playing the lifted record, posts the
      event it was recorded from, positioned at the global cursor position
      (not the window position stored in "x"). */
  lemma MouseRecordReplays(e: MacCapture.Event, cursor: MacCapture.Point, epochMs: I64)
    requires MacCapture.IsMouseRecordType(e.eventType)
    ensures var entry := ParseEntry(Lift(MacCapture.SentRecord(MacCapture.MouseRecord(e, cursor).value, epochMs)));
      && entry.Some? && entry.value.timestamp == epochMs
      && Simulate(entry.value.entryType, entry.value.details) == ExpectedMouseInjection(e, cursor)
  {
    LiftedMouseRecord(e, cursor, epochMs);
    if MacCapture.IsMotion(e.eventType) {
      MotionRecordReplays(e, cursor, epochMs);
    } else if e.eventType == MacCapture.ScrollWheel {
      ScrollRecordReplays(e, cursor, epochMs);
    } else {
      ClickRecordReplays(e, cursor, epochMs);
    }
  }
}
