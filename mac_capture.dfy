/** How the macOS handler turns the events its global monitors deliver into
    the `{type, details}` records it sends: which event types produce a
    record, which fields each record carries, and the throttle on motion. */
module MacCapture {
  import opened Values
  import opened MacKeyCodes

  /** The `NSEvent.EventType` cases the handler tells apart; all the others
      are `OtherType`. */
  datatype EventType =
    | KeyDown | KeyUp | FlagsChanged
    | LeftMouseDown | LeftMouseUp
    | RightMouseDown | RightMouseUp
    | OtherMouseDown | OtherMouseUp
    | MouseMoved | LeftMouseDragged | RightMouseDragged | OtherMouseDragged
    | ScrollWheel
    | OtherType

  /** The fields of an `NSEvent` the handler reads. `windowX` is the integer
      part of `locationInWindow.x`; `pressure` and the scrolling deltas are
      floating-point numbers. */
  datatype Event = Event(
    eventType: EventType,
    keyCode: UInt16,
    characters: Option<string>,
    charactersIgnoringModifiers: Option<string>,
    isARepeat: bool,
    modifierFlags: UInt64,
    windowX: I64,
    pressure: Float,
    clickCount: I64,
    scrollingDeltaX: Float,
    scrollingDeltaY: Float,
    hasPreciseScrollingDeltas: bool,
    phase: nat,
    momentumPhase: nat)

  /** A screen position in whole points, as `Int(...)` leaves it. */
  datatype Point = Point(x: I64, y: I64)

  /** A record before the send step adds its `timestamp`. */
  datatype Captured = Captured(recordType: string, details: map<string, Value>)

  /** Bits of `NSEvent.ModifierFlags`, as the powers of two they stand for. */
  const ShiftFlag: int := 0x2_0000
  const ControlFlag: int := 0x4_0000
  const OptionFlag: int := 0x8_0000
  const CommandFlag: int := 0x10_0000

  /** `OptionSet.contains` for a one-bit member `flag` (a power of two): the
      bit of `flags` it stands for is set. */
  predicate HasFlag(flags: int, flag: int)
    requires flag > 0
  {
    (flags / flag) % 2 == 1
  }

  // ---------------------------------------------------------------- keys

  /** The record type of a key event: key-down and key-up events are
      reported; `flagsChanged` and every other type is dropped. */
  function KeyRecordType(t: EventType): (r: Option<string>)
    ensures r.Some? <==> t == KeyDown || t == KeyUp
    ensures r.Some? ==> (r.value == "keyDown" <==> t == KeyDown)
  {
    match t
    case KeyDown => Some("keyDown")
    case KeyUp => Some("keyUp")
    case _ => None
  }

  /** The details of a key record. */
  function KeyDetails(e: Event): (d: map<string, Value>)
    ensures d.Keys == {"keyCode", "key", "characters", "charactersIgnoringModifiers", "isARepeat",
                       "modifierFlags", "is_ctrl_pressed", "is_shift_pressed", "is_alt_pressed", "is_cmd_pressed"}
  {
    NamedKeyDetails(e, KeyStringFromKeyCode(e.keyCode))
  }

  /** The details of a key record whose "key" field is `name`. */
  function NamedKeyDetails(e: Event, name: string): (d: map<string, Value>)
  {
    map[
      "keyCode" := IntValue(e.keyCode),
      "key" := Str(name),
      "characters" := Str(if e.characters.Some? then e.characters.value else ""),
      "charactersIgnoringModifiers" :=
        Str(if e.charactersIgnoringModifiers.Some? then e.charactersIgnoringModifiers.value else ""),
      "isARepeat" := Bool(e.isARepeat),
      "modifierFlags" := IntValue(e.modifierFlags),
      "is_ctrl_pressed" := Bool(HasFlag(e.modifierFlags, ControlFlag)),
      "is_shift_pressed" := Bool(HasFlag(e.modifierFlags, ShiftFlag)),
      "is_alt_pressed" := Bool(HasFlag(e.modifierFlags, OptionFlag)),
      "is_cmd_pressed" := Bool(HasFlag(e.modifierFlags, CommandFlag))
    ]
  }

  /** The record a key event produces, if any. */
  function KeyRecord(e: Event): (r: Option<Captured>)
    ensures r.Some? <==> e.eventType == KeyDown || e.eventType == KeyUp
    ensures r.Some? ==> r.value.details == KeyDetails(e)
  {
    match KeyRecordType(e.eventType)
    case Some(recordType) => Some(Captured(recordType, KeyDetails(e)))
    case None => None
  }

  /** A key record reads back as the key code it was made from, its "key"
      field is that code's name, and its four booleans agree with the
      `modifierFlags` number carried in the same record. */
  lemma KeyDetailsDecode(e: Event)
    ensures LookupInteger(KeyDetails(e), "keyCode", 0, UInt16Max) == Some(e.keyCode)
    ensures LookupString(KeyDetails(e), "key") == Some(KeyStringFromKeyCode(e.keyCode))
    ensures LookupInteger(KeyDetails(e), "modifierFlags", 0, UInt64Max) == Some(e.modifierFlags)
    ensures var flags := KeyDetails(e)["modifierFlags"].i;
      && KeyDetails(e)["is_ctrl_pressed"] == Bool(HasFlag(flags, ControlFlag))
      && KeyDetails(e)["is_shift_pressed"] == Bool(HasFlag(flags, ShiftFlag))
      && KeyDetails(e)["is_alt_pressed"] == Bool(HasFlag(flags, OptionFlag))
      && KeyDetails(e)["is_cmd_pressed"] == Bool(HasFlag(flags, CommandFlag))
  {
  }

  /** Two key records with the same "key" name came from the same key code:
      the name alone identifies the key. */
  lemma KeyNameIdentifiesKeyCode(e1: Event, e2: Event)
    requires KeyDetails(e1)["key"] == KeyDetails(e2)["key"]
    ensures KeyDetails(e1)["keyCode"] == KeyDetails(e2)["keyCode"]
  {
    KeyCodeAndName(e1);
    KeyCodeAndName(e2);
    KeyStringInjective(e1.keyCode, e2.keyCode);
  }

  lemma KeyCodeAndName(e: Event)
    ensures KeyDetails(e)["keyCode"] == IntValue(e.keyCode)
    ensures KeyDetails(e)["key"] == Str(KeyStringFromKeyCode(e.keyCode))
  {
    NamedKeyCodeAndName(e, KeyStringFromKeyCode(e.keyCode));
  }

  lemma NamedKeyCodeAndName(e: Event, name: string)
    ensures NamedKeyDetails(e, name)["keyCode"] == IntValue(e.keyCode)
    ensures NamedKeyDetails(e, name)["key"] == Str(name)
  {
  }

  // --------------------------------------------------------------- mouse

  /** Motion events: the ones the throttle applies to. */
  predicate IsMotion(t: EventType)
  {
    t == MouseMoved || t == LeftMouseDragged || t == RightMouseDragged || t == OtherMouseDragged
  }

  predicate IsButtonDown(t: EventType)
  {
    t == LeftMouseDown || t == RightMouseDown || t == OtherMouseDown
  }

  predicate IsButtonUp(t: EventType)
  {
    t == LeftMouseUp || t == RightMouseUp || t == OtherMouseUp
  }

  /** The mouse event types that produce a record. */
  predicate IsMouseRecordType(t: EventType)
  {
    IsButtonDown(t) || IsButtonUp(t) || IsMotion(t) || t == ScrollWheel
  }

  /** The throttle interval, 0.016 s, in milliseconds. */
  const ThrottleIntervalMs: int := 16

  /** A motion event at `now` passes when at least the interval has elapsed
      since the last motion event that passed. */
  predicate PassesThrottle(now: int, lastMotion: int)
  {
    !(now - lastMotion < ThrottleIntervalMs)
  }

  /** The name a button event's record gives its button. */
  function ButtonName(t: EventType): string
  {
    match t
    case LeftMouseDown | LeftMouseUp => "left"
    case RightMouseDown | RightMouseUp => "right"
    case _ => "middle"
  }

  /** The name a drag's record gives the dragging button. */
  function DraggedButtonName(t: EventType): string
  {
    match t
    case LeftMouseDragged => "left"
    case RightMouseDragged => "right"
    case _ => "other"
  }

  /** Fields every mouse record carries. "x" is the event's position in the
      window, while "y" is the current global cursor position's y. */
  function MouseBaseDetails(e: Event, cursor: Point): map<string, Value>
  {
    map[
      "x" := IntValue(e.windowX),
      "y" := IntValue(cursor.y),
      "modifierFlags" := IntValue(e.modifierFlags),
      "pressure" := Double(e.pressure),
      "x_global" := IntValue(cursor.x),
      "y_global" := IntValue(cursor.y)
    ]
  }

  /** The record a mouse event produces, if any, given the global cursor
      position at the time it is handled. */
  function MouseRecord(e: Event, cursor: Point): (r: Option<Captured>)
    ensures r.Some? <==> IsMouseRecordType(e.eventType)
    ensures IsButtonDown(e.eventType) ==> r.value.recordType == "mouseDown"
    ensures IsButtonUp(e.eventType) ==> r.value.recordType == "mouseUp"
    ensures IsMotion(e.eventType) ==> r.value.recordType == "mouseMove"
    ensures e.eventType == ScrollWheel ==> r.value.recordType == "mouseWheel"
  {
    var base := MouseBaseDetails(e, cursor);
    var t := e.eventType;
    if IsButtonDown(t) then
      Some(Captured("mouseDown", base["button" := Str(ButtonName(t))]["clickCount" := IntValue(e.clickCount)]))
    else if IsButtonUp(t) then
      Some(Captured("mouseUp", base["button" := Str(ButtonName(t))]))
    else if t == MouseMoved then
      Some(Captured("mouseMove", base))
    else if IsMotion(t) then
      Some(Captured("mouseMove", base["dragged_button" := Str(DraggedButtonName(t))]))
    else if t == ScrollWheel then
      Some(Captured("mouseWheel", base
        ["deltaX" := Double(e.scrollingDeltaX)]
        ["deltaY" := Double(e.scrollingDeltaY)]
        ["hasPreciseScrollingDeltas" := Bool(e.hasPreciseScrollingDeltas)]
        ["phase" := IntValue(e.phase)]
        ["momentumPhase" := IntValue(e.momentumPhase)]))
    else
      None
  }

  // ---------------------------------------------------------------- send

  /** What the send step delivers for a record: its details gain a
      `timestamp`, the wall-clock time in milliseconds since 1970. */
  function SentRecord(c: Captured, epochMs: I64): (m: Message)
    ensures m.EventMessage? && m.recordType == c.recordType
    ensures m.details.Keys == c.details.Keys + {"timestamp"}
    ensures m.details["timestamp"] == IntValue(epochMs)
  {
    EventMessage(c.recordType, c.details["timestamp" := IntValue(epochMs)])
  }

  /** Every mouse record carries the base fields, with "y" equal to
      "y_global", and no "timestamp" before it is sent. */
  lemma MouseRecordBase(e: Event, cursor: Point)
    requires IsMouseRecordType(e.eventType)
    ensures var d := MouseRecord(e, cursor).value.details;
      && MouseBaseDetails(e, cursor).Keys <= d.Keys
      && d["y"] == d["y_global"] == IntValue(cursor.y)
      && d["x_global"] == IntValue(cursor.x)
      && "timestamp" !in d
  {
  }

  /** A press carries "button" and "clickCount"; the other button is
      "middle". */
  lemma MouseDownFields(e: Event, cursor: Point)
    requires IsButtonDown(e.eventType)
    ensures var d := MouseRecord(e, cursor).value.details;
      && "button" in d && d["button"] == Str(ButtonName(e.eventType))
      && "clickCount" in d && d["clickCount"] == IntValue(e.clickCount)
      && (e.eventType == OtherMouseDown ==> d["button"] == Str("middle"))
  {
  }

  /** A release carries "button" but no "clickCount"; the other button is
      "middle". */
  lemma MouseUpFields(e: Event, cursor: Point)
    requires IsButtonUp(e.eventType)
    ensures var d := MouseRecord(e, cursor).value.details;
      && "button" in d && d["button"] == Str(ButtonName(e.eventType))
      && "clickCount" !in d
      && (e.eventType == OtherMouseUp ==> d["button"] == Str("middle"))
  {
  }

  /** A motion record has no "button"; a plain move has no
      "dragged_button", a drag names its button, "other" for the other one. */
  lemma MotionFields(e: Event, cursor: Point)
    requires IsMotion(e.eventType)
    ensures var d := MouseRecord(e, cursor).value.details;
      && "button" !in d
      && (e.eventType == MouseMoved <==> "dragged_button" !in d)
      && (e.eventType != MouseMoved ==> d["dragged_button"] == Str(DraggedButtonName(e.eventType)))
      && (e.eventType == OtherMouseDragged ==> d["dragged_button"] == Str("other"))
  {
  }

  /** A scroll record carries both deltas. */
  lemma ScrollFields(e: Event, cursor: Point)
    requires e.eventType == ScrollWheel
    ensures var d := MouseRecord(e, cursor).value.details;
      && "deltaX" in d && d["deltaX"] == Double(e.scrollingDeltaX)
      && "deltaY" in d && d["deltaY"] == Double(e.scrollingDeltaY)
  {
  }
}
