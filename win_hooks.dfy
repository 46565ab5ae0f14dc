/** The Windows handler's low-level hook callbacks: which window messages
    produce a record, and which fields each record carries. */
module WinHooks {
  import opened Values
  import WinKeyCodes

  /** A Win32 `DWORD`. */
  type DWord = n: int | 0 <= n <= 0xFFFF_FFFF

  /** A 32-bit signed integer: C++'s `int` and, on Windows, `LONG`. */
  type I32 = n: int | -0x8000_0000 <= n <= 0x7FFF_FFFF

  /** The hook code under which a callback may look at the message. */
  const HcAction: int := 0

  const WmKeyDown: int := 0x100
  const WmKeyUp: int := 0x101
  const WmSysKeyDown: int := 0x104
  const WmSysKeyUp: int := 0x105

  const WmMouseMove: int := 0x200
  const WmLButtonDown: int := 0x201
  const WmLButtonUp: int := 0x202
  const WmRButtonDown: int := 0x204
  const WmRButtonUp: int := 0x205
  const WmMButtonDown: int := 0x207
  const WmMButtonUp: int := 0x208
  const WmMouseWheel: int := 0x20A

  /** `(int)` of a `DWORD`. */
  function ToInt32(n: DWord): (r: I32)
    ensures n <= Int32Max ==> r == n
    ensures n > Int32Max ==> r == n - 0x1_0000_0000
  {
    if n <= Int32Max then n else n - 0x1_0000_0000
  }

  /** `(int64_t)` of the unsigned 64-bit tick count. */
  function ToInt64(n: UInt64): (r: I64)
    ensures n <= Int64Max ==> r == n
    ensures n > Int64Max ==> r == n - 0x1_0000_0000_0000_0000
  {
    if n <= Int64Max then n else n - 0x1_0000_0000_0000_0000
  }

  // ---------------------------------------------------------- keyboard

  /** The `KBDLLHOOKSTRUCT` fields the callback reads. */
  datatype KeyboardInfo = KeyboardInfo(vkCode: DWord, scanCode: DWord)

  /** What `GetKeyState` returned for Control, Shift and Alt, as raw 16-bit
      values. */
  datatype KeyStates = KeyStates(control: bv16, shift: bv16, menu: bv16)

  /** A key is held down when the high-order bit of its state is set. */
  predicate IsDown(state: bv16)
  {
    state & 0x8000 != 0
  }

  /** The record type of a keyboard message: key-down and system-key-down
      are "keyDown", key-up and system-key-up are "keyUp", nothing else is
      recorded. */
  function KeyRecordType(wParam: int): (r: Option<string>)
    ensures r == Some("keyDown") <==> wParam == WmKeyDown || wParam == WmSysKeyDown
    ensures r == Some("keyUp") <==> wParam == WmKeyUp || wParam == WmSysKeyUp
    ensures r.Some? ==> r == Some("keyDown") || r == Some("keyUp")
  {
    if wParam == WmKeyDown || wParam == WmSysKeyDown then Some("keyDown")
    else if wParam == WmKeyUp || wParam == WmSysKeyUp then Some("keyUp")
    else None
  }

  /** The details of a key record whose "key" field is `name`. */
  function NamedKeyDetails(info: KeyboardInfo, name: string, tick: UInt64, states: KeyStates): map<string, Value>
  {
    map[
      "vk_code" := Int32(ToInt32(info.vkCode)),
      "key" := Str(name),
      "scan_code" := Int32(ToInt32(info.scanCode)),
      "timestamp" := Int64(ToInt64(tick)),
      "is_ctrl_pressed" := Bool(IsDown(states.control)),
      "is_shift_pressed" := Bool(IsDown(states.shift)),
      "is_alt_pressed" := Bool(IsDown(states.menu))
    ]
  }

  /** The details of a key record: the key's name is that of its virtual-key
      code taken as an `int`. */
  function KeyDetails(info: KeyboardInfo, tick: UInt64, states: KeyStates): (d: map<string, Value>)
    ensures d.Keys == {"vk_code", "key", "scan_code", "timestamp",
                       "is_ctrl_pressed", "is_shift_pressed", "is_alt_pressed"}
  {
    NamedKeyDetails(info, WinKeyCodes.VKCodeToString(ToInt32(info.vkCode)), tick, states)
  }

  /** The record a keyboard message produces, if any. */
  function KeyRecord(wParam: int, info: KeyboardInfo, tick: UInt64, states: KeyStates): (r: Option<Message>)
    ensures r.Some? <==> KeyRecordType(wParam).Some?
    ensures r.Some? ==> r == Some(EventMessage(KeyRecordType(wParam).value, KeyDetails(info, tick, states)))
  {
    match KeyRecordType(wParam)
    case Some(recordType) => Some(EventMessage(recordType, KeyDetails(info, tick, states)))
    case None => None
  }

  /** A key record's fields read back as what was captured: the key code as
      an `int`, its name, the tick count as an `int64_t`, and each modifier
      as the high bit of its key state. */
  lemma NamedKeyDetailsDecode(info: KeyboardInfo, name: string, tick: UInt64, states: KeyStates)
    ensures var d := NamedKeyDetails(info, name, tick, states);
      && LookupInt32(d, "vk_code") == Some(ToInt32(info.vkCode))
      && LookupString(d, "key") == Some(name)
      && d["timestamp"] == Int64(ToInt64(tick))
      && d["is_ctrl_pressed"] == Bool(states.control & 0x8000 != 0)
      && d["is_shift_pressed"] == Bool(states.shift & 0x8000 != 0)
      && d["is_alt_pressed"] == Bool(states.menu & 0x8000 != 0)
  {
  }

  /** The "key" field of a key record is the name of its "vk_code" field. */
  lemma KeyNameMatchesCode(info: KeyboardInfo, tick: UInt64, states: KeyStates)
    ensures var d := KeyDetails(info, tick, states);
      d["key"] == Str(WinKeyCodes.VKCodeToString(d["vk_code"].i))
  {
    NamedKeyDetailsDecode(info, WinKeyCodes.VKCodeToString(ToInt32(info.vkCode)), tick, states);
  }

  // ------------------------------------------------------------- mouse

  /** The `MSLLHOOKSTRUCT` fields the callback reads. */
  datatype MouseInfo = MouseInfo(x: I32, y: I32, mouseData: DWord)

  /** `GET_WHEEL_DELTA_WPARAM`: the high-order word of the mouse data, as a
      signed 16-bit number. */
  function WheelDelta(mouseData: DWord): (delta: int)
    ensures Int16Min <= delta < 0x8000
    ensures (delta - mouseData / 0x1_0000) % 0x1_0000 == 0
  {
    var high := mouseData / 0x1_0000;
    if high < 0x8000 then high else high - 0x1_0000
  }

  /** The mouse messages that produce a record. */
  predicate IsMouseRecordMessage(wParam: int)
  {
    wParam in {WmLButtonDown, WmLButtonUp, WmRButtonDown, WmRButtonUp, WmMButtonDown, WmMButtonUp,
               WmMouseMove, WmMouseWheel}
  }

  /** The button a button message names. */
  function ButtonOf(wParam: int): (name: Option<string>)
    ensures name.Some? <==> wParam in {WmLButtonDown, WmLButtonUp, WmRButtonDown, WmRButtonUp, WmMButtonDown, WmMButtonUp}
  {
    if wParam == WmLButtonDown || wParam == WmLButtonUp then Some("left")
    else if wParam == WmRButtonDown || wParam == WmRButtonUp then Some("right")
    else if wParam == WmMButtonDown || wParam == WmMButtonUp then Some("middle")
    else None
  }

  /** The fields every mouse record carries: the cursor position and the
      tick count. */
  function MouseBaseDetails(info: MouseInfo, tick: UInt64): map<string, Value>
  {
    map["x" := Int32(info.x), "y" := Int32(info.y), "timestamp" := Int64(ToInt64(tick))]
  }

  /** The record a mouse message produces, if any. */
  function MouseRecord(wParam: int, info: MouseInfo, tick: UInt64): (r: Option<Message>)
    ensures r.Some? <==> IsMouseRecordMessage(wParam)
    ensures r.Some? ==> r.value.EventMessage?
  {
    var base := MouseBaseDetails(info, tick);
    if wParam == WmLButtonDown || wParam == WmRButtonDown || wParam == WmMButtonDown then
      Some(EventMessage("mouseDown", base["button" := Str(ButtonOf(wParam).value)]))
    else if wParam == WmLButtonUp || wParam == WmRButtonUp || wParam == WmMButtonUp then
      Some(EventMessage("mouseUp", base["button" := Str(ButtonOf(wParam).value)]))
    else if wParam == WmMouseMove then
      Some(EventMessage("mouseMove", base))
    else if wParam == WmMouseWheel then
      Some(EventMessage("mouseWheel", base["delta" := Int32(WheelDelta(info.mouseData))]))
    else
      None
  }

  /** Every mouse record carries "x", "y" and "timestamp"; a button
      message's record also names the button, a wheel message's carries the
      wheel delta, and a move carries nothing else. */
  lemma MouseRecordFields(wParam: int, info: MouseInfo, tick: UInt64)
    requires IsMouseRecordMessage(wParam)
    ensures var m := MouseRecord(wParam, info, tick).value;
      && LookupInt32(m.details, "x") == Some(info.x as int)
      && LookupInt32(m.details, "y") == Some(info.y as int)
      && m.details["timestamp"] == Int64(ToInt64(tick))
      && (ButtonOf(wParam).Some? ==> LookupString(m.details, "button") == ButtonOf(wParam))
      && (wParam == WmMouseWheel ==> LookupInt32(m.details, "delta") == Some(WheelDelta(info.mouseData)))
      && (wParam == WmMouseMove ==> m.details.Keys == {"x", "y", "timestamp"})
  {
  }

  /** The record type of a mouse message: presses are "mouseDown", releases
      "mouseUp", the move "mouseMove" and the wheel "mouseWheel". */
  lemma MouseRecordType(wParam: int, info: MouseInfo, tick: UInt64)
    requires IsMouseRecordMessage(wParam)
    ensures var t := MouseRecord(wParam, info, tick).value.recordType;
      && (t == "mouseDown" <==> wParam in {WmLButtonDown, WmRButtonDown, WmMButtonDown})
      && (t == "mouseUp" <==> wParam in {WmLButtonUp, WmRButtonUp, WmMButtonUp})
      && (t == "mouseMove" <==> wParam == WmMouseMove)
      && (t == "mouseWheel" <==> wParam == WmMouseWheel)
  {
  }
}
