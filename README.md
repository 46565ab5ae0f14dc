# Input-event record and replay, modelled in Dafny

The repository records the user's keyboard and mouse input and plays it back
later. It does this three times:

- **macOS handler** (`NativeEventHandler.swift`). It installs global event
  monitors and turns each key and mouse event into a `{type, details}`
  record for its Flutter consumer. Mouse motion is throttled to one event per
  16 ms. Playback replays records as CoreGraphics events, waiting the
  difference of their timestamps between them.
- **Windows handler** (`native_event_handler.cpp`). It does the same with two
  low-level hooks. Playback computes its sleeps on 32-bit tick values and
  replays records through `SendInput`. The replay is defined for two tick
  rules: the handler's reduction by 0xFFFFFFFF, which its playback loop
  uses, and the lower 32 bits its comment describes (see "## Findings").
- **Python prototype** (`event_recorder.py`). It records through pynput
  listener callbacks into a list of dictionaries, stops on ESC, and replays
  the list with controllers.

The model keeps each file's own form:

- Pure parts are datatypes, functions and lemmas. These are the key-name
  tables, record construction, entry parsing and input building, and the
  Python string parsers.
- Stateful parts are classes whose methods change fields. The handlers'
  start, stop, callbacks and playback loops are methods with `modifies`
  clauses and loop invariants, proved against the functions above.
- The operating system enters as parameters and logs:
  - whether the process is trusted for accessibility;
  - what each monitor or hook installation returns;
  - clock and tick readings, key states and the result of the next hook;
  - the lists of monitor and hook calls, of messages sent to the consumer,
    and of sleeps and events posted by playback.

Modules:

| module | file | models |
|---|---|---|
| `Values` | values.dfy | channel values, `as?` / `holds_alternative` lookups, the `{type, details}` message |
| `Text` | text.dfy | decimal rendering of integers (for the `VK(<n>)` fallback names) |
| `MacKeyCodes` | mac_keycodes.dfy | `keyStringFromKeyCode` |
| `MacCapture` | mac_capture.dfy | key and mouse records, throttle predicate, send step |
| `MacPlayback` | mac_playback.dfy | entry parsing, waits, `simulateEvent` as a function, replay |
| `MacHandler` | mac_handler.dfy | the `NativeEventHandler` class |
| `WinKeyCodes` | win_keycodes.dfy | `VKCodeToString` |
| `WinHooks` | win_hooks.dfy | records built by the two hook procedures |
| `WinPlayback` | win_playback.dfy | entry parsing, tick arithmetic, `INPUT` building, replay |
| `WinHandler` | win_handler.dfy | the `NativeEventHandler` class |
| `PyRecorder` | py_recorder.dfy | delay clock, callbacks, ESC, reset, display and save copies |
| `PyPlayback` | py_playback.dfy | `parse_key`, `parse_button`, `playback_events` |

Three facts of the source shape the round-trip lemmas:

1. Both native handlers store the capture timestamp inside `details`, but
   their playback reads `timestamp` at the top level of the entry. A record
   exactly as sent is therefore skipped by playback (`SentRecordIsSkipped`).
   The round-trip lemmas replay the record with its timestamp copied to the
   top level (`Values.Lift`). On Windows they also assume that this
   timestamp arrives as a 64-bit integer, as Dart's milliseconds since 1970
   always do; the channel would re-encode a value below 2^31 as 32-bit, and
   the handler's `int64_t` test would then reject the entry.
2. On macOS, "x" is the window position while "y", "x_global" and "y_global"
   come from the global cursor. Playback prefers the global fields, so a
   replayed mouse event lands at the global cursor position.
3. The Python recorder stores `key.char` for a key with no character, which
   is `None`. Playing that record back raises `AttributeError` in
   `parse_key`.

## Model

| member | source | states |
|---|---|---|
| Values.LookupInteger | macos/Runner/NativeEventHandler.swift:378-388 | `dict[key] as? IntN` converts by value: an integer or a whole-number double succeeds exactly when it fits the range, and yields that number |
| Values.LookupInt32 | windows/native_event_handler.cpp:277-279 | `find` plus `holds_alternative<int32_t>` succeeds exactly for the 32-bit alternative |
| Values.LookupString | windows/native_event_handler.cpp:308-310 | a string lookup succeeds exactly when the key holds a string |
| Values.LookupDouble | macos/Runner/NativeEventHandler.swift:445-447 | `as? Double` succeeds for a double, for any 32-bit integer, and for a 64-bit integer a double holds exactly; an integer becomes the whole-number double of the same value |
| Values.ExactInDoubleExamples | macos/Runner/NativeEventHandler.swift:445-447 | every 32-bit integer converts to `Double`; past 2^53 some integers do (2^54) and some do not (2^53 + 1) |
| Values.Encode | windows/native_event_handler.cpp:209-216 | a message travels as a map with exactly "type" and "details"; an event keeps its type and details |
| Values.Lift | macos/Runner/NativeEventHandler.swift:347-349 | the lifted record has exactly type, details and a top-level timestamp, and agrees with the sent record elsewhere |
| Text.IntToDecimal | windows/native_event_handler.cpp:136-138 | the text denotes the integer: its decimal value is the input, with a '-' exactly for negatives and digits after it |
| Text.NatToDecimal | macos/Runner/NativeEventHandler.swift:92 | the digits denote the number, with no leading zero except for 0 itself |
| Text.IntToDecimalInjective | windows/native_event_handler.cpp:136-138 | distinct integers render differently |
| Text.WrappedDecimalInjective | macos/Runner/NativeEventHandler.swift:92 | two fallback names `VK(<n>)` are equal only for equal numbers |
| MacKeyCodes.TableName | macos/Runner/NativeEventHandler.swift:9-91 | the table names exactly codes 0-62 except 10 and 52, plus the listed F-key and arrow codes |
| MacKeyCodes.KeyStringFromKeyCode | macos/Runner/NativeEventHandler.swift:9-93 | total; a listed code gets its table name, any other (including 10 and 52) `"VK(" + decimal + ")"` |
| MacKeyCodes.NamedKeyFingerprint | macos/Runner/NativeEventHandler.swift:10-91 | every table name is non-empty, does not start with `VK(`, and determines its code |
| MacKeyCodes.FallbackNameIffUnnamed | macos/Runner/NativeEventHandler.swift:9-93 | a name starts with `VK(` exactly when the code is not in the table |
| MacKeyCodes.KeyStringInjective | macos/Runner/NativeEventHandler.swift:9-93 | distinct key codes never share a name |
| MacCapture.KeyRecordType | macos/Runner/NativeEventHandler.swift:219-255 | only keyDown and keyUp events produce a record, "keyDown" exactly for keyDown; flagsChanged produces none |
| MacCapture.KeyDetails | macos/Runner/NativeEventHandler.swift:257-268 | a key record carries exactly the ten listed fields |
| MacCapture.KeyRecord | macos/Runner/NativeEventHandler.swift:216-269 | a record exists exactly for key-down and key-up, with the key details |
| MacCapture.KeyDetailsDecode | macos/Runner/NativeEventHandler.swift:257-267 | the record reads back the key code, its name and the flags; each `is_*_pressed` is the membership of its flag in the carried `modifierFlags` |
| MacCapture.KeyNameIdentifiesKeyCode | macos/Runner/NativeEventHandler.swift:258-259 | two key records with the same "key" have the same "keyCode" |
| MacCapture.MouseRecord | macos/Runner/NativeEventHandler.swift:302-322 | a record exists exactly for button, motion and scroll events: presses "mouseDown", releases "mouseUp", moves and drags "mouseMove", scrolls "mouseWheel" |
| MacCapture.SentRecord | macos/Runner/NativeEventHandler.swift:129-139 | the sent record keeps the type and details and adds a "timestamp" in ms since 1970 |
| MacCapture.MouseRecordBase | macos/Runner/NativeEventHandler.swift:284-299 | every mouse record carries the base fields; "y" is the global cursor y, like "y_global"; no timestamp before sending |
| MacCapture.MouseDownFields | macos/Runner/NativeEventHandler.swift:302-308 | a press carries its button and "clickCount"; the other button is "middle" |
| MacCapture.MouseUpFields | macos/Runner/NativeEventHandler.swift:302-308 | a release carries its button and no "clickCount"; the other button is "middle" |
| MacCapture.MotionFields | macos/Runner/NativeEventHandler.swift:309-312 | motion has no button; "dragged_button" is absent exactly for a plain move; the other-button drag says "other" |
| MacCapture.ScrollFields | macos/Runner/NativeEventHandler.swift:313-316 | a scroll record carries both deltas |
| MacPlayback.Coordinate | macos/Runner/NativeEventHandler.swift:378-379 | coordinates prefer the global field when it converts to `Int`, then the window field, then 0 |
| MacPlayback.ClickButton | macos/Runner/NativeEventHandler.swift:396-400 | "right" and "middle" are recognised; anything else is the left button |
| MacPlayback.MotionType | macos/Runner/NativeEventHandler.swift:430-437 | a plain move exactly when "dragged_button" is none of left, right, other |
| MacPlayback.Simulate | macos/Runner/NativeEventHandler.swift:386-460 | nothing is posted exactly for an unknown type, a key entry whose key code does not convert to `UInt16`, or a wheel entry whose deltaY does not convert to `Double`; key events carry the recorded code and direction; mouse events sit at `Coordinate` |
| MacPlayback.IntegerWheelDeltaScrolls | macos/Runner/NativeEventHandler.swift:444-456 | a wheel entry whose deltaY is an integer still scrolls, by that whole number |
| MacPlayback.WholeDoubleCoordinate | macos/Runner/NativeEventHandler.swift:378-379 | a whole-number double x_global positions the event |
| MacPlayback.ParseEntry | macos/Runner/NativeEventHandler.swift:347-352 | an entry is used exactly when it has a string type, a map details and a top-level timestamp that converts to `Int64` |
| MacPlayback.Wait | macos/Runner/NativeEventHandler.swift:354-359 | a wait happens exactly when the entry is not the first, the last stamp is non-zero and the difference is positive, and it lasts that difference |
| MacPlayback.ReplayAppend | macos/Runner/NativeEventHandler.swift:346-365 | playing a concatenation is playing the parts in turn, the timing state carried over |
| MacPlayback.MalformedEntryIgnored | macos/Runner/NativeEventHandler.swift:347-352 | a malformed entry anywhere changes neither the waits nor the posted events |
| MacPlayback.ReplayPostsInOrder | macos/Runner/NativeEventHandler.swift:346-365 | the posted events are exactly those of the well-formed entries, in list order |
| MacPlayback.SleepsSpanRecording | macos/Runner/NativeEventHandler.swift:354-360 | with non-decreasing stamps after a non-zero one, the waits add up to the span of the recording |
| MacPlayback.SentRecordIsSkipped | macos/Runner/NativeEventHandler.swift:347-352 | a record exactly as sent (timestamp inside details) is skipped by playback |
| MacPlayback.LiftedRecordParses | macos/Runner/NativeEventHandler.swift:347-349 | a lifted record parses to its type, its details and its timestamp |
| MacPlayback.NamedKeyRecordReplays | macos/Runner/NativeEventHandler.swift:387-393 | a key record replays the same key code, direction and modifier flags, whatever its "key" name |
| MacPlayback.KeyRecordReplays | macos/Runner/NativeEventHandler.swift:387-393 | a captured key event replays as the same key transition with the same flags |
| MacPlayback.LiftedMouseRecord | macos/Runner/NativeEventHandler.swift:378-380 | a lifted mouse record parses and its coordinates are the global cursor position |
| MacPlayback.GlobalCoordinates | macos/Runner/NativeEventHandler.swift:378-379 | integer global fields decide the position |
| MacPlayback.ClickSimulates | macos/Runner/NativeEventHandler.swift:395-425 | a press or release posts its button's event with the recorded click count |
| MacPlayback.MotionSimulates | macos/Runner/NativeEventHandler.swift:428-441 | a motion entry posts a move, or a drag of the named button |
| MacPlayback.ClickRecordReplays | macos/Runner/NativeEventHandler.swift:395-425 | a captured click replays as the same button event at the global cursor, with its click count on presses |
| MacPlayback.MotionRecordReplays | macos/Runner/NativeEventHandler.swift:428-441 | a captured move or drag replays as the same move or drag |
| MacPlayback.ScrollRecordReplays | macos/Runner/NativeEventHandler.swift:444-456 | a captured scroll replays with wheel 1 the y delta and wheel 2 the x delta |
| MacPlayback.MouseRecordReplays | macos/Runner/NativeEventHandler.swift:378-456 | every captured mouse event replays as the event it was recorded from |
| MacHandler.NativeEventHandler.constructor | macos/Runner/NativeEventHandler.swift:96-112 | a new handler is not recording, holds no monitor and has a zero throttle clock |
| MacHandler.NativeEventHandler.Notify | macos/Runner/NativeEventHandler.swift:192-194 | a status reaches the consumer exactly when one is listening |
| MacHandler.NativeEventHandler.SendEventToFlutter | macos/Runner/NativeEventHandler.swift:129-140 | a record is sent, stamped, only with a sink and while recording |
| MacHandler.NativeEventHandler.StartRecording | macos/Runner/NativeEventHandler.swift:143-195 | no-op when recording; untrusted: only an error status; otherwise recording with the five monitors installed and one started status |
| MacHandler.NativeEventHandler.StopRecording | macos/Runner/NativeEventHandler.swift:197-213 | no-op when not recording; otherwise recording off, each held monitor removed in order, all nil, one stopped status |
| MacHandler.NativeEventHandler.HandleKeyEvent | macos/Runner/NativeEventHandler.swift:216-270 | a key-down or key-up record is sent while recording; nothing else is |
| MacHandler.NativeEventHandler.HandleMouseEvent | macos/Runner/NativeEventHandler.swift:272-324 | motion is dropped when less than 16 ms after the last passing motion; only passing motion moves the clock; clicks and scrolls are never throttled |
| MacHandler.NativeEventHandler.SimulateEvent | macos/Runner/NativeEventHandler.swift:372-462 | posts exactly the event `Simulate` gives, if any |
| MacHandler.NativeEventHandler.PlayEvents | macos/Runner/NativeEventHandler.swift:327-370 | no-op while recording; untrusted: only an error status; otherwise the loop performs `Replay` from the start state, then one finished status |
| MacHandler.StartIsIdempotent | macos/Runner/NativeEventHandler.swift:143-144 | a second start changes nothing |
| MacHandler.StartThenStop | macos/Runner/NativeEventHandler.swift:143-213 | start then stop removes every installed monitor, keyboard first, and sends the two statuses |
| WinKeyCodes.VKCodeToString | windows/native_event_handler.cpp:104-140 | digits and letters are their own character; each Shift, Ctrl and Alt code collapses to one name; the fallback `VK(n)` exactly for unnamed codes |
| WinKeyCodes.NamedCodeFingerprint | windows/native_event_handler.cpp:106-133 | each named code's name determines it up to the modifier family |
| WinKeyCodes.SameNameIffSameFamily | windows/native_event_handler.cpp:104-140 | two codes share a name exactly when they are the same key up to left/right Shift, Ctrl and Alt |
| WinHooks.ToInt32 | windows/native_event_handler.cpp:156-158 | `(int)` of a `DWORD` wraps above 2^31 - 1 |
| WinHooks.ToInt64 | windows/native_event_handler.cpp:159 | `(int64_t)` of the tick count wraps above 2^63 - 1 |
| WinHooks.KeyRecordType | windows/native_event_handler.cpp:149-153 | key-down and sys-key-down give "keyDown", key-up and sys-key-up "keyUp", nothing else a record |
| WinHooks.KeyDetails | windows/native_event_handler.cpp:155-165 | a key record carries exactly the seven listed fields |
| WinHooks.KeyRecord | windows/native_event_handler.cpp:143-168 | a record exists exactly for the four key messages |
| WinHooks.NamedKeyDetailsDecode | windows/native_event_handler.cpp:156-165 | the record reads back the key code, name and tick, and each modifier as the high bit of its key state |
| WinHooks.KeyNameMatchesCode | windows/native_event_handler.cpp:156-157 | "key" is the name of "vk_code" |
| WinHooks.WheelDelta | windows/native_event_handler.cpp:189 | the wheel delta is the signed high word of the mouse data |
| WinHooks.ButtonOf | windows/native_event_handler.cpp:180-185 | exactly the six button messages name a button |
| WinHooks.MouseRecord | windows/native_event_handler.cpp:179-201 | a record exists exactly for the eight listed messages |
| WinHooks.MouseRecordFields | windows/native_event_handler.cpp:179-201 | every record has x, y and timestamp; buttons name their button, the wheel carries its delta, a move carries nothing else |
| WinHooks.MouseRecordType | windows/native_event_handler.cpp:179-190 | presses are "mouseDown", releases "mouseUp", the move "mouseMove", the wheel "mouseWheel" |
| WinPlayback.ParseEntry | windows/native_event_handler.cpp:231-243 | an entry is used exactly when it is a map with a string type, a map details and an `int64_t` top-level timestamp |
| WinPlayback.TickOfAsWritten | windows/native_event_handler.cpp:256 | as written, a non-negative timestamp's tick is its remainder by 0xFFFFFFFF |
| WinPlayback.TickOf | windows/native_event_handler.cpp:256 | the tick is congruent to the timestamp modulo 2^32 (its lower 32 bits) |
| WinPlayback.WrapDelay | windows/native_event_handler.cpp:259-264 | both branches give the elapsed ticks modulo 2^32, never negative |
| WinPlayback.DelayIsElapsed | windows/native_event_handler.cpp:256-264 | with lower-32-bit ticks, the delay between stamps less than 2^32 ms apart is their difference, across a wrap too |
| WinPlayback.AsWrittenDelayWithinBlock | windows/native_event_handler.cpp:256-264 | as written, the delay is right inside one block of 0xFFFFFFFF ms |
| WinPlayback.AsWrittenDelayOvershoots | windows/native_event_handler.cpp:256-264 | as written, 4294967294 to 4294967295 sleeps 2 ms; with lower-32-bit ticks, 1 ms |
| WinPlayback.ButtonFlag | windows/native_event_handler.cpp:311-317 | an unknown button string adds no flag |
| WinPlayback.PositionOf | windows/native_event_handler.cpp:292-296 | a position exists exactly when x and y are both 32-bit integers |
| WinPlayback.BuildInput | windows/native_event_handler.cpp:273-349 | an entry is skipped exactly for an unknown type, a key without int32 vk_code, a non-wheel mouse entry without x/y, a click without string button, a wheel without int32 delta |
| WinPlayback.KeyInputFields | windows/native_event_handler.cpp:275-284 | a key entry sends its vk_code cut to 16 bits, with the key-up flag exactly for "keyUp" |
| WinPlayback.WheelInputFields | windows/native_event_handler.cpp:323-327 | wheel flags are exactly `MOUSEEVENTF_WHEEL`; the mouse data is the delta as a `DWORD` |
| WinPlayback.ClickInputFields | windows/native_event_handler.cpp:307-322 | a click is placed at its position with move, absolute and its button's flag; an unknown button gets no button flag |
| WinPlayback.NonWheelMouseInputIsPlaced | windows/native_event_handler.cpp:337-342 | every non-wheel mouse input is placed, so the later x/y check never skips |
| WinPlayback.Wait | windows/native_event_handler.cpp:258-268 | a sleep happens exactly when not first, the last tick is non-zero and the ticks differ; it lasts the wrapped delay |
| WinPlayback.ReplayAppend | windows/native_event_handler.cpp:230-355 | playing a concatenation is playing the parts in turn, under either tick rule |
| WinPlayback.MalformedEntryIgnored | windows/native_event_handler.cpp:231-243 | an entry that does not parse changes neither sleeps, inputs nor the timing state left behind |
| WinPlayback.InvalidEntryStillTimed | windows/native_event_handler.cpp:269-283 | an entry that parses but fails validation still sleeps and moves the last tick on, under the tick as written and the lower-32-bit tick alike |
| WinPlayback.ReplaySendsInOrder | windows/native_event_handler.cpp:230-355 | the inputs sent are exactly those of the valid entries, in list order, under either tick rule |
| WinPlayback.SleepsSpanRecording | windows/native_event_handler.cpp:256-270 | corrected: with lower-32-bit ticks, the sleeps add up to the recording's span, even across counter wraps |
| WinPlayback.SleepsSpanBlockAsWritten | windows/native_event_handler.cpp:256-270 | as written, the sleeps add up to the span of a recording that stays inside one block of 0xFFFFFFFF ms and starts at a non-zero tick |
| WinPlayback.AsWrittenReplayMisTimes | windows/native_event_handler.cpp:256-270 | as written, stamps 4294967294, 4294967295, 4294967300 replay with one 2 ms sleep (6 ms recorded); with lower-32-bit ticks, 1 ms and 5 ms |
| WinPlayback.SentRecordIsSkipped | windows/native_event_handler.cpp:236-240 | a record exactly as a hook sent it has no top-level timestamp and is skipped |
| WinPlayback.NamedKeyRecordReplays | windows/native_event_handler.cpp:275-284 | a lifted key record replays its vk_code cut to 16 bits and its direction, whatever its name |
| WinPlayback.KeyRecordReplays | windows/native_event_handler.cpp:275-284 | a captured key message replays as the same key transition |
| WinPlayback.MouseRecordReplays | windows/native_event_handler.cpp:290-332 | a captured mouse message replays as the same button action, move or wheel delta at the captured position |
| WinPlayback.WheelDeltaReplays | windows/native_event_handler.cpp:326 | the replayed mouse data read as a signed 32-bit number is the captured delta |
| WinHandler.NativeEventHandler.constructor | windows/native_event_handler.cpp:14-33 | a new handler is not recording and holds no hook |
| WinHandler.NativeEventHandler.SendEventToFlutter | windows/native_event_handler.cpp:209-216 | a message is sent exactly when a sink exists, recording or not |
| WinHandler.NativeEventHandler.StartRecording | windows/native_event_handler.cpp:40-81 | no-op when recording; otherwise recording exactly when both hooks installed, else a half-installed hook is removed, both null, and an error status is sent |
| WinHandler.NativeEventHandler.StopRecording | windows/native_event_handler.cpp:83-101 | no-op when not recording; otherwise both hooks removed, keyboard first, null, recording off, one status |
| WinHandler.NativeEventHandler.Destroy | windows/native_event_handler.cpp:35-38 | the destructor always ends with no hook and recording off; while recording it unhooks keyboard then mouse and sends one "Recording stopped." status, otherwise it changes nothing; the playback log is never touched |
| WinHandler.NativeEventHandler.KeyboardProc | windows/native_event_handler.cpp:143-171 | a record only under `HC_ACTION` while recording with a sink; always chains to the next hook and returns its result |
| WinHandler.NativeEventHandler.MouseProc | windows/native_event_handler.cpp:173-207 | the same gate for the mouse messages, no throttle, always chains |
| WinHandler.NativeEventHandler.SleepBefore | windows/native_event_handler.cpp:258-268 | the loop's delay branches perform exactly `Wait` |
| WinHandler.NativeEventHandler.SendEntryInput | windows/native_event_handler.cpp:273-354 | sends exactly the input `BuildInput` gives, if any |
| WinHandler.NativeEventHandler.PlayEvents | windows/native_event_handler.cpp:219-357 | no-op while recording; otherwise the loop performs `Replay` with the tick as written (`% 0xFFFFFFFF`) from the start state, with no status at the end |
| WinHandler.StartIsIdempotent | windows/native_event_handler.cpp:40-41 | a second start changes nothing |
| WinHandler.HalfInstalledStartRollsBack | windows/native_event_handler.cpp:67-80 | a start where only the keyboard hook installs removes it again and reports the error |
| WinHandler.StartThenDestroy | windows/native_event_handler.cpp:35-101 | start then destroy removes both hooks, keyboard first |
| PyRecorder.PyStr | event_recorder.py:139-143 | `str()` of a string is the string itself |
| PyRecorder.TimelineExtends | event_recorder.py:14-25 | each appended delay keeps the first delay 0 and the delays summing to last minus first event time |
| PyRecorder.Recorder.constructor | event_recorder.py:7-12 | initially no events, no last time, not recording, no listeners |
| PyRecorder.Recorder.GetEventTime | event_recorder.py:14-25 | 0 on the first call after a reset, else the time since the previous call; the current time becomes the previous one |
| PyRecorder.Recorder.OnMove | event_recorder.py:28-33 | while recording, appends a "mouse_move" record with the delay; otherwise nothing changes |
| PyRecorder.Recorder.OnClick | event_recorder.py:35-41 | while recording, appends a press or release record with `str(button)` |
| PyRecorder.Recorder.OnScroll | event_recorder.py:43-48 | while recording, appends a "mouse_scroll" record |
| PyRecorder.Recorder.OnPress | event_recorder.py:51-59 | while recording, appends a "key_press" record with `key.char`, or `str(key)` when the key has no `char` |
| PyRecorder.Recorder.OnRelease | event_recorder.py:61-80 | ESC stops recording and the existing listeners, is not recorded and returns False; other keys are recorded while recording |
| PyRecorder.Recorder.StartRecording | event_recorder.py:87-108 | empties the events, clears the last time, turns recording on, starts both listeners |
| PyRecorder.DisplayDetails | event_recorder.py:137-143 | shown details are all fields but time and timestamp, with a non-string button or key replaced by its `str()` |
| PyRecorder.SaveCopy | event_recorder.py:152-156 | the save copy keeps every field and stringifies only a non-plain button or key |
| PyRecorder.SavedEvents | event_recorder.py:131-157 | nothing is saved for an empty list; otherwise each event's save copy, in order |
| PyRecorder.DisplayDetailsIdempotent | event_recorder.py:137-143 | showing the shown details again changes nothing |
| PyRecorder.SaveCopyIdempotent | event_recorder.py:152-156 | saving a save copy again changes nothing |
| PyRecorder.PlainEventSavedUnchanged | event_recorder.py:153-156 | an event with a plain button and key is saved as it is |
| PyRecorder.RecordsSavedUnchanged | event_recorder.py:150-157 | every record the callbacks make is saved exactly as recorded |
| PyRecorder.CharlessKeyShownAsNone | event_recorder.py:142-143 | a key record with key `None` is shown as "None" but saved as `None` |
| PyPlayback.UpToDot | event_recorder.py:169 | element 1 of `split('.')`: the text up to the next dot |
| PyPlayback.ParseKey | event_recorder.py:166-186 | "Key." prefix first, then one character, then a quoted character, else a `KeyCode` of the whole string |
| PyPlayback.ParseButton | event_recorder.py:189-195 | a button exactly for a "Button." prefix, named by the part up to the next dot |
| PyPlayback.StoredKeyParses | event_recorder.py:166-174 | a stored key parses back to the same key |
| PyPlayback.StoredButtonParses | event_recorder.py:189-195 | a stored button parses back to its name |
| PyPlayback.SleepMs | event_recorder.py:217-224 | `time.sleep` of an int, bool or float; a negative length is a ValueError, anything else a TypeError |
| PyPlayback.Placed | event_recorder.py:234 | setting the position needs x and y, else a KeyError for the first missing one |
| PyPlayback.PlaybackAppend | event_recorder.py:216-251 | playing a concatenation plays the second part only if the first raised nothing |
| PyPlayback.PlaybackEvents | event_recorder.py:197-253 | the loop performs exactly `Playback`: each event in order until one raises |
| PyPlayback.PlayEvent | event_recorder.py:217-251 | one turn of the loop performs exactly `Step`: sleep, read the type, dispatch |
| PyPlayback.PlaceCursor | event_recorder.py:234 | performs exactly `Placed` after the earlier actions |
| PyPlayback.MoveRecordReplays | event_recorder.py:229-230 | a recorded move replays as its sleep and a move to its position |
| PyPlayback.ClickRecordReplays | event_recorder.py:231-240 | a recorded click replays as its sleep, a move and the same button press or release |
| PyPlayback.ScrollRecordReplays | event_recorder.py:241-243 | a recorded scroll replays as its sleep, a move and the same scroll |
| PyPlayback.KeyRecordReplays | event_recorder.py:244-249 | a recorded key event replays as the same key press or release |
| PyPlayback.CharlessKeyRecordFails | event_recorder.py:244-246 | a record whose key is `None` raises AttributeError after its sleep |
| PyPlayback.UnknownTypeOnlyWarns | event_recorder.py:250-251 | an unknown type is slept for, warned about, and playback continues |
| PyPlayback.StepSleepsDelay | event_recorder.py:217-224 | an event that plays without error sleeps exactly its float delay |
| PyPlayback.PlaybackSleepsTotalDelay | event_recorder.py:216-224 | a playback without error sleeps the sum of the recorded delays |
| PyPlayback.RecordingReplaysInTime | event_recorder.py:216-224 | replaying a whole recording sleeps the time from its first event to its last |

## Left out

- OS primitives become parameters and logs. These are monitor and hook installation and removal, `CallNextHookEx`, `CGEvent` creation and posting, `SendInput`, `AXIsProcessTrusted*`, `GetKeyState`, `GetTickCount64`, the clocks, `usleep`/`Sleep`, and pynput listeners and controllers. A failing `CGEvent` constructor or `SendInput` is not modelled.
- Floating-point values other than whole numbers are opaque tokens (scroll deltas, pressure); Python times are whole milliseconds.
- MacPlayback.Simulate: the `Int32(deltaY)` and `Int32(deltaX)` conversions of the scroll deltas are not modelled, nor the trap on an out-of-range value.
- MacPlayback.Wait: the difference of two stamps is checked `Int64` arithmetic in the source and traps when it leaves the `Int64` range, in either direction (last stamp 1, next stamp -2^63); the model subtracts without bound, so for such a pair it waits (or does not) and goes on.
- MacHandler.NativeEventHandler.PlayEvents: `usleep` takes a 32-bit microsecond count, so a gap above 4294967 ms traps in the source; the model sleeps the full gap. Likewise a stamp difference outside the `Int64` range traps in the source (see MacPlayback.Wait), while the model replays the rest and still sends the finished status.
- Values.AsInteger: a boolean, which Swift's `as?` on an `NSNumber` may also convert to 0 or 1, is not converted; neither is `-0.0` told apart from 0.
- MacCapture.PassesThrottle: times are whole milliseconds, so sub-millisecond differences around the 16 ms interval are not modelled.
- WinPlayback.BuildInput: the scaling of x/y to the 0..65535 absolute range through `GetSystemMetrics` is not modelled; the input carries the recorded position.
- WinHooks.MouseRecord: `LONG` coordinates are carried in the channel's 32-bit alternative, since `LONG` is 32 bits on Windows.
- The static `instance_` singleton is left out: the hook procedures always find their handler, so the `instance_ == nullptr` path of `CallNextHookEx(NULL, ...)` is not modelled.
- Flutter channel glue (`onListen`, `onCancel`, method dispatch, window lifecycle) is left out. Whether a consumer is listening is fixed when the handler is created.
- Concurrency is left out: callbacks racing with stop, listener threads, and `join`.
- PyRecorder.Recorder.OnMove, OnClick, OnScroll: the pointer coordinates and scroll amounts pynput passes are taken as whole numbers and stored as Python ints; on macOS pynput reports float coordinates, which the records do not hold.
- PyRecorder.Recorder.StartRecording: the `join` on both listeners and the returned list are not modelled; it stops at the state the reset and the listener start leave.
- PyPlayback.ParseKey: `getattr(keyboard.Key, name)` is assumed to succeed. An unknown name, or the empty name of "Key.", would raise `AttributeError`. The `except` branch is not modelled: `KeyCode.from_char` does not raise.
- PyPlayback.ParseButton: `getattr(mouse.Button, name)` is assumed to succeed. Button members are truthy, so a parsed button is always used.
- PyPlayback.Dispatch: what the controllers do with non-numeric coordinates or scroll amounts is not modelled. The actions carry the values as read.
- PyPlayback.SleepMs: `OverflowError` for huge sleep lengths is not modelled.
- PyRecorder.PyStr: a float is rendered as its whole seconds and up to three millisecond digits, while `repr` keeps only the shortest round-tripping form (at most 17 significant digits, exponent form from 1e16). Values with more than 15 significant digits, such as 1234567890123456.789 s, therefore render differently.
- Printing, logging, the `__main__` block and the JSON file save and load are left out. So is the formatted display line, including the `KeyError` or `TypeError` its `event['time']` formatting can raise.
- The Python recorder rebinds its global list on reset; aliasing of the old list by earlier callers is not modelled.

## Findings

| source | as written | input that shows it | evidently intended | confidence | as-written member | corrected member |
|---|---|---|---|---|---|---|
| windows/native_event_handler.cpp:256-270 | the tick is `timestamp % 0xFFFFFFFF`, but the wrap branch `(0xFFFFFFFF - last) + cur + 1` assumes ticks modulo 2^32; a timestamp on a multiple of 0xFFFFFFFF gets tick 0, and the `last != 0` test then skips the next sleep | timestamps 4294967294, 4294967295, 4294967300: ticks 4294967294, 0, 5; the first step sleeps 2 ms instead of 1 and the second, 5 ms long, not at all | the lower 32 bits, `timestamp % 2^32`, as the source comment says, so the sleeps add up to the recorded time | not executed | WinPlayback.AsWrittenReplayMisTimes | WinPlayback.SleepsSpanRecording |
