/** The Python prototype's recorder: the relative-delay clock, the listener
    callbacks that append event dictionaries while recording, ESC as the
    stop key, the reset at the start of a recording, and the details shown
    and saved for each event.

    The module's globals become the fields of `Recorder`. The clock enters
    as parameters: each callback reads `time.time()` twice, once for the
    delay and once for the "timestamp" field. Times are whole milliseconds;
    a float-valued time is `PFloat(ms)`. */
module PyRecorder {
  import opened Text

  datatype Option<T> = None | Some(value: T)

  /** A Python value as it appears in an event dictionary. `PFloat(ms)` is
      a number of seconds held as a float, `ms / 1000`; `PObject(text)` is
      any other object, `text` being what `str()` gives for it. */
  datatype PyValue =
    | PNone
    | PBool(b: bool)
    | PInt(i: int)
    | PFloat(ms: int)
    | PStr(s: string)
    | PObject(text: string)

  /** An event dictionary. */
  type Event = map<string, PyValue>

  /** The key a keyboard callback receives: a member of the `Key` enum,
      which has no `char` attribute and prints as "Key.<name>", or a
      `KeyCode`, whose `char` may be `None`. */
  datatype KeyArg = SpecialKey(name: string) | CharKey(keyChar: Option<string>)

  /** A listener thread: never created, running, or stopped. */
  datatype Listener = NoListener | Running | Stopped

  // ------------------------------------------------------------- str()

  /** The decimals of a float that holds a whole number of milliseconds,
      as `repr` writes them: one to three digits, no trailing zeros. */
  function FractionText(f: nat): (s: string)
    requires f < 1000
    ensures 1 <= |s| <= 3
  {
    var d1, d2, d3 := f / 100, (f / 10) % 10, f % 10;
    if d3 != 0 then [DigitChar(d1), DigitChar(d2), DigitChar(d3)]
    else if d2 != 0 then [DigitChar(d1), DigitChar(d2)]
    else [DigitChar(d1)]
  }

  /** `str()` of a float holding `ms / 1000` seconds. */
  function FloatText(ms: int): string
  {
    var magnitude := if ms < 0 then -ms else ms;
    (if ms < 0 then "-" else "") + NatToDecimal(magnitude / 1000) + "." + FractionText(magnitude % 1000)
  }

  /** `str()` of a value. */
  function PyStr(v: PyValue): (s: string)
    ensures v.PStr? ==> s == v.s
  {
    match v
    case PNone => "None"
    case PBool(b) => if b then "True" else "False"
    case PInt(i) => IntToDecimal(i)
    case PFloat(ms) => FloatText(ms)
    case PStr(s) => s
    case PObject(text) => text
  }

  /** The "key" field a keyboard callback stores: `key.char` when the key
      has that attribute (possibly `None`), else `str(key)`, which for a
      `Key` member is "Key." and its name. */
  function StoredKey(key: KeyArg): PyValue
  {
    match key
    case SpecialKey(name) => PStr("Key." + name)
    case CharKey(keyChar) => if keyChar.Some? then PStr(keyChar.value) else PNone
  }

  // ----------------------------------------------------------- records

  /** The delay `get_event_time` returns at `now` when the previous event
      was at `last`: 0 for the first event, else the difference. */
  function DelayAt(last: Option<int>, now: int): int
  {
    if last.None? then 0 else now - last.value
  }

  function MoveRecord(x: int, y: int, delay: int, stamp: int): Event
  {
    map["type" := PStr("mouse_move"), "x" := PInt(x), "y" := PInt(y),
        "time" := PFloat(delay), "timestamp" := PFloat(stamp)]
  }

  /** A click record; `button` is the button's name in the `Button` enum,
      stored as `str(button)`. */
  function ClickRecord(x: int, y: int, button: string, pressed: bool, delay: int, stamp: int): Event
  {
    map["type" := PStr(if pressed then "mouse_press" else "mouse_release"), "x" := PInt(x), "y" := PInt(y),
        "button" := PStr("Button." + button), "time" := PFloat(delay), "timestamp" := PFloat(stamp)]
  }

  function ScrollRecord(x: int, y: int, dx: int, dy: int, delay: int, stamp: int): Event
  {
    map["type" := PStr("mouse_scroll"), "x" := PInt(x), "y" := PInt(y), "dx" := PInt(dx), "dy" := PInt(dy),
        "time" := PFloat(delay), "timestamp" := PFloat(stamp)]
  }

  function KeyRecord(pressed: bool, key: KeyArg, delay: int, stamp: int): Event
  {
    map["type" := PStr(if pressed then "key_press" else "key_release"), "key" := StoredKey(key),
        "time" := PFloat(delay), "timestamp" := PFloat(stamp)]
  }

  /** Every recorded event has a "type", a float "time" and a
      "timestamp". */
  predicate IsRecord(e: Event)
  {
    "type" in e && "time" in e && e["time"].PFloat? && "timestamp" in e
  }

  /** An event's float "time" field, 0 when it has none. */
  function TimeOf(e: Event): int
  {
    if "time" in e && e["time"].PFloat? then e["time"].ms else 0
  }

  /** The sum of the events' "time" fields. */
  function TotalDelay(events: seq<Event>): int
  {
    if events == [] then 0 else TotalDelay(events[..|events| - 1]) + TimeOf(events[|events| - 1])
  }

  /** The recording so far agrees with the clock: there is a last event
      time exactly when an event was recorded, the first event's delay is
      0, and the delays add up to the time from the first event to the
      last. */
  ghost predicate Timeline(events: seq<Event>, last: Option<int>, first: int)
  {
    && (last.None? <==> events == [])
    && (forall i :: 0 <= i < |events| ==> IsRecord(events[i]))
    && (last.Some? ==> events[0]["time"] == PFloat(0) && TotalDelay(events) == last.value - first)
  }

  /** Appending the record of an event at `now` extends the timeline. */
  lemma TimelineExtends(events: seq<Event>, last: Option<int>, first: int, now: int, r: Event)
    requires Timeline(events, last, first)
    requires IsRecord(r) && r["time"] == PFloat(DelayAt(last, now))
    ensures Timeline(events + [r], Some(now), if last.None? then now else first)
  {
    var events' := events + [r];
    assert events'[..|events'| - 1] == events;
    if last.None? {
      assert events' == [r];
    } else {
      assert events'[0] == events[0];
    }
  }

  class Recorder {
    var recordedEvents: seq<Event>
    var lastEventTime: Option<int>
    var isRecording: bool
    var mouseListener: Listener
    var keyboardListener: Listener
    /** When the first event of the current recording happened. */
    ghost var firstEventTime: int

    ghost predicate Valid()
      reads this
    {
      Timeline(recordedEvents, lastEventTime, firstEventTime)
    }

    constructor()
      ensures Valid()
      ensures recordedEvents == [] && lastEventTime.None? && !isRecording
      ensures mouseListener == NoListener && keyboardListener == NoListener
    {
      recordedEvents := [];
      lastEventTime := None;
      isRecording := false;
      mouseListener := NoListener;
      keyboardListener := NoListener;
      firstEventTime := 0;
    }

    /** `get_event_time` at clock reading `now`: 0 the first time after a
        reset, otherwise the time since the previous call; either way `now`
        becomes the previous call's time. */
    method GetEventTime(now: int) returns (delay: int)
      modifies this`lastEventTime, this`firstEventTime
      ensures delay == if old(lastEventTime).None? then 0 else now - old(lastEventTime).value
      ensures lastEventTime == Some(now)
      ensures firstEventTime == if old(lastEventTime).None? then now else old(firstEventTime)
    {
      if lastEventTime.None? {
        lastEventTime := Some(now);
        firstEventTime := now;
        delay := 0;
      } else {
        delay := now - lastEventTime.value;
        lastEventTime := Some(now);
      }
    }

    /** `on_move`: while recording, a "mouse_move" record. */
    method OnMove(x: int, y: int, now: int, stamp: int)
      requires Valid()
      modifies this
      ensures Valid()
      ensures !old(isRecording) ==> unchanged(this)
      ensures old(isRecording) ==>
        && recordedEvents == old(recordedEvents) + [MoveRecord(x, y, DelayAt(old(lastEventTime), now), stamp)]
        && lastEventTime == Some(now)
      ensures isRecording == old(isRecording)
      ensures mouseListener == old(mouseListener) && keyboardListener == old(keyboardListener)
    {
      if isRecording {
        ghost var last, first := lastEventTime, firstEventTime;
        var delay := GetEventTime(now);
        var r := MoveRecord(x, y, delay, stamp);
        TimelineExtends(recordedEvents, last, first, now, r);
        recordedEvents := recordedEvents + [r];
      }
    }

    /** `on_click`: while recording, a "mouse_press" or "mouse_release"
        record naming the button. */
    method OnClick(x: int, y: int, button: string, pressed: bool, now: int, stamp: int)
      requires Valid()
      modifies this
      ensures Valid()
      ensures !old(isRecording) ==> unchanged(this)
      ensures old(isRecording) ==>
        && recordedEvents == old(recordedEvents) + [ClickRecord(x, y, button, pressed, DelayAt(old(lastEventTime), now), stamp)]
        && lastEventTime == Some(now)
      ensures isRecording == old(isRecording)
      ensures mouseListener == old(mouseListener) && keyboardListener == old(keyboardListener)
    {
      if isRecording {
        ghost var last, first := lastEventTime, firstEventTime;
        var delay := GetEventTime(now);
        var r := ClickRecord(x, y, button, pressed, delay, stamp);
        TimelineExtends(recordedEvents, last, first, now, r);
        recordedEvents := recordedEvents + [r];
      }
    }

    /** `on_scroll`: while recording, a "mouse_scroll" record. */
    method OnScroll(x: int, y: int, dx: int, dy: int, now: int, stamp: int)
      requires Valid()
      modifies this
      ensures Valid()
      ensures !old(isRecording) ==> unchanged(this)
      ensures old(isRecording) ==>
        && recordedEvents == old(recordedEvents) + [ScrollRecord(x, y, dx, dy, DelayAt(old(lastEventTime), now), stamp)]
        && lastEventTime == Some(now)
      ensures isRecording == old(isRecording)
      ensures mouseListener == old(mouseListener) && keyboardListener == old(keyboardListener)
    {
      if isRecording {
        ghost var last, first := lastEventTime, firstEventTime;
        var delay := GetEventTime(now);
        var r := ScrollRecord(x, y, dx, dy, delay, stamp);
        TimelineExtends(recordedEvents, last, first, now, r);
        recordedEvents := recordedEvents + [r];
      }
    }

    /** `on_press`: while recording, a "key_press" record. */
    method OnPress(key: KeyArg, now: int, stamp: int)
      requires Valid()
      modifies this
      ensures Valid()
      ensures !old(isRecording) ==> unchanged(this)
      ensures old(isRecording) ==>
        && recordedEvents == old(recordedEvents) + [KeyRecord(true, key, DelayAt(old(lastEventTime), now), stamp)]
        && lastEventTime == Some(now)
      ensures isRecording == old(isRecording)
      ensures mouseListener == old(mouseListener) && keyboardListener == old(keyboardListener)
    {
      if isRecording {
        ghost var last, first := lastEventTime, firstEventTime;
        var delay := GetEventTime(now);
        var r := KeyRecord(true, key, delay, stamp);
        TimelineExtends(recordedEvents, last, first, now, r);
        recordedEvents := recordedEvents + [r];
      }
    }

    /** `on_release`. ESC, whether or not recording is on, turns recording
        off, stops both listeners that exist, records nothing and returns
        `False`, which ends the keyboard listener. Any other key is recorded
        as a "key_release" while recording, and the result is `None`. */
    method OnRelease(key: KeyArg, now: int, stamp: int) returns (result: Option<bool>)
      requires Valid()
      modifies this
      ensures Valid()
      ensures key == SpecialKey("esc") ==>
        && result == Some(false)
        && !isRecording
        && mouseListener == (if old(mouseListener) == NoListener then NoListener else Stopped)
        && keyboardListener == (if old(keyboardListener) == NoListener then NoListener else Stopped)
        && recordedEvents == old(recordedEvents) && lastEventTime == old(lastEventTime)
      ensures key != SpecialKey("esc") ==> result.None?
      ensures key != SpecialKey("esc") && !old(isRecording) ==> unchanged(this)
      ensures key != SpecialKey("esc") && old(isRecording) ==>
        && recordedEvents == old(recordedEvents) + [KeyRecord(false, key, DelayAt(old(lastEventTime), now), stamp)]
        && lastEventTime == Some(now)
        && isRecording
        && mouseListener == old(mouseListener) && keyboardListener == old(keyboardListener)
    {
      if key == SpecialKey("esc") {
        isRecording := false;
        if mouseListener != NoListener {
          mouseListener := Stopped;
        }
        if keyboardListener != NoListener {
          keyboardListener := Stopped;
        }
        return Some(false);
      }
      if isRecording {
        ghost var last, first := lastEventTime, firstEventTime;
        var delay := GetEventTime(now);
        var r := KeyRecord(false, key, delay, stamp);
        TimelineExtends(recordedEvents, last, first, now, r);
        recordedEvents := recordedEvents + [r];
      }
      return None;
    }

    /** The reset `start_recording` makes before it starts the listeners:
        no events, no last event time, recording on. */
    method StartRecording()
      modifies this
      ensures Valid()
      ensures recordedEvents == [] && lastEventTime.None? && isRecording
      ensures mouseListener == Running && keyboardListener == Running
    {
      recordedEvents := [];
      lastEventTime := None;
      isRecording := true;
      mouseListener := Running;
      keyboardListener := Running;
    }
  }

  // ----------------------------------------------------------- display

  /** Whether a value is one of the types the save step leaves as it is:
      `str`, `int`, `float`, `bool` or `None`. */
  predicate IsPlain(v: PyValue)
  {
    !v.PObject?
  }

  /** The details shown for an event: every field but "time" and
      "timestamp", with a "button" or "key" that is not a string replaced
      by its `str()`. */
  function DisplayDetails(e: Event): (d: Event)
    ensures d.Keys == e.Keys - {"time", "timestamp"}
    ensures forall k :: k in d && k != "button" && k != "key" ==> d[k] == e[k]
    ensures forall k :: k in d && (k == "button" || k == "key") ==>
      d[k] == PStr(PyStr(e[k])) && (e[k].PStr? ==> d[k] == e[k])
  {
    var kept := map k | k in e && k != "time" && k != "timestamp" :: e[k];
    var withButton := if "button" in kept && !kept["button"].PStr? then kept["button" := PStr(PyStr(kept["button"]))] else kept;
    if "key" in withButton && !withButton["key"].PStr? then withButton["key" := PStr(PyStr(withButton["key"]))] else withButton
  }

  /** The copy of an event that is saved: a "button" or "key" that is not a
      plain value replaced by its `str()`, everything else as it was. */
  function SaveCopy(e: Event): (c: Event)
    ensures c.Keys == e.Keys
    ensures forall k :: k in c && k != "button" && k != "key" ==> c[k] == e[k]
    ensures forall k :: k in c && (k == "button" || k == "key") ==>
      IsPlain(c[k]) && (c[k] == e[k] <==> IsPlain(e[k])) && (!IsPlain(e[k]) ==> c[k] == PStr(e[k].text))
  {
    var withButton := if "button" in e && !IsPlain(e["button"]) then e["button" := PStr(PyStr(e["button"]))] else e;
    if "key" in withButton && !IsPlain(withButton["key"]) then withButton["key" := PStr(PyStr(withButton["key"]))] else withButton
  }

  /** What is saved for a recording: nothing at all when it is empty, else
      each event's save copy in order. */
  function SavedEvents(events: seq<Event>): (saved: Option<seq<Event>>)
    ensures saved.None? <==> events == []
    ensures saved.Some? ==>
      && |saved.value| == |events|
      && forall i :: 0 <= i < |events| ==> saved.value[i] == SaveCopy(events[i])
  {
    if events == [] then None else Some(seq(|events|, i requires 0 <= i < |events| => SaveCopy(events[i])))
  }

  /** Showing the shown details again changes nothing. */
  lemma DisplayDetailsIdempotent(e: Event)
    ensures DisplayDetails(DisplayDetails(e)) == DisplayDetails(e)
  {
    var d := DisplayDetails(e);
    var dd := DisplayDetails(d);
    assert dd.Keys == d.Keys;
    forall k | k in d
      ensures dd[k] == d[k]
    {
    }
  }

  /** Saving a saved copy again changes nothing. */
  lemma SaveCopyIdempotent(e: Event)
    ensures SaveCopy(SaveCopy(e)) == SaveCopy(e)
  {
    var c := SaveCopy(e);
    var cc := SaveCopy(c);
    assert cc.Keys == c.Keys;
    forall k | k in c
      ensures cc[k] == c[k]
    {
    }
  }

  /** An event whose "button" and "key" are plain values is saved as it is. */
  lemma PlainEventSavedUnchanged(e: Event)
    requires "button" in e ==> IsPlain(e["button"])
    requires "key" in e ==> IsPlain(e["key"])
    ensures SaveCopy(e) == e
  {
    var c := SaveCopy(e);
    assert c.Keys == e.Keys;
    forall k | k in c
      ensures c[k] == e[k]
    {
    }
  }

  /** The records the callbacks make hold only plain values, so they are
      saved exactly as recorded. */
  lemma RecordsSavedUnchanged(x: int, y: int, dx: int, dy: int, button: string, pressed: bool, key: KeyArg, delay: int, stamp: int)
    ensures SaveCopy(MoveRecord(x, y, delay, stamp)) == MoveRecord(x, y, delay, stamp)
    ensures SaveCopy(ClickRecord(x, y, button, pressed, delay, stamp)) == ClickRecord(x, y, button, pressed, delay, stamp)
    ensures SaveCopy(ScrollRecord(x, y, dx, dy, delay, stamp)) == ScrollRecord(x, y, dx, dy, delay, stamp)
    ensures SaveCopy(KeyRecord(pressed, key, delay, stamp)) == KeyRecord(pressed, key, delay, stamp)
  {
    PlainEventSavedUnchanged(MoveRecord(x, y, delay, stamp));
    PlainEventSavedUnchanged(ClickRecord(x, y, button, pressed, delay, stamp));
    PlainEventSavedUnchanged(ScrollRecord(x, y, dx, dy, delay, stamp));
    PlainEventSavedUnchanged(KeyRecord(pressed, key, delay, stamp));
  }

  /** A key record whose key has no character is shown with the key "None"
      but saved with the key `None`. */
  lemma CharlessKeyShownAsNone(pressed: bool, delay: int, stamp: int)
    ensures var r := KeyRecord(pressed, CharKey(None), delay, stamp);
      DisplayDetails(r)["key"] == PStr("None") && SaveCopy(r)["key"] == PNone
  {
  }
}
