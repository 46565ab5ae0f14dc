/** The Python prototype's playback: turning saved key and button strings
    back into keys and buttons, and replaying a list of event dictionaries
    as sleeps and controller calls until the list ends or a Python
    exception escapes.

    The mouse and keyboard controllers, and the sleep, become the list of
    `PlayAction`s the playback performs, in order. */
module PyPlayback {
  import opened PyRecorder

  // ------------------------------------------------------ parse_key etc.

  /** `s.startswith(p)`. */
  predicate StartsWith(s: string, p: string)
  {
    |p| <= |s| && s[..|p|] == p
  }

  /** The text of `t` up to its first '.', or all of it: element 1 of
      `s.split('.')` when `t` is what follows the first '.' of `s`. */
  function UpToDot(t: string): (r: string)
    ensures r <= t
    ensures '.' !in r
    ensures |r| < |t| ==> t[|r|] == '.'
  {
    if t == [] || t[0] == '.' then [] else [t[0]] + UpToDot(t[1..])
  }

  /** What `parse_key` returns: a member of the `Key` enum by name, a
      one-character string, or `KeyCode.from_char` of the whole string. */
  datatype PlayKey = KeyNamed(name: string) | CharOf(c: string) | KeyCodeOf(s: string)

  /** `parse_key`: a string starting "Key." names a `Key` member, the part
      up to the next '.'; a single character is itself; a character between
      single quotes is that character; anything else is a `KeyCode` made
      from the whole string. */
  function ParseKey(s: string): (k: PlayKey)
    ensures k.KeyNamed? <==> StartsWith(s, "Key.")
    ensures k.KeyNamed? ==> '.' !in k.name && k.name <= s[4..]
    ensures k.CharOf? <==> !StartsWith(s, "Key.") && (|s| == 1 || (|s| == 3 && s[0] == '\'' && s[2] == '\''))
    ensures k.CharOf? ==> |k.c| == 1 && k.c[0] == (if |s| == 1 then s[0] else s[1])
    ensures k.KeyCodeOf? ==> k.s == s
  {
    if StartsWith(s, "Key.") then KeyNamed(UpToDot(s[4..]))
    else if |s| == 1 then CharOf(s)
    else if |s| == 3 && s[0] == '\'' && s[2] == '\'' then CharOf([s[1]])
    else KeyCodeOf(s)
  }

  /** `parse_button`: a string starting "Button." names a `Button` member,
      the part up to the next '.'; anything else gives `None`. */
  function ParseButton(s: string): (b: Option<string>)
    ensures b.Some? <==> StartsWith(s, "Button.")
    ensures b.Some? ==> '.' !in b.value && b.value <= s[7..]
  {
    if StartsWith(s, "Button.") then Some(UpToDot(s[7..])) else None
  }

  /** A name without a dot is read back whole. */
  lemma UpToDotWhole(name: string, rest: string)
    requires '.' !in name
    ensures UpToDot(name) == name
    ensures UpToDot(name + "." + rest) == name
  {
    if name != [] {
      UpToDotWhole(name[1..], rest);
      assert name + "." + rest == [name[0]] + (name[1..] + "." + rest);
    } else {
      assert (name + "." + rest)[0] == '.';
    }
  }

  /** The key a keyboard callback stores parses back to that key: a `Key`
      member by its name, a one-character key as its character. */
  lemma StoredKeyParses(key: KeyArg)
    requires key.SpecialKey? ==> '.' !in key.name
    requires key.CharKey? ==> key.keyChar.Some? && |key.keyChar.value| == 1
    ensures StoredKey(key).PStr?
    ensures key.SpecialKey? ==> ParseKey(StoredKey(key).s) == KeyNamed(key.name)
    ensures key.CharKey? ==> ParseKey(StoredKey(key).s) == CharOf(key.keyChar.value)
  {
    if key.SpecialKey? {
      var s := "Key." + key.name;
      assert StartsWith(s, "Key.");
      assert s[4..] == key.name;
      UpToDotWhole(key.name, "");
    } else {
      assert !StartsWith(key.keyChar.value, "Key.");
    }
  }

  /** The button a click callback stores parses back to its name. */
  lemma StoredButtonParses(name: string)
    requires '.' !in name
    ensures ParseButton("Button." + name) == Some(name)
  {
    var s := "Button." + name;
    assert StartsWith(s, "Button.");
    assert s[7..] == name;
    UpToDotWhole(name, "");
  }

  // ---------------------------------------------------------- playback

  /** What the playback does, in order: sleep, set the cursor position,
      press or release a button, scroll, press or release a key, or print
      a warning about an unknown event type. */
  datatype PlayAction =
    | Sleep(ms: nat)
    | MoveTo(x: PyValue, y: PyValue)
    | Press(button: string)
    | Release(button: string)
    | Scroll(dx: PyValue, dy: PyValue)
    | PressKey(key: PlayKey)
    | ReleaseKey(key: PlayKey)
    | Warn(eventType: PyValue)

  /** The exceptions that end a playback. */
  datatype PyError = KeyError(key: string) | TypeError | ValueError | AttributeError

  /** A playback so far: the actions performed, and the exception that
      ended it, if one did. */
  datatype Outcome = Outcome(actions: seq<PlayAction>, error: Option<PyError>)

  datatype Res<T> = Ok(value: T) | Err(error: PyError)

  /** `time.sleep(delay)` in milliseconds: an `int` counts seconds, a
      `bool` one or zero seconds, a float its milliseconds; a negative
      length is a `ValueError`, anything but a number a `TypeError`. */
  function SleepMs(delay: PyValue): (r: Res<nat>)
    ensures r.Err? <==> !(delay.PInt? || delay.PBool? || delay.PFloat?)
                        || (delay.PInt? && delay.i < 0) || (delay.PFloat? && delay.ms < 0)
    ensures r.Err? ==> r.error == (if delay.PInt? || delay.PFloat? then ValueError else TypeError)
    ensures r.Ok? && delay.PInt? ==> r.value == delay.i * 1000
    ensures r.Ok? && delay.PFloat? ==> r.value == delay.ms
    ensures r.Ok? && delay.PBool? ==> r.value == if delay.b then 1000 else 0
  {
    match delay
    case PInt(n) => if n < 0 then Err(ValueError) else Ok(n * 1000)
    case PBool(b) => Ok(if b then 1000 else 0)
    case PFloat(ms) => if ms < 0 then Err(ValueError) else Ok(ms)
    case _ => Err(TypeError)
  }

  /** `event.get('time', 0)`. */
  function DelayField(e: Event): PyValue
  {
    if "time" in e then e["time"] else PInt(0)
  }

  /** Setting the cursor to the event's "x" and "y", then the `after`
      actions; a missing coordinate is a `KeyError`. */
  function Placed(e: Event, after: seq<PlayAction>): (o: Outcome)
    ensures o.error.None? <==> "x" in e && "y" in e
    ensures o.error.None? ==> o.actions == [MoveTo(e["x"], e["y"])] + after
    ensures o.error.Some? ==> o.actions == [] && o.error == Some(KeyError(if "x" in e then "y" else "x"))
  {
    if "x" !in e then Outcome([], Some(KeyError("x")))
    else if "y" !in e then Outcome([], Some(KeyError("y")))
    else Outcome([MoveTo(e["x"], e["y"])] + after, None)
  }

  /** What the playback does for an event of type `eventType`, after its
      sleep. */
  function Dispatch(e: Event, eventType: PyValue): Outcome
  {
    if eventType == PStr("mouse_move") then
      Placed(e, [])
    else if eventType == PStr("mouse_press") || eventType == PStr("mouse_release") then
      if "button" !in e then Outcome([], Some(KeyError("button")))
      else if !e["button"].PStr? then Outcome([], Some(AttributeError))
      else match ParseButton(e["button"].s)
        case None => Outcome([], None)
        case Some(name) => Placed(e, [if eventType == PStr("mouse_press") then Press(name) else Release(name)])
    else if eventType == PStr("mouse_scroll") then
      var placed := Placed(e, []);
      if placed.error.Some? then placed
      else if "dx" !in e then Outcome(placed.actions, Some(KeyError("dx")))
      else if "dy" !in e then Outcome(placed.actions, Some(KeyError("dy")))
      else Outcome(placed.actions + [Scroll(e["dx"], e["dy"])], None)
    else if eventType == PStr("key_press") || eventType == PStr("key_release") then
      if "key" !in e then Outcome([], Some(KeyError("key")))
      else if !e["key"].PStr? then Outcome([], Some(AttributeError))
      else
        var key := ParseKey(e["key"].s);
        Outcome([if eventType == PStr("key_press") then PressKey(key) else ReleaseKey(key)], None)
    else
      Outcome([Warn(eventType)], None)
  }

  /** One turn of the playback loop: sleep for the event's delay, read its
      "type", and act on it. */
  function Step(e: Event): Outcome
  {
    match SleepMs(DelayField(e))
    case Err(err) => Outcome([], Some(err))
    case Ok(ms) =>
      if "type" !in e then Outcome([Sleep(ms)], Some(KeyError("type")))
      else
        var d := Dispatch(e, e["type"]);
        Outcome([Sleep(ms)] + d.actions, d.error)
  }

  /** `playback_events`: the events in order until one raises. */
  function Playback(events: seq<Event>): Outcome
  {
    if events == [] then Outcome([], None)
    else
      var first := Step(events[0]);
      if first.error.Some? then first
      else
        var rest := Playback(events[1..]);
        Outcome(first.actions + rest.actions, rest.error)
  }

  /** Playing `a` then `b` is playing `a` and, unless that raised,
      continuing with `b`. */
  lemma {:induction false} PlaybackAppend(a: seq<Event>, b: seq<Event>)
    ensures Playback(a + b) ==
      if Playback(a).error.Some? then Playback(a)
      else Outcome(Playback(a).actions + Playback(b).actions, Playback(b).error)
  {
    if a == [] {
      assert a + b == b;
    } else {
      var first := Step(a[0]);
      assert (a + b)[0] == a[0];
      assert (a + b)[1..] == a[1..] + b;
      if first.error.None? {
        PlaybackAppend(a[1..], b);
        var rest, restB := Playback(a[1..]), Playback(b);
        if rest.error.None? {
          assert first.actions + (rest.actions + restB.actions) == (first.actions + rest.actions) + restB.actions;
        }
      }
    }
  }

  /** The loop of `playback_events`, each event played by `PlayEvent`. */
  method PlaybackEvents(events: seq<Event>) returns (actions: seq<PlayAction>, error: Option<PyError>)
    ensures Outcome(actions, error) == Playback(events)
  {
    actions, error := [], None;
    if events == [] {
      return;
    }
    var i := 0;
    while i < |events|
      invariant 0 <= i <= |events|
      invariant Playback(events) == Outcome(actions + Playback(events[i..]).actions, Playback(events[i..]).error)
    {
      assert events[i..][0] == events[i] && events[i..][1..] == events[i + 1..];
      var stepActions, stepError := PlayEvent(events[i]);
      ghost var before := actions;
      actions := actions + stepActions;
      if stepError.Some? {
        error := stepError;
        return;
      }
      assert actions + Playback(events[i + 1..]).actions == before + (stepActions + Playback(events[i + 1..]).actions);
      i := i + 1;
    }
    assert events[i..] == [];
    assert actions + [] == actions;
  }

  /** One turn of the loop: sleep, read the type, act on it. */
  method PlayEvent(e: Event) returns (actions: seq<PlayAction>, error: Option<PyError>)
    ensures Outcome(actions, error) == Step(e)
  {
    actions, error := [], None;
    var delay := if "time" in e then e["time"] else PInt(0);
    var ms: nat;
    match delay {
      case PInt(n) =>
        if n < 0 {
          return [], Some(ValueError);
        }
        ms := n * 1000;
      case PBool(b) =>
        ms := if b then 1000 else 0;
      case PFloat(m) =>
        if m < 0 {
          return [], Some(ValueError);
        }
        ms := m;
      case _ =>
        return [], Some(TypeError);
    }
    actions := [Sleep(ms)];
    if "type" !in e {
      return actions, Some(KeyError("type"));
    }
    var eventType := e["type"];
    if eventType == PStr("mouse_move") {
      actions, error := PlaceCursor(e, actions, []);
    } else if eventType == PStr("mouse_press") || eventType == PStr("mouse_release") {
      if "button" !in e {
        return actions, Some(KeyError("button"));
      }
      if !e["button"].PStr? {
        return actions, Some(AttributeError);
      }
      var button := ParseButton(e["button"].s);
      if button.Some? {
        var act := if eventType == PStr("mouse_press") then Press(button.value) else Release(button.value);
        actions, error := PlaceCursor(e, actions, [act]);
      }
    } else if eventType == PStr("mouse_scroll") {
      actions, error := PlaceCursor(e, actions, []);
      if error.Some? {
        return;
      }
      if "dx" !in e {
        return actions, Some(KeyError("dx"));
      }
      if "dy" !in e {
        return actions, Some(KeyError("dy"));
      }
      actions := actions + [Scroll(e["dx"], e["dy"])];
    } else if eventType == PStr("key_press") || eventType == PStr("key_release") {
      if "key" !in e {
        return actions, Some(KeyError("key"));
      }
      if !e["key"].PStr? {
        return actions, Some(AttributeError);
      }
      var key := ParseKey(e["key"].s);
      actions := actions + [if eventType == PStr("key_press") then PressKey(key) else ReleaseKey(key)];
    } else {
      actions := actions + [Warn(eventType)];
    }
  }

  /** Setting the cursor to the event's position after the actions `done`,
      then the actions `after`. */
  method PlaceCursor(e: Event, done: seq<PlayAction>, after: seq<PlayAction>) returns (actions: seq<PlayAction>, error: Option<PyError>)
    ensures Outcome(actions, error) == var p := Placed(e, after); Outcome(done + p.actions, p.error)
  {
    if "x" !in e {
      return done, Some(KeyError("x"));
    }
    if "y" !in e {
      return done, Some(KeyError("y"));
    }
    return done + [MoveTo(e["x"], e["y"])] + after, None;
  }

  // ------------------------------------------- replaying what was recorded

  /** A recorded move replays as its sleep and a move to its position. */
  lemma MoveRecordReplays(x: int, y: int, delay: nat, stamp: int)
    ensures Step(MoveRecord(x, y, delay, stamp)) == Outcome([Sleep(delay), MoveTo(PInt(x), PInt(y))], None)
  {
  }

  /** A recorded click replays as its sleep, a move to its position and the
      press or release of its button. */
  lemma ClickRecordReplays(x: int, y: int, button: string, pressed: bool, delay: nat, stamp: int)
    requires '.' !in button
    ensures Step(ClickRecord(x, y, button, pressed, delay, stamp)) ==
      Outcome([Sleep(delay), MoveTo(PInt(x), PInt(y)), if pressed then Press(button) else Release(button)], None)
  {
    StoredButtonParses(button);
  }

  /** A recorded scroll replays as its sleep, a move to its position and a
      scroll by its amounts. */
  lemma ScrollRecordReplays(x: int, y: int, dx: int, dy: int, delay: nat, stamp: int)
    ensures Step(ScrollRecord(x, y, dx, dy, delay, stamp)) ==
      Outcome([Sleep(delay), MoveTo(PInt(x), PInt(y)), Scroll(PInt(dx), PInt(dy))], None)
  {
  }

  /** A recorded key event replays as its sleep and the press or release of
      the same key. */
  lemma KeyRecordReplays(pressed: bool, key: KeyArg, delay: nat, stamp: int)
    requires key.SpecialKey? ==> '.' !in key.name
    requires key.CharKey? ==> key.keyChar.Some? && |key.keyChar.value| == 1
    ensures var k := if key.SpecialKey? then KeyNamed(key.name) else CharOf(key.keyChar.value);
      Step(KeyRecord(pressed, key, delay, stamp)) ==
        Outcome([Sleep(delay), if pressed then PressKey(k) else ReleaseKey(k)], None)
  {
    StoredKeyParses(key);
  }

  /** A key without a character is recorded with the key `None`, and
      replaying that record raises `AttributeError` after its sleep. */
  lemma CharlessKeyRecordFails(pressed: bool, delay: nat, stamp: int)
    ensures Step(KeyRecord(pressed, CharKey(None), delay, stamp)) == Outcome([Sleep(delay)], Some(AttributeError))
  {
  }

  /** An event of a type the playback does not know is slept for and
      warned about, and the playback goes on. */
  lemma UnknownTypeOnlyWarns(e: Event, t: string)
    requires "type" in e && e["type"] == PStr(t)
    requires t !in {"mouse_move", "mouse_press", "mouse_release", "mouse_scroll", "key_press", "key_release"}
    requires SleepMs(DelayField(e)).Ok?
    ensures Step(e) == Outcome([Sleep(SleepMs(DelayField(e)).value), Warn(PStr(t))], None)
  {
  }

  // ----------------------------------------------------- total sleeping

  /** The milliseconds the actions sleep in all. */
  function TotalSleep(actions: seq<PlayAction>): nat
  {
    if actions == [] then 0 else (if actions[0].Sleep? then actions[0].ms else 0) + TotalSleep(actions[1..])
  }

  lemma {:induction false} TotalSleepAppend(a: seq<PlayAction>, b: seq<PlayAction>)
    ensures TotalSleep(a + b) == TotalSleep(a) + TotalSleep(b)
  {
    if a == [] {
      assert a + b == b;
    } else {
      assert (a + b)[1..] == a[1..] + b;
      TotalSleepAppend(a[1..], b);
    }
  }

  /** An event that plays without error sleeps exactly its float delay. */
  lemma StepSleepsDelay(e: Event)
    requires IsRecord(e) && Step(e).error.None?
    ensures TotalSleep(Step(e).actions) == TimeOf(e)
  {
    var d := Dispatch(e, e["type"]);
    assert forall j :: 0 <= j < |d.actions| ==> !d.actions[j].Sleep?;
    NoSleepTotal(d.actions);
    assert Step(e).actions == [Sleep(e["time"].ms)] + d.actions;
    assert ([Sleep(e["time"].ms)] + d.actions)[1..] == d.actions;
  }

  lemma {:induction false} NoSleepTotal(actions: seq<PlayAction>)
    requires forall j :: 0 <= j < |actions| ==> !actions[j].Sleep?
    ensures TotalSleep(actions) == 0
  {
    if actions != [] {
      NoSleepTotal(actions[1..]);
    }
  }

  /** The delays of a recording summed from the front. */
  lemma {:induction false} TotalDelayCons(e: Event, rest: seq<Event>)
    ensures TotalDelay([e] + rest) == TimeOf(e) + TotalDelay(rest)
  {
    if rest == [] {
      assert ([e] + rest)[..0] == [];
    } else {
      var all := [e] + rest;
      assert all[..|all| - 1] == [e] + rest[..|rest| - 1];
      TotalDelayCons(e, rest[..|rest| - 1]);
    }
  }

  /** A playback of recorded events that raises nothing sleeps, in all, the
      sum of their delays. */
  lemma {:induction false} PlaybackSleepsTotalDelay(events: seq<Event>)
    requires forall i :: 0 <= i < |events| ==> IsRecord(events[i])
    requires Playback(events).error.None?
    ensures TotalSleep(Playback(events).actions) == TotalDelay(events)
  {
    if events != [] {
      StepSleepsDelay(events[0]);
      PlaybackSleepsTotalDelay(events[1..]);
      TotalSleepAppend(Step(events[0]).actions, Playback(events[1..]).actions);
      assert events == [events[0]] + events[1..];
      TotalDelayCons(events[0], events[1..]);
    }
  }

  /** Replaying a whole recording without error takes as long, in sleeps,
      as the time from its first event to its last. */
  lemma RecordingReplaysInTime(events: seq<Event>, last: int, first: int)
    requires Timeline(events, Some(last), first)
    requires Playback(events).error.None?
    ensures TotalSleep(Playback(events).actions) == last - first
  {
    PlaybackSleepsTotalDelay(events);
  }
}
