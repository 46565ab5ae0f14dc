/** The macOS `NativeEventHandler`: recording start and stop, the monitor
    callbacks that turn events into records, and the playback loop.

    The operating system enters as parameters and logs: whether the process
    is trusted for accessibility, what each `addGlobalMonitorForEvents` call
    returns, the clock readings a callback takes, and the lists of monitor
    calls, of records sent to the consumer and of waits and posted events. */
module MacHandler {
  import opened Values
  import MacCapture
  import MacPlayback

  /** The token `addGlobalMonitorForEvents` returns. */
  type Monitor = nat

  /** The event masks the handler installs a global monitor for. */
  datatype MonitorMask =
    | ButtonDownMask    // left, right and other mouse down
    | ButtonUpMask      // left, right and other mouse up
    | MotionMask        // mouse moved, and left, right and other dragged
    | ScrollWheelMask
    | KeyMask           // key down, key up and flags changed

  datatype MonitorCall = AddMonitor(mask: MonitorMask) | RemoveMonitor(monitor: Monitor)

  /** What the five `addGlobalMonitorForEvents` calls of a start return, in
      the order they are made; any of them may be nil. */
  datatype Installed = Installed(
    mouseDown: Option<Monitor>,
    mouseUp: Option<Monitor>,
    mouseMove: Option<Monitor>,
    scrollWheel: Option<Monitor>,
    keyboard: Option<Monitor>)

  /** The monitor calls a start makes, in order. */
  const InstallCalls: seq<MonitorCall> :=
    [AddMonitor(ButtonDownMask), AddMonitor(ButtonUpMask), AddMonitor(MotionMask),
     AddMonitor(ScrollWheelMask), AddMonitor(KeyMask)]

  /** The removal a stop makes for one monitor field: one call if the field
      holds a monitor, none if it is nil. */
  function RemovalOf(monitor: Option<Monitor>): (calls: seq<MonitorCall>)
    ensures |calls| == if monitor.Some? then 1 else 0
  {
    if monitor.Some? then [RemoveMonitor(monitor.value)] else []
  }

  /** The removals a stop makes, in the order it makes them: keyboard,
      mouse down, mouse up, motion, scroll wheel. */
  function StopRemovals(keyboard: Option<Monitor>, mouseDown: Option<Monitor>, mouseUp: Option<Monitor>,
                        mouseMove: Option<Monitor>, scrollWheel: Option<Monitor>): seq<MonitorCall>
  {
    RemovalOf(keyboard) + RemovalOf(mouseDown) + RemovalOf(mouseUp) + RemovalOf(mouseMove) + RemovalOf(scrollWheel)
  }

  class NativeEventHandler {
    var isRecording: bool
    var keyboardMonitor: Option<Monitor>
    var mouseDownMonitor: Option<Monitor>
    var mouseUpMonitor: Option<Monitor>
    var mouseMoveMonitor: Option<Monitor>
    /** Declared but never installed: drags go through `mouseMoveMonitor`. */
    var mouseDraggedMonitor: Option<Monitor>
    var scrollWheelMonitor: Option<Monitor>
    /** Time of the last motion event that passed the throttle, in ms. */
    var lastMouseEventTime: int

    /** Whether a consumer is listening. */
    const hasSink: bool
    /** Everything delivered to the consumer, oldest first. */
    var sent: seq<Message>
    /** Every monitor installed or removed, oldest first. */
    var monitorCalls: seq<MonitorCall>
    /** Every wait and posted event of playback, oldest first. */
    var played: seq<MacPlayback.Action>

    /** Monitors are held only while recording; the drag monitor never is. */
    ghost predicate Valid()
      reads this
    {
      && mouseDraggedMonitor.None?
      && (!isRecording ==> NoMonitors())
    }

    /** No monitor is held. */
    predicate NoMonitors()
      reads this
    {
      && keyboardMonitor.None? && mouseDownMonitor.None? && mouseUpMonitor.None?
      && mouseMoveMonitor.None? && scrollWheelMonitor.None?
    }

    /** What reaches the consumer when the handler sends `m` straight to the
        sink: `m` if a consumer is listening, nothing otherwise. */
    function ToSink(m: Message): (r: seq<Message>)
    {
      if hasSink then [m] else []
    }

    /** Sends `m` straight to the sink, if a consumer is listening. */
    method Notify(m: Message)
      modifies this`sent
      ensures sent == old(sent) + ToSink(m)
    {
      if hasSink {
        sent := sent + [m];
      }
    }

    constructor(hasSink: bool)
      ensures Valid()
      ensures !isRecording && lastMouseEventTime == 0
      ensures this.hasSink == hasSink
      ensures sent == [] && monitorCalls == [] && played == []
    {
      isRecording := false;
      keyboardMonitor := None;
      mouseDownMonitor := None;
      mouseUpMonitor := None;
      mouseMoveMonitor := None;
      mouseDraggedMonitor := None;
      scrollWheelMonitor := None;
      lastMouseEventTime := 0;
      this.hasSink := hasSink;
      sent := [];
      monitorCalls := [];
      played := [];
    }

    /** Sends a record, stamped with the wall-clock time, but only while
        recording and only if a consumer is listening. */
    method SendEventToFlutter(c: MacCapture.Captured, epochMs: I64)
      modifies this`sent
      ensures sent == old(sent) + (if hasSink && isRecording then [MacCapture.SentRecord(c, epochMs)] else [])
    {
      if hasSink && isRecording {
        sent := sent + [MacCapture.SentRecord(c, epochMs)];
      }
    }

    /** Starts recording. Already recording: nothing happens. Not trusted
        for accessibility: an error status and nothing else. Otherwise the
        five monitors are installed and recording is on. */
    method StartRecording(trusted: bool, installed: Installed)
      requires Valid()
      modifies this
      ensures Valid()
      ensures old(isRecording) ==> unchanged(this)
      ensures !old(isRecording) && !trusted ==>
        && !isRecording
        && NoMonitors()
        && monitorCalls == old(monitorCalls)
        && sent == old(sent) + ToSink(StatusMessage("error", "Accessibility permissions required."))
      ensures !old(isRecording) && trusted ==>
        && isRecording
        && keyboardMonitor == installed.keyboard
        && mouseDownMonitor == installed.mouseDown
        && mouseUpMonitor == installed.mouseUp
        && mouseMoveMonitor == installed.mouseMove
        && scrollWheelMonitor == installed.scrollWheel
        && monitorCalls == old(monitorCalls) + InstallCalls
        && sent == old(sent) + ToSink(StatusMessage("message", "Recording started successfully."))
      ensures mouseDraggedMonitor == old(mouseDraggedMonitor)
      ensures lastMouseEventTime == old(lastMouseEventTime) && played == old(played)
    {
      if isRecording {
        return;
      }
      if !trusted {
        Notify(StatusMessage("error", "Accessibility permissions required."));
        return;
      }
      isRecording := true;
      mouseDownMonitor := installed.mouseDown;
      mouseUpMonitor := installed.mouseUp;
      mouseMoveMonitor := installed.mouseMove;
      scrollWheelMonitor := installed.scrollWheel;
      keyboardMonitor := installed.keyboard;
      monitorCalls := monitorCalls + InstallCalls;
      Notify(StatusMessage("message", "Recording started successfully."));
    }

    /** Stops recording. Not recording: nothing happens and nothing is sent.
        Otherwise every monitor held is removed, all five end nil, and one
        "Recording stopped." status is sent. */
    method StopRecording()
      requires Valid()
      modifies this
      ensures Valid()
      ensures !old(isRecording) ==> unchanged(this)
      ensures old(isRecording) ==>
        && !isRecording
        && NoMonitors()
        && monitorCalls == old(monitorCalls) + StopRemovals(old(keyboardMonitor), old(mouseDownMonitor),
             old(mouseUpMonitor), old(mouseMoveMonitor), old(scrollWheelMonitor))
        && sent == old(sent) + ToSink(StatusMessage("message", "Recording stopped."))
      ensures mouseDraggedMonitor == old(mouseDraggedMonitor)
      ensures lastMouseEventTime == old(lastMouseEventTime) && played == old(played)
    {
      if !isRecording {
        return;
      }
      isRecording := false;
      monitorCalls := monitorCalls +
        StopRemovals(keyboardMonitor, mouseDownMonitor, mouseUpMonitor, mouseMoveMonitor, scrollWheelMonitor);
      keyboardMonitor := None;
      mouseDownMonitor := None;
      mouseUpMonitor := None;
      mouseMoveMonitor := None;
      scrollWheelMonitor := None;
      Notify(StatusMessage("message", "Recording stopped."));
    }

    /** The keyboard monitor's callback: a key-down or key-up event becomes
        a record while recording; anything else is dropped. */
    method HandleKeyEvent(e: MacCapture.Event, epochMs: I64)
      modifies this`sent
      ensures sent == old(sent) +
        (if isRecording && hasSink && MacCapture.KeyRecord(e).Some?
         then [MacCapture.SentRecord(MacCapture.KeyRecord(e).value, epochMs)] else [])
    {
      if !isRecording {
        return;
      }
      var record := MacCapture.KeyRecord(e);
      if record.None? {
        return;
      }
      SendEventToFlutter(record.value, epochMs);
    }

    /** The mouse monitors' callback. A motion event that arrives less than
        the throttle interval after the last one that passed is dropped;
        one that passes resets the throttle clock. Clicks and scrolls are
        never throttled and leave the clock alone. `now` is the time in ms,
        `cursor` the global cursor position when the callback runs. */
    method HandleMouseEvent(e: MacCapture.Event, now: int, cursor: MacCapture.Point, epochMs: I64)
      modifies this`sent, this`lastMouseEventTime
      ensures lastMouseEventTime ==
        if isRecording && MacCapture.IsMotion(e.eventType) && MacCapture.PassesThrottle(now, old(lastMouseEventTime))
        then now else old(lastMouseEventTime)
      ensures sent == old(sent) +
        (if && isRecording && hasSink && MacCapture.IsMouseRecordType(e.eventType)
            && (MacCapture.IsMotion(e.eventType) ==> MacCapture.PassesThrottle(now, old(lastMouseEventTime)))
         then [MacCapture.SentRecord(MacCapture.MouseRecord(e, cursor).value, epochMs)] else [])
    {
      if !isRecording {
        return;
      }
      if MacCapture.IsMotion(e.eventType) {
        if !MacCapture.PassesThrottle(now, lastMouseEventTime) {
          return;
        }
        lastMouseEventTime := now;
      }
      var record := MacCapture.MouseRecord(e, cursor);
      if record.None? {
        return;
      }
      SendEventToFlutter(record.value, epochMs);
    }

    /** Posts the event one entry stands for, if any. */
    method SimulateEvent(entryType: string, details: map<string, Value>)
      modifies this`played
      ensures played == old(played) +
        (match MacPlayback.Simulate(entryType, details)
         case Some(i) => [MacPlayback.Post(i)]
         case None => [])
    {
      var injection := MacPlayback.Simulate(entryType, details);
      if injection.Some? {
        played := played + [MacPlayback.Post(injection.value)];
      }
    }

    /** Plays a recording. While recording nothing happens. Without
        accessibility trust only an error status is sent. Otherwise the
        entries are played in order as `MacPlayback.Replay` describes,
        followed by one "Playback finished." status. */
    method PlayEvents(events: seq<map<string, Value>>, trusted: bool)
      modifies this`played, this`sent
      ensures old(isRecording) ==> played == old(played) && sent == old(sent)
      ensures !isRecording && !trusted ==>
        && played == old(played)
        && sent == old(sent) + ToSink(StatusMessage("error", "Accessibility permissions required for playback."))
      ensures !isRecording && trusted ==>
        && played == old(played) + MacPlayback.Replay(MacPlayback.Start, events)
        && sent == old(sent) + ToSink(StatusMessage("message", "Playback finished."))
    {
      if isRecording {
        return;
      }
      if !trusted {
        Notify(StatusMessage("error", "Accessibility permissions required for playback."));
        return;
      }
      var lastEventNativeTimestamp: I64 := 0;
      var firstEvent := true;
      var i := 0;
      while i < |events|
        invariant 0 <= i <= |events|
        invariant sent == old(sent)
        invariant played + MacPlayback.Replay(MacPlayback.Timing(firstEvent, lastEventNativeTimestamp), events[i..])
               == old(played) + MacPlayback.Replay(MacPlayback.Start, events)
      {
        MacPlayback.ReplayFrom(MacPlayback.Timing(firstEvent, lastEventNativeTimestamp), events, i);
        var entry := MacPlayback.ParseEntry(events[i]);
        if entry.Some? {
          var e := entry.value;
          ghost var before := played;
          ghost var t := MacPlayback.Timing(firstEvent, lastEventNativeTimestamp);
          if !firstEvent && lastEventNativeTimestamp != 0 {
            var delayMilliseconds := e.timestamp - lastEventNativeTimestamp;
            if delayMilliseconds > 0 {
              played := played + [MacPlayback.Sleep(delayMilliseconds)];
            }
          }
          assert played == before + MacPlayback.Wait(t, e.timestamp);
          lastEventNativeTimestamp := e.timestamp;
          firstEvent := false;
          SimulateEvent(e.entryType, e.details);
          AppendAssociates(before, MacPlayback.Wait(t, e.timestamp), played[|before| + |MacPlayback.Wait(t, e.timestamp)|..]);
          assert played == before + MacPlayback.Step(t, e);
          AppendAssociates(before, MacPlayback.Step(t, e),
                           MacPlayback.Replay(MacPlayback.Timing(false, e.timestamp), events[i + 1..]));
        }
        i := i + 1;
      }
      Notify(StatusMessage("message", "Playback finished."));
    }
  }

  /** Starting twice is starting once: the second start changes nothing. */
  method StartIsIdempotent(h: NativeEventHandler, trusted: bool, first: Installed, second: Installed)
    requires h.Valid() && !h.isRecording && trusted
    modifies h
    ensures h.isRecording
    ensures h.monitorCalls == old(h.monitorCalls) + InstallCalls
    ensures h.keyboardMonitor == first.keyboard && h.mouseDownMonitor == first.mouseDown
    ensures h.mouseUpMonitor == first.mouseUp && h.mouseMoveMonitor == first.mouseMove
    ensures h.scrollWheelMonitor == first.scrollWheel
  {
    h.StartRecording(trusted, first);
    h.StartRecording(trusted, second);
  }

  /** A start followed by a stop leaves no monitor installed and removes
      every one that was installed, keyboard first. */
  method StartThenStop(h: NativeEventHandler, installed: Installed)
    requires h.Valid() && !h.isRecording
    modifies h
    ensures !h.isRecording && h.Valid()
    ensures h.NoMonitors()
    ensures h.monitorCalls == old(h.monitorCalls) + InstallCalls + StopRemovals(installed.keyboard,
      installed.mouseDown, installed.mouseUp, installed.mouseMove, installed.scrollWheel)
    ensures h.sent == old(h.sent)
      + h.ToSink(StatusMessage("message", "Recording started successfully."))
      + h.ToSink(StatusMessage("message", "Recording stopped."))
  {
    h.StartRecording(true, installed);
    h.StopRecording();
  }
}
