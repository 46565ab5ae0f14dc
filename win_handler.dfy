/** The Windows `NativeEventHandler`: recording start and stop with the two
    low-level hooks, the hook callbacks that turn messages into records, and
    the playback loop.

    The operating system enters as parameters and logs: what each
    `SetWindowsHookExA` call returns, what `CallNextHookEx`,
    `GetTickCount64` and `GetKeyState` return to a callback, and the lists
    of hook calls, of records sent to the consumer and of sleeps and inputs
    sent by playback. */
module WinHandler {
  import opened Values
  import WinHooks
  import WinPlayback

  /** The handle `SetWindowsHookExA` returns. */
  type Hook = nat

  datatype HookKind = KeyboardLowLevel | MouseLowLevel

  datatype HookCall =
    | SetHook(kind: HookKind)
    | Unhook(hook: Hook)
    | CallNextHook(current: Option<Hook>)

  /** The two hook installations a start makes, in order. */
  const SetHookCalls: seq<HookCall> := [SetHook(KeyboardLowLevel), SetHook(MouseLowLevel)]

  /** The removal of one hook field: one call if it holds a hook, none if
      it is null. */
  function UnhookOf(hook: Option<Hook>): (calls: seq<HookCall>)
    ensures |calls| == if hook.Some? then 1 else 0
  {
    if hook.Some? then [Unhook(hook.value)] else []
  }

  /** The removals of both hooks, keyboard first. */
  function Unhooks(keyboard: Option<Hook>, mouse: Option<Hook>): seq<HookCall>
  {
    UnhookOf(keyboard) + UnhookOf(mouse)
  }

  class NativeEventHandler {
    var keyboardHook: Option<Hook>
    var mouseHook: Option<Hook>
    var isRecording: bool

    /** Whether a consumer is listening. */
    const hasSink: bool
    /** Everything delivered to the consumer, oldest first. */
    var sent: seq<Message>
    /** Every hook installed, removed or chained to, oldest first. */
    var hookCalls: seq<HookCall>
    /** Every sleep and input of playback, oldest first. */
    var played: seq<WinPlayback.Action>

    /** Recording is on exactly when both hooks are held, and no hook is
        held otherwise. */
    ghost predicate Valid()
      reads this
    {
      if isRecording then keyboardHook.Some? && mouseHook.Some? else NoHooks()
    }

    predicate NoHooks()
      reads this
    {
      keyboardHook.None? && mouseHook.None?
    }

    /** What reaches the consumer when the handler sends `m`: `m` if a
        consumer is listening, nothing otherwise. */
    function ToSink(m: Message): (r: seq<Message>)
    {
      if hasSink then [m] else []
    }

    constructor(hasSink: bool)
      ensures Valid() && !isRecording
      ensures this.hasSink == hasSink
      ensures sent == [] && hookCalls == [] && played == []
    {
      keyboardHook := None;
      mouseHook := None;
      isRecording := false;
      this.hasSink := hasSink;
      sent := [];
      hookCalls := [];
      played := [];
    }

    /** Sends a message if a consumer is listening; unlike the macOS
        handler, it does not look at whether recording is on. */
    method SendEventToFlutter(m: Message)
      modifies this`sent
      ensures sent == old(sent) + ToSink(m)
    {
      if hasSink {
        sent := sent + [m];
      }
    }

    /** Starts recording with the hooks the two `SetWindowsHookExA` calls
        return. Already recording: nothing happens. Otherwise both calls are
        made; if both succeed recording is on, and if either fails the one
        that succeeded is removed, both fields end null, recording stays off
        and an error status is sent. */
    method StartRecording(keyboardResult: Option<Hook>, mouseResult: Option<Hook>)
      requires Valid()
      modifies this
      ensures Valid()
      ensures old(isRecording) ==> unchanged(this)
      ensures !old(isRecording) ==> (isRecording <==> keyboardResult.Some? && mouseResult.Some?)
      ensures !old(isRecording) && isRecording ==>
        && keyboardHook == keyboardResult && mouseHook == mouseResult
        && hookCalls == old(hookCalls) + SetHookCalls
        && sent == old(sent) + ToSink(StatusMessage("message", "Recording started successfully."))
      ensures !old(isRecording) && !isRecording ==>
        && NoHooks()
        && hookCalls == old(hookCalls) + SetHookCalls + Unhooks(keyboardResult, mouseResult)
        && sent == old(sent) + ToSink(StatusMessage("error", "Failed to set hooks."))
      ensures played == old(played)
    {
      if isRecording {
        return;
      }
      keyboardHook := keyboardResult;
      mouseHook := mouseResult;
      hookCalls := hookCalls + SetHookCalls;
      if keyboardHook.Some? && mouseHook.Some? {
        isRecording := true;
        SendEventToFlutter(StatusMessage("message", "Recording started successfully."));
      } else {
        hookCalls := hookCalls + Unhooks(keyboardHook, mouseHook);
        keyboardHook := None;
        mouseHook := None;
        isRecording := false;
        SendEventToFlutter(StatusMessage("error", "Failed to set hooks."));
      }
    }

    /** Stops recording. Not recording: nothing happens and nothing is sent.
        Otherwise both hooks are removed, keyboard first, both end null,
        recording is off and one "Recording stopped." status is sent. */
    method StopRecording()
      requires Valid()
      modifies this
      ensures Valid() && !isRecording && NoHooks()
      ensures !old(isRecording) ==> unchanged(this)
      ensures old(isRecording) ==>
        && hookCalls == old(hookCalls) + Unhooks(old(keyboardHook), old(mouseHook))
        && sent == old(sent) + ToSink(StatusMessage("message", "Recording stopped."))
      ensures played == old(played)
    {
      if !isRecording {
        return;
      }
      if keyboardHook.Some? {
        hookCalls := hookCalls + [Unhook(keyboardHook.value)];
        keyboardHook := None;
      }
      if mouseHook.Some? {
        hookCalls := hookCalls + [Unhook(mouseHook.value)];
        mouseHook := None;
      }
      isRecording := false;
      SendEventToFlutter(StatusMessage("message", "Recording stopped."));
    }

    /** The destructor: a stop, whatever the state. */
    method Destroy()
      requires Valid()
      modifies this
      ensures Valid() && !isRecording && NoHooks()
      ensures !old(isRecording) ==> unchanged(this)
      ensures old(isRecording) ==>
        && hookCalls == old(hookCalls) + Unhooks(old(keyboardHook), old(mouseHook))
        && sent == old(sent) + ToSink(StatusMessage("message", "Recording stopped."))
      ensures played == old(played)
    {
      StopRecording();
    }

    /** The low-level keyboard hook. Under `HC_ACTION`, while recording and
        with a consumer listening, a key message becomes a record; in every
        case the message goes on to the next hook, whose result is
        returned. */
    method KeyboardProc(nCode: int, wParam: int, info: WinHooks.KeyboardInfo, tick: UInt64,
                        states: WinHooks.KeyStates, nextResult: int) returns (result: int)
      modifies this`sent, this`hookCalls
      ensures result == nextResult
      ensures hookCalls == old(hookCalls) + [CallNextHook(keyboardHook)]
      ensures sent == old(sent) +
        (if nCode == WinHooks.HcAction && isRecording && hasSink && WinHooks.KeyRecordType(wParam).Some?
         then [WinHooks.KeyRecord(wParam, info, tick, states).value] else [])
    {
      if nCode == WinHooks.HcAction && isRecording && hasSink {
        var record := WinHooks.KeyRecord(wParam, info, tick, states);
        if record.Some? {
          SendEventToFlutter(record.value);
        }
      }
      hookCalls := hookCalls + [CallNextHook(keyboardHook)];
      result := nextResult;
    }

    /** The low-level mouse hook: the same gate, the mouse messages of
        `WinHooks.MouseRecord`, no throttling, and always the next hook. */
    method MouseProc(nCode: int, wParam: int, info: WinHooks.MouseInfo, tick: UInt64, nextResult: int)
      returns (result: int)
      modifies this`sent, this`hookCalls
      ensures result == nextResult
      ensures hookCalls == old(hookCalls) + [CallNextHook(mouseHook)]
      ensures sent == old(sent) +
        (if nCode == WinHooks.HcAction && isRecording && hasSink && WinHooks.IsMouseRecordMessage(wParam)
         then [WinHooks.MouseRecord(wParam, info, tick).value] else [])
    {
      if nCode == WinHooks.HcAction && isRecording && hasSink {
        var record := WinHooks.MouseRecord(wParam, info, tick);
        if record.Some? {
          SendEventToFlutter(record.value);
        }
      }
      hookCalls := hookCalls + [CallNextHook(mouseHook)];
      result := nextResult;
    }

    /** The sleep before an entry whose tick is `currentEventTimeMs`, on
        `DWORD` ticks: none for the first entry or after a tick of 0, and
        across a wrap of the counter the distance through 0xFFFFFFFF. */
    method SleepBefore(firstEvent: bool, lastEventTimeMs: WinHooks.DWord, currentEventTimeMs: WinHooks.DWord)
      modifies this`played
      ensures played == old(played) + WinPlayback.Wait(WinPlayback.Timing(firstEvent, lastEventTimeMs), currentEventTimeMs)
    {
      if !firstEvent && lastEventTimeMs != 0 {
        var delayMs: WinHooks.DWord := 0;
        if currentEventTimeMs >= lastEventTimeMs {
          delayMs := currentEventTimeMs - lastEventTimeMs;
        } else {
          delayMs := (0xFFFF_FFFF - lastEventTimeMs) + currentEventTimeMs + 1;
        }
        if delayMs > 0 {
          played := played + [WinPlayback.Sleep(delayMs)];
        }
      }
    }

    /** Sends the input an entry stands for, if its fields are valid. */
    method SendEntryInput(entryType: string, details: map<string, Value>)
      modifies this`played
      ensures played == old(played) +
        (match WinPlayback.BuildInput(entryType, details)
         case Some(i) => [WinPlayback.Send(i)]
         case None => [])
    {
      var input := WinPlayback.BuildInput(entryType, details);
      if input.Some? {
        played := played + [WinPlayback.Send(input.value)];
      }
    }

    /** Plays a list of channel values. While recording nothing happens.
        Otherwise the entries are played in order as `WinPlayback.Replay`
        describes, with each timestamp's tick reduced by 0xFFFFFFFF as the
        handler does; no status is sent at the end and there is no
        permission check. */
    method PlayEvents(events: seq<Value>)
      modifies this`played
      ensures isRecording ==> played == old(played)
      ensures !isRecording ==> played == old(played) + WinPlayback.Replay(WinPlayback.AsWritten, WinPlayback.Start, events)
    {
      if isRecording {
        return;
      }
      var lastEventTimeMs: WinHooks.DWord := 0;
      var firstEvent := true;
      var i := 0;
      while i < |events|
        invariant 0 <= i <= |events|
        invariant played + WinPlayback.Replay(WinPlayback.AsWritten, WinPlayback.Timing(firstEvent, lastEventTimeMs), events[i..])
               == old(played) + WinPlayback.Replay(WinPlayback.AsWritten, WinPlayback.Start, events)
      {
        WinPlayback.ReplayFrom(WinPlayback.AsWritten, WinPlayback.Timing(firstEvent, lastEventTimeMs), events, i);
        var entry := WinPlayback.ParseEntry(events[i]);
        if entry.Some? {
          var e := entry.value;
          ghost var before := played;
          ghost var t := WinPlayback.Timing(firstEvent, lastEventTimeMs);
          var currentEventTimeMs := WinPlayback.TickOfAsWritten(e.timestamp);
          SleepBefore(firstEvent, lastEventTimeMs, currentEventTimeMs);
          ghost var wait := WinPlayback.Wait(t, currentEventTimeMs);
          assert played == before + wait;
          lastEventTimeMs := currentEventTimeMs;
          firstEvent := false;
          SendEntryInput(e.entryType, e.details);
          AppendAssociates(before, wait, played[|before| + |wait|..]);
          assert played == before + WinPlayback.Step(WinPlayback.AsWritten, t, e);
          AppendAssociates(before, WinPlayback.Step(WinPlayback.AsWritten, t, e),
                           WinPlayback.Replay(WinPlayback.AsWritten, WinPlayback.Timing(false, currentEventTimeMs), events[i + 1..]));
        }
        i := i + 1;
      }
    }
  }

  /** Starting twice is starting once. */
  method StartIsIdempotent(h: NativeEventHandler, keyboard: Hook, mouse: Hook, second: Option<Hook>)
    requires h.Valid() && !h.isRecording
    modifies h
    ensures h.isRecording && h.keyboardHook == Some(keyboard) && h.mouseHook == Some(mouse)
    ensures h.hookCalls == old(h.hookCalls) + SetHookCalls
  {
    h.StartRecording(Some(keyboard), Some(mouse));
    h.StartRecording(second, second);
  }

  /** When only the keyboard hook could be installed, it is removed again:
      no hook is left behind. */
  method HalfInstalledStartRollsBack(h: NativeEventHandler, keyboard: Hook)
    requires h.Valid() && !h.isRecording
    modifies h
    ensures !h.isRecording && h.NoHooks()
    ensures h.hookCalls == old(h.hookCalls) + SetHookCalls + [Unhook(keyboard)]
    ensures h.sent == old(h.sent) + h.ToSink(StatusMessage("error", "Failed to set hooks."))
  {
    h.StartRecording(Some(keyboard), None);
  }

  /** A start that installs both hooks, then the destructor: both hooks
      are removed, keyboard first. */
  method StartThenDestroy(h: NativeEventHandler, keyboard: Hook, mouse: Hook)
    requires h.Valid() && !h.isRecording
    modifies h
    ensures !h.isRecording && h.NoHooks()
    ensures h.hookCalls == old(h.hookCalls) + SetHookCalls + [Unhook(keyboard), Unhook(mouse)]
    ensures h.sent == old(h.sent)
      + h.ToSink(StatusMessage("message", "Recording started successfully."))
      + h.ToSink(StatusMessage("message", "Recording stopped."))
  {
    h.StartRecording(Some(keyboard), Some(mouse));
    h.Destroy();
  }
}
