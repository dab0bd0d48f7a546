/** The recording session controller (src/Core/Services/InputRecorderService.cs):
    a state machine over "recording" and "disposed" that attaches its handler
    to the hook service while a session runs and forwards captured events to
    the InputCaptured subscribers.

    Subscribers are named by `HandlerId`s kept in subscription order. Which of
    them throw on a given event is an input (`throwing`); what each one
    received is kept in a log of deliveries. The background task that starts
    the hook runs to completion inside StartRecordingAsync here, with the
    handles SetWindowsHookEx returns as inputs. */
module InputRecorder {
  import opened Wrappers
  import opened InputEvents
  import opened ScreenshotTypes
  import opened HookService

  type HandlerId = nat

  /** The default stop-recording key: Escape. */
  const EscapeKey: int := 27

  /** Why a recorder operation threw. */
  datatype RecorderError =
    | ObjectDisposed   // ObjectDisposedException from ThrowIfDisposed
    | AlreadyStarted   // InvalidOperationException("Recording is already started")
    | Canceled         // the caller's token cancelled the final wait of StopRecordingAsync

  /** One handler call made by an InputCaptured invocation. */
  datatype Delivery = Delivery(handler: HandlerId, args: InputEventArgs)

  /** The handlers a multicast invocation reaches: all of them in order, up
      to and including the first one that throws, which ends the invocation. */
  function Reached(handlers: seq<HandlerId>, throwing: set<HandlerId>): seq<HandlerId>
    decreases |handlers|
  {
    if handlers == [] then []
    else if handlers[0] in throwing then [handlers[0]]
    else [handlers[0]] + Reached(handlers[1..], throwing)
  }

  /** What an invocation reaches is a prefix of the invocation list; only its
      last handler can have thrown; and when no handler throws, all of them
      are reached. */
  lemma {:induction false} ReachedIsPrefix(handlers: seq<HandlerId>, throwing: set<HandlerId>)
    ensures var r := Reached(handlers, throwing);
            r <= handlers &&
            (forall i | 0 <= i < |r| - 1 :: r[i] !in throwing) &&
            (|r| < |handlers| ==> 0 < |r| && r[|r| - 1] in throwing) &&
            ((forall h | h in handlers :: h !in throwing) ==> r == handlers)
    decreases |handlers|
  {
    if handlers != [] && handlers[0] !in throwing {
      ReachedIsPrefix(handlers[1..], throwing);
      assert handlers == [handlers[0]] + handlers[1..];
    }
  }

  /** The calls one invocation makes with `args`. */
  function Deliveries(handlers: seq<HandlerId>, args: InputEventArgs): (ds: seq<Delivery>)
    ensures |ds| == |handlers|
    ensures forall i | 0 <= i < |ds| :: ds[i] == Delivery(handlers[i], args)
    decreases |handlers|
  {
    if handlers == [] then [] else [Delivery(handlers[0], args)] + Deliveries(handlers[1..], args)
  }

  class InputRecorderService {
    var isRecording: bool
    var disposed: bool
    var stopRecordingKey: int
    /** The linked CancellationTokenSource of the session, if any, and
        whether it has been cancelled. */
    var recordingCancellation: Option<bool>
    var hookService: WindowsApiHookService?
    /** How many times OnHookInputDetected is attached to the hook's event. */
    var handlerAttachments: nat
    /** The InputCaptured invocation list. */
    var subscribers: seq<HandlerId>
    /** Every handler call made so far, in order. */
    var delivered: seq<Delivery>

    /** The handler is attached exactly once while a session runs and not at
        all otherwise; a session always has a hook service and a token
        source; a disposed recorder is not recording and holds no token
        source; only the recorder's own Dispose disposes the hook service,
        so until then the hook's token source is never a disposed one. */
    predicate Valid()
      reads this, hookService
    {
      handlerAttachments == (if isRecording then 1 else 0) &&
      (isRecording ==> hookService != null && recordingCancellation.Some?) &&
      (disposed ==> !isRecording && recordingCancellation == None) &&
      (!disposed && hookService != null ==> hookService.tokenSource != DisposedTokenSource)
    }

    constructor ()
      ensures Valid() && !isRecording && !disposed && stopRecordingKey == EscapeKey
      ensures hookService == null && recordingCancellation == None
      ensures subscribers == [] && delivered == []
    {
      isRecording, disposed := false, false;
      stopRecordingKey := EscapeKey;
      recordingCancellation := None;
      hookService := null;
      handlerAttachments := 0;
      subscribers, delivered := [], [];
    }

    /** `InputCaptured += handler` on the event declared at
        src/Core/Services/InputRecorderService.cs:42: the handler joins the
        end of the invocation list, after every earlier subscriber. */
    method Subscribe(h: HandlerId)
      modifies this`subscribers
      ensures subscribers == old(subscribers) + [h]
    {
      subscribers := subscribers + [h];
    }

    /** The StopRecordingKey setter: a stored value and nothing more. */
    method SetStopRecordingKey(key: int)
      modifies this`stopRecordingKey
      ensures stopRecordingKey == key
    {
      stopRecordingKey := key;
    }

    /** Starts a session; the hook is installed in the background and its
        failure is ignored. `callerCancelled` says whether the caller's token
        is cancelled; the background task then never runs. */
    method StartRecordingAsync(callerCancelled: bool, mouseHandle: int, keyboardHandle: int)
      returns (o: Outcome<RecorderError>)
      requires Valid()
      modifies this, hookService
      ensures Valid()
      ensures old(disposed) ==>
                o == Fail(ObjectDisposed) && isRecording == old(isRecording) &&
                recordingCancellation == old(recordingCancellation) && hookService == old(hookService) &&
                (old(hookService) != null ==> unchanged(old(hookService)))
      ensures !old(disposed) && old(isRecording) ==>
                o == Fail(AlreadyStarted) && isRecording &&
                recordingCancellation == old(recordingCancellation) && hookService == old(hookService) &&
                (old(hookService) != null ==> unchanged(old(hookService)))
      ensures !old(disposed) && !old(isRecording) ==>
                o == Pass && isRecording && recordingCancellation == Some(callerCancelled) &&
                (old(hookService) != null ==> hookService == old(hookService)) &&
                hookService.isActive == ((old(hookService) != null && old(hookService.isActive)) ||
                                         (!callerCancelled && mouseHandle != 0 && keyboardHandle != 0))
      ensures !old(disposed) && !old(isRecording) && callerCancelled && old(hookService) != null ==>
                unchanged(old(hookService))
      ensures !old(disposed) && !old(isRecording) ==>
                if !callerCancelled && !(old(hookService) != null && old(hookService.isActive))
                then hookService.mouseHookHandle == mouseHandle && hookService.keyboardHookHandle == keyboardHandle
                else if old(hookService) != null
                then hookService.mouseHookHandle == old(hookService.mouseHookHandle) &&
                     hookService.keyboardHookHandle == old(hookService.keyboardHookHandle)
                else hookService.mouseHookHandle == 0 && hookService.keyboardHookHandle == 0
      ensures !old(disposed) && !old(isRecording) && old(hookService) == null ==> fresh(hookService)
      ensures !old(disposed) && !old(isRecording) && old(hookService) != null ==>
                hookService.suppressUntilTicks == old(hookService.suppressUntilTicks) &&
                hookService.unhooked == old(hookService.unhooked) &&
                hookService.nextHookCalls == old(hookService.nextHookCalls)
      ensures disposed == old(disposed) && stopRecordingKey == old(stopRecordingKey)
      ensures subscribers == old(subscribers) && delivered == old(delivered)
    {
      if disposed {
        return Fail(ObjectDisposed);
      }
      if isRecording {
        return Fail(AlreadyStarted);
      }
      recordingCancellation := Some(callerCancelled);
      isRecording := true;
      if hookService == null {
        hookService := new WindowsApiHookService();
      }
      handlerAttachments := handlerAttachments + 1;
      if !callerCancelled {
        var _ := hookService.StartHookAsync(false, mouseHandle, keyboardHandle);
      }
      o := Pass;
    }

    /** Ends a session: recording stops first, then the handler is detached,
        the hook stopped and the session's token cancelled. Not recording:
        nothing happens. */
    method StopRecordingAsync(callerCancelled: bool) returns (o: Outcome<RecorderError>)
      requires Valid()
      modifies this, hookService
      ensures Valid() && !isRecording
      ensures old(disposed) ==> o == Fail(ObjectDisposed)
      ensures !old(disposed) && !old(isRecording) ==>
                o == Pass && recordingCancellation == old(recordingCancellation) &&
                (old(hookService) != null ==> unchanged(old(hookService)))
      ensures old(disposed) ==>
                recordingCancellation == old(recordingCancellation) &&
                (old(hookService) != null ==> unchanged(old(hookService)))
      ensures !old(disposed) && old(isRecording) ==>
                o == (if callerCancelled then Fail(Canceled) else Pass) &&
                recordingCancellation == Some(true) &&
                hookService != null &&
                !hookService.isActive && hookService.mouseHookHandle == 0 && hookService.keyboardHookHandle == 0
      ensures hookService == old(hookService) && disposed == old(disposed) && stopRecordingKey == old(stopRecordingKey)
      ensures subscribers == old(subscribers) && delivered == old(delivered)
    {
      if disposed {
        return Fail(ObjectDisposed);
      }
      if !isRecording {
        return Pass;
      }
      isRecording := false;
      if hookService != null {
        handlerAttachments := handlerAttachments - 1;
        var _ := hookService.StopHookAsync();
      }
      recordingCancellation := Some(true);
      if callerCancelled {
        return Fail(Canceled);
      }
      o := Pass;
    }

    /** Raises InputCaptured for a test or a hook event while recording. */
    method SimulateInputCapture(e: InputEvent, screenshot: Option<seq<byte>>, throwing: set<HandlerId>)
      returns (o: Outcome<RecorderError>)
      requires Valid()
      modifies this`delivered
      ensures Valid()
      ensures o == (if disposed then Fail(ObjectDisposed) else Pass)
      ensures delivered == old(delivered) +
                (if !disposed && isRecording
                 then Deliveries(Reached(subscribers, throwing), InputEventArgs(e, screenshot))
                 else [])
    {
      if disposed {
        return Fail(ObjectDisposed);
      }
      if !isRecording {
        return Pass;
      }
      OnInputCaptured(e, screenshot, throwing);
      o := Pass;
    }

    /** The handler attached to the hook's InputDetected: forwards the event,
        without a screenshot, while recording. */
    method OnHookInputDetected(e: InputEvent, throwing: set<HandlerId>)
      modifies this`delivered
      ensures delivered == old(delivered) +
                (if isRecording then Deliveries(Reached(subscribers, throwing), InputEventArgs(e, None)) else [])
    {
      if isRecording {
        OnInputCaptured(e, None, throwing);
      }
    }

    /** Invokes the InputCaptured handlers in order with the same arguments.
        A throwing handler ends the invocation; the exception is caught
        here, so it changes nothing else. */
    method OnInputCaptured(e: InputEvent, screenshot: Option<seq<byte>>, throwing: set<HandlerId>)
      modifies this`delivered
      ensures delivered == old(delivered) + Deliveries(Reached(subscribers, throwing), InputEventArgs(e, screenshot))
    {
      var args := InputEventArgs(e, screenshot);
      var i := 0;
      var stopped := false;
      while i < |subscribers| && !stopped
        invariant 0 <= i <= |subscribers|
        invariant !stopped ==> forall j | 0 <= j < i :: subscribers[j] !in throwing
        invariant stopped ==> Reached(subscribers, throwing) == subscribers[..i]
        invariant delivered == old(delivered) + Deliveries(subscribers[..i], args)
        decreases |subscribers| - i
      {
        var h := subscribers[i];
        delivered := delivered + [Delivery(h, args)];
        DeliveriesAppend(subscribers[..i], h, args);
        assert subscribers[..i + 1] == subscribers[..i] + [h];
        if h in throwing {
          ReachedAfterClean(subscribers, i, throwing);
          stopped := true;
        }
        i := i + 1;
      }
      if !stopped {
        ReachedIsPrefix(subscribers, throwing);
        assert subscribers[..i] == subscribers;
      }
    }

    /** Dispose stops an active session, disposes the hook service, and always
        ends not recording and disposed; a second call changes nothing. */
    method Dispose()
      requires Valid()
      modifies this, hookService
      ensures Valid() && disposed && !isRecording && recordingCancellation == None
      ensures old(disposed) ==>
                handlerAttachments == old(handlerAttachments) &&
                (old(hookService) != null ==> unchanged(old(hookService)))
      ensures hookService == old(hookService)
      ensures hookService != null && !old(disposed) ==> !hookService.isActive
      ensures stopRecordingKey == old(stopRecordingKey)
      ensures subscribers == old(subscribers) && delivered == old(delivered)
    {
      if !disposed {
        if isRecording {
          var _ := StopRecordingAsync(false);
        }
        if hookService != null {
          var _ := hookService.Dispose();
        }
        recordingCancellation := None;
        isRecording := false;
      }
      disposed := true;
    }
  }

  /** Past handlers that do not throw, an invocation goes on as it would
      from the rest of the list. */
  lemma {:induction false} ReachedAfterClean(handlers: seq<HandlerId>, i: nat, throwing: set<HandlerId>)
    requires i <= |handlers|
    requires forall j | 0 <= j < i :: handlers[j] !in throwing
    ensures Reached(handlers, throwing) == handlers[..i] + Reached(handlers[i..], throwing)
    decreases i
  {
    if i > 0 {
      ReachedAfterClean(handlers[1..], i - 1, throwing);
      assert handlers[1..][..i - 1] == handlers[1..i];
      assert handlers[1..][i - 1..] == handlers[i..];
      assert handlers[..i] == [handlers[0]] + handlers[1..i];
    }
  }

  /** The delivery log of a longer invocation list is that of the shorter
      list plus the new last handler's delivery (used by OnInputCaptured's
      proof). */
  lemma DeliveriesAppend(handlers: seq<HandlerId>, h: HandlerId, args: InputEventArgs)
    ensures Deliveries(handlers + [h], args) == Deliveries(handlers, args) + [Delivery(h, args)]
  {
    var l := Deliveries(handlers + [h], args);
    var r := Deliveries(handlers, args) + [Delivery(h, args)];
    assert |l| == |r|;
    forall i | 0 <= i < |l|
      ensures l[i] == r[i]
    {
      if i < |handlers| {
        assert (handlers + [h])[i] == handlers[i];
      }
    }
  }
}
