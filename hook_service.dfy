/** The low-level hook layer (src/Core/Services/WindowsApiHookService.cs):
    decoding of window messages into input events, the input-suppression
    deadline, the hook callbacks' gating and the install/uninstall life cycle.

    The Win32 calls are inputs or logs: SetWindowsHookEx is the handle it
    returned (0 for failure), UnhookWindowsHookEx and CallNextHookEx are
    recorded in the order they are made, DateTime.UtcNow.Ticks is a `now`
    parameter and Guid.NewGuid() is an `id` parameter. */
module HookService {
  import opened Wrappers
  import opened InputEvents

  /** The range of C#'s `uint`. */
  type UInt32 = x: int | 0 <= x < 0x1_0000_0000

  /** Window message codes of the low-level hooks. */
  const WM_MOUSEMOVE: int := 0x0200
  const WM_LBUTTONDOWN: int := 0x0201
  const WM_LBUTTONUP: int := 0x0202
  const WM_RBUTTONDOWN: int := 0x0204
  const WM_RBUTTONUP: int := 0x0205
  const WM_MBUTTONDOWN: int := 0x0207
  const WM_MBUTTONUP: int := 0x0208
  const WM_KEYDOWN: int := 0x0100
  const WM_KEYUP: int := 0x0101

  /** DateTime ticks per millisecond. */
  const TicksPerMillisecond: int := 10000

  /** C#'s unchecked `(int)` of a `uint`: values from 2^31 on wrap to negative. */
  function ToInt32(u: UInt32): (i: Int32)
    ensures (i as int - u as int) % 0x1_0000_0000 == 0
  {
    if u < 0x8000_0000 then u else u - 0x1_0000_0000
  }

  /** The action and button a mouse message stands for, if any. */
  function DecodeMouse(wParam: int): Option<(MouseAction, MouseButton)> {
    if wParam == WM_MOUSEMOVE then Some((Move, NoButton))
    else if wParam == WM_LBUTTONDOWN then Some((MouseAction.Down, Left))
    else if wParam == WM_LBUTTONUP then Some((MouseAction.Up, Left))
    else if wParam == WM_RBUTTONDOWN then Some((MouseAction.Down, Right))
    else if wParam == WM_RBUTTONUP then Some((MouseAction.Up, Right))
    else if wParam == WM_MBUTTONDOWN then Some((MouseAction.Down, Middle))
    else if wParam == WM_MBUTTONUP then Some((MouseAction.Up, Middle))
    else None
  }

  /** The message a decoded pair comes from: an independent statement of the
      same table, read in the other direction. */
  function MouseMessage(a: MouseAction, b: MouseButton): Option<int> {
    match (a, b)
    case (Move, NoButton) => Some(WM_MOUSEMOVE)
    case (Down, Left) => Some(WM_LBUTTONDOWN)
    case (Up, Left) => Some(WM_LBUTTONUP)
    case (Down, Right) => Some(WM_RBUTTONDOWN)
    case (Up, Right) => Some(WM_RBUTTONUP)
    case (Down, Middle) => Some(WM_MBUTTONDOWN)
    case (Up, Middle) => Some(WM_MBUTTONUP)
    case _ => None
  }

  /** Decoding and the message table agree in both directions; the hook never
      decodes Click, X buttons or a button-less action other than Move. */
  lemma MouseDecodeTable(wParam: int, a: MouseAction, b: MouseButton)
    ensures DecodeMouse(wParam) == Some((a, b)) <==> MouseMessage(a, b) == Some(wParam)
    ensures DecodeMouse(wParam).Some? ==>
              DecodeMouse(wParam).value.0 != Click &&
              (DecodeMouse(wParam).value.0 == Move <==> DecodeMouse(wParam).value.1 == NoButton)
  {
  }

  function DecodeKeyboard(wParam: int): Option<KeyboardAction> {
    if wParam == WM_KEYDOWN then Some(KeyboardAction.Down)
    else if wParam == WM_KEYUP then Some(KeyboardAction.Up)
    else None
  }

  /** The modifier state the service reports: always none. */
  function GetCurrentModifiers(): (m: KeyModifiers)
    ensures ModifiersValue(m) == 0
  {
    {}
  }

  /** The event a mouse message produces: x/y copied, the OS time cast to
      `int`, no press duration. */
  function CreateMouseEvent(wParam: int, x: Int32, y: Int32, time: UInt32, id: Guid): (e: Option<InputEvent>)
    ensures e.Some? <==> DecodeMouse(wParam).Some?
    ensures e.Some? ==>
              var (a, b) := DecodeMouse(wParam).value;
              e.value == MouseInputEvent(id, ToInt32(time), x, y, b, a) &&
              e.value.Type() == Mouse && e.value.pressDurationMs.None?
  {
    match DecodeMouse(wParam)
    case None => None
    case Some((a, b)) =>
      Some(MouseInputEvent(id := id, timestampMs := ToInt32(time), x := x, y := y,
                           button := b, mouseAction := a, pressDurationMs := None))
  }

  /** The event a keyboard message produces: the key code and OS time cast to
      `int`, no modifiers, no press duration. */
  function CreateKeyboardEvent(wParam: int, vkCode: UInt32, time: UInt32, id: Guid): (e: Option<InputEvent>)
    ensures e.Some? <==> wParam == WM_KEYDOWN || wParam == WM_KEYUP
    ensures e.Some? ==>
              e.value == KeyboardInputEvent(id, ToInt32(time), ToInt32(vkCode), DecodeKeyboard(wParam).value) &&
              e.value.Type() == Keyboard && e.value.modifiers == {} && e.value.pressDurationMs.None?
    ensures wParam == WM_KEYDOWN ==> e.Some? && e.value.keyAction == KeyboardAction.Down
    ensures wParam == WM_KEYUP ==> e.Some? && e.value.keyAction == KeyboardAction.Up
  {
    match DecodeKeyboard(wParam)
    case None => None
    case Some(a) =>
      Some(KeyboardInputEvent(id := id, timestampMs := ToInt32(time), virtualKeyCode := ToInt32(vkCode),
                              keyAction := a, modifiers := GetCurrentModifiers(), pressDurationMs := None))
  }

  /** The deadline SuppressInput(d) sets when called at tick `now`. */
  function SuppressDeadline(now: int, durationMs: Int32): int {
    now + durationMs * TicksPerMillisecond
  }

  /** Input at tick `now` is suppressed while the deadline lies ahead. */
  predicate IsSuppressedAt(deadline: int, now: int) {
    now < deadline
  }

  /** After SuppressInput(d) at tick t, input at a later tick `now` is
      suppressed iff it comes within d milliseconds; d <= 0 suppresses
      nothing, and suppression only ever ends as time goes on. */
  lemma SuppressionWindow(t: int, d: Int32, now: int, later: int)
    requires t <= now <= later
    ensures IsSuppressedAt(SuppressDeadline(t, d), now) <==> now - t < d * TicksPerMillisecond
    ensures d <= 0 ==> !IsSuppressedAt(SuppressDeadline(t, d), now)
    ensures !IsSuppressedAt(SuppressDeadline(t, d), now) ==> !IsSuppressedAt(SuppressDeadline(t, d), later)
  {
  }

  /** What a hook callback raises: an event only for a non-negative code,
      outside suppression, and for a message that decodes. */
  function Gate(nCode: int, suppressed: bool, decoded: Option<InputEvent>): (raised: Option<InputEvent>)
    ensures raised.Some? <==> nCode >= 0 && !suppressed && decoded.Some?
    ensures raised.Some? ==> raised == decoded
  {
    if nCode >= 0 && !suppressed then decoded else None
  }

  /** Why a hook service operation threw. */
  datatype HookError =
    | StartCanceled       // the caller's token was cancelled before Task.Run started
    | HookInstallFailed   // SetWindowsHookEx returned 0 for one of the hooks
    | TokenSourceDisposed // Cancel on a CancellationTokenSource that Dispose already disposed

  /** The service's `_cancellationTokenSource`: none yet, the one the last
      StartHookAsync created, or that one after Dispose disposed it. */
  datatype TokenSourceState = NoTokenSource | LiveTokenSource | DisposedTokenSource

  /** A call of CallNextHookEx: the hook handle, nCode and wParam passed on. */
  datatype NextHookCall = NextHookCall(handle: int, nCode: int, wParam: int)

  class WindowsApiHookService {
    var mouseHookHandle: int
    var keyboardHookHandle: int
    var isActive: bool
    var suppressUntilTicks: int
    var tokenSource: TokenSourceState
    /** The handles passed to UnhookWindowsHookEx, in order. */
    var unhooked: seq<int>
    /** The calls of CallNextHookEx, in order. */
    var nextHookCalls: seq<NextHookCall>

    constructor ()
      ensures mouseHookHandle == 0 && keyboardHookHandle == 0 && !isActive
      ensures suppressUntilTicks == 0 && unhooked == [] && nextHookCalls == []
      ensures tokenSource == NoTokenSource
    {
      mouseHookHandle, keyboardHookHandle := 0, 0;
      isActive := false;
      suppressUntilTicks := 0;
      tokenSource := NoTokenSource;
      unhooked, nextHookCalls := [], [];
    }

    /** Installs both hooks; `mouseHandle` and `keyboardHandle` are what
        SetWindowsHookEx returns. An inactive service first creates a new
        linked token source, even when the caller's token is already
        cancelled. Once active, the source then waits in its message loop
        until stopped; that wait is not part of this model. */
    method StartHookAsync(callerCancelled: bool, mouseHandle: int, keyboardHandle: int)
      returns (o: Outcome<HookError>)
      modifies this
      ensures old(isActive) ==>
                o == Pass && isActive &&
                mouseHookHandle == old(mouseHookHandle) && keyboardHookHandle == old(keyboardHookHandle)
      ensures !old(isActive) && callerCancelled ==>
                o == Fail(StartCanceled) && !isActive &&
                mouseHookHandle == old(mouseHookHandle) && keyboardHookHandle == old(keyboardHookHandle)
      ensures !old(isActive) && !callerCancelled ==>
                mouseHookHandle == mouseHandle && keyboardHookHandle == keyboardHandle &&
                (if mouseHandle == 0 || keyboardHandle == 0
                 then o == Fail(HookInstallFailed) && !isActive
                 else o == Pass && isActive)
      ensures tokenSource == (if old(isActive) then old(tokenSource) else LiveTokenSource)
      ensures suppressUntilTicks == old(suppressUntilTicks)
      ensures unhooked == old(unhooked) && nextHookCalls == old(nextHookCalls)
    {
      if isActive {
        return Pass;
      }
      tokenSource := LiveTokenSource;
      if callerCancelled {
        return Fail(StartCanceled);
      }
      mouseHookHandle := mouseHandle;
      keyboardHookHandle := keyboardHandle;
      if mouseHookHandle == 0 || keyboardHookHandle == 0 {
        return Fail(HookInstallFailed);
      }
      isActive := true;
      o := Pass;
    }

    /** Cancels the token source, unhooks the installed hooks, clears both
        handles and deactivates. Once Dispose has disposed the token source,
        the Cancel throws ObjectDisposedException before anything changes. */
    method StopHookAsync() returns (o: Outcome<HookError>)
      modifies this
      ensures old(tokenSource) == DisposedTokenSource ==> o == Fail(TokenSourceDisposed) && unchanged(this)
      ensures old(tokenSource) != DisposedTokenSource ==>
                o == Pass && mouseHookHandle == 0 && keyboardHookHandle == 0 && !isActive &&
                unhooked == old(unhooked) + (if old(mouseHookHandle) != 0 then [old(mouseHookHandle)] else [])
                                          + (if old(keyboardHookHandle) != 0 then [old(keyboardHookHandle)] else [])
      ensures tokenSource == old(tokenSource)
      ensures suppressUntilTicks == old(suppressUntilTicks) && nextHookCalls == old(nextHookCalls)
    {
      if tokenSource == DisposedTokenSource {
        return Fail(TokenSourceDisposed);
      }
      if mouseHookHandle != 0 {
        unhooked := unhooked + [mouseHookHandle];
        mouseHookHandle := 0;
      }
      if keyboardHookHandle != 0 {
        unhooked := unhooked + [keyboardHookHandle];
        keyboardHookHandle := 0;
      }
      isActive := false;
      o := Pass;
    }

    /** Dispose stops the hooks, as StopHookAsync does (the source waits at
        most one second for that), and then disposes the token source. A
        second Dispose after a StartHookAsync finds the token source
        disposed: its StopHookAsync throws and nothing changes. */
    method Dispose() returns (o: Outcome<HookError>)
      modifies this
      ensures old(tokenSource) == DisposedTokenSource ==> o == Fail(TokenSourceDisposed) && unchanged(this)
      ensures old(tokenSource) != DisposedTokenSource ==>
                o == Pass && mouseHookHandle == 0 && keyboardHookHandle == 0 && !isActive &&
                unhooked == old(unhooked) + (if old(mouseHookHandle) != 0 then [old(mouseHookHandle)] else [])
                                          + (if old(keyboardHookHandle) != 0 then [old(keyboardHookHandle)] else []) &&
                tokenSource == (if old(tokenSource) == NoTokenSource then NoTokenSource else DisposedTokenSource)
      ensures suppressUntilTicks == old(suppressUntilTicks) && nextHookCalls == old(nextHookCalls)
    {
      o := StopHookAsync();
      if o.Fail? {
        return;
      }
      if tokenSource == LiveTokenSource {
        tokenSource := DisposedTokenSource;
      }
    }

    /** SuppressInput(d) at tick `now`: the new deadline replaces the old one,
        so a later, shorter call shortens it. */
    method SuppressInput(durationMs: Int32, now: int)
      modifies this`suppressUntilTicks
      ensures suppressUntilTicks == SuppressDeadline(now, durationMs)
    {
      suppressUntilTicks := now + durationMs * TicksPerMillisecond;
    }

    /** IsInputSuppressed (src/Core/Services/WindowsApiHookService.cs:206-212)
        with the clock read as `now`. */
    predicate IsInputSuppressed(now: int)
      reads this
    {
      IsSuppressedAt(suppressUntilTicks, now)
    }

    /** The mouse callback: returns the event raised on InputDetected, if
        any, and passes the message on to the next hook. The invocation is
        not guarded, so when a subscriber throws (`subscriberThrows`) the
        exception leaves the callback (`threw`) before CallNextHookEx. */
    method MouseHookProc(nCode: int, wParam: Int32, x: Int32, y: Int32, time: UInt32, now: int, id: Guid,
                         subscriberThrows: bool)
      returns (raised: Option<InputEvent>, threw: bool)
      modifies this`nextHookCalls
      ensures raised == Gate(nCode, IsInputSuppressed(now), CreateMouseEvent(wParam, x, y, time, id))
      ensures threw <==> raised.Some? && subscriberThrows
      ensures nextHookCalls == old(nextHookCalls) + (if threw then [] else [NextHookCall(mouseHookHandle, nCode, wParam)])
    {
      raised, threw := None, false;
      if nCode >= 0 && !IsInputSuppressed(now) {
        var e := CreateMouseEvent(wParam, x, y, time, id);
        if e.Some? {
          raised := e;
          if subscriberThrows {
            return raised, true;
          }
        }
      }
      nextHookCalls := nextHookCalls + [NextHookCall(mouseHookHandle, nCode, wParam)];
    }

    /** The keyboard callback, gated in the same way; a throwing subscriber
        likewise skips CallNextHookEx. */
    method KeyboardHookProc(nCode: int, wParam: Int32, vkCode: UInt32, time: UInt32, now: int, id: Guid,
                            subscriberThrows: bool)
      returns (raised: Option<InputEvent>, threw: bool)
      modifies this`nextHookCalls
      ensures raised == Gate(nCode, IsInputSuppressed(now), CreateKeyboardEvent(wParam, vkCode, time, id))
      ensures threw <==> raised.Some? && subscriberThrows
      ensures nextHookCalls == old(nextHookCalls) + (if threw then [] else [NextHookCall(keyboardHookHandle, nCode, wParam)])
    {
      raised, threw := None, false;
      if nCode >= 0 && !IsInputSuppressed(now) {
        var e := CreateKeyboardEvent(wParam, vkCode, time, id);
        if e.Some? {
          raised := e;
          if subscriberThrows {
            return raised, true;
          }
        }
      }
      nextHookCalls := nextHookCalls + [NextHookCall(keyboardHookHandle, nCode, wParam)];
    }
  }

  /** A fresh service, optionally started, then disposed twice. The first
      Dispose succeeds; the second throws ObjectDisposedException exactly
      when a StartHookAsync created the token source the first one disposed,
      whether or not that start installed the hooks. */
  method DisposeTwice(started: bool, callerCancelled: bool, mouseHandle: int, keyboardHandle: int)
    returns (first: Outcome<HookError>, second: Outcome<HookError>)
    ensures first == Pass
    ensures second == (if started then Fail(TokenSourceDisposed) else Pass)
  {
    var h := new WindowsApiHookService();
    if started {
      var _ := h.StartHookAsync(callerCancelled, mouseHandle, keyboardHandle);
    }
    first := h.Dispose();
    second := h.Dispose();
  }

  /** The unchecked cast keeps values below 2^31 and maps the rest to
      negative numbers, one for one. */
  lemma ToInt32Cast(u: UInt32, v: UInt32)
    ensures u < 0x8000_0000 ==> ToInt32(u) == u
    ensures u >= 0x8000_0000 ==> ToInt32(u) < 0
    ensures ToInt32(u) == ToInt32(v) ==> u == v
  {
  }
}
