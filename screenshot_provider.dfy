/** The screenshot provider (src/Core/Services/ScreenshotProviderService.cs):
    a bounded retry loop that captures with Desktop Duplication when it is
    chosen and available, falls back to GDI, turns repeated failure into an
    "Err-CAP" result and passes the caller's cancellation through.

    What the operating system and the clock do is an input: each attempt
    carries the outcome the Desktop Duplication capture and the GDI capture
    would have, and the point at which the caller's token gets cancelled, if
    it does. The caller's token never becomes uncancelled, so that point is
    all there is to know about it. */
module ScreenshotProvider {
  import opened Wrappers
  import opened ScreenshotTypes
  import opened Text

  /** What one capture routine does: return PNG bytes or throw. `cancellation`
      says whether the exception is an OperationCanceledException (the
      per-attempt timeout or the caller's token fired). */
  datatype CaptureOutcome = Captured(image: seq<byte>) | Threw(cancellation: bool, message: string)

  /** When the caller's token becomes cancelled, relative to one attempt. */
  datatype CancelPoint =
    | NotCancelled   // not during this attempt or its backoff
    | BeforeAttempt  // already cancelled when the attempt begins
    | DuringAttempt  // cancelled while the attempt runs
    | DuringBackoff  // cancelled after the attempt, before its backoff ends

  /** The environment of one attempt. */
  datatype Attempt = Attempt(primary: CaptureOutcome, fallback: CaptureOutcome, cancel: CancelPoint)

  /** Why CaptureAsync threw instead of returning a result. `Unexpected` is the
      InvalidOperationException after the loop, which no run reaches. */
  datatype CaptureError = ObjectDisposed | Canceled | Unexpected

  /** The OS version as Environment.OSVersion reports it. */
  datatype OsVersion = OsVersion(major: int, minor: int)

  /** Windows 8 (6.2) and later, by the version test of the
      IsDesktopDuplicationAvailable property
      (src/Core/Services/ScreenshotProviderService.cs:49-58). */
  predicate IsDesktopDuplicationAvailable(os: OsVersion) {
    os.major >= 10 || (os.major == 6 && os.minor >= 2)
  }

  /** What `new CancellationTokenSource(timeoutMs)` throws on .NET 8, if
      anything: for a timeout below -1, ArgumentOutOfRangeException.ThrowIfLessThan
      raises an exception whose message names the value twice, with the
      Windows line break between its two lines. */
  function TokenSourceError(timeoutMs: int): (message: Option<string>)
    ensures message.Some? <==> timeoutMs < -1
  {
    if timeoutMs >= -1 then None
    else
      var value := "-" + NatToString(-timeoutMs);
      Some("millisecondsDelay ('" + value + "') must be greater than or equal to '-1'." +
           " (Parameter 'millisecondsDelay')" + "\r\n" + "Actual value was " + value + ".")
  }

  /** Prefix of the error message of an "Err-CAP" result. */
  const FailurePrefix: string := "キャプチャに失敗しました: "

  /** The message of the exception the Desktop Duplication placeholder throws. */
  const NotImplementedMessage: string := "Desktop Duplication API は今後の実装で対応予定"

  /** The message of the TaskCanceledException a cancelled Task.Delay throws. */
  const TaskCanceledMessage: string := "A task was canceled."

  /** What happened inside the try block of one attempt. */
  datatype AttemptResult = Got(image: seq<byte>) | Raised(cancellation: bool, message: string)

  /** One pass through the try block: the image or the exception, and the
      value `_currentMethod` has afterwards. */
  function TryCapture(effective: CaptureMethod, available: bool, current: CaptureMethod,
                      tokenError: Option<string>, a: Attempt): (res: (AttemptResult, CaptureMethod))
    ensures res.0.Raised? ==> res.1 == current
    ensures res.0.Got? ==> (res.1 == DesktopDuplication <==>
                            effective == DesktopDuplication && available && a.primary.Captured?)
    ensures tokenError.Some? ==> res.0 == Raised(false, tokenError.value)
    ensures tokenError.None? && effective == DesktopDuplication && available && a.primary.Captured? ==>
              res == (Got(a.primary.image), DesktopDuplication)
    ensures tokenError.None? && !(effective == DesktopDuplication && available && a.primary.Captured?) &&
            a.fallback.Captured? ==>
              res == (Got(a.fallback.image), GdiFallback)
    ensures res.0.Raised? && tokenError.None? ==> a.fallback == Threw(res.0.cancellation, res.0.message)
  {
    if tokenError.Some? then (Raised(false, tokenError.value), current)
    else if effective == DesktopDuplication && available && a.primary.Captured? then
      (Got(a.primary.image), DesktopDuplication)
    else
      match a.fallback
      case Captured(image) => (Got(image), GdiFallback)
      case Threw(c, m) => (Raised(c, m), current)
  }

  /** How a call ended, what `_currentMethod` is afterwards, how many
      attempts it started and how many backoff delays, each `Task.Delay` of
      BackoffMs milliseconds, it started. */
  datatype CaptureRun = CaptureRun(outcome: Result<ScreenshotResult, CaptureError>,
                                   current: CaptureMethod, attempts: nat, delays: nat)

  /** The loop of CaptureAsync from the attempt numbered `retryCount` on. */
  function RunFrom(retryCount: nat, current: CaptureMethod, forced: Option<CaptureMethod>,
                   available: bool, tokenError: Option<string>, attempts: seq<Attempt>): CaptureRun
    requires |attempts| == MaxRetries + 1 && retryCount <= MaxRetries
    decreases MaxRetries - retryCount
  {
    var a := attempts[retryCount];
    if a.cancel == BeforeAttempt then CaptureRun(Err(Canceled), current, retryCount, retryCount)
    else
      var (res, now) := TryCapture(forced.GetOr(current), available, current, tokenError, a);
      match res
      case Got(image) =>
        CaptureRun(Ok(ScreenshotResult(image, now, retryCount)), now, retryCount + 1, retryCount)
      case Raised(c, m) =>
        if c && a.cancel == DuringAttempt then
          CaptureRun(Err(Canceled), now, retryCount + 1, retryCount)
        else if retryCount + 1 > MaxRetries then
          CaptureRun(Ok(ScreenshotResult([], now, retryCount, Some(ErrCap), Some(FailurePrefix + m))),
                     now, retryCount + 1, retryCount)
        else if a.cancel != NotCancelled then
          CaptureRun(Err(Canceled), now, retryCount + 1, retryCount + 1)
        else
          RunFrom(retryCount + 1, now, forced, available, tokenError, attempts)
  }

  /** A whole call of CaptureAsync on a service that is not disposed. */
  function Capture(current: CaptureMethod, forced: Option<CaptureMethod>, available: bool,
                   timeoutMs: int, attempts: seq<Attempt>): CaptureRun
    requires |attempts| == MaxRetries + 1
  {
    RunFrom(0, current, forced, available, TokenSourceError(timeoutMs), attempts)
  }

  /** The same attempts with different Desktop Duplication outcomes. */
  predicate SameButPrimary(xs: seq<Attempt>, ys: seq<Attempt>) {
    |xs| == |ys| &&
    forall k | 0 <= k < |xs| :: xs[k].fallback == ys[k].fallback && xs[k].cancel == ys[k].cancel
  }

  /** The Desktop Duplication capture of this revision is a placeholder: it
      waits 1 ms on the linked token, which may cancel it, and then throws
      NotImplementedException. */
  predicate PrimaryIsPlaceholder(attempts: seq<Attempt>) {
    forall k | 0 <= k < |attempts| ::
      attempts[k].primary == Threw(false, NotImplementedMessage) || attempts[k].primary == Threw(true, TaskCanceledMessage)
  }

  class ScreenshotProviderService {
    var disposed: bool
    var currentMethod: CaptureMethod
    var forcedMethod: Option<CaptureMethod>

    constructor ()
      ensures !disposed && currentMethod == DesktopDuplication && forcedMethod == None
      ensures CurrentMethod() == DesktopDuplication
    {
      disposed := false;
      currentMethod := DesktopDuplication;
      forcedMethod := None;
    }

    /** `_forcedMethod ?? _currentMethod`. */
    function CurrentMethod(): (m: CaptureMethod)
      reads this
      ensures forcedMethod.Some? ==> m == forcedMethod.value
      ensures forcedMethod.None? ==> m == currentMethod
    {
      forcedMethod.GetOr(currentMethod)
    }

    method ForceMethod(m: CaptureMethod)
      modifies this
      ensures forcedMethod == Some(m) && CurrentMethod() == m
      ensures disposed == old(disposed) && currentMethod == old(currentMethod)
    {
      forcedMethod := Some(m);
    }

    /** Marks the service disposed; a second call changes nothing. */
    method Dispose()
      modifies this
      ensures disposed
      ensures currentMethod == old(currentMethod) && forcedMethod == old(forcedMethod)
    {
      if !disposed {
        disposed := true;
      }
    }

    /** One call of CaptureAsync in the environment `os` and `attempts`. */
    method CaptureAsync(timeoutMs: int, os: OsVersion, attempts: seq<Attempt>)
      returns (r: Result<ScreenshotResult, CaptureError>)
      requires |attempts| == MaxRetries + 1
      modifies this
      ensures disposed == old(disposed) && forcedMethod == old(forcedMethod)
      ensures old(disposed) ==> r == Err(ObjectDisposed) && currentMethod == old(currentMethod)
      ensures !old(disposed) ==>
                var run := Capture(old(currentMethod), forcedMethod,
                                   IsDesktopDuplicationAvailable(os), timeoutMs, attempts);
                r == run.outcome && currentMethod == run.current
    {
      if disposed {
        return Err(ObjectDisposed);
      }
      ghost var available := IsDesktopDuplicationAvailable(os);
      var retryCount := 0;
      while retryCount <= MaxRetries
        invariant retryCount <= MaxRetries
        invariant disposed == old(disposed) && forcedMethod == old(forcedMethod)
        invariant RunFrom(retryCount, currentMethod, forcedMethod, available, TokenSourceError(timeoutMs), attempts)
               == Capture(old(currentMethod), forcedMethod, available, timeoutMs, attempts)
        decreases MaxRetries - retryCount
      {
        var a := attempts[retryCount];
        if a.cancel == BeforeAttempt {
          return Err(Canceled);
        }
        var effective := CurrentMethod();
        var image: seq<byte> := [];
        var failed := false;
        var cancellation := false;
        var message := "";
        var tokenSourceError := TokenSourceError(timeoutMs);
        if tokenSourceError.Some? {
          failed, message := true, tokenSourceError.value;
        } else if effective == DesktopDuplication && IsDesktopDuplicationAvailable(os) {
          if a.primary.Captured? {
            image := a.primary.image;
            currentMethod := DesktopDuplication;
          } else if a.fallback.Captured? {
            image := a.fallback.image;
            currentMethod := GdiFallback;
          } else {
            failed, cancellation, message := true, a.fallback.cancellation, a.fallback.message;
          }
        } else if a.fallback.Captured? {
          image := a.fallback.image;
          currentMethod := GdiFallback;
        } else {
          failed, cancellation, message := true, a.fallback.cancellation, a.fallback.message;
        }
        if !failed {
          return Ok(ScreenshotResult(image, currentMethod, retryCount));
        }
        if cancellation && a.cancel == DuringAttempt {
          return Err(Canceled);
        }
        retryCount := retryCount + 1;
        if retryCount > MaxRetries {
          return Ok(ScreenshotResult([], currentMethod, retryCount - 1, Some(ErrCap),
                                     Some(FailurePrefix + message)));
        }
        if a.cancel != NotCancelled {
          return Err(Canceled);
        }
      }
      r := Err(Unexpected);
    }
  }

  /** A call starts at most MaxRetries + 1 = 3 attempts. Between two
      consecutive attempts there is exactly one backoff delay, and a call
      starts a delay after its last attempt only when the caller's
      cancellation then ends it; so there are at most 2 delays. */
  lemma {:induction false} RunBounds(retryCount: nat, current: CaptureMethod, forced: Option<CaptureMethod>,
                                     available: bool, tokenError: Option<string>, attempts: seq<Attempt>)
    requires |attempts| == MaxRetries + 1 && retryCount <= MaxRetries
    ensures var run := RunFrom(retryCount, current, forced, available, tokenError, attempts);
            retryCount <= run.attempts <= MaxRetries + 1 && run.delays <= MaxRetries &&
            (run.delays == run.attempts - 1 ||
             (run.delays == run.attempts && run.outcome == Err(Canceled)))
    decreases MaxRetries - retryCount
  {
    var a := attempts[retryCount];
    if a.cancel != BeforeAttempt {
      var (res, now) := TryCapture(forced.GetOr(current), available, current, tokenError, a);
      if res.Raised? && !(res.cancellation && a.cancel == DuringAttempt)
         && retryCount + 1 <= MaxRetries && a.cancel == NotCancelled {
        RunBounds(retryCount + 1, now, forced, available, tokenError, attempts);
      }
    }
  }

  /** A successful capture carries no error code, the bytes that the method
      named in the result returned, and as its retry count the number of
      attempts before it, every one of which failed without cancellation;
      `_currentMethod` is then the method named. */
  lemma {:induction false} RunSuccess(retryCount: nat, current: CaptureMethod, forced: Option<CaptureMethod>,
                                      available: bool, tokenError: Option<string>, attempts: seq<Attempt>)
    requires |attempts| == MaxRetries + 1 && retryCount <= MaxRetries
    ensures var run := RunFrom(retryCount, current, forced, available, tokenError, attempts);
            run.outcome.Ok? && run.outcome.value.errorCode.None? ==>
              var res := run.outcome.value;
              0 < run.attempts <= |attempts| && res.retryCount == run.attempts - 1 && !res.HasError() &&
              res.errorMessage.None? && res.captureMethod == run.current && tokenError.None? &&
              var a := attempts[run.attempts - 1];
              (if res.captureMethod == DesktopDuplication
               then forced.GetOr(current) == DesktopDuplication && available &&
                    a.primary == Captured(res.imageData)
               else a.fallback == Captured(res.imageData))
    ensures var run := RunFrom(retryCount, current, forced, available, tokenError, attempts);
            run.outcome.Ok? && run.outcome.value.errorCode.None? ==>
              forall k | retryCount <= k < run.attempts - 1 ::
                attempts[k].cancel == NotCancelled &&
                TryCapture(forced.GetOr(current), available, current, tokenError, attempts[k]).0.Raised?
    decreases MaxRetries - retryCount
  {
    var a := attempts[retryCount];
    if a.cancel != BeforeAttempt {
      var (res, now) := TryCapture(forced.GetOr(current), available, current, tokenError, a);
      if res.Raised? && !(res.cancellation && a.cancel == DuringAttempt)
         && retryCount + 1 <= MaxRetries && a.cancel == NotCancelled {
        RunSuccess(retryCount + 1, now, forced, available, tokenError, attempts);
        assert forced.GetOr(now) == forced.GetOr(current);
      }
    }
  }

  /** After the third failure the call returns, without throwing, an empty
      "Err-CAP" result with retry count 2 that names the method
      `_currentMethod` then holds. */
  lemma {:induction false} RunFailure(retryCount: nat, current: CaptureMethod, forced: Option<CaptureMethod>,
                                      available: bool, tokenError: Option<string>, attempts: seq<Attempt>)
    requires |attempts| == MaxRetries + 1 && retryCount <= MaxRetries
    ensures var run := RunFrom(retryCount, current, forced, available, tokenError, attempts);
            run.outcome.Ok? && run.outcome.value.errorCode.Some? ==>
              var res := run.outcome.value;
              res.errorCode == Some(ErrCap) && res.HasError() && res.imageData == [] &&
              res.retryCount == MaxRetries && run.attempts == MaxRetries + 1 &&
              res.captureMethod == run.current == current
    decreases MaxRetries - retryCount
  {
    var a := attempts[retryCount];
    if a.cancel != BeforeAttempt {
      var (res, now) := TryCapture(forced.GetOr(current), available, current, tokenError, a);
      if res.Raised? && !(res.cancellation && a.cancel == DuringAttempt)
         && retryCount + 1 <= MaxRetries && a.cancel == NotCancelled {
        RunFailure(retryCount + 1, now, forced, available, tokenError, attempts);
      }
    }
  }

  /** Only the caller's token cancels a call: when it never fires, the call
      returns a result (success or "Err-CAP"), and a per-attempt timeout is
      retried like any other failure. */
  lemma {:induction false} RunWithoutCancellation(retryCount: nat, current: CaptureMethod,
                                                  forced: Option<CaptureMethod>, available: bool,
                                                  tokenError: Option<string>, attempts: seq<Attempt>)
    requires |attempts| == MaxRetries + 1 && retryCount <= MaxRetries
    requires forall k | retryCount <= k < |attempts| :: attempts[k].cancel == NotCancelled
    ensures RunFrom(retryCount, current, forced, available, tokenError, attempts).outcome.Ok?
    decreases MaxRetries - retryCount
  {
    var a := attempts[retryCount];
    var (res, now) := TryCapture(forced.GetOr(current), available, current, tokenError, a);
    if res.Raised? && retryCount + 1 <= MaxRetries {
      RunWithoutCancellation(retryCount + 1, now, forced, available, tokenError, attempts);
    }
  }

  /** Caller cancellation before the first attempt is re-raised, and a call
      that ends in Canceled was cancelled by the caller during one of the
      attempts it started. */
  lemma {:induction false} RunCanceled(retryCount: nat, current: CaptureMethod, forced: Option<CaptureMethod>,
                                       available: bool, tokenError: Option<string>, attempts: seq<Attempt>)
    requires |attempts| == MaxRetries + 1 && retryCount <= MaxRetries
    ensures attempts[retryCount].cancel == BeforeAttempt ==>
              RunFrom(retryCount, current, forced, available, tokenError, attempts).outcome == Err(Canceled)
    ensures var run := RunFrom(retryCount, current, forced, available, tokenError, attempts);
            run.outcome.Err? ==>
              run.outcome.error == Canceled &&
              exists k | retryCount <= k <= run.attempts && k < |attempts| :: attempts[k].cancel != NotCancelled
    decreases MaxRetries - retryCount
  {
    var a := attempts[retryCount];
    if a.cancel == NotCancelled {
      var (res, now) := TryCapture(forced.GetOr(current), available, current, tokenError, a);
      if res.Raised? && retryCount + 1 <= MaxRetries {
        RunCanceled(retryCount + 1, now, forced, available, tokenError, attempts);
      }
    }
  }

  /** An OperationCanceledException raised while the caller's token is
      cancelled is re-thrown at once: no retry, no backoff and no "Err-CAP",
      even on the last attempt. */
  lemma CancelDuringAttempt(retryCount: nat, current: CaptureMethod, forced: Option<CaptureMethod>,
                            available: bool, tokenError: Option<string>, attempts: seq<Attempt>)
    requires |attempts| == MaxRetries + 1 && retryCount <= MaxRetries
    requires attempts[retryCount].cancel == DuringAttempt
    requires var res := TryCapture(forced.GetOr(current), available, current, tokenError, attempts[retryCount]).0;
             res.Raised? && res.cancellation
    ensures var run := RunFrom(retryCount, current, forced, available, tokenError, attempts);
            run.outcome == Err(Canceled) && run.attempts == retryCount + 1 && run.delays == retryCount
  {
  }

  /** Any other failure of an attempt before the last one, once the caller's
      token is cancelled, starts the backoff, and the cancelled Task.Delay
      ends the call in Canceled before another attempt. */
  lemma CancelDuringBackoff(retryCount: nat, current: CaptureMethod, forced: Option<CaptureMethod>,
                            available: bool, tokenError: Option<string>, attempts: seq<Attempt>)
    requires |attempts| == MaxRetries + 1 && retryCount < MaxRetries
    requires var a := attempts[retryCount];
             var res := TryCapture(forced.GetOr(current), available, current, tokenError, a).0;
             res.Raised? && (a.cancel == DuringBackoff || (a.cancel == DuringAttempt && !res.cancellation))
    ensures var run := RunFrom(retryCount, current, forced, available, tokenError, attempts);
            run.outcome == Err(Canceled) && run.attempts == retryCount + 1 && run.delays == retryCount + 1
  {
  }

  /** No attempt follows one during which, or during whose backoff, the
      caller cancelled: every attempt of a run but the last saw no
      cancellation. */
  lemma {:induction false} NoAttemptAfterCancel(retryCount: nat, current: CaptureMethod,
                                                forced: Option<CaptureMethod>, available: bool,
                                                tokenError: Option<string>, attempts: seq<Attempt>)
    requires |attempts| == MaxRetries + 1 && retryCount <= MaxRetries
    ensures var run := RunFrom(retryCount, current, forced, available, tokenError, attempts);
            run.attempts <= |attempts| &&
            forall k | retryCount <= k < run.attempts - 1 :: attempts[k].cancel == NotCancelled
    decreases MaxRetries - retryCount
  {
    var a := attempts[retryCount];
    if a.cancel == NotCancelled {
      var (res, now) := TryCapture(forced.GetOr(current), available, current, tokenError, a);
      if res.Raised? && retryCount + 1 <= MaxRetries {
        NoAttemptAfterCancel(retryCount + 1, now, forced, available, tokenError, attempts);
      }
    }
  }

  /** A Desktop Duplication failure falls back to GDI within the same
      attempt: a working GDI capture then makes the attempt succeed, with
      the GDI bytes, GdiFallback current and no retry counted. */
  lemma FallbackInSameAttempt(retryCount: nat, current: CaptureMethod, forced: Option<CaptureMethod>,
                              available: bool, tokenError: Option<string>, attempts: seq<Attempt>)
    requires |attempts| == MaxRetries + 1 && retryCount <= MaxRetries && tokenError.None?
    requires attempts[retryCount].cancel != BeforeAttempt
    requires attempts[retryCount].primary.Threw? && attempts[retryCount].fallback.Captured?
    ensures var run := RunFrom(retryCount, current, forced, available, tokenError, attempts);
            run.outcome == Ok(ScreenshotResult(attempts[retryCount].fallback.image, GdiFallback, retryCount)) &&
            run.current == GdiFallback && run.attempts == retryCount + 1
  {
  }

  /** When the token source constructor throws, every attempt fails before
      any capture runs; without caller cancellation the call ends in
      "Err-CAP" with the constructor's message. */
  lemma {:induction false} RunInvalidTimeout(retryCount: nat, current: CaptureMethod,
                                             forced: Option<CaptureMethod>, available: bool,
                                             tokenError: Option<string>, attempts: seq<Attempt>)
    requires |attempts| == MaxRetries + 1 && retryCount <= MaxRetries && tokenError.Some?
    requires forall k | retryCount <= k < |attempts| :: attempts[k].cancel == NotCancelled
    ensures RunFrom(retryCount, current, forced, available, tokenError, attempts).outcome
         == Ok(ScreenshotResult([], current, MaxRetries, Some(ErrCap),
                                Some(FailurePrefix + tokenError.value)))
    decreases MaxRetries - retryCount
  {
    if retryCount < MaxRetries {
      RunInvalidTimeout(retryCount + 1, current, forced, available, tokenError, attempts);
    }
  }

  /** A call with the default timeout, DefaultTimeoutMs, always builds its
      token source, so its attempts reach the capture routines. */
  lemma DefaultTimeoutAccepted(timeoutMs: int)
    requires timeoutMs == DefaultTimeoutMs
    ensures TokenSourceError(timeoutMs).None?
    ensures forall a: Attempt, effective: CaptureMethod, available: bool, current: CaptureMethod ::
              TryCapture(effective, available, current, TokenSourceError(timeoutMs), a).0.Raised? ==>
                a.fallback.Threw?
  {
  }

  /** A timeout below -1 makes the whole call end in "Err-CAP" after three
      attempts, carrying the message .NET 8 gives the rejected value. */
  lemma CaptureInvalidTimeout(current: CaptureMethod, forced: Option<CaptureMethod>, available: bool,
                              timeoutMs: int, attempts: seq<Attempt>)
    requires |attempts| == MaxRetries + 1 && timeoutMs < -1
    requires forall k | 0 <= k < |attempts| :: attempts[k].cancel == NotCancelled
    ensures Capture(current, forced, available, timeoutMs, attempts).outcome
         == Ok(ScreenshotResult([], current, MaxRetries, Some(ErrCap),
                                Some(FailurePrefix + TokenSourceError(timeoutMs).value)))
  {
    RunInvalidTimeout(0, current, forced, available, TokenSourceError(timeoutMs), attempts);
  }

  /** Desktop Duplication is tried only when it is the effective method and
      the OS supports it; otherwise its outcomes make no difference, and the
      call never leaves `_currentMethod` at DesktopDuplication unless it was
      there before. */
  lemma PrimaryUntried(retryCount: nat, current: CaptureMethod, forced: Option<CaptureMethod>,
                       available: bool, tokenError: Option<string>, xs: seq<Attempt>, ys: seq<Attempt>)
    requires |xs| == MaxRetries + 1 && retryCount <= MaxRetries && SameButPrimary(xs, ys)
    requires forced.GetOr(current) == GdiFallback || !available
    ensures RunFrom(retryCount, current, forced, available, tokenError, xs)
         == RunFrom(retryCount, current, forced, available, tokenError, ys)
    ensures var run := RunFrom(retryCount, current, forced, available, tokenError, xs);
            run.current == DesktopDuplication ==> current == DesktopDuplication
  {
    PrimaryIgnored(retryCount, current, forced, available, tokenError, xs, ys);
    NoSwitchToPrimary(retryCount, current, forced, available, tokenError, xs);
  }

  /** The first half of PrimaryUntried: the Desktop Duplication outcomes make
      no difference to the run. */
  lemma {:induction false} PrimaryIgnored(retryCount: nat, current: CaptureMethod, forced: Option<CaptureMethod>,
                                          available: bool, tokenError: Option<string>, xs: seq<Attempt>, ys: seq<Attempt>)
    requires |xs| == MaxRetries + 1 && retryCount <= MaxRetries && SameButPrimary(xs, ys)
    requires forced.GetOr(current) == GdiFallback || !available
    ensures RunFrom(retryCount, current, forced, available, tokenError, xs)
         == RunFrom(retryCount, current, forced, available, tokenError, ys)
    decreases MaxRetries - retryCount
  {
    var a := xs[retryCount];
    if a.cancel != BeforeAttempt {
      TryCaptureIgnoresPrimary(forced.GetOr(current), available, current, tokenError, a, ys[retryCount]);
      var (res, now) := TryCapture(forced.GetOr(current), available, current, tokenError, a);
      if res.Raised? && !(res.cancellation && a.cancel == DuringAttempt)
         && retryCount + 1 <= MaxRetries && a.cancel == NotCancelled {
        PrimaryIgnored(retryCount + 1, now, forced, available, tokenError, xs, ys);
      }
    }
  }

  /** The second half of PrimaryUntried: a run that does not try Desktop
      Duplication never makes it current. */
  lemma {:induction false} NoSwitchToPrimary(retryCount: nat, current: CaptureMethod, forced: Option<CaptureMethod>,
                                             available: bool, tokenError: Option<string>, xs: seq<Attempt>)
    requires |xs| == MaxRetries + 1 && retryCount <= MaxRetries
    requires forced.GetOr(current) == GdiFallback || !available
    ensures RunFrom(retryCount, current, forced, available, tokenError, xs).current == DesktopDuplication ==>
              current == DesktopDuplication
    decreases MaxRetries - retryCount
  {
    var a := xs[retryCount];
    if a.cancel != BeforeAttempt {
      var (res, now) := TryCapture(forced.GetOr(current), available, current, tokenError, a);
      if res.Raised? && !(res.cancellation && a.cancel == DuringAttempt)
         && retryCount + 1 <= MaxRetries && a.cancel == NotCancelled {
        NoSwitchToPrimary(retryCount + 1, now, forced, available, tokenError, xs);
      }
    }
  }

  /** One attempt that does not try Desktop Duplication ignores its outcome. */
  lemma TryCaptureIgnoresPrimary(effective: CaptureMethod, available: bool, current: CaptureMethod,
                                 tokenError: Option<string>, a: Attempt, b: Attempt)
    requires a.fallback == b.fallback
    requires effective == GdiFallback || !available
    ensures TryCapture(effective, available, current, tokenError, a)
         == TryCapture(effective, available, current, tokenError, b)
    ensures TryCapture(effective, available, current, tokenError, a).1 == DesktopDuplication ==>
              current == DesktopDuplication
  {
  }

  /** The fallback is sticky: with no method forced, once `_currentMethod`
      is GdiFallback a call never tries Desktop Duplication and leaves
      `_currentMethod` at GdiFallback. */
  lemma StickyFallback(available: bool, timeoutMs: int, xs: seq<Attempt>, ys: seq<Attempt>)
    requires |xs| == MaxRetries + 1 && SameButPrimary(xs, ys)
    ensures Capture(GdiFallback, None, available, timeoutMs, xs)
         == Capture(GdiFallback, None, available, timeoutMs, ys)
    ensures Capture(GdiFallback, None, available, timeoutMs, xs).current == GdiFallback
  {
    PrimaryUntried(0, GdiFallback, None, available, TokenSourceError(timeoutMs), xs, ys);
  }

  /** With the placeholder Desktop Duplication capture, which always throws,
      a successful call always reports GdiFallback and leaves it current, and
      an attempt whose GDI capture works is such a success. */
  lemma PlaceholderFallsBack(retryCount: nat, current: CaptureMethod,
                              forced: Option<CaptureMethod>, available: bool,
                              tokenError: Option<string>, attempts: seq<Attempt>)
    requires |attempts| == MaxRetries + 1 && retryCount <= MaxRetries
    requires PrimaryIsPlaceholder(attempts)
    ensures var run := RunFrom(retryCount, current, forced, available, tokenError, attempts);
            run.outcome.Ok? && !run.outcome.value.HasError() ==>
              run.outcome.value.captureMethod == GdiFallback && run.current == GdiFallback
    ensures var a := attempts[retryCount];
            tokenError.None? && a.cancel != BeforeAttempt && a.fallback.Captured? ==>
              RunFrom(retryCount, current, forced, available, tokenError, attempts).outcome
                == Ok(ScreenshotResult(a.fallback.image, GdiFallback, retryCount))
  {
    var a := attempts[retryCount];
    if tokenError.None? && a.cancel != BeforeAttempt && a.fallback.Captured? {
      FallbackInSameAttempt(retryCount, current, forced, available, tokenError, attempts);
    }
    RunSuccess(retryCount, current, forced, available, tokenError, attempts);
    RunFailure(retryCount, current, forced, available, tokenError, attempts);
  }
}
