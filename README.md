# Game Macro Assistant: recording core in Dafny

This project models the recording core of Game Macro Assistant, a Windows desktop tool that
records mouse and keyboard input, together with screenshots, and replays it as a macro. The
modelled parts are:

- **Input events** (`InputEvents`, `input_event.dfy`). These are the immutable mouse and keyboard
  records, their type discriminant, the enums and the `[Flags]` modifier set. The `ToString`
  formats are proved to lose nothing but the event identifier: a reader for the rendered text gets
  every other field back.
- **Screenshot provider types** (`ScreenshotTypes`, `screenshot_types.dfy`). These are the two
  capture methods, the capture result record with its derived `HasError`, and the documented
  timing constants.
- **Screenshot provider** (`ScreenshotProvider`, `screenshot_provider.dfy`). `CaptureAsync` is a
  bounded retry loop over at most three attempts. It prefers Desktop Duplication when that is the
  effective method and the OS supports it, and falls back to GDI. The fallback then sticks. Three
  failures become an `Err-CAP` result, and the caller's cancellation is re-raised. The
  environment is an input: each attempt carries what the Desktop Duplication capture and the GDI
  capture would do, and when the caller's token fires. The loop is proved equal to a recursive
  specification, `RunFrom`, and the properties are lemmas about that specification.
- **Low-level hooks** (`HookService`, `hook_service.dfy`):
  - the window-message decoding table;
  - the unchecked `uint` to `int` cast;
  - the input-suppression deadline, measured in ticks of an explicit clock;
  - the gating in the hook callbacks;
  - the install and uninstall life cycle. `SetWindowsHookEx` becomes the handle it returned, with
    0 meaning failure.
- **Recording session controller** (`InputRecorder`, `input_recorder.dfy`). This is a state machine
  over "recording" and "disposed". It attaches its handler to the hook service exactly while a
  session runs, and forwards captured events to the `InputCaptured` subscribers. Which
  subscribers throw is an input, and the calls they receive are kept in a delivery log.
- **Command line** (`Cli`, `cli.dfy`). This covers the argument scan and the exit-code decisions.
  Reading, deserializing and running the macro is an input that says how that step ends.

Two helper modules support these: `Wrappers` (`Option`, `Result`, `Outcome`) and `Text` (decimal
rendering of integers and the readers that undo it).

The code, and so the model, behaves as follows:

- The low-level hooks emit Move events.
- Down/Up pairs are not merged into clicks, and nothing filters duplicates.
- `StopRecordingKey` is stored but never consulted.
- A throwing `InputCaptured` subscriber ends that one invocation, so the subscribers after it miss
  that event. This is because `InputCaptured?.Invoke` is a single multicast call inside one
  `try`. Every subscriber is still invoked again for later events.

## Model

| member | source | states |
|---|---|---|
| InputEvents.EventKindsAndDefaults | src/Core/Models/InputEvent.cs:30-72 | every mouse event has type Mouse and every keyboard event type Keyboard; modifiers default to None (value 0) and the press duration to absent |
| InputEvents.FlagsAreDistinctBits | src/Core/Models/InputEvent.cs:118-126 | each modifier flag is one of the bits 1, 2, 4, 8 and two different flags share no bit |
| InputEvents.ModifiersValueRoundTrip | src/Core/Models/InputEvent.cs:118-126 | a modifier set and its integer value below 16 determine each other, in both directions |
| InputEvents.NamesRoundTrip | src/Core/Models/InputEvent.cs:89-126 | the button, mouse action, keyboard action and flag names are read back as the members they name |
| InputEvents.FlagsInOrder | src/Core/Models/InputEvent.cs:76 | the flags listed by a `[Flags]` rendering are exactly the set ones, and there is at least one when the set is not None |
| InputEvents.ParseDurationTextOf | src/Core/Models/InputEvent.cs:49 | the `, Duration={d}ms` suffix, or its absence, reads back as the press duration or its absence |
| InputEvents.MouseTextRoundTrip | src/Core/Models/InputEvent.cs:47-51 | the mouse text `Mouse[{ts}ms] {Button} {Action} at ({X},{Y})` plus the duration suffix reads back as timestamp, coordinates, button, action and duration |
| InputEvents.ParseFlagListOfJoin | src/Core/Models/InputEvent.cs:76 | flag names joined by ", " read back as the same flags in the same order |
| InputEvents.ParseModifiersTextOf | src/Core/Models/InputEvent.cs:76 | the `{Modifiers}+` prefix, which is empty for None, reads back as the modifier set |
| InputEvents.KeyboardTextRoundTrip | src/Core/Models/InputEvent.cs:74-79 | the keyboard text `Keyboard[{ts}ms] ` + modifiers + `VK{code} {Action}` + duration suffix reads back as all of those fields |
| InputEvents.ToStringRoundTrip | src/Core/Models/InputEvent.cs:47-79 | the text of every event reads back as the event without its identifier |
| InputEvents.ToStringDeterminesEvent | src/Core/Models/InputEvent.cs:47-79 | two events with the same text have the same type and agree on every field except the identifier |
| Text.DigitsValueOfNatToString | src/Core/Models/InputEvent.cs:50 | the decimal digits rendered for a number denote that number |
| Text.ReadIntOfIntToString | src/Core/Models/InputEvent.cs:50 | an interpolated `int`, sign included, reads back as itself when no digit follows it |
| ScreenshotTypes.HasErrorIffCode | src/Core/Services/IScreenshotProvider.cs:71-77 | HasError holds iff the error code is present and non-empty, and the error message has no influence on it |
| ScreenshotTypes.NoCodeNoError | src/Core/Services/IScreenshotProvider.cs:56-77 | a result built without an error code (it defaults to null) has no error, whatever its message |
| ScreenshotTypes.ErrCapIsError | src/Core/Services/IScreenshotProvider.cs:71-74 | a result with the `Err-CAP` code reports an error |
| ScreenshotProvider.TryCapture | src/Core/Services/ScreenshotProviderService.cs:84-112 | a token-source failure raises its message; otherwise Desktop Duplication's bytes are taken when it is effective, available and succeeds, and in every other case the GDI capture runs in the same attempt, so a working GDI capture yields its bytes with GdiFallback current; a failed try raises the GDI exception and leaves `_currentMethod` unchanged |
| ScreenshotProvider.ScreenshotProviderService.constructor | src/Core/Services/ScreenshotProviderService.cs:17-19 | a fresh provider is not disposed, forces nothing, and its current method is DesktopDuplication |
| ScreenshotProvider.ScreenshotProviderService.CurrentMethod | src/Core/Services/ScreenshotProviderService.cs:61 | the current method is the forced one if any, else `_currentMethod` |
| ScreenshotProvider.ScreenshotProviderService.ForceMethod | src/Core/Services/ScreenshotProviderService.cs:63-66 | after forcing, the current method is the forced one, and nothing else changes |
| ScreenshotProvider.ScreenshotProviderService.Dispose | src/Core/Services/ScreenshotProviderService.cs:207-214 | the provider is disposed afterwards and nothing else changes, so a second call is harmless |
| ScreenshotProvider.ScreenshotProviderService.CaptureAsync | src/Core/Services/ScreenshotProviderService.cs:68-157 | disposed: throws ObjectDisposed before any attempt and changes nothing; otherwise the result and the new `_currentMethod` are those of the retry specification `Capture`, started from the old `_currentMethod` with the OS availability test |
| ScreenshotProvider.RunBounds | src/Core/Services/ScreenshotProviderService.cs:74-78 | a call starts at most 3 attempts and at most 2 backoff delays; there is exactly one delay between consecutive attempts, and a delay after the last attempt only when cancellation then ends the call |
| ScreenshotProvider.RunSuccess | src/Core/Services/ScreenshotProviderService.cs:92-125 | on success: no error code or message; the token source was built; the image is the bytes returned by the method named in the result; RetryCount is the number of attempts before it, each of which failed and was not cancelled; `_currentMethod` is the method named; Desktop Duplication is named only when it was effective and available |
| ScreenshotProvider.RunFailure | src/Core/Services/ScreenshotProviderService.cs:131-148 | an error result comes only after the third failure; it has code `Err-CAP`, empty image data and RetryCount 2, and names `_currentMethod` as it then is |
| ScreenshotProvider.RunWithoutCancellation | src/Core/Services/ScreenshotProviderService.cs:86-135 | if the caller's token never fires, the call returns a result and does not throw: a per-attempt timeout is retried like any other failure |
| ScreenshotProvider.RunCanceled | src/Core/Services/ScreenshotProviderService.cs:78-152 | caller cancellation before an attempt is re-raised; a call that throws Canceled was cancelled by the caller during one of its attempts or their backoff |
| ScreenshotProvider.TokenSourceError | src/Core/Services/ScreenshotProviderService.cs:86 | the token-source constructor throws exactly for a timeout below -1, with the .NET 8 message that names the rejected value |
| ScreenshotProvider.CancelDuringAttempt | src/Core/Services/ScreenshotProviderService.cs:127-130 | an OperationCanceledException while the caller's token is cancelled ends the call in Canceled at once, with no backoff and no `Err-CAP`, even on the last attempt |
| ScreenshotProvider.CancelDuringBackoff | src/Core/Services/ScreenshotProviderService.cs:131-151 | any other failure before the last attempt, once the caller's token is cancelled, starts one backoff whose cancelled `Task.Delay` ends the call in Canceled before another attempt |
| ScreenshotProvider.NoAttemptAfterCancel | src/Core/Services/ScreenshotProviderService.cs:78-152 | every attempt of a call except the last saw no caller cancellation, so no attempt follows a cancelled one |
| ScreenshotProvider.FallbackInSameAttempt | src/Core/Services/ScreenshotProviderService.cs:92-125 | when Desktop Duplication throws (or is not tried) and GDI works, that same attempt succeeds with the GDI bytes, GdiFallback current and its own retry count |
| ScreenshotProvider.DefaultTimeoutAccepted | src/Core/Services/IScreenshotProvider.cs:30 | the default 50 ms timeout always builds the token source, so an attempt fails only when its GDI capture fails |
| ScreenshotProvider.RunInvalidTimeout | src/Core/Services/ScreenshotProviderService.cs:86-147 | when the token-source constructor throws, every attempt fails before any capture and, without cancellation, the call ends in `Err-CAP` carrying that exception's message |
| ScreenshotProvider.CaptureInvalidTimeout | src/Core/Services/ScreenshotProviderService.cs:86-147 | a timeout below -1 and no cancellation: the call ends in `Err-CAP` after three attempts, with RetryCount 2, no image, the old `_currentMethod`, and the prefixed .NET 8 message naming the value |
| ScreenshotProvider.PrimaryUntried | src/Core/Services/ScreenshotProviderService.cs:49-112 | when the effective method is GDI or the OS lacks Desktop Duplication, the Desktop Duplication outcomes make no difference, and `_currentMethod` does not become DesktopDuplication |
| ScreenshotProvider.PrimaryIgnored | src/Core/Services/ScreenshotProviderService.cs:84-112 | when the effective method is GDI or the OS lacks Desktop Duplication, two environments differing only in Desktop Duplication outcomes give the same call |
| ScreenshotProvider.NoSwitchToPrimary | src/Core/Services/ScreenshotProviderService.cs:92-112 | a call that does not try Desktop Duplication does not leave `_currentMethod` at DesktopDuplication unless it was there before |
| ScreenshotProvider.StickyFallback | src/Core/Services/ScreenshotProviderService.cs:84-112 | with nothing forced, once `_currentMethod` is GdiFallback a call never tries Desktop Duplication and leaves GdiFallback current |
| ScreenshotProvider.PlaceholderFallsBack | src/Core/Services/ScreenshotProviderService.cs:159-166 | with the placeholder Desktop Duplication capture of this revision, which always throws, every successful capture is a GDI capture and leaves GdiFallback current, and an attempt whose GDI capture works succeeds with those bytes |
| HookService.ToInt32 | src/Core/Services/WindowsApiHookService.cs:242 | the unchecked `(int)` of a `uint` is the Int32 congruent to it modulo 2^32 |
| HookService.ToInt32Cast | src/Core/Services/WindowsApiHookService.cs:265-266 | the cast keeps values below 2^31, makes the rest negative, and is one-to-one |
| HookService.MouseDecodeTable | src/Core/Services/WindowsApiHookService.cs:214-237 | mouse decoding is the table 0x0200 to (Move, None) and 0x0201/0x0202, 0x0204/0x0205, 0x0207/0x0208 to Down/Up of Left, Right, Middle, read in both directions; no other message decodes |
| HookService.GetCurrentModifiers | src/Core/Services/WindowsApiHookService.cs:273-282 | the reported modifier state is always None |
| HookService.CreateMouseEvent | src/Core/Services/WindowsApiHookService.cs:214-249 | an event exists iff the message decodes; it carries the decoded action and button, the x/y copied, the OS time cast to int and no press duration |
| HookService.CreateKeyboardEvent | src/Core/Services/WindowsApiHookService.cs:251-271 | an event exists iff the message is WM_KEYDOWN or WM_KEYUP; it carries Down for WM_KEYDOWN and Up for WM_KEYUP, the key code and time cast to int, no modifiers and no press duration |
| HookService.SuppressionWindow | src/Core/Services/WindowsApiHookService.cs:162-212 | after SuppressInput(d) at tick t, input at tick `now` is suppressed iff `now - t < d * 10000`; d <= 0 suppresses nothing; suppression never resumes once over |
| HookService.Gate | src/Core/Services/WindowsApiHookService.cs:170-204 | a callback raises an event iff nCode >= 0, input is not suppressed and the message decodes, and then raises the decoded event |
| HookService.WindowsApiHookService.constructor | src/Core/Services/WindowsApiHookService.cs:31-41 | a fresh hook service has no handles, is inactive and suppresses nothing |
| HookService.WindowsApiHookService.StartHookAsync | src/Core/Services/WindowsApiHookService.cs:96-140 | if already active, nothing happens; otherwise a new token source is created, then a cancelled caller token stops it before installing; otherwise the handles are stored, and if either is 0 it throws and stays inactive, else it becomes active |
| HookService.WindowsApiHookService.StopHookAsync | src/Core/Services/WindowsApiHookService.cs:142-160 | once the token source is disposed, the Cancel throws ObjectDisposedException and nothing changes; otherwise both handles become 0 and the service inactive, only non-zero handles are unhooked, mouse first, and a second call unhooks nothing |
| HookService.WindowsApiHookService.Dispose | src/Core/Services/WindowsApiHookService.cs:284-288 | disposing stops the hooks as StopHookAsync does and then disposes the token source if there is one; with the token source already disposed it throws ObjectDisposedException and changes nothing |
| HookService.DisposeTwice | src/Core/Services/WindowsApiHookService.cs:96-288 | disposing a fresh service twice succeeds both times; after any StartHookAsync, even a cancelled or failed one, the second Dispose throws ObjectDisposedException |
| HookService.WindowsApiHookService.SuppressInput | src/Core/Services/WindowsApiHookService.cs:162-168 | the deadline is replaced by call time plus d milliseconds in ticks, so a later, shorter call shortens it |
| HookService.WindowsApiHookService.MouseHookProc | src/Core/Services/WindowsApiHookService.cs:170-186 | the raised event is the gate applied to the decoded mouse event, a subscriber that throws aborts the callback before CallNextHookEx, and otherwise CallNextHookEx is called once with the mouse handle, nCode and wParam |
| HookService.WindowsApiHookService.KeyboardHookProc | src/Core/Services/WindowsApiHookService.cs:188-204 | the raised event is the gate applied to the decoded keyboard event, a subscriber that throws aborts the callback before CallNextHookEx, and otherwise CallNextHookEx is called once with the keyboard handle, nCode and wParam |
| InputRecorder.ReachedIsPrefix | src/Core/Services/InputRecorderService.cs:185-194 | one invocation reaches a prefix of the subscribers, and only its last handler can have thrown; if none throws, it reaches them all |
| InputRecorder.Deliveries | src/Core/Services/InputRecorderService.cs:179-187 | every reached handler receives the same args, in subscription order |
| InputRecorder.InputRecorderService.constructor | src/Core/Services/InputRecorderService.cs:14-37 | a fresh recorder is not recording and not disposed, has no hook service, and has stop key 27 (Escape) |
| InputRecorder.InputRecorderService.Subscribe | src/Core/Services/InputRecorderService.cs:42 | subscribing to InputCaptured appends the handler to the end of the invocation list and changes nothing else |
| InputRecorder.InputRecorderService.SetStopRecordingKey | src/Core/Services/InputRecorderService.cs:37 | the stop key is a plain stored value |
| InputRecorder.InputRecorderService.StartRecordingAsync | src/Core/Services/InputRecorderService.cs:50-102 | disposed: throws ObjectDisposed and changes nothing, the hook service included; already recording: throws "already started" and changes nothing, the hook service included; otherwise recording starts with the handler attached once; a new hook service is freshly allocated and an existing one keeps its suppression deadline and logs; a cancelled caller token leaves an existing hook service untouched, otherwise an inactive hook stores the handles it was given; a hook-start failure is swallowed, leaving recording on |
| InputRecorder.InputRecorderService.StopRecordingAsync | src/Core/Services/InputRecorderService.cs:110-141 | disposed: throws ObjectDisposed and leaves the session token and hook service alone; not recording: no-op that leaves the hook service unchanged; otherwise recording stops, the handler is detached, the hook stopped and the session token cancelled, and only a cancelled caller token makes it throw afterwards |
| InputRecorder.InputRecorderService.SimulateInputCapture | src/Core/Services/InputRecorderService.cs:148-156 | disposed: throws ObjectDisposed; otherwise, only while recording, the reached subscribers receive the event and screenshot unchanged; recording state is untouched |
| InputRecorder.InputRecorderService.OnHookInputDetected | src/Core/Services/InputRecorderService.cs:161-170 | a hook event is forwarded, without a screenshot, only while recording |
| InputRecorder.InputRecorderService.OnInputCaptured | src/Core/Services/InputRecorderService.cs:177-195 | the delivery log grows by exactly the invocation's deliveries; a subscriber's exception is swallowed and changes nothing else |
| InputRecorder.InputRecorderService.Dispose | src/Core/Services/InputRecorderService.cs:200-238 | afterwards the recorder is disposed, not recording, holds no token source and has its hook inactive; a second call changes nothing, neither the recorder nor its hook service |
| InputRecorder.ReachedAfterClean | src/Core/Services/InputRecorderService.cs:187 | after handlers that do not throw, an invocation continues as it would from the rest of the list |
| Cli.FirstNonFlagIsFirst | src/CLI/Program.cs:15-19 | the macro path is the argument at the first index not holding `--headless`, and there is none exactly when every argument is the flag |
| Cli.ScanArgs | src/CLI/Program.cs:12-19 | `headless` is set iff some argument is `--headless`; `macroPath` is the first other argument, and later ones are ignored |
| Cli.Run | src/CLI/Program.cs:10-55 | without `--headless` the result is 0 whatever else is given; headless without a path gives 1; otherwise 0 iff the macro loads, parses to non-null and runs |

## Left out

- Wall-clock values are not modelled: the capture `Timestamp` and `DurationMs`, and `DateTime.UtcNow` in the hook service. Suppression takes the tick count as a `now` parameter.
- Threads, locks, `Task.Run`, the hook thread's 100 ms polling loop and the linking of `CancellationTokenSource`s are concurrency plumbing. Every method runs sequentially here.
- StartRecordingAsync runs the background hook start to completion inside the call. Its `catch (OperationCanceledException)` cannot fire, because nothing in the `try` throws one, so it has no counterpart.
- InputRecorder.InputRecorderService.StopRecordingAsync: the final `Task.Run` wait loop is not modelled. Its loop condition is already false when it runs, and only a cancelled caller token changes the outcome.
- Win32 and GDI calls are foreign code:
  - `SetWindowsHookEx` becomes the handle it returns.
  - `UnhookWindowsHookEx` and `CallNextHookEx` become logs.
  - The Desktop Duplication and GDI captures become per-attempt outcomes.
  - BitBlt and PNG encoding are not modelled.
- `Environment.OSVersion` is the `OsVersion` parameter. `Guid.NewGuid()` is an `id` parameter.
- HookService.WindowsApiHookService.MouseHookProc: `wParam` is taken as an `int`. The overflow that `IntPtr.ToInt32` would raise for a wider value is not modelled, because window messages fit in 32 bits.
- HookService.SuppressDeadline: the `long` arithmetic is unbounded here. `int` milliseconds times 10000 cannot overflow a `long` added to a current tick count.
- ScreenshotProvider.TokenSourceError and ScreenshotProvider.TaskCanceledMessage are .NET runtime texts, not part of this repository. TokenSourceError follows the .NET 8 text of `ArgumentOutOfRangeException.ThrowIfLessThan`; other runtime versions and localized runtimes word it differently. TaskCanceledMessage is the English default text.
- Culture is not modelled: integers are rendered as in a culture whose negative sign is "-" and that uses no digit grouping, which is what `{X}`-style interpolation of an `int` gives in the invariant and English cultures.
- .NET's `[Flags]` enum printing is modelled for combinations of the four named flags: set flags in ascending value order, joined by ", ".
- Unnamed enum values are not modelled. C# lets `KeyModifiers`, `MouseButton`, `MouseAction` and `KeyboardAction` hold any integer, such as `(KeyModifiers)16`, and prints such a value as a number. The model's closed datatypes and flag sets cannot represent it.
- `InputCaptured -=` (unsubscribing) is not modelled. The recorder never unsubscribes anyone.
- Console output from the services and the command line is left out. So are the command line's error messages.
- The command line reads the macro file, deserializes it and runs it through MacroExecutor. That whole step is one input, `loadAndRun`. MacroExecutor, the Macro JSON format and the file system are not part of this model.
- The crash-dump service, the macro data types, the WPF user interface and the issue-filing script are not part of this model.
