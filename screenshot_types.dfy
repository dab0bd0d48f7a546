/** The screenshot provider's public types (src/Core/Services/IScreenshotProvider.cs):
    the two capture methods, the capture result record with its derived
    HasError, and the documented timing constants. */
module ScreenshotTypes {
  import opened Wrappers

  newtype byte = b: int | 0 <= b < 256

  /** The two ways of taking a screenshot; there are no others. */
  datatype CaptureMethod = DesktopDuplication | GdiFallback

  /** The default per-attempt timeout of CaptureAsync, in milliseconds. */
  const DefaultTimeoutMs: int := 50

  /** Retries after the first attempt, and the pause before each of them. */
  const MaxRetries: nat := 2
  const BackoffMs: nat := 10

  /** The error code of a capture that failed on every attempt. */
  const ErrCap: string := "Err-CAP"

  /** A capture result. ErrorCode and ErrorMessage are nullable and default
      to null (None); the capture timestamp and duration come from the wall
      clock and are not part of this model. */
  datatype ScreenshotResult = ScreenshotResult(
    imageData: seq<byte>,
    captureMethod: CaptureMethod,
    retryCount: int,
    errorCode: Option<string> := None,
    errorMessage: Option<string> := None)
  {
    /** `!string.IsNullOrEmpty(ErrorCode)`. */
    predicate HasError() {
      match errorCode
      case None => false
      case Some(code) => code != ""
    }
  }

  /** HasError is decided by the error code alone: it holds exactly when the
      code is present and non-empty, whatever the message says. */
  lemma HasErrorIffCode(r: ScreenshotResult, message: Option<string>)
    ensures r.HasError() <==> r.errorCode.Some? && |r.errorCode.value| > 0
    ensures r.(errorMessage := message).HasError() == r.HasError()
  {
  }

  /** A result built without an error code reports no error. */
  lemma NoCodeNoError(image: seq<byte>, m: CaptureMethod, retries: int, message: Option<string>)
    ensures !ScreenshotResult(image, m, retries).HasError()
    ensures !ScreenshotResult(image, m, retries, errorMessage := message).HasError()
  {
  }

  /** The "Err-CAP" code always counts as an error. */
  lemma ErrCapIsError(image: seq<byte>, m: CaptureMethod, retries: int, message: Option<string>)
    ensures ScreenshotResult(image, m, retries, Some(ErrCap), message).HasError()
  {
  }
}
