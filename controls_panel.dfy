/**
 * The count buttons of the controls panel and its full-screen screenshot
 * button. Each count button asks the application for a new count only when
 * the current count is inside the panel's bounds; the screenshot button
 * refuses to start while a capture is in flight.
 */
module ControlsPanel {
  import opened Wrappers
  import Screenshot

  const DefaultMinTerminals: int := 1
  const DefaultMaxTerminals: int := 10000

  /** `+1`: the count the button requests, or `None` when it does nothing. */
  function Increment(count: int, maxTerminals: int): (r: Option<int>)
    ensures r.Some? <==> count < maxTerminals
    ensures r.Some? ==> r.value == count + 1 && r.value <= maxTerminals
  {
    if count < maxTerminals then Some(count + 1) else None
  }

  /** `+10`, stopping at the maximum. */
  function IncrementByTen(count: int, maxTerminals: int): (r: Option<int>)
    ensures r.Some? <==> count < maxTerminals
    ensures r.Some? ==> count < r.value <= maxTerminals
    ensures r.Some? ==> r.value == count + 10 || r.value == maxTerminals
    ensures r.Some? ==> r.value <= count + 10
  {
    if count < maxTerminals then Some(if count + 10 < maxTerminals then count + 10 else maxTerminals) else None
  }

  /** `-1`. */
  function Decrement(count: int, minTerminals: int): (r: Option<int>)
    ensures r.Some? <==> count > minTerminals
    ensures r.Some? ==> r.value == count - 1 && minTerminals <= r.value
  {
    if count > minTerminals then Some(count - 1) else None
  }

  /** `-10`, stopping at the minimum. */
  function DecrementByTen(count: int, minTerminals: int): (r: Option<int>)
    ensures r.Some? <==> count > minTerminals
    ensures r.Some? ==> minTerminals <= r.value < count
    ensures r.Some? ==> r.value == count - 10 || r.value == minTerminals
    ensures r.Some? ==> r.value >= count - 10
  {
    if count > minTerminals then Some(if count - 10 > minTerminals then count - 10 else minTerminals) else None
  }

  predicate InRange(count: int, minTerminals: int, maxTerminals: int) {
    minTerminals <= count <= maxTerminals
  }

  /** From any count inside the bounds, every count a button requests is inside the bounds too. */
  lemma RequestsStayInRange(count: int, minTerminals: int, maxTerminals: int)
    requires InRange(count, minTerminals, maxTerminals)
    ensures var r := Increment(count, maxTerminals); r.Some? ==> InRange(r.value, minTerminals, maxTerminals)
    ensures var r := IncrementByTen(count, maxTerminals); r.Some? ==> InRange(r.value, minTerminals, maxTerminals)
    ensures var r := Decrement(count, minTerminals); r.Some? ==> InRange(r.value, minTerminals, maxTerminals)
    ensures var r := DecrementByTen(count, minTerminals); r.Some? ==> InRange(r.value, minTerminals, maxTerminals)
  {
  }

  /** `+1` followed by `-1` comes back to the starting count. */
  lemma IncrementThenDecrement(count: int, minTerminals: int, maxTerminals: int)
    requires minTerminals <= count < maxTerminals
    ensures Decrement(Increment(count, maxTerminals).value, minTerminals) == Some(count)
  {
  }

  /** `+10` followed by `-10` comes back to the starting count unless the maximum cut the first step short. */
  lemma IncrementByTenThenDecrementByTen(count: int, minTerminals: int, maxTerminals: int)
    requires minTerminals <= count && count + 10 <= maxTerminals
    ensures DecrementByTen(IncrementByTen(count, maxTerminals).value, minTerminals) == Some(count)
  {
  }

  // ---------------------------------------------------------------------
  // Full-screen screenshot button
  // ---------------------------------------------------------------------

  /** What the capture step delivered: an image that was or was not copied to the clipboard, a failure result, or an exception. */
  datatype CaptureOutcome = Captured(copiedToClipboard: bool) | CaptureFailed | CaptureThrew

  /** What the user sees happen; `Downloaded` lists the files saved, in order. */
  datatype ShotEffect = CopiedToClipboard | Downloaded(filenames: seq<string>) | Logged

  /** The file the clipboard helper saves itself whenever it cannot copy. */
  const ClipboardFallbackName := "terminal-screenshot.png"

  /**
   * The effect of a finished capture. A copy that fails has already saved
   * the image once inside the clipboard helper, and the button then saves it
   * again under the file name rule with prefix `all-terminals`: two downloads.
   */
  function ShotEffectOf(outcome: CaptureOutcome, iso: string): (e: ShotEffect)
    ensures e == CopiedToClipboard <==> outcome == Captured(true)
    ensures e.Downloaded? <==> outcome == Captured(false)
    ensures e.Downloaded? ==>
      e.filenames == [ClipboardFallbackName, Screenshot.Filename(Some("all-terminals"), iso)]
    ensures e.Logged? <==> !outcome.Captured?
  {
    match outcome
    case Captured(copied) =>
      if copied then CopiedToClipboard
      else Downloaded([ClipboardFallbackName, Screenshot.Filename(Some("all-terminals"), iso)])
    case _ => Logged
  }

  /** The `isCapturingFullScreen` flag around the asynchronous capture. */
  class FullScreenCapture {
    var isCapturingFullScreen: bool

    constructor ()
      ensures !isCapturingFullScreen
    {
      isCapturingFullScreen := false;
    }

    /** The click: a request made while a capture is in flight is ignored. */
    method Start() returns (started: bool)
      modifies this
      ensures started == !old(isCapturingFullScreen)
      ensures isCapturingFullScreen
    {
      if isCapturingFullScreen {
        started := false;
        return;
      }
      isCapturingFullScreen := true;
      started := true;
    }

    /** The continuation after the capture settles; the flag is cleared whatever the outcome. */
    method Finish(outcome: CaptureOutcome, iso: string) returns (effect: ShotEffect)
      requires isCapturingFullScreen
      modifies this
      ensures effect == ShotEffectOf(outcome, iso)
      ensures !isCapturingFullScreen
    {
      effect := ShotEffectOf(outcome, iso);
      isCapturingFullScreen := false;
    }
  }
}
