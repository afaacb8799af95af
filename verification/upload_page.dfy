/** The detection page's client logic (src/pages/DeepfakeDetection.jsx:24-121):
    which chosen files are accepted, the guards that run before an upload,
    the simulated progress bar, and how each outcome of the request lands in
    the page state.  The request's outcome and the number of progress ticks
    before it arrives are inputs. */
module UploadPage {
  import opened Js
  import ServerDiscovery

  /** A file picked in the browser: its MIME type and size in bytes. */
  datatype Picked = Picked(mime: string, size: int)

  /** What the server's JSON reply carries, as far as the page reads it. */
  datatype Body =
    | Json(error: Option<string>)   // any JSON object; `error` is its `error` field
    | NotJson(parseError: string)   // `response.json()` rejects with this message

  /** The page's React state. */
  datatype Page = Page(
    selected: Option<Picked>,
    analyzing: bool,
    result: Option<Body>,
    error: Option<string>,
    progress: int)

  const MaxUploadBytes := 5 * 1024 * 1024
  const NotRunningMessage := "Server is not running. Please start the server with \"npm run server\""
  const NoFileMessage := "Please select an image to analyze"
  const TooLargeMessage := "File size too large. Please select an image under 5MB."
  const AnalysisFailedMessage := "Analysis failed"
  const TimeoutMessage := "Request timed out. Please try again with a smaller file or check your connection."
  const FallbackMessage := "Failed to analyze file. Please try again."

  /** Line 34: a file is accepted when there is one and its type starts with "image/". */
  predicate Acceptable(chosen: Option<Picked>)
    ensures chosen.None? ==> !Acceptable(chosen)
    ensures Acceptable(chosen) <==>
      chosen.Some? && |chosen.value.mime| >= 6 && chosen.value.mime[..6] == "image/"
  {
    chosen.Some? && StartsWith(chosen.value.mime, "image/")
  }

  /** `handleFileUpload`: the new page state, and whether the "valid image"
      alert was shown instead. */
  datatype Selection = Selection(page: Page, alerted: bool)

  function SelectFile(page: Page, chosen: Option<Picked>): (s: Selection)
    ensures s.alerted <==> !Acceptable(chosen)
    ensures s.alerted ==> s.page == page
    ensures !s.alerted ==>
      (s.page.selected == chosen && s.page.result.None? && s.page.error.None? &&
       s.page.progress == 0 && s.page.analyzing == page.analyzing)
  {
    if Acceptable(chosen) then
      Selection(page.(selected := chosen, result := None, error := None, progress := 0), false)
    else
      Selection(page, true)
  }

  /** The type test is a prefix test: "image/png" passes, "text/image" does not. */
  lemma MimeTypeIsPrefixTest()
    ensures Acceptable(Some(Picked("image/png", 10)))
    ensures !Acceptable(Some(Picked("text/image", 10)))
    ensures !Acceptable(None)
  {
    assert "text/image"[..6] != "image/" by { assert "text/image"[0] != "image/"[0]; }
  }

  /** Lines 48-65: the first failing guard's message, or none when the upload
      may go ahead. */
  function Guard(status: ServerDiscovery.Status, selected: Option<Picked>): (m: Option<string>)
    ensures m.None? <==> status == ServerDiscovery.Running && selected.Some? && selected.value.size <= MaxUploadBytes
    ensures status != ServerDiscovery.Running ==> m == Some(NotRunningMessage)
    ensures status == ServerDiscovery.Running && selected.None? ==> m == Some(NoFileMessage)
    ensures status == ServerDiscovery.Running && selected.Some? && selected.value.size > MaxUploadBytes
      ==> m == Some(TooLargeMessage)
  {
    if status != ServerDiscovery.Running then Some(NotRunningMessage)
    else if selected.None? then Some(NoFileMessage)
    else if selected.value.size > MaxUploadBytes then Some(TooLargeMessage)
    else None
  }

  /** The size limit is strict: exactly 5 MiB is sent, one byte more is not. */
  lemma FiveMebibytesPass(mime: string)
    ensures Guard(ServerDiscovery.Running, Some(Picked(mime, 5242880))).None?
    ensures Guard(ServerDiscovery.Running, Some(Picked(mime, 5242881))) == Some(TooLargeMessage)
  {
  }

  /** One tick of the 500 ms progress timer (lines 82-86): it never moves the
      bar back, moves it by at most 5, and stalls exactly from 90 on. */
  function Tick(p: int): (r: int)
    ensures p <= r <= p + 5
    ensures r == p <==> p >= 90
  {
    if p < 90 then p + 5 else p
  }

  /** `n` ticks in a row. */
  function Ticks(p: int, n: nat): (r: int)
    ensures p <= r <= p + 5 * n
    ensures p >= 90 ==> r == p
    decreases n
  {
    if n == 0 then p else Ticks(Tick(p), n - 1)
  }

  /** The values the progress bar can show: a multiple of 5 up to 90 while
      waiting, or 100 once the reply is in. */
  predicate ProgressShape(p: int) {
    (0 <= p <= 90 && p % 5 == 0) || p == 100
  }

  /** A tick keeps the shape and never moves the bar back. */
  lemma TickKeepsShape(p: int)
    requires ProgressShape(p)
    ensures ProgressShape(Tick(p)) && Tick(p) >= p
  {
  }

  /** From a waiting value, `n` ticks reach `min(p + 5n, 90)`. */
  lemma {:induction false} TicksFrom(p: int, n: nat)
    requires 0 <= p <= 90 && p % 5 == 0
    ensures Ticks(p, n) == Min(p + 5 * n, 90)
    decreases n
  {
    if n > 0 {
      TicksFrom(Tick(p), n - 1);
    }
  }

  /** Starting from 0 the bar is at `min(5n, 90)` after `n` ticks: it gets to
      90 at the 18th tick and stays there. */
  lemma ProgressFromZero(n: nat)
    ensures Ticks(0, n) == Min(5 * n, 90)
    ensures n >= 18 ==> Ticks(0, n) == 90
    ensures n < 18 ==> Ticks(0, n) < 90
  {
    TicksFrom(0, n);
  }

  /** Any number of ticks, from any shown value, keeps the shape; so does a
      timer that keeps running after the request is over. */
  lemma {:induction false} TicksKeepShape(p: int, n: nat)
    requires ProgressShape(p)
    ensures ProgressShape(Ticks(p, n)) && Ticks(p, n) >= p
    decreases n
  {
    if n > 0 {
      TickKeepsShape(p);
      TicksKeepShape(Tick(p), n - 1);
    }
  }

  /** How the upload request ended: a reply (its `ok` flag and body), the
      5-minute abort, or another thrown error with its message. */
  datatype Outcome = Replied(ok: bool, body: Body) | TimedOut | Threw(message: string)

  /** `analyzeFile`: the page afterwards, whether a request was sent, and
      whether the progress timer is still running. */
  datatype Attempt = Attempt(page: Page, sent: bool, timerRunning: bool)

  /** The message a failed request leaves in the page (lines 102-117). */
  function FailureMessage(outcome: Outcome): (m: Option<string>)
    ensures outcome.TimedOut? ==> m == Some(TimeoutMessage)
    ensures outcome.Replied? && !outcome.ok && outcome.body.Json? ==>
      m == Some(OrString(outcome.body.error, AnalysisFailedMessage))
    ensures outcome.Replied? && outcome.ok && outcome.body.Json? ==> m.None?
    ensures outcome.Threw? ==> m == Some(OrString(Some(outcome.message), FallbackMessage))
    ensures outcome.Replied? && outcome.body.NotJson? ==>
      m == Some(OrString(Some(outcome.body.parseError), FallbackMessage))
    ensures m.Some? ==> m.value != ""
  {
    match outcome
    case TimedOut => Some(TimeoutMessage)
    case Threw(message) => Some(OrString(Some(message), FallbackMessage))
    case Replied(ok, body) =>
      match body
      case NotJson(parseError) => Some(OrString(Some(parseError), FallbackMessage))
      case Json(error) => if ok then None else Some(OrString(error, AnalysisFailedMessage))
  }

  /** `analyzeFile` with the server status it was given, `ticks` timer ticks
      before the request settles, and the request's outcome. */
  function AnalyzeFile(page: Page, status: ServerDiscovery.Status, ticks: nat, outcome: Outcome): (a: Attempt)
    ensures a.sent <==> Guard(status, page.selected).None?
    ensures !a.sent ==> a.page == page.(error := Guard(status, page.selected)) && !a.timerRunning
    ensures a.sent ==> !a.page.analyzing && a.page.selected == page.selected
    ensures a.sent ==> a.page.error == FailureMessage(outcome)
    ensures a.sent && outcome.Replied? ==> a.page.progress == 100 && !a.timerRunning
    ensures a.sent && !outcome.Replied? ==> a.timerRunning && 0 <= a.page.progress <= 90 && a.page.progress == Min(5 * ticks, 90)
    ensures a.sent ==> ProgressShape(a.page.progress)
    ensures a.sent && outcome.Replied? && outcome.ok && outcome.body.Json? ==> a.page.result == Some(outcome.body)
    ensures a.page.result != page.result ==>
      (a.sent && outcome.Replied? && outcome.ok && a.page.result == Some(outcome.body))
  {
    match Guard(status, page.selected)
    case Some(message) => Attempt(page.(error := Some(message)), false, false)
    case None =>
      var started := page.(analyzing := true, error := None, progress := 0);
      TicksKeepShape(0, ticks);
      ProgressFromZero(ticks);
      var waited := started.(progress := Ticks(0, ticks));
      match outcome
      case Replied(ok, body) =>
        var settled := waited.(progress := 100, analyzing := false, error := FailureMessage(outcome));
        if ok && body.Json? then Attempt(settled.(result := Some(body)), true, false)
        else Attempt(settled, true, false)
      case _ =>
        // the throw skips `clearInterval`, so the timer keeps ticking
        Attempt(waited.(analyzing := false, error := FailureMessage(outcome)), true, true)
  }

  /** A failed request leaves an earlier result on the page: only a good
      reply replaces it. */
  lemma FailureKeepsEarlierResult(page: Page, ticks: nat, outcome: Outcome)
    requires !(outcome.Replied? && outcome.ok && outcome.body.Json?)
    ensures AnalyzeFile(page, ServerDiscovery.Running, ticks, outcome).page.result == page.result
  {
  }

  /** Guards are checked in order: with the server down, no other problem is
      reported. */
  lemma ServerCheckedFirst(page: Page, status: ServerDiscovery.Status, ticks: nat, outcome: Outcome)
    requires status != ServerDiscovery.Running
    ensures AnalyzeFile(page, status, ticks, outcome) == Attempt(page.(error := Some(NotRunningMessage)), false, false)
  {
  }
}
