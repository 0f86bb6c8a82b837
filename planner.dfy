/**
 * The planner page's submission flow: `handleSubmit` resets the page state,
 * starts a generation job (or shows the built-in sample when the service
 * credential is known to be missing), then `pollJobStatus` polls the job's
 * status until it completes, fails, or a budget runs out.
 *
 * The poller's closure keeps two counters shared by every invocation of
 * `poll`: `pollCount` (at most 15 invocations that reach the network) and
 * `retryCount` (at most 5 retries, shared by "job not found" answers and
 * aborted requests). A `poll` can be invoked in three ways, and where a
 * thrown error lands depends on which:
 *   - `Awaited`: the first poll, awaited by `pollJobStatus`, whose catch
 *     reports "Failed to monitor itinerary generation: …";
 *   - `RetryTry`: a retry after a 404, awaited inside the previous poll's
 *     `try`, whose catch reports "Failed to check generation status: …";
 *   - `Timer`: a poll scheduled with `setTimeout`, whose errors nobody
 *     catches, so the page state stays as it was.
 * A retry after an aborted request is awaited inside the previous poll's
 * `catch`, so its errors land wherever that poll's would.
 */
module VacationPlanner {
  import opened Wrappers
  import opened JsonValue

  const MaxPolls: nat := 15
  const MaxRetries: nat := 5
  const PollIntervalMs: nat := 20000
  const StartDelayMs: nat := 1000
  const MockDelayMs: nat := 2000

  const TimeoutMessage := "Timed out waiting for itinerary generation"
  const RepeatedAbortMessage := "Status check timed out repeatedly. Please try again."
  const NotFoundMessage := "Job not found after multiple retries. Please try again."
  const CheckPrefix := "Failed to check generation status: "
  const MonitorPrefix := "Failed to monitor itinerary generation: "
  const GeneratePrefix := "Failed to generate itinerary: "
  const StartTimeoutMessage := "Request timed out. The server might be busy. Please try again in a moment."

  /** The answer to one status request, as the page sees it. */
  datatype StatusReply =
    | Aborted                                  // no answer within 15 s: the request is aborted
    | NotFound                                 // HTTP 404
    | HttpFailure(errorText: string)           // any other non-2xx answer, with its error text
    | Faulted(message: string)                 // the request or the body's parsing threw
    | Reported(status: string, result: Option<Json>, error: Option<string>)  // a 2xx JSON answer

  /** The answer to status request number `k` (zero-based); a request that is never answered is aborted. */
  function StatusReplyAt(replies: seq<StatusReply>, k: nat): (r: StatusReply)
    ensures k < |replies| ==> r == replies[k]
    ensures k >= |replies| ==> r == Aborted
  {
    if k < |replies| then replies[k] else Aborted
  }

  /** The page state the poller and the submission change. */
  datatype Ui = Ui(loading: bool, results: Option<Json>, error: Option<string>, polling: bool, progress: nat)

  /** How a `poll` invocation was started, which decides where its thrown errors land. */
  datatype Caller = Awaited | RetryTry | Timer

  /** The poller closure's state: its two counters, the page state, and the delays waited so far. */
  datatype Poller = Poller(pollCount: nat, retryCount: nat, ui: Ui, waits: seq<nat>)

  /** How a chain of `poll` invocations ended. */
  datatype End =
    | JobCompleted(result: Option<Json>)
    | JobFailed(error: Option<string>)
    | CheckFailed(message: string)
    | Escaped(caller: Caller, message: string)

  /** The final poller state and how the chain ended. */
  datatype Finale = Finale(state: Poller, end: End)

  /** The progress bar after `pollCount` status polls: `min(95, floor(pollCount / 15 * 100))`. */
  function Progress(pollCount: nat): (pct: nat)
    ensures pct <= 95
    ensures pollCount >= MaxPolls ==> pct == 95
  {
    var raw := pollCount * 100 / MaxPolls;
    if raw < 95 then raw else 95
  }

  /** The bar never moves backwards as polls accumulate. */
  lemma ProgressMonotone(a: nat, b: nat)
    requires a <= b
    ensures Progress(a) <= Progress(b)
  {
    var x, y := a * 100, b * 100;
    assert x == 15 * (x / 15) + x % 15;
    assert y == 15 * (y / 15) + y % 15;
  }

  function Pow2(n: nat): (r: nat)
    ensures r >= 1
  {
    if n == 0 then 1 else 2 * Pow2(n - 1)
  }

  /** The wait before the `retry`-th retry after a 404: `min(1000 * 2^(retry-1), 10000)`. */
  function BackoffMs(retry: nat): (d: nat)
    requires retry >= 1
    ensures 1000 <= d <= 10000
  {
    var raw := 1000 * Pow2(retry - 1);
    if raw < 10000 then raw else 10000
  }

  /** The five 404 retries wait 1, 2, 4, 8 and 10 seconds. */
  lemma BackoffSchedule()
    ensures seq(MaxRetries, i requires 0 <= i => BackoffMs(i + 1)) == [1000, 2000, 4000, 8000, 10000]
  {
    assert Pow2(4) == 16;
  }

  /** A `catch` that shows `message`, clears `loading` and `polling`. */
  function Stop(p: Poller, message: string): (q: Poller)
    ensures q.ui.error == Some(message) && !q.ui.loading && !q.ui.polling
    ensures q.ui.results == p.ui.results && q.ui.progress == p.ui.progress
    ensures q.pollCount == p.pollCount && q.retryCount == p.retryCount && q.waits == p.waits
  {
    p.(ui := p.ui.(error := Some(message), loading := false, polling := false))
  }

  /** An error thrown out of a `poll` invocation, handled where that invocation's caller handles it. */
  function Escape(p: Poller, caller: Caller, message: string): (f: Finale)
    ensures f.end == Escaped(caller, message)
    ensures caller == Awaited ==> f.state == Stop(p, MonitorPrefix + message)
    ensures caller == RetryTry ==> f.state == Stop(p, CheckPrefix + message)
    ensures caller == Timer ==> f.state == p
  {
    match caller
    case Awaited => Finale(Stop(p, MonitorPrefix + message), Escaped(caller, message))
    case RetryTry => Finale(Stop(p, CheckPrefix + message), Escaped(caller, message))
    case Timer => Finale(p, Escaped(caller, message))
  }

  /** The poller once `poll` has counted one more request and moved the bar. */
  function Counted(p: Poller): (q: Poller)
    ensures q.pollCount == p.pollCount + 1 && q.retryCount == p.retryCount && q.waits == p.waits
  {
    p.(pollCount := p.pollCount + 1, ui := p.ui.(progress := Progress(p.pollCount + 1)))
  }

  /** What one `poll` invocation leads to: the next invocation it awaits or schedules, or the end of the chain. */
  datatype Step = Next(state: Poller, caller: Caller) | Last(finale: Finale)

  /**
   * One invocation of `poll` started by `caller`: it throws at once when the
   * poll budget is spent, and otherwise counts the poll, moves the bar, and
   * acts on the next status answer in `replies`.
   */
  function PollStep(p: Poller, caller: Caller, replies: seq<StatusReply>): (s: Step)
    ensures p.pollCount >= MaxPolls ==> s == Last(Escape(p, caller, TimeoutMessage))
    ensures p.pollCount < MaxPolls && s.Next? ==>
      && s.state.pollCount == p.pollCount + 1
      && s.state.ui == p.ui.(progress := Progress(s.state.pollCount))
      && p.retryCount <= s.state.retryCount <= p.retryCount + 1
      && (p.retryCount < s.state.retryCount ==> s.state.retryCount <= MaxRetries)
      && |p.waits| <= |s.state.waits| <= |p.waits| + 1 && s.state.waits[..|p.waits|] == p.waits
    ensures p.pollCount < MaxPolls && s.Last? ==>
      && s.finale.state.pollCount == p.pollCount + 1
      && s.finale.state.retryCount == p.retryCount
      && s.finale.state.waits == p.waits
  {
    if p.pollCount >= MaxPolls then Last(Escape(p, caller, TimeoutMessage))
    else
      var q := Counted(p);
      match StatusReplyAt(replies, p.pollCount)
      case NotFound =>
        if q.retryCount < MaxRetries then
          var retry := q.retryCount + 1;
          Next(q.(retryCount := retry, waits := q.waits + [BackoffMs(retry)]), RetryTry)
        else
          Last(Finale(Stop(q, CheckPrefix + NotFoundMessage), CheckFailed(NotFoundMessage)))
      case HttpFailure(errorText) =>
        var message := "Status check failed: " + errorText;
        Last(Finale(Stop(q, CheckPrefix + message), CheckFailed(message)))
      case Faulted(message) =>
        Last(Finale(Stop(q, CheckPrefix + message), CheckFailed(message)))
      case Aborted =>
        if q.retryCount < MaxRetries then Next(q.(retryCount := q.retryCount + 1), caller)
        else Last(Escape(q, caller, RepeatedAbortMessage))
      case Reported(status, result, error) =>
        if status == "completed" then
          Last(Finale(q.(ui := q.ui.(results := result, loading := false, progress := 100, polling := false)), JobCompleted(result)))
        else if status == "failed" then
          Last(Finale(Stop(q, GeneratePrefix + error.GetOr("undefined")), JobFailed(error)))
        else
          Next(q.(waits := q.waits + [PollIntervalMs]), Timer)
  }

  /** A `Reported` answer that is neither `completed` nor `failed`: the job is still being generated. */
  predicate StillRunning(a: StatusReply) {
    a.Reported? && a.status != "completed" && a.status != "failed"
  }

  /**
   * What each status answer does to a poll within the budget: `completed`
   * shows the result with the bar at 100 and stops; `failed` shows the job's
   * error; any other status schedules the next poll 20 s later on a timer;
   * a 404 retries after the backoff while retries remain, and is otherwise
   * reported; any other non-2xx answer or a thrown check is reported; an
   * aborted request retries at once while retries remain, and otherwise
   * throws to whoever started this poll.
   */
  lemma PollStepAnswers(p: Poller, caller: Caller, replies: seq<StatusReply>)
    requires p.pollCount < MaxPolls
    ensures var a, q, s := StatusReplyAt(replies, p.pollCount), Counted(p), PollStep(p, caller, replies);
      && (a.Reported? && a.status == "completed" ==>
            s == Last(Finale(q.(ui := q.ui.(results := a.result, loading := false, progress := 100, polling := false)),
                             JobCompleted(a.result))))
      && (a.Reported? && a.status == "failed" ==>
            s == Last(Finale(Stop(q, GeneratePrefix + a.error.GetOr("undefined")), JobFailed(a.error))))
      && (StillRunning(a) ==> s == Next(q.(waits := p.waits + [PollIntervalMs]), Timer))
      && (a == NotFound && p.retryCount < MaxRetries ==>
            s == Next(q.(retryCount := p.retryCount + 1, waits := p.waits + [BackoffMs(p.retryCount + 1)]), RetryTry))
      && (a == NotFound && p.retryCount >= MaxRetries ==>
            s == Last(Finale(Stop(q, CheckPrefix + NotFoundMessage), CheckFailed(NotFoundMessage))))
      && (a.HttpFailure? ==>
            s == Last(Finale(Stop(q, CheckPrefix + ("Status check failed: " + a.errorText)),
                             CheckFailed("Status check failed: " + a.errorText))))
      && (a.Faulted? ==> s == Last(Finale(Stop(q, CheckPrefix + a.message), CheckFailed(a.message))))
      && (a == Aborted && p.retryCount < MaxRetries ==> s == Next(q.(retryCount := p.retryCount + 1), caller))
      && (a == Aborted && p.retryCount >= MaxRetries ==> s == Last(Escape(q, caller, RepeatedAbortMessage)))
  {
  }

  /**
   * One invocation of `poll` started by `caller`, followed by everything it
   * awaits or schedules, with the status answers taken from `replies`.
   */
  function Run(p: Poller, caller: Caller, replies: seq<StatusReply>): (f: Finale)
    requires p.pollCount <= MaxPolls
    ensures p.pollCount <= f.state.pollCount <= MaxPolls
    ensures p.retryCount <= f.state.retryCount
    ensures p.retryCount <= MaxRetries ==> f.state.retryCount <= MaxRetries
    ensures |p.waits| <= |f.state.waits| && f.state.waits[..|p.waits|] == p.waits
    ensures f.state.pollCount == p.pollCount ==> f == Escape(p, caller, TimeoutMessage)
    decreases MaxPolls - p.pollCount
  {
    match PollStep(p, caller, replies)
    case Last(f) => f
    case Next(q, next) => Run(q, next, replies)
  }

  /** The page while a poll chain is in flight: spinner on, no outcome yet, the bar at the poll count. */
  predicate InFlight(p: Poller) {
    p.ui.loading && p.ui.polling && p.ui.error.None? && p.ui.results.None? && p.ui.progress == Progress(p.pollCount)
  }

  /** The page a chain that ended with `end` after `pollCount` polls shows, unless its error went uncaught. */
  function Display(end: End, pollCount: nat): (ui: Ui)
    ensures ui.progress == 100 <==> end.JobCompleted?
    ensures ui.loading == ui.polling
    ensures ui.loading <==> end.Escaped? && end.caller == Timer
    ensures ui.loading ==> ui.results.None? && ui.error.None?
    ensures end.JobCompleted? ==> ui.results == end.result && ui.error.None?
    ensures !end.JobCompleted? && !ui.loading ==> ui.results.None? && ui.error.Some?
  {
    var stopped := Ui(false, None, None, false, Progress(pollCount));
    match end
    case JobCompleted(result) => Ui(false, result, None, false, 100)
    case JobFailed(error) => stopped.(error := Some(GeneratePrefix + error.GetOr("undefined")))
    case CheckFailed(message) => stopped.(error := Some(CheckPrefix + message))
    case Escaped(Awaited, message) => stopped.(error := Some(MonitorPrefix + message))
    case Escaped(RetryTry, message) => stopped.(error := Some(CheckPrefix + message))
    case Escaped(Timer, _) => Ui(true, None, None, true, Progress(pollCount))
  }

  /**
   * Settle or stay silent: a chain started in flight ends with the page
   * showing the result (bar at 100), or an error message with the spinner
   * off, except when the error escapes a poll started by a timer: that
   * error is never caught, and the page keeps spinning with no message.
   */
  lemma {:induction false} RunSettles(p: Poller, caller: Caller, replies: seq<StatusReply>)
    requires p.pollCount <= MaxPolls && InFlight(p)
    ensures var f := Run(p, caller, replies);
      && f.state.ui == Display(f.end, f.state.pollCount)
      && (f.end.Escaped? ==> f.end.message == TimeoutMessage || f.end.message == RepeatedAbortMessage)
    decreases MaxPolls - p.pollCount
  {
    match PollStep(p, caller, replies)
    case Last(_) =>
    case Next(q, next) => RunSettles(q, next, replies);
  }

  /**
   * A job that is still running for the answers before request `n` and
   * `completed` at request `n`: the chain ends there with the job's result
   * shown, the bar at 100 and the spinner off, after one 20 s wait per
   * running answer.
   */
  lemma {:induction false} RunCompletes(p: Poller, caller: Caller, replies: seq<StatusReply>, n: nat)
    requires p.pollCount <= n < MaxPolls
    requires forall k :: p.pollCount <= k < n ==> StillRunning(StatusReplyAt(replies, k))
    requires StatusReplyAt(replies, n).Reported? && StatusReplyAt(replies, n).status == "completed"
    ensures var f, r := Run(p, caller, replies), StatusReplyAt(replies, n).result;
      && f.end == JobCompleted(r)
      && f.state.ui == p.ui.(results := r, loading := false, progress := 100, polling := false)
      && f.state.pollCount == n + 1
      && f.state.waits == p.waits + seq(n - p.pollCount, _ => PollIntervalMs)
    decreases n - p.pollCount
  {
    if p.pollCount < n {
      var q := Counted(p).(waits := p.waits + [PollIntervalMs]);
      assert PollStep(p, caller, replies) == Next(q, Timer);
      RunCompletes(q, Timer, replies, n);
      assert [PollIntervalMs] + seq(n - q.pollCount, _ => PollIntervalMs) == seq(n - p.pollCount, _ => PollIntervalMs);
    }
  }

  /**
   * A job that is still running for the answers before request `n` and
   * `failed` at request `n`: the chain ends there with the job's error shown
   * and the spinner off, after one 20 s wait per running answer.
   */
  lemma {:induction false} RunFails(p: Poller, caller: Caller, replies: seq<StatusReply>, n: nat)
    requires p.pollCount <= n < MaxPolls
    requires forall k :: p.pollCount <= k < n ==> StillRunning(StatusReplyAt(replies, k))
    requires StatusReplyAt(replies, n).Reported? && StatusReplyAt(replies, n).status == "failed"
    ensures var f, e := Run(p, caller, replies), StatusReplyAt(replies, n).error;
      && f.end == JobFailed(e)
      && f.state.ui == p.ui.(progress := Progress(n + 1), error := Some(GeneratePrefix + e.GetOr("undefined")),
                             loading := false, polling := false)
      && f.state.pollCount == n + 1
      && f.state.waits == p.waits + seq(n - p.pollCount, _ => PollIntervalMs)
    decreases n - p.pollCount
  {
    if p.pollCount < n {
      var q := Counted(p).(waits := p.waits + [PollIntervalMs]);
      assert PollStep(p, caller, replies) == Next(q, Timer);
      RunFails(q, Timer, replies, n);
      assert [PollIntervalMs] + seq(n - q.pollCount, _ => PollIntervalMs) == seq(n - p.pollCount, _ => PollIntervalMs);
    }
  }

  /**
   * An error lands on a timer-started poll only when the chain was started
   * by a timer or some answer said the job was still in progress.
   */
  lemma {:induction false} SilentOnlyAfterScheduling(p: Poller, caller: Caller, replies: seq<StatusReply>)
    requires p.pollCount <= MaxPolls
    ensures var f := Run(p, caller, replies);
      f.end.Escaped? && f.end.caller == Timer ==>
        caller == Timer ||
        exists k :: p.pollCount <= k < f.state.pollCount && StatusReplyAt(replies, k).Reported? &&
          StatusReplyAt(replies, k).status != "completed" && StatusReplyAt(replies, k).status != "failed"
    decreases MaxPolls - p.pollCount
  {
    match PollStep(p, caller, replies)
    case Last(_) =>
    case Next(q, next) =>
      SilentOnlyAfterScheduling(q, next, replies);
      if next == Timer && caller != Timer {
        assert StatusReplyAt(replies, p.pollCount).Reported?;
      }
  }

  /** The `Reported` answer of a job that is still being generated. */
  const StillProcessing := Reported("processing", None, None)

  /**
   * A job that stays `processing`: every remaining poll is scheduled by a
   * timer, so the final "Timed out waiting" error is thrown into nothing,
   * and the page is left spinning at 95 with no message.
   */
  lemma {:induction false} ProcessingUntilTimeout(p: Poller, replies: seq<StatusReply>)
    requires p.pollCount < MaxPolls && InFlight(p)
    requires forall k :: p.pollCount <= k < MaxPolls ==> StatusReplyAt(replies, k) == StillProcessing
    ensures var f := Run(p, Timer, replies);
      && f.end == Escaped(Timer, TimeoutMessage)
      && f.state.pollCount == MaxPolls
      && f.state.ui == Ui(true, None, None, true, 95)
      && |f.state.waits| == |p.waits| + (MaxPolls - p.pollCount)
    decreases MaxPolls - p.pollCount
  {
    var q := p.(pollCount := p.pollCount + 1, ui := p.ui.(progress := Progress(p.pollCount + 1)),
                waits := p.waits + [PollIntervalMs]);
    if q.pollCount < MaxPolls {
      ProcessingUntilTimeout(q, replies);
    }
  }

  /** What starting the job produced. */
  datatype StartReply =
    | StartAborted                    // no answer within 30 s
    | StartFault(message: string)     // the request threw
    | StartRejected(errorText: string)// a non-2xx answer, with its error text
    | StartUnreadable                 // a 2xx answer whose body is not JSON
    | Accepted(jobId: string)         // a 2xx answer with the job id

  /** The page state after a submission, the delays it waited, and how its poll chain ended, if it had one. */
  datatype Submission = Submission(ui: Ui, delays: seq<nat>, end: Option<End>)

  /** The page state before any work of a submission. */
  const Reset := Ui(true, None, None, false, 0)

  /**
   * `handleSubmit`: `hasApiKey` is what the credential probe reported
   * (`None` while it is pending), `mock` the built-in sample itinerary,
   * `start` the start request's outcome, `replies` the status answers.
   */
  function Submit(hasApiKey: Option<bool>, mock: Json, start: StartReply, replies: seq<StatusReply>): (s: Submission)
    ensures s.end.Some? <==> hasApiKey != Some(false) && start.Accepted?
    ensures s.end.Some? ==> |s.delays| >= 1 && s.delays[0] == StartDelayMs
    ensures hasApiKey == Some(false) ==> s.ui.results == Some(mock) && s.ui.error.None? && s.delays == [MockDelayMs]
    ensures s.end.None? ==> !s.ui.loading && !s.ui.polling && s.ui.progress == 0
    ensures s.end.None? && hasApiKey != Some(false) ==> s.ui.error.Some? && s.ui.results.None? && s.delays == []
  {
    if hasApiKey == Some(false) then Submission(Reset.(results := Some(mock), loading := false), [MockDelayMs], None)
    else match start
      case StartAborted => Submission(Reset.(error := Some(StartTimeoutMessage), loading := false), [], None)
      case StartFault(message) => Submission(Reset.(error := Some(GeneratePrefix + message), loading := false), [], None)
      case StartRejected(errorText) =>
        Submission(Reset.(error := Some(GeneratePrefix + "API request failed: " + errorText), loading := false), [], None)
      case StartUnreadable =>
        Submission(Reset.(error := Some(GeneratePrefix + "Failed to parse API response"), loading := false), [], None)
      case Accepted(_) =>
        var f := Run(Poller(0, 0, Reset.(polling := true), []), Awaited, replies);
        Submission(f.state.ui, [StartDelayMs] + f.state.waits, Some(f.end))
  }

  /**
   * After a submission the page shows a result or an error with the spinner
   * off, or the sample itinerary, or it still spins; it still spins only
   * when a timer-started poll's error went uncaught, and then it shows no
   * result and no error. At most 15 status requests are made.
   */
  lemma SubmitSettles(hasApiKey: Option<bool>, mock: Json, start: StartReply, replies: seq<StatusReply>)
    ensures var s := Submit(hasApiKey, mock, start, replies);
      && (s.ui.loading <==> s.end.Some? && s.end.value.Escaped? && s.end.value.caller == Timer)
      && (s.ui.loading ==> s.ui.polling && s.ui.error.None? && s.ui.results.None? && s.ui.progress <= 95)
      && (!s.ui.loading ==> !s.ui.polling)
      && (s.ui.error.Some? ==> s.ui.results.None?)
      && (s.ui.progress == 100 <==> s.end.Some? && s.end.value.JobCompleted?)
      && (s.end.Some? && s.end.value.JobCompleted? ==> s.ui.results == s.end.value.result && s.ui.error.None?)
      && (hasApiKey == Some(false) ==> s.ui.results == Some(mock) && s.end.None?)
      && (hasApiKey != Some(false) && start == StartAborted ==> s.ui.error == Some(StartTimeoutMessage))
      && (hasApiKey != Some(false) && start.StartFault? ==> s.ui.error == Some(GeneratePrefix + start.message))
      && (hasApiKey != Some(false) && start.StartRejected? ==>
            s.ui.error == Some(GeneratePrefix + "API request failed: " + start.errorText))
      && (hasApiKey != Some(false) && start == StartUnreadable ==>
            s.ui.error == Some(GeneratePrefix + "Failed to parse API response"))
      && |s.delays| <= 1 + MaxPolls
  {
    if hasApiKey != Some(false) && start.Accepted? {
      var p := Poller(0, 0, Reset.(polling := true), []);
      RunSettles(p, Awaited, replies);
      WaitsPerPoll(p, Awaited, replies);
    }
  }

  /**
   * An accepted job that is still running for the first `n` answers and
   * then `completed` or `failed`: the page shows the result with the bar at
   * 100, or the job's error, after the 1 s start delay and one 20 s wait per
   * running answer.
   */
  lemma SubmitShowsVerdict(hasApiKey: Option<bool>, mock: Json, jobId: string, replies: seq<StatusReply>, n: nat)
    requires hasApiKey != Some(false) && n < MaxPolls
    requires forall k :: 0 <= k < n ==> StillRunning(StatusReplyAt(replies, k))
    requires StatusReplyAt(replies, n).Reported?
    ensures var s, a := Submit(hasApiKey, mock, Accepted(jobId), replies), StatusReplyAt(replies, n);
      && (a.status == "completed" ==>
            s.ui == Ui(false, a.result, None, false, 100) && s.end == Some(JobCompleted(a.result)))
      && (a.status == "failed" ==>
            s.ui == Ui(false, None, Some(GeneratePrefix + a.error.GetOr("undefined")), false, Progress(n + 1)) &&
            s.end == Some(JobFailed(a.error)))
      && (a.status == "completed" || a.status == "failed" ==>
            s.delays == [StartDelayMs] + seq(n, _ => PollIntervalMs))
  {
    var p := Poller(0, 0, Reset.(polling := true), []);
    if StatusReplyAt(replies, n).status == "completed" {
      RunCompletes(p, Awaited, replies, n);
    } else if StatusReplyAt(replies, n).status == "failed" {
      RunFails(p, Awaited, replies, n);
    }
  }

  /** Every status request is preceded by at most one delay. */
  lemma {:induction false} WaitsPerPoll(p: Poller, caller: Caller, replies: seq<StatusReply>)
    requires p.pollCount <= MaxPolls
    ensures var f := Run(p, caller, replies);
      |f.state.waits| - |p.waits| <= f.state.pollCount - p.pollCount
    decreases MaxPolls - p.pollCount
  {
    match PollStep(p, caller, replies)
    case Last(_) =>
    case Next(q, next) => WaitsPerPoll(q, next, replies);
  }

  /** A job that never leaves `processing` leaves the page spinning at 95 with no message. */
  lemma NeverEndingSpinner(mock: Json, jobId: string)
    ensures var s := Submit(Some(true), mock, Accepted(jobId), seq(MaxPolls, _ => StillProcessing));
      && s.ui == Ui(true, None, None, true, 95)
      && s.end == Some(Escaped(Timer, TimeoutMessage))
      && |s.delays| == 1 + MaxPolls
  {
    var replies := seq(MaxPolls, _ => StillProcessing);
    var p := Poller(0, 0, Reset.(polling := true), []);
    var q := Poller(1, 0, Reset.(polling := true, progress := Progress(1)), [PollIntervalMs]);
    assert StatusReplyAt(replies, 0) == StillProcessing;
    assert [] + [PollIntervalMs] == [PollIntervalMs];
    assert Run(p, Awaited, replies) == Run(q, Timer, replies);
    ProcessingUntilTimeout(q, replies);
  }

  /**
   * A job id the status route never finds: five retries after 1, 2, 4, 8
   * and 10 seconds, then the sixth 404 is reported.
   */
  lemma JobNeverFound(mock: Json, jobId: string)
    ensures var s := Submit(None, mock, Accepted(jobId), seq(6, _ => NotFound));
      && s.ui == Ui(false, None, Some(CheckPrefix + NotFoundMessage), false, Progress(6))
      && s.delays == [StartDelayMs, 1000, 2000, 4000, 8000, 10000]
  {
    var replies := seq(6, _ => NotFound);
    var ui := Reset.(polling := true);
    BackoffSchedule();
    var p0 := Poller(0, 0, ui, []);
    var p1 := Poller(1, 1, ui.(progress := Progress(1)), [1000]);
    var p2 := Poller(2, 2, ui.(progress := Progress(2)), [1000, 2000]);
    var p3 := Poller(3, 3, ui.(progress := Progress(3)), [1000, 2000, 4000]);
    var p4 := Poller(4, 4, ui.(progress := Progress(4)), [1000, 2000, 4000, 8000]);
    var p5 := Poller(5, 5, ui.(progress := Progress(5)), [1000, 2000, 4000, 8000, 10000]);
    assert Run(p0, Awaited, replies) == Run(p1, RetryTry, replies) by {
      assert StatusReplyAt(replies, 0) == NotFound && BackoffMs(1) == 1000;
      assert [] + [1000] == [1000];
    }
    assert Run(p1, RetryTry, replies) == Run(p2, RetryTry, replies) by {
      assert StatusReplyAt(replies, 1) == NotFound && BackoffMs(2) == 2000;
      assert [1000] + [2000] == [1000, 2000];
    }
    assert Run(p2, RetryTry, replies) == Run(p3, RetryTry, replies) by {
      assert StatusReplyAt(replies, 2) == NotFound && BackoffMs(3) == 4000;
      assert [1000, 2000] + [4000] == [1000, 2000, 4000];
    }
    assert Run(p3, RetryTry, replies) == Run(p4, RetryTry, replies) by {
      assert StatusReplyAt(replies, 3) == NotFound && BackoffMs(4) == 8000;
      assert [1000, 2000, 4000] + [8000] == [1000, 2000, 4000, 8000];
    }
    assert Run(p4, RetryTry, replies) == Run(p5, RetryTry, replies) by {
      assert StatusReplyAt(replies, 4) == NotFound && BackoffMs(5) == 10000;
      assert [1000, 2000, 4000, 8000] + [10000] == [1000, 2000, 4000, 8000, 10000];
    }
    var q5 := Poller(6, 5, ui.(progress := Progress(6)), p5.waits);
    assert Run(p5, RetryTry, replies) == Finale(Stop(q5, CheckPrefix + NotFoundMessage), CheckFailed(NotFoundMessage)) by {
      assert StatusReplyAt(replies, 5) == NotFound;
    }
    assert [StartDelayMs] + p5.waits == [StartDelayMs, 1000, 2000, 4000, 8000, 10000];
  }

  /**
   * Status requests that are all aborted: five immediate retries, then the
   * error escapes to `pollJobStatus`'s own catch.
   */
  lemma StatusNeverAnswers(mock: Json, jobId: string)
    ensures var s := Submit(None, mock, Accepted(jobId), []);
      && s.ui == Ui(false, None, Some(MonitorPrefix + RepeatedAbortMessage), false, Progress(6))
      && s.delays == [StartDelayMs]
  {
  }

  /**
   * The retry budget is shared: after five aborted requests, the first 404
   * is already fatal, with no backoff.
   */
  lemma SharedRetryBudget(mock: Json, jobId: string)
    ensures var s := Submit(None, mock, Accepted(jobId), [Aborted, Aborted, Aborted, Aborted, Aborted, NotFound]);
      && s.ui.error == Some(CheckPrefix + NotFoundMessage)
      && s.delays == [StartDelayMs]
  {
  }

  /** The planner page's state. */
  class Planner {
    var loading: bool
    var results: Option<Json>
    var error: Option<string>
    var polling: bool
    var progress: nat

    /** The five state fields as one value. */
    function View(): Ui
      reads this
    {
      Ui(loading, results, error, polling, progress)
    }

    constructor ()
      ensures View() == Ui(false, None, None, false, 0)
    {
      loading, results, error, polling, progress := false, None, None, false, 0;
    }

    /** A `catch` that shows `message` and turns the spinner off. */
    method Halt(message: string)
      modifies this
      ensures View() == old(View()).(error := Some(message), loading := false, polling := false)
    {
      error := Some(message);
      loading := false;
      polling := false;
    }

    /**
     * One invocation of `poll` with the closure's counters `pollCount` and
     * `retryCount`, started by `caller` after the delays `waits`. It ends the
     * chain (`done`), or hands over to the next invocation: a retry after a
     * 404, a retry after an aborted request, or a poll scheduled by a timer.
     */
    method Poll(replies: seq<StatusReply>, pollCount: nat, retryCount: nat, caller: Caller, waits: seq<nat>)
      returns (nextCount: nat, nextRetries: nat, nextCaller: Caller, nextWaits: seq<nat>, done: bool)
      modifies this
      ensures pollCount <= nextCount && (pollCount <= MaxPolls ==> nextCount <= MaxPolls)
      ensures var s := PollStep(Poller(pollCount, retryCount, old(View()), waits), caller, replies);
        && done == s.Last?
        && (s.Last? ==> View() == s.finale.state.ui && nextWaits == s.finale.state.waits)
        && (s.Next? ==> Poller(nextCount, nextRetries, View(), nextWaits) == s.state && nextCaller == s.caller)
    {
      nextCount, nextRetries, nextCaller, nextWaits, done := pollCount, retryCount, caller, waits, true;
      if pollCount >= MaxPolls {
        match caller {
          case Awaited => Halt(MonitorPrefix + TimeoutMessage);
          case RetryTry => Halt(CheckPrefix + TimeoutMessage);
          case Timer =>
        }
        return;
      }
      nextCount := pollCount + 1;
      progress := Progress(nextCount);
      match StatusReplyAt(replies, pollCount) {
        case NotFound =>
          if retryCount < MaxRetries {
            nextRetries := retryCount + 1;
            nextWaits := waits + [BackoffMs(nextRetries)];
            nextCaller, done := RetryTry, false;
          } else {
            Halt(CheckPrefix + NotFoundMessage);
          }
        case HttpFailure(errorText) =>
          Halt(CheckPrefix + ("Status check failed: " + errorText));
        case Faulted(message) =>
          Halt(CheckPrefix + message);
        case Aborted =>
          if retryCount < MaxRetries {
            nextRetries, done := retryCount + 1, false;
          } else {
            match caller {
              case Awaited => Halt(MonitorPrefix + RepeatedAbortMessage);
              case RetryTry => Halt(CheckPrefix + RepeatedAbortMessage);
              case Timer =>
            }
          }
        case Reported(status, result, jobError) =>
          if status == "completed" {
            results := result;
            loading := false;
            progress := 100;
            polling := false;
          } else if status == "failed" {
            Halt(GeneratePrefix + jobError.GetOr("undefined"));
          } else {
            nextWaits := waits + [PollIntervalMs];
            nextCaller, done := Timer, false;
          }
      }
    }

    /** `pollJobStatus`: `poll` invocations, one per iteration, until one ends the chain. */
    method PollJobStatus(replies: seq<StatusReply>) returns (delays: seq<nat>)
      modifies this
      ensures var f := Run(Poller(0, 0, old(View()), []), Awaited, replies);
        View() == f.state.ui && delays == f.state.waits
    {
      ghost var goal := Run(Poller(0, 0, View(), []), Awaited, replies);
      var pollCount, retryCount := 0, 0;
      var caller := Awaited;
      delays := [];
      var done := false;
      while !done
        invariant pollCount <= MaxPolls
        invariant !done ==> Run(Poller(pollCount, retryCount, View(), delays), caller, replies) == goal
        invariant done ==> View() == goal.state.ui && delays == goal.state.waits
        decreases MaxPolls - pollCount + (if done then 0 else 1)
      {
        pollCount, retryCount, caller, delays, done := Poll(replies, pollCount, retryCount, caller, delays);
      }
    }

    /** `handleSubmit`, with the delays it waited, in order. */
    method HandleSubmit(hasApiKey: Option<bool>, mock: Json, start: StartReply, replies: seq<StatusReply>)
      returns (delays: seq<nat>)
      modifies this
      ensures View() == Submit(hasApiKey, mock, start, replies).ui
      ensures delays == Submit(hasApiKey, mock, start, replies).delays
    {
      loading, results, error, polling, progress := true, None, None, false, 0;
      if hasApiKey == Some(false) {
        delays := [MockDelayMs];
        results := Some(mock);
        loading := false;
        return;
      }
      delays := [];
      match start {
        case StartAborted =>
          error := Some(StartTimeoutMessage);
          loading := false;
        case StartFault(message) =>
          error := Some(GeneratePrefix + message);
          loading := false;
        case StartRejected(errorText) =>
          error := Some(GeneratePrefix + "API request failed: " + errorText);
          loading := false;
        case StartUnreadable =>
          error := Some(GeneratePrefix + "Failed to parse API response");
          loading := false;
        case Accepted(_) =>
          polling := true;
          var polled := PollJobStatus(replies);
          delays := [StartDelayMs] + polled;
      }
    }
  }
}
