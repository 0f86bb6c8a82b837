/**
 * The job initiation endpoint and the background generation task it starts.
 *
 * `Post` validates the request and creates a `pending` job. The generation task is then
 * run as a sequential method: it marks the job `processing`, submits a run to
 * the web-search service and polls it up to 15 times, falls back once to a
 * plain chat completion when the run yields no text, extracts the result and
 * writes exactly one terminal status.
 */
module StartRoute {
  import opened Wrappers
  import opened JsonValue
  import opened Extraction
  import opened ItineraryStore
  import opened Upstream
  import opened RequestValidation

  const MaxAttempts: nat := 15
  const PollIntervalMs: nat := 20000

  const InProgress := "in_progress"
  const RunCompleted := "completed"
  const RunFailed := "failed"

  datatype StartResponse = Rejected(rejection: Rejection) | Started(jobId: string, status: Status)

  /**
   * `POST /api/generate-itinerary/start` up to the point where the generation task is
   * launched; `freshId` stands for `uuidv4()`.
   */
  method Post(store: JobStore, request: Request, apiKey: Option<string>, freshId: string, now: nat)
    returns (response: StartResponse)
    requires freshId !in store.jobs
    modifies store
    ensures Validate(request, apiKey).Some? ==>
              response == Rejected(Validate(request, apiKey).value) && store.jobs == old(store.jobs)
    ensures Validate(request, apiKey).None? ==>
              && response == Started(freshId, Pending)
              && store.jobs == old(store.jobs)[freshId :=
                   Job(freshId, Pending, request.prompt.value, None, None, now, now, request.formData, None)]
    ensures old(store.Valid()) ==> store.Valid()
  {
    var rejection := Validate(request, apiKey);
    if rejection.Some? {
      return Rejected(rejection.value);
    }
    var job := store.CreateJob(freshId, request.prompt.value, request.formData, now);
    response := Started(job.id, job.status);
  }

  /** A status reply saying the run is still going. */
  predicate InProgressReply(c: Call<RunReply>) {
    c.Returned? && c.value.status == InProgress
  }

  /** A status reply saying the run is done, carrying its text. */
  predicate DeliveredReply(c: Call<RunReply>) {
    c.Returned? && c.value.status == RunCompleted && c.value.text.Some?
  }

  /**
   * Where the primary status loop stops: the number of status requests made,
   * and the run's text when the last reply was `completed` and had one.
   */
  datatype PollEnd = PollEnd(attempts: nat, text: Option<string>)

  /** The primary status loop, entered with `attempts` requests made and the run still `in_progress`. */
  function PollLoop(polls: seq<Call<RunReply>>, attempts: nat): (r: PollEnd)
    requires attempts <= MaxAttempts
    ensures attempts <= r.attempts <= MaxAttempts
    ensures r.text.Some? ==> attempts < r.attempts && DeliveredReply(ReplyAt(polls, r.attempts - 1))
    ensures r.text.Some? ==> ReplyAt(polls, r.attempts - 1).value.text == r.text
    decreases MaxAttempts - attempts
  {
    if attempts >= MaxAttempts then PollEnd(attempts, None)
    else match ReplyAt(polls, attempts)
      case Threw(_) => PollEnd(attempts + 1, None)
      case Returned(reply) =>
        if reply.status == InProgress then PollLoop(polls, attempts + 1)
        else if reply.status == RunCompleted then PollEnd(attempts + 1, reply.text)
        else PollEnd(attempts + 1, None)
  }

  /**
   * The loop polls while the replies say `in_progress`: every reply before
   * the last one did, and unless the budget ran out the last one did not.
   */
  lemma {:induction false} PollLoopStops(polls: seq<Call<RunReply>>, attempts: nat)
    requires attempts <= MaxAttempts
    ensures var r := PollLoop(polls, attempts);
      && (forall k :: attempts <= k < r.attempts - 1 ==> InProgressReply(ReplyAt(polls, k)))
      && (r.attempts < MaxAttempts ==> attempts < r.attempts && !InProgressReply(ReplyAt(polls, r.attempts - 1)))
    decreases MaxAttempts - attempts
  {
    if attempts < MaxAttempts && InProgressReply(ReplyAt(polls, attempts)) {
      PollLoopStops(polls, attempts + 1);
    }
  }

  /** The run delivers text at status request `n`, after `in_progress` replies only. */
  ghost predicate DeliversAt(polls: seq<Call<RunReply>>, from: nat, n: nat) {
    && from <= n < MaxAttempts
    && (forall k :: from <= k < n ==> InProgressReply(ReplyAt(polls, k)))
    && DeliveredReply(ReplyAt(polls, n))
  }

  /** The primary run yields text within the attempt budget. */
  ghost predicate PrimaryDelivers(polls: seq<Call<RunReply>>) {
    exists n :: DeliversAt(polls, 0, n)
  }

  /** The loop comes back with text exactly when the replies deliver it in time. */
  lemma {:induction false} PollLoopDelivers(polls: seq<Call<RunReply>>, attempts: nat)
    requires attempts <= MaxAttempts
    ensures PollLoop(polls, attempts).text.Some? <==> exists n :: DeliversAt(polls, attempts, n)
    ensures forall n: nat :: DeliversAt(polls, attempts, n) ==>
              PollLoop(polls, attempts) == PollEnd(n + 1, ReplyAt(polls, n).value.text)
    decreases MaxAttempts - attempts
  {
    if attempts < MaxAttempts {
      var c := ReplyAt(polls, attempts);
      if InProgressReply(c) {
        PollLoopDelivers(polls, attempts + 1);
        forall n | DeliversAt(polls, attempts, n)
          ensures n != attempts && DeliversAt(polls, attempts + 1, n)
        {
        }
        if PollLoop(polls, attempts).text.Some? {
          var n :| DeliversAt(polls, attempts + 1, n);
          assert DeliversAt(polls, attempts, n);
        }
      } else {
        forall n | DeliversAt(polls, attempts, n) ensures n == attempts {
        }
        if PollLoop(polls, attempts).text.Some? {
          assert DeliversAt(polls, attempts, attempts);
        }
      }
    }
  }

  /** Fifteen `in_progress` replies exhaust the budget: fifteen requests, no text. */
  lemma {:induction false} PollLoopExhausted(polls: seq<Call<RunReply>>, attempts: nat)
    requires attempts <= MaxAttempts
    requires forall k :: attempts <= k < MaxAttempts ==> InProgressReply(ReplyAt(polls, k))
    ensures PollLoop(polls, attempts) == PollEnd(MaxAttempts, None)
    decreases MaxAttempts - attempts
  {
    if attempts < MaxAttempts {
      PollLoopExhausted(polls, attempts + 1);
    }
  }

  /** How the generation task ends: completed with a payload, or failed with a message. */
  datatype Verdict = Done(result: Json) | Broke(message: string)

  /**
   * What the generation task does for a script: the run id it records, the number of
   * status requests, the primary text if any, whether it called the plain
   * completion, and its verdict.
   */
  datatype Plan = Plan(runId: Option<string>, polls: nat, primaryText: Option<string>, usedFallback: bool, verdict: Verdict)

  /** `error instanceof Error ? error.message : 'Unknown error'` */
  function FaultMessage(fault: Fault): string {
    match fault
    case HttpFault(m) => m
    case PlainFault(m) => m
    case NonErrorFault => "Unknown error"
  }

  /** How the generation task ends once the primary run is over: the run's text, else the plain completion. */
  function Judge(primaryText: Option<string>, fallback: Call<string>, parse: Parser): (v: Verdict)
    ensures v.Broke? <==> primaryText.None? && fallback.Threw?
  {
    if primaryText.Some? then Done(Extract(primaryText.value, parse))
    else match fallback
      case Returned(text) => Done(Extract(text, parse))
      case Threw(fault) => Broke(FaultMessage(fault))
  }

  /** The generation task's behaviour as a function of the service's replies. */
  function TaskPlan(script: Script, parse: Parser): (p: Plan)
    ensures p.polls <= MaxAttempts
    ensures p.runId.Some? <==> script.submit.Returned?
  {
    var runId := if script.submit.Returned? then Some(script.submit.value) else None;
    var end := if script.submit.Returned? then PollLoop(script.polls, 0) else PollEnd(0, None);
    Plan(runId, end.attempts, end.text, end.text.None?, Judge(end.text, script.fallback, parse))
  }

  /**
   * The two-tier strategy: the plain completion is called exactly when the
   * run was not submitted or did not deliver text within 15 polls; only a
   * completion that throws fails the job; delivered text is extracted.
   */
  lemma TaskOutcome(script: Script, parse: Parser)
    ensures var p := TaskPlan(script, parse);
      && (p.usedFallback <==> !(script.submit.Returned? && PrimaryDelivers(script.polls)))
      && (p.verdict.Broke? <==> p.usedFallback && script.fallback.Threw?)
      && (p.verdict.Broke? ==> p.verdict.message == FaultMessage(script.fallback.fault))
      && (p.usedFallback && script.fallback.Returned? ==> p.verdict == Done(Extract(script.fallback.value, parse)))
      && (forall n: nat :: script.submit.Returned? && DeliversAt(script.polls, 0, n) ==>
            p.polls == n + 1 && p.verdict == Done(Extract(ReplyAt(script.polls, n).value.text.value, parse)))
  {
    PollLoopDelivers(script.polls, 0);
  }

  /** The run is submitted but says `in_progress` to every one of the 15 polls. */
  lemma NeverFinishingRun(script: Script, parse: Parser)
    requires script.submit.Returned?
    requires forall k :: 0 <= k < MaxAttempts ==> InProgressReply(ReplyAt(script.polls, k))
    ensures TaskPlan(script, parse).polls == MaxAttempts
    ensures TaskPlan(script, parse).usedFallback
  {
    PollLoopExhausted(script.polls, 0);
  }

  /** The store update that ends the generation task. */
  function Conclude(v: Verdict): Patch {
    match v
    case Done(result) => Complete(result)
    case Broke(message) => Fail(message)
  }

  /**
   * The job after the generation task's writes, in order: `processing`, the run id if
   * the run was submitted, and one terminal status.
   */
  function Finish(job: Job, plan: Plan, now: nat): Job {
    Merge(Tag(job, plan.runId, now), Conclude(plan.verdict), now)
  }

  /** The job after the writes made before the terminal one. */
  function Tag(job: Job, runId: Option<string>, now: nat): Job {
    var started := Merge(job, SetStatus(Processing), now);
    if runId.Some? then Merge(started, RecordRunId(runId.value), now) else started
  }

  /** Only the time of the terminal write shows in the finished job. */
  lemma FinishRestamp(job: Job, plan: Plan, early: nat, now: nat)
    ensures Merge(Tag(job, plan.runId, early), Conclude(plan.verdict), now) == Finish(job, plan, now)
  {
  }

  /**
   * The generation task leaves a job it started fresh in a terminal state with exactly
   * the matching one of `result` and `error`, and keeps its identity.
   */
  lemma FinishedJob(job: Job, plan: Plan, now: nat)
    requires job.result.None? && job.error.None?
    ensures var j := Finish(job, plan, now);
      && (j.status == Completed || j.status == Failed)
      && (j.status == Completed <==> plan.verdict.Done?)
      && (j.result.Some? <==> j.status == Completed)
      && (j.error.Some? <==> j.status == Failed)
      && (plan.verdict.Done? ==> j.result == Some(plan.verdict.result))
      && (plan.verdict.Broke? ==> j.error == Some(plan.verdict.message))
      && (plan.runId.Some? ==> j.metadata == Some(Metadata(plan.runId.value)))
      && j.id == job.id && j.prompt == job.prompt && j.createdAt == job.createdAt && j.formData == job.formData
      && j.updatedAt == now
  {
  }

  /**
   * The primary status loop of `generateItinerary`: poll while the run says
   * `in_progress`, at most 15 times, stopping on `completed` (taking its
   * text), on `failed`, on any other status, or on a thrown request.
   */
  method PollPrimary(polls: seq<Call<RunReply>>) returns (attempts: nat, text: Option<string>)
    ensures PollEnd(attempts, text) == PollLoop(polls, 0)
  {
    attempts := 0;
    text := None;
    var runStatus := InProgress;
    var resultText: Option<string> := Some("");
    while runStatus == InProgress
      invariant attempts <= MaxAttempts
      invariant runStatus == InProgress ==> PollLoop(polls, attempts) == PollLoop(polls, 0)
      invariant runStatus != InProgress ==>
                  runStatus != RunCompleted && PollLoop(polls, 0) == PollEnd(attempts, None)
      decreases MaxAttempts - attempts
    {
      if attempts >= MaxAttempts {
        break;
      }
      attempts := attempts + 1;
      match ReplyAt(polls, attempts - 1) {
        case Threw(_) =>
          break;
        case Returned(reply) =>
          runStatus := reply.status;
          if runStatus == RunCompleted {
            resultText := reply.text;
            break;
          } else if runStatus == RunFailed {
            break;
          }
      }
    }
    if runStatus == RunCompleted && resultText.Some? {
      text := resultText;
    }
  }

  /**
   * The first part of `generateItinerary`: mark the job `processing`, submit
   * the run, record its id, and poll it.
   */
  method Launch(store: JobStore, jobId: string, script: Script, start: nat)
    returns (runId: Option<string>, attempts: nat, primaryText: Option<string>)
    modifies store
    ensures runId == (if script.submit.Returned? then Some(script.submit.value) else None)
    ensures var end := if script.submit.Returned? then PollLoop(script.polls, 0) else PollEnd(0, None);
      attempts == end.attempts && primaryText == end.text
    ensures jobId !in old(store.jobs) ==> store.jobs == old(store.jobs)
    ensures jobId in old(store.jobs) ==> store.jobs == old(store.jobs)[jobId := Tag(old(store.jobs)[jobId], runId, start)]
    ensures old(store.Valid()) ==> store.Valid()
  {
    var _ := store.UpdateJob(jobId, SetStatus(Processing), start);
    runId, attempts, primaryText := None, 0, None;
    match script.submit {
      case Threw(_) =>
      case Returned(id) =>
        runId := Some(id);
        var _ := store.UpdateJob(jobId, RecordRunId(id), start);
        attempts, primaryText := PollPrimary(script.polls);
    }
  }

  /**
   * The last part of `generateItinerary`: extract the run's text, or call the
   * plain completion, and write the one terminal status.
   */
  method Settle(store: JobStore, jobId: string, primaryText: Option<string>, fallback: Call<string>, parse: Parser, clock: nat)
    returns (verdict: Verdict)
    modifies store
    ensures verdict == Judge(primaryText, fallback, parse)
    ensures jobId !in old(store.jobs) ==> store.jobs == old(store.jobs)
    ensures jobId in old(store.jobs) ==> store.jobs == old(store.jobs)[jobId := Merge(old(store.jobs)[jobId], Conclude(verdict), clock)]
    ensures old(store.Valid()) ==> store.Valid()
  {
    if primaryText.Some? {
      verdict := Done(Extract(primaryText.value, parse));
      var _ := store.UpdateJob(jobId, Complete(verdict.result), clock);
    } else {
      match fallback {
        case Returned(completionText) =>
          verdict := Done(Extract(completionText, parse));
          var _ := store.UpdateJob(jobId, Complete(verdict.result), clock);
        case Threw(fault) =>
          verdict := Broke(FaultMessage(fault));
          var _ := store.UpdateJob(jobId, Fail(verdict.message), clock);
      }
    }
  }

  /**
   * `generateItinerary(jobId, prompt, apiKey)`, with the service's replies
   * taken from `script`, `JSON.parse` as `parse`, and the clock starting at
   * `start` and advancing 20 s before each status request.
   */
  method GenerateItinerary(store: JobStore, jobId: string, script: Script, parse: Parser, start: nat)
    returns (plan: Plan)
    modifies store
    ensures plan == TaskPlan(script, parse)
    ensures jobId !in old(store.jobs) ==> store.jobs == old(store.jobs)
    ensures jobId in old(store.jobs) ==>
      store.jobs == old(store.jobs)[jobId := Finish(old(store.jobs)[jobId], plan, start + PollIntervalMs * plan.polls)]
    ensures old(store.Valid()) ==> store.Valid()
  {
    var runId, attempts, primaryText := Launch(store, jobId, script, start);
    var clock := start + PollIntervalMs * attempts;
    var verdict := Settle(store, jobId, primaryText, script.fallback, parse, clock);
    plan := Plan(runId, attempts, primaryText, primaryText.None?, verdict);
    if jobId in old(store.jobs) {
      FinishRestamp(old(store.jobs)[jobId], plan, start, clock);
    }
  }
}
