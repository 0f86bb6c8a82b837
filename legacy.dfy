/**
 * The superseded synchronous endpoint `POST /api/generate-itinerary`: the
 * same validation, then the whole generation inside one request. It polls
 * the web-search run every 5 s while the run is `running`, `pending` or
 * `in_progress`, at most 12 times; a `completed` run answers with the
 * extracted result, anything else falls through to the plain completion,
 * whose failure is the only 500 after validation.
 */
module LegacyRoute {
  import opened Wrappers
  import opened JsonValue
  import opened Extraction
  import opened Upstream
  import opened RequestValidation

  const MaxAttempts: nat := 12
  const PollIntervalMs: nat := 5000

  /** The run statuses the loop keeps polling on. */
  predicate Waiting(status: string) {
    status == "running" || status == "pending" || status == "in_progress"
  }

  datatype LegacyResponse = ErrorAnswer(code: nat, error: string) | Answer(body: Json)

  /** The status requests made, and the run's text when the final status was `completed` with text. */
  datatype WaitEnd = WaitEnd(attempts: nat, text: Option<string>)

  /** A reply that keeps the loop going. */
  predicate WaitingReply(c: Call<RunReply>) {
    c.Returned? && Waiting(c.value.status)
  }

  /** The poll loop, entered with `attempts` requests made and a waiting status. */
  function WaitLoop(polls: seq<Call<RunReply>>, attempts: nat): (r: WaitEnd)
    requires attempts <= MaxAttempts
    ensures attempts <= r.attempts <= MaxAttempts
    ensures r.text.Some? ==> attempts < r.attempts && ReplyAt(polls, r.attempts - 1) == Returned(RunReply("completed", r.text))
    decreases MaxAttempts - attempts
  {
    if attempts >= MaxAttempts then WaitEnd(attempts, None)
    else match ReplyAt(polls, attempts)
      case Threw(_) => WaitEnd(attempts + 1, None)
      case Returned(reply) =>
        if Waiting(reply.status) then WaitLoop(polls, attempts + 1)
        else if reply.status == "completed" then WaitEnd(attempts + 1, reply.text)
        else WaitEnd(attempts + 1, None)
  }

  /**
   * The loop runs while the status is waiting and fewer than 12 requests
   * were made: every reply before the last one was waiting, and unless the
   * budget ran out the last one was not.
   */
  lemma {:induction false} WaitLoopStops(polls: seq<Call<RunReply>>, attempts: nat)
    requires attempts <= MaxAttempts
    ensures var r := WaitLoop(polls, attempts);
      && (forall k :: attempts <= k < r.attempts - 1 ==> WaitingReply(ReplyAt(polls, k)))
      && (r.attempts < MaxAttempts ==> attempts < r.attempts && !WaitingReply(ReplyAt(polls, r.attempts - 1)))
    decreases MaxAttempts - attempts
  {
    if attempts < MaxAttempts && WaitingReply(ReplyAt(polls, attempts)) {
      WaitLoopStops(polls, attempts + 1);
    }
  }

  /** The catch-all answer for a thrown value. */
  function LegacyFaultMessage(fault: Fault): string {
    match fault
    case HttpFault(m) => "AI21 API error: " + m
    case PlainFault(m) => "Server error: " + m
    case NonErrorFault => "Server error: undefined"
  }

  /** What the route does: its answer, its status requests, and whether it called the plain completion. */
  datatype Outcome = Outcome(response: LegacyResponse, polls: nat, usedFallback: bool)

  /** The route's behaviour as a function of its inputs and the service's replies. */
  function Respond(request: Request, apiKey: Option<string>, script: Script, parse: Parser): (o: Outcome)
    ensures o.polls <= MaxAttempts
  {
    match Validate(request, apiKey)
    case Some(rejection) => Outcome(ErrorAnswer(rejection.code, rejection.error), 0, false)
    case None =>
      var end := if script.submit.Returned? then WaitLoop(script.polls, 0) else WaitEnd(0, None);
      if end.text.Some? then
        Outcome(Answer(Extract(end.text.value, parse)), end.attempts, false)
      else
        Outcome(
          match script.fallback
          case Returned(text) => Answer(Extract(text, parse))
          case Threw(fault) => ErrorAnswer(500, LegacyFaultMessage(fault)),
          end.attempts, true)
  }

  /** The run delivers text at status request `n`, after waiting replies only. */
  ghost predicate WaitDeliversAt(polls: seq<Call<RunReply>>, from: nat, n: nat) {
    && from <= n < MaxAttempts
    && (forall k :: from <= k < n ==> WaitingReply(ReplyAt(polls, k)))
    && ReplyAt(polls, n).Returned? && ReplyAt(polls, n).value.status == "completed" && ReplyAt(polls, n).value.text.Some?
  }

  /** The loop comes back with text exactly when the replies deliver it within the 12 requests. */
  lemma {:induction false} WaitLoopDelivers(polls: seq<Call<RunReply>>, attempts: nat)
    requires attempts <= MaxAttempts
    ensures WaitLoop(polls, attempts).text.Some? <==> exists n :: WaitDeliversAt(polls, attempts, n)
    ensures forall n: nat :: WaitDeliversAt(polls, attempts, n) ==>
              WaitLoop(polls, attempts) == WaitEnd(n + 1, ReplyAt(polls, n).value.text)
    decreases MaxAttempts - attempts
  {
    if attempts < MaxAttempts {
      if WaitingReply(ReplyAt(polls, attempts)) {
        WaitLoopDelivers(polls, attempts + 1);
        forall n | WaitDeliversAt(polls, attempts, n)
          ensures n != attempts && WaitDeliversAt(polls, attempts + 1, n)
        {
        }
        if WaitLoop(polls, attempts).text.Some? {
          var n :| WaitDeliversAt(polls, attempts + 1, n);
          assert WaitDeliversAt(polls, attempts, n);
        }
      } else {
        forall n | WaitDeliversAt(polls, attempts, n) ensures n == attempts {
        }
        if WaitLoop(polls, attempts).text.Some? {
          assert WaitDeliversAt(polls, attempts, attempts);
        }
      }
    }
  }

  /**
   * The dispositions: a rejected request is answered with its rejection and
   * makes no call; the plain completion is called exactly when the run was
   * not submitted or did not deliver text within 12 requests; delivered text
   * is answered from without it; the plain completion's text is extracted,
   * and its failure is the 500 with the AI21 or server message, the only
   * error answer after validation.
   */
  lemma RespondDispositions(request: Request, apiKey: Option<string>, script: Script, parse: Parser)
    ensures var o := Respond(request, apiKey, script, parse);
      && (Validate(request, apiKey).Some? ==>
            o == Outcome(ErrorAnswer(Validate(request, apiKey).value.code, Validate(request, apiKey).value.error), 0, false))
      && (Validate(request, apiKey).None? ==>
            && (o.usedFallback <==> !(script.submit.Returned? && exists n :: WaitDeliversAt(script.polls, 0, n)))
            && (o.usedFallback <==> script.submit.Threw? || WaitLoop(script.polls, 0).text.None?)
            && (o.usedFallback && script.fallback.Threw? ==>
                  o.response == ErrorAnswer(500, LegacyFaultMessage(script.fallback.fault)))
            && (o.usedFallback && script.fallback.Returned? ==>
                  o.response == Answer(Extract(script.fallback.value, parse)))
            && (o.response.ErrorAnswer? ==> o.usedFallback && script.fallback.Threw?))
      && (Validate(request, apiKey).None? && script.submit.Threw? ==> o.polls == 0)
      && (forall n: nat :: Validate(request, apiKey).None? && script.submit.Returned? && WaitDeliversAt(script.polls, 0, n) ==>
            o == Outcome(Answer(Extract(ReplyAt(script.polls, n).value.text.value, parse)), n + 1, false))
  {
    WaitLoopDelivers(script.polls, 0);
  }

  /** A final `completed` reply with text is always taken. */
  lemma {:induction false} WaitLoopCompleted(polls: seq<Call<RunReply>>, attempts: nat)
    requires attempts < MaxAttempts
    ensures var r := WaitLoop(polls, attempts);
      && attempts < r.attempts
      && (forall t :: ReplyAt(polls, r.attempts - 1) == Returned(RunReply("completed", Some(t))) ==> r.text == Some(t))
    decreases MaxAttempts - attempts
  {
    if WaitingReply(ReplyAt(polls, attempts)) && attempts + 1 < MaxAttempts {
      WaitLoopCompleted(polls, attempts + 1);
    }
  }

  /**
   * `POST /api/generate-itinerary` (the synchronous variant), with the
   * service's replies taken from `script` and `JSON.parse` as `parse`.
   */
  method Post(request: Request, apiKey: Option<string>, script: Script, parse: Parser)
    returns (response: LegacyResponse, polls: nat, usedFallback: bool)
    ensures Outcome(response, polls, usedFallback) == Respond(request, apiKey, script, parse)
  {
    polls, usedFallback := 0, false;
    var rejection := Validate(request, apiKey);
    if rejection.Some? {
      return ErrorAnswer(rejection.value.code, rejection.value.error), 0, false;
    }

    var result: Option<Json> := None;
    match script.submit {
      case Threw(_) =>
      case Returned(_) =>
        var runStatus := "running";
        var runResult: Option<string> := None;
        while Waiting(runStatus) && polls < MaxAttempts
          invariant polls <= MaxAttempts
          invariant Waiting(runStatus) ==> WaitLoop(script.polls, polls) == WaitLoop(script.polls, 0)
          invariant !Waiting(runStatus) ==>
            WaitLoop(script.polls, 0) == WaitEnd(polls, if runStatus == "completed" then runResult else None)
          decreases MaxAttempts - polls
        {
          polls := polls + 1;
          match ReplyAt(script.polls, polls - 1) {
            case Threw(_) =>
              break;
            case Returned(reply) =>
              runStatus := reply.status;
              runResult := reply.text;
          }
        }
        if runStatus == "completed" && runResult.Some? {
          result := Some(Extract(runResult.value, parse));
        }
    }
    if result.Some? {
      return Answer(result.value), polls, false;
    }

    usedFallback := true;
    match script.fallback {
      case Returned(completionText) =>
        response := Answer(Extract(completionText, parse));
      case Threw(fault) =>
        response := ErrorAnswer(500, LegacyFaultMessage(fault));
    }
  }
}
