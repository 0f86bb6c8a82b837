# Travel Wizard generation pipeline, modelled in Dafny

Travel Wizard turns a trip form into a day-by-day itinerary generated by an AI
service (AI21). This project models the part of the application that moves a
generation request from the browser to the service and back:

- **the job store** (`ItineraryStore`): a process-wide map from job id to job,
  with create, get, update (a shallow merge that always refreshes `updatedAt`),
  delete and an age-based sweep. It is a class whose map field the methods
  reassign.
- **result extraction** (`Extraction`): the greedy pattern `\{[\s\S]*\}`. It
  takes the span from the first `{` to the last `}` after it. That span goes to
  `JSON.parse`, and the fallback is `{ textResponse: <whole text> }`.
  `JSON.parse` is a function parameter (`JsonValue.Parser`), not a model of
  JSON.
- **the start route and its background task** (`StartRoute`):
  - `POST /api/generate-itinerary/start` validates the request and creates a
    `pending` job.
  - `generateItinerary` then marks the job `processing` and submits a
    web-search run. It polls the run up to 15 times, 20 s apart, while the run
    says `in_progress`.
  - When no text comes back, it falls back once to a plain chat completion.
  - It writes exactly one terminal status: `completed` with a result, or
    `failed` with a message.
- **the status route** (`StatusRoute`): a read-only view of one job. It
  carries `result` only when the job is completed and `error` only when it
  failed.
- **request validation** (`RequestValidation`): the checks both server routes
  make first (a readable body, a non-empty prompt, a configured credential).
- **the synchronous route** (`LegacyRoute`): the older
  `POST /api/generate-itinerary`. It does the same work inside one request. It
  polls every 5 s, at most 12 times, while the run is `running`, `pending` or
  `in_progress`, and answers with the result or a 500.
- **the planner page** (`VacationPlanner`): `handleSubmit` and
  `pollJobStatus`. The page's React state is the fields of the class
  `Planner`. The poller closure's shared counters are `pollCount` (at most 15)
  and `retryCount` (at most 5, shared by 404 answers and aborted requests). A
  `poll` started from a timer throws into nothing, so its errors never reach
  the page.

The outside world enters as parameters:
- **Service replies** are given up front as a script (`Upstream.Script`,
  `VacationPlanner.StatusReply` lists). A reply missing from a script stands
  for a dropped connection on the server side and for an aborted request on
  the page.
- **The clock** is a millisecond `nat`.
- **Fresh job ids** come from the caller.

Each imperative operation is a method whose `ensures` ties its effect to a
specification function: `TaskPlan`, `Respond`, `Run`/`PollStep` or `Submit`.
The properties the system promises are lemmas about those functions.

## Model

| member | source | states |
|---|---|---|
| Extraction.BraceSpan | src/app/api/generate-itinerary/start/route.ts:245 | the pattern matches iff some `{` precedes some `}`; the span starts at the first `{` and ends at the last `}` |
| Extraction.Match | src/app/api/generate-itinerary/start/route.ts:245-249 | a match exists iff the text has a brace pair; the matched string is exactly the text between the span's bounds, from the first `{` through the last `}` |
| Extraction.Extract | src/app/api/generate-itinerary/start/route.ts:243-291 | text without a brace pair becomes `{textResponse: text}`; otherwise the parse of the match, or `{textResponse: text}` when the parse fails |
| Extraction.ExtractEmbedded | src/app/api/generate-itinerary/start/route.ts:245-259 | a JSON object wrapped in prose with no `{` before it and no `}` after it is recovered exactly |
| ItineraryStore.Merge | src/lib/itineraryStore.ts:44-48 | the merged job always carries the new `updatedAt`; an empty update changes nothing else |
| ItineraryStore.MergeFields | src/lib/itineraryStore.ts:44-48 | each field named by the update takes the new value; every other field keeps its old value |
| ItineraryStore.NoStatusGuard | src/lib/itineraryStore.ts:40-52 | an update can move a completed job back to `pending`: the store does not enforce forward-only status |
| ItineraryStore.JobStore.constructor | src/lib/itineraryStore.ts:18-19 | the store starts empty, with every job stored under its own id |
| ItineraryStore.JobStore.CreateJob | src/lib/itineraryStore.ts:21-34 | a `pending` job with no result, error or metadata is added under the fresh id; no other entry changes |
| ItineraryStore.JobStore.GetJob | src/lib/itineraryStore.ts:36-38 | a job is returned iff the id is stored, and it is the stored job |
| ItineraryStore.JobStore.UpdateJob | src/lib/itineraryStore.ts:40-52 | an unknown id returns nothing and changes nothing; otherwise only that entry becomes the merge, which is returned |
| ItineraryStore.JobStore.DeleteJob | src/lib/itineraryStore.ts:54-56 | reports whether the id was stored; removes exactly that entry |
| ItineraryStore.JobStore.CleanupOldJobs | src/lib/itineraryStore.ts:59-69 | a job survives iff it is no older than `maxAgeHours` hours (strictly older is removed); survivors are unchanged |
| RequestValidation.Validate | src/app/api/generate-itinerary/start/route.ts:12-44 | 400 for an unreadable body, then 400 for a missing or empty prompt, then 500 for a missing credential; no rejection iff all three pass |
| StartRoute.Post | src/app/api/generate-itinerary/start/route.ts:5-59 | a rejected request leaves the store unchanged; otherwise exactly one new `pending` job is stored and its id and status are answered; every job stays stored under its own id |
| StartRoute.PollLoop | src/app/api/generate-itinerary/start/route.ts:198-234 | at most 15 status requests; the loop returns text only when the last reply was `completed` and carried that text |
| StartRoute.PollLoopStops | src/app/api/generate-itinerary/start/route.ts:204-234 | every reply before the last said `in_progress`; unless the budget ran out, the last one did not |
| StartRoute.PollLoopDelivers | src/app/api/generate-itinerary/start/route.ts:204-238 | the loop returns text iff some reply within the budget is `completed` with text after `in_progress` replies only; it then stops right there |
| StartRoute.PollLoopExhausted | src/app/api/generate-itinerary/start/route.ts:202-208 | a run that stays `in_progress` costs exactly 15 requests and yields no text |
| StartRoute.Judge | src/app/api/generate-itinerary/start/route.ts:238-397 | the generation task fails iff the run gave no text and the plain completion threw |
| StartRoute.TaskPlan | src/app/api/generate-itinerary/start/route.ts:163-397 | at most 15 polls; a run id is recorded iff the submission succeeded |
| StartRoute.TaskOutcome | src/app/api/generate-itinerary/start/route.ts:163-397 | the fallback is used iff the run did not deliver text; the job fails iff the fallback threw, with the thrown message; otherwise the extracted text is the result |
| StartRoute.NeverFinishingRun | src/app/api/generate-itinerary/start/route.ts:199-208 | a run that stays `in_progress` for all 15 polls leads to the fallback |
| StartRoute.FinishRestamp | src/lib/itineraryStore.ts:44-48 | the timestamps of the generation task's earlier writes leave no trace in the finished job |
| StartRoute.FinishedJob | src/app/api/generate-itinerary/start/route.ts:72-398 | a fresh job ends `completed` or `failed`, with exactly the matching one of `result` and `error`; the run id is recorded and the identity fields are kept |
| StartRoute.PollPrimary | src/app/api/generate-itinerary/start/route.ts:198-234 | the imperative loop stops where `PollLoop` says, with the same request count and text |
| StartRoute.Launch | src/app/api/generate-itinerary/start/route.ts:75-234 | the job is marked `processing` and, if the run was submitted, tagged with its id; the run is polled as `PollLoop` says; no other entry changes |
| StartRoute.Settle | src/app/api/generate-itinerary/start/route.ts:238-397 | exactly one terminal write, `completed` with the extracted result or `failed` with the message, as `Judge` decides; no other entry changes |
| StartRoute.GenerateItinerary | src/app/api/generate-itinerary/start/route.ts:72-398 | the generation task follows `TaskPlan`; only the job's own entry changes, to its finished state stamped at the last write's time; an unknown id changes nothing; every job stays stored under its own id |
| StatusRoute.Get | src/app/api/generate-itinerary/status/route.ts:4-39 | 400 without a job id, 404 for an unknown one; otherwise the requested id with the job's status and timestamps, with `result` only if completed and `error` only if failed |
| StatusRoute.StatusOfFinishedJob | src/app/api/generate-itinerary/status/route.ts:29-39 | for a job the generation task finished, the answer carries `result` iff the job completed and `error` iff it failed, with the generation task's values |
| LegacyRoute.WaitLoop | src/app/api/generate-itinerary/route.ts:418-441 | at most 12 status requests; text is returned only when the last reply was `completed` and carried it |
| LegacyRoute.WaitLoopStops | src/app/api/generate-itinerary/route.ts:424-441 | every reply before the last was `running`, `pending` or `in_progress`; unless the budget ran out, the last was not |
| LegacyRoute.WaitLoopCompleted | src/app/api/generate-itinerary/route.ts:443-477 | a final `completed` reply with text is always taken |
| LegacyRoute.Respond | src/app/api/generate-itinerary/route.ts:5-569 | the route makes at most 12 status requests |
| LegacyRoute.WaitLoopDelivers | src/app/api/generate-itinerary/route.ts:418-451 | the loop returns text iff some reply within 12 requests is `completed` with text after waiting replies only; it then stops right there |
| LegacyRoute.RespondDispositions | src/app/api/generate-itinerary/route.ts:5-569 | a rejected request is answered with its rejection and makes no call; the fallback is called iff the run was not submitted or did not deliver text in time; delivered text is answered without it; the fallback's text is extracted, and its failure is the 500 with the AI21 or server message, the only error answer after validation |
| LegacyRoute.Post | src/app/api/generate-itinerary/route.ts:5-569 | the imperative route answers, polls and falls back exactly as `Respond` says |
| VacationPlanner.Progress | src/components/VacationPlanner.tsx:175 | the bar never exceeds 95 while polling, and is at 95 once the budget is spent |
| VacationPlanner.ProgressMonotone | src/components/VacationPlanner.tsx:173-175 | more polls never move the bar backwards |
| VacationPlanner.BackoffMs | src/components/VacationPlanner.tsx:191 | a 404 retry waits between 1 and 10 seconds |
| VacationPlanner.BackoffSchedule | src/components/VacationPlanner.tsx:188-196 | the five 404 retries wait 1, 2, 4, 8 and 10 seconds |
| VacationPlanner.Escape | src/components/VacationPlanner.tsx:249-281 | an escaping error is shown as a "monitor" error at the first poll, as a "check" error under a 404 retry, and not at all from a timer poll |
| VacationPlanner.PollStep | src/components/VacationPlanner.tsx:168-271 | a spent budget throws the timeout at once; otherwise one more poll, the bar moved, at most one more retry within the 5, at most one more delay |
| VacationPlanner.PollStepAnswers | src/components/VacationPlanner.tsx:168-262 | `completed` shows the result at 100 and stops; `failed` shows the job's error; any other status schedules a timer poll after 20 s; a 404 retries after the backoff while retries remain, else it is reported; another non-2xx answer shows "Status check failed: …"; an abort retries at once while retries remain, else it throws to the poll's caller |
| VacationPlanner.Run | src/components/VacationPlanner.tsx:168-274 | at most 15 polls and 5 retries in the whole chain; delays only accumulate; a chain that makes no request is the timeout escape |
| VacationPlanner.Display | src/components/VacationPlanner.tsx:223-281 | a completed job shows its result (if any) with the bar at 100; every other ending shows an error with the spinner off, except an escape from a timer poll, which leaves it spinning with neither result nor error |
| VacationPlanner.RunSettles | src/components/VacationPlanner.tsx:168-281 | a chain started in flight ends with the page in exactly the state its ending calls for; the only escaping errors are the timeout and the repeated-abort error |
| VacationPlanner.RunCompletes | src/components/VacationPlanner.tsx:223-248 | a job still running before request n and `completed` at n ends the chain there with its result shown, the bar at 100, the spinner off, after one 20 s wait per running answer |
| VacationPlanner.RunFails | src/components/VacationPlanner.tsx:232-248 | a job still running before request n and `failed` at n ends the chain there with "Failed to generate itinerary: <error>" shown and the spinner off, after one 20 s wait per running answer |
| VacationPlanner.SilentOnlyAfterScheduling | src/components/VacationPlanner.tsx:240-248 | an error lands on a timer poll only if the chain was started by a timer or some answer said the job was still running |
| VacationPlanner.ProcessingUntilTimeout | src/components/VacationPlanner.tsx:169-170 | a job that stays `processing` uses the whole poll budget; the final timeout is silent; the page spins at 95 |
| VacationPlanner.Submit | src/components/VacationPlanner.tsx:40-156 | a poll chain runs iff the credential is not known missing and the job was accepted, and starts after the 1 s delay; without a key the sample is shown after 2 s; a start that failed shows an error, no result, and no spinner |
| VacationPlanner.SubmitSettles | src/components/VacationPlanner.tsx:40-156 | after a submission, the page spins iff a timer poll's error went uncaught; a result and an error never show together; the bar is 100 iff the job completed; the sample is shown without a key; each failed start shows its own message (timeout, thrown error, rejected request, unparsable answer); at most 16 delays |
| VacationPlanner.SubmitShowsVerdict | src/components/VacationPlanner.tsx:127-248 | an accepted job that runs for n answers and then completes or fails shows its result at 100, or its error, after the 1 s delay and n waits of 20 s |
| VacationPlanner.WaitsPerPoll | src/components/VacationPlanner.tsx:188-247 | every status request is preceded by at most one delay |
| VacationPlanner.NeverEndingSpinner | src/components/VacationPlanner.tsx:240-248 | a job that never leaves `processing` leaves the page spinning at 95 with no message, after 16 delays |
| VacationPlanner.JobNeverFound | src/components/VacationPlanner.tsx:186-207 | six 404 answers show "Job not found after multiple retries" after the 1/2/4/8/10 s backoff |
| VacationPlanner.StatusNeverAnswers | src/components/VacationPlanner.tsx:249-262 | six aborted status requests show "Status check timed out repeatedly" through the first poll's handler |
| VacationPlanner.SharedRetryBudget | src/components/VacationPlanner.tsx:165-166 | after five aborted requests the first 404 is already fatal, with no backoff |
| VacationPlanner.Planner.constructor | src/components/VacationPlanner.tsx:11-18 | the page starts idle: not loading, no result or error, not polling, bar at 0 |
| VacationPlanner.Planner.Halt | src/components/VacationPlanner.tsx:267-269 | a handled error shows its message and turns loading and polling off; nothing else changes |
| VacationPlanner.Planner.Poll | src/components/VacationPlanner.tsx:168-271 | one `poll` invocation changes the page and hands over exactly as `PollStep` says |
| VacationPlanner.Planner.PollJobStatus | src/components/VacationPlanner.tsx:159-282 | the page ends in the state `Run` computes, after the delays it lists |
| VacationPlanner.Planner.HandleSubmit | src/components/VacationPlanner.tsx:40-156 | the page ends in the state `Submit` computes, after the delays it lists |

## Left out

- HTTP framing, request headers, logging, the debug text and every `console` call are not modelled; they carry no state the routes read back.
- The prompt templates (the structured prompt on the server, the short prompt on the page) are not modelled; they only shape the text sent to the service.
- `JSON.parse` is the `parse` parameter, and JSON numbers are integers; parsing and number formatting are outside the model.
- StartRoute.GenerateItinerary: runs as one sequential method after `Post`; the interleaving of the background task with status requests is not modelled.
- StartRoute.GenerateItinerary: the clock advances 20 s before each status request and does not move otherwise; the durations of the service calls are not modelled.
- ItineraryStore.JobStore.CreateJob: `createdAt` and `updatedAt` come from one clock reading; the source reads the clock twice.
- RequestValidation.Validate: a request body that is JSON `null` is not modelled. Destructuring it throws a TypeError, so the start route answers 500 "Failed to start itinerary generation: …" and the synchronous route 500 "Server error: …", with the engine's message. The model's `Body` is a parsed object.
- The 500 catch-all of the status route is not modelled; no input of the model throws into it.
- The page's outer catch in `handleSubmit` is not modelled; the inner handlers catch everything first.
- A `completed` run reply whose `outputs.text` is present, not `null` and not a string is not modelled. The job route then stores `{textResponse: <that value>}`. A missing `outputs` object, or a missing or `null` text, throws (at the read of `outputs.text` or of its `length`) and leads to the fallback; the model's `RunReply` text `None` stands for those.
- A plain completion whose content is not a string is not modelled; completions are strings or thrown faults.
- The synchronous route's `if (result)` test is taken to pass whenever extraction ran: a successful parse of a `{…}` string is an object, and objects are truthy.
- The `error.code` branches after a failed run submission only log, so they are not modelled.
- The credential probe (`/api/test-env`) is the `hasApiKey` parameter; the sample itinerary is the `mock` parameter.
- The 30 s abort of the start request and the 15 s abort of each status request are replies (`StartAborted`, `Aborted`), not timers.
- The error text the page builds from a non-2xx JSON answer (its `error` field, or the JSON text) is given as one string per answer (`StartRejected`, `HttpFailure`). A non-2xx answer whose body is not JSON makes the page's second read of the body throw a TypeError; such answers are `StartFault` and `Faulted` inputs with that message.
- VacationPlanner.Progress: computes `min(95, pollCount * 100 / 15)` in integers; the double-precision rounding of `Math.floor((pollCount / 15) * 100)` is not modelled.
- The progress captions and the rest of the rendering are not modelled.
