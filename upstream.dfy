/**
 * What the two generation routes receive from the generation service: the
 * outcomes of their calls, given up front as a script instead of being
 * performed.
 */
module Upstream {
  import opened Wrappers

  /** A value thrown by a call. */
  datatype Fault =
    | HttpFault(message: string)   // an axios error carrying a non-2xx response
    | PlainFault(message: string)  // any other Error: connection reset, timeout, a TypeError on a malformed body
    | NonErrorFault                // a thrown value that is not an Error

  /** The outcome of one awaited call. */
  datatype Call<+T> = Returned(value: T) | Threw(fault: Fault)

  /**
   * A run-status reply: `status`, and the run's text when the reply carries
   * one as a string (`outputs.text` for the job route, `result` for the
   * synchronous route). `None` is a reply without it; for the job route, a
   * reply without an `outputs` object.
   */
  datatype RunReply = RunReply(status: string, text: Option<string>)

  /**
   * The service's behaviour for one generation: the run submission (its run
   * id), the status replies in order, and the plain completion (its text).
   */
  datatype Script = Script(submit: Call<string>, polls: seq<Call<RunReply>>, fallback: Call<string>)

  /** A reply missing from the script is a dropped connection. */
  const HangUp := Threw(PlainFault("socket hang up"))

  /** The reply to the status request with zero-based number `k`. */
  function ReplyAt(polls: seq<Call<RunReply>>, k: nat): (r: Call<RunReply>)
    ensures k < |polls| ==> r == polls[k]
  {
    if k < |polls| then polls[k] else HangUp
  }
}
