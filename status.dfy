/**
 * The job status endpoint: a read-only lookup of one job, answered with its
 * id, status and timestamps, plus `result` only when it is completed and
 * `error` only when it failed.
 */
module StatusRoute {
  import opened Wrappers
  import opened JsonValue
  import opened ItineraryStore
  import opened RequestValidation
  import StartRoute

  /**
   * The JSON answer. `Snapshot` lists the fields of the 200 answer; a `None`
   * field is a key the answer does not carry.
   */
  datatype StatusResponse =
    | NotOk(code: nat, message: string)
    | Snapshot(jobId: string, status: Status, createdAt: nat, updatedAt: nat, result: Option<Json>, error: Option<string>)

  /** `GET /api/generate-itinerary/status?jobId=…`; `jobId` is the query parameter, if given. */
  function Get(store: JobStore, jobId: Option<string>): (r: StatusResponse)
    reads store
    requires store.Valid()
    ensures !Present(jobId) ==> r == NotOk(400, "Job ID is required")
    ensures Present(jobId) && jobId.value !in store.jobs ==> r == NotOk(404, "Job not found")
    ensures r.Snapshot? <==> Present(jobId) && jobId.value in store.jobs
    ensures r.Snapshot? ==>
      var job := store.jobs[jobId.value];
      && r.jobId == jobId.value && r.status == job.status
      && r.createdAt == job.createdAt && r.updatedAt == job.updatedAt
      && (r.result.Some? ==> r.status == Completed)
      && (r.error.Some? ==> r.status == Failed)
      && (r.status == Completed ==> r.result == job.result)
      && (r.status == Failed ==> r.error == job.error)
  {
    if !Present(jobId) then NotOk(400, "Job ID is required")
    else match store.GetJob(jobId.value)
      case None => NotOk(404, "Job not found")
      case Some(job) =>
        Snapshot(job.id, job.status, job.createdAt, job.updatedAt,
          if job.status == Completed then job.result else None,
          if job.status == Failed then job.error else None)
  }

  /**
   * For a job the generation task has finished, the answer carries `result`
   * exactly when the job completed and `error` exactly when it failed.
   */
  lemma StatusOfFinishedJob(store: JobStore, jobId: string, job: Job, plan: StartRoute.Plan, now: nat)
    requires job.result.None? && job.error.None?
    requires store.Valid()
    requires jobId != "" && jobId in store.jobs && store.jobs[jobId] == StartRoute.Finish(job, plan, now)
    ensures var r := Get(store, Some(jobId));
      && r.Snapshot?
      && (r.result.Some? <==> r.status == Completed)
      && (r.error.Some? <==> r.status == Failed)
      && (r.status == Completed <==> plan.verdict.Done?)
      && (plan.verdict.Done? ==> r.result == Some(plan.verdict.result))
      && (plan.verdict.Broke? ==> r.error == Some(plan.verdict.message))
  {
    StartRoute.FinishedJob(job, plan, now);
  }
}
