/**
 * The in-memory job store: one process-wide map from job id to job, with
 * create, get, update, delete and an age-based cleanup sweep. Ids come from
 * the caller (fresh, standing for `uuidv4()`) and time is a millisecond clock
 * value passed in (standing for `new Date()`).
 */
module ItineraryStore {
  import opened Wrappers
  import opened JsonValue

  datatype Status = Pending | Processing | Completed | Failed

  /** The auxiliary identifiers the generation task records. */
  datatype Metadata = Metadata(maestroRunId: string)

  datatype Job = Job(
    id: string,
    status: Status,
    prompt: string,
    result: Option<Json>,
    error: Option<string>,
    createdAt: nat,
    updatedAt: nat,
    formData: Option<Json>,
    metadata: Option<Metadata>)

  /**
   * A `Partial<ItineraryJob>`: each field that is `Some` overrides the stored
   * one. `updatedAt` is absent because `updateJob` always overrides it.
   */
  datatype Patch = Patch(
    id: Option<string>,
    status: Option<Status>,
    prompt: Option<string>,
    result: Option<Json>,
    error: Option<string>,
    createdAt: Option<nat>,
    formData: Option<Json>,
    metadata: Option<Metadata>)

  const NoFields := Patch(None, None, None, None, None, None, None, None)

  /** `{ status }` */
  function SetStatus(s: Status): Patch { NoFields.(status := Some(s)) }

  /** `{ metadata: { maestroRunId } }` */
  function RecordRunId(runId: string): Patch { NoFields.(metadata := Some(Metadata(runId))) }

  /** `{ status: 'completed', result }` */
  function Complete(result: Json): Patch { NoFields.(status := Some(Completed), result := Some(result)) }

  /** `{ status: 'failed', error }` */
  function Fail(message: string): Patch { NoFields.(status := Some(Failed), error := Some(message)) }

  /** The object spread `{ ...current, field }` for one field. */
  function Override<T>(current: T, given: Option<T>): (v: T)
    ensures given.Some? ==> v == given.value
    ensures given.None? ==> v == current
  {
    match given
    case Some(x) => x
    case None => current
  }

  /** `{ ...job, ...patch, updatedAt: now }` */
  function Merge(job: Job, patch: Patch, now: nat): (j: Job)
    ensures j.updatedAt == now
    ensures patch == NoFields ==> j == job.(updatedAt := now)
  {
    Job(
      Override(job.id, patch.id),
      Override(job.status, patch.status),
      Override(job.prompt, patch.prompt),
      if patch.result.Some? then patch.result else job.result,
      if patch.error.Some? then patch.error else job.error,
      Override(job.createdAt, patch.createdAt),
      now,
      if patch.formData.Some? then patch.formData else job.formData,
      if patch.metadata.Some? then patch.metadata else job.metadata)
  }

  /** The patch leaves the fields fixed at creation alone. */
  predicate KeepsIdentity(patch: Patch) {
    patch.id.None? && patch.prompt.None? && patch.createdAt.None? && patch.formData.None?
  }

  /**
   * A field the patch names takes the new value, every other field keeps its
   * old value, and `updatedAt` becomes `now`.
   */
  lemma MergeFields(job: Job, patch: Patch, now: nat)
    ensures var j := Merge(job, patch, now);
      && (patch.id.Some? ==> j.id == patch.id.value)
      && (patch.id.None? ==> j.id == job.id)
      && (patch.prompt.Some? ==> j.prompt == patch.prompt.value)
      && (patch.prompt.None? ==> j.prompt == job.prompt)
      && (patch.createdAt.Some? ==> j.createdAt == patch.createdAt.value)
      && (patch.createdAt.None? ==> j.createdAt == job.createdAt)
      && (patch.formData.Some? ==> j.formData == patch.formData)
      && (patch.formData.None? ==> j.formData == job.formData)
      && j.updatedAt == now
      && (patch.status.Some? ==> j.status == patch.status.value)
      && (patch.status.None? ==> j.status == job.status)
      && (patch.result.Some? ==> j.result == patch.result)
      && (patch.result.None? ==> j.result == job.result)
      && (patch.error.Some? ==> j.error == patch.error)
      && (patch.error.None? ==> j.error == job.error)
      && (patch.metadata.Some? ==> j.metadata == patch.metadata)
      && (patch.metadata.None? ==> j.metadata == job.metadata)
      && (KeepsIdentity(patch) ==>
            j.id == job.id && j.prompt == job.prompt && j.createdAt == job.createdAt && j.formData == job.formData)
  {
  }

  /**
   * `updateJob` has no status guard: a finished job can be moved back to
   * `pending`, so forward-only progress is up to the store's callers.
   */
  lemma NoStatusGuard(job: Job, now: nat)
    requires job.status == Completed
    ensures Merge(job, SetStatus(Pending), now).status == Pending
  {
  }

  /** A job is older than `maxAgeMs` at time `now`. */
  predicate Expired(job: Job, now: nat, maxAgeMs: nat) {
    now - job.createdAt > maxAgeMs
  }

  class JobStore {
    var jobs: map<string, Job>

    /** Every job is stored under its own id. */
    ghost predicate Valid()
      reads this
    {
      forall id :: id in jobs ==> jobs[id].id == id
    }

    constructor ()
      ensures jobs == map[] && Valid()
    {
      jobs := map[];
    }

    /** `createJob(prompt, formData)` with `id` the fresh `uuidv4()`. */
    method CreateJob(id: string, prompt: string, formData: Option<Json>, now: nat) returns (job: Job)
      requires id !in jobs
      modifies this
      ensures job == Job(id, Pending, prompt, None, None, now, now, formData, None)
      ensures jobs == old(jobs)[id := job]
      ensures old(Valid()) ==> Valid()
    {
      job := Job(id, Pending, prompt, None, None, now, now, formData, None);
      jobs := jobs[id := job];
    }

    /** `getJob(id)` */
    function GetJob(id: string): (r: Option<Job>)
      reads this
      ensures r.Some? <==> id in jobs
      ensures r.Some? ==> r.value == jobs[id]
    {
      if id in jobs then Some(jobs[id]) else None
    }

    /** `updateJob(id, updates)` */
    method UpdateJob(id: string, patch: Patch, now: nat) returns (r: Option<Job>)
      modifies this
      ensures id !in old(jobs) ==> r == None && jobs == old(jobs)
      ensures id in old(jobs) ==> r == Some(Merge(old(jobs)[id], patch, now))
      ensures id in old(jobs) ==> jobs == old(jobs)[id := r.value]
      ensures old(Valid()) && (patch.id.None? || patch.id == Some(id)) ==> Valid()
    {
      if id !in jobs {
        return None;
      }
      var updated := Merge(jobs[id], patch, now);
      jobs := jobs[id := updated];
      r := Some(updated);
    }

    /** `deleteJob(id)` */
    method DeleteJob(id: string) returns (removed: bool)
      modifies this
      ensures removed <==> id in old(jobs)
      ensures jobs == old(jobs) - {id}
      ensures old(Valid()) ==> Valid()
    {
      removed := id in jobs;
      jobs := jobs - {id};
    }

    /**
     * `cleanupOldJobs(maxAgeHours)`: the `forEach` sweep deletes every job
     * older than the threshold and keeps the others untouched.
     */
    method CleanupOldJobs(now: nat, maxAgeHours: nat := 24)
      modifies this
      ensures forall id :: id in jobs <==> id in old(jobs) && !Expired(old(jobs)[id], now, maxAgeHours * 3600000)
      ensures forall id :: id in jobs ==> jobs[id] == old(jobs)[id]
      ensures old(Valid()) ==> Valid()
    {
      var maxAge := maxAgeHours * 60 * 60 * 1000;
      var unvisited := jobs.Keys;
      while unvisited != {}
        invariant unvisited <= old(jobs).Keys
        invariant forall id :: id in jobs <==>
          id in old(jobs) && (id in unvisited || !Expired(old(jobs)[id], now, maxAge))
        invariant forall id :: id in jobs ==> jobs[id] == old(jobs)[id]
        decreases unvisited
      {
        var id :| id in unvisited;
        if now - jobs[id].createdAt > maxAge {
          jobs := jobs - {id};
        }
        unvisited := unvisited - {id};
      }
    }
  }
}
