/**
 * The TrainingManager of OsAI/training.manager.ts: training jobs in a map keyed by job id, moved
 * from queued to running to completed, or to canceled.
 *
 * Jobs are values: the source mutates the stored job object in place, and the model replaces the
 * stored value instead. `run`, which the source schedules with a timer and which awaits a random
 * delay between its two status changes, is one explicit step.
 */
module Training {
  import opened Common
  import opened OrderedMap
  import opened AiTypes

  /** `Partial<OsAI.TrainingJob>` as `start` reads it. */
  datatype JobRequest = JobRequest(
    id: Option<string>,
    modelId: Option<string>,
    datasetPath: Option<string>,
    metadata: Option<Record>)

  /** An emitted event: its name and the job as it was when emitted. */
  datatype TrainingEvent = TrainingEvent(name: string, job: TrainingJob)

  /**
   * The job `start(req)` creates: the request's id unless it is empty or absent, modelId
   * 'unknown' and datasetPath '' by default, queued, started now and not completed.
   */
  function NewJob(req: JobRequest, freshId: string, now: int): (j: TrainingJob)
    ensures j.id == OrElse(req.id, freshId) && j.modelId == OrElse(req.modelId, "unknown")
    ensures j.datasetPath == OrElse(req.datasetPath, "") && j.metadata == Some(req.metadata.GetOr(map[]))
    ensures j.status == Queued && j.startedAt == now && j.completedAt == None
  {
    TrainingJob(OrElse(req.id, freshId), OrElse(req.modelId, "unknown"), OrElse(req.datasetPath, ""), Queued, now,
                None, Some(req.metadata.GetOr(map[])))
  }

  /** A job ended by `run` at time `now`. */
  function Finished(j: TrainingJob, now: int): TrainingJob {
    j.(status := Completed, completedAt := Some(now))
  }

  /** A job ended by `cancel` at time `now`. */
  function Cancelled(j: TrainingJob, now: int): TrainingJob {
    j.(status := Canceled, completedAt := Some(now))
  }

  /**
   * `run` ignores a prior cancellation: a canceled job that runs ends exactly as if it had never
   * been canceled, completed at the run's time.
   */
  lemma RunOverridesCancel(j: TrainingJob, t1: int, t2: int)
    ensures Finished(Cancelled(j, t1), t2) == Finished(j, t2)
    ensures Finished(Cancelled(j, t1), t2).status == Completed
  {
  }

  class TrainingManager {
    var jobs: OMap<string, TrainingJob>
    /** The events emitted, oldest first. */
    var emitted: seq<TrainingEvent>

    ghost predicate Valid()
      reads this
    {
      jobs.Valid()
    }

    constructor ()
      ensures Valid() && jobs == Empty() && emitted == []
    {
      jobs := Empty();
      emitted := [];
    }

    /** `start(req)`: stores a new queued job under its id, replacing any job with that id, and emits 'training.queued'. */
    method Start(req: JobRequest, freshId: string, now: int) returns (job: TrainingJob)
      requires Valid()
      modifies this
      ensures Valid()
      ensures job == NewJob(req, freshId, now)
      ensures jobs == old(jobs).Set(job.id, job)
      ensures emitted == old(emitted) + [TrainingEvent("training.queued", job)]
    {
      var id := if req.id.Some? && req.id.value != "" then req.id.value else freshId;
      job := TrainingJob(id, OrElse(req.modelId, "unknown"), OrElse(req.datasetPath, ""), Queued, now, None,
                         if req.metadata.Some? then req.metadata else Some(map[]));
      jobs := jobs.Set(id, job);
      emitted := emitted + [TrainingEvent("training.queued", job)];
    }

    /**
     * `run(jobId)`: an unknown id changes nothing; a known job, whatever its status, is marked
     * running ('training.started') and then completed now ('training.completed').
     */
    method Run(jobId: string, now: int)
      requires Valid()
      modifies this
      ensures Valid()
      ensures jobId !in old(jobs.vals) ==> jobs == old(jobs) && emitted == old(emitted)
      ensures jobId in old(jobs.vals) ==>
                var j := old(jobs.vals[jobId]);
                jobs == old(jobs).Set(jobId, Finished(j, now)) &&
                emitted == old(emitted) + [TrainingEvent("training.started", j.(status := Running)),
                                           TrainingEvent("training.completed", Finished(j, now))]
    {
      var found := jobs.Get(jobId);
      if found.None? {
        return;
      }
      var job := found.value.(status := Running);
      emitted := emitted + [TrainingEvent("training.started", job)];
      job := job.(status := Completed, completedAt := Some(now));
      jobs := jobs.Set(jobId, job);
      emitted := emitted + [TrainingEvent("training.completed", job)];
    }

    /** `cancel(jobId)`: false and no change for an unknown id; otherwise the job is canceled now and true is returned. */
    method Cancel(jobId: string, now: int) returns (ok: bool)
      requires Valid()
      modifies this
      ensures Valid()
      ensures ok <==> jobId in old(jobs.vals)
      ensures !ok ==> jobs == old(jobs) && emitted == old(emitted)
      ensures ok ==> jobs == old(jobs).Set(jobId, Cancelled(old(jobs.vals[jobId]), now)) &&
                     emitted == old(emitted) + [TrainingEvent("training.canceled", jobs.vals[jobId])]
    {
      var found := jobs.Get(jobId);
      if found.None? {
        return false;
      }
      var job := found.value.(status := Canceled, completedAt := Some(now));
      jobs := jobs.Set(jobId, job);
      emitted := emitted + [TrainingEvent("training.canceled", job)];
      ok := true;
    }

    /** `list()`: every job, in the order their ids were first stored. */
    function List(): (r: seq<TrainingJob>)
      requires Valid()
      reads this
      ensures |r| == |jobs.keys|
      ensures forall i :: 0 <= i < |r| ==> jobs.keys[i] in jobs.vals && r[i] == jobs.vals[jobs.keys[i]]
      ensures forall id :: id in jobs.vals ==> jobs.vals[id] in r
    {
      jobs.Values()
    }

    /** `get(jobId)`: the job, or undefined. */
    function Get(jobId: string): (r: Option<TrainingJob>)
      reads this
      ensures r.Some? <==> jobId in jobs.vals
      ensures r.Some? ==> r.value == jobs.vals[jobId]
    {
      jobs.Get(jobId)
    }
  }

  /**
   * A started job goes through start, cancel and run: cancel reports true, and run then completes
   * the job all the same, so the stored job ends completed and no longer canceled.
   */
  method StartCancelRun(req: JobRequest, freshId: string, t0: int, t1: int, t2: int)
    returns (canceled: bool, final: Option<TrainingJob>)
    ensures canceled
    ensures final == Some(Finished(NewJob(req, freshId, t0), t2))
    ensures final.value.status == Completed && final.value.completedAt == Some(t2)
  {
    var m := new TrainingManager();
    var job := m.Start(req, freshId, t0);
    canceled := m.Cancel(job.id, t1);
    m.Run(job.id, t2);
    final := m.Get(job.id);
    RunOverridesCancel(job, t1, t2);
  }
}
