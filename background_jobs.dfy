/** The post-execution transition of a background job: after a job has run,
    the handler loads its record from the job store, updates the counters and
    the status in place (later assignments overriding earlier ones), asks the
    scheduler to remove the job when it is abandoned or has used up its run
    budget, and writes the record back exactly once. */
module BackgroundJobs {
  import opened Common

  datatype JobType = Once | Recurring

  datatype JobStatus = Ready | Running | Completed | Stopped

  /** A snapshot of the fields of a job record that the handler reads or writes. */
  datatype JobRecord = JobRecord(
    key: string,
    jobType: JobType,
    status: JobStatus,
    triggerCount: int,
    tryCount: int,
    maxTryCount: int,
    maxCount: int,
    isAbandoned: bool,
    nextRunTime: Option<Time>,
    lastRunTime: Option<Time>,
    result: Option<string>)

  /** The event data of one finished execution; `exception` holds the
      message of the exception the job threw, if it threw one. */
  datatype JobEventData = JobEventData(
    key: string,
    nextRunTime: Option<Time>,
    lastRunTime: Option<Time>,
    result: Option<string>,
    exception: Option<string>)

  // ---------------------------------------------------------------------------
  // The transition, stated as a decision table rather than as a sequence of
  // overriding assignments.
  // ---------------------------------------------------------------------------

  predicate Failed(data: JobEventData) {
    data.exception.Some?
  }

  /** The failure pushes the try count past the retry budget. */
  predicate Abandons(job: JobRecord, data: JobEventData) {
    Failed(data) && job.tryCount + 1 > job.maxTryCount
  }

  /** This execution pushes the trigger count past a positive run budget. */
  predicate ReachesCountLimit(job: JobRecord) {
    job.maxCount > 0 && job.triggerCount + 1 > job.maxCount
  }

  /** The final status: the count limit wins over abandonment, abandonment
      over a plain failure, a failure over one-shot completion. */
  function FinalStatus(job: JobRecord, data: JobEventData): JobStatus {
    if ReachesCountLimit(job) then Completed else StatusBeforeLimit(job, data)
  }

  /** The status before the count-limit check overrides it. */
  function StatusBeforeLimit(job: JobRecord, data: JobEventData): JobStatus {
    if Abandons(job, data) then Stopped
    else if Failed(data) then Running
    else if job.jobType == Once then Completed
    else job.status
  }

  /** The record the handler stores for `job` after the execution `data`. */
  function Executed(job: JobRecord, data: JobEventData): (r: JobRecord)
    // identity, type and budgets are never touched
    ensures r.key == job.key && r.jobType == job.jobType
    ensures r.maxTryCount == job.maxTryCount && r.maxCount == job.maxCount
    // bookkeeping
    ensures r.triggerCount == job.triggerCount + 1
    ensures r.nextRunTime == data.nextRunTime && r.lastRunTime == data.lastRunTime
    // success: no reset of the retry state, and the result is copied
    ensures !Failed(data) ==>
      r.tryCount == job.tryCount && r.isAbandoned == job.isAbandoned && r.result == data.result
    ensures !Failed(data) && job.jobType == Once ==> r.status == Completed
    ensures !Failed(data) && job.jobType != Once && !ReachesCountLimit(job) ==> r.status == job.status
    // failure: one more try, the message becomes the result
    ensures Failed(data) ==> r.tryCount == job.tryCount + 1 && r.result == data.exception
    ensures Failed(data) && !Abandons(job, data) && !ReachesCountLimit(job) ==> r.status == Running
    ensures Failed(data) && !Abandons(job, data) ==> r.isAbandoned == job.isAbandoned
    ensures Abandons(job, data) ==> r.isAbandoned
    ensures Abandons(job, data) && !ReachesCountLimit(job) ==> r.status == Stopped
    // the count limit overrides everything else
    ensures ReachesCountLimit(job) ==> r.status == Completed
  {
    job.(
      triggerCount := job.triggerCount + 1,
      nextRunTime := data.nextRunTime,
      lastRunTime := data.lastRunTime,
      tryCount := if Failed(data) then job.tryCount + 1 else job.tryCount,
      result := if Failed(data) then data.exception else data.result,
      isAbandoned := job.isAbandoned || Abandons(job, data),
      status := FinalStatus(job, data))
  }

  /** The records handed to the scheduler's removal, in call order: the
      abandoned record (still `Stopped`), then the record that hit the
      count limit (`Completed`). */
  function Removals(job: JobRecord, data: JobEventData): (rs: seq<JobRecord>)
    ensures |rs| == (if Abandons(job, data) then 1 else 0) + (if ReachesCountLimit(job) then 1 else 0)
    ensures rs == [] <==> !Abandons(job, data) && !ReachesCountLimit(job)
    ensures |rs| == 2 <==> Abandons(job, data) && ReachesCountLimit(job)
    ensures Abandons(job, data) ==>
      rs[0].status == Stopped && rs[0].isAbandoned && rs[0].tryCount == job.tryCount + 1
    ensures ReachesCountLimit(job) ==> rs[|rs| - 1] == Executed(job, data)
    ensures forall i :: 0 <= i < |rs| ==> rs[i].key == job.key
  {
    var done := Executed(job, data);
    (if Abandons(job, data) then [done.(status := Stopped)] else [])
      + (if ReachesCountLimit(job) then [done] else [])
  }

  /** A failing one-shot job is not completed: the failure branch resets the
      status to `Running` after the one-shot branch set it to `Completed`. */
  lemma FailingOnceJobKeepsRunning(job: JobRecord, data: JobEventData)
    requires job.jobType == Once && Failed(data)
    requires job.tryCount + 1 <= job.maxTryCount && job.maxCount == 0
    ensures Executed(job, data).status == Running
    ensures Removals(job, data) == []
  {
  }

  /** A successful one-shot job without a run budget ends `Completed`, and
      the scheduler is not asked to remove it. */
  lemma SucceedingOnceJobCompletesWithoutRemoval(job: JobRecord, data: JobEventData)
    requires job.jobType == Once && !Failed(data) && job.maxCount == 0
    ensures Executed(job, data).status == Completed
    ensures Removals(job, data) == []
  {
  }

  // ---------------------------------------------------------------------------
  // Several executions in a row.
  // ---------------------------------------------------------------------------

  /** The record after handling `events` one after the other. */
  function Replay(job: JobRecord, events: seq<JobEventData>): JobRecord
    decreases |events|
  {
    if events == [] then job
    else Executed(Replay(job, events[..|events| - 1]), events[|events| - 1])
  }

  /** How many of `events` report an exception. */
  function FailureCount(events: seq<JobEventData>): nat
    decreases |events|
  {
    if events == [] then 0
    else FailureCount(events[..|events| - 1]) + (if Failed(events[|events| - 1]) then 1 else 0)
  }

  /** Every execution counts once as a trigger, every failure once as a try;
      nothing ever resets the try count. */
  lemma {:induction false} ReplayCounts(job: JobRecord, events: seq<JobEventData>)
    ensures Replay(job, events).triggerCount == job.triggerCount + |events|
    ensures Replay(job, events).tryCount == job.tryCount + FailureCount(events)
    ensures Replay(job, events).key == job.key && Replay(job, events).jobType == job.jobType
    ensures Replay(job, events).maxTryCount == job.maxTryCount
    ensures Replay(job, events).maxCount == job.maxCount
    decreases |events|
  {
    if events != [] {
      ReplayCounts(job, events[..|events| - 1]);
    }
  }

  /** A recurring job without a run budget that fails again and again, from
      any status, is `Running` after each failure while its try count is within the retry budget, and is stopped
      and abandoned by the failure that exceeds it. */
  lemma {:induction false} RepeatedFailures(job: JobRecord, events: seq<JobEventData>)
    requires job.jobType == Recurring && job.maxCount == 0
    requires job.tryCount == 0 && !job.isAbandoned
    requires 0 <= job.maxTryCount && |events| <= job.maxTryCount + 1
    requires forall i :: 0 <= i < |events| ==> Failed(events[i])
    ensures Replay(job, events).tryCount == |events|
    ensures Replay(job, events).isAbandoned <==> |events| == job.maxTryCount + 1
    ensures |events| > 0 ==> Replay(job, events).status == if |events| == job.maxTryCount + 1 then Stopped else Running
    decreases |events|
  {
    if events != [] {
      var init := events[..|events| - 1];
      assert forall i :: 0 <= i < |init| ==> Failed(init[i]) by {
        forall i | 0 <= i < |init| ensures Failed(init[i]) {
          assert init[i] == events[i];
        }
      }
      RepeatedFailures(job, init);
      ReplayCounts(job, init);
    }
  }

  /** With a run budget of `maxCount` and a fresh trigger count, execution
      number `k + 1` completes the job (and removes it) exactly when
      `k + 1 > maxCount`. */
  lemma CountLimitReachedOnCall(job: JobRecord, events: seq<JobEventData>, k: nat)
    requires job.maxCount > 0 && job.triggerCount == 0 && k < |events|
    ensures ReachesCountLimit(Replay(job, events[..k])) <==> k + 1 > job.maxCount
    ensures k + 1 > job.maxCount ==> Executed(Replay(job, events[..k]), events[k]).status == Completed
    ensures k + 1 > job.maxCount ==> Removals(Replay(job, events[..k]), events[k]) != []
  {
    ReplayCounts(job, events[..k]);
  }

  // ---------------------------------------------------------------------------
  // The job record, the store and the scheduler as objects.
  // ---------------------------------------------------------------------------

  /** The record object the store hands out; the handler mutates its fields. */
  class JobInfo {
    const key: string
    var jobType: JobType
    var status: JobStatus
    var triggerCount: int
    var tryCount: int
    var maxTryCount: int
    var maxCount: int
    var isAbandoned: bool
    var nextRunTime: Option<Time>
    var lastRunTime: Option<Time>
    var result: Option<string>

    function Snapshot(): JobRecord
      reads this
    {
      JobRecord(key, jobType, status, triggerCount, tryCount, maxTryCount, maxCount,
                isAbandoned, nextRunTime, lastRunTime, result)
    }

    constructor (r: JobRecord)
      ensures Snapshot() == r
    {
      key := r.key;
      jobType := r.jobType;
      status := r.status;
      triggerCount := r.triggerCount;
      tryCount := r.tryCount;
      maxTryCount := r.maxTryCount;
      maxCount := r.maxCount;
      isAbandoned := r.isAbandoned;
      nextRunTime := r.nextRunTime;
      lastRunTime := r.lastRunTime;
      result := r.result;
    }
  }

  /** A call the handler makes on its collaborators. */
  datatype Call = Removed(job: JobRecord) | Stored(job: JobRecord)

  /** The calls made on the store and the scheduler, in the order they were
      made; both collaborators append to the same log. */
  class CallLog {
    var calls: seq<Call>

    constructor ()
      ensures calls == []
    {
      calls := [];
    }
  }

  /** One removal call per record, in order. */
  function RemovalCalls(rs: seq<JobRecord>): (cs: seq<Call>)
    ensures |cs| == |rs| && forall i :: 0 <= i < |rs| ==> cs[i] == Removed(rs[i])
  {
    seq(|rs|, i requires 0 <= i < |rs| => Removed(rs[i]))
  }

  /** Removal calls for two lists, one after the other, are the removal
      calls for the two lists joined. */
  lemma RemovalCallsAppend(rs: seq<JobRecord>, ts: seq<JobRecord>)
    ensures RemovalCalls(rs + ts) == RemovalCalls(rs) + RemovalCalls(ts)
  {
  }

  /** An in-memory job store: records by key. */
  class JobStore {
    var records: map<string, JobRecord>

    /** Every record is filed under its own key. */
    ghost predicate Valid()
      reads this
    {
      forall k :: k in records ==> records[k].key == k
    }

    constructor ()
      ensures Valid() && records == map[]
    {
      records := map[];
    }

    method Find(key: string) returns (job: JobInfo?)
      ensures job == null <==> key !in records
      ensures job != null ==> fresh(job) && job.Snapshot() == records[key]
    {
      if key in records {
        job := new JobInfo(records[key]);
      } else {
        job := null;
      }
    }

    method Store(job: JobInfo, log: CallLog)
      requires Valid()
      modifies this, log
      ensures Valid()
      ensures records == old(records)[job.key := job.Snapshot()]
      ensures log.calls == old(log.calls) + [Stored(job.Snapshot())]
    {
      records := records[job.key := job.Snapshot()];
      log.calls := log.calls + [Stored(job.Snapshot())];
    }
  }

  /** The scheduler; its only effect modelled here is the removal call. */
  class JobScheduler {
    constructor ()
    {
    }

    method Remove(job: JobInfo, log: CallLog)
      modifies log
      ensures log.calls == old(log.calls) + [Removed(job.Snapshot())]
    {
      log.calls := log.calls + [Removed(job.Snapshot())];
    }
  }

  /** Resolves the scheduler and asks it to remove the job as it is now. */
  method RemoveJob(scheduler: JobScheduler, job: JobInfo, log: CallLog)
    modifies log
    ensures log.calls == old(log.calls) + [Removed(job.Snapshot())]
  {
    scheduler.Remove(job, log);
  }

  /** What the first block leaves in the record: the counters and run times
      of this execution, and `Completed` for a one-shot job. */
  function AfterBookkeeping(job: JobRecord, data: JobEventData): JobRecord {
    job.(
      triggerCount := job.triggerCount + 1,
      nextRunTime := data.nextRunTime,
      lastRunTime := data.lastRunTime,
      result := data.result,
      status := if job.jobType == Once then Completed else job.status)
  }

  /** The first block of the handler: bookkeeping, then one-shot completion. */
  method RecordExecution(job: JobInfo, data: JobEventData)
    modifies job
    ensures job.Snapshot() == AfterBookkeeping(old(job.Snapshot()), data)
  {
    job.triggerCount := job.triggerCount + 1;
    job.nextRunTime := data.nextRunTime;
    job.lastRunTime := data.lastRunTime;
    job.result := data.result;

    if job.jobType == Once {
      job.status := Completed;
    }
  }

  /** What the failure block leaves in the record: one more try, the
      exception's message as result, and `Running`, or `Stopped` and
      abandoned once the retry budget is exceeded. */
  function AfterFailure(job: JobRecord, message: string): JobRecord {
    var abandoned := job.tryCount + 1 > job.maxTryCount;
    job.(
      tryCount := job.tryCount + 1,
      result := Some(message),
      status := if abandoned then Stopped else Running,
      isAbandoned := job.isAbandoned || abandoned)
  }

  /** The failure block's step on a record, and what it hands to the scheduler. */
  function FailureStep(job: JobRecord, data: JobEventData): JobRecord {
    if Failed(data) then AfterFailure(job, data.exception.value) else job
  }

  function FailureRemovals(job: JobRecord, data: JobEventData): seq<JobRecord> {
    var r := FailureStep(job, data);
    if Failed(data) && r.tryCount > r.maxTryCount then [r] else []
  }

  /** The count-limit block's step on a record, and what it hands to the scheduler. */
  predicate PastCountLimit(job: JobRecord) {
    job.maxCount > 0 && job.triggerCount > job.maxCount
  }

  function CountLimitStep(job: JobRecord): JobRecord {
    if PastCountLimit(job) then job.(status := Completed) else job
  }

  function CountLimitRemovals(job: JobRecord): seq<JobRecord> {
    if PastCountLimit(job) then [CountLimitStep(job)] else []
  }

  /** The second block of the handler: a failed execution is retried, or
      abandoned and removed from the scheduler. */
  method HandleFailure(scheduler: JobScheduler, job: JobInfo, data: JobEventData, log: CallLog)
    modifies job, log
    ensures job.Snapshot() == FailureStep(old(job.Snapshot()), data)
    ensures log.calls == old(log.calls) + RemovalCalls(FailureRemovals(old(job.Snapshot()), data))
  {
    if data.exception.Some? {
      job.tryCount := job.tryCount + 1;
      job.status := Running;
      job.result := Some(data.exception.value);

      if job.tryCount > job.maxTryCount {
        job.status := Stopped;
        job.isAbandoned := true;
        RemoveJob(scheduler, job, log);
      }
    }
  }

  /** The third block of the handler: a job past its positive run budget is
      completed and removed from the scheduler. */
  method HandleCountLimit(scheduler: JobScheduler, job: JobInfo, log: CallLog)
    modifies job, log
    ensures job.Snapshot() == CountLimitStep(old(job.Snapshot()))
    ensures log.calls == old(log.calls) + RemovalCalls(CountLimitRemovals(old(job.Snapshot())))
  {
    if job.maxCount > 0 && job.triggerCount > job.maxCount {
      job.status := Completed;
      RemoveJob(scheduler, job, log);
    }
  }

  /** The three blocks, run one after the other on a record, give the
      transition and the removals stated by `Executed` and `Removals`. */
  lemma BlocksComposeToTransition(before: JobRecord, data: JobEventData)
    ensures CountLimitStep(FailureStep(AfterBookkeeping(before, data), data)) == Executed(before, data)
    ensures FailureRemovals(AfterBookkeeping(before, data), data)
      + CountLimitRemovals(FailureStep(AfterBookkeeping(before, data), data)) == Removals(before, data)
  {
  }

  /** The handler run after every execution of a job. `log` records the
      calls on the scheduler and the store, so the contract states their
      order: every removal comes before the single write. */
  method OnJobAfterExecuted(store: JobStore, scheduler: JobScheduler, data: JobEventData, log: CallLog)
    requires store.Valid()
    modifies store, log
    ensures store.Valid()
    // an unknown key: nothing is written and nothing is removed
    ensures data.key !in old(store.records) ==>
      store.records == old(store.records) && log.calls == old(log.calls)
    // a known key: the removals the transition calls for, then exactly one
    // write of the transformed record under the same key
    ensures data.key in old(store.records) ==>
      var before := old(store.records)[data.key];
      store.records == old(store.records)[data.key := Executed(before, data)] &&
      log.calls == old(log.calls) + RemovalCalls(Removals(before, data)) + [Stored(Executed(before, data))]
  {
    var job := store.Find(data.key);
    if job != null {
      ghost var before := store.records[data.key];
      RecordExecution(job, data);
      HandleFailure(scheduler, job, data, log);
      HandleCountLimit(scheduler, job, log);
      BlocksComposeToTransition(before, data);
      RemovalCallsAppend(FailureRemovals(AfterBookkeeping(before, data), data),
                         CountLimitRemovals(FailureStep(AfterBookkeeping(before, data), data)));
      store.Store(job, log);
    }
  }
}
