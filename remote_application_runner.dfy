/**
 * `RemoteApplicationRunner` of samza-core: it plans a stream application
 * into jobs and submits, kills or polls each job in plan order. The planner,
 * the stream manager and the job runners are collaborators outside the
 * model: the plan and the result of each call into them are inputs.
 */
module RemoteApplicationRunners {
  import opened Common

  /** `ApplicationStatus.StatusCode`. */
  datatype StatusCode = New | Running | SuccessfulFinish | UnsuccessfulFinish

  /** The cause an unsuccessful finish carries, known by its description. */
  datatype Cause = Cause(description: string)

  /**
   * An `ApplicationStatus`: a code, and for an unsuccessful finish the
   * throwable that ended it (so two unsuccessful statuses can differ).
   */
  datatype ApplicationStatus = ApplicationStatus(statusCode: StatusCode, cause: Option<Cause>)

  const NewStatus := ApplicationStatus(New, None)
  const RunningStatus := ApplicationStatus(Running, None)
  const SuccessfulFinishStatus := ApplicationStatus(SuccessfulFinish, None)

  /** A `JobConfig` of the plan, known by its job name. */
  datatype JobConfig = JobConfig(jobName: string)

  /** A stream the plan needs created, known by its id. */
  datatype StreamSpec = StreamSpec(streamId: string)

  /** An `ExecutionPlan`: its jobs in plan order, its intermediate streams and its JSON text. */
  datatype ExecutionPlan = ExecutionPlan(jobConfigs: seq<JobConfig>, intermediateStreams: seq<StreamSpec>, planJson: string)

  /** What the runner asks a job's `JobRunner` to do. */
  datatype JobAction = RunJob | KillJob

  /** A call the runner makes into a collaborator. */
  datatype Call =
    | WritePlanJson(json: string)
    | CreateStreams(streams: seq<StreamSpec>)
    | JobCall(action: JobAction, job: JobConfig)

  // ---------------------------------------------------------------------
  // Status aggregation
  // ---------------------------------------------------------------------

  predicate HasCode(statuses: seq<ApplicationStatus>, code: StatusCode)
  {
    exists i :: 0 <= i < |statuses| && statuses[i].statusCode == code
  }

  /** The last unsuccessful status in the sequence, if there is one. */
  function LastUnsuccessful(statuses: seq<ApplicationStatus>): (r: Option<ApplicationStatus>)
    ensures r.None? <==> !HasCode(statuses, UnsuccessfulFinish)
    ensures r.Some? ==> exists i :: 0 <= i < |statuses| && statuses[i] == r.value
                                    && r.value.statusCode == UnsuccessfulFinish
                                    && forall j :: i < j < |statuses| ==> statuses[j].statusCode != UnsuccessfulFinish
  {
    if statuses == [] then None
    else
      var last := statuses[|statuses| - 1];
      if last.statusCode == UnsuccessfulFinish then Some(last)
      else
        var r := LastUnsuccessful(statuses[..|statuses| - 1]);
        assert forall i :: 0 <= i < |statuses| - 1 ==> statuses[..|statuses| - 1][i] == statuses[i];
        r
  }

  /**
   * The status of an application whose jobs have the given statuses: New
   * while any job is new, else Running while any job runs, else the last
   * unsuccessful finish in plan order, else a successful finish (also when
   * there are no jobs).
   */
  function AggregateStatus(statuses: seq<ApplicationStatus>): (s: ApplicationStatus)
    ensures s.statusCode == New <==> HasCode(statuses, New)
    ensures s.statusCode == Running <==> !HasCode(statuses, New) && HasCode(statuses, Running)
  {
    if HasCode(statuses, New) then NewStatus
    else if HasCode(statuses, Running) then RunningStatus
    else LastUnsuccessful(statuses).GetOr(SuccessfulFinishStatus)
  }

  /**
   * The aggregate is always one of the jobs' statuses by code, and a
   * successful finish only when every job finished successfully.
   */
  lemma AggregateStatusReflectsJobs(statuses: seq<ApplicationStatus>)
    ensures var s := AggregateStatus(statuses);
      (s.statusCode == SuccessfulFinish <==> forall i :: 0 <= i < |statuses| ==> statuses[i].statusCode == SuccessfulFinish)
      && (s.statusCode != SuccessfulFinish ==> HasCode(statuses, s.statusCode))
      && (s.statusCode == UnsuccessfulFinish ==> s in statuses)
  {
    var s := AggregateStatus(statuses);
    if s.statusCode == SuccessfulFinish {
      assert !HasCode(statuses, UnsuccessfulFinish);
    } else if !HasCode(statuses, New) && !HasCode(statuses, Running) {
      assert LastUnsuccessful(statuses).Some?;
    }
  }

  /** A job added to the plan can only move the aggregate towards New. */
  lemma AggregateWithNewJob(statuses: seq<ApplicationStatus>, i: nat)
    requires i <= |statuses|
    ensures var s := statuses[..i] + [ApplicationStatus(New, None)] + statuses[i..];
      AggregateStatus(s) == NewStatus
  {
    var s := statuses[..i] + [ApplicationStatus(New, None)] + statuses[i..];
    assert s[i].statusCode == New;
  }

  /** The status of the jobs one by one, stopping at the first that cannot be read. */
  function CollectStatuses(jobs: seq<JobConfig>, jobStatus: JobConfig -> Result<ApplicationStatus>)
    : (r: Result<seq<ApplicationStatus>>)
    ensures r.Ok? ==> |r.value| == |jobs| && forall i :: 0 <= i < |jobs| ==> jobStatus(jobs[i]) == Ok(r.value[i])
    ensures r.Err? ==> exists i :: 0 <= i < |jobs| && jobStatus(jobs[i]) == Err(r.error)
                                && forall k :: 0 <= k < i ==> jobStatus(jobs[k]).Ok?
  {
    if jobs == [] then Ok([])
    else
      match CollectStatuses(jobs[..|jobs| - 1], jobStatus)
      case Err(e) => Err(e)
      case Ok(prefix) =>
        match jobStatus(jobs[|jobs| - 1])
        case Err(e) => Err(e)
        case Ok(last) => Ok(prefix + [last])
  }

  const StatusFailure: string := "Failed to get status for application"

  /**
   * What `status` returns: the aggregate of the jobs' statuses, or a
   * `SamzaException` when planning or reading any job's status fails,
   * caused by the exception of the planner or of the first job that failed.
   */
  function StatusOf(plan: Result<ExecutionPlan>, jobStatus: JobConfig -> Result<ApplicationStatus>)
    : (r: Result<ApplicationStatus>)
    ensures r.Err? <==> plan.Err? || CollectStatuses(plan.value.jobConfigs, jobStatus).Err?
    ensures r.Err? ==> r.error.SamzaException? && r.error.message == StatusFailure && r.error.cause.Some?
    ensures plan.Err? ==> r == Err(SamzaException(StatusFailure, Some(plan.error)))
    ensures plan.Ok? && r.Err? ==>
      var jobs := plan.value.jobConfigs;
      exists i :: 0 <= i < |jobs| && jobStatus(jobs[i]) == Err(r.error.cause.value)
                  && forall k :: 0 <= k < i ==> jobStatus(jobs[k]).Ok?
  {
    if plan.Err? then Err(SamzaException(StatusFailure, Some(plan.error)))
    else
      match CollectStatuses(plan.value.jobConfigs, jobStatus)
      case Err(e) => Err(SamzaException(StatusFailure, Some(e)))
      case Ok(statuses) => Ok(AggregateStatus(statuses))
  }

  /**
   * `status(app)`: one pass over the jobs in plan order that records
   * whether any is new, whether any runs, and the last unsuccessful status,
   * then the first of those that applies.
   */
  method Status(plan: Result<ExecutionPlan>, jobStatus: JobConfig -> Result<ApplicationStatus>)
    returns (r: Result<ApplicationStatus>)
    ensures r == StatusOf(plan, jobStatus)
  {
    if plan.Err? {
      return Err(SamzaException(StatusFailure, Some(plan.error)));
    }
    var jobs := plan.value.jobConfigs;
    var hasNewJobs := false;
    var hasRunningJobs := false;
    var unsuccessfulFinishStatus: Option<ApplicationStatus> := None;
    ghost var seen: seq<ApplicationStatus> := [];
    var i := 0;
    while i < |jobs|
      invariant 0 <= i <= |jobs|
      invariant CollectStatuses(jobs[..i], jobStatus) == Ok(seen)
      invariant hasNewJobs == HasCode(seen, New)
      invariant hasRunningJobs == HasCode(seen, Running)
      invariant unsuccessfulFinishStatus == LastUnsuccessful(seen)
    {
      var status := jobStatus(jobs[i]);
      if status.Err? {
        assert jobs[..i + 1][..i] == jobs[..i];
        CollectStatusesErrPersists(jobs, i + 1, jobStatus);
        return Err(SamzaException(StatusFailure, Some(status.error)));
      }
      var s := status.value;
      match s.statusCode {
        case New => hasNewJobs := true;
        case Running => hasRunningJobs := true;
        case UnsuccessfulFinish => unsuccessfulFinishStatus := Some(s);
        case SuccessfulFinish =>
      }
      StatusStep(jobs, i, seen, s, jobStatus);
      seen := seen + [s];
      i := i + 1;
    }
    assert jobs[..i] == jobs;
    if hasNewJobs {
      r := Ok(NewStatus);
    } else if hasRunningJobs {
      r := Ok(RunningStatus);
    } else if unsuccessfulFinishStatus.Some? {
      r := Ok(unsuccessfulFinishStatus.value);
    } else {
      r := Ok(SuccessfulFinishStatus);
    }
  }

  /** One more job read: the statuses so far grow by its status, and so do the three facts the loop keeps. */
  lemma StatusStep(jobs: seq<JobConfig>, i: nat, seen: seq<ApplicationStatus>, s: ApplicationStatus,
                   jobStatus: JobConfig -> Result<ApplicationStatus>)
    requires i < |jobs| && CollectStatuses(jobs[..i], jobStatus) == Ok(seen) && jobStatus(jobs[i]) == Ok(s)
    ensures CollectStatuses(jobs[..i + 1], jobStatus) == Ok(seen + [s])
    ensures HasCode(seen + [s], New) <==> HasCode(seen, New) || s.statusCode == New
    ensures HasCode(seen + [s], Running) <==> HasCode(seen, Running) || s.statusCode == Running
    ensures LastUnsuccessful(seen + [s]) == if s.statusCode == UnsuccessfulFinish then Some(s) else LastUnsuccessful(seen)
  {
    assert jobs[..i + 1][..i] == jobs[..i];
    HasCodeAppend(seen, s, New);
    HasCodeAppend(seen, s, Running);
    assert (seen + [s])[..|seen|] == seen;
  }

  lemma HasCodeAppend(statuses: seq<ApplicationStatus>, s: ApplicationStatus, code: StatusCode)
    ensures HasCode(statuses + [s], code) <==> HasCode(statuses, code) || s.statusCode == code
  {
    if HasCode(statuses, code) {
      var i :| 0 <= i < |statuses| && statuses[i].statusCode == code;
      assert (statuses + [s])[i] == statuses[i];
    }
    if s.statusCode == code {
      assert (statuses + [s])[|statuses|] == s;
    }
  }

  /** Once a prefix of the jobs fails, so does every longer prefix. */
  lemma {:induction false} CollectStatusesErrPersists(jobs: seq<JobConfig>, k: nat,
                                                      jobStatus: JobConfig -> Result<ApplicationStatus>)
    requires 0 < k <= |jobs|
    requires CollectStatuses(jobs[..k], jobStatus).Err?
    ensures CollectStatuses(jobs, jobStatus) == CollectStatuses(jobs[..k], jobStatus)
    decreases |jobs| - k
  {
    if k == |jobs| {
      assert jobs[..k] == jobs;
    } else {
      assert jobs[..k + 1][..k] == jobs[..k];
      CollectStatusesErrPersists(jobs, k + 1, jobStatus);
    }
  }

  // ---------------------------------------------------------------------
  // Run and kill
  // ---------------------------------------------------------------------

  /** The index of the first job whose call throws, or the number of jobs when none does. */
  function FirstRaised(jobs: seq<JobConfig>, outcome: JobConfig -> Outcome): (k: nat)
    ensures k <= |jobs|
    ensures forall i :: 0 <= i < k ==> outcome(jobs[i]) == Done
    ensures k < |jobs| ==> outcome(jobs[k]).Raised?
  {
    if jobs == [] then 0
    else if outcome(jobs[0]).Raised? then 0
    else
      var k := 1 + FirstRaised(jobs[1..], outcome);
      assert forall i :: 1 <= i < k ==> jobs[i] == jobs[1..][i - 1];
      k
  }

  /** How many jobs a loop calls when it stops at the first call that throws. */
  function CallsMade(jobs: seq<JobConfig>, outcome: JobConfig -> Outcome): (n: nat)
    ensures n <= |jobs|
  {
    var k := FirstRaised(jobs, outcome);
    if k < |jobs| then k + 1 else k
  }

  /** Whether every one of the jobs' calls returns normally. */
  predicate AllDone(jobs: seq<JobConfig>, outcome: JobConfig -> Outcome)
  {
    forall i :: 0 <= i < |jobs| ==> outcome(jobs[i]) == Done
  }

  /** The calls of `action` on the given jobs, in order. */
  function JobCalls(jobs: seq<JobConfig>, action: JobAction): (r: seq<Call>)
    ensures |r| == |jobs| && forall i :: 0 <= i < |jobs| ==> r[i] == JobCall(action, jobs[i])
  {
    if jobs == [] then [] else JobCalls(jobs[..|jobs| - 1], action) + [JobCall(action, jobs[|jobs| - 1])]
  }

  /**
   * Calls `outcome` on each job in plan order, stopping at the first that
   * throws; returns the calls made and the exception of the call that threw.
   */
  method CallEachJob(jobs: seq<JobConfig>, outcome: JobConfig -> Outcome, action: JobAction)
    returns (calls: seq<Call>, result: Outcome)
    ensures result == Done <==> AllDone(jobs, outcome)
    ensures result.Raised? ==>
      FirstRaised(jobs, outcome) < |jobs| && result == outcome(jobs[FirstRaised(jobs, outcome)])
    ensures calls == JobCalls(jobs[..CallsMade(jobs, outcome)], action)
  {
    calls := [];
    var i := 0;
    while i < |jobs|
      invariant 0 <= i <= |jobs|
      invariant forall k :: 0 <= k < i ==> outcome(jobs[k]) == Done
      invariant calls == JobCalls(jobs[..i], action)
    {
      JobCallsAppend(jobs, i, action);
      calls := calls + [JobCall(action, jobs[i])];
      if outcome(jobs[i]).Raised? {
        FirstRaisedAt(jobs, outcome, i);
        return calls, outcome(jobs[i]);
      }
      i := i + 1;
    }
    assert jobs[..i] == jobs;
    result := Done;
  }

  /** The first call that throws is the one the loop stops at. */
  lemma FirstRaisedAt(jobs: seq<JobConfig>, outcome: JobConfig -> Outcome, i: nat)
    requires i < |jobs| && outcome(jobs[i]).Raised?
    requires forall k :: 0 <= k < i ==> outcome(jobs[k]) == Done
    ensures FirstRaised(jobs, outcome) == i && CallsMade(jobs, outcome) == i + 1
    ensures !AllDone(jobs, outcome)
  {
  }

  lemma JobCallsAppend(jobs: seq<JobConfig>, i: nat, action: JobAction)
    requires i < |jobs|
    ensures JobCalls(jobs[..i + 1], action) == JobCalls(jobs[..i], action) + [JobCall(action, jobs[i])]
  {
    assert jobs[..i + 1][..i] == jobs[..i];
  }

  const RunFailure: string := "Failed to run application"
  const KillFailure: string := "Failed to kill application"

  /**
   * `run(app)`: with a plan, writes the plan's JSON, creates its
   * intermediate streams and submits every job in plan order; the first
   * step that throws ends the run with a `SamzaException` caused by it.
   */
  method Run(plan: Result<ExecutionPlan>, writeJson: Outcome, createStreams: Outcome, submit: JobConfig -> Outcome)
    returns (outcome: Outcome, calls: seq<Call>)
    ensures outcome == Done <==>
      plan.Ok? && writeJson == Done && createStreams == Done && AllDone(plan.value.jobConfigs, submit)
    ensures plan.Err? ==> outcome == Raised(SamzaException(RunFailure, Some(plan.error)))
    ensures plan.Ok? && writeJson.Raised? ==> outcome == Raised(SamzaException(RunFailure, Some(writeJson.error)))
    ensures plan.Ok? && writeJson == Done && createStreams.Raised? ==>
      outcome == Raised(SamzaException(RunFailure, Some(createStreams.error)))
    ensures plan.Ok? && writeJson == Done && createStreams == Done && !AllDone(plan.value.jobConfigs, submit) ==>
      var jobs := plan.value.jobConfigs;
      FirstRaised(jobs, submit) < |jobs|
      && outcome == Raised(SamzaException(RunFailure, Some(submit(jobs[FirstRaised(jobs, submit)]).error)))
    ensures plan.Err? ==> calls == []
    ensures plan.Ok? ==>
      (calls == [WritePlanJson(plan.value.planJson)]
        + (if writeJson == Done then [CreateStreams(plan.value.intermediateStreams)] else [])
        + (if writeJson == Done && createStreams == Done
           then JobCalls(plan.value.jobConfigs[..CallsMade(plan.value.jobConfigs, submit)], RunJob)
           else []))
  {
    if plan.Err? {
      return Raised(SamzaException(RunFailure, Some(plan.error))), [];
    }
    calls := [WritePlanJson(plan.value.planJson)];
    if writeJson.Raised? {
      return Raised(SamzaException(RunFailure, Some(writeJson.error))), calls;
    }
    calls := calls + [CreateStreams(plan.value.intermediateStreams)];
    if createStreams.Raised? {
      return Raised(SamzaException(RunFailure, Some(createStreams.error))), calls;
    }
    var jobCalls, submitted := CallEachJob(plan.value.jobConfigs, submit, RunJob);
    calls := calls + jobCalls;
    outcome := if submitted == Done then Done else Raised(SamzaException(RunFailure, Some(submitted.error)));
  }

  /**
   * `kill(app)`: with a plan, kills every job in plan order; the first
   * call that throws ends it with a `SamzaException` caused by it.
   */
  method Kill(plan: Result<ExecutionPlan>, kill: JobConfig -> Outcome) returns (outcome: Outcome, calls: seq<Call>)
    ensures outcome == Done <==> plan.Ok? && AllDone(plan.value.jobConfigs, kill)
    ensures plan.Err? ==> outcome == Raised(SamzaException(KillFailure, Some(plan.error)))
    ensures plan.Ok? && !AllDone(plan.value.jobConfigs, kill) ==>
      var jobs := plan.value.jobConfigs;
      FirstRaised(jobs, kill) < |jobs|
      && outcome == Raised(SamzaException(KillFailure, Some(kill(jobs[FirstRaised(jobs, kill)]).error)))
    ensures plan.Err? ==> calls == []
    ensures plan.Ok? ==> calls == JobCalls(plan.value.jobConfigs[..CallsMade(plan.value.jobConfigs, kill)], KillJob)
  {
    if plan.Err? {
      return Raised(SamzaException(KillFailure, Some(plan.error))), [];
    }
    var killed;
    calls, killed := CallEachJob(plan.value.jobConfigs, kill, KillJob);
    outcome := if killed == Done then Done else Raised(SamzaException(KillFailure, Some(killed.error)));
  }

  /** When every submission returns, `run` submits every job of the plan exactly once, in plan order. */
  lemma RunSubmitsEveryJob(jobs: seq<JobConfig>, submit: JobConfig -> Outcome)
    requires AllDone(jobs, submit)
    ensures CallsMade(jobs, submit) == |jobs|
    ensures JobCalls(jobs[..CallsMade(jobs, submit)], RunJob) == JobCalls(jobs, RunJob)
  {
    assert jobs[..|jobs|] == jobs;
  }

  const WaitForFinishUnsupported: string := "waitForFinish is not supported in RemoteApplicationRunner"
  const RunTaskUnsupported: string := "Running StreamTask is not implemented for RemoteReplicationRunner"

  /** `waitForFinish` is not supported by this runner. */
  function WaitForFinish(): (r: Outcome)
    ensures r.Raised? && r.error.UnsupportedOperationException?
  {
    Raised(UnsupportedOperationException(WaitForFinishUnsupported))
  }

  /** `runTask` is not supported by this runner. */
  function RunTask(): (r: Outcome)
    ensures r.Raised? && r.error.UnsupportedOperationException?
  {
    Raised(UnsupportedOperationException(RunTaskUnsupported))
  }
}
