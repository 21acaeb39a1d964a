/** The `checkTrainingStatus` background job: loads the TrainingJob, asks the
    ML service for the external job's status and, depending on the answer,
    completes the job and saves the derived records, marks it failed, or
    starts another check in five minutes. Any exception is only logged. */
module StatusCheck {
  import opened Wrappers
  import opened JsValues
  import opened TrainingJobs

  /** The fields of the ML service's `/status` reply the job reads. */
  datatype StatusData = StatusData(
    status: JsValue,
    accuracy: JsValue,
    modelA: JsValue,
    modelB: JsValue,
    performanceA: JsValue,
    performanceB: JsValue,
    bestHyperparameters: JsValue,
    bestPerformance: JsValue,
    error: JsValue)

  /** The stored TrainingJobs by object id, the ML service's reply, and the
      calls that throw during this run. */
  datatype CheckEnv = CheckEnv(store: map<string, TrainingJob>, data: StatusData, faults: Faults)

  /** The effects of the run and the line it logged, if it caught an error. */
  datatype CheckOutcome = CheckOutcome(effects: seq<Effect>, logged: Option<string>)

  const RecheckDelaySeconds: nat := 5 * 60
  const ObjectNotFound: string := "Object not found."
  const LogPrefix: string := "Error checking training status: "
  const CompletedMessage: string := "Training job completed successfully"
  const FailedMessage: string := "Training job failed"
  const PendingMessage: string := "Training job still in progress"

  /** The ModelPerformance record a completed job yields. */
  function PerformanceOf(job: TrainingJob, data: StatusData): ModelPerformance
  {
    ModelPerformance(job.user, job.modelType, job.dataset, "accuracy", data.accuracy)
  }

  function ABTestOf(job: TrainingJob, data: StatusData): ABTest
  {
    ABTest(job.user, data.modelA, data.modelB, data.performanceA, data.performanceB)
  }

  function AutoTuneOf(job: TrainingJob, data: StatusData): AutoTuneResult
  {
    AutoTuneResult(job.user, data.bestHyperparameters, data.bestPerformance)
  }

  /** The A/B test save, present iff the job asked for A/B testing. */
  function ABTestPart(job: TrainingJob, data: StatusData): seq<Effect>
  {
    if Truthy(job.abTesting) then [SaveABTest(ABTestOf(job, data))] else []
  }

  /** The auto-tuning save, present iff the job asked for auto-tuning. */
  function AutoTunePart(job: TrainingJob, data: StatusData): seq<Effect>
  {
    if Truthy(job.autoTuning) then [SaveAutoTune(AutoTuneOf(job, data))] else []
  }

  /** The derived-record saves of a completed job. */
  function RecordsPart(job: TrainingJob, data: StatusData): seq<Effect>
  {
    [SavePerformance(PerformanceOf(job, data))] + ABTestPart(job, data) + AutoTunePart(job, data)
  }

  function CompletionPlan(job: TrainingJob, req: CheckRequest, data: StatusData): seq<Effect>
  {
    RecordsPart(job, data)
    + [ RunVersionModel(req.jobId, data.accuracy),
        Message(CompletedMessage),
        SaveJobStatus(job.(status := Completed)) ]
  }

  function FailurePlan(job: TrainingJob, data: StatusData): seq<Effect>
  {
    [Message(FailedMessage), SaveJobStatus(job.(status := Failed, error := Some(data.error)))]
  }

  function PendingPlan(job: TrainingJob, req: CheckRequest): seq<Effect>
  {
    [ StartCheck(ScheduledCheck(req, RecheckDelaySeconds)),
      Message(PendingMessage),
      SaveJobStatus(job) ]
  }

  /** The three-way dispatch on the reported status string. */
  function BranchPlan(job: TrainingJob, req: CheckRequest, data: StatusData): seq<Effect>
  {
    if IsString(data.status, "completed") then CompletionPlan(job, req, data)
    else if IsString(data.status, "failed") then FailurePlan(job, data)
    else PendingPlan(job, req)
  }

  /** The calls of one run: load, fetch the status, then the branch. */
  function CheckPlan(req: CheckRequest, env: CheckEnv): seq<Effect>
  {
    [LoadJob(req.jobId), FetchStatus(req.externalJobId)]
    + (if req.jobId in env.store then BranchPlan(env.store[req.jobId], req, env.data) else [])
  }

  /** The calls that throw, including the load of a job that does not exist. */
  function CheckFaults(req: CheckRequest, env: CheckEnv): Faults
  {
    if req.jobId in env.store then env.faults else env.faults[LoadJobCall := ObjectNotFound]
  }

  /** Only the last call of a run writes the job. */
  lemma OnlyLastSavesJob(req: CheckRequest, env: CheckEnv)
    ensures var plan := CheckPlan(req, env);
      forall i :: 0 <= i < |plan| - 1 ==> !plan[i].SavesJob()
  {
    var plan := CheckPlan(req, env);
    if req.jobId in env.store {
      var job := env.store[req.jobId];
      var data := env.data;
      if IsString(data.status, "completed") {
        var recs := RecordsPart(job, data);
        assert forall i :: 0 <= i < |recs| ==> !recs[i].SavesJob();
        assert plan == [LoadJob(req.jobId), FetchStatus(req.externalJobId)] + recs
          + [RunVersionModel(req.jobId, data.accuracy), Message(CompletedMessage)]
          + [SaveJobStatus(job.(status := Completed))];
      }
    }
  }

  function CheckTrainingStatus(req: CheckRequest, env: CheckEnv): (o: CheckOutcome)
    ensures o.logged.Some? ==> LastSavedJob(o.effects).None?
    ensures o.logged.Some? ==> |LogPrefix| <= |o.logged.value| && o.logged.value[..|LogPrefix|] == LogPrefix
    ensures req.jobId !in env.store ==> o == CheckOutcome([], Some(LogPrefix + ObjectNotFound))
  {
    var r := Run(CheckPlan(req, env), CheckFaults(req, env));
    OnlyLastSavesJob(req, env);
    CheckOutcome(r.done, if r.thrown.Some? then Some(LogPrefix + r.thrown.value) else None)
  }

  lemma RecordsPartSummary(job: TrainingJob, data: StatusData)
    ensures Summarize(RecordsPart(job, data)) == Summary(
      [], [PerformanceOf(job, data)],
      if Truthy(job.abTesting) then [ABTestOf(job, data)] else [],
      if Truthy(job.autoTuning) then [AutoTuneOf(job, data)] else [],
      None)
  {
    var p := [SavePerformance(PerformanceOf(job, data))];
    var a := ABTestPart(job, data);
    var t := AutoTunePart(job, data);
    SummarizeSingle(p[0]);
    if a != [] { SummarizeSingle(a[0]); }
    if t != [] { SummarizeSingle(t[0]); }
    SummarizeConcat(p, a);
    SummarizeConcat(p + a, t);
  }

  /** What each branch leaves behind when it runs to the end. */
  lemma BranchSummary(job: TrainingJob, req: CheckRequest, data: StatusData)
    ensures Summarize(BranchPlan(job, req, data)) ==
      if IsString(data.status, "completed") then
        Summary([], [PerformanceOf(job, data)],
                if Truthy(job.abTesting) then [ABTestOf(job, data)] else [],
                if Truthy(job.autoTuning) then [AutoTuneOf(job, data)] else [],
                Some(job.(status := Completed)))
      else if IsString(data.status, "failed") then
        Summary([], [], [], [], Some(job.(status := Failed, error := Some(data.error))))
      else
        Summary([ScheduledCheck(req, RecheckDelaySeconds)], [], [], [], Some(job))
  {
    if IsString(data.status, "completed") {
      CompletionSummary(job, req, data);
    } else if IsString(data.status, "failed") {
      FailureSummary(job, data);
    } else {
      PendingSummary(job, req);
    }
  }

  /** The calls after the records leave only the completed job behind. */
  lemma CompletionTailSummary(job: TrainingJob, req: CheckRequest, data: StatusData)
    ensures Summarize([RunVersionModel(req.jobId, data.accuracy), Message(CompletedMessage),
                       SaveJobStatus(job.(status := Completed))])
         == Summary([], [], [], [], Some(job.(status := Completed)))
  {
    var v := RunVersionModel(req.jobId, data.accuracy);
    var m := Message(CompletedMessage);
    var w := SaveJobStatus(job.(status := Completed));
    SummarizeSingle(v);
    SummarizeSingle(m);
    SummarizeSingle(w);
    assert [v, m, w] == [v] + [m] + [w];
    SummarizeConcat([v], [m]);
    SummarizeConcat([v] + [m], [w]);
  }

  /** A completed run leaves its records and the completed job. */
  lemma CompletionSummary(job: TrainingJob, req: CheckRequest, data: StatusData)
    ensures Summarize(CompletionPlan(job, req, data)) ==
      Summary([], [PerformanceOf(job, data)],
              if Truthy(job.abTesting) then [ABTestOf(job, data)] else [],
              if Truthy(job.autoTuning) then [AutoTuneOf(job, data)] else [],
              Some(job.(status := Completed)))
  {
    var recs := RecordsPart(job, data);
    var tail := [RunVersionModel(req.jobId, data.accuracy), Message(CompletedMessage),
                 SaveJobStatus(job.(status := Completed))];
    assert CompletionPlan(job, req, data) == recs + tail;
    RecordsPartSummary(job, data);
    CompletionTailSummary(job, req, data);
    SummarizeConcat(recs, tail);
  }

  /** A failed run leaves only the failed job. */
  lemma FailureSummary(job: TrainingJob, data: StatusData)
    ensures Summarize(FailurePlan(job, data)) ==
      Summary([], [], [], [], Some(job.(status := Failed, error := Some(data.error))))
  {
    var plan := FailurePlan(job, data);
    SummarizeSingle(plan[0]);
    SummarizeSingle(plan[1]);
    assert plan == [plan[0]] + [plan[1]];
    SummarizeConcat([plan[0]], [plan[1]]);
  }

  /** A pending run leaves the re-check and the unchanged job. */
  lemma PendingSummary(job: TrainingJob, req: CheckRequest)
    ensures Summarize(PendingPlan(job, req)) ==
      Summary([ScheduledCheck(req, RecheckDelaySeconds)], [], [], [], Some(job))
  {
    var plan := PendingPlan(job, req);
    SummarizeSingle(plan[0]);
    SummarizeSingle(plan[1]);
    SummarizeSingle(plan[2]);
    assert plan == [plan[0]] + [plan[1]] + [plan[2]];
    SummarizeConcat([plan[0]], [plan[1]]);
    SummarizeConcat([plan[0]] + [plan[1]], [plan[2]]);
  }

  /** The load and the status request leave nothing behind. */
  lemma CheckPlanSummary(req: CheckRequest, env: CheckEnv)
    requires req.jobId in env.store
    ensures Summarize(CheckPlan(req, env)) == Summarize(BranchPlan(env.store[req.jobId], req, env.data))
  {
    var head := [LoadJob(req.jobId), FetchStatus(req.externalJobId)];
    SummarizeSingle(head[0]);
    SummarizeSingle(head[1]);
    assert head == [head[0]] + [head[1]];
    SummarizeConcat([head[0]], [head[1]]);
    SummarizeConcat(head, BranchPlan(env.store[req.jobId], req, env.data));
  }

  /** With no throwing call, a "completed" report completes the job, saves
      one accuracy record copied from the job, an A/B test iff the job asked
      for one, an auto-tuning result iff it asked for one, calls
      `versionModel` with the job id and accuracy, and starts no further
      check. */
  lemma CheckCompleted(req: CheckRequest, env: CheckEnv)
    requires req.jobId in env.store && env.faults == map[]
    requires IsString(env.data.status, "completed")
    ensures var o := CheckTrainingStatus(req, env);
      var job := env.store[req.jobId];
      && o.logged.None?
      && Summarize(o.effects) == Summary(
           [], [ModelPerformance(job.user, job.modelType, job.dataset, "accuracy", env.data.accuracy)],
           if Truthy(job.abTesting) then
             [ABTest(job.user, env.data.modelA, env.data.modelB, env.data.performanceA, env.data.performanceB)]
           else [],
           if Truthy(job.autoTuning) then
             [AutoTuneResult(job.user, env.data.bestHyperparameters, env.data.bestPerformance)]
           else [],
           Some(job.(status := Completed)))
      && RunVersionModel(req.jobId, env.data.accuracy) in o.effects
  {
    RunWithoutFaults(CheckPlan(req, env), CheckFaults(req, env));
    CheckPlanSummary(req, env);
    BranchSummary(env.store[req.jobId], req, env.data);
    VersionCallPositionOf(req, env);
  }

  /** With no throwing call, a "failed" report marks the job failed with the
      service's error, saves no derived record and starts no further check. */
  lemma CheckFailed(req: CheckRequest, env: CheckEnv)
    requires req.jobId in env.store && env.faults == map[]
    requires IsString(env.data.status, "failed")
    ensures var o := CheckTrainingStatus(req, env);
      var job := env.store[req.jobId];
      && o.logged.None?
      && Summarize(o.effects) == Summary([], [], [], [], Some(job.(status := Failed, error := Some(env.data.error))))
  {
    RunWithoutFaults(CheckPlan(req, env), CheckFaults(req, env));
    CheckPlanSummary(req, env);
    BranchSummary(env.store[req.jobId], req, env.data);
  }

  /** In the pending branch only the final save can throw. */
  lemma PendingRun(req: CheckRequest, env: CheckEnv)
    requires req.jobId in env.store
    requires LoadJobCall !in env.faults && FetchStatusCall !in env.faults
    requires !IsString(env.data.status, "completed") && !IsString(env.data.status, "failed")
    ensures var plan := CheckPlan(req, env);
      var o := CheckTrainingStatus(req, env);
      && |plan| == 5
      && (SaveJobStatusCall in env.faults ==>
            o.effects == plan[..4] && o.logged == Some(LogPrefix + env.faults[SaveJobStatusCall]))
      && (SaveJobStatusCall !in env.faults ==> o.effects == plan && o.logged.None?)
  {
    var plan := CheckPlan(req, env);
    var r := Run(plan, env.faults);
    assert !Throws(plan[0], env.faults) && !Throws(plan[1], env.faults);
    assert !Throws(plan[2], env.faults) && !Throws(plan[3], env.faults);
    assert |r.done| >= 4;
    if SaveJobStatusCall in env.faults {
      assert Throws(plan[4], env.faults);
      assert r.done != plan;
      assert |r.done| == 4;
      assert r.done == plan[..4];
    }
  }

  /** Any other report starts exactly one check of the same job in 300
      seconds, even when the final save throws, and saves no derived record;
      without that throw the job is written back with its status unchanged. */
  lemma CheckPending(req: CheckRequest, env: CheckEnv)
    requires req.jobId in env.store
    requires LoadJobCall !in env.faults && FetchStatusCall !in env.faults
    requires !IsString(env.data.status, "completed") && !IsString(env.data.status, "failed")
    ensures var o := CheckTrainingStatus(req, env);
      var job := env.store[req.jobId];
      && StartedChecks(o.effects) == [ScheduledCheck(req, 300)]
      && SavedPerformances(o.effects) == [] && SavedABTests(o.effects) == [] && SavedAutoTunes(o.effects) == []
      && (SaveJobStatusCall !in env.faults ==> o.logged.None? && LastSavedJob(o.effects) == Some(job))
      && (SaveJobStatusCall in env.faults ==> o.logged == Some(LogPrefix + env.faults[SaveJobStatusCall]))
  {
    var plan := CheckPlan(req, env);
    PendingRun(req, env);
    CheckPlanSummary(req, env);
    BranchSummary(env.store[req.jobId], req, env.data);
    if SaveJobStatusCall in env.faults {
      assert plan == plan[..4] + [plan[4]];
      SummarizeConcat(plan[..4], [plan[4]]);
      SummarizeSingle(plan[4]);
    }
  }

  /** Whatever the service reports and whatever throws, a run starts at most
      one further check, and only of the same job after 300 seconds. */
  lemma CheckRechecksAtMostOnce(req: CheckRequest, env: CheckEnv)
    ensures var checks := StartedChecks(CheckTrainingStatus(req, env).effects);
      |checks| <= 1 && forall c :: c in checks ==> c == ScheduledCheck(req, RecheckDelaySeconds)
  {
    var plan := CheckPlan(req, env);
    var o := CheckTrainingStatus(req, env);
    if req.jobId in env.store {
      CheckPlanSummary(req, env);
      BranchSummary(env.store[req.jobId], req, env.data);
      ProjectionsOfPrefix(plan, |o.effects|);
    }
  }

  /** Derived records are saved only for a stored job reported "completed",
      each is the one the job and the report determine, and the A/B test and
      auto-tuning records only when the job asked for them. */
  lemma CheckRecordsOnlyOnCompletion(req: CheckRequest, env: CheckEnv)
    ensures var o := CheckTrainingStatus(req, env);
      && (SavedPerformances(o.effects) != [] || SavedABTests(o.effects) != [] || SavedAutoTunes(o.effects) != [] ==>
            req.jobId in env.store && IsString(env.data.status, "completed"))
      && (req.jobId in env.store ==>
            var job := env.store[req.jobId];
            && SavedPerformances(o.effects) <= [PerformanceOf(job, env.data)]
            && SavedABTests(o.effects) <= (if Truthy(job.abTesting) then [ABTestOf(job, env.data)] else [])
            && SavedAutoTunes(o.effects) <= (if Truthy(job.autoTuning) then [AutoTuneOf(job, env.data)] else []))
  {
    var plan := CheckPlan(req, env);
    var o := CheckTrainingStatus(req, env);
    if req.jobId in env.store {
      CheckPlanSummary(req, env);
      BranchSummary(env.store[req.jobId], req, env.data);
      ProjectionsOfPrefix(plan, |o.effects|);
    }
  }

  /** Where the one `versionModel` call of a plan sits. */
  lemma VersionCallPosition(req: CheckRequest, env: CheckEnv, i: int)
    requires 0 <= i < |CheckPlan(req, env)| && CheckPlan(req, env)[i].RunVersionModel?
    ensures req.jobId in env.store && IsString(env.data.status, "completed")
    ensures CheckPlan(req, env)[i] == RunVersionModel(req.jobId, env.data.accuracy)
    ensures i == 2 + |RecordsPart(env.store[req.jobId], env.data)|
    ensures CheckPlan(req, env)[..i] ==
              [LoadJob(req.jobId), FetchStatus(req.externalJobId)] + RecordsPart(env.store[req.jobId], env.data)
  {
    var plan := CheckPlan(req, env);
    assert req.jobId in env.store;
    var job := env.store[req.jobId];
    assert IsString(env.data.status, "completed");
    var head := [LoadJob(req.jobId), FetchStatus(req.externalJobId)];
    var recs := RecordsPart(job, env.data);
    var tail := [RunVersionModel(req.jobId, env.data.accuracy), Message(CompletedMessage),
                 SaveJobStatus(job.(status := Completed))];
    assert plan == head + recs + tail;
    assert forall j :: 0 <= j < |recs| ==> !recs[j].RunVersionModel?;
    assert i == |head| + |recs|;
    assert plan[..i] == head + recs;
  }

  /** Every prefix of a completed plan that reaches past the records holds
      exactly the records of the job. */
  lemma CompletedPrefixRecords(req: CheckRequest, env: CheckEnv, k: nat)
    requires req.jobId in env.store && IsString(env.data.status, "completed")
    requires 2 + |RecordsPart(env.store[req.jobId], env.data)| <= k <= |CheckPlan(req, env)|
    ensures var job := env.store[req.jobId];
      var done := CheckPlan(req, env)[..k];
      && SavedPerformances(done) == [PerformanceOf(job, env.data)]
      && SavedABTests(done) == (if Truthy(job.abTesting) then [ABTestOf(job, env.data)] else [])
      && SavedAutoTunes(done) == (if Truthy(job.autoTuning) then [AutoTuneOf(job, env.data)] else [])
  {
    var job := env.store[req.jobId];
    var head := [LoadJob(req.jobId), FetchStatus(req.externalJobId)];
    var recs := RecordsPart(job, env.data);
    var tail := [RunVersionModel(req.jobId, env.data.accuracy), Message(CompletedMessage),
                 SaveJobStatus(job.(status := Completed))];
    var plan := CheckPlan(req, env);
    assert plan == head + recs + tail;
    var rest := tail[..k - |head| - |recs|];
    assert plan[..k] == head + recs + rest;
    assert forall j :: 0 <= j < |rest| ==> !SavesRecord(rest[j]);
    RecordsBetween(head, recs, rest);
    RecordsPartSummary(job, env.data);
  }

  /** Records saved by `a + m + b` are those of `m` when `a` and `b` save none. */
  lemma RecordsBetween(a: seq<Effect>, m: seq<Effect>, b: seq<Effect>)
    requires forall j :: 0 <= j < |a| ==> !SavesRecord(a[j])
    requires forall j :: 0 <= j < |b| ==> !SavesRecord(b[j])
    ensures SavedPerformances(a + m + b) == SavedPerformances(m)
    ensures SavedABTests(a + m + b) == SavedABTests(m)
    ensures SavedAutoTunes(a + m + b) == SavedAutoTunes(m)
  {
    NoRecordsSaved(a);
    NoRecordsSaved(b);
    ProjectionsOfConcat(a + m, b);
    ProjectionsOfConcat(a, m);
  }

  /** In a completed plan, `versionModel` comes right after the records. */
  lemma VersionCallPositionOf(req: CheckRequest, env: CheckEnv)
    requires req.jobId in env.store && IsString(env.data.status, "completed")
    ensures var k := 2 + |RecordsPart(env.store[req.jobId], env.data)|;
      var plan := CheckPlan(req, env);
      && k < |plan| && plan[k] == RunVersionModel(req.jobId, env.data.accuracy)
      && forall j :: 0 <= j < k ==> plan[j].CallOf() != Some(VersionModelCall)
  {
    var job := env.store[req.jobId];
    var head := [LoadJob(req.jobId), FetchStatus(req.externalJobId)];
    var recs := RecordsPart(job, env.data);
    var tail := [RunVersionModel(req.jobId, env.data.accuracy), Message(CompletedMessage),
                 SaveJobStatus(job.(status := Completed))];
    assert CheckPlan(req, env) == head + recs + tail;
  }

  /** `versionModel` runs only after every derived record of the completed
      job was saved, and receives the job id and the reported accuracy. */
  lemma CheckVersionAfterRecords(req: CheckRequest, env: CheckEnv, i: int)
    requires var o := CheckTrainingStatus(req, env);
      0 <= i < |o.effects| && o.effects[i].RunVersionModel?
    ensures var o := CheckTrainingStatus(req, env);
      && req.jobId in env.store && IsString(env.data.status, "completed")
      && o.effects[i] == RunVersionModel(req.jobId, env.data.accuracy)
      && var job := env.store[req.jobId];
         && SavedPerformances(o.effects) == [PerformanceOf(job, env.data)]
         && SavedABTests(o.effects) == (if Truthy(job.abTesting) then [ABTestOf(job, env.data)] else [])
         && SavedAutoTunes(o.effects) == (if Truthy(job.autoTuning) then [AutoTuneOf(job, env.data)] else [])
  {
    var plan := CheckPlan(req, env);
    var o := CheckTrainingStatus(req, env);
    var r := Run(plan, CheckFaults(req, env));
    assert o.effects == r.done == plan[..|o.effects|];
    assert plan[i] == o.effects[i];
    VersionCallPosition(req, env, i);
    CompletedPrefixRecords(req, env, |o.effects|);
  }

  /** When `versionModel` throws, the derived records are already saved but
      the job's "completed" status never is: the run only logs the error. */
  lemma VersionFaultLeavesJobUnsaved(req: CheckRequest, env: CheckEnv, msg: string)
    requires req.jobId in env.store && IsString(env.data.status, "completed")
    requires env.faults == map[VersionModelCall := msg]
    ensures var o := CheckTrainingStatus(req, env);
      var job := env.store[req.jobId];
      && o.logged == Some(LogPrefix + msg)
      && LastSavedJob(o.effects).None?
      && SavedPerformances(o.effects) == [PerformanceOf(job, env.data)]
      && SavedABTests(o.effects) == (if Truthy(job.abTesting) then [ABTestOf(job, env.data)] else [])
      && SavedAutoTunes(o.effects) == (if Truthy(job.autoTuning) then [AutoTuneOf(job, env.data)] else [])
  {
    var plan := CheckPlan(req, env);
    var job := env.store[req.jobId];
    var recs := RecordsPart(job, env.data);
    var k := 2 + |recs|;
    var r := Run(plan, env.faults);
    VersionCallPositionOf(req, env);
    assert forall j :: 0 <= j < k ==> !Throws(plan[j], env.faults);
    assert Throws(plan[k], env.faults);
    assert r.done != plan;
    assert |r.done| == k;
    CompletedPrefixRecords(req, env, k);
  }
}
