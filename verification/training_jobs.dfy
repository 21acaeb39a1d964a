/** Records of the training-job cloud functions and the effects they perform.

    Every backend call of a cloud function (a save, an HTTP request, a job
    start, a log message) is an `Effect`. A handler computes the sequence of
    effects it would perform, its plan, and `Run` executes that plan against
    a set of calls that throw: execution stops at the first awaited call
    that throws, and the handler's `catch` block then sees that call's
    message. Calls that are not awaited (`Parse.Cloud.startJob`, the job's
    `message`) cannot throw into the handler. */
module TrainingJobs {
  import opened Wrappers
  import opened JsValues

  /** The authenticated caller (`request.user`), identified by its object id. */
  datatype User = User(id: string)

  /** The parameters of `startModelTraining`, taken from `request.params`. */
  datatype TrainingParams = TrainingParams(
    modelType: JsValue,
    dataset: JsValue,
    abTesting: JsValue,
    autoTuning: JsValue,
    hyperparameters: JsValue)

  /** The values the handlers write into a TrainingJob's `status` field. */
  datatype JobStatus = Started | Completed | Failed
  {
    function Name(): string
    {
      match this
      case Started => "started"
      case Completed => "completed"
      case Failed => "failed"
    }
  }

  /** A stored TrainingJob object. */
  datatype TrainingJob = TrainingJob(
    id: string,
    user: User,
    modelType: JsValue,
    dataset: JsValue,
    status: JobStatus,
    abTesting: JsValue,
    autoTuning: JsValue,
    hyperparameters: JsValue,
    externalJobId: Option<JsValue>,
    error: Option<JsValue>)

  /** The Parse error codes the cloud functions throw. */
  datatype ErrorCode = InvalidSessionToken | InternalServerError
  {
    function Code(): int
    {
      match this
      case InvalidSessionToken => 209
      case InternalServerError => 1
    }
  }

  /** A thrown `Parse.Error`. */
  datatype CloudError = CloudError(code: ErrorCode, message: string)

  const NotAuthenticated: string := "User must be authenticated."

  /** The error every user-facing cloud function throws without a caller. */
  const SessionError: CloudError := CloudError(InvalidSessionToken, NotAuthenticated)

  /** The parameters of one run of the `checkTrainingStatus` job. */
  datatype CheckRequest = CheckRequest(jobId: string, externalJobId: JsValue)

  /** A `checkTrainingStatus` run started now (`delaySeconds == 0`) or with
      the delay the code asks `startJob` for. */
  datatype ScheduledCheck = ScheduledCheck(request: CheckRequest, delaySeconds: nat)

  /** The body POSTed to the ML service's `/train` endpoint. */
  datatype TrainRequest = TrainRequest(
    jobId: string,
    modelType: JsValue,
    dataset: JsValue,
    userId: string,
    abTesting: JsValue,
    autoTuning: JsValue,
    hyperparameters: JsValue)

  datatype ModelPerformance = ModelPerformance(
    user: User,
    modelType: JsValue,
    dataset: JsValue,
    metric: string,
    value: JsValue)

  datatype ABTest = ABTest(
    user: User,
    modelA: JsValue,
    modelB: JsValue,
    performanceA: JsValue,
    performanceB: JsValue)

  datatype AutoTuneResult = AutoTuneResult(
    user: User,
    bestHyperparameters: JsValue,
    performance: JsValue)

  /** The awaited calls of the handlers, each of which may throw. */
  datatype Call =
    | CreateJobCall
    | PostTrainCall
    | SaveExternalJobIdCall
    | LoadJobCall
    | FetchStatusCall
    | SavePerformanceCall
    | SaveABTestCall
    | SaveAutoTuneCall
    | VersionModelCall
    | SaveJobStatusCall

  datatype Effect =
    | CreateJob(job: TrainingJob)
    | PostTrain(body: TrainRequest)
    | SaveExternalJobId(job: TrainingJob)
    | StartCheck(check: ScheduledCheck)
    | LoadJob(jobId: string)
    | FetchStatus(externalJobId: JsValue)
    | SavePerformance(metricRecord: ModelPerformance)
    | SaveABTest(abTest: ABTest)
    | SaveAutoTune(autoTune: AutoTuneResult)
    | RunVersionModel(jobId: string, performance: JsValue)
    | Message(text: string)
    | SaveJobStatus(job: TrainingJob)
  {
    /** The awaited call this effect makes, if it is awaited. */
    function CallOf(): Option<Call>
    {
      match this
      case CreateJob(_) => Some(CreateJobCall)
      case PostTrain(_) => Some(PostTrainCall)
      case SaveExternalJobId(_) => Some(SaveExternalJobIdCall)
      case StartCheck(_) => None
      case LoadJob(_) => Some(LoadJobCall)
      case FetchStatus(_) => Some(FetchStatusCall)
      case SavePerformance(_) => Some(SavePerformanceCall)
      case SaveABTest(_) => Some(SaveABTestCall)
      case SaveAutoTune(_) => Some(SaveAutoTuneCall)
      case RunVersionModel(_, _) => Some(VersionModelCall)
      case Message(_) => None
      case SaveJobStatus(_) => Some(SaveJobStatusCall)
    }

    /** Whether the effect writes the TrainingJob object. */
    predicate SavesJob()
    {
      CreateJob? || SaveExternalJobId? || SaveJobStatus?
    }
  }

  /** The awaited calls that throw in one execution, with the error message
      each one throws. */
  type Faults = map<Call, string>

  predicate Throws(e: Effect, faults: Faults)
  {
    e.CallOf().Some? && e.CallOf().value in faults
  }

  /** The effects that took place and the message of the exception that
      stopped the plan, if one did. */
  datatype RunResult = RunResult(done: seq<Effect>, thrown: Option<string>)

  /** Executes a plan up to its first throwing call: the effects before it
      take place, the throwing call has no effect, nothing after it runs. */
  function Run(plan: seq<Effect>, faults: Faults): (r: RunResult)
    ensures |r.done| <= |plan| && r.done == plan[..|r.done|]
    ensures forall i :: 0 <= i < |r.done| ==> !Throws(r.done[i], faults)
    ensures r.thrown.None? <==> r.done == plan
    ensures r.thrown.Some? ==> |r.done| < |plan| && Throws(plan[|r.done|], faults)
                               && r.thrown.value == faults[plan[|r.done|].CallOf().value]
  {
    if |plan| == 0 then RunResult([], None)
    else if Throws(plan[0], faults) then RunResult([], Some(faults[plan[0].CallOf().value]))
    else
      var rest := Run(plan[1..], faults);
      RunResult([plan[0]] + rest.done, rest.thrown)
  }

  /** A plan none of whose calls throws runs to completion. */
  lemma RunWithoutFaults(plan: seq<Effect>, faults: Faults)
    requires forall i :: 0 <= i < |plan| ==> !Throws(plan[i], faults)
    ensures Run(plan, faults) == RunResult(plan, None)
  {
  }

  /** The job as last written by the effects, if any of them wrote it. */
  function LastSavedJob(done: seq<Effect>): (r: Option<TrainingJob>)
    ensures r.None? <==> forall i :: 0 <= i < |done| ==> !done[i].SavesJob()
    ensures r.Some? ==> exists i :: 0 <= i < |done| && done[i].SavesJob() && done[i].job == r.value
                                    && forall k :: i < k < |done| ==> !done[k].SavesJob()
  {
    if |done| == 0 then None
    else if done[|done| - 1].SavesJob() then Some(done[|done| - 1].job)
    else LastSavedJob(done[..|done| - 1])
  }

  /** The checks the effects start. */
  function StartedChecks(done: seq<Effect>): seq<ScheduledCheck>
  {
    if |done| == 0 then []
    else (if done[0].StartCheck? then [done[0].check] else []) + StartedChecks(done[1..])
  }

  function SavedPerformances(done: seq<Effect>): seq<ModelPerformance>
  {
    if |done| == 0 then []
    else (if done[0].SavePerformance? then [done[0].metricRecord] else []) + SavedPerformances(done[1..])
  }

  function SavedABTests(done: seq<Effect>): seq<ABTest>
  {
    if |done| == 0 then []
    else (if done[0].SaveABTest? then [done[0].abTest] else []) + SavedABTests(done[1..])
  }

  function SavedAutoTunes(done: seq<Effect>): seq<AutoTuneResult>
  {
    if |done| == 0 then []
    else (if done[0].SaveAutoTune? then [done[0].autoTune] else []) + SavedAutoTunes(done[1..])
  }

  /** Each projection of a sequence of effects splits at any point. */
  lemma {:induction false} StartedChecksOfConcat(a: seq<Effect>, b: seq<Effect>)
    ensures StartedChecks(a + b) == StartedChecks(a) + StartedChecks(b)
  {
    if |a| == 0 {
      assert a + b == b;
    } else {
      assert (a + b)[0] == a[0];
      assert (a + b)[1..] == a[1..] + b;
      StartedChecksOfConcat(a[1..], b);
    }
  }

  lemma {:induction false} SavedPerformancesOfConcat(a: seq<Effect>, b: seq<Effect>)
    ensures SavedPerformances(a + b) == SavedPerformances(a) + SavedPerformances(b)
  {
    if |a| == 0 {
      assert a + b == b;
    } else {
      assert (a + b)[0] == a[0];
      assert (a + b)[1..] == a[1..] + b;
      SavedPerformancesOfConcat(a[1..], b);
    }
  }

  lemma {:induction false} SavedABTestsOfConcat(a: seq<Effect>, b: seq<Effect>)
    ensures SavedABTests(a + b) == SavedABTests(a) + SavedABTests(b)
  {
    if |a| == 0 {
      assert a + b == b;
    } else {
      assert (a + b)[0] == a[0];
      assert (a + b)[1..] == a[1..] + b;
      SavedABTestsOfConcat(a[1..], b);
    }
  }

  lemma {:induction false} SavedAutoTunesOfConcat(a: seq<Effect>, b: seq<Effect>)
    ensures SavedAutoTunes(a + b) == SavedAutoTunes(a) + SavedAutoTunes(b)
  {
    if |a| == 0 {
      assert a + b == b;
    } else {
      assert (a + b)[0] == a[0];
      assert (a + b)[1..] == a[1..] + b;
      SavedAutoTunesOfConcat(a[1..], b);
    }
  }

  lemma ProjectionsOfConcat(a: seq<Effect>, b: seq<Effect>)
    ensures StartedChecks(a + b) == StartedChecks(a) + StartedChecks(b)
    ensures SavedPerformances(a + b) == SavedPerformances(a) + SavedPerformances(b)
    ensures SavedABTests(a + b) == SavedABTests(a) + SavedABTests(b)
    ensures SavedAutoTunes(a + b) == SavedAutoTunes(a) + SavedAutoTunes(b)
  {
    StartedChecksOfConcat(a, b);
    SavedPerformancesOfConcat(a, b);
    SavedABTestsOfConcat(a, b);
    SavedAutoTunesOfConcat(a, b);
  }

  /** A later write of the job supersedes every earlier one. */
  lemma {:induction false} LastSavedJobOfConcat(a: seq<Effect>, b: seq<Effect>)
    ensures LastSavedJob(a + b) == if LastSavedJob(b).Some? then LastSavedJob(b) else LastSavedJob(a)
    decreases |b|
  {
    if |b| > 0 {
      assert (a + b)[..|a + b| - 1] == a + b[..|b| - 1];
      LastSavedJobOfConcat(a, b[..|b| - 1]);
    } else {
      assert a + b == a;
    }
  }

  /** The projections of a prefix of effects are prefixes of the projections. */
  lemma ProjectionsOfPrefix(s: seq<Effect>, k: nat)
    requires k <= |s|
    ensures StartedChecks(s[..k]) <= StartedChecks(s)
    ensures SavedPerformances(s[..k]) <= SavedPerformances(s)
    ensures SavedABTests(s[..k]) <= SavedABTests(s)
    ensures SavedAutoTunes(s[..k]) <= SavedAutoTunes(s)
  {
    assert s == s[..k] + s[k..];
    ProjectionsOfConcat(s[..k], s[k..]);
  }

  /** What a sequence of effects leaves behind: the checks it started, the
      records it saved, and the job as it last wrote it. */
  datatype Summary = Summary(
    checks: seq<ScheduledCheck>,
    performances: seq<ModelPerformance>,
    abTests: seq<ABTest>,
    autoTunes: seq<AutoTuneResult>,
    savedJob: Option<TrainingJob>)

  function Summarize(s: seq<Effect>): Summary
  {
    Summary(StartedChecks(s), SavedPerformances(s), SavedABTests(s), SavedAutoTunes(s), LastSavedJob(s))
  }

  /** The summary of two consecutive runs of effects. */
  function Combine(x: Summary, y: Summary): Summary
  {
    Summary(x.checks + y.checks, x.performances + y.performances, x.abTests + y.abTests,
            x.autoTunes + y.autoTunes, if y.savedJob.Some? then y.savedJob else x.savedJob)
  }

  lemma SummarizeConcat(a: seq<Effect>, b: seq<Effect>)
    ensures Summarize(a + b) == Combine(Summarize(a), Summarize(b))
  {
    ProjectionsOfConcat(a, b);
    LastSavedJobOfConcat(a, b);
  }

  /** Summary of an effect that starts nothing, saves no record and no job. */
  const NoSummary: Summary := Summary([], [], [], [], None)

  lemma SummarizeSingle(e: Effect)
    ensures Summarize([e]) == Summary(
      if e.StartCheck? then [e.check] else [],
      if e.SavePerformance? then [e.metricRecord] else [],
      if e.SaveABTest? then [e.abTest] else [],
      if e.SaveAutoTune? then [e.autoTune] else [],
      if e.SavesJob() then Some(e.job) else None)
  {
    assert [e][1..] == [];
    assert [e][..0] == [];
    assert StartedChecks([e]) == (if e.StartCheck? then [e.check] else []) + StartedChecks([]);
    assert SavedPerformances([e]) == (if e.SavePerformance? then [e.metricRecord] else []) + SavedPerformances([]);
    assert SavedABTests([e]) == (if e.SaveABTest? then [e.abTest] else []) + SavedABTests([]);
    assert SavedAutoTunes([e]) == (if e.SaveAutoTune? then [e.autoTune] else []) + SavedAutoTunes([]);
    assert LastSavedJob([e]) == if e.SavesJob() then Some(e.job) else LastSavedJob([]);
  }

  predicate SavesRecord(e: Effect)
  {
    e.SavePerformance? || e.SaveABTest? || e.SaveAutoTune?
  }

  /** Effects that save no derived record leave no derived record behind. */
  lemma {:induction false} NoRecordsSaved(s: seq<Effect>)
    requires forall j :: 0 <= j < |s| ==> !SavesRecord(s[j])
    ensures SavedPerformances(s) == [] && SavedABTests(s) == [] && SavedAutoTunes(s) == []
  {
    if |s| > 0 {
      NoRecordsSaved(s[1..]);
    }
  }
}
