/** The `startModelTraining` cloud function: checks the caller, stores a new
    TrainingJob with status "started", submits it to the ML service, records
    the service's job id and starts the first status check. */
module StartTraining {
  import opened Wrappers
  import opened JsValues
  import opened TrainingJobs

  datatype StartReply = StartReply(jobId: string, message: string)

  /** What the backend answers during one call: the object id the first save
      assigns, the `jobId` in the ML service's reply, and the calls that throw. */
  datatype StartEnv = StartEnv(assignedId: string, externalJobId: JsValue, faults: Faults)

  /** The reply (or thrown error) of the cloud function and its effects. */
  datatype StartOutcome = StartOutcome(reply: Result<StartReply, CloudError>, effects: seq<Effect>)

  const StartedMessage: string := "Training job started successfully"
  const StartFailedPrefix: string := "Failed to start training job: "

  /** The job object built from the request before its first save. */
  function NewJob(id: string, user: User, params: TrainingParams): TrainingJob
  {
    TrainingJob(id, user, params.modelType, params.dataset, Started, params.abTesting,
                params.autoTuning, params.hyperparameters, None, None)
  }

  /** A job as `startModelTraining` writes it for `user` and `params`. */
  predicate RecordsRequest(job: TrainingJob, user: User, params: TrainingParams)
  {
    && job.user == user
    && job.status == Started
    && job.modelType == params.modelType
    && job.dataset == params.dataset
    && job.abTesting == params.abTesting
    && job.autoTuning == params.autoTuning
    && job.hyperparameters == params.hyperparameters
    && job.error.None?
  }

  /** The calls of a start, in source order. */
  function StartPlan(user: User, params: TrainingParams, env: StartEnv): seq<Effect>
  {
    var job := NewJob(env.assignedId, user, params);
    [ CreateJob(job),
      PostTrain(TrainRequest(job.id, params.modelType, params.dataset, user.id,
                             params.abTesting, params.autoTuning, params.hyperparameters)),
      SaveExternalJobId(job.(externalJobId := Some(env.externalJobId))),
      StartCheck(ScheduledCheck(CheckRequest(job.id, env.externalJobId), 0)) ]
  }

  function StartModelTraining(user: Option<User>, params: TrainingParams, env: StartEnv): (o: StartOutcome)
    ensures user.None? ==> o == StartOutcome(Failure(SessionError), [])
    ensures o.reply.Failure? && user.Some? ==>
              o.reply.error.code == InternalServerError
              && |StartFailedPrefix| <= |o.reply.error.message|
              && o.reply.error.message[..|StartFailedPrefix|] == StartFailedPrefix
  {
    match user
    case None => StartOutcome(Failure(SessionError), [])
    case Some(u) =>
      var r := Run(StartPlan(u, params, env), env.faults);
      if r.thrown.None? then StartOutcome(Success(StartReply(env.assignedId, StartedMessage)), r.done)
      else StartOutcome(Failure(CloudError(InternalServerError, StartFailedPrefix + r.thrown.value)), r.done)
  }

  /** A start by a caller succeeds exactly when none of its three awaited
      calls throws. */
  lemma StartSucceedsIff(u: User, params: TrainingParams, env: StartEnv)
    ensures StartModelTraining(Some(u), params, env).reply.Success? <==>
              CreateJobCall !in env.faults && PostTrainCall !in env.faults && SaveExternalJobIdCall !in env.faults
  {
    var plan := StartPlan(u, params, env);
    var r := Run(plan, env.faults);
    if r.thrown.None? {
      assert r.done == plan;
      assert !Throws(plan[0], env.faults) && !Throws(plan[1], env.faults) && !Throws(plan[2], env.faults);
    }
  }

  /** A successful start stores the job with the service's id, starts exactly
      one immediate status check for it, and replies with the job's id. */
  lemma StartSuccess(u: User, params: TrainingParams, env: StartEnv)
    requires StartModelTraining(Some(u), params, env).reply.Success?
    ensures var o := StartModelTraining(Some(u), params, env);
      && o.reply.value == StartReply(env.assignedId, StartedMessage)
      && StartedChecks(o.effects) == [ScheduledCheck(CheckRequest(env.assignedId, env.externalJobId), 0)]
      && LastSavedJob(o.effects).Some?
      && var job := LastSavedJob(o.effects).value;
         RecordsRequest(job, u, params) && job.id == env.assignedId
         && job.externalJobId == Some(env.externalJobId)
  {
    var plan := StartPlan(u, params, env);
    assert StartModelTraining(Some(u), params, env).effects == plan;
    StartPlanSummary(u, params, env);
  }

  /** A start that runs to the end leaves one immediate status check and the
      job with the service's id. */
  lemma StartPlanSummary(u: User, params: TrainingParams, env: StartEnv)
    ensures var job := NewJob(env.assignedId, u, params);
      Summarize(StartPlan(u, params, env)) ==
        Summary([ScheduledCheck(CheckRequest(env.assignedId, env.externalJobId), 0)], [], [], [],
                Some(job.(externalJobId := Some(env.externalJobId))))
  {
    var plan := StartPlan(u, params, env);
    SummarizeSingle(plan[0]);
    SummarizeSingle(plan[1]);
    SummarizeSingle(plan[2]);
    SummarizeSingle(plan[3]);
    assert plan == [plan[0]] + [plan[1]] + [plan[2]] + [plan[3]];
    SummarizeConcat([plan[0]], [plan[1]]);
    SummarizeConcat([plan[0]] + [plan[1]], [plan[2]]);
    SummarizeConcat([plan[0]] + [plan[1]] + [plan[2]], [plan[3]]);
  }

  /** A failed start throws INTERNAL_SERVER_ERROR with the cause appended,
      starts no status check, and leaves the job either unstored (the first
      save threw) or stored as "started" without an external id. */
  lemma StartFailure(u: User, params: TrainingParams, env: StartEnv)
    requires StartModelTraining(Some(u), params, env).reply.Failure?
    ensures var o := StartModelTraining(Some(u), params, env);
      && StartedChecks(o.effects) == []
      && (CreateJobCall in env.faults ==>
            o.effects == [] && o.reply.error.message == StartFailedPrefix + env.faults[CreateJobCall])
      && (CreateJobCall !in env.faults ==>
            LastSavedJob(o.effects) == Some(NewJob(env.assignedId, u, params)))
      && (CreateJobCall !in env.faults && PostTrainCall in env.faults ==>
            o.reply.error.message == StartFailedPrefix + env.faults[PostTrainCall])
  {
    var o := StartModelTraining(Some(u), params, env);
    var plan := StartPlan(u, params, env);
    var r := Run(plan, env.faults);
    assert !Throws(plan[3], env.faults);
    assert |r.done| < 3;
    if |r.done| == 2 {
      assert r.done == [plan[0]] + [plan[1]];
      ProjectionsOfConcat([plan[0]], [plan[1]]);
      LastSavedJobOfConcat([plan[0]], [plan[1]]);
    } else if |r.done| == 1 {
      assert r.done == [plan[0]];
    }
  }

  /** The ML service receives the new job's id, the caller's id and the
      training parameters unchanged. */
  lemma StartPostsRequest(u: User, params: TrainingParams, env: StartEnv, i: int)
    requires var o := StartModelTraining(Some(u), params, env);
      0 <= i < |o.effects| && o.effects[i].PostTrain?
    ensures StartModelTraining(Some(u), params, env).effects[i].body ==
              TrainRequest(env.assignedId, params.modelType, params.dataset, u.id,
                           params.abTesting, params.autoTuning, params.hyperparameters)
  {
  }
}
