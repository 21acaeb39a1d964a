/** The AI training dashboard: the simulated training ticker, dataset
    uploads and model deployments. The ticker counts in a variable local to
    one click of "Start Training", adds 10 every second, copies it to the
    shown progress, and on reaching 100 stops and refetches the model
    performance. Saves to the backend either succeed or are only logged. */
module AiTraining {
  import opened Numbers

  /** One run of the ticker: its local count, the progress shown on the
      page, whether the interval still runs, and how many performance
      refetches it has triggered. */
  datatype TrainingRun = TrainingRun(local: int, shown: int, active: bool, refetches: nat)

  const TrainingTickMs: nat := 1000

  /** `handleStartTraining`: a fresh local count; the shown progress is left
      as it was until the first tick. */
  function StartTraining(shown: int): (r: TrainingRun)
    ensures r.local == 0 && r.active && r.refetches == 0 && r.shown == shown
  {
    TrainingRun(0, shown, true, 0)
  }

  /** One firing of the interval. */
  function TrainingTick(r: TrainingRun): (next: TrainingRun)
    ensures !r.active ==> next == r
    ensures r.active ==> next.local == r.local + 10 && next.shown == next.local
    ensures r.active ==> (next.active <==> next.local < 100)
    ensures next.refetches == r.refetches + (if r.active && !next.active then 1 else 0)
  {
    if !r.active then r
    else
      var progress := r.local + 10;
      if progress >= 100 then TrainingRun(progress, progress, false, r.refetches + 1)
      else TrainingRun(progress, progress, true, r.refetches)
  }

  function TrainingTicks(r: TrainingRun, n: nat): TrainingRun
    decreases n
  {
    if n == 0 then r else TrainingTicks(TrainingTick(r), n - 1)
  }


  /** After n ticks the page shows 10·n, up to 100 after exactly ten ticks;
      the interval then stops, and the performance has been refetched once,
      at completion and never before. */
  lemma {:induction false} TrainingRunTicks(shown: int, n: nat)
    requires n > 0
    ensures TrainingTicks(StartTraining(shown), n) ==
      TrainingRun(Min(10 * n, 100), Min(10 * n, 100), n < 10, if n < 10 then 0 else 1)
  {
    var k := 1;
    assert TrainingTick(StartTraining(shown)) == TrainingRun(10, 10, true, 0);
    while k < n
      invariant 1 <= k <= n
      invariant TrainingTicks(StartTraining(shown), n) ==
        TrainingTicks(TrainingRun(Min(10 * k, 100), Min(10 * k, 100), k < 10, if k < 10 then 0 else 1), n - k)
    {
      k := k + 1;
    }
  }

  /** A DeployedModel object and the row the deployment table shows. */
  datatype DeployedModel = DeployedModel(name: string, version: string, status: string, modelType: string)

  const DeployedStatus: string := "Deployed"

  /** The record `handleModelDeploy` saves. */
  function DeployRecord(name: string, version: string, modelType: string): (m: DeployedModel)
    ensures m.name == name && m.version == version && m.modelType == modelType
    ensures m.status == DeployedStatus
  {
    DeployedModel(name, version, DeployedStatus, modelType)
  }

  /** The action button of a row: "Update" for a deployed model, else "Deploy". */
  function ActionLabel(m: DeployedModel): (text: string)
    ensures text == "Update" <==> m.status == DeployedStatus
    ensures text == "Deploy" <==> m.status != DeployedStatus
  {
    if m.status == DeployedStatus then "Update" else "Deploy"
  }

  /** The stored DeployedModel objects, in the order they were saved, after
      a deploy click: a failed save leaves them as they were. */
  function HandleModelDeploy(store: seq<DeployedModel>, name: string, version: string,
                             modelType: string, saveSucceeds: bool): (r: seq<DeployedModel>)
    ensures !saveSucceeds ==> r == store
    ensures saveSucceeds ==> |r| == |store| + 1 && r[..|store|] == store
    ensures saveSucceeds ==> r[|store|] == DeployRecord(name, version, modelType)
  {
    if saveSucceeds then store + [DeployRecord(name, version, modelType)] else store
  }

  /** A successful deploy stores a second object for the model whose
      button reads "Update", rather than changing the first one. */
  lemma DeployAddsUpdatableRow(store: seq<DeployedModel>, i: int, modelType: string)
    requires 0 <= i < |store|
    ensures var r := HandleModelDeploy(store, store[i].name, store[i].version, modelType, true);
      && r[i] == store[i]
      && r[|store|].name == store[i].name && r[|store|].version == store[i].version
      && ActionLabel(r[|store|]) == "Update"
  {
  }

  /** A Dataset object: the uploaded file's name and the model type selected
      at upload time. */
  datatype Dataset = Dataset(name: string, modelType: string)

  /** The stored datasets after an upload; a failed save changes nothing. */
  function HandleDatasetUpload(store: seq<Dataset>, fileName: string, modelType: string,
                               saveSucceeds: bool): (r: seq<Dataset>)
    ensures !saveSucceeds ==> r == store
    ensures saveSucceeds ==> r == store + [Dataset(fileName, modelType)]
  {
    if saveSucceeds then store + [Dataset(fileName, modelType)] else store
  }

  /** `fetchDatasets`: the names the dataset list shows for the objects the
      query returned, in the order it returned them. */
  function DatasetNames(store: seq<Dataset>): (names: seq<string>)
    ensures |names| == |store|
    ensures forall i :: 0 <= i < |store| ==> names[i] == store[i].name
  {
    if |store| == 0 then [] else DatasetNames(store[..|store| - 1]) + [store[|store| - 1].name]
  }

  /** After a successful upload the stored datasets, in the order they were
      saved, end with the file's name. */
  lemma UploadShowsName(store: seq<Dataset>, fileName: string, modelType: string)
    ensures var names := DatasetNames(HandleDatasetUpload(store, fileName, modelType, true));
      names == DatasetNames(store) + [fileName]
  {
    var r := store + [Dataset(fileName, modelType)];
    assert r[..|r| - 1] == store;
  }

  /** Parse's default result limit for a query without `limit`. */
  const QueryLimit: nat := 100

  /** What `new Parse.Query(C).find()` may return with no sort and no limit:
      at most 100 of the stored objects, in no particular order, and all of
      them when there are no more than 100. */
  predicate QueryListing<T(==)>(listed: seq<T>, store: seq<T>)
  {
    && |listed| == Min(QueryLimit, |store|)
    && multiset(listed) <= multiset(store)
    && (|store| <= QueryLimit ==> multiset(listed) == multiset(store))
  }

  /** After a successful upload into a store of fewer than 100 datasets,
      whatever order the refetch returns, the list shows the file's name. */
  lemma UploadListed(store: seq<Dataset>, fileName: string, modelType: string, listed: seq<Dataset>)
    requires |store| < QueryLimit
    requires QueryListing(listed, HandleDatasetUpload(store, fileName, modelType, true))
    ensures fileName in DatasetNames(listed)
  {
    var d := Dataset(fileName, modelType);
    assert d in multiset(store + [d]);
    assert d in listed;
    var i :| 0 <= i < |listed| && listed[i] == d;
    assert DatasetNames(listed)[i] == fileName;
  }

  /** After a successful deploy into a store of fewer than 100 models,
      whatever order the refetch returns, the table has a row for the
      model, with status "Deployed" and an "Update" button. */
  lemma DeployListed(store: seq<DeployedModel>, name: string, version: string, modelType: string,
                     listed: seq<DeployedModel>)
    requires |store| < QueryLimit
    requires QueryListing(listed, HandleModelDeploy(store, name, version, modelType, true))
    ensures DeployRecord(name, version, modelType) in listed
    ensures ActionLabel(DeployRecord(name, version, modelType)) == "Update"
  {
    var m := DeployRecord(name, version, modelType);
    assert m in multiset(store + [m]);
  }
}
