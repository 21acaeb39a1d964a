/** The read-only cloud functions: `getPerformanceMetrics`, which lists the
    caller's ten newest ModelPerformance records as chart rows, and
    `getResourceUsage`, which reports a random usage sample. */
module PerformanceMetrics {
  import opened Numbers
  import opened Wrappers
  import opened JsValues
  import opened TrainingJobs
  import Text
  import IsoTime

  /** A stored ModelPerformance object with the `createdAt` time the backend
      gave it, in milliseconds since the epoch. */
  datatype StoredPerformance = StoredPerformance(record: ModelPerformance, createdAt: IsoTime.TimeValue)

  /** One chart row: the creation date, the recorded value and `1 - value`. */
  datatype MetricRow = MetricRow(date: string, accuracy: JsValue, loss: JsNumber)

  /** The stored records, in storage order, and the error the query throws, if any. */
  datatype MetricsEnv = MetricsEnv(store: seq<StoredPerformance>, findFault: Option<string>)

  const MetricsLimit: nat := 10
  const MetricsFailedPrefix: string := "Failed to fetch performance metrics: "


  /** The caller's records, in storage order (`query.equalTo("user", user)`). */
  function OwnedBy(store: seq<StoredPerformance>, user: User): (r: seq<StoredPerformance>)
    ensures forall x :: x in r <==> x in store && x.record.user == user
    ensures multiset(r) <= multiset(store)
  {
    if |store| == 0 then []
    else
      assert store == [store[0]] + store[1..];
      if store[0].record.user == user then [store[0]] + OwnedBy(store[1..], user)
      else OwnedBy(store[1..], user)
  }

  /** Newest first: no record is newer than one before it. */
  predicate NewestFirst(s: seq<StoredPerformance>)
  {
    forall i, j :: 0 <= i < j < |s| ==> s[j].createdAt <= s[i].createdAt
  }

  /** A record no older than every record of a newest-first sequence can
      go in front of it. */
  lemma PrependNewestFirst(a: StoredPerformance, t: seq<StoredPerformance>)
    requires NewestFirst(t)
    requires forall k :: 0 <= k < |t| ==> t[k].createdAt <= a.createdAt
    ensures NewestFirst([a] + t)
  {
    var r := [a] + t;
    forall i, j | 0 <= i < j < |r|
      ensures r[j].createdAt <= r[i].createdAt
    {
      assert r[j] == t[j - 1];
      if i > 0 { assert r[i] == t[i - 1]; }
    }
  }

  /** Inserts `x` into a newest-first sequence before every record that is
      not newer than it. */
  function Insert(x: StoredPerformance, s: seq<StoredPerformance>): (r: seq<StoredPerformance>)
    requires NewestFirst(s)
    ensures NewestFirst(r)
    ensures multiset(r) == multiset(s) + multiset{x}
    ensures forall y :: y in r ==> y == x || y in s
  {
    if |s| == 0 || s[0].createdAt <= x.createdAt then
      PrependNewestFirst(x, s);
      [x] + s
    else
      assert s == [s[0]] + s[1..];
      var t := Insert(x, s[1..]);
      assert forall k :: 0 <= k < |t| ==> t[k] in t;
      PrependNewestFirst(s[0], t);
      [s[0]] + t
  }

  /** `query.descending("createdAt")`: the records reordered newest first. */
  function SortNewestFirst(s: seq<StoredPerformance>): (r: seq<StoredPerformance>)
    ensures NewestFirst(r)
    ensures multiset(r) == multiset(s)
  {
    if |s| == 0 then []
    else
      assert s == [s[0]] + s[1..];
      Insert(s[0], SortNewestFirst(s[1..]))
  }

  /** The records the query returns: the caller's, newest first, at most ten. */
  function SelectRecords(store: seq<StoredPerformance>, user: User): (r: seq<StoredPerformance>)
    ensures |r| == Min(MetricsLimit, |OwnedBy(store, user)|)
    ensures NewestFirst(r)
    ensures forall x :: x in r ==> x in store && x.record.user == user
    ensures multiset(r) <= multiset(OwnedBy(store, user))
  {
    var owned := OwnedBy(store, user);
    var sorted := SortNewestFirst(owned);
    var r := sorted[..Min(MetricsLimit, |sorted|)];
    SplitNewestFirst(sorted, |r|);
    assert forall x :: x in sorted ==> x in multiset(owned);
    r
  }

  /** Cutting a newest-first sequence at `k` keeps a newest-first prefix of
      it and divides its records between the two parts. */
  lemma SplitNewestFirst(s: seq<StoredPerformance>, k: nat)
    requires NewestFirst(s) && k <= |s|
    ensures NewestFirst(s[..k])
    ensures multiset(s) == multiset(s[..k]) + multiset(s[k..])
    ensures forall x :: x in s[..k] ==> x in s
  {
    assert s == s[..k] + s[k..];
  }

  /** Every record of the caller that the limit cuts off is no newer than
      every record that is returned. */
  lemma SelectionKeepsNewest(store: seq<StoredPerformance>, user: User, x: StoredPerformance, y: StoredPerformance)
    requires x in SelectRecords(store, user)
    requires y in multiset(OwnedBy(store, user)) - multiset(SelectRecords(store, user))
    ensures y.createdAt <= x.createdAt
  {
    var sorted := SortNewestFirst(OwnedBy(store, user));
    var k := Min(MetricsLimit, |sorted|);
    SplitNewestFirst(sorted, k);
    DroppedNoNewer(sorted, k, x, y);
  }

  /** In a newest-first sequence, whatever lies past position `k` is no
      newer than whatever lies before it. */
  lemma DroppedNoNewer(sorted: seq<StoredPerformance>, k: nat, x: StoredPerformance, y: StoredPerformance)
    requires NewestFirst(sorted) && k <= |sorted|
    requires x in sorted[..k] && y in multiset(sorted[k..])
    ensures y.createdAt <= x.createdAt
  {
    var dropped := sorted[k..];
    assert y in dropped;
    var j :| 0 <= j < |dropped| && dropped[j] == y;
    var i :| 0 <= i < k && sorted[..k][i] == x;
    assert sorted[i] == x && sorted[k + j] == y;
  }

  /** With ten records or fewer, the caller gets all of them. */
  lemma SelectionComplete(store: seq<StoredPerformance>, user: User)
    requires |OwnedBy(store, user)| <= MetricsLimit
    ensures multiset(SelectRecords(store, user)) == multiset(OwnedBy(store, user))
  {
    var sorted := SortNewestFirst(OwnedBy(store, user));
    assert sorted[..|sorted|] == sorted;
  }

  /** The chart row of one record. */
  function RowOf(p: StoredPerformance): (row: MetricRow)
    ensures row.date == Text.BeforeFirst(IsoTime.ToIsoString(p.createdAt), 'T')
    ensures row.accuracy == p.record.value
    ensures row.loss.Finite? <==> ToNumber(p.record.value).Finite?
    ensures row.loss.Finite? ==> row.loss.value + ToNumber(p.record.value).value == 1.0
  {
    MetricRow(IsoTime.IsoDate(p.createdAt), p.record.value, OneMinus(p.record.value))
  }

  function GetPerformanceMetrics(user: Option<User>, env: MetricsEnv): (r: Result<seq<MetricRow>, CloudError>)
    ensures user.None? ==> r == Failure(SessionError)
    ensures user.Some? && env.findFault.Some? ==>
              r == Failure(CloudError(InternalServerError, MetricsFailedPrefix + env.findFault.value))
    ensures user.Some? && env.findFault.None? ==>
              r.Success? && |r.value| == Min(MetricsLimit, |OwnedBy(env.store, user.value)|)
  {
    match user
    case None => Failure(SessionError)
    case Some(u) =>
      match env.findFault
      case Some(msg) => Failure(CloudError(InternalServerError, MetricsFailedPrefix + msg))
      case None =>
        var selected := SelectRecords(env.store, u);
        Success(seq(|selected|, i requires 0 <= i < |selected| => RowOf(selected[i])))
  }

  /** A successful reply has at most ten rows, each the row of one of the
      caller's records, newest first: the date of a later row comes from a
      record that is no newer than the one before it. */
  lemma MetricsRowsOfCaller(u: User, env: MetricsEnv)
    requires env.findFault.None?
    ensures var r := GetPerformanceMetrics(Some(u), env);
      var selected := SelectRecords(env.store, u);
      && r.Success? && |r.value| <= MetricsLimit && |r.value| == |selected|
      && NewestFirst(selected)
      && forall i :: 0 <= i < |r.value| ==>
           && selected[i] in env.store && selected[i].record.user == u
           && r.value[i] == RowOf(selected[i])
  {
    var selected := SelectRecords(env.store, u);
    forall i | 0 <= i < |selected|
      ensures selected[i] in env.store && selected[i].record.user == u
    {
      assert selected[i] in selected;
    }
  }

  /** The draws of `Math.random()`, each in [0, 1). */
  type UnitDraw = r: real | 0.0 <= r < 1.0

  datatype ResourceUsage = ResourceUsage(cpu: real, memory: real, gpu: real)

  /** `getResourceUsage`: rejects an anonymous caller, otherwise reports three
      percentages scaled from the random draws. */
  function GetResourceUsage(user: Option<User>, cpuDraw: UnitDraw, memoryDraw: UnitDraw, gpuDraw: UnitDraw)
    : (r: Result<ResourceUsage, CloudError>)
    ensures user.None? <==> r == Failure(SessionError)
    ensures user.Some? ==>
              && r.Success?
              && 0.0 <= r.value.cpu < 100.0 && 0.0 <= r.value.memory < 100.0 && 0.0 <= r.value.gpu < 100.0
  {
    if user.None? then Failure(SessionError)
    else Success(ResourceUsage(cpuDraw * 100.0, memoryDraw * 100.0, gpuDraw * 100.0))
  }
}
