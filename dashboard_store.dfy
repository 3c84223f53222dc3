/** The dashboard store: the admin statistics object (or `null`) and a
    loading flag. `getStats` checks the shape of the response and settles on
    the response itself, an all-zero default, or `null`, reporting every
    case but the first to the optional error callback. */
module DashboardStore {
  import opened Wrappers
  import opened Js

  /** The keys a statistics object must have to be taken as it is. */
  const RequiredKeys: seq<string> := ["totalUsers", "activeUsers", "totalAnimes", "totalComments"]

  /** The counters of the default object, all zero. */
  const CounterKeys: seq<string> := ["totalUsers", "activeUsers", "bannedUsers", "totalAnimes",
                                     "totalComments", "totalReports", "totalViews", "pendingReports"]

  /** `typeof v === "object" && v !== null`: objects and arrays. */
  predicate IsObject(v: Value) {
    v.Obj? || v.Arr?
  }

  /** `requiredProps.every(prop => prop in v)`; an array has none of these
      keys. */
  predicate HasRequired(v: Value) {
    v.Obj? && forall k :: 0 <= k < |RequiredKeys| ==> RequiredKeys[k] in v.fields
  }

  /** The default statistics, stamped with the time `now` (an ISO string). */
  function DefaultStats(now: string): (v: Value)
    ensures HasRequired(v)
    ensures forall k :: 0 <= k < |CounterKeys| ==> CounterKeys[k] in v.fields && v.fields[CounterKeys[k]] == Num(0)
    ensures "lastUpdated" in v.fields && v.fields["lastUpdated"] == Str(now)
  {
    Obj(map[
      "totalUsers" := Num(0), "activeUsers" := Num(0), "bannedUsers" := Num(0),
      "totalAnimes" := Num(0), "totalComments" := Num(0), "totalReports" := Num(0),
      "totalViews" := Num(0), "pendingReports" := Num(0), "lastUpdated" := Str(now)])
  }

  /** What the error callback is called with. */
  datatype StatsError =
    | MissingProperties
    | InvalidStructure
    | NoData
    | RequestFailed(message: Option<string>)

  /** The statistics `getStats` settles on and the error it reports. */
  datatype StatsResult = StatsResult(stats: Option<Value>, report: Option<StatsError>)

  /** The branches of `getStats`, for a request that resolved with `data`
      (`Success`) or threw. */
  function Settle(outcome: ApiResult<Value>, now: string): (r: StatsResult)
    ensures r.stats.Some? ==> HasRequired(r.stats.value)
    ensures outcome.Success? && HasRequired(outcome.value) ==> r == StatsResult(Some(outcome.value), None)
    ensures outcome.Success? && IsObject(outcome.value) && !HasRequired(outcome.value)
      ==> r == StatsResult(Some(DefaultStats(now)), Some(MissingProperties))
    ensures outcome.Success? && Truthy(outcome.value) && !IsObject(outcome.value) ==> r == StatsResult(None, Some(InvalidStructure))
    ensures outcome.Success? && !Truthy(outcome.value) ==> r == StatsResult(None, Some(NoData))
    ensures outcome.Failure? ==> r == StatsResult(Some(DefaultStats(now)), Some(RequestFailed(outcome.message)))
  {
    match outcome
    case Failure(m) => StatsResult(Some(DefaultStats(now)), Some(RequestFailed(m)))
    case Success(data) =>
      if !Truthy(data) then StatsResult(None, Some(NoData))
      else if !IsObject(data) then StatsResult(None, Some(InvalidStructure))
      else if HasRequired(data) then StatsResult(Some(data), None)
      else StatsResult(Some(DefaultStats(now)), Some(MissingProperties))
  }

  /** Exactly the accepted response goes unreported, and a `null` result is
      always reported as a bad response. */
  lemma {:induction false} SettleReports(outcome: ApiResult<Value>, now: string)
    ensures var r := Settle(outcome, now);
      && (r.report.None? <==> outcome.Success? && HasRequired(outcome.value))
      && (r.stats.None? <==> r.report == Some(InvalidStructure) || r.report == Some(NoData))
  {
    var r := Settle(outcome, now);
    if outcome.Success? && HasRequired(outcome.value) {
      assert r.report.None?;
    }
  }

  class Store {
    var loading: bool
    var stats: Option<Value>

    /** Held statistics always carry the required keys. */
    predicate Valid()
      reads this
    {
      stats.Some? ==> HasRequired(stats.value)
    }

    constructor ()
      ensures !loading && stats == None && Valid()
    {
      loading := false;
      stats := None;
    }

    method SetLoading(value: bool)
      modifies this
      ensures loading == value && stats == old(stats)
    {
      loading := value;
    }

    method Reset()
      modifies this
      ensures !loading && stats == None && Valid()
    {
      loading := false;
      stats := None;
    }

    /** `getStats(errCb)`: `reported` is what the callback receives, and
      is empty when no callback is passed. */
    method GetStats(outcome: ApiResult<Value>, now: string, hasErrCb: bool) returns (reported: seq<StatsError>)
      modifies this
      ensures !loading && Valid()
      ensures stats == Settle(outcome, now).stats
      ensures !hasErrCb ==> reported == []
      ensures hasErrCb ==> reported == (if Settle(outcome, now).report.Some? then [Settle(outcome, now).report.value] else [])
    {
      loading := true;
      var r := Settle(outcome, now);
      stats := r.stats;
      loading := false;
      reported := if hasErrCb && r.report.Some? then [r.report.value] else [];
    }
  }
}
