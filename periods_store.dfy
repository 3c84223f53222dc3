/** The periods store: the list of periods (eras of anime history), a
    loading flag and an error message. Every failure stores the error's
    message, or "Bir hata oluştu" when it has none. */
module PeriodsStore {
  import opened Wrappers
  import opened Text
  import opened Lists
  import opened Js

  datatype Period = Period(
    id: int,
    name: string,
    slug: string,
    description: string,
    startYear: int,
    endYear: int,
    animeCount: int,
    episodeCount: int,
    imageUrl: Option<string>,
    order: int)

  /** The requests an action sends, in order. Ids travel as strings. */
  datatype PeriodsCall =
    | GetAllPeriods
    | GetPeriod(id: string)
    | AddAnime(periodId: string, animeId: string, episodeCount: int)
    | RemoveAnime(periodId: string, animeId: string)

  const DefaultError := "Bir hata oluştu"

  /** `periods.map(p => p.id === id ? updated : p)`. */
  function ReplacePeriod(periods: seq<Period>, id: int, updated: Period): (r: seq<Period>)
    ensures |r| == |periods|
    ensures forall i :: 0 <= i < |periods| && periods[i].id == id ==> r[i] == updated
    ensures forall i :: 0 <= i < |periods| && periods[i].id != id ==> r[i] == periods[i]
  {
    MapWhere(periods, (p: Period) => p.id == id, (_: Period) => updated)
  }

  /** `periods.filter(p => p.id !== id)`. */
  function DropPeriod(periods: seq<Period>, id: int): (r: seq<Period>)
    ensures forall k :: 0 <= k < |r| ==> r[k].id != id && r[k] in periods
    ensures forall k :: 0 <= k < |periods| && periods[k].id != id ==> periods[k] in r
    ensures IsSubseq(r, periods)
  {
    Filter(periods, (p: Period) => p.id != id)
  }

  /** Deleting a period that is not in the list changes nothing. */
  lemma {:induction false} DropAbsentPeriod(periods: seq<Period>, id: int)
    requires forall k :: 0 <= k < |periods| ==> periods[k].id != id
    ensures DropPeriod(periods, id) == periods
  {
    FilterAll(periods, (p: Period) => p.id != id);
  }

  /** Replacing by an id nobody has changes nothing. */
  lemma {:induction false} ReplaceAbsentPeriod(periods: seq<Period>, id: int, updated: Period)
    requires forall k :: 0 <= k < |periods| ==> periods[k].id != id
    ensures ReplacePeriod(periods, id, updated) == periods
  {
  }

  class Store {
    var periods: seq<Period>
    var loading: bool
    var error: Option<string>

    /** The initial state. */
    constructor ()
      ensures periods == [] && !loading && error == None
    {
      periods := [];
      loading := false;
      error := None;
    }

    method Reset()
      modifies this
      ensures periods == [] && !loading && error == None
    {
      periods := [];
      loading := false;
      error := None;
    }

    method SetLoading(value: bool)
      modifies this
      ensures loading == value && periods == old(periods) && error == old(error)
    {
      loading := value;
    }

    method BeginRequest()
      modifies this
      ensures loading && error == None && periods == old(periods)
    {
      loading := true;
      error := None;
    }

    /** The catch block shared by every action. */
    method Fail(message: Option<string>)
      modifies this
      ensures !loading && error == Some(ErrorText(message, DefaultError))
      ensures periods == old(periods)
    {
      loading := false;
      error := Some(ErrorText(message, DefaultError));
    }

    method FetchAllPeriods(outcome: ApiResult<seq<Period>>)
      modifies this
      ensures !loading
      ensures outcome.Success? ==> periods == outcome.value && error == None
      ensures outcome.Failure? ==> periods == old(periods) && error == Some(ErrorText(outcome.message, DefaultError))
    {
      BeginRequest();
      match outcome {
        case Success(ps) =>
          periods := ps;
          loading := false;
        case Failure(m) =>
          Fail(m);
      }
    }

    /** `getPeriodById` hands the period back, or stores the error and
        rethrows it; the list is never touched. */
    method GetPeriodById(id: int, outcome: ApiResult<Period>) returns (r: ApiResult<Period>, calls: seq<PeriodsCall>)
      modifies this
      ensures calls == [GetPeriod(IntToString(id))]
      ensures r == outcome
      ensures periods == old(periods) && !loading
      ensures error == (if outcome.Success? then None else Some(ErrorText(outcome.message, DefaultError)))
    {
      BeginRequest();
      calls := [GetPeriod(IntToString(id))];
      if outcome.Success? {
        loading := false;
      } else {
        Fail(outcome.message);
      }
      r := outcome;
    }

    method AddPeriod(outcome: ApiResult<Period>)
      modifies this
      ensures !loading
      ensures outcome.Success? ==> periods == old(periods) + [outcome.value] && error == None
      ensures outcome.Failure? ==> periods == old(periods) && error == Some(ErrorText(outcome.message, DefaultError))
    {
      BeginRequest();
      match outcome {
        case Success(p) =>
          periods := periods + [p];
          loading := false;
        case Failure(m) =>
          Fail(m);
      }
    }

    method UpdatePeriod(id: int, outcome: ApiResult<Period>)
      modifies this
      ensures !loading
      ensures outcome.Success? ==> periods == ReplacePeriod(old(periods), id, outcome.value) && error == None
      ensures outcome.Failure? ==> periods == old(periods) && error == Some(ErrorText(outcome.message, DefaultError))
    {
      BeginRequest();
      match outcome {
        case Success(p) =>
          periods := ReplacePeriod(periods, id, p);
          loading := false;
        case Failure(m) =>
          Fail(m);
      }
    }

    method DeletePeriod(id: int, outcome: ApiResult<()>)
      modifies this
      ensures !loading
      ensures outcome.Success? ==> periods == DropPeriod(old(periods), id) && error == None
      ensures outcome.Failure? ==> periods == old(periods) && error == Some(ErrorText(outcome.message, DefaultError))
    {
      BeginRequest();
      match outcome {
        case Success(_) =>
          periods := DropPeriod(periods, id);
          loading := false;
        case Failure(m) =>
          Fail(m);
      }
    }

    /** Adds an anime to a period with `episodeCount` defaulting to 0 when
        it is not passed, then refetches every period. The refetch catches
        its own errors, so only a failure of the first call lands in this
        action's catch. */
    method AddAnimeToPeriod(periodId: int, animeId: string, episodeCount: Option<int>,
                            outcome: ApiResult<()>, refetch: ApiResult<seq<Period>>)
      returns (calls: seq<PeriodsCall>)
      modifies this
      ensures !loading
      ensures |calls| >= 1 && calls[0] == AddAnime(IntToString(periodId), animeId, episodeCount.GetOr(0))
      ensures episodeCount.None? ==> calls[0].episodeCount == 0
      ensures outcome.Success? ==> calls == [calls[0], GetAllPeriods]
      ensures outcome.Success? && refetch.Success? ==> periods == refetch.value && error == None
      ensures outcome.Success? && refetch.Failure? ==> periods == old(periods) && error == Some(ErrorText(refetch.message, DefaultError))
      ensures outcome.Failure? ==> calls == [calls[0]] && periods == old(periods) && error == Some(ErrorText(outcome.message, DefaultError))
    {
      BeginRequest();
      calls := [AddAnime(IntToString(periodId), animeId, episodeCount.GetOr(0))];
      match outcome {
        case Success(_) =>
          calls := calls + [GetAllPeriods];
          FetchAllPeriods(refetch);
        case Failure(m) =>
          Fail(m);
      }
    }

    method RemoveAnimeFromPeriod(periodId: int, animeId: string,
                                 outcome: ApiResult<()>, refetch: ApiResult<seq<Period>>)
      returns (calls: seq<PeriodsCall>)
      modifies this
      ensures !loading
      ensures outcome.Success? ==> calls == [RemoveAnime(IntToString(periodId), animeId), GetAllPeriods]
      ensures outcome.Success? && refetch.Success? ==> periods == refetch.value && error == None
      ensures outcome.Success? && refetch.Failure? ==> periods == old(periods) && error == Some(ErrorText(refetch.message, DefaultError))
      ensures outcome.Failure? ==> calls == [RemoveAnime(IntToString(periodId), animeId)] && periods == old(periods) && error == Some(ErrorText(outcome.message, DefaultError))
    {
      BeginRequest();
      calls := [RemoveAnime(IntToString(periodId), animeId)];
      match outcome {
        case Success(_) =>
          calls := calls + [GetAllPeriods];
          FetchAllPeriods(refetch);
        case Failure(m) =>
          Fail(m);
      }
    }
  }
}
