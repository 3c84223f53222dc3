/** The season store: the seasons of one anime, a loading flag and an error
    message. Adding, updating and deleting a season call the backend and then
    reload the seasons of the same anime. */
module SeasonStore {
  import opened Wrappers
  import opened Text
  import opened Js
  import opened Slug

  datatype Season = Season(
    id: string,
    animeId: string,
    name: string,
    number: int,
    episodeCount: int,
    description: Option<string>,
    createdAt: Option<string>,
    updatedAt: Option<string>)

  /** The form data handed to `addSeason`/`updateSeason`; `None` is
      `undefined`. */
  datatype SeasonInput = SeasonInput(
    animeId: string,
    name: Option<string>,
    slug: Option<string>,
    number: Value,
    releaseYear: Value,
    episodeCount: Value)

  /** The body sent for a season; it has no `animeId`, which travels in
      the URL. */
  datatype SeasonBody = SeasonBody(
    name: Option<string>,
    slug: Option<string>,
    number: Value,
    releaseYear: Value,
    episodeCount: Value)

  /** The requests an action sends, in order. */
  datatype SeasonCall =
    | GetByAnime(animeId: string)
    | Create(animeId: string, body: SeasonBody)
    | Update(id: string, animeId: string, body: SeasonBody)
    | Delete(id: string, animeId: string)

  const DefaultError := "Bir hata oluştu"

  /** `data.slug || data.name?.toLowerCase().replace(/\s+/g, "-")`. */
  function SeasonSlug(slug: Option<string>, name: Option<string>): (r: Option<string>)
    ensures slug.Some? && slug.value != "" ==> r == slug
    ensures (slug.None? || slug.value == "") && name.Some? ==> r == Some(WhitespaceSlug(name.value))
    ensures (slug.None? || slug.value == "") && name.None? ==> r.None?
    ensures (slug.None? || slug.value == "") && r.Some? ==> NoSpace(r.value) && NoUpper(r.value)
  {
    if slug.Some? && slug.value != "" then slug
    else if name.Some? then Some(WhitespaceSlug(name.value))
    else None
  }

  /** A derived slug is already a slug of itself: saving a season with the
      slug it was given keeps that slug. */
  lemma {:induction false} SeasonSlugStable(name: string)
    ensures var s := WhitespaceSlug(name);
      SeasonSlug(None, Some(s)) == Some(s)
  {
    WhitespaceSlugIdempotent(name);
  }

  /** The body shared by add and update: the slug default, and
      `episodeCount || 0`. */
  function Body(data: SeasonInput): (b: SeasonBody)
    ensures b.name == data.name && b.number == data.number && b.releaseYear == data.releaseYear
    ensures b.slug == SeasonSlug(data.slug, data.name)
    ensures Truthy(data.episodeCount) ==> b.episodeCount == data.episodeCount
    ensures !Truthy(data.episodeCount) ==> b.episodeCount == Num(0)
  {
    SeasonBody(data.name, SeasonSlug(data.slug, data.name), data.number, data.releaseYear,
      if Truthy(data.episodeCount) then data.episodeCount else Num(0))
  }

  const MockSeasons: seq<Season> := [
    Season("1", "anime1", "Sezon 1", 1, 12, Some("İlk sezon"), Some("2024-01-01"), Some("2024-01-01")),
    Season("2", "anime2", "Sezon 2", 2, 24, Some("İkinci sezon"), Some("2024-01-02"), Some("2024-01-02"))]

  class Store {
    var seasons: seq<Season>
    var loading: bool
    var error: Option<string>

    constructor ()
      ensures seasons == [] && !loading && error == None
    {
      seasons := [];
      loading := false;
      error := None;
    }

    method Reset()
      modifies this
      ensures seasons == [] && !loading && error == None
    {
      seasons := [];
      loading := false;
      error := None;
    }

    method SetLoading(value: bool)
      modifies this
      ensures loading == value && seasons == old(seasons) && error == old(error)
    {
      loading := value;
    }

    /** `fetchSeasons`: `res.data.seasons || []`, where `None` is a missing
      or falsy field. */
    method FetchSeasons(animeId: string, outcome: ApiResult<Option<seq<Season>>>) returns (calls: seq<SeasonCall>)
      modifies this
      ensures calls == [GetByAnime(animeId)] && !loading
      ensures outcome.Success? ==> seasons == outcome.value.GetOr([]) && error == None
      ensures outcome.Failure? ==> seasons == old(seasons) && error == Some(ErrorText(outcome.message, DefaultError))
    {
      loading := true;
      error := None;
      calls := [GetByAnime(animeId)];
      match outcome {
        case Success(found) =>
          seasons := found.GetOr([]);
          loading := false;
        case Failure(m) =>
          loading := false;
          error := Some(ErrorText(m, DefaultError));
      }
    }

    /** `fetchAllSeasons` serves two fixed seasons and sends nothing. */
    method FetchAllSeasons()
      modifies this
      ensures seasons == MockSeasons && !loading && error == None
    {
      loading := true;
      error := None;
      seasons := MockSeasons;
      loading := false;
    }

    /** The tail shared by the three mutations: after the call succeeded,
      reload the anime's seasons (that reload records its own error), then
      clear `loading`; after it failed, record its error. */
    method AfterMutation(animeId: string, outcome: ApiResult<()>, refetch: ApiResult<Option<seq<Season>>>)
      returns (calls: seq<SeasonCall>)
      modifies this
      ensures !loading
      ensures outcome.Success? ==> calls == [GetByAnime(animeId)]
      ensures outcome.Success? && refetch.Success? ==> seasons == refetch.value.GetOr([]) && error == None
      ensures outcome.Success? && refetch.Failure? ==> seasons == old(seasons) && error == Some(ErrorText(refetch.message, DefaultError))
      ensures outcome.Failure? ==> calls == [] && seasons == old(seasons) && error == Some(ErrorText(outcome.message, DefaultError))
    {
      calls := [];
      match outcome {
        case Success(_) =>
          calls := FetchSeasons(animeId, refetch);
          loading := false;
        case Failure(m) =>
          loading := false;
          error := Some(ErrorText(m, DefaultError));
      }
    }

    method AddSeason(data: SeasonInput, outcome: ApiResult<()>, refetch: ApiResult<Option<seq<Season>>>)
      returns (calls: seq<SeasonCall>)
      modifies this
      ensures !loading
      ensures |calls| >= 1 && calls[0] == Create(data.animeId, Body(data))
      ensures outcome.Success? ==> calls == [calls[0], GetByAnime(data.animeId)]
      ensures outcome.Success? && refetch.Success? ==> seasons == refetch.value.GetOr([]) && error == None
      ensures outcome.Success? && refetch.Failure? ==> seasons == old(seasons) && error == Some(ErrorText(refetch.message, DefaultError))
      ensures outcome.Failure? ==> calls == [calls[0]] && seasons == old(seasons) && error == Some(ErrorText(outcome.message, DefaultError))
    {
      loading := true;
      error := None;
      var more := AfterMutation(data.animeId, outcome, refetch);
      calls := [Create(data.animeId, Body(data))] + more;
    }

    method UpdateSeason(id: string, data: SeasonInput, outcome: ApiResult<()>, refetch: ApiResult<Option<seq<Season>>>)
      returns (calls: seq<SeasonCall>)
      modifies this
      ensures !loading
      ensures |calls| >= 1 && calls[0] == Update(id, data.animeId, Body(data))
      ensures outcome.Success? ==> calls == [calls[0], GetByAnime(data.animeId)]
      ensures outcome.Success? && refetch.Success? ==> seasons == refetch.value.GetOr([]) && error == None
      ensures outcome.Success? && refetch.Failure? ==> seasons == old(seasons) && error == Some(ErrorText(refetch.message, DefaultError))
      ensures outcome.Failure? ==> calls == [calls[0]] && seasons == old(seasons) && error == Some(ErrorText(outcome.message, DefaultError))
    {
      loading := true;
      error := None;
      var more := AfterMutation(data.animeId, outcome, refetch);
      calls := [Update(id, data.animeId, Body(data))] + more;
    }

    method DeleteSeason(id: string, animeId: string, outcome: ApiResult<()>, refetch: ApiResult<Option<seq<Season>>>)
      returns (calls: seq<SeasonCall>)
      modifies this
      ensures !loading
      ensures outcome.Success? ==> calls == [Delete(id, animeId), GetByAnime(animeId)]
      ensures outcome.Success? && refetch.Success? ==> seasons == refetch.value.GetOr([]) && error == None
      ensures outcome.Success? && refetch.Failure? ==> seasons == old(seasons) && error == Some(ErrorText(refetch.message, DefaultError))
      ensures outcome.Failure? ==> calls == [Delete(id, animeId)] && seasons == old(seasons) && error == Some(ErrorText(outcome.message, DefaultError))
    {
      loading := true;
      error := None;
      var more := AfterMutation(animeId, outcome, refetch);
      calls := [Delete(id, animeId)] + more;
    }
  }
}
