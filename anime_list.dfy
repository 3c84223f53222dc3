/** The anime list page: the payload its form submits, the genre choices
    of the filter bar, the search filter, the star rendering of a rating,
    the optimistic "featured" overrides, and the modal handlers that send
    anime and season requests. */
module AnimeList {
  import opened Wrappers
  import opened Text
  import opened Lists
  import opened Js
  import opened Slug
  import SeasonStore

  /** An anime as the store holds it. */
  datatype Anime = Anime(
    id: string,
    title: string,
    slug: string,
    genres: Option<seq<string>>,
    featured: Option<bool>,
    rating: Value)

  /** The values the add/edit form submits; the loosely typed fields are
      `Value`s, a missing text field is `None`. */
  datatype AnimeForm = AnimeForm(
    title: string,
    slug: Option<string>,
    description: Option<string>,
    releaseYear: Value,
    animeType: string,
    status: string,
    imageUrl: Option<string>,
    bannerUrl: Option<string>,
    studios: Value,
    trailerUrl: Option<string>,
    genres: Value,
    rating: Value)

  /** The body sent to create or update an anime. */
  datatype AnimePayload = AnimePayload(
    title: string,
    slug: string,
    description: Option<string>,
    releaseYear: Option<int>,
    animeType: string,
    status: string,
    imageUrl: Option<string>,
    bannerUrl: Option<string>,
    studios: seq<Value>,
    trailerUrl: Option<string>,
    genres: seq<int>,
    rating: int)

  // ---------------------------------------------------------------- the payload

  /** `genres.map(Number).filter(n => !Number.isNaN(n))`. */
  function GenreNumbers(items: seq<Value>): (r: seq<int>)
    ensures |r| <= |items|
    ensures forall k :: 0 <= k < |r| ==> exists j :: 0 <= j < |items| && ToNumber(items[j]) == Some(r[k])
    ensures forall j :: 0 <= j < |items| && ToNumber(items[j]).Some? ==> ToNumber(items[j]).value in r
    decreases |items|
  {
    if |items| == 0 then []
    else
      var rest := GenreNumbers(items[1..]);
      assert forall k :: 0 <= k < |rest| ==> exists j :: 0 <= j < |items| && ToNumber(items[j]) == Some(rest[k]) by {
        forall k | 0 <= k < |rest| ensures exists j :: 0 <= j < |items| && ToNumber(items[j]) == Some(rest[k]) {
          var j :| 0 <= j < |items[1..]| && ToNumber(items[1..][j]) == Some(rest[k]);
          assert items[j + 1] == items[1..][j];
        }
      }
      assert forall j :: 1 <= j < |items| ==> items[j] == items[1..][j - 1];
      match ToNumber(items[0])
      case Some(n) => [n] + rest
      case None => rest
  }

  /** A list of entries that all convert is converted entry by entry. */
  lemma {:induction false} GenreNumbersOfNumeric(items: seq<Value>)
    requires forall j :: 0 <= j < |items| ==> ToNumber(items[j]).Some?
    ensures |GenreNumbers(items)| == |items|
    ensures forall j :: 0 <= j < |items| ==> GenreNumbers(items)[j] == ToNumber(items[j]).value
    decreases |items|
  {
    if |items| > 0 {
      GenreNumbersOfNumeric(items[1..]);
      assert forall j :: 1 <= j < |items| ==> items[j] == items[1..][j - 1];
    }
  }

  /** Entries none of which converts leave no genre at all. */
  lemma {:induction false} GenreNumbersOfNone(items: seq<Value>)
    requires forall j :: 0 <= j < |items| ==> ToNumber(items[j]).None?
    ensures GenreNumbers(items) == []
    decreases |items|
  {
    if |items| > 0 {
      GenreNumbersOfNone(items[1..]);
      assert forall j :: 1 <= j < |items| ==> items[j] == items[1..][j - 1];
    }
  }

  /** `buildAnimePayload(values)`. */
  function BuildAnimePayload(v: AnimeForm): (p: AnimePayload)
    ensures p.title == v.title && p.description == v.description && p.animeType == v.animeType
    ensures p.status == v.status && p.imageUrl == v.imageUrl && p.bannerUrl == v.bannerUrl
    ensures p.trailerUrl == v.trailerUrl
    ensures IsSlug(p.slug)
    ensures v.slug.Some? && v.slug.value != "" ==> p.slug == Slugify(v.slug.value)
    ensures v.slug.None? || v.slug.value == "" ==> p.slug == Slugify(v.title)
    ensures p.releaseYear.Some? <==> ToNumber(v.releaseYear).Some? && ToNumber(v.releaseYear).value != 0
    ensures p.releaseYear.Some? ==> p.releaseYear == ToNumber(v.releaseYear)
    ensures v.studios.Arr? ==> p.studios == v.studios.items
    ensures !v.studios.Arr? ==> p.studios == []
    ensures v.genres.Arr? ==> p.genres == GenreNumbers(v.genres.items)
    ensures !v.genres.Arr? ==> p.genres == []
    ensures v.rating.Num? ==> p.rating == v.rating.n
    ensures !v.rating.Num? ==> p.rating == NumberOr(v.rating, 0)
  {
    var slugSource := if v.slug.Some? && v.slug.value != "" then v.slug.value else v.title;
    SlugifyIsSlug(slugSource);
    AnimePayload(
      v.title,
      Slugify(slugSource),
      v.description,
      if NumberOr(v.releaseYear, 0) != 0 then Some(NumberOr(v.releaseYear, 0)) else None,
      v.animeType,
      v.status,
      v.imageUrl,
      v.bannerUrl,
      if v.studios.Arr? then v.studios.items else [],
      v.trailerUrl,
      if v.genres.Arr? then GenreNumbers(v.genres.items) else [],
      if v.rating.Num? then v.rating.n else NumberOr(v.rating, 0))
  }

  /** The form prefilled from a saved payload, as the edit modal receives
      it: numbers as numbers, lists as arrays. */
  function FormOf(p: AnimePayload): AnimeForm {
    AnimeForm(
      p.title, Some(p.slug), p.description,
      if p.releaseYear.Some? then Num(p.releaseYear.value) else Undefined,
      p.animeType, p.status, p.imageUrl, p.bannerUrl, Arr(p.studios), p.trailerUrl,
      Arr(Nums(p.genres)),
      Num(p.rating))
  }

  /** A list of numbers as array entries. */
  function Nums(ids: seq<int>): (items: seq<Value>)
    ensures |items| == |ids|
    ensures forall j :: 0 <= j < |ids| ==> items[j] == Num(ids[j])
  {
    seq(|ids|, i requires 0 <= i < |ids| => Num(ids[i]))
  }

  /** Numeric genre ids survive the conversion unchanged. */
  lemma {:induction false} GenreNumbersOfNums(ids: seq<int>)
    ensures GenreNumbers(Nums(ids)) == ids
  {
    var items := Nums(ids);
    GenreNumbersOfNumeric(items);
    assert forall j :: 0 <= j < |ids| ==> ToNumber(items[j]) == Some(ids[j]);
  }

  /** A payload `buildAnimePayload` can produce with a non-empty slug. */
  predicate Saved(p: AnimePayload) {
    IsSlug(p.slug) && p.slug != "" && (p.releaseYear.Some? ==> p.releaseYear.value != 0)
  }

  /** Submitting the form unchanged after opening it on a saved payload
      sends that payload again. */
  lemma {:induction false} BuildOfFormOf(p: AnimePayload)
    requires Saved(p)
    ensures BuildAnimePayload(FormOf(p)) == p
  {
    var v := FormOf(p);
    var q := BuildAnimePayload(v);
    SlugifyOfSlug(p.slug);
    assert q.slug == p.slug;
    assert q.releaseYear == p.releaseYear;
    GenreNumbersOfNums(p.genres);
    assert q.genres == p.genres;
  }

  /** A slug that slugifies to nothing falls back to the title on the next
      submit: the round trip needs a non-empty slug. */
  lemma {:induction false} EmptySlugFallsBack(v: AnimeForm)
    requires BuildAnimePayload(v).slug == "" && Slugify(v.title) != ""
    ensures BuildAnimePayload(v.(slug := Some(BuildAnimePayload(v).slug))).slug == Slugify(v.title)
  {
  }

  // ---------------------------------------------------------------- genres and search

  predicate HasGenre(a: Anime, g: string) {
    a.genres.Some? && g in a.genres.value
  }

  /** `animes.flatMap(a => a.genres || [])`. */
  function FlatGenres(animes: seq<Anime>): (r: seq<string>)
    ensures forall g :: g in r <==> exists i :: 0 <= i < |animes| && HasGenre(animes[i], g)
    decreases |animes|
  {
    if |animes| == 0 then []
    else
      var rest := FlatGenres(animes[1..]);
      assert forall i :: 1 <= i < |animes| ==> animes[i] == animes[1..][i - 1];
      assert forall g :: (exists i :: 1 <= i < |animes| && HasGenre(animes[i], g)) ==> g in rest by {
        forall g | exists i :: 1 <= i < |animes| && HasGenre(animes[i], g) ensures g in rest {
          var i :| 1 <= i < |animes| && HasGenre(animes[i], g);
          assert HasGenre(animes[1..][i - 1], g);
        }
      }
      animes[0].genres.GetOr([]) + rest
  }

  /** `Array.from(new Set(...))`: the filter bar's genre choices, each
      genre once. */
  function AllGenres(animes: seq<Anime>): (r: seq<string>)
    ensures NoDuplicates(r)
    ensures forall g :: g in r <==> exists i :: 0 <= i < |animes| && HasGenre(animes[i], g)
    ensures forall k :: 0 <= k < |r| ==> r[k] in FlatGenres(animes)
    ensures InFirstOrder(r, FlatGenres(animes))
  {
    var flat := FlatGenres(animes);
    var r := Dedupe(flat);
    DedupeOrder(flat);
    assert forall g :: g in r <==> g in flat by {
      forall g ensures g in r <==> g in flat {
        if g in r {
          var k :| 0 <= k < |r| && r[k] == g;
        }
        if g in flat {
          var k :| 0 <= k < |flat| && flat[k] == g;
        }
      }
    }
    r
  }

  /** The filter of `filteredData`: the lower-cased title contains the
      lower-cased search, and a chosen genre is among the anime's genres. */
  predicate Matches(a: Anime, search: string, genre: Option<string>) {
    && Contains(Lower(a.title), Lower(search))
    && (genre.Some? && genre.value != "" ==> HasGenre(a, genre.value))
  }

  function FilteredAnimes(animes: seq<Anime>, search: string, genre: Option<string>): (r: seq<Anime>)
    ensures IsSubseq(r, animes)
    ensures forall k :: 0 <= k < |r| ==> Contains(Lower(r[k].title), Lower(search))
    ensures forall k :: 0 <= k < |r| ==> genre.Some? && genre.value != "" ==> HasGenre(r[k], genre.value)
    ensures forall k :: (0 <= k < |animes| && Contains(Lower(animes[k].title), Lower(search))
      && (genre.Some? && genre.value != "" ==> HasGenre(animes[k], genre.value))
      ==> animes[k] in r)
  {
    var r := Filter(animes, (a: Anime) => Matches(a, search, genre));
    assert forall k :: 0 <= k < |animes| && Matches(animes[k], search, genre) ==> animes[k] in r;
    r
  }

  /** With no search text and no genre the table shows every anime. */
  lemma {:induction false} FilteredWithoutFilters(animes: seq<Anime>)
    ensures FilteredAnimes(animes, "", None) == animes
  {
    assert Lower("") == "";
    assert forall k :: 0 <= k < |animes| ==> Matches(animes[k], "", None) by {
      forall k | 0 <= k < |animes| ensures Matches(animes[k], "", None) {
        assert "" <= Lower(animes[k].title);
      }
    }
    FilterAll(animes, (a: Anime) => Matches(a, "", None));
  }

  /** The search ignores the case of what is typed. */
  lemma {:induction false} FilteredIgnoresCase(animes: seq<Anime>, search: string, genre: Option<string>)
    ensures FilteredAnimes(animes, Lower(search), genre) == FilteredAnimes(animes, search, genre)
    decreases |animes|
  {
    LowerOfLowered(Lower(search));
    if |animes| > 0 {
      FilteredIgnoresCase(animes[1..], search, genre);
    }
  }

  // ---------------------------------------------------------------- stars

  /** `typeof v === "number" ? v : Number(v) || 0`. */
  function RatingNumber(v: Value): (n: int)
    ensures v.Num? ==> n == v.n
    ensures !v.Num? ==> n == NumberOr(v, 0)
  {
    if v.Num? then v.n else NumberOr(v, 0)
  }

  /** `Math.min(10, Math.max(0, n))`. */
  function ClampTen(n: int): (c: int)
    ensures 0 <= c <= 10
    ensures 0 <= n <= 10 ==> c == n
    ensures n < 0 ==> c == 0
    ensures n > 10 ==> c == 10
  {
    if n < 0 then 0 else if n > 10 then 10 else n
  }

  /** The filled stars for a rating on the 0-10 scale:
      `Math.round(clamped / 10 * 5)` bounded to [0, 5]. On a whole rating the
      half is rounded up, so the count is the clamped rating halved upwards. */
  function StarCount(rating: Value): (s: nat)
    ensures s <= 5
    ensures ClampTen(RatingNumber(rating)) == 2 * s || ClampTen(RatingNumber(rating)) == 2 * s - 1
  {
    var c := ClampTen(RatingNumber(rating));
    Max(0, Min(5, (c + 1) / 2))
  }

  function Min(a: int, b: int): int { if a < b then a else b }
  function Max(a: int, b: int): int { if a < b then b else a }

  /** `5 - fullStars`. */
  function EmptyStars(rating: Value): (e: nat)
    ensures e + StarCount(rating) == 5
  {
    5 - StarCount(rating)
  }

  /** A higher rating never shows fewer stars. */
  lemma {:induction false} StarCountMonotone(a: int, b: int)
    requires a <= b
    ensures StarCount(Num(a)) <= StarCount(Num(b))
  {
    var ca := ClampTen(a);
    var cb := ClampTen(b);
    assert ca <= cb;
    assert (ca + 1) / 2 <= (cb + 1) / 2;
  }

  // ---------------------------------------------------------------- featured

  /** `featuredOverride[anime.id] ?? Boolean(anime.featured)`. */
  function Featured(overrides: map<string, bool>, a: Anime): (on: bool)
    ensures a.id in overrides ==> on == overrides[a.id]
    ensures a.id !in overrides ==> (on <==> a.featured == Some(true))
  {
    if a.id in overrides then overrides[a.id] else a.featured.GetOr(false)
  }

  /** The overrides after a toggle: set to the negation of the shown
      state, and set back when the request threw. */
  function Toggled(overrides: map<string, bool>, a: Anime, thrown: bool): (m: map<string, bool>)
    ensures m.Keys == overrides.Keys + {a.id}
    ensures forall id :: id in overrides && id != a.id ==> m[id] == overrides[id]
    ensures Featured(m, a) == (if thrown then Featured(overrides, a) else !Featured(overrides, a))
  {
    var next := !Featured(overrides, a);
    overrides[a.id := if thrown then !next else next]
  }

  /** A toggle changes only the toggled anime's star, and two toggles that
      succeed restore it. */
  lemma {:induction false} ToggledOthers(overrides: map<string, bool>, a: Anime, b: Anime, thrown: bool)
    requires b.id != a.id
    ensures Featured(Toggled(overrides, a, thrown), b) == Featured(overrides, b)
  {
  }

  lemma {:induction false} ToggledTwice(overrides: map<string, bool>, a: Anime)
    ensures Featured(Toggled(Toggled(overrides, a, false), a, false), a) == Featured(overrides, a)
  {
  }

  // ---------------------------------------------------------------- the page

  datatype ModalType = AddModal | EditModal | DeleteModal | SeasonsModal

  /** The anime requests the page sends. */
  datatype AnimeCall =
    | AddAnime(payload: AnimePayload)
    | UpdateAnime(id: string, payload: AnimePayload)
    | DeleteAnime(id: string)
    | AddFeatured(id: string)
    | RemoveFeatured(id: string)

  /** What the season modal hands to the page's season handlers. */
  datatype ModalSeason = ModalSeason(
    id: Option<string>,
    name: string,
    slug: Option<string>,
    number: int,
    releaseYear: Value,
    episodeCount: Value)

  /** `{ ...season, animeId }` as the season store reads it. */
  function SeasonData(season: ModalSeason, animeId: string): (d: SeasonStore.SeasonInput)
    ensures d.animeId == animeId && d.name == Some(season.name) && d.slug == season.slug
    ensures d.number == Num(season.number)
  {
    SeasonStore.SeasonInput(animeId, Some(season.name), season.slug, Num(season.number),
      season.releaseYear, season.episodeCount)
  }

  class Page {
    var search: string
    var genre: Option<string>
    var modal: Option<ModalType>
    var selected: Option<Anime>
    var seasonModalOpen: bool
    var featuredOverride: map<string, bool>

    constructor ()
      ensures search == "" && genre == None && modal == None && selected == None
      ensures !seasonModalOpen && featuredOverride == map[]
    {
      search := "";
      genre := None;
      modal := None;
      selected := None;
      seasonModalOpen := false;
      featuredOverride := map[];
    }

    /** The rows of the table before its own pagination. */
    function Rows(animes: seq<Anime>): seq<Anime>
      reads this
    {
      FilteredAnimes(animes, search, genre)
    }

    function CurrentFeatured(a: Anime): bool
      reads this
    {
      Featured(featuredOverride, a)
    }

    method SetSearch(value: string)
      modifies this
      ensures search == value && genre == old(genre) && modal == old(modal) && selected == old(selected)
      ensures featuredOverride == old(featuredOverride) && seasonModalOpen == old(seasonModalOpen)
    {
      search := value;
    }

    method SetGenre(value: Option<string>)
      modifies this
      ensures genre == value && search == old(search) && modal == old(modal) && selected == old(selected)
      ensures featuredOverride == old(featuredOverride) && seasonModalOpen == old(seasonModalOpen)
    {
      genre := value;
    }

    method OpenAdd()
      modifies this
      ensures modal == Some(AddModal) && selected == None
      ensures search == old(search) && genre == old(genre) && seasonModalOpen == old(seasonModalOpen)
      ensures featuredOverride == old(featuredOverride)
    {
      modal := Some(AddModal);
      selected := None;
    }

    method OpenEdit(a: Anime)
      modifies this
      ensures modal == Some(EditModal) && selected == Some(a)
      ensures search == old(search) && genre == old(genre) && seasonModalOpen == old(seasonModalOpen)
      ensures featuredOverride == old(featuredOverride)
    {
      modal := Some(EditModal);
      selected := Some(a);
    }

    method OpenDelete(a: Anime)
      modifies this
      ensures modal == Some(DeleteModal) && selected == Some(a)
      ensures search == old(search) && genre == old(genre) && seasonModalOpen == old(seasonModalOpen)
      ensures featuredOverride == old(featuredOverride)
    {
      modal := Some(DeleteModal);
      selected := Some(a);
    }

    /** `openSeasonModal`: select the anime, load its seasons, show the
        season modal. */
    method OpenSeasons(a: Anime, seasons: SeasonStore.Store, outcome: ApiResult<Option<seq<SeasonStore.Season>>>)
      returns (calls: seq<SeasonStore.SeasonCall>)
      modifies this, seasons
      ensures modal == Some(SeasonsModal) && selected == Some(a) && seasonModalOpen
      ensures calls == [SeasonStore.GetByAnime(a.id)]
      ensures outcome.Success? ==> seasons.seasons == outcome.value.GetOr([])
      ensures outcome.Failure? ==> seasons.seasons == old(seasons.seasons)
      ensures search == old(search) && genre == old(genre) && featuredOverride == old(featuredOverride)
    {
      modal := Some(SeasonsModal);
      selected := Some(a);
      calls := seasons.FetchSeasons(a.id, outcome);
      seasonModalOpen := true;
    }

    method CloseModal()
      modifies this
      ensures modal == None && selected == None
      ensures search == old(search) && genre == old(genre) && seasonModalOpen == old(seasonModalOpen)
      ensures featuredOverride == old(featuredOverride)
    {
      modal := None;
      selected := None;
    }

    /** Closing the season modal keeps the selected anime. */
    method CloseSeasonModal()
      modifies this
      ensures !seasonModalOpen && modal == None && selected == old(selected)
      ensures search == old(search) && genre == old(genre) && featuredOverride == old(featuredOverride)
    {
      seasonModalOpen := false;
      modal := None;
    }

    /** `handleAddSeason`: nothing without a selected anime. */
    method HandleAddSeason(season: ModalSeason, seasons: SeasonStore.Store,
                           outcome: ApiResult<()>, refetch: ApiResult<Option<seq<SeasonStore.Season>>>)
      returns (calls: seq<SeasonStore.SeasonCall>)
      modifies seasons
      ensures selected.None? ==>
        calls == [] && seasons.seasons == old(seasons.seasons)
        && seasons.loading == old(seasons.loading) && seasons.error == old(seasons.error)
      ensures selected.Some? ==> (|calls| >= 1
        && calls[0] == SeasonStore.Create(selected.value.id, SeasonStore.Body(SeasonData(season, selected.value.id)))
        && !seasons.loading
        && (outcome.Success? ==> calls == [calls[0], SeasonStore.GetByAnime(selected.value.id)])
        && (outcome.Success? && refetch.Success? ==> seasons.seasons == refetch.value.GetOr([]) && seasons.error == None)
        && (outcome.Success? && refetch.Failure? ==>
              seasons.seasons == old(seasons.seasons)
              && seasons.error == Some(ErrorText(refetch.message, SeasonStore.DefaultError)))
        && (outcome.Failure? ==>
              calls == [calls[0]] && seasons.seasons == old(seasons.seasons)
              && seasons.error == Some(ErrorText(outcome.message, SeasonStore.DefaultError))))
    {
      calls := [];
      if selected.Some? {
        calls := seasons.AddSeason(SeasonData(season, selected.value.id), outcome, refetch);
      }
    }

    /** `handleEditSeason`: nothing without a selected anime or a season
        id. */
    method HandleEditSeason(season: ModalSeason, seasons: SeasonStore.Store,
                            outcome: ApiResult<()>, refetch: ApiResult<Option<seq<SeasonStore.Season>>>)
      returns (calls: seq<SeasonStore.SeasonCall>)
      modifies seasons
      ensures selected.None? || season.id.None? || season.id.value == "" ==>
        calls == [] && seasons.seasons == old(seasons.seasons)
        && seasons.loading == old(seasons.loading) && seasons.error == old(seasons.error)
      ensures selected.Some? && season.id.Some? && season.id.value != "" ==> (|calls| >= 1
        && calls[0] == SeasonStore.Update(season.id.value, selected.value.id,
                                          SeasonStore.Body(SeasonData(season, selected.value.id)))
        && !seasons.loading
        && (outcome.Success? ==> calls == [calls[0], SeasonStore.GetByAnime(selected.value.id)])
        && (outcome.Success? && refetch.Success? ==> seasons.seasons == refetch.value.GetOr([]) && seasons.error == None)
        && (outcome.Success? && refetch.Failure? ==>
              seasons.seasons == old(seasons.seasons)
              && seasons.error == Some(ErrorText(refetch.message, SeasonStore.DefaultError)))
        && (outcome.Failure? ==>
              calls == [calls[0]] && seasons.seasons == old(seasons.seasons)
              && seasons.error == Some(ErrorText(outcome.message, SeasonStore.DefaultError))))
    {
      calls := [];
      if selected.Some? && season.id.Some? && season.id.value != "" {
        calls := seasons.UpdateSeason(season.id.value, SeasonData(season, selected.value.id), outcome, refetch);
      }
    }

    /** `handleDeleteSeason`: nothing without a selected anime or a season
        id. */
    method HandleDeleteSeason(season: ModalSeason, seasons: SeasonStore.Store,
                              outcome: ApiResult<()>, refetch: ApiResult<Option<seq<SeasonStore.Season>>>)
      returns (calls: seq<SeasonStore.SeasonCall>)
      modifies seasons
      ensures selected.None? || season.id.None? || season.id.value == "" ==>
        calls == [] && seasons.seasons == old(seasons.seasons)
        && seasons.loading == old(seasons.loading) && seasons.error == old(seasons.error)
      ensures selected.Some? && season.id.Some? && season.id.value != "" ==> (|calls| >= 1
        && calls[0] == SeasonStore.Delete(season.id.value, selected.value.id)
        && !seasons.loading
        && (outcome.Success? ==> calls == [calls[0], SeasonStore.GetByAnime(selected.value.id)])
        && (outcome.Success? && refetch.Success? ==> seasons.seasons == refetch.value.GetOr([]) && seasons.error == None)
        && (outcome.Success? && refetch.Failure? ==>
              seasons.seasons == old(seasons.seasons)
              && seasons.error == Some(ErrorText(refetch.message, SeasonStore.DefaultError)))
        && (outcome.Failure? ==>
              calls == [calls[0]] && seasons.seasons == old(seasons.seasons)
              && seasons.error == Some(ErrorText(outcome.message, SeasonStore.DefaultError))))
    {
      calls := [];
      if selected.Some? && season.id.Some? && season.id.value != "" {
        calls := seasons.DeleteSeason(season.id.value, selected.value.id, outcome, refetch);
      }
    }

    /** `toggleFeatured`: `thrown` says whether the featured request threw
        to the page. */
    method ToggleFeatured(a: Anime, thrown: bool) returns (calls: seq<AnimeCall>)
      modifies this
      ensures featuredOverride == Toggled(old(featuredOverride), a, thrown)
      ensures calls == [if old(CurrentFeatured(a)) then RemoveFeatured(a.id) else AddFeatured(a.id)]
      ensures search == old(search) && genre == old(genre) && modal == old(modal) && selected == old(selected)
      ensures seasonModalOpen == old(seasonModalOpen)
    {
      var next := !CurrentFeatured(a);
      featuredOverride := featuredOverride[a.id := next];
      calls := [if next then AddFeatured(a.id) else RemoveFeatured(a.id)];
      if thrown {
        featuredOverride := featuredOverride[a.id := !next];
      }
    }

    /** `handleFormSubmit`: add in the add modal, update the selected anime
        in the edit modal, and close the modal whatever happened. */
    method HandleFormSubmit(values: AnimeForm) returns (calls: seq<AnimeCall>)
      modifies this
      ensures old(modal) == Some(AddModal) ==> calls == [AddAnime(BuildAnimePayload(values))]
      ensures old(modal) == Some(EditModal) && old(selected).Some?
        ==> calls == [UpdateAnime(old(selected).value.id, BuildAnimePayload(values))]
      ensures old(modal) != Some(AddModal) && !(old(modal) == Some(EditModal) && old(selected).Some?) ==> calls == []
      ensures modal == None && selected == None
      ensures search == old(search) && genre == old(genre) && seasonModalOpen == old(seasonModalOpen)
      ensures featuredOverride == old(featuredOverride)
    {
      var payload := BuildAnimePayload(values);
      calls := [];
      if modal == Some(AddModal) {
        calls := [AddAnime(payload)];
      } else if modal == Some(EditModal) && selected.Some? {
        calls := [UpdateAnime(selected.value.id, payload)];
      }
      CloseModal();
    }

    /** `handleDelete`: delete the selected anime, if any, and close. */
    method HandleDelete() returns (calls: seq<AnimeCall>)
      modifies this
      ensures old(selected).Some? ==> calls == [DeleteAnime(old(selected).value.id)]
      ensures old(selected).None? ==> calls == []
      ensures modal == None && selected == None
      ensures search == old(search) && genre == old(genre) && seasonModalOpen == old(seasonModalOpen)
      ensures featuredOverride == old(featuredOverride)
    {
      calls := if selected.Some? then [DeleteAnime(selected.value.id)] else [];
      CloseModal();
    }
  }
}
