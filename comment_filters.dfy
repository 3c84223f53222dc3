/** The filter drawer of the comment page: choosing an anime, choosing a
    season/episode option (a composite `"seasonId-episodeId"` value), the
    value the episode select displays, the date range, and the reset. Every
    handler forwards to the page's filter handlers. */
module CommentFilters {
  import opened Wrappers
  import opened Text
  import opened Js
  import opened CommentStore
  import opened CommentList

  /** The season and episode filters a chosen composite value sets:
      `split("-").map(Number)` and then `toString()` of each number, so a
      part that is not a number gives "NaN" and a missing second part
      `undefined`. A cleared selection clears both. */
  function EpisodeFilter(value: Option<string>): (r: (Option<string>, Option<string>))
    ensures !Active(value) ==> r == (None, None)
    ensures Active(value) ==> r.0.Some?
    ensures Active(value) && '-' !in value.value ==> r.1.None?
  {
    if Active(value) then
      var key := ParseCompositeKey(value.value);
      if '-' !in value.value then
        SplitWithoutSeparator(value.value, '-');
        (Some(NumberToString(key.season)), None)
      else
        (Some(NumberToString(key.season)), if key.episode.Some? then Some(NumberToString(key.episode.value)) else None)
    else (None, None)
  }

  /** The episode select's value: the composite of both filters when both
      are set, else nothing. */
  function DisplayValue(f: Filters): (v: Option<string>)
    ensures v.Some? <==> Active(f.seasonId) && Active(f.episodeId)
    ensures v.Some? ==> v.value == f.seasonId.value + "-" + f.episodeId.value
  {
    if Active(f.seasonId) && Active(f.episodeId) then Some(f.seasonId.value + "-" + f.episodeId.value) else None
  }

  /** The filters after an episode choice. */
  function WithEpisode(f: Filters, value: Option<string>): Filters {
    var r := EpisodeFilter(value);
    f.(seasonId := r.0, episodeId := r.1)
  }

  /** Choosing the option of season `a` and episode `b` sets the filters
      to the ids' decimal forms, and the select then shows that option. */
  lemma {:induction false} EpisodeChoiceRoundTrip(f: Filters, a: nat, b: nat)
    ensures WithEpisode(f, Some(CompositeValue(a, b))).seasonId == Some(IntToString(a))
    ensures WithEpisode(f, Some(CompositeValue(a, b))).episodeId == Some(IntToString(b))
    ensures DisplayValue(WithEpisode(f, Some(CompositeValue(a, b)))) == Some(CompositeValue(a, b))
  {
    var v := CompositeValue(a, b);
    CompositeKeyRoundTrip(a, b);
    assert v[|IntToString(a)|] == '-';
    assert Active(Some(v));
    assert EpisodeFilter(Some(v)) == (Some(NumberToString(Some(a))), Some(NumberToString(Some(b))));
    assert NumberToString(Some(a)) == IntToString(a);
    assert NumberToString(Some(b)) == IntToString(b);
  }

  /** Filters set to canonical ids display a value that sets them again. */
  lemma {:induction false} DisplayRoundTrip(f: Filters, a: nat, b: nat)
    requires f.seasonId == Some(IntToString(a)) && f.episodeId == Some(IntToString(b))
    ensures DisplayValue(f) == Some(CompositeValue(a, b))
    ensures WithEpisode(f, DisplayValue(f)) == f
  {
    EpisodeChoiceRoundTrip(f, a, b);
  }

  /** After choosing an episode option the table keeps only comments of
      that season and episode. */
  lemma {:induction false} EpisodeChoiceSelects(f: Filters, a: nat, b: nat, c: Comment)
    requires Satisfies(WithEpisode(f, Some(CompositeValue(a, b))), c)
    ensures c.season.Some? && c.season.value.id == a
    ensures c.episode.Some? && c.episode.value.id == b
  {
    EpisodeChoiceRoundTrip(f, a, b);
    IntToStringInjective(c.season.value.id, a);
    IntToStringInjective(c.episode.value.id, b);
  }

  /** The range picker's change: a range only with both dates. */
  function RangeChange(start: Option<int>, end: Option<int>): (r: Option<DateRange>)
    ensures RangeActive(r) <==> start.Some? && end.Some?
    ensures r.Some? ==> r.value == DateRange(start, end)
  {
    if start.Some? && end.Some? then Some(DateRange(start, end)) else None
  }

  /** `handleSeasonFilterChange`: the page's own handler, then the anime
      filter once more. */
  method HandleSeasonFilterChange(page: Page, animeId: Option<string>, lookup: ApiResult<seq<LookupAnime>>)
    returns (query: Option<string>)
    modifies page
    ensures page.filters == SeasonFilter(old(page.filters), animeId) && page.page == old(page.page)
    ensures query == LookupQuery(page.animeOptions, animeId) && page.animeOptions == old(page.animeOptions)
    ensures var found := LookedUpOptions(old(page.animeOptions), animeId, lookup);
      page.episodeOptions == (if found.Some? then found.value else old(page.episodeOptions))
  {
    query := page.HandleSeasonFilterChange(animeId, lookup);
    page.HandleFilterChange(SetAnimeId(animeId));
  }

  /** `handleEpisodeFilterChange`: two filter updates, season then
      episode. */
  method HandleEpisodeFilterChange(page: Page, value: Option<string>)
    modifies page
    ensures page.filters == WithEpisode(old(page.filters), value) && page.page == old(page.page)
    ensures page.episodeOptions == old(page.episodeOptions) && page.animeOptions == old(page.animeOptions)
  {
    var r := EpisodeFilter(value);
    page.HandleFilterChange(SetSeasonId(r.0));
    page.HandleFilterChange(SetEpisodeId(r.1));
  }

  method HandleRangeChange(page: Page, start: Option<int>, end: Option<int>)
    modifies page
    ensures page.filters == old(page.filters).(dateRange := RangeChange(start, end)) && page.page == old(page.page)
  {
    page.HandleFilterChange(SetDateRange(RangeChange(start, end)));
  }

  /** The reset button: the page's reset clears every filter. */
  method HandleFilterReset(page: Page)
    modifies page
    ensures page.filters == NoFilters && page.page == old(page.page)
    ensures page.episodeOptions == old(page.episodeOptions) && page.animeOptions == old(page.animeOptions)
  {
    page.HandleFilterReset();
  }
}
