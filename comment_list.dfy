/** The comment administration page: the six list filters, the filtered
    and paginated table rows, the status counters above the table, the
    season/episode options built from an anime lookup, and the payloads the
    add and edit forms send. */
module CommentList {
  import opened Wrappers
  import opened Text
  import opened Lists
  import opened Js
  import opened CommentStore

  /** Rows per table page. */
  const PageSize: nat := 8

  // ---------------------------------------------------------------- filters

  datatype CommentKind = AnimeComments | EpisodeComments

  /** The date-range filter: both bounds must be present for it to apply.
      Dates are timestamps. */
  datatype DateRange = DateRange(start: Option<int>, end: Option<int>)

  /** The filter state; `None` is `undefined`. */
  datatype Filters = Filters(
    animeId: Option<string>,
    seasonId: Option<string>,
    episodeId: Option<string>,
    commentType: Option<CommentKind>,
    status: Option<string>,
    dateRange: Option<DateRange>)

  const NoFilters := Filters(None, None, None, None, None, None)

  /** A text filter applies when it holds a non-empty string. */
  predicate Active(v: Option<string>) {
    v.Some? && v.value != ""
  }

  predicate RangeActive(d: Option<DateRange>) {
    d.Some? && d.value.start.Some? && d.value.end.Some?
  }

  /** `comment.anime?.id?.toString()`, with `undefined` written `None`. */
  function RefId(r: Option<Ref>): Option<string> {
    if r.Some? then Some(IntToString(r.value.id)) else None
  }

  /** The filter callback, one early `return false` per filter. */
  predicate Keep(f: Filters, c: Comment) {
    if Active(f.animeId) && RefId(c.anime) != f.animeId then false
    else if Active(f.seasonId) && RefId(c.season) != f.seasonId then false
    else if Active(f.episodeId) && RefId(c.episode) != f.episodeId then false
    else if f.commentType == Some(AnimeComments) && c.episode.Some? then false
    else if f.commentType == Some(EpisodeComments) && c.episode.None? then false
    else if Active(f.status) && StatusName(c.status) != f.status.value then false
    else if RangeActive(f.dateRange)
      && (c.createdAt < f.dateRange.value.start.value || c.createdAt > f.dateRange.value.end.value) then false
    else true
  }

  /** What a comment passing the filters satisfies, filter by filter. */
  predicate Satisfies(f: Filters, c: Comment) {
    && (Active(f.animeId) ==> c.anime.Some? && IntToString(c.anime.value.id) == f.animeId.value)
    && (Active(f.seasonId) ==> c.season.Some? && IntToString(c.season.value.id) == f.seasonId.value)
    && (Active(f.episodeId) ==> c.episode.Some? && IntToString(c.episode.value.id) == f.episodeId.value)
    && (f.commentType == Some(AnimeComments) ==> c.episode.None?)
    && (f.commentType == Some(EpisodeComments) ==> c.episode.Some?)
    && (Active(f.status) ==> StatusName(c.status) == f.status.value)
    && (RangeActive(f.dateRange) ==> f.dateRange.value.start.value <= c.createdAt <= f.dateRange.value.end.value)
  }

  /** The comments passing every filter, in their loaded order. */
  function Filtered(comments: seq<Comment>, f: Filters): (r: seq<Comment>)
    ensures IsSubseq(r, comments)
    ensures forall k :: 0 <= k < |r| ==> r[k] in comments && Satisfies(f, r[k])
    ensures forall k :: 0 <= k < |comments| && Satisfies(f, comments[k]) ==> comments[k] in r
  {
    Filter(comments, (c: Comment) => Keep(f, c))
  }

  /** `filteredComments`: the rows of table page `page`. */
  function Visible(comments: seq<Comment>, f: Filters, page: int): (rows: seq<Comment>)
    ensures forall k :: 0 <= k < |rows| ==> rows[k] in comments && Satisfies(f, rows[k])
    ensures page >= 1 ==> |rows| <= PageSize && (|rows| > 0 ==> (page - 1) * PageSize + |rows| <= |Filtered(comments, f)|)
    ensures page >= 1 ==> forall k :: 0 <= k < |rows| ==> rows[k] == Filtered(comments, f)[(page - 1) * PageSize + k]
  {
    var all := Filtered(comments, f);
    PageSliceIn(all, page, PageSize);
    if page >= 1 then
      PageSliceSpec(all, page, PageSize);
      PageSlice(all, page, PageSize)
    else PageSlice(all, page, PageSize)
  }

  /** Every comment passing the filters is on some table page. */
  lemma {:induction false} VisibleComplete(comments: seq<Comment>, f: Filters, k: nat)
    requires k < |comments| && Satisfies(f, comments[k])
    ensures exists page :: page >= 1 && comments[k] in Visible(comments, f, page)
  {
    var all := Filtered(comments, f);
    var c := comments[k];
    assert c in all;
    var i :| 0 <= i < |all| && all[i] == c;
    var page := i / PageSize + 1;
    PageSliceSpec(all, page, PageSize);
    var rows := Visible(comments, f, page);
    assert (page - 1) * PageSize + i % PageSize == i;
    assert |rows| > i % PageSize;
    assert rows[i % PageSize] == c;
  }

  /** With every filter cleared the table pages the loaded comments. */
  lemma {:induction false} UnfilteredPages(comments: seq<Comment>, page: int)
    ensures Visible(comments, NoFilters, page) == PageSlice(comments, page, PageSize)
  {
    FilterAll(comments, (c: Comment) => Keep(NoFilters, c));
  }

  // ---------------------------------------------------------------- filter updates

  /** `handleFilterChange(key, value)`: one filter takes a new value. */
  datatype FilterUpdate =
    | SetAnimeId(anime: Option<string>)
    | SetSeasonId(season: Option<string>)
    | SetEpisodeId(episode: Option<string>)
    | SetCommentType(kind: Option<CommentKind>)
    | SetStatus(status: Option<string>)
    | SetDateRange(range: Option<DateRange>)

  function WithFilter(f: Filters, u: FilterUpdate): Filters {
    match u
    case SetAnimeId(v) => f.(animeId := v)
    case SetSeasonId(v) => f.(seasonId := v)
    case SetEpisodeId(v) => f.(episodeId := v)
    case SetCommentType(v) => f.(commentType := v)
    case SetStatus(v) => f.(status := v)
    case SetDateRange(v) => f.(dateRange := v)
  }

  /** The state update of `handleSeasonFilterChange`: a new anime, and no
      season or episode. */
  function SeasonFilter(f: Filters, animeId: Option<string>): (r: Filters)
    ensures !Active(r.seasonId) && !Active(r.episodeId)
    ensures r.animeId == animeId
    ensures r.commentType == f.commentType && r.status == f.status && r.dateRange == f.dateRange
  {
    f.(animeId := animeId, seasonId := None, episodeId := None)
  }

  // ---------------------------------------------------------------- statistics

  /** The counters above the table; the last three are constants. */
  datatype DashboardStats = DashboardStats(
    totalComments: nat,
    pendingModeration: nat,
    dailyGrowth: int,
    approvedComments: nat,
    rejectedComments: nat,
    hiddenComments: nat,
    averageRating: int,
    activeUsers: int)

  /** `comments.filter(c => c.status === name).length`. */
  function CountStatus(comments: seq<Comment>, s: Status): nat {
    |Filter(comments, (c: Comment) => StatusName(c.status) == StatusName(s))|
  }

  /** Every comment is counted under exactly one of the four statuses. */
  lemma {:induction false} StatusCountsSum(comments: seq<Comment>)
    ensures CountStatus(comments, Pending) + CountStatus(comments, Approved)
      + CountStatus(comments, Rejected) + CountStatus(comments, Hidden) == |comments|
    decreases |comments|
  {
    if |comments| > 0 {
      StatusCountsSum(comments[1..]);
      StatusNameInjective(comments[0].status, Pending);
      StatusNameInjective(comments[0].status, Approved);
      StatusNameInjective(comments[0].status, Rejected);
      StatusNameInjective(comments[0].status, Hidden);
    }
  }

  /** A comment with status `s` adds one to the count of `s` only. */
  lemma {:induction false} CountStatusAppend(comments: seq<Comment>, c: Comment, s: Status)
    ensures CountStatus(comments + [c], s) == CountStatus(comments, s) + (if c.status == s then 1 else 0)
    decreases |comments|
  {
    StatusNameInjective(c.status, s);
    if |comments| == 0 {
      assert [c][1..] == [];
    } else {
      assert (comments + [c])[1..] == comments[1..] + [c];
      CountStatusAppend(comments[1..], c, s);
    }
  }

  /** `dashboardStats`. */
  function Stats(comments: seq<Comment>): (st: DashboardStats)
    ensures st.totalComments == |comments|
    ensures st.pendingModeration + st.approvedComments + st.rejectedComments + st.hiddenComments == st.totalComments
    ensures st.dailyGrowth == 0 && st.averageRating == 0 && st.activeUsers == 0
  {
    StatusCountsSum(comments);
    DashboardStats(
      |comments|,
      CountStatus(comments, Pending),
      0,
      CountStatus(comments, Approved),
      CountStatus(comments, Rejected),
      CountStatus(comments, Hidden),
      0,
      0)
  }

  // ---------------------------------------------------------------- the pager

  /** The number of pages a pager of `PageSize` rows shows for `total`. */
  function PageCount(total: nat): nat {
    (total + PageSize - 1) / PageSize
  }

  lemma {:induction false} PageCountBound(total: nat, page: int)
    requires page >= 1
    ensures page <= PageCount(total) <==> (page - 1) * PageSize < total
  {
    var q := PageCount(total);
    var r := (total + PageSize - 1) % PageSize;
    assert total + PageSize - 1 == PageSize * q + r;
    if page <= q {
      assert (page - 1) * PageSize <= (q - 1) * PageSize;
    } else {
      assert page - 1 >= q;
      assert (page - 1) * PageSize >= q * PageSize;
    }
  }

  /** The `total` the table's pager is given: every loaded comment,
      filtered out or not. */
  function PagerTotalAsWritten(comments: seq<Comment>): (n: nat)
    ensures n == |comments|
  {
    |comments|
  }

  /** Nine loaded comments, none approved, with the status filter set to
      APPROVED: the pager offers two pages and both hold no row. */
  lemma {:induction false} PagerAsWrittenOffersEmptyPages(c: Comment)
    requires c.status == Pending
    ensures var cs := seq(9, _ => c);
      var f := NoFilters.(status := Some("APPROVED"));
      && PageCount(PagerTotalAsWritten(cs)) == 2
      && Visible(cs, f, 1) == [] && Visible(cs, f, 2) == []
  {
    var cs := seq(9, _ => c);
    var f := NoFilters.(status := Some("APPROVED"));
    assert StatusName(c.status) == "PENDING";
    FilterOfNone(cs, (x: Comment) => Keep(f, x));
  }

  /** The total the pager should be given: the rows that pass the filters. */
  function PagerTotal(comments: seq<Comment>, f: Filters): (n: nat)
    ensures n <= |comments|
    ensures f == NoFilters ==> n == |comments|
  {
    UnfilteredPages(comments, 1);
    FilterAll(comments, (c: Comment) => Keep(NoFilters, c));
    |Filtered(comments, f)|
  }

  /** With that total, a page holds rows exactly when the pager offers it. */
  lemma {:induction false} PagerOffersNonEmptyPages(comments: seq<Comment>, f: Filters, page: int)
    requires page >= 1
    ensures |Visible(comments, f, page)| > 0 <==> page <= PageCount(PagerTotal(comments, f))
  {
    PageSliceSpec(Filtered(comments, f), page, PageSize);
    PageCountBound(PagerTotal(comments, f), page);
  }

  // ---------------------------------------------------------------- the composite key

  /** `value.split("-").map(Number)` destructured into two numbers: NaN is
      `None`, and a missing second part is an `episode` of `None`. */
  datatype CompositeKey = CompositeKey(season: Option<int>, episode: Option<Option<int>>)

  function ParseCompositeKey(value: string): CompositeKey {
    var parts := Split(value, '-');
    CompositeKey(ParseNumber(parts[0]), if |parts| > 1 then Some(ParseNumber(parts[1])) else None)
  }

  /** The value of the option for season `a` and episode `b`. */
  function CompositeValue(a: int, b: int): string {
    IntToString(a) + "-" + IntToString(b)
  }

  /** Splitting an option value at `-` gives both ids back. */
  lemma {:induction false} CompositeKeyRoundTrip(a: nat, b: nat)
    ensures ParseCompositeKey(CompositeValue(a, b)) == CompositeKey(Some(a), Some(Some(b)))
  {
    var x := IntToString(a);
    var y := IntToString(b);
    SplitAtSeparator(x, '-', y);
    SplitWithoutSeparator(y, '-');
    assert x + "-" + y == x + ['-'] + y;
    ParseNumberOfIntToString(a);
    ParseNumberOfIntToString(b);
  }

  /** Truthiness of a parsed id: NaN, 0 and `undefined` are all falsy. */
  function TruthyId(x: Option<int>): (r: Option<int>)
    ensures r.Some? <==> x.Some? && x.value != 0
    ensures r.Some? ==> r == x
  {
    if x.Some? && x.value != 0 then x else None
  }

  /** The season and episode id of an optional composite form value:
      each is present only when it is truthy. */
  function SelectedIds(seasonEpisodeId: Option<string>): (ids: (Option<int>, Option<int>))
    ensures !Active(seasonEpisodeId) ==> ids == (None, None)
    ensures ids.0.Some? ==> ids.0.value != 0
    ensures ids.1.Some? ==> ids.1.value != 0
  {
    if Active(seasonEpisodeId) then
      var key := ParseCompositeKey(seasonEpisodeId.value);
      (TruthyId(key.season), if key.episode.Some? then TruthyId(key.episode.value) else None)
    else (None, None)
  }

  /** An option value of positive ids selects exactly those ids. */
  lemma {:induction false} SelectedIdsOfOption(a: nat, b: nat)
    requires a > 0 && b > 0
    ensures SelectedIds(Some(CompositeValue(a, b))) == (Some(a), Some(b))
  {
    CompositeKeyRoundTrip(a, b);
  }

  // ---------------------------------------------------------------- payloads

  /** The add form: the chosen anime (a select value), the text and the
      optional composite season/episode value. */
  datatype AddForm = AddForm(animeId: Value, content: string, seasonEpisodeId: Option<string>)

  /** The edit form. */
  datatype EditForm = EditForm(content: string, status: Option<string>, seasonEpisodeId: Option<string>)

  /** The body `onAddSubmit` sends: the ids only when truthy, never a
      spoiler. */
  function AddPayload(form: AddForm): (p: CreatePayload)
    ensures p.animeId == ToNumber(form.animeId) && p.content == form.content && !p.isSpoiler
    ensures (p.seasonId, p.episodeId) == SelectedIds(form.seasonEpisodeId)
    ensures !Active(form.seasonEpisodeId) ==> p.seasonId.None? && p.episodeId.None?
  {
    var ids := SelectedIds(form.seasonEpisodeId);
    CreatePayload(ToNumber(form.animeId), form.content, ids.0, ids.1, false)
  }

  /** An id of the edit body: a truthy id is set, any other is `null`. */
  function IdOrNull(x: Option<int>): (r: IdPatch)
    ensures r != Omitted
    ensures x.Some? ==> r == SetId(x.value)
    ensures x.None? ==> r == Cleared
  {
    if x.Some? then SetId(x.value) else Cleared
  }

  /** The body `onEditSubmit` sends: absent ids are sent as `null`, so an
      edit always rewrites both. */
  function EditPayload(form: EditForm): (p: UpdatePayload)
    ensures p.content == Some(form.content) && p.status == form.status
    ensures p.seasonId != Omitted && p.episodeId != Omitted
    ensures !Active(form.seasonEpisodeId) ==> p.seasonId == Cleared && p.episodeId == Cleared
  {
    var ids := SelectedIds(form.seasonEpisodeId);
    UpdatePayload(Some(form.content), form.status, IdOrNull(ids.0), IdOrNull(ids.1))
  }

  /** Choosing an episode option sends its ids in both bodies. */
  lemma {:induction false} PayloadsOfOption(animeId: Value, content: string, status: Option<string>, a: nat, b: nat)
    requires a > 0 && b > 0
    ensures var p := AddPayload(AddForm(animeId, content, Some(CompositeValue(a, b))));
      p.seasonId == Some(a) && p.episodeId == Some(b)
    ensures var p := EditPayload(EditForm(content, status, Some(CompositeValue(a, b))));
      p.seasonId == SetId(a) && p.episodeId == SetId(b)
  {
    SelectedIdsOfOption(a, b);
  }

  datatype ModerationAction = ApproveAction | RejectAction | HideAction

  /** `handleModeration`: approving and rejecting have endpoints of their
      own; hiding is an edit that sets only the status. */
  function ModerationMutation(action: ModerationAction, id: int): (m: Mutation)
    ensures action == HideAction ==> m == Update(id, UpdatePayload(None, Some(StatusName(Hidden)), Omitted, Omitted))
    ensures action == ApproveAction ==> m == Approve(id)
    ensures action == RejectAction ==> m == Reject(id)
  {
    match action
    case ApproveAction => Approve(id)
    case RejectAction => Reject(id)
    case HideAction => Update(id, UpdatePayload(None, Some("HIDDEN"), Omitted, Omitted))
  }

  // ---------------------------------------------------------------- episode options

  datatype LookupEpisode = LookupEpisode(id: int, number: int)

  /** A season of a lookup result; `None` episodes are a missing or
      non-array field. */
  datatype LookupSeason = LookupSeason(id: int, number: int, episodes: Option<seq<LookupEpisode>>)

  datatype LookupAnime = LookupAnime(id: int, seasons: Option<seq<LookupSeason>>)

  datatype SelectOption = SelectOption(value: string, caption: string)

  function EpisodeOption(s: LookupSeason, e: LookupEpisode): SelectOption {
    SelectOption(CompositeValue(s.id, e.id),
      "Sezon " + IntToString(s.number) + " - Bölüm " + IntToString(e.number))
  }

  function SeasonEpisodes(s: LookupSeason): seq<LookupEpisode> {
    s.episodes.GetOr([])
  }

  /** The options of one season, in episode order. */
  function SeasonOptions(s: LookupSeason): (r: seq<SelectOption>)
    ensures |r| == |SeasonEpisodes(s)|
    ensures forall j :: 0 <= j < |r| ==> r[j] == EpisodeOption(s, SeasonEpisodes(s)[j])
  {
    seq(|SeasonEpisodes(s)|, j requires 0 <= j < |SeasonEpisodes(s)| => EpisodeOption(s, SeasonEpisodes(s)[j]))
  }

  /** The options of all seasons: one per (season, episode) pair, season by
      season. */
  function EpisodeOptions(seasons: seq<LookupSeason>): seq<SelectOption>
    decreases |seasons|
  {
    if |seasons| == 0 then []
    else EpisodeOptions(seasons[..|seasons| - 1]) + SeasonOptions(seasons[|seasons| - 1])
  }

  /** The number of episodes over all seasons. */
  function EpisodeTotal(seasons: seq<LookupSeason>): nat
    decreases |seasons|
  {
    if |seasons| == 0 then 0
    else EpisodeTotal(seasons[..|seasons| - 1]) + |SeasonEpisodes(seasons[|seasons| - 1])|
  }

  lemma {:induction false} EpisodeOptionsCount(seasons: seq<LookupSeason>)
    ensures |EpisodeOptions(seasons)| == EpisodeTotal(seasons)
    decreases |seasons|
  {
    if |seasons| > 0 {
      EpisodeOptionsCount(seasons[..|seasons| - 1]);
    }
  }

  /** Every episode of every season has its option. */
  lemma {:induction false} EpisodeOptionsComplete(seasons: seq<LookupSeason>, i: nat, j: nat)
    requires i < |seasons| && j < |SeasonEpisodes(seasons[i])|
    ensures EpisodeOption(seasons[i], SeasonEpisodes(seasons[i])[j]) in EpisodeOptions(seasons)
    decreases |seasons|
  {
    var n := |seasons|;
    var init := seasons[..n - 1];
    var o := EpisodeOption(seasons[i], SeasonEpisodes(seasons[i])[j]);
    var head := EpisodeOptions(init);
    var last := SeasonOptions(seasons[n - 1]);
    assert EpisodeOptions(seasons) == head + last;
    if i < n - 1 {
      assert init[i] == seasons[i];
      EpisodeOptionsComplete(init, i, j);
      var k :| 0 <= k < |head| && head[k] == o;
      assert (head + last)[k] == o;
    } else {
      assert last[j] == o;
      assert (head + last)[|head| + j] == o;
    }
  }

  /** Every option is the option of an episode of one of the seasons. */
  lemma {:induction false} EpisodeOptionsSound(seasons: seq<LookupSeason>, k: nat)
    requires k < |EpisodeOptions(seasons)|
    ensures exists i, j :: (0 <= i < |seasons| && 0 <= j < |SeasonEpisodes(seasons[i])|
      && EpisodeOptions(seasons)[k] == EpisodeOption(seasons[i], SeasonEpisodes(seasons[i])[j]))
    decreases |seasons|
  {
    var n := |seasons|;
    var init := seasons[..n - 1];
    var head := EpisodeOptions(init);
    var last := SeasonOptions(seasons[n - 1]);
    assert EpisodeOptions(seasons) == head + last;
    if k < |head| {
      EpisodeOptionsSound(init, k);
      var i, j :| 0 <= i < |init| && 0 <= j < |SeasonEpisodes(init[i])|
        && head[k] == EpisodeOption(init[i], SeasonEpisodes(init[i])[j]);
      assert init[i] == seasons[i];
      assert EpisodeOptions(seasons)[k] == head[k];
    } else {
      var j := k - |head|;
      assert EpisodeOptions(seasons)[k] == last[j];
    }
  }

  /** With non-negative ids, each option's value splits back into the ids
      of its season and episode. */
  lemma {:induction false} EpisodeOptionKey(s: LookupSeason, e: LookupEpisode)
    requires s.id >= 0 && e.id >= 0
    ensures ParseCompositeKey(EpisodeOption(s, e).value) == CompositeKey(Some(s.id), Some(Some(e.id)))
  {
    CompositeKeyRoundTrip(s.id, e.id);
  }

  /** The inner `forEach`: push the options of one season. */
  method PushSeasonOptions(opts: seq<SelectOption>, s: LookupSeason) returns (r: seq<SelectOption>)
    ensures r == opts + SeasonOptions(s)
  {
    r := opts;
    if s.episodes.Some? {
      var eps := s.episodes.value;
      ghost var all := SeasonOptions(s);
      var j := 0;
      while j < |eps|
        invariant 0 <= j <= |eps| == |all|
        invariant r == opts + all[..j]
      {
        assert all[..j + 1] == all[..j] + [EpisodeOption(s, eps[j])];
        r := r + [EpisodeOption(s, eps[j])];
        j := j + 1;
      }
      assert all[..j] == all;
    }
  }

  /** The outer `forEach`: the seasons' episodes flattened into options. */
  method BuildEpisodeOptions(seasons: seq<LookupSeason>) returns (opts: seq<SelectOption>)
    ensures opts == EpisodeOptions(seasons)
  {
    opts := [];
    var i := 0;
    while i < |seasons|
      invariant 0 <= i <= |seasons|
      invariant opts == EpisodeOptions(seasons[..i])
    {
      opts := PushSeasonOptions(opts, seasons[i]);
      assert seasons[..i + 1][..i] == seasons[..i];
      i := i + 1;
    }
    assert seasons[..|seasons|] == seasons;
  }

  /** The label the lookup is asked for: that of the first anime option
      whose value is `animeId`, when `animeId` is truthy. */
  function LookupQuery(animeOptions: seq<SelectOption>, animeId: Option<string>): (q: Option<string>)
    ensures !Active(animeId) ==> q.None?
    ensures Active(animeId) && q.None? ==> forall k :: 0 <= k < |animeOptions| ==> animeOptions[k].value != animeId.value
    ensures q.Some? ==> exists k :: 0 <= k < |animeOptions| && animeOptions[k].value == animeId.value && animeOptions[k].caption == q.value
  {
    if !Active(animeId) then None
    else
      var found := Find(animeOptions, (o: SelectOption) => o.value == animeId.value);
      if found.Some? then Some(found.value.caption) else None
  }

  /** The seasons of the first result whose id prints as `animeId`, when
      that result has a season list. */
  function FoundSeasons(results: seq<LookupAnime>, animeId: string): (r: Option<seq<LookupSeason>>)
    ensures r.Some? ==> exists k :: 0 <= k < |results| && IntToString(results[k].id) == animeId && results[k].seasons == r
    ensures (forall k :: 0 <= k < |results| ==> IntToString(results[k].id) != animeId) ==> r.None?
  {
    var anime := Find(results, (a: LookupAnime) => IntToString(a.id) == animeId);
    if anime.Some? then anime.value.seasons else None
  }

  /** The options a lookup yields for `animeId`, or `None` when one of the
      early returns (or the catch) is taken. */
  function LookedUpOptions(animeOptions: seq<SelectOption>, animeId: Option<string>,
                           lookup: ApiResult<seq<LookupAnime>>): (r: Option<seq<SelectOption>>)
    ensures r.Some? ==> Active(animeId) && LookupQuery(animeOptions, animeId).Some? && lookup.Success?
    ensures lookup.Failure? || !Active(animeId) ==> r.None?
  {
    if LookupQuery(animeOptions, animeId).Some? && lookup.Success? then
      var seasons := FoundSeasons(lookup.value, animeId.value);
      if seasons.Some? then Some(EpisodeOptions(seasons.value)) else None
    else None
  }

  // ---------------------------------------------------------------- the page

  class Page {
    var filters: Filters
    var page: int
    var animeOptions: seq<SelectOption>
    var episodeOptions: seq<SelectOption>
    /** The `seasonEpisodeId` field of the add/edit form. */
    var seasonEpisodeField: Option<string>
    var addOpen: bool
    var editOpen: bool
    var editing: Option<Comment>

    constructor ()
      ensures filters == NoFilters && page == 1
      ensures animeOptions == [] && episodeOptions == [] && seasonEpisodeField == None
      ensures !addOpen && !editOpen && editing == None
    {
      filters := NoFilters;
      page := 1;
      animeOptions := [];
      episodeOptions := [];
      seasonEpisodeField := None;
      addOpen := false;
      editOpen := false;
      editing := None;
    }

    /** The rows the table shows. */
    function Rows(comments: seq<Comment>): seq<Comment>
      reads this
    {
      Visible(comments, filters, page)
    }

    method SetPage(p: int)
      modifies this
      ensures page == p && filters == old(filters)
      ensures episodeOptions == old(episodeOptions) && animeOptions == old(animeOptions)
    {
      page := p;
    }

    method SetAnimeOptions(options: seq<SelectOption>)
      modifies this
      ensures animeOptions == options && filters == old(filters) && page == old(page)
      ensures episodeOptions == old(episodeOptions)
    {
      animeOptions := options;
    }

    /** The page is not reset: it stays where it was. */
    method HandleFilterChange(u: FilterUpdate)
      modifies this
      ensures filters == WithFilter(old(filters), u) && page == old(page)
      ensures episodeOptions == old(episodeOptions) && animeOptions == old(animeOptions)
    {
      filters := WithFilter(filters, u);
    }

    method HandleFilterReset()
      modifies this
      ensures filters == NoFilters && page == old(page)
      ensures episodeOptions == old(episodeOptions) && animeOptions == old(animeOptions)
    {
      filters := NoFilters;
    }

    /** `handleSeasonFilterChange`: set the anime filter and drop the season
      and episode filters, then look the anime up by its option's label and
      list its episodes. The old options stay when any step finds nothing
      or the lookup fails. */
    method HandleSeasonFilterChange(animeId: Option<string>, lookup: ApiResult<seq<LookupAnime>>)
      returns (query: Option<string>)
      modifies this
      ensures filters == SeasonFilter(old(filters), animeId) && page == old(page)
      ensures query == LookupQuery(animeOptions, animeId) && animeOptions == old(animeOptions)
      ensures var found := LookedUpOptions(old(animeOptions), animeId, lookup);
        episodeOptions == (if found.Some? then found.value else old(episodeOptions))
    {
      filters := SeasonFilter(filters, animeId);
      query := LookupQuery(animeOptions, animeId);
      if query.Some? && lookup.Success? {
        var seasons := FoundSeasons(lookup.value, animeId.value);
        if seasons.Some? {
          episodeOptions := BuildEpisodeOptions(seasons.value);
        }
      }
    }

    /** `handleSeasonChange` in the add/edit form: clear the form's episode
      and the options first, then fill them from the lookup. */
    method HandleSeasonChange(animeId: Option<string>, lookup: ApiResult<seq<LookupAnime>>)
      returns (query: Option<string>)
      modifies this
      ensures seasonEpisodeField == None && filters == old(filters) && page == old(page)
      ensures query == LookupQuery(animeOptions, animeId) && animeOptions == old(animeOptions)
      ensures var found := LookedUpOptions(old(animeOptions), animeId, lookup);
        episodeOptions == (if found.Some? then found.value else [])
    {
      seasonEpisodeField := None;
      episodeOptions := [];
      query := LookupQuery(animeOptions, animeId);
      if query.Some? && lookup.Success? {
        var seasons := FoundSeasons(lookup.value, animeId.value);
        if seasons.Some? {
          episodeOptions := BuildEpisodeOptions(seasons.value);
        }
      }
    }

    method OpenAdd()
      modifies this
      ensures addOpen && seasonEpisodeField == None
      ensures filters == old(filters) && page == old(page) && editing == old(editing) && editOpen == old(editOpen)
    {
      addOpen := true;
      seasonEpisodeField := None;
    }

    method OpenEdit(c: Comment)
      modifies this
      ensures editOpen && editing == Some(c)
      ensures filters == old(filters) && page == old(page) && addOpen == old(addOpen)
    {
      editing := Some(c);
      editOpen := true;
    }

    /** `onAddSubmit`: a form that fails validation sends nothing; else the
      body is built, the modal closed and the form reset. The store then
      adds the comment and reloads (`CommentStore.Store.Mutate`). */
    method OnAddSubmit(values: Option<AddForm>) returns (payload: Option<CreatePayload>)
      modifies this
      ensures values.None? ==> payload.None? && addOpen == old(addOpen) && seasonEpisodeField == old(seasonEpisodeField)
      ensures values.Some? ==> payload == Some(AddPayload(values.value)) && !addOpen && seasonEpisodeField == None
      ensures filters == old(filters) && page == old(page) && editing == old(editing) && editOpen == old(editOpen)
    {
      payload := None;
      if values.Some? {
        payload := Some(AddPayload(values.value));
        addOpen := false;
        seasonEpisodeField := None;
      }
    }

    /** `onEditSubmit`: nothing without a comment being edited or with an
      invalid form; else the edit of that comment, after which the modal
      closes and the edit target is cleared. */
    method OnEditSubmit(values: Option<EditForm>) returns (edit: Option<Mutation>)
      modifies this
      ensures old(editing).None? || values.None? ==> edit.None? && editing == old(editing) && editOpen == old(editOpen)
      ensures old(editing).Some? && values.Some? ==> (edit == Some(Update(old(editing).value.id, EditPayload(values.value)))
        && !editOpen && editing == None && seasonEpisodeField == None)
      ensures filters == old(filters) && page == old(page) && addOpen == old(addOpen)
    {
      edit := None;
      if editing.Some? && values.Some? {
        edit := Some(Update(editing.value.id, EditPayload(values.value)));
        editOpen := false;
        editing := None;
        seasonEpisodeField := None;
      }
    }
  }
}
