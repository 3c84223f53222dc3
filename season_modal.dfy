/** The season modal of the anime page. It lists the seasons of one anime
    four to a page and edits them through the page's season handlers; its
    episode view lists, adds, edits and deletes the episodes of the selected
    season through the episode store. The season form derives the season
    number and slug from the name; the episode form checks its two required
    fields and fills in defaults. */
module SeasonModal {
  import opened Wrappers
  import opened Text
  import opened Lists
  import opened Js
  import opened Slug
  import SeasonStore
  import opened AnimeList

  const PageSize: nat := 4

  // ---------------------------------------------------------------- season number

  /** The leading run of decimal digits of `s`. */
  function DigitRun(s: string): (r: string)
    ensures AllDigits(r) && r <= s
    ensures |r| < |s| ==> !IsDigit(s[|r|])
    decreases |s|
  {
    if |s| > 0 && IsDigit(s[0]) then [s[0]] + DigitRun(s[1..]) else ""
  }

  /** The digits `/sezon\s*(\d+)/` captures when it matches at the very
      start of the lower-cased text `s`. */
  function MatchHere(s: string): (r: Option<string>)
    ensures r.Some? ==> |r.value| >= 1 && AllDigits(r.value) && "sezon" <= s
  {
    if "sezon" <= s then
      var d := DigitRun(DropRun(s[5..], IsSpace));
      if |d| > 0 then Some(d) else None
    else None
  }

  /** `s.match(/sezon\s*(\d+)/)`: the capture of the leftmost match. */
  function FirstMatch(s: string): (r: Option<string>)
    ensures r.Some? ==> |r.value| >= 1 && AllDigits(r.value)
    ensures r.Some? ==> Contains(s, "sezon")
    decreases |s|
  {
    var m := MatchHere(s);
    if m.Some? then m
    else if |s| == 0 then None
    else FirstMatch(s[1..])
  }

  /** No match is found only when the pattern matches at no position. */
  lemma {:induction false} FirstMatchNowhere(s: string)
    ensures FirstMatch(s).None? ==> forall i :: 0 <= i <= |s| ==> MatchHere(s[i..]).None?
    decreases |s|
  {
    assert s[0..] == s;
    if FirstMatch(s).None? && |s| > 0 {
      var t := s[1..];
      FirstMatchNowhere(t);
      forall i | 0 <= i <= |s| ensures MatchHere(s[i..]).None? {
        if i > 0 {
          assert s[i..] == t[i - 1..];
        }
      }
    }
  }

  /** A match found is the one at the leftmost position where the pattern
      matches. */
  lemma {:induction false} FirstMatchAtLeftmost(s: string)
    ensures FirstMatch(s).Some? ==>
      exists i :: (0 <= i <= |s| && MatchHere(s[i..]) == FirstMatch(s)
        && forall j :: 0 <= j < i ==> MatchHere(s[j..]).None?)
    decreases |s|
  {
    assert s[0..] == s;
    if MatchHere(s).None? && |s| > 0 && FirstMatch(s).Some? {
      var t := s[1..];
      FirstMatchAtLeftmost(t);
      var i :| 0 <= i <= |t| && MatchHere(t[i..]) == FirstMatch(t)
        && forall j :: 0 <= j < i ==> MatchHere(t[j..]).None?;
      assert s[i + 1..] == t[i..];
      forall j | 0 <= j < i + 1 ensures MatchHere(s[j..]).None? {
        if j > 0 {
          assert s[j..] == t[j - 1..];
        }
      }
    }
  }

  /** The match found is the one at the leftmost position where the pattern
      matches, and no match is found only when it matches nowhere. */
  lemma {:induction false} FirstMatchLeftmost(s: string)
    ensures FirstMatch(s).None? ==> forall i :: 0 <= i <= |s| ==> MatchHere(s[i..]).None?
    ensures FirstMatch(s).Some? ==>
      exists i :: (0 <= i <= |s| && MatchHere(s[i..]) == FirstMatch(s)
        && forall j :: 0 <= j < i ==> MatchHere(s[j..]).None?)
  {
    FirstMatchNowhere(s);
    FirstMatchAtLeftmost(s);
  }

  /** The season number of `SeasonForm.handleFinish`: the digits after
      "sezon" (any letter case, optional whitespace), else 1. */
  function SeasonNumber(name: Option<string>): (n: nat)
    ensures name.None? ==> n == 1
    ensures name.Some? && !Contains(Lower(name.value), "sezon") ==> n == 1
  {
    if name.None? then 1
    else
      var m := FirstMatch(Lower(name.value));
      if m.Some? then ParseDigits(m.value) else 1
  }

  lemma {:induction false} DigitRunOfDigits(d: string)
    requires AllDigits(d)
    ensures DigitRun(d) == d
    decreases |d|
  {
    if |d| > 0 {
      DigitRunOfDigits(d[1..]);
      assert d == [d[0]] + d[1..];
    }
  }

  lemma {:induction false} DropSpacesBefore(gap: string, d: string)
    requires forall k :: 0 <= k < |gap| ==> IsSpace(gap[k])
    requires |d| > 0 && !IsSpace(d[0])
    ensures DropRun(gap + d, IsSpace) == d
    decreases |gap|
  {
    if |gap| > 0 {
      assert (gap + d)[1..] == gap[1..] + d;
      DropSpacesBefore(gap[1..], d);
    } else {
      assert gap + d == d;
    }
  }

  /** Lower-casing a name spelled "sezon" in any case, then whitespace and
      digits, leaves the whitespace and the digits as they are. */
  lemma {:induction false} LowerOfSezonName(word: string, gap: string, d: string)
    requires Lower(word) == "sezon"
    requires forall k :: 0 <= k < |gap| ==> IsSpace(gap[k])
    requires AllDigits(d)
    ensures Lower(word + gap + d) == "sezon" + gap + d
  {
    var x := word + gap + d;
    var y := "sezon" + gap + d;
    assert |word| == 5;
    forall i | 0 <= i < |x| ensures Lower(x)[i] == y[i] {
      if i < 5 {
        assert x[i] == word[i];
        assert Lower(word)[i] == y[i];
      } else if i < 5 + |gap| {
        assert x[i] == gap[i - 5] == y[i];
      } else {
        assert x[i] == d[i - 5 - |gap|] == y[i];
      }
    }
  }

  /** The pattern matches "sezon", whitespace and digits at the start and
      captures the digits. */
  lemma {:induction false} MatchHereOfSezon(gap: string, d: string)
    requires forall k :: 0 <= k < |gap| ==> IsSpace(gap[k])
    requires |d| >= 1 && AllDigits(d)
    ensures MatchHere("sezon" + gap + d) == Some(d)
  {
    var s := "sezon" + gap + d;
    assert "sezon" <= s;
    assert s[5..] == gap + d;
    DropSpacesBefore(gap, d);
    DigitRunOfDigits(d);
  }

  /** A name written "Sezon", in any letter case, then whitespace, then the
      decimal form of `n` has season number `n`. */
  lemma {:induction false} SeasonNumberOfName(word: string, gap: string, n: nat)
    requires Lower(word) == "sezon"
    requires forall k :: 0 <= k < |gap| ==> IsSpace(gap[k])
    ensures SeasonNumber(Some(word + gap + NatToString(n))) == n
  {
    var d := NatToString(n);
    LowerOfSezonName(word, gap, d);
    MatchHereOfSezon(gap, d);
    assert FirstMatch("sezon" + gap + d) == Some(d);
    ParseDigitsOfNatToString(n);
  }

  // ---------------------------------------------------------------- season form

  /** The fields of the season form; `None` and `Undefined` are empty
      fields. */
  datatype SeasonFormValues = SeasonFormValues(name: Option<string>, releaseYear: Value, episodeCount: Value)

  /** `SeasonForm.handleFinish`: the season data it saves. The form also
      adds `animeId`, which the page replaces with the selected anime's. */
  function SeasonFormData(values: SeasonFormValues): (d: ModalSeason)
    ensures d.id.None? && d.name == values.name.GetOr("")
    ensures d.number == SeasonNumber(values.name) && d.number >= 0
    ensures values.name.None? ==> d.slug.None?
    ensures d.slug.Some? ==> NoSpace(d.slug.value) && NoUpper(d.slug.value) && d.slug.value == WhitespaceSlug(d.name)
    ensures d.releaseYear == values.releaseYear && d.episodeCount == values.episodeCount
  {
    ModalSeason(None, values.name.GetOr(""),
      if values.name.Some? then Some(WhitespaceSlug(values.name.value)) else None,
      SeasonNumber(values.name), values.releaseYear, values.episodeCount)
  }

  /** However the page and the season store complete it, the slug saved for
      the form's season is the whitespace slug of the name it sends. */
  lemma {:induction false} SeasonFormSlugSaved(values: SeasonFormValues, animeId: string)
    ensures var d := SeasonFormData(values);
      SeasonStore.Body(SeasonData(d, animeId)).slug == Some(WhitespaceSlug(d.name))
  {
    var d := SeasonFormData(values);
    assert WhitespaceSlug("") == "" by {
      assert Lower("") == "";
    }
  }

  // ---------------------------------------------------------------- episode form

  datatype Episode = Episode(
    id: Option<string>,
    title: string,
    episodeNumber: int,
    duration: int,
    videoUrl: string,
    description: string,
    thumbnailUrl: string,
    releaseDate: string)

  /** The fields of the episode form; `None` is an empty field. */
  datatype EpisodeFormValues = EpisodeFormValues(
    id: Option<string>,
    title: Option<string>,
    episodeNumber: Option<int>,
    duration: Option<int>,
    videoUrl: Option<string>,
    description: Option<string>,
    thumbnailUrl: Option<string>,
    releaseDate: Option<string>)

  predicate FilledText(s: Option<string>) { s.Some? && s.value != "" }
  predicate FilledNumber(n: Option<int>) { n.Some? && n.value != 0 }

  /** `s || fallback` for an optional string. */
  function TextOr(s: Option<string>, fallback: string): (r: string)
    ensures FilledText(s) ==> r == s.value
    ensures !FilledText(s) ==> r == fallback
  {
    if FilledText(s) then s.value else fallback
  }

  /** `n || fallback` for an optional number. */
  function NumberOrElse(n: Option<int>, fallback: int): (r: int)
    ensures FilledNumber(n) ==> r == n.value
    ensures !FilledNumber(n) ==> r == fallback
  {
    if FilledNumber(n) then n.value else fallback
  }

  /** `EpisodeForm.handleFinish`: `None` when the title or the episode
      number is empty (a warning, and `onSave` is not called), else the
      episode with its defaults; `year` is the current year as text. */
  function EpisodeFinish(values: EpisodeFormValues, year: string): (r: Option<Episode>)
    ensures r.None? <==> !FilledText(values.title) || !FilledNumber(values.episodeNumber)
    ensures r.Some? ==> r.value.id == values.id && r.value.title == values.title.value
    ensures r.Some? ==> r.value.episodeNumber == values.episodeNumber.value
    ensures r.Some? ==> r.value.duration != 0
    ensures r.Some? && FilledNumber(values.duration) ==> r.value.duration == values.duration.value
    ensures r.Some? && !FilledNumber(values.duration) ==> r.value.duration == 25
    ensures r.Some? ==> r.value.videoUrl == values.videoUrl.GetOr("")
    ensures r.Some? ==> r.value.description == values.description.GetOr("")
    ensures r.Some? ==> r.value.thumbnailUrl == values.thumbnailUrl.GetOr("")
    ensures r.Some? ==> r.value.releaseDate == TextOr(values.releaseDate, year)
  {
    if !FilledText(values.title) || !FilledNumber(values.episodeNumber) then None
    else Some(Episode(values.id, TextOr(values.title, ""), NumberOrElse(values.episodeNumber, 1),
      NumberOrElse(values.duration, 25), TextOr(values.videoUrl, ""), TextOr(values.description, ""),
      TextOr(values.thumbnailUrl, ""), TextOr(values.releaseDate, year)))
  }

  /** The form filled with an episode (`form.setFieldsValue(episode)`). */
  function ValuesOf(e: Episode): (v: EpisodeFormValues)
    ensures v.title == Some(e.title) && v.episodeNumber == Some(e.episodeNumber)
  {
    EpisodeFormValues(e.id, Some(e.title), Some(e.episodeNumber), Some(e.duration),
      Some(e.videoUrl), Some(e.description), Some(e.thumbnailUrl), Some(e.releaseDate))
  }

  /** A complete episode the form saves: both required fields and the
      duration and release date set. */
  predicate Complete(e: Episode) {
    e.title != "" && e.episodeNumber != 0 && e.duration != 0 && e.releaseDate != ""
  }

  /** Every episode the form saves is complete, and saving a complete
      episode unchanged gives it back: the defaults never overwrite a
      value. */
  lemma {:induction false} EpisodeFinishRoundTrip(e: Episode, values: EpisodeFormValues, year: string)
    requires year != ""
    ensures Complete(e) ==> EpisodeFinish(ValuesOf(e), year) == Some(e)
    ensures EpisodeFinish(values, year).Some? ==> Complete(EpisodeFinish(values, year).value)
  {
  }

  // ---------------------------------------------------------------- pages

  /** `seasons.slice((currentPage - 1) * pageSize, currentPage * pageSize)`. */
  function PaginatedSeasons(seasons: seq<ModalSeason>, page: int): (r: seq<ModalSeason>)
    ensures |r| <= PageSize
    ensures forall k :: 0 <= k < |r| ==> r[k] in seasons
  {
    PageSliceIn(seasons, page, PageSize);
    PageSlice(seasons, page, PageSize)
  }

  /** The same page of the episode store's list, or nothing when that list
      is not an array (`None`). */
  function PaginatedEpisodes(episodes: Option<seq<Episode>>, page: int): (r: seq<Episode>)
    ensures |r| <= PageSize
    ensures episodes.None? ==> r == []
    ensures episodes.Some? ==> forall k :: 0 <= k < |r| ==> r[k] in episodes.value
  {
    if episodes.Some? then
      PageSliceIn(episodes.value, page, PageSize);
      PageSlice(episodes.value, page, PageSize)
    else []
  }

  /** On page `p` the rows are the list from offset `4 * (p - 1)` on, four
      of them while there are that many. */
  lemma {:induction false} PaginatedSeasonsRows(seasons: seq<ModalSeason>, page: int)
    requires page >= 1
    ensures var r := PaginatedSeasons(seasons, page);
      && (forall i :: 0 <= i < |r| ==> r[i] == seasons[(page - 1) * PageSize + i])
      && (|r| == 0 <==> |seasons| <= (page - 1) * PageSize)
      && ((page - 1) * PageSize + PageSize <= |seasons| ==> |r| == PageSize)
  {
    PageSliceSpec(seasons, page, PageSize);
  }

  // ---------------------------------------------------------------- modal state

  datatype View = SeasonsView | EpisodesView

  /** The item the delete confirmation is about. */
  datatype Deletable = SeasonItem(season: ModalSeason) | EpisodeItem(episode: Episode)

  /** What a handler does outside the modal: the page's callbacks, the
      episode and season store actions, and the notifications. */
  datatype Effect =
    | AddSeasonCallback(season: ModalSeason)
    | EditSeasonCallback(season: ModalSeason)
    | DeleteSeasonCallback(season: ModalSeason)
    | CancelCallback
    | FetchSeasons(animeId: string)
    | FetchEpisodes(animeId: string, seasonId: string)
    | AddEpisode(animeId: string, seasonId: string, episode: Episode)
    | UpdateEpisode(id: string, episode: Episode, ofSeason: Option<string>)
    | DeleteEpisode(id: string)
    | NotifySuccess
    | NotifyError
    | NotifyWarning

  /** The id of a season or an episode, when it is a non-empty string. */
  predicate HasId(id: Option<string>) { id.Some? && id.value != "" }

  /** `selectedSeason?.id`. */
  function SelectedId(selected: Option<ModalSeason>): (id: Option<string>)
    ensures id.Some? ==> selected.Some? && id == selected.value.id
  {
    if selected.Some? then selected.value.id else None
  }

  /** `editingEpisode && editingEpisode.id`. */
  predicate EditsEpisode(editing: Option<EpisodeFormValues>) {
    editing.Some? && HasId(editing.value.id)
  }

  /** The draft `handleAdd` edits: an empty name and the next number. */
  function NewSeason(seasons: seq<ModalSeason>): (s: ModalSeason)
    ensures s.id.None? && s.name == "" && s.number == |seasons| + 1 && s.number >= 1
  {
    ModalSeason(None, "", None, |seasons| + 1, Undefined, Undefined)
  }

  /** The draft `handleAddEpisode` edits: an empty title and the next
      episode number. */
  function NewEpisode(episodes: Option<seq<Episode>>): (v: EpisodeFormValues)
    ensures v.id.None? && v.title == Some("") && v.episodeNumber.Some?
    ensures v.episodeNumber.value == (if episodes.Some? then |episodes.value| else 0) + 1
    ensures FilledNumber(v.episodeNumber)
  {
    EpisodeFormValues(None, Some(""), Some((if episodes.Some? then |episodes.value| else 0) + 1),
      None, None, None, None, None)
  }

  class Modal {
    var formVisible: bool
    var editingSeason: Option<ModalSeason>
    var currentPage: int
    var view: View
    var selectedSeason: Option<ModalSeason>
    var episodeFormVisible: bool
    var editingEpisode: Option<EpisodeFormValues>
    var deleteVisible: bool
    var itemToDelete: Option<Deletable>

    /** The episode view always has a selected season, and the season view
      never has one. */
    predicate Valid()
      reads this
    {
      view == EpisodesView <==> selectedSeason.Some?
    }

    constructor ()
      ensures Valid() && view == SeasonsView && currentPage == 1
      ensures !formVisible && editingSeason.None? && !episodeFormVisible && editingEpisode.None?
      ensures !deleteVisible && itemToDelete.None?
    {
      formVisible := false;
      editingSeason := None;
      currentPage := 1;
      view := SeasonsView;
      selectedSeason := None;
      episodeFormVisible := false;
      editingEpisode := None;
      deleteVisible := false;
      itemToDelete := None;
    }

    /** The rows the current view shows. */
    function SeasonRows(seasons: seq<ModalSeason>): (r: seq<ModalSeason>)
      reads this
      ensures |r| <= PageSize
      ensures forall k :: 0 <= k < |r| ==> r[k] in seasons
    {
      PaginatedSeasons(seasons, currentPage)
    }

    function EpisodeRows(episodes: Option<seq<Episode>>): (r: seq<Episode>)
      reads this
      ensures |r| <= PageSize
      ensures episodes.None? ==> r == []
    {
      PaginatedEpisodes(episodes, currentPage)
    }

    /** The pager's `onChange`. */
    method SetPage(page: int)
      modifies this
      ensures currentPage == page
      ensures view == old(view) && selectedSeason == old(selectedSeason)
      ensures formVisible == old(formVisible) && editingSeason == old(editingSeason)
      ensures episodeFormVisible == old(episodeFormVisible) && editingEpisode == old(editingEpisode)
      ensures deleteVisible == old(deleteVisible) && itemToDelete == old(itemToDelete)
    {
      currentPage := page;
    }

    method HandleAdd(seasons: seq<ModalSeason>)
      modifies this
      ensures formVisible && editingSeason == Some(NewSeason(seasons))
      ensures view == old(view) && selectedSeason == old(selectedSeason) && currentPage == old(currentPage)
      ensures episodeFormVisible == old(episodeFormVisible) && editingEpisode == old(editingEpisode)
      ensures deleteVisible == old(deleteVisible) && itemToDelete == old(itemToDelete)
    {
      editingSeason := Some(NewSeason(seasons));
      formVisible := true;
    }

    method HandleEdit(season: ModalSeason)
      modifies this
      ensures formVisible && editingSeason == Some(season)
      ensures view == old(view) && selectedSeason == old(selectedSeason) && currentPage == old(currentPage)
      ensures episodeFormVisible == old(episodeFormVisible) && editingEpisode == old(editingEpisode)
      ensures deleteVisible == old(deleteVisible) && itemToDelete == old(itemToDelete)
    {
      editingSeason := Some(season);
      formVisible := true;
    }

    /** The season form's submit (`handleFinish`, then `handleFormSave`):
      the edit callback with the edited season's id when that season has
      one, else the add callback; the form then closes. */
    method HandleFormSave(values: SeasonFormValues) returns (effects: seq<Effect>)
      modifies this
      ensures old(editingSeason).Some? && HasId(old(editingSeason).value.id) ==>
        effects == [EditSeasonCallback(SeasonFormData(values).(id := old(editingSeason).value.id))]
      ensures old(editingSeason).None? || !HasId(old(editingSeason).value.id) ==>
        effects == [AddSeasonCallback(SeasonFormData(values))]
      ensures !formVisible && editingSeason.None?
      ensures view == old(view) && selectedSeason == old(selectedSeason) && currentPage == old(currentPage)
      ensures episodeFormVisible == old(episodeFormVisible) && editingEpisode == old(editingEpisode)
      ensures deleteVisible == old(deleteVisible) && itemToDelete == old(itemToDelete)
    {
      var d := SeasonFormData(values);
      if editingSeason.Some? && HasId(editingSeason.value.id) {
        effects := [EditSeasonCallback(d.(id := editingSeason.value.id))];
      } else {
        effects := [AddSeasonCallback(d)];
      }
      formVisible := false;
      editingSeason := None;
    }

    method HandleFormCancel()
      modifies this
      ensures !formVisible && editingSeason.None?
      ensures view == old(view) && selectedSeason == old(selectedSeason) && currentPage == old(currentPage)
      ensures episodeFormVisible == old(episodeFormVisible) && editingEpisode == old(editingEpisode)
      ensures deleteVisible == old(deleteVisible) && itemToDelete == old(itemToDelete)
    {
      formVisible := false;
      editingSeason := None;
    }

    method HandleAddEpisode(episodes: Option<seq<Episode>>)
      modifies this
      ensures episodeFormVisible && editingEpisode == Some(NewEpisode(episodes))
      ensures view == old(view) && selectedSeason == old(selectedSeason) && currentPage == old(currentPage)
      ensures formVisible == old(formVisible) && editingSeason == old(editingSeason)
      ensures deleteVisible == old(deleteVisible) && itemToDelete == old(itemToDelete)
    {
      editingEpisode := Some(NewEpisode(episodes));
      episodeFormVisible := true;
    }

    method HandleEditEpisode(episode: Episode)
      modifies this
      ensures episodeFormVisible && editingEpisode == Some(ValuesOf(episode))
      ensures view == old(view) && selectedSeason == old(selectedSeason) && currentPage == old(currentPage)
      ensures formVisible == old(formVisible) && editingSeason == old(editingSeason)
      ensures deleteVisible == old(deleteVisible) && itemToDelete == old(itemToDelete)
    {
      editingEpisode := Some(ValuesOf(episode));
      episodeFormVisible := true;
    }

    /** `handleEpisodeFormSave`. An edited episode with an id is updated
      (the store keeps its own errors); otherwise the episode is added,
      but only with an anime id and a selected season id. `thrown` says
      whether `addEpisode` threw; then the form stays open. */
    method HandleEpisodeFormSave(episode: Episode, animeId: Option<string>, thrown: bool)
      returns (effects: seq<Effect>)
      modifies this
      ensures EditsEpisode(old(editingEpisode)) ==>
        && effects == [UpdateEpisode(old(editingEpisode).value.id.value, episode, SelectedId(old(selectedSeason))), NotifySuccess]
        && !episodeFormVisible && editingEpisode.None?
      ensures !EditsEpisode(old(editingEpisode)) && !(HasId(animeId) && HasId(SelectedId(old(selectedSeason)))) ==>
        && effects == [NotifyError]
        && episodeFormVisible == old(episodeFormVisible) && editingEpisode == old(editingEpisode)
      ensures !EditsEpisode(old(editingEpisode)) && HasId(animeId) && HasId(SelectedId(old(selectedSeason))) ==>
        && |effects| == 2 && effects[0] == AddEpisode(animeId.value, SelectedId(old(selectedSeason)).value, episode)
        && (thrown ==> effects == [effects[0], NotifyError])
        && (thrown ==> episodeFormVisible == old(episodeFormVisible) && editingEpisode == old(editingEpisode))
        && (!thrown ==> effects == [effects[0], NotifySuccess] && !episodeFormVisible && editingEpisode.None?)
      ensures view == old(view) && selectedSeason == old(selectedSeason) && currentPage == old(currentPage)
      ensures formVisible == old(formVisible) && editingSeason == old(editingSeason)
      ensures deleteVisible == old(deleteVisible) && itemToDelete == old(itemToDelete)
    {
      var seasonId := SelectedId(selectedSeason);
      if EditsEpisode(editingEpisode) {
        effects := [UpdateEpisode(editingEpisode.value.id.value, episode, seasonId), NotifySuccess];
      } else if !HasId(animeId) || !HasId(seasonId) {
        effects := [NotifyError];
        return;
      } else {
        effects := [AddEpisode(animeId.value, seasonId.value, episode)];
        if thrown {
          effects := effects + [NotifyError];
          return;
        }
        effects := effects + [NotifySuccess];
      }
      episodeFormVisible := false;
      editingEpisode := None;
    }

    /** The episode form's submit: a warning and nothing else when a
      required field is empty, else `handleEpisodeFormSave` with the
      completed episode. */
    method SubmitEpisodeForm(values: EpisodeFormValues, year: string, animeId: Option<string>, thrown: bool)
      returns (effects: seq<Effect>)
      modifies this
      ensures EpisodeFinish(values, year).None? ==>
        effects == [NotifyWarning] && episodeFormVisible == old(episodeFormVisible) && editingEpisode == old(editingEpisode)
      ensures EpisodeFinish(values, year).Some? && EditsEpisode(old(editingEpisode)) ==>
        var e := EpisodeFinish(values, year).value;
        && effects == [UpdateEpisode(old(editingEpisode).value.id.value, e, SelectedId(old(selectedSeason))), NotifySuccess]
        && !episodeFormVisible && editingEpisode.None?
      ensures (EpisodeFinish(values, year).Some? && !EditsEpisode(old(editingEpisode))
               && !(HasId(animeId) && HasId(SelectedId(old(selectedSeason))))) ==>
        && effects == [NotifyError]
        && episodeFormVisible == old(episodeFormVisible) && editingEpisode == old(editingEpisode)
      ensures (EpisodeFinish(values, year).Some? && !EditsEpisode(old(editingEpisode))
               && HasId(animeId) && HasId(SelectedId(old(selectedSeason)))) ==>
        var e := EpisodeFinish(values, year).value;
        && |effects| == 2 && effects[0] == AddEpisode(animeId.value, SelectedId(old(selectedSeason)).value, e)
        && (thrown ==> effects == [effects[0], NotifyError])
        && (thrown ==> episodeFormVisible == old(episodeFormVisible) && editingEpisode == old(editingEpisode))
        && (!thrown ==> effects == [effects[0], NotifySuccess] && !episodeFormVisible && editingEpisode.None?)
      ensures view == old(view) && selectedSeason == old(selectedSeason) && currentPage == old(currentPage)
      ensures formVisible == old(formVisible) && editingSeason == old(editingSeason)
      ensures deleteVisible == old(deleteVisible) && itemToDelete == old(itemToDelete)
    {
      var e := EpisodeFinish(values, year);
      if e.None? {
        effects := [NotifyWarning];
      } else {
        effects := HandleEpisodeFormSave(e.value, animeId, thrown);
      }
    }

    method HandleEpisodeFormCancel()
      modifies this
      ensures !episodeFormVisible && editingEpisode.None?
      ensures view == old(view) && selectedSeason == old(selectedSeason) && currentPage == old(currentPage)
      ensures formVisible == old(formVisible) && editingSeason == old(editingSeason)
      ensures deleteVisible == old(deleteVisible) && itemToDelete == old(itemToDelete)
    {
      episodeFormVisible := false;
      editingEpisode := None;
    }

    method HandleDeleteSeason(season: ModalSeason)
      modifies this
      ensures deleteVisible && itemToDelete == Some(SeasonItem(season))
      ensures view == old(view) && selectedSeason == old(selectedSeason) && currentPage == old(currentPage)
      ensures formVisible == old(formVisible) && editingSeason == old(editingSeason)
      ensures episodeFormVisible == old(episodeFormVisible) && editingEpisode == old(editingEpisode)
    {
      itemToDelete := Some(SeasonItem(season));
      deleteVisible := true;
    }

    method HandleDeleteEpisode(episode: Episode)
      modifies this
      ensures deleteVisible && itemToDelete == Some(EpisodeItem(episode))
      ensures view == old(view) && selectedSeason == old(selectedSeason) && currentPage == old(currentPage)
      ensures formVisible == old(formVisible) && editingSeason == old(editingSeason)
      ensures episodeFormVisible == old(episodeFormVisible) && editingEpisode == old(editingEpisode)
    {
      itemToDelete := Some(EpisodeItem(episode));
      deleteVisible := true;
    }

    /** `handleConfirmDelete`: a season goes to the page's delete callback
      (with or without an id) and the seasons are reloaded when there is an
      anime id; an episode with an id is deleted and the episodes reloaded
      when both ids are known. The confirmation always closes. */
    method HandleConfirmDelete(animeId: Option<string>) returns (effects: seq<Effect>)
      modifies this
      ensures old(itemToDelete).None? ==> effects == []
      ensures old(itemToDelete).Some? && old(itemToDelete).value.SeasonItem? ==>
        effects == [DeleteSeasonCallback(old(itemToDelete).value.season)]
                   + (if HasId(animeId) then [FetchSeasons(animeId.value)] else [])
      ensures old(itemToDelete).Some? && old(itemToDelete).value.EpisodeItem? ==>
        var e := old(itemToDelete).value.episode;
        && (!HasId(e.id) ==> effects == [])
        && (HasId(e.id) ==>
              effects == [DeleteEpisode(e.id.value)]
                + (if HasId(animeId) && HasId(SelectedId(old(selectedSeason)))
                   then [FetchEpisodes(animeId.value, SelectedId(old(selectedSeason)).value)] else []))
      ensures !deleteVisible && itemToDelete.None?
      ensures view == old(view) && selectedSeason == old(selectedSeason) && currentPage == old(currentPage)
      ensures formVisible == old(formVisible) && editingSeason == old(editingSeason)
      ensures episodeFormVisible == old(episodeFormVisible) && editingEpisode == old(editingEpisode)
    {
      effects := [];
      if itemToDelete.Some? {
        match itemToDelete.value {
          case SeasonItem(season) =>
            effects := [DeleteSeasonCallback(season)];
            if HasId(animeId) {
              effects := effects + [FetchSeasons(animeId.value)];
            }
          case EpisodeItem(episode) =>
            if HasId(episode.id) {
              effects := [DeleteEpisode(episode.id.value)];
              if HasId(animeId) && HasId(SelectedId(selectedSeason)) {
                effects := effects + [FetchEpisodes(animeId.value, selectedSeason.value.id.value)];
              }
            }
        }
      }
      deleteVisible := false;
      itemToDelete := None;
    }

    method HandleCancelDelete()
      modifies this
      ensures !deleteVisible && itemToDelete.None?
      ensures view == old(view) && selectedSeason == old(selectedSeason) && currentPage == old(currentPage)
      ensures formVisible == old(formVisible) && editingSeason == old(editingSeason)
      ensures episodeFormVisible == old(episodeFormVisible) && editingEpisode == old(editingEpisode)
    {
      deleteVisible := false;
      itemToDelete := None;
    }

    /** `handleManageEpisodes`: the episode view of `season` on page 1, and
      its episodes are fetched when both ids are known (else an error
      notice). */
    method HandleManageEpisodes(season: ModalSeason, animeId: Option<string>) returns (effects: seq<Effect>)
      modifies this
      ensures Valid() && view == EpisodesView && selectedSeason == Some(season) && currentPage == 1
      ensures HasId(season.id) && HasId(animeId) ==> effects == [FetchEpisodes(animeId.value, season.id.value)]
      ensures !(HasId(season.id) && HasId(animeId)) ==> effects == [NotifyError]
      ensures formVisible == old(formVisible) && editingSeason == old(editingSeason)
      ensures episodeFormVisible == old(episodeFormVisible) && editingEpisode == old(editingEpisode)
      ensures deleteVisible == old(deleteVisible) && itemToDelete == old(itemToDelete)
    {
      selectedSeason := Some(season);
      view := EpisodesView;
      currentPage := 1;
      if HasId(season.id) && HasId(animeId) {
        effects := [FetchEpisodes(animeId.value, season.id.value)];
      } else {
        effects := [NotifyError];
      }
    }

    method HandleBackToSeasons()
      modifies this
      ensures Valid() && view == SeasonsView && selectedSeason.None? && currentPage == 1
      ensures formVisible == old(formVisible) && editingSeason == old(editingSeason)
      ensures episodeFormVisible == old(episodeFormVisible) && editingEpisode == old(editingEpisode)
      ensures deleteVisible == old(deleteVisible) && itemToDelete == old(itemToDelete)
    {
      view := SeasonsView;
      selectedSeason := None;
      currentPage := 1;
    }

    /** Closing the modal returns to the season view and tells the page. */
    method HandleModalCancel() returns (effects: seq<Effect>)
      modifies this
      ensures Valid() && view == SeasonsView && selectedSeason.None? && currentPage == 1
      ensures effects == [CancelCallback]
      ensures formVisible == old(formVisible) && editingSeason == old(editingSeason)
      ensures episodeFormVisible == old(episodeFormVisible) && editingEpisode == old(editingEpisode)
      ensures deleteVisible == old(deleteVisible) && itemToDelete == old(itemToDelete)
    {
      view := SeasonsView;
      selectedSeason := None;
      currentPage := 1;
      effects := [CancelCallback];
    }
  }
}
