/** The anime add/edit modal: when it opens it fills the form once from
    the initial values, turning whatever the `genres` entry holds into a
    list of distinct genre ids; typing a title fills an empty slug field;
    and the genre select offers one option per genre id. */
module AnimeAddEditModal {
  import opened Wrappers
  import opened Lists
  import opened Js
  import opened Slug

  datatype Genre = Genre(id: string, name: string)

  /** `String(g)` of an entry that is a string or a number. */
  function EntryText(g: Value): string
    requires g.Str? || g.Num?
  {
    StringOf(g)
  }

  /** A known genre a text refers to by id or by name. */
  predicate Names(it: Genre, str: string) {
    it.id == str || it.name == str
  }

  /** The id one incoming entry stands for: a string or number becomes the
      id of the first known genre it names, or passes through as text; an
      object with an `id` becomes that id's text; anything else is
      dropped. */
  function EntryId(g: Value, genres: seq<Genre>): Option<string>
  {
    if g.Str? || g.Num? then
      var str := EntryText(g);
      var found := Find(genres, (it: Genre) => Names(it, str));
      if found.Some? then Some(found.value.id) else Some(str)
    else if g.Obj? && "id" in g.fields && g.fields["id"] != Undefined then
      Some(StringOf(g.fields["id"]))
    else None
  }

  /** What `EntryId` gives for each kind of entry. It is a lemma rather
      than a postcondition, so that the lists of entries below do not
      carry it for every element. */
  lemma {:induction false} EntryIdSpec(g: Value, genres: seq<Genre>)
    ensures (g.Str? || g.Num?) && (forall j :: 0 <= j < |genres| ==> !Names(genres[j], EntryText(g)))
      ==> EntryId(g, genres) == Some(EntryText(g))
    ensures (g.Str? || g.Num?) && !(forall j :: 0 <= j < |genres| ==> !Names(genres[j], EntryText(g)))
      ==> (exists j :: (0 <= j < |genres| && Names(genres[j], EntryText(g)) && EntryId(g, genres) == Some(genres[j].id)
        && forall i :: 0 <= i < j ==> !Names(genres[i], EntryText(g))))
    ensures g.Obj? && "id" in g.fields && g.fields["id"] != Undefined ==> EntryId(g, genres) == Some(StringOf(g.fields["id"]))
    ensures !(g.Str? || g.Num?) && !(g.Obj? && "id" in g.fields && g.fields["id"] != Undefined) ==> EntryId(g, genres).None?
  {
  }

  /** `raw.map(f).filter(v => typeof v === "string" && v.length > 0)`:
      the non-empty texts `f` gives, in order. */
  function NonEmptyTexts<T>(raw: seq<T>, f: T -> Option<string>): (r: seq<string>)
    ensures |r| <= |raw|
    ensures forall k :: 0 <= k < |r| ==> r[k] != ""
    decreases |raw|
  {
    if |raw| == 0 then []
    else
      var rest := NonEmptyTexts(raw[1..], f);
      var v := f(raw[0]);
      if v.Some? && v.value != "" then [v.value] + rest else rest
  }

  /** Each kept text is what `f` gives for one of the entries. */
  lemma {:induction false} NonEmptyTextsSound<T>(raw: seq<T>, f: T -> Option<string>)
    ensures forall k :: 0 <= k < |NonEmptyTexts(raw, f)| ==>
      exists j :: 0 <= j < |raw| && f(raw[j]) == Some(NonEmptyTexts(raw, f)[k])
    decreases |raw|
  {
    if |raw| > 0 {
      var r := NonEmptyTexts(raw, f);
      var tail := raw[1..];
      var rest := NonEmptyTexts(tail, f);
      NonEmptyTextsSound(tail, f);
      var v := f(raw[0]);
      var keep := v.Some? && v.value != "";
      forall k | 0 <= k < |r| ensures exists j :: 0 <= j < |raw| && f(raw[j]) == Some(r[k]) {
        if !(keep && k == 0) {
          var m := if keep then k - 1 else k;
          assert r[k] == rest[m];
          var j :| 0 <= j < |tail| && f(tail[j]) == Some(rest[m]);
          assert raw[j + 1] == tail[j];
        }
      }
    } else {
      assert NonEmptyTexts(raw, f) == [];
    }
  }

  /** Every entry for which `f` gives a non-empty text has it kept. */
  lemma {:induction false} NonEmptyTextsComplete<T>(raw: seq<T>, f: T -> Option<string>)
    ensures forall j :: (0 <= j < |raw| && f(raw[j]).Some? && f(raw[j]).value != ""
      ==> f(raw[j]).value in NonEmptyTexts(raw, f))
    decreases |raw|
  {
    if |raw| > 0 {
      var r := NonEmptyTexts(raw, f);
      var tail := raw[1..];
      var rest := NonEmptyTexts(tail, f);
      NonEmptyTextsComplete(tail, f);
      assert forall x :: x in rest ==> x in r;
      forall j | 0 <= j < |raw| && f(raw[j]).Some? && f(raw[j]).value != "" ensures f(raw[j]).value in r {
        if j > 0 {
          assert raw[j] == tail[j - 1];
        }
      }
    }
  }

  /** The entries' ids, keeping only non-empty texts, in order. */
  function EntryIds(raw: seq<Value>, genres: seq<Genre>): (r: seq<string>)
    ensures |r| <= |raw|
    ensures forall k :: 0 <= k < |r| ==> r[k] != ""
  {
    NonEmptyTexts(raw, (g: Value) => EntryId(g, genres))
  }

  /** Each kept id comes from one of the entries, and every entry with a
      non-empty id has it kept. */
  lemma {:induction false} EntryIdsSpec(raw: seq<Value>, genres: seq<Genre>)
    ensures forall k :: 0 <= k < |EntryIds(raw, genres)| ==>
      exists j :: 0 <= j < |raw| && EntryId(raw[j], genres) == Some(EntryIds(raw, genres)[k])
    ensures forall j :: (0 <= j < |raw| && EntryId(raw[j], genres).Some? && EntryId(raw[j], genres).value != ""
      ==> EntryId(raw[j], genres).value in EntryIds(raw, genres))
  {
    var f := (g: Value) => EntryId(g, genres);
    assert EntryIds(raw, genres) == NonEmptyTexts(raw, f);
    NonEmptyTextsSound(raw, f);
    NonEmptyTextsComplete(raw, f);
  }

  /** The entries of the incoming value: an array's items, or the value
      alone. */
  function Entries(incoming: Value): (raw: seq<Value>)
    ensures incoming.Arr? ==> raw == incoming.items
    ensures !incoming.Arr? ==> raw == [incoming]
  {
    if incoming.Arr? then incoming.items else [incoming]
  }

  /** The normalised genre ids: non-empty, distinct, each standing for
      one of the entries, and every entry's non-empty id among them. */
  function NormalizedIds(incoming: Value, genres: seq<Genre>): (r: seq<string>)
    ensures NoDuplicates(r)
    ensures forall k :: 0 <= k < |r| ==> r[k] != ""
    ensures forall k :: 0 <= k < |r| ==> exists j :: 0 <= j < |Entries(incoming)| && EntryId(Entries(incoming)[j], genres) == Some(r[k])
    ensures forall j :: (0 <= j < |Entries(incoming)| && EntryId(Entries(incoming)[j], genres).Some?
      && EntryId(Entries(incoming)[j], genres).value != ""
      ==> EntryId(Entries(incoming)[j], genres).value in r)
    ensures forall k :: 0 <= k < |r| ==> r[k] in EntryIds(Entries(incoming), genres)
    ensures InFirstOrder(r, EntryIds(Entries(incoming), genres))
  {
    var ids := EntryIds(Entries(incoming), genres);
    EntryIdsSpec(Entries(incoming), genres);
    var r := Dedupe(ids);
    DedupeOrder(ids);
    assert forall k :: 0 <= k < |r| ==> r[k] in ids;
    r
  }

  /** The ids as a string array, as the form holds them. */
  function Strs(ids: seq<string>): (items: seq<Value>)
    ensures |items| == |ids|
    ensures forall j :: 0 <= j < |ids| ==> items[j] == Str(ids[j])
  {
    seq(|ids|, i requires 0 <= i < |ids| => Str(ids[i]))
  }

  /** No known genre has one of `ids` as its name. */
  predicate NoNameAmong(ids: seq<string>, genres: seq<Genre>) {
    forall k, j :: 0 <= k < |ids| && 0 <= j < |genres| ==> genres[j].name != ids[k]
  }

  /** A text that is no genre's name stands for itself. */
  lemma {:induction false} EntryIdOfNonName(x: string, genres: seq<Genre>)
    requires forall j :: 0 <= j < |genres| ==> genres[j].name != x
    ensures EntryId(Str(x), genres) == Some(x)
  {
    EntryIdSpec(Str(x), genres);
    if !(forall j :: 0 <= j < |genres| ==> !Names(genres[j], x)) {
      var j :| 0 <= j < |genres| && Names(genres[j], x) && EntryId(Str(x), genres) == Some(genres[j].id);
      assert genres[j].id == x;
    }
  }

  /** Ids that all stand for themselves come back unchanged. */
  lemma {:induction false} EntryIdsOfSelfNaming(ids: seq<string>, genres: seq<Genre>)
    requires forall k :: 0 <= k < |ids| ==> ids[k] != "" && EntryId(Str(ids[k]), genres) == Some(ids[k])
    ensures EntryIds(Strs(ids), genres) == ids
    decreases |ids|
  {
    if |ids| > 0 {
      var raw := Strs(ids);
      var tail := ids[1..];
      assert forall k :: 0 <= k < |tail| ==> tail[k] == ids[k + 1];
      EntryIdsOfSelfNaming(tail, genres);
      assert raw[1..] == Strs(tail);
      assert EntryId(raw[0], genres) == Some(ids[0]);
      assert EntryIds(raw, genres) == [ids[0]] + EntryIds(raw[1..], genres);
      assert ids == [ids[0]] + tail;
    }
  }

  /** Opening the modal again on the ids it produced changes nothing, as
      long as none of those ids is also some genre's name. */
  lemma {:induction false} NormalizedIdsIdempotent(incoming: Value, genres: seq<Genre>)
    requires NoNameAmong(NormalizedIds(incoming, genres), genres)
    ensures NormalizedIds(Arr(Strs(NormalizedIds(incoming, genres))), genres) == NormalizedIds(incoming, genres)
  {
    var ids := NormalizedIds(incoming, genres);
    forall k | 0 <= k < |ids| ensures EntryId(Str(ids[k]), genres) == Some(ids[k]) {
      EntryIdOfNonName(ids[k], genres);
    }
    EntryIdsOfSelfNaming(ids, genres);
    DedupeOfDistinct(ids);
  }

  /** The values the init effect writes into the form: the initial values,
      with a truthy `genres` entry replaced by its normalised ids. */
  function InitValues(initial: map<string, Value>, genres: seq<Genre>): (next: map<string, Value>)
    ensures next.Keys == initial.Keys
    ensures forall k :: k in initial && k != "genres" ==> next[k] == initial[k]
    ensures "genres" in initial && Truthy(initial["genres"])
      ==> next["genres"] == Arr(Strs(NormalizedIds(initial["genres"], genres)))
    ensures "genres" in initial && !Truthy(initial["genres"]) ==> next["genres"] == initial["genres"]
  {
    if "genres" in initial && Truthy(initial["genres"]) then
      initial["genres" := Arr(Strs(NormalizedIds(initial["genres"], genres)))]
    else initial
  }

  // ---------------------------------------------------------------- options

  datatype GenreOption = GenreOption(value: string, caption: string)

  /** The options with the label of genre `g`'s id replaced by `g`'s name. */
  function Relabel(opts: seq<GenreOption>, g: Genre): (r: seq<GenreOption>)
    ensures |r| == |opts|
    ensures forall k :: 0 <= k < |r| ==> r[k].value == opts[k].value
    ensures forall k :: 0 <= k < |r| ==> r[k].caption == (if opts[k].value == g.id then g.name else opts[k].caption)
  {
    seq(|opts|, k requires 0 <= k < |opts| => if opts[k].value == g.id then GenreOption(g.id, g.name) else opts[k])
  }

  /** `genres.map(g => String(g.id))`. */
  function Ids(genres: seq<Genre>): (ids: seq<string>)
    ensures |ids| == |genres|
    ensures forall j :: 0 <= j < |genres| ==> ids[j] == genres[j].id
  {
    seq(|genres|, j requires 0 <= j < |genres| => genres[j].id)
  }

  /** The name of the last genre carrying id `v`. */
  function LastName(genres: seq<Genre>, v: string): string
    decreases |genres|
  {
    if |genres| == 0 then ""
    else if genres[|genres| - 1].id == v then genres[|genres| - 1].name
    else LastName(genres[..|genres| - 1], v)
  }

  /** `Array.from(new Map(genres.map(g => [String(g.id), ...])))`: the map
      is filled entry by entry; a new key is appended, and a known key keeps
      its place and takes the new label. */
  function GenreOptions(genres: seq<Genre>): (r: seq<GenreOption>)
    ensures |r| <= |genres|
    decreases |genres|
  {
    if |genres| == 0 then []
    else
      var opts := GenreOptions(genres[..|genres| - 1]);
      var g := genres[|genres| - 1];
      if exists k :: 0 <= k < |opts| && opts[k].value == g.id then Relabel(opts, g)
      else opts + [GenreOption(g.id, g.name)]
  }

  /** One option per distinct id, in the order the ids first occur, each
      labelled with the name of the last genre carrying it. */
  function DistinctOptions(genres: seq<Genre>): (r: seq<GenreOption>)
    ensures |r| == |Dedupe(Ids(genres))|
  {
    var ids := Dedupe(Ids(genres));
    seq(|ids|, k requires 0 <= k < |ids| => GenreOption(ids[k], LastName(genres, ids[k])))
  }

  /** `opts` labels each of `ids` with its last name in `genres`. */
  predicate Labels(opts: seq<GenreOption>, ids: seq<string>, genres: seq<Genre>) {
    |opts| == |ids| && forall k :: 0 <= k < |ids| ==> opts[k] == GenreOption(ids[k], LastName(genres, ids[k]))
  }

  lemma {:induction false} LastNameSnoc(init: seq<Genre>, g: Genre, v: string)
    ensures LastName(init + [g], v) == if v == g.id then g.name else LastName(init, v)
  {
    assert (init + [g])[..|init|] == init;
  }

  /** A genre whose id already has an option relabels it. */
  lemma {:induction false} RelabelStep(init: seq<Genre>, g: Genre, opts: seq<GenreOption>, ids: seq<string>)
    requires Labels(opts, ids, init) && g.id in ids
    ensures Labels(Relabel(opts, g), ids, init + [g])
  {
    var r := Relabel(opts, g);
    forall k | 0 <= k < |ids| ensures r[k] == GenreOption(ids[k], LastName(init + [g], ids[k])) {
      LastNameSnoc(init, g, ids[k]);
    }
  }

  /** A genre with a new id appends its option. */
  lemma {:induction false} AppendStep(init: seq<Genre>, g: Genre, opts: seq<GenreOption>, ids: seq<string>)
    requires Labels(opts, ids, init) && g.id !in ids
    ensures Labels(opts + [GenreOption(g.id, g.name)], ids + [g.id], init + [g])
  {
    var r := opts + [GenreOption(g.id, g.name)];
    var ids' := ids + [g.id];
    forall k | 0 <= k < |ids'| ensures r[k] == GenreOption(ids'[k], LastName(init + [g], ids'[k])) {
      LastNameSnoc(init, g, ids'[k]);
    }
  }

  /** One step of the fold, on any options labelling `ids`: relabel when
      `g`'s id has an option, append otherwise. */
  lemma {:induction false} FoldStep(init: seq<Genre>, g: Genre, opts: seq<GenreOption>, ids: seq<string>)
    requires Labels(opts, ids, init)
    ensures Labels(if exists k :: 0 <= k < |opts| && opts[k].value == g.id then Relabel(opts, g)
                   else opts + [GenreOption(g.id, g.name)],
                   if g.id in ids then ids else ids + [g.id], init + [g])
  {
    if g.id in ids {
      var k :| 0 <= k < |ids| && ids[k] == g.id;
      assert opts[k].value == g.id;
      RelabelStep(init, g, opts, ids);
    } else {
      assert forall k :: 0 <= k < |opts| ==> opts[k].value != g.id;
      AppendStep(init, g, opts, ids);
    }
  }

  /** One more genre keeps the fold's options labelling the distinct ids. */
  lemma {:induction false} LabelsSnoc(init: seq<Genre>, g: Genre)
    requires Labels(GenreOptions(init), Dedupe(Ids(init)), init)
    ensures Labels(GenreOptions(init + [g]), Dedupe(Ids(init + [g])), init + [g])
  {
    var genres := init + [g];
    var opts := GenreOptions(init);
    var ids := Dedupe(Ids(init));
    assert genres[..|init|] == init && genres[|init|] == g;
    assert GenreOptions(genres) == if exists k :: 0 <= k < |opts| && opts[k].value == g.id then Relabel(opts, g)
                                   else opts + [GenreOption(g.id, g.name)];
    assert Ids(genres) == Ids(init) + [g.id];
    DedupeSnoc(Ids(init), g.id);
    FoldStep(init, g, opts, ids);
  }

  /** The fold over the genres labels the distinct ids in first-occurrence
      order with their last names. */
  lemma {:induction false} GenreOptionsLabels(genres: seq<Genre>)
    ensures Labels(GenreOptions(genres), Dedupe(Ids(genres)), genres)
    decreases |genres|
  {
    if |genres| > 0 {
      var init := genres[..|genres| - 1];
      var g := genres[|genres| - 1];
      assert init + [g] == genres;
      GenreOptionsLabels(init);
      LabelsSnoc(init, g);
    }
  }

  /** The options the select shows: unique by id, in the order ids first
      occur, and the last genre with an id gives its label. */
  lemma {:induction false} GenreOptionsDistinct(genres: seq<Genre>)
    ensures GenreOptions(genres) == DistinctOptions(genres)
  {
    GenreOptionsLabels(genres);
  }

  /** The form's values after the title input gets `title`: the title is
      stored, an empty slug field takes `slug`, a filled one keeps its
      text, and every other field stays. The title's binding does not touch
      the slug field, so reading the slug before or after storing the title
      is the same. */
  function TitleTyped(values: map<string, Value>, title: string, slug: string): (r: map<string, Value>)
    ensures r.Keys == values.Keys + {"title", "slug"}
    ensures r["title"] == Str(title)
    ensures "slug" in values && Truthy(values["slug"]) ==> r["slug"] == values["slug"]
    ensures !("slug" in values && Truthy(values["slug"])) ==> r["slug"] == Str(slug)
    ensures forall k :: k in values && k != "title" && k != "slug" ==> r[k] == values[k]
  {
    assert "title" != "slug" by { assert "title"[0] != "slug"[0]; }
    var current := if "slug" in values then values["slug"] else Undefined;
    if Truthy(current) then values["title" := Str(title)]
    else values["title" := Str(title)]["slug" := Str(slug)]
  }

  /** Two changes of the title in a row: the second title is stored, and
      the slug is the first change's when that one was not empty. Typed key
      by key, the slug therefore stays that of the first keystroke that
      gives a non-empty slug. */
  lemma {:induction false} TitleTypedTwice(values: map<string, Value>, t1: string, s1: string, t2: string, s2: string)
    ensures TitleTyped(TitleTyped(values, t1, s1), t2, s2) == TitleTyped(values, t2, if s1 != "" then s1 else s2)
  {
    var lhs := TitleTyped(TitleTyped(values, t1, s1), t2, s2);
    var rhs := TitleTyped(values, t2, if s1 != "" then s1 else s2);
    forall k | k in lhs ensures k in rhs && lhs[k] == rhs[k] { }
  }

  // ---------------------------------------------------------------- the modal

  class Modal {
    var open: bool
    var didInit: bool
    var values: map<string, Value>

    constructor ()
      ensures !open && !didInit && values == map[]
    {
      open := false;
      didInit := false;
      values := map[];
    }

    /** The init effect, run on every change of its inputs: only the first
        run of an opening fills the form. */
    method InitEffect(initial: map<string, Value>, genres: seq<Genre>)
      modifies this
      ensures open == old(open)
      ensures old(open) && !old(didInit) ==> values == old(values) + InitValues(initial, genres) && didInit
      ensures !old(open) || old(didInit) ==> values == old(values) && didInit == old(didInit)
    {
      if !open {
        return;
      }
      if didInit {
        return;
      }
      values := values + InitValues(initial, genres);
      didInit := true;
    }

    /** Opening the modal, then its init effect. */
    method Open(initial: map<string, Value>, genres: seq<Genre>)
      modifies this
      ensures open
      ensures !old(didInit) ==> values == old(values) + InitValues(initial, genres) && didInit
      ensures old(didInit) ==> values == old(values) && didInit
    {
      open := true;
      InitEffect(initial, genres);
    }

    /** Closing the modal; the close effect arms the next opening. */
    method Close()
      modifies this
      ensures !open && !didInit && values == old(values)
    {
      open := false;
      didInit := false;
    }

    /** Typing a title: the input's binding stores it, and an empty slug
        field receives the slugified title. */
    method OnTitleChange(value: string)
      modifies this
      ensures open == old(open) && didInit == old(didInit)
      ensures values == TitleTyped(old(values), value, Slugify(value))
    {
      values := TitleTyped(values, value, Slugify(value));
    }
  }
}
