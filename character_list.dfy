/** The character page: a searchable table of characters, a form modal that
    adds or edits one, a delete confirmation, and the anime lookup behind
    the form's anime select. The character store only refetches, so the
    page's effect on it is the request it sends. */
module CharacterList {
  import opened Wrappers
  import opened Text
  import opened Lists
  import opened Js

  /** The anime a character record embeds. */
  datatype AnimeRef = AnimeRef(id: Value, title: Option<string>)

  /** A character record. `animeId` is `Undefined` when absent. */
  datatype Character = Character(
    id: string,
    name: string,
    description: Option<string>,
    animeId: Value,
    animeTitle: Option<string>,
    anime: Option<AnimeRef>,
    imageUrl: Option<string>,
    voiceActor: Option<string>,
    role: Option<string>,
    age: Option<int>)

  // ---------------------------------------------------------------- search

  function Query(search: string): (q: string)
    ensures NoUpper(q)
  {
    Lower(Trim(search))
  }

  /** A character matches when its name or description contains the
      query, ignoring letter case. */
  predicate CharacterMatches(c: Character, q: string) {
    Contains(Lower(c.name), q) || Contains(Lower(c.description.GetOr("")), q)
  }

  /** `filtered`: all characters for a blank search, else the matching ones
      in their order. */
  function Filtered(characters: seq<Character>, search: string): (r: seq<Character>)
    ensures Query(search) == "" ==> r == characters
    ensures IsSubseq(r, characters)
    ensures Query(search) != "" ==> forall k :: 0 <= k < |r| ==> CharacterMatches(r[k], Query(search))
    ensures Query(search) != "" ==>
      forall k :: 0 <= k < |characters| && CharacterMatches(characters[k], Query(search)) ==> characters[k] in r
  {
    var q := Query(search);
    if q == "" then
      assert IsSubseq(characters, characters) by {
        FilterAll(characters, (c: Character) => true);
      }
      characters
    else Filter(characters, (c: Character) => CharacterMatches(c, q))
  }

  /** Searching the result again with the same term changes nothing. */
  lemma {:induction false} FilteredIdempotent(characters: seq<Character>, search: string)
    ensures Filtered(Filtered(characters, search), search) == Filtered(characters, search)
  {
    var q := Query(search);
    if q != "" {
      FilterAll(Filtered(characters, search), (c: Character) => CharacterMatches(c, q));
    }
  }

  /** A character without a description is found by its name alone. */
  lemma {:induction false} NoDescriptionMatchesByName(c: Character, q: string)
    requires c.description.None? && q != ""
    ensures CharacterMatches(c, q) <==> Contains(Lower(c.name), q)
  {
    ContainsSpec(Lower(c.description.GetOr("")), q);
  }

  // ---------------------------------------------------------------- form

  /** The form fields, as loosely typed as the form holds them. */
  datatype CharacterValues = CharacterValues(
    animeId: Value,
    name: Value,
    description: Value,
    role: Value,
    voiceActor: Value,
    age: Value,
    imageUrl: Value)

  const EmptyForm := CharacterValues(Undefined, Undefined, Undefined, Undefined, Undefined, Undefined, Undefined)

  /** A `required` rule: the value is neither absent, empty text nor an
      empty list. */
  predicate Filled(v: Value) {
    !(v.Undefined? || v.Null? || v == Str("") || v == Arr([]))
  }

  /** The form's rules: an anime, a name and a role are required. */
  predicate Validates(values: CharacterValues) {
    Filled(values.animeId) && Filled(values.name) && Filled(values.role)
  }

  function TextField(s: Option<string>): (v: Value)
    ensures s.None? ==> v == Undefined
    ensures s.Some? ==> v == Str(s.value)
  {
    if s.Some? then Str(s.value) else Undefined
  }

  /** The anime title shown for a character: its embedded anime's title,
      else its `animeTitle`, empty texts counting as absent. */
  function AnimeTitle(c: Character): (t: Option<string>)
    ensures t.Some? ==> t.value != ""
    ensures c.anime.Some? && c.anime.value.title.Some? && c.anime.value.title.value != "" ==>
      t == c.anime.value.title
    ensures !(c.anime.Some? && c.anime.value.title.Some? && c.anime.value.title.value != "") ==>
      (t.Some? <==> c.animeTitle.Some? && c.animeTitle.value != "")
        && (t.Some? ==> t == c.animeTitle)
  {
    if c.anime.Some? && c.anime.value.title.Some? && c.anime.value.title.value != "" then c.anime.value.title
    else if c.animeTitle.Some? && c.animeTitle.value != "" then c.animeTitle
    else None
  }

  /** The anime id of a character: its embedded anime's id, else its
      `animeId`. */
  function AnimeId(c: Character): (v: Value)
    ensures c.anime.Some? && !Nullish(c.anime.value.id) ==> v == c.anime.value.id
    ensures !(c.anime.Some? && !Nullish(c.anime.value.id)) ==> v == c.animeId
  {
    Coalesce(if c.anime.Some? then c.anime.value.id else Undefined, c.animeId)
  }

  /** `null` or `undefined`, where `??` falls back. */
  predicate Nullish(v: Value) {
    v.Undefined? || v.Null?
  }

  /** `a ?? b`. */
  function Coalesce(a: Value, b: Value): (r: Value)
    ensures !Nullish(a) ==> r == a
    ensures Nullish(a) ==> r == b
  {
    if Nullish(a) then b else a
  }

  /** The edit form as the page fills it: every field from the character,
      except the anime select, which receives the anime's title. */
  function PrefillAsWritten(c: Character): (v: CharacterValues)
    ensures v.animeId == TextField(AnimeTitle(c))
    ensures v.name == Str(c.name) && v.description == TextField(c.description)
    ensures v.role == TextField(c.role) && v.voiceActor == TextField(c.voiceActor)
    ensures v.imageUrl == TextField(c.imageUrl)
    ensures v.age == (if c.age.Some? then Num(c.age.value) else Undefined)
  {
    CharacterValues(TextField(AnimeTitle(c)), Str(c.name), TextField(c.description), TextField(c.role),
                    TextField(c.voiceActor), if c.age.Some? then Num(c.age.value) else Undefined,
                    TextField(c.imageUrl))
  }

  /** The edit form holding the anime's id in the anime select, the value
      its options carry. */
  function Prefill(c: Character): (v: CharacterValues)
    ensures v.animeId == AnimeId(c)
    ensures v.name == PrefillAsWritten(c).name && v.description == PrefillAsWritten(c).description
    ensures v.role == PrefillAsWritten(c).role && v.voiceActor == PrefillAsWritten(c).voiceActor
    ensures v.age == PrefillAsWritten(c).age && v.imageUrl == PrefillAsWritten(c).imageUrl
  {
    PrefillAsWritten(c).(animeId := AnimeId(c))
  }

  // ---------------------------------------------------------------- payload

  /** A numeric payload field: left out (`undefined`), or `Number(v)`, with
      `None` for NaN. */
  datatype NumberField = Omitted | Number(n: Option<int>)

  datatype Payload = Payload(
    animeId: NumberField,
    name: Value,
    description: Value,
    imageUrl: Value,
    voiceActor: Value,
    role: Option<string>,
    age: NumberField)

  /** `v || undefined`. */
  function OrUndefined(v: Value): (r: Value)
    ensures Truthy(v) ==> r == v
    ensures !Truthy(v) ==> r == Undefined
  {
    if Truthy(v) then v else Undefined
  }

  /** The body of an add or edit request: the anime id converted to a
      number when set, the optional texts dropped when empty, the role in
      upper case, and the age converted to a number when present. */
  function PayloadOf(values: CharacterValues): (p: Payload)
    ensures p.name == values.name
    ensures p.animeId.Omitted? <==> !Truthy(values.animeId)
    ensures Truthy(values.animeId) ==> p.animeId.n == ToNumber(values.animeId)
    ensures p.description == OrUndefined(values.description) && p.imageUrl == OrUndefined(values.imageUrl)
    ensures p.voiceActor == OrUndefined(values.voiceActor)
    ensures p.role.Some? <==> Truthy(values.role)
    ensures p.role.Some? ==> p.role.value == Upper(StringOf(values.role)) && NoLower(p.role.value)
    ensures p.age.Omitted? <==> Nullish(values.age)
    ensures !Nullish(values.age) ==> p.age.n == ToNumber(values.age)
  {
    Payload(
      if Truthy(values.animeId) then Number(ToNumber(values.animeId)) else Omitted,
      values.name,
      OrUndefined(values.description),
      OrUndefined(values.imageUrl),
      OrUndefined(values.voiceActor),
      if Truthy(values.role) then Some(Upper(StringOf(values.role))) else None,
      if Nullish(values.age) then Omitted else Number(ToNumber(values.age)))
  }

  /** A role already in upper case, as the role select offers them, is sent
      unchanged. */
  lemma {:induction false} UpperOfUpper(s: string)
    requires NoLower(s)
    ensures Upper(s) == s
  {
    forall i | 0 <= i < |s| ensures Upper(s)[i] == s[i] {
      assert !IsLower(s[i]);
    }
  }

  /** An age field cleared to empty text is sent as 0, not left out. */
  lemma AgeClearedIsZero(values: CharacterValues)
    requires values.age == Str("")
    ensures PayloadOf(values).age == Number(Some(0))
  {
  }

  /** Saving the edit form unchanged sends the character back: its name,
      its non-empty texts, its role, its age and, for a numeric anime id,
      that id. */
  lemma {:induction false} PrefillRoundTrip(c: Character)
    requires c.role.Some? && c.role.value != "" && NoLower(c.role.value)
    ensures var p := PayloadOf(Prefill(c));
      && p.name == Str(c.name)
      && (c.description.Some? && c.description.value != "" ==> p.description == Str(c.description.value))
      && (c.description.None? || c.description.value == "" ==> p.description == Undefined)
      && p.role == c.role
      && (c.age.Some? ==> p.age == Number(c.age))
      && (c.age.None? ==> p.age.Omitted?)
      && (AnimeId(c).Num? && AnimeId(c).n != 0 ==> p.animeId == Number(Some(AnimeId(c).n)))
  {
    UpperOfUpper(c.role.value);
  }

  /** As the page fills it, the anime select holds a title, and saving the
      form unchanged sends NaN as the anime: the character loses its anime
      however it was linked. */
  lemma {:induction false} PrefillAsWrittenLosesAnime(c: Character)
    requires AnimeTitle(c).Some? && ParseNumber(AnimeTitle(c).value).None?
    ensures PayloadOf(PrefillAsWritten(c)).animeId == Number(None)
  {
  }

  /** With the anime's id in the select, an edit keeps the anime it was
      linked to. */
  lemma {:induction false} PrefillKeepsAnime(c: Character, n: int)
    requires AnimeId(c) == Num(n) && n != 0
    ensures PayloadOf(Prefill(c)).animeId == Number(Some(n))
    ensures Validates(Prefill(c)) <==> c.name != "" && c.role.Some? && c.role.value != ""
  {
  }

  // ---------------------------------------------------------------- lookup

  /** An option of the anime select. */
  datatype AnimeOption = AnimeOption(value: string, caption: string)

  /** A lookup item's option: the value is its id, else its slug, else the
      query; the label its title, else name, else slug, else id, else the
      query. */
  function OptionOf(item: Value, q: string): (o: AnimeOption)
    ensures !Nullish(Field(item, "id")) ==> o.value == StringOf(Field(item, "id"))
    ensures Nullish(Field(item, "id")) && !Nullish(Field(item, "slug")) ==> o.value == StringOf(Field(item, "slug"))
    ensures Nullish(Field(item, "id")) && Nullish(Field(item, "slug")) ==> o.value == q
    ensures !Nullish(Field(item, "title")) ==> o.caption == StringOf(Field(item, "title"))
    ensures Nullish(Field(item, "title")) && !Nullish(Field(item, "name")) ==> o.caption == StringOf(Field(item, "name"))
    ensures Nullish(Field(item, "title")) && Nullish(Field(item, "name")) ==>
      o.caption == StringOf(Coalesce(Field(item, "slug"), Coalesce(Field(item, "id"), Str(q))))
  {
    var id := Field(item, "id");
    var slug := Field(item, "slug");
    AnimeOption(
      StringOf(Coalesce(id, Coalesce(slug, Str(q)))),
      StringOf(Coalesce(Field(item, "title"), Coalesce(Field(item, "name"), Coalesce(slug, Coalesce(id, Str(q)))))))
  }

  /** An item with none of the four fields is offered under the query. */
  lemma BareItemOption(q: string)
    ensures OptionOf(Obj(map[]), q) == AnimeOption(q, q)
  {
  }

  /** An item with an id and a title is offered as that id under that
      title. */
  lemma {:induction false} IdentifiedItemOption(id: int, title: string, rest: map<string, Value>, q: string)
    ensures OptionOf(Obj(rest["id" := Num(id)]["title" := Str(title)]), q) == AnimeOption(IntToString(id), title)
  {
  }

  /** The list of a lookup response: the data itself when it is a list,
      else its `items` or none; `None` when `items` is set but not a list,
      which makes the mapping throw. */
  function ItemsOf(data: Value): (r: Option<seq<Value>>)
    ensures data.Arr? ==> r == Some(data.items)
    ensures !data.Arr? && Field(data, "items").Arr? ==> r == Some(Field(data, "items").items)
    ensures !data.Arr? && !Truthy(Field(data, "items")) ==> r == Some([])
  {
    if data.Arr? then Some(data.items)
    else
      var items := Field(data, "items");
      if items.Arr? then Some(items.items)
      else if !Truthy(items) then Some([])
      else None
  }

  /** The options after a lookup: one per item, in order, or none when
      reading the list throws (a list that is not one, or a null or
      undefined item). */
  function LookupOptions(data: Value, q: string): (r: seq<AnimeOption>)
    ensures ItemsOf(data).None? ==> r == []
    ensures ItemsOf(data).Some? && (exists k :: 0 <= k < |ItemsOf(data).value| && Nullish(ItemsOf(data).value[k])) ==> r == []
    ensures ItemsOf(data).Some? && (forall k :: 0 <= k < |ItemsOf(data).value| ==> !Nullish(ItemsOf(data).value[k])) ==>
      |r| == |ItemsOf(data).value|
      && forall k :: 0 <= k < |r| ==> r[k] == OptionOf(ItemsOf(data).value[k], q)
  {
    match ItemsOf(data)
    case None => []
    case Some(items) =>
      if exists k :: 0 <= k < |items| && Nullish(items[k]) then []
      else seq(|items|, k requires 0 <= k < |items| => OptionOf(items[k], q))
  }

  // ---------------------------------------------------------------- the page

  /** The requests the page sends through the character store. */
  datatype CharacterRequest =
    | FetchCharacters
    | SearchCharacters(name: string, anime: string)
    | AddCharacter(payload: Payload)
    | EditCharacter(id: string, payload: Payload)
    | RemoveCharacter(id: string)

  /** The header's search: a blank term reloads all characters, any other
      searches names and animes by the trimmed term. */
  function SearchRequest(value: string): (r: CharacterRequest)
    ensures Trim(value) == "" <==> r == FetchCharacters
    ensures Trim(value) != "" ==> r == SearchCharacters(Trim(value), Trim(value))
  {
    var t := Trim(value);
    if t == "" then FetchCharacters else SearchCharacters(t, t)
  }

  class Page {
    var search: string
    var modalOpen: bool
    var viewModalOpen: bool
    var deleteModalOpen: bool
    var deletingCharacter: Option<Character>
    var editing: Option<Character>
    var viewing: Option<Character>
    var form: CharacterValues
    var animeOptions: seq<AnimeOption>
    var animeFetching: bool
    /** The query of the lookup whose timer is pending, if any. */
    var pendingLookup: Option<string>

    constructor ()
      ensures search == "" && !modalOpen && !viewModalOpen && !deleteModalOpen
      ensures deletingCharacter.None? && editing.None? && viewing.None? && form == EmptyForm
      ensures animeOptions == [] && !animeFetching && pendingLookup.None?
    {
      search := "";
      modalOpen := false;
      viewModalOpen := false;
      deleteModalOpen := false;
      deletingCharacter := None;
      editing := None;
      viewing := None;
      form := EmptyForm;
      animeOptions := [];
      animeFetching := false;
      pendingLookup := None;
    }

    /** The table's rows. */
    function Rows(characters: seq<Character>): (r: seq<Character>)
      reads this
      ensures IsSubseq(r, characters)
    {
      Filtered(characters, search)
    }

    method SetSearch(value: string)
      modifies this
      ensures search == value
      ensures modalOpen == old(modalOpen) && editing == old(editing) && form == old(form)
      ensures deleteModalOpen == old(deleteModalOpen) && deletingCharacter == old(deletingCharacter)
    {
      search := value;
    }

    method OpenAdd()
      modifies this
      ensures modalOpen && editing.None? && form == EmptyForm
      ensures search == old(search) && animeOptions == old(animeOptions) && pendingLookup == old(pendingLookup)
      ensures deleteModalOpen == old(deleteModalOpen) && deletingCharacter == old(deletingCharacter)
    {
      editing := None;
      form := EmptyForm;
      modalOpen := true;
    }

    /** `openEdit` as written: the select is given the anime's title. */
    method OpenEditAsWritten(c: Character)
      modifies this
      ensures modalOpen && editing == Some(c) && form == PrefillAsWritten(c)
      ensures search == old(search) && animeOptions == old(animeOptions) && pendingLookup == old(pendingLookup)
      ensures deleteModalOpen == old(deleteModalOpen) && deletingCharacter == old(deletingCharacter)
    {
      editing := Some(c);
      form := PrefillAsWritten(c);
      modalOpen := true;
    }

    /** `openEdit` with the select given the anime's id. */
    method OpenEdit(c: Character)
      modifies this
      ensures modalOpen && editing == Some(c) && form == Prefill(c)
      ensures search == old(search) && animeOptions == old(animeOptions) && pendingLookup == old(pendingLookup)
      ensures deleteModalOpen == old(deleteModalOpen) && deletingCharacter == old(deletingCharacter)
    {
      editing := Some(c);
      form := Prefill(c);
      modalOpen := true;
    }

    method OnView(c: Character)
      modifies this
      ensures viewing == Some(c) && viewModalOpen
      ensures search == old(search) && modalOpen == old(modalOpen) && editing == old(editing) && form == old(form)
    {
      viewing := Some(c);
      viewModalOpen := true;
    }

    method CloseView()
      modifies this
      ensures !viewModalOpen && viewing == old(viewing)
      ensures search == old(search) && modalOpen == old(modalOpen) && editing == old(editing) && form == old(form)
    {
      viewModalOpen := false;
    }

    /** The form modal's cancel: it closes, keeping what was typed. */
    method CancelModal()
      modifies this
      ensures !modalOpen && editing == old(editing) && form == old(form)
      ensures search == old(search) && viewModalOpen == old(viewModalOpen)
    {
      modalOpen := false;
    }

    /** `onSubmit`: nothing when the rules reject the form; otherwise the
      edited character is updated, or a new one added, with the form's
      payload, and the modal closes with a reset form (the store keeps its
      own errors). */
    method OnSubmit() returns (requests: seq<CharacterRequest>)
      modifies this
      ensures !Validates(old(form)) ==>
        && requests == [] && modalOpen == old(modalOpen) && editing == old(editing) && form == old(form)
      ensures Validates(old(form)) && old(editing).Some? ==>
        requests == [EditCharacter(old(editing).value.id, PayloadOf(old(form)))]
      ensures Validates(old(form)) && old(editing).None? ==> requests == [AddCharacter(PayloadOf(old(form)))]
      ensures Validates(old(form)) ==> !modalOpen && editing.None? && form == EmptyForm
      ensures search == old(search) && deleteModalOpen == old(deleteModalOpen)
      ensures deletingCharacter == old(deletingCharacter) && animeOptions == old(animeOptions)
    {
      requests := [];
      if !Validates(form) {
        return;
      }
      var payload := PayloadOf(form);
      if editing.Some? {
        requests := [EditCharacter(editing.value.id, payload)];
      } else {
        requests := [AddCharacter(payload)];
      }
      modalOpen := false;
      editing := None;
      form := EmptyForm;
    }

    method OnDelete(c: Character)
      modifies this
      ensures deletingCharacter == Some(c) && deleteModalOpen
      ensures search == old(search) && modalOpen == old(modalOpen) && editing == old(editing) && form == old(form)
    {
      deletingCharacter := Some(c);
      deleteModalOpen := true;
    }

    /** The delete confirmation: nothing without a character; otherwise it
      is removed and the confirmation closes. */
    method HandleDeleteConfirm() returns (requests: seq<CharacterRequest>)
      modifies this
      ensures old(deletingCharacter).None? ==>
        && requests == [] && deleteModalOpen == old(deleteModalOpen) && deletingCharacter.None?
      ensures old(deletingCharacter).Some? ==>
        && requests == [RemoveCharacter(old(deletingCharacter).value.id)]
        && !deleteModalOpen && deletingCharacter.None?
      ensures search == old(search) && modalOpen == old(modalOpen) && editing == old(editing) && form == old(form)
    {
      requests := [];
      if deletingCharacter.Some? {
        requests := [RemoveCharacter(deletingCharacter.value.id)];
        deleteModalOpen := false;
        deletingCharacter := None;
      }
    }

    method HandleDeleteCancel()
      modifies this
      ensures !deleteModalOpen && deletingCharacter.None?
      ensures search == old(search) && modalOpen == old(modalOpen) && editing == old(editing) && form == old(form)
    {
      deleteModalOpen := false;
      deletingCharacter := None;
    }

    /** `handleAnimeLookup`. A blank query clears the options and schedules
      nothing; a pending lookup stays pending. Any other query replaces the
      pending lookup with one for the trimmed query and marks the select
      as fetching. */
    method HandleAnimeLookup(query: string) returns (scheduled: Option<string>)
      modifies this
      ensures Trim(query) == "" ==>
        && scheduled.None? && animeOptions == [] && pendingLookup == old(pendingLookup)
        && animeFetching == old(animeFetching)
      ensures Trim(query) != "" ==>
        && scheduled == Some(Trim(query)) && pendingLookup == scheduled && animeFetching
        && animeOptions == old(animeOptions)
      ensures search == old(search) && modalOpen == old(modalOpen) && editing == old(editing) && form == old(form)
    {
      var q := Trim(query);
      if q == "" {
        animeOptions := [];
        scheduled := None;
        return;
      }
      animeFetching := true;
      pendingLookup := Some(q);
      scheduled := pendingLookup;
    }

    /** The pending lookup's timer firing with the response it got: its
      options on success, none on failure, and the select stops fetching. */
    method FireLookup(outcome: ApiResult<Value>)
      modifies this
      ensures old(pendingLookup).None? ==> animeOptions == old(animeOptions) && animeFetching == old(animeFetching)
      ensures old(pendingLookup).Some? && outcome.Success? ==>
        animeOptions == LookupOptions(outcome.value, old(pendingLookup).value)
      ensures old(pendingLookup).Some? && outcome.Failure? ==> animeOptions == []
      ensures old(pendingLookup).Some? ==> !animeFetching
      ensures pendingLookup.None?
      ensures search == old(search) && modalOpen == old(modalOpen) && editing == old(editing) && form == old(form)
    {
      if pendingLookup.None? {
        return;
      }
      var q := pendingLookup.value;
      if outcome.Success? {
        animeOptions := LookupOptions(outcome.value, q);
      } else {
        animeOptions := [];
      }
      animeFetching := false;
      pendingLookup := None;
    }
  }
}
