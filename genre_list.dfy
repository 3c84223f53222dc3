/** The genre page: a searchable table of genres, a modal holding the genre
    form that adds or edits one, and a delete button per row. The genre
    store only refetches, so the page's effect on it is the request it
    sends. */
module GenreList {
  import opened Wrappers
  import opened Text
  import opened Lists
  import opened Slug
  import GenreForm

  datatype Genre = Genre(id: string, name: string, slug: Option<string>, description: Option<string>)

  // ---------------------------------------------------------------- search

  function Query(search: string): (q: string)
    ensures NoUpper(q)
  {
    Lower(Trim(search))
  }

  /** A genre matches when its name or description contains the query,
      ignoring letter case. */
  predicate GenreMatches(g: Genre, q: string) {
    Contains(Lower(g.name), q) || (g.description.Some? && Contains(Lower(g.description.value), q))
  }

  /** `filtered`: all genres for a blank search, else the matching ones in
      their order. */
  function Filtered(genres: seq<Genre>, search: string): (r: seq<Genre>)
    ensures Query(search) == "" ==> r == genres
    ensures IsSubseq(r, genres)
    ensures Query(search) != "" ==> forall k :: 0 <= k < |r| ==> GenreMatches(r[k], Query(search))
    ensures Query(search) != "" ==>
      forall k :: 0 <= k < |genres| && GenreMatches(genres[k], Query(search)) ==> genres[k] in r
  {
    var q := Query(search);
    if q == "" then
      assert IsSubseq(genres, genres) by {
        FilterAll(genres, (g: Genre) => true);
      }
      genres
    else Filter(genres, (g: Genre) => GenreMatches(g, q))
  }

  /** Searching the result again with the same term changes nothing. */
  lemma {:induction false} FilteredIdempotent(genres: seq<Genre>, search: string)
    ensures Filtered(Filtered(genres, search), search) == Filtered(genres, search)
  {
    var q := Query(search);
    if q != "" {
      FilterAll(Filtered(genres, search), (g: Genre) => GenreMatches(g, q));
    }
  }

  /** A term made only of whitespace keeps every genre. */
  lemma {:induction false} FilteredOfBlank(genres: seq<Genre>, search: string)
    requires forall i :: 0 <= i < |search| ==> IsSpace(search[i])
    ensures Filtered(genres, search) == genres
  {
    TrimStartIsSuffix(search);
    assert TrimStart(search) == [];
  }

  // ---------------------------------------------------------------- the page

  /** The form's values as submitted; an empty field is empty text. */
  datatype GenreValues = GenreValues(name: string, slug: string, description: string)

  datatype GenreRequest =
    | AddGenre(values: GenreValues)
    | EditGenre(id: string, values: GenreValues)
    | RemoveGenre(id: string)

  class Page {
    var search: string
    var modalOpen: bool
    var editing: Option<Genre>
    const form: GenreForm.Form

    constructor ()
      ensures search == "" && !modalOpen && editing.None?
      ensures fresh(form) && form.name == "" && form.slug == "" && form.description == ""
    {
      search := "";
      modalOpen := false;
      editing := None;
      form := new GenreForm.Form();
    }

    /** The table's rows. */
    function Rows(genres: seq<Genre>): (r: seq<Genre>)
      reads this
      ensures IsSubseq(r, genres)
    {
      Filtered(genres, search)
    }

    method SetSearch(value: string)
      modifies this
      ensures search == value && modalOpen == old(modalOpen) && editing == old(editing)
    {
      search := value;
    }

    method OpenAdd()
      modifies this, form
      ensures modalOpen && editing.None? && search == old(search)
      ensures form.name == "" && form.slug == "" && form.description == ""
    {
      editing := None;
      form.name, form.slug, form.description := "", "", "";
      modalOpen := true;
    }

    /** `openEdit` as the page has it: only the name and the description
      are filled, so the slug field keeps whatever it last held. */
    method OpenEditAsWritten(g: Genre)
      modifies this, form
      ensures modalOpen && editing == Some(g) && search == old(search)
      ensures form.name == g.name && form.description == g.description.GetOr("")
      ensures form.slug == old(form.slug)
    {
      editing := Some(g);
      form.name, form.description := g.name, g.description.GetOr("");
      modalOpen := true;
    }

    /** `openEdit` filling the slug field with the genre's own slug too. */
    method OpenEdit(g: Genre)
      modifies this, form
      ensures modalOpen && editing == Some(g) && search == old(search)
      ensures form.name == g.name && form.description == g.description.GetOr("")
      ensures form.slug == g.slug.GetOr("")
    {
      editing := Some(g);
      form.name, form.slug, form.description := g.name, g.slug.GetOr(""), g.description.GetOr("");
      modalOpen := true;
    }

    /** The modal's cancel: it closes, the form keeps what was typed. */
    method CancelModal()
      modifies this
      ensures !modalOpen && editing == old(editing) && search == old(search)
    {
      modalOpen := false;
    }

    /** `onSubmit`: nothing when the name is empty (its rule rejects);
      otherwise the edited genre is updated, or a new one added, with the
      form's three fields, and the modal closes with a reset form. */
    method OnSubmit() returns (requests: seq<GenreRequest>)
      modifies this, form
      ensures old(form.name) == "" ==>
        && requests == [] && modalOpen == old(modalOpen) && editing == old(editing)
        && form.name == old(form.name) && form.slug == old(form.slug) && form.description == old(form.description)
      ensures old(form.name) != "" ==>
        var values := GenreValues(old(form.name), old(form.slug), old(form.description));
        && (old(editing).Some? ==> requests == [EditGenre(old(editing).value.id, values)])
        && (old(editing).None? ==> requests == [AddGenre(values)])
        && !modalOpen && editing.None?
        && form.name == "" && form.slug == "" && form.description == ""
      ensures search == old(search)
    {
      requests := [];
      if form.name == "" {
        return;
      }
      var values := GenreValues(form.name, form.slug, form.description);
      if editing.Some? {
        requests := [EditGenre(editing.value.id, values)];
      } else {
        requests := [AddGenre(values)];
      }
      modalOpen := false;
      editing := None;
      form.name, form.slug, form.description := "", "", "";
    }

    /** A row's delete button removes the genre at once. */
    method OnDelete(g: Genre) returns (requests: seq<GenreRequest>)
      ensures requests == [RemoveGenre(g.id)]
    {
      requests := [RemoveGenre(g.id)];
    }
  }

  /** Adding a genre typed as `typed`, cancelling, then editing `g` and
      saving it unchanged, with the page as written: the edit carries the
      slug of the cancelled name, not `g`'s. */
  method StaleSlugAsWritten(typed: string, g: Genre) returns (requests: seq<GenreRequest>)
    requires g.name != ""
    ensures requests == [EditGenre(g.id, GenreValues(g.name, Slugify(typed), g.description.GetOr("")))]
  {
    var page := new Page();
    page.OpenAdd();
    page.form.HandleNameChange(typed);
    page.CancelModal();
    page.OpenEditAsWritten(g);
    requests := page.OnSubmit();
  }

  /** The same steps with the slug filled on edit: the edit carries `g`'s
      own slug, whatever was typed before. */
  method EditKeepsOwnSlug(typed: string, g: Genre) returns (requests: seq<GenreRequest>)
    requires g.name != ""
    ensures requests == [EditGenre(g.id, GenreValues(g.name, g.slug.GetOr(""), g.description.GetOr("")))]
  {
    var page := new Page();
    page.OpenAdd();
    page.form.HandleNameChange(typed);
    page.CancelModal();
    page.OpenEdit(g);
    requests := page.OnSubmit();
  }
}
