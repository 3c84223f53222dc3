/** The genre form: typing a name rewrites the slug field with the
    slugified name. */
module GenreForm {
  import opened Slug

  class Form {
    var name: string
    var slug: string
    var description: string

    constructor ()
      ensures name == "" && slug == "" && description == ""
    {
      name := "";
      slug := "";
      description := "";
    }

    /** Whatever the slug field held, it is a slug of the name. */
    predicate SlugOfName()
      reads this
    {
      slug == Slugify(name)
    }

    /** One keystroke in the name field: the input's binding stores the
        name, and `handleNameChange` overwrites the slug. */
    method HandleNameChange(value: string)
      modifies this
      ensures name == value && slug == Slugify(value) && description == old(description)
      ensures SlugOfName() && IsSlug(slug)
    {
      name := value;
      slug := Slugify(value);
      SlugifyIsSlug(value);
    }
  }
}
