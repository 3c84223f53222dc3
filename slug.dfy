/** The two slug normalisers of the admin panel.

    `Slugify` is the `slugify` helper that the anime list, the genre form
    and the anime modal each define with the same body: lower-case, trim,
    replace every run of characters outside `[a-z0-9]` by one `-`, and cut
    the hyphens off both ends. The Unicode NFKD step that precedes it is
    not modelled: on ASCII text it changes nothing.

    `WhitespaceSlug` is the season slug: lower-case, then every run of
    whitespace becomes one `-`. */
module Slug {
  import opened Text
  import opened Lists

  predicate IsAlnum(c: char) { IsLower(c) || IsDigit(c) }

  /** A letter or digit in either case: what survives lower-casing as `[a-z0-9]`. */
  predicate IsAsciiAlnum(c: char) { IsUpper(c) || IsLower(c) || IsDigit(c) }

  predicate NotHyphen(c: char) { c != '-' }

  /** What `slugify` can return: lower-case letters, digits and single
      inner hyphens. */
  predicate IsSlug(s: string) {
    && SlugChars(s)
    && (|s| > 0 ==> s[0] != '-' && s[|s| - 1] != '-')
    && NoDoubleHyphen(s)
  }

  /** No two hyphens stand next to each other. */
  predicate NoDoubleHyphen(s: string)
    decreases |s|
  {
    |s| < 2 || (!(s[0] == '-' && s[1] == '-') && NoDoubleHyphen(s[1..]))
  }

  /** A suffix keeps the property. */
  lemma {:induction false} NoDoubleHyphenDrop(s: string, k: nat)
    requires NoDoubleHyphen(s) && k <= |s|
    ensures NoDoubleHyphen(s[k..])
    decreases k
  {
    if k > 0 && |s| >= 2 {
      NoDoubleHyphenDrop(s[1..], k - 1);
      assert s[1..][k - 1..] == s[k..];
    }
  }

  /** A prefix keeps the property. */
  lemma {:induction false} NoDoubleHyphenTake(s: string, k: nat)
    requires NoDoubleHyphen(s) && k <= |s|
    ensures NoDoubleHyphen(s[..k])
    decreases k
  {
    if k >= 2 {
      NoDoubleHyphenTake(s[1..], k - 1);
      assert s[..k][1..] == s[1..][..k - 1];
    }
  }

  // ---------------------------------------------------------------- runs

  /** The rest of `s` after the run of `p`-characters at its front. */
  function DropRun(s: string, p: char -> bool): (r: string)
    ensures |r| <= |s| && r == s[|s| - |r|..]
    ensures |r| == 0 || !p(r[0])
    ensures forall i :: 0 <= i < |s| - |r| ==> p(s[i])
    decreases |s|
  {
    if |s| > 0 && p(s[0]) then DropRun(s[1..], p) else s
  }

  predicate NotAlnum(c: char) { !IsAlnum(c) }

  /** `.replace(/[^a-z0-9]+/g, "-")`. */
  function Collapse(s: string): (r: string)
    ensures SlugChars(r)
    ensures NoDoubleHyphen(r)
    ensures |r| == 0 <==> |s| == 0
    ensures |s| > 0 && IsAlnum(s[0]) ==> r[0] == s[0]
    decreases |s|
  {
    if |s| == 0 then ""
    else if IsAlnum(s[0]) then
      var t := Collapse(s[1..]);
      assert ([s[0]] + t)[1..] == t;
      [s[0]] + t
    else
      var t := Collapse(DropRun(s[1..], NotAlnum));
      assert ("-" + t)[1..] == t;
      "-" + t
  }

  /** `.replace(/^-+/, "")`. */
  function StripLeading(s: string): (r: string)
    ensures |r| <= |s|
    ensures |r| == 0 || r[0] != '-'
    ensures forall i :: 0 <= i < |s| - |r| ==> s[i] == '-'
    decreases |s|
  {
    if |s| > 0 && s[0] == '-' then StripLeading(s[1..]) else s
  }

  /** `.replace(/-+$/, "")`. */
  function StripTrailing(s: string): (r: string)
    ensures |r| <= |s|
    ensures |r| == 0 || r[|r| - 1] != '-'
    ensures forall i :: |r| <= i < |s| ==> s[i] == '-'
    decreases |s|
  {
    if |s| > 0 && s[|s| - 1] == '-' then StripTrailing(s[..|s| - 1]) else s
  }

  /** What `StripLeading` keeps is a suffix. It is a lemma rather than a
      postcondition, so that each use of a slug does not bring it along. */
  lemma {:induction false} StripLeadingIsSuffix(s: string)
    ensures StripLeading(s) == s[|s| - |StripLeading(s)|..]
    decreases |s|
  {
    if |s| > 0 && s[0] == '-' {
      StripLeadingIsSuffix(s[1..]);
      assert s[1..][|s| - 1 - |StripLeading(s)|..] == s[|s| - |StripLeading(s)|..];
    }
  }

  /** What `StripTrailing` keeps is a prefix. */
  lemma {:induction false} StripTrailingIsPrefix(s: string)
    ensures StripTrailing(s) == s[..|StripTrailing(s)|]
    decreases |s|
  {
    if |s| > 0 && s[|s| - 1] == '-' {
      StripTrailingIsPrefix(s[..|s| - 1]);
      assert s[..|s| - 1][..|StripTrailing(s)|] == s[..|StripTrailing(s)|];
    }
  }

  /** `.replace(/^-+|-+$/g, "")`. */
  function StripHyphens(s: string): string {
    StripTrailing(StripLeading(s))
  }

  /** `slugify(text)` on ASCII text. What it returns is stated by
      `SlugifyIsSlug`, kept apart so that reasoning about the stores and
      forms that hold a slug does not unfold the slug's shape. */
  function Slugify(text: string): string {
    StripHyphens(Collapse(Trim(Lower(text))))
  }

  /** Only lower-case letters, digits and hyphens. */
  predicate SlugChars(s: string) {
    forall i :: 0 <= i < |s| ==> IsAlnum(s[i]) || s[i] == '-'
  }

  lemma {:induction false} SlugCharsDrop(s: string, k: nat)
    requires SlugChars(s) && k <= |s|
    ensures SlugChars(s[k..])
  {
    forall i | 0 <= i < |s| - k ensures IsAlnum(s[k..][i]) || s[k..][i] == '-' {
      assert s[k..][i] == s[k + i];
    }
  }

  lemma {:induction false} SlugCharsTake(s: string, k: nat)
    requires SlugChars(s) && k <= |s|
    ensures SlugChars(s[..k])
  {
    forall i | 0 <= i < k ensures IsAlnum(s[..k][i]) || s[..k][i] == '-' {
      assert s[..k][i] == s[i];
    }
  }

  /** Cutting the hyphens off both ends of collapsed text leaves a slug. */
  lemma {:induction false} StripHyphensIsSlug(c: string)
    requires SlugChars(c) && NoDoubleHyphen(c)
    ensures IsSlug(StripHyphens(c))
  {
    var a := StripLeading(c);
    StripLeadingIsSuffix(c);
    NoDoubleHyphenDrop(c, |c| - |a|);
    SlugCharsDrop(c, |c| - |a|);
    var r := StripTrailing(a);
    StripTrailingIsPrefix(a);
    NoDoubleHyphenTake(a, |r|);
    SlugCharsTake(a, |r|);
    if |r| > 0 {
      assert r[0] == a[0];
    }
  }

  /** The result is a slug. */
  lemma {:induction false} SlugifyIsSlug(text: string)
    ensures IsSlug(Slugify(text))
  {
    var c := Collapse(Trim(Lower(text)));
    StripHyphensIsSlug(c);
  }


  // ---------------------------------------------------------------- slug properties

  /** Letters and digits survive `Collapse` in order. */
  lemma {:induction false} CollapseKeepsAlnum(s: string)
    ensures Filter(Collapse(s), IsAlnum) == Filter(s, IsAlnum)
    decreases |s|
  {
    if |s| > 0 {
      if IsAlnum(s[0]) {
        CollapseKeepsAlnum(s[1..]);
        assert ([s[0]] + Collapse(s[1..]))[1..] == Collapse(s[1..]);
      } else {
        var t := DropRun(s[1..], NotAlnum);
        CollapseKeepsAlnum(t);
        DropRunKeepsAlnum(s[1..]);
        assert ("-" + Collapse(t))[1..] == Collapse(t);
      }
    }
  }

  lemma {:induction false} DropRunKeepsAlnum(s: string)
    ensures Filter(DropRun(s, NotAlnum), IsAlnum) == Filter(s, IsAlnum)
    decreases |s|
  {
    if |s| > 0 && NotAlnum(s[0]) {
      DropRunKeepsAlnum(s[1..]);
    }
  }

  lemma {:induction false} StripLeadingKeepsAlnum(s: string)
    ensures Filter(StripLeading(s), IsAlnum) == Filter(s, IsAlnum)
    decreases |s|
  {
    if |s| > 0 && s[0] == '-' {
      StripLeadingKeepsAlnum(s[1..]);
    }
  }

  lemma {:induction false} FilterDropsLast(s: string, p: char -> bool)
    requires |s| > 0 && !p(s[|s| - 1])
    ensures Filter(s, p) == Filter(s[..|s| - 1], p)
    decreases |s|
  {
    if |s| > 1 {
      FilterDropsLast(s[1..], p);
      assert s[1..][..|s| - 2] == s[..|s| - 1][1..];
    }
  }

  lemma {:induction false} StripTrailingKeepsAlnum(s: string)
    ensures Filter(StripTrailing(s), IsAlnum) == Filter(s, IsAlnum)
    decreases |s|
  {
    if |s| > 0 && s[|s| - 1] == '-' {
      StripTrailingKeepsAlnum(s[..|s| - 1]);
      FilterDropsLast(s, IsAlnum);
    }
  }

  lemma {:induction false} FilterOfTrim(s: string)
    ensures Filter(Trim(s), IsAlnum) == Filter(s, IsAlnum)
  {
    var t := TrimStart(s);
    FilterDropsSpaceFront(s);
    FilterDropsSpaceBack(t);
  }

  lemma {:induction false} FilterDropsSpaceFront(s: string)
    ensures Filter(TrimStart(s), IsAlnum) == Filter(s, IsAlnum)
    decreases |s|
  {
    if |s| > 0 && IsSpace(s[0]) {
      FilterDropsSpaceFront(s[1..]);
    }
  }

  lemma {:induction false} FilterDropsSpaceBack(s: string)
    ensures Filter(TrimEnd(s), IsAlnum) == Filter(s, IsAlnum)
    decreases |s|
  {
    if |s| > 0 && IsSpace(s[|s| - 1]) {
      FilterDropsSpaceBack(s[..|s| - 1]);
      FilterDropsLast(s, IsAlnum);
    }
  }

  /** Every letter and digit of the lower-cased input appears in the slug,
      in order, and nothing else but hyphens does: each run of other
      characters became at most one hyphen. */
  lemma {:induction false} SlugifyKeepsAlnum(text: string)
    ensures Filter(Slugify(text), IsAlnum) == Filter(Lower(text), IsAlnum)
  {
    var l := Lower(text);
    var t := Trim(l);
    var c := Collapse(t);
    FilterOfTrim(l);
    CollapseKeepsAlnum(t);
    StripLeadingKeepsAlnum(c);
    StripTrailingKeepsAlnum(StripLeading(c));
  }

  /** Text without any letter or digit slugifies to the empty string. */
  lemma {:induction false} SlugifyWithoutAlnum(text: string)
    requires forall i :: 0 <= i < |text| ==> !IsAsciiAlnum(text[i])
    ensures Slugify(text) == ""
  {
    var l := Lower(text);
    assert forall i :: 0 <= i < |l| ==> !IsAlnum(l[i]);
    FilterOfNone(l, IsAlnum);
    SlugifyKeepsAlnum(text);
    var r := Slugify(text);
    SlugifyIsSlug(text);
  }

  lemma {:induction false} CollapseOfSlug(s: string)
    requires SlugChars(s)
    requires NoDoubleHyphen(s)
    requires |s| > 0 ==> s[|s| - 1] != '-'
    ensures Collapse(s) == s
    decreases |s|
  {
    if |s| > 0 {
      var rest := s[1..];
      CollapseOfSlug(rest);
      if !IsAlnum(s[0]) {
        assert |rest| > 0 && IsAlnum(rest[0]);
        assert DropRun(rest, NotAlnum) == rest;
      }
      assert [s[0]] + rest == s;
    }
  }

  /** `slugify(slugify(x)) == slugify(x)`: a slug is its own slug. */
  lemma {:induction false} SlugifyOfSlug(s: string)
    requires IsSlug(s)
    ensures Slugify(s) == s
  {
    assert NoUpper(s);
    LowerOfLowered(s);
    assert NoSpace(s);
    TrimOfNoSpace(s);
    CollapseOfSlug(s);
  }

  lemma {:induction false} SlugifyIdempotent(text: string)
    ensures Slugify(Slugify(text)) == Slugify(text)
  {
    SlugifyIsSlug(text);
    SlugifyOfSlug(Slugify(text));
  }

  // ---------------------------------------------------------------- whitespace slug

  /** `.replace(/\s+/g, "-")`. */
  function HyphenateSpaces(s: string): (r: string)
    ensures NoSpace(r)
    ensures forall i :: 0 <= i < |r| ==> r[i] == '-' || r[i] in s
    ensures |r| == 0 <==> |s| == 0
    decreases |s|
  {
    if |s| == 0 then ""
    else if !IsSpace(s[0]) then [s[0]] + HyphenateSpaces(s[1..])
    else "-" + HyphenateSpaces(DropRun(s[1..], IsSpace))
  }

  /** `name.toLowerCase().replace(/\s+/g, "-")`. */
  function WhitespaceSlug(name: string): (r: string)
    ensures NoSpace(r) && NoUpper(r)
  {
    var l := Lower(name);
    var r := HyphenateSpaces(l);
    assert NoUpper(r) by {
      forall i | 0 <= i < |r| ensures !IsUpper(r[i]) {
        if r[i] != '-' {
          var k :| 0 <= k < |l| && l[k] == r[i];
        }
      }
    }
    r
  }

  lemma {:induction false} HyphenateWithoutSpace(s: string)
    requires NoSpace(s)
    ensures HyphenateSpaces(s) == s
    decreases |s|
  {
    if |s| > 0 {
      HyphenateWithoutSpace(s[1..]);
      assert [s[0]] + s[1..] == s;
    }
  }

  /** A name without whitespace only gets lower-cased. */
  lemma {:induction false} WhitespaceSlugWithoutSpace(name: string)
    requires NoSpace(name)
    ensures WhitespaceSlug(name) == Lower(name)
  {
    HyphenateWithoutSpace(Lower(name));
  }

  /** The season slug is idempotent. */
  lemma {:induction false} WhitespaceSlugIdempotent(name: string)
    ensures WhitespaceSlug(WhitespaceSlug(name)) == WhitespaceSlug(name)
  {
    var r := WhitespaceSlug(name);
    LowerOfLowered(r);
    HyphenateWithoutSpace(r);
  }

  /** Every character other than whitespace survives in order. */
  lemma {:induction false} HyphenateKeepsNonSpace(s: string)
    ensures Filter(HyphenateSpaces(s), NotHyphen) == Filter(s, NotSpaceOrHyphen)
    decreases |s|
  {
    if |s| > 0 {
      if !IsSpace(s[0]) {
        HyphenateKeepsNonSpace(s[1..]);
        assert ([s[0]] + HyphenateSpaces(s[1..]))[1..] == HyphenateSpaces(s[1..]);
      } else {
        var t := DropRun(s[1..], IsSpace);
        HyphenateKeepsNonSpace(t);
        DropSpaceRunKeeps(s[1..]);
        assert ("-" + HyphenateSpaces(t))[1..] == HyphenateSpaces(t);
      }
    }
  }

  predicate NotSpaceOrHyphen(c: char) { !IsSpace(c) && c != '-' }

  lemma {:induction false} DropSpaceRunKeeps(s: string)
    ensures Filter(DropRun(s, IsSpace), NotSpaceOrHyphen) == Filter(s, NotSpaceOrHyphen)
    decreases |s|
  {
    if |s| > 0 && IsSpace(s[0]) {
      DropSpaceRunKeeps(s[1..]);
    }
  }

  /** The season slug keeps every non-space, non-hyphen character of the
      lower-cased name, in order. */
  lemma {:induction false} WhitespaceSlugKeeps(name: string)
    ensures Filter(WhitespaceSlug(name), NotHyphen) == Filter(Lower(name), NotSpaceOrHyphen)
  {
    HyphenateKeepsNonSpace(Lower(name));
  }
}
