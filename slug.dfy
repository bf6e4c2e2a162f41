/** `slugify(text)`: `text.toLowerCase().replace(/[^a-z0-9]+/g, "-")`, which
    turns a title into a list key. */
module Slug {
  import opened Text

  /** The characters the pattern `[^a-z0-9]` does not match. */
  predicate IsSlugChar(c: char) {
    'a' <= c <= 'z' || '0' <= c <= '9'
  }

  /** Only `[a-z0-9-]`, and never two `-` in a row. */
  predicate IsSlug(s: string) {
    (forall i :: 0 <= i < |s| ==> IsSlugChar(s[i]) || s[i] == '-')
    && (forall i :: 0 <= i < |s| - 1 ==> IsSlugChar(s[i]) || IsSlugChar(s[i + 1]))
  }

  /** The length of the maximal run of characters outside `[a-z0-9]` at the
      front. */
  function RunLength(s: string): (n: nat)
    ensures n <= |s|
    ensures forall i :: 0 <= i < n ==> !IsSlugChar(s[i])
    ensures n < |s| ==> IsSlugChar(s[n])
  {
    if s != [] && !IsSlugChar(s[0]) then 1 + RunLength(s[1..]) else 0
  }

  /** The global replacement: every maximal run of characters outside
      `[a-z0-9]` becomes one `-`; the rest is copied. */
  function Collapse(s: string): (r: string)
    ensures IsSlug(r)
    ensures r == [] <==> s == []
    ensures s != [] && IsSlugChar(s[0]) ==> r[0] == s[0]
    ensures s != [] && !IsSlugChar(s[0]) ==> r[0] == '-'
    decreases |s|
  {
    if s == [] then []
    else if IsSlugChar(s[0]) then [s[0]] + Collapse(s[1..])
    else "-" + Collapse(s[RunLength(s)..])
  }

  function Slugify(text: string): string {
    Collapse(Lower(text))
  }

  /** Every slug is made of `[a-z0-9-]` with no `--`. */
  lemma SlugifyIsSlug(text: string)
    ensures IsSlug(Slugify(text))
  {
  }

  /** The replacement leaves a slug as it is. */
  lemma {:induction false} CollapseOfSlug(s: string)
    requires IsSlug(s)
    ensures Collapse(s) == s
    decreases |s|
  {
    if s != [] {
      if IsSlugChar(s[0]) {
        CollapseOfSlug(s[1..]);
      } else {
        assert |s| == 1 || IsSlugChar(s[1]);
        assert RunLength(s) == 1;
        CollapseOfSlug(s[1..]);
      }
    }
  }

  /** `slugify(slugify(s)) == slugify(s)`. */
  lemma SlugifyIdempotent(text: string)
    ensures Slugify(Slugify(text)) == Slugify(text)
  {
    var s := Slugify(text);
    assert Lower(s) == s;
    CollapseOfSlug(s);
  }

  /** The letters and digits of a string, in order. */
  function Alnums(s: string): (r: string)
    ensures forall i :: 0 <= i < |r| ==> IsSlugChar(r[i])
  {
    if s == [] then [] else (if IsSlugChar(s[0]) then [s[0]] else []) + Alnums(s[1..])
  }

  lemma {:induction false} AlnumsOfRun(s: string)
    ensures Alnums(s[RunLength(s)..]) == Alnums(s)
    decreases |s|
  {
    if s != [] && !IsSlugChar(s[0]) {
      AlnumsOfRun(s[1..]);
      assert s[RunLength(s)..] == s[1..][RunLength(s[1..])..];
    }
  }

  /** The replacement keeps every letter and digit, in order, and adds none. */
  lemma {:induction false} CollapseKeepsAlnums(s: string)
    ensures Alnums(Collapse(s)) == Alnums(s)
    decreases |s|
  {
    if s != [] {
      if IsSlugChar(s[0]) {
        CollapseKeepsAlnums(s[1..]);
        assert ([s[0]] + Collapse(s[1..]))[1..] == Collapse(s[1..]);
      } else {
        var t := s[RunLength(s)..];
        CollapseKeepsAlnums(t);
        AlnumsOfRun(s);
        assert ("-" + Collapse(t))[1..] == Collapse(t);
      }
    }
  }

  /** `slugify` keeps the lower-cased letters and digits of its input, in order. */
  lemma SlugifyKeepsAlnums(text: string)
    ensures Alnums(Slugify(text)) == Alnums(Lower(text))
  {
    CollapseKeepsAlnums(Lower(text));
  }
}
