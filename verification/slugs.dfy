/** The two URL-slug rules of the site: the one the blog editors derive from a
    post title as it is typed, and the one the SEO metadata derives from a
    topic. */
module Slugs {
  import opened Text

  /** The characters `[a-z0-9-]`. */
  predicate IsSlugChar(c: char) {
    IsLowerAlnum(c) || c == '-'
  }

  /** Only slug characters, and never two hyphens in a row. */
  predicate IsSlugText(s: string) {
    (forall i :: 0 <= i < |s| ==> IsSlugChar(s[i])) && NoAdjacent(s, IsHyphen)
  }

  predicate NoEdgeHyphen(s: string) {
    s == [] || (s[0] != '-' && s[|s| - 1] != '-')
  }

  /** What `/[^a-z0-9\s-]/g` leaves in place. */
  predicate KeptInTitleSlug(c: char) {
    IsLowerAlnum(c) || IsSpace(c) || c == '-'
  }

  /** The slug `handleInputChange('title', v)` stores: lower-case, delete what is
      not `[a-z0-9]`, whitespace or `-`, turn each whitespace run into `-`,
      collapse hyphen runs, then `trim()`. */
  function TitleSlug(title: string): (slug: string)
    ensures IsSlugText(slug)
  {
    var kept := Filter(Lower(title), KeptInTitleSlug);
    var hyphenated := ReplaceRuns(kept, IsSpace, '-');
    var collapsed := ReplaceRuns(hyphenated, IsHyphen, '-');
    SpacesBecomeHyphens(kept, hyphenated);
    HyphenRunsCollapse(hyphenated, collapsed);
    Trim(collapsed)
  }

  lemma SpacesBecomeHyphens(kept: string, hyphenated: string)
    requires forall i :: 0 <= i < |kept| ==> KeptInTitleSlug(kept[i])
    requires hyphenated == ReplaceRuns(kept, IsSpace, '-')
    ensures forall i :: 0 <= i < |hyphenated| ==> IsSlugChar(hyphenated[i])
  {
    forall i | 0 <= i < |hyphenated| ensures IsSlugChar(hyphenated[i]) {
      assert hyphenated[i] in hyphenated;
    }
  }

  lemma HyphenRunsCollapse(hyphenated: string, collapsed: string)
    requires forall i :: 0 <= i < |hyphenated| ==> IsSlugChar(hyphenated[i])
    requires collapsed == ReplaceRuns(hyphenated, IsHyphen, '-')
    ensures IsSlugText(collapsed)
  {
    forall i | 0 <= i < |collapsed| ensures IsSlugChar(collapsed[i]) {
      assert collapsed[i] in collapsed;
    }
  }

  /** A slug text is its own title slug. */
  lemma TitleSlugFixed(s: string)
    requires IsSlugText(s)
    ensures TitleSlug(s) == s
  {
    forall i | 0 <= i < |s| ensures !IsUpper(s[i]) && KeptInTitleSlug(s[i]) && !IsSpace(s[i]) {
      assert IsSlugChar(s[i]);
    }
    LowerFixed(s);
    FilterFixed(s, KeptInTitleSlug);
    ReplaceRunsFixed(s, IsSpace, '-', false);
    assert ReplaceRuns(s, IsSpace, '-') == s;
    ReplaceRunsFixed(s, IsHyphen, '-', false);
    assert ReplaceRuns(s, IsHyphen, '-') == s;
  }

  /** Typing the slug back in as a title reproduces it. */
  lemma TitleSlugIdempotent(title: string)
    ensures TitleSlug(TitleSlug(title)) == TitleSlug(title)
  {
    TitleSlugFixed(TitleSlug(title));
  }

  lemma FilterKeepsHead(s: string, keep: char -> bool)
    requires s != [] && keep(s[0])
    ensures Filter(s, keep) != [] && Filter(s, keep)[0] == s[0]
  {
  }

  /** The final `trim()` runs after the whitespace is gone, so it never removes
      anything: a title that starts with whitespace gives a slug that starts
      with a hyphen. */
  lemma TitleSlugLeadingHyphen(title: string)
    requires title != [] && IsSpace(title[0])
    ensures TitleSlug(title) != [] && TitleSlug(title)[0] == '-'
  {
    var lowered := Lower(title);
    assert lowered[0] == title[0];
    FilterKeepsHead(lowered, KeptInTitleSlug);
    var kept := Filter(lowered, KeptInTitleSlug);
    var hyphenated := ReplaceRuns(kept, IsSpace, '-');
    assert hyphenated[0] == '-';
    var collapsed := ReplaceRuns(hyphenated, IsHyphen, '-');
    assert collapsed[0] == '-';
  }

  /** `/^-|-$/g` replaced by nothing: one leading and one trailing hyphen go. */
  function StripEdgeHyphens(s: string): (t: string)
    ensures |t| <= |s|
  {
    var a := if s != [] && s[0] == '-' then s[1..] else s;
    if a != [] && a[|a| - 1] == '-' then a[..|a| - 1] else a
  }

  /** The SEO slug: lower-case, each run of characters outside `[a-z0-9]` becomes
      one hyphen, and a hyphen at either end is dropped. */
  function SeoSlug(topic: string): (slug: string)
    ensures IsSlugText(slug) && NoEdgeHyphen(slug)
  {
    var runs := ReplaceRuns(Lower(topic), IsNotLowerAlnum, '-');
    SeoRunsShape(runs, Lower(topic));
    StripEdgeHyphens(runs)
  }

  lemma SeoRunsShape(runs: string, lowered: string)
    requires runs == ReplaceRuns(lowered, IsNotLowerAlnum, '-')
    ensures IsSlugText(runs) && NoAdjacent(runs, IsNotLowerAlnum)
    ensures IsSlugText(StripEdgeHyphens(runs)) && NoEdgeHyphen(StripEdgeHyphens(runs))
  {
    forall i | 0 <= i < |runs| ensures IsSlugChar(runs[i]) {
      assert runs[i] in runs;
    }
    var a := if runs != [] && runs[0] == '-' then runs[1..] else runs;
    assert IsSlugText(a) && NoAdjacent(a, IsNotLowerAlnum);
    assert a != [] ==> a[0] != '-';
    if a != [] && a[|a| - 1] == '-' && |a| >= 2 {
      HyphenFollowsAlnum(a);
    }
  }

  lemma HyphenFollowsAlnum(a: string)
    requires NoAdjacent(a, IsNotLowerAlnum)
    requires |a| >= 2 && a[|a| - 1] == '-'
    ensures IsLowerAlnum(a[|a| - 2])
  {
    var k := |a| - 2;
    assert !(IsNotLowerAlnum(a[k]) && IsNotLowerAlnum(a[k + 1]));
  }

  /** A slug text without a hyphen at either end is its own SEO slug. */
  lemma SeoSlugFixed(s: string)
    requires IsSlugText(s) && NoEdgeHyphen(s)
    ensures SeoSlug(s) == s
  {
    forall i | 0 <= i < |s| ensures !IsUpper(s[i]) {
      assert IsSlugChar(s[i]);
    }
    LowerFixed(s);
    RunsFixed(s);
    assert StripEdgeHyphens(s) == s;
  }

  lemma RunsFixed(s: string)
    requires IsSlugText(s)
    ensures ReplaceRuns(s, IsNotLowerAlnum, '-') == s
  {
    forall i | 0 <= i < |s| - 1 ensures !(IsNotLowerAlnum(s[i]) && IsNotLowerAlnum(s[i + 1])) {
      assert IsSlugChar(s[i]) && IsSlugChar(s[i + 1]);
      assert !(IsHyphen(s[i]) && IsHyphen(s[i + 1]));
    }
    forall i | 0 <= i < |s| && IsNotLowerAlnum(s[i]) ensures s[i] == '-' {
      assert IsSlugChar(s[i]);
    }
    ReplaceRunsFixed(s, IsNotLowerAlnum, '-', false);
  }

  lemma SeoSlugIdempotent(topic: string)
    ensures SeoSlug(SeoSlug(topic)) == SeoSlug(topic)
  {
    SeoSlugFixed(SeoSlug(topic));
  }
}
