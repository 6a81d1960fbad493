/** SEO metadata and social hashtags derived from researched keywords. */
module Metadata {
  import opened Text
  import opened Lists
  import opened Wrappers
  import opened Slugs
  import opened KeywordResearch

  datatype SeoMetadata = SeoMetadata(
    metaTitle: string,
    metaDescription: string,
    focusKeyword: string,
    tags: string,
    slug: string)

  /** `keywords[0].keyword` on an empty list throws. */
  datatype MetadataError = NoPrimaryKeyword

  const MaxTags: nat := 8
  const MaxHashtags: nat := 10

  /** The texts of the first eight keywords, which the tag line joins. */
  function TagTexts(keywords: seq<KeywordData>): (t: seq<string>)
    ensures |t| == |Take(keywords, MaxTags)|
  {
    Texts(Take(keywords, MaxTags))
  }

  /** `generateSEOMetadata(topic, keywords)`: everything is keyed to the first
      keyword; the tag line lists at most eight keywords and the slug is a
      clean SEO slug of the topic. */
  function GenerateSeoMetadata(topic: string, keywords: seq<KeywordData>): (r: Result<SeoMetadata, MetadataError>)
    ensures r.Failure? <==> keywords == []
    ensures r.Success? ==>
      var m := r.value;
      m.focusKeyword == keywords[0].keyword &&
      m.metaTitle == topic + ": Complete Guide to " + keywords[0].keyword + " (2024)" &&
      m.tags == Join(TagTexts(keywords), ", ") &&
      m.slug == SeoSlug(topic) && IsSlugText(m.slug) && NoEdgeHyphen(m.slug)
  {
    if keywords == [] then Failure(NoPrimaryKeyword)
    else
      var primary := keywords[0].keyword;
      Success(SeoMetadata(
        topic + ": Complete Guide to " + primary + " (2024)",
        "Discover the ultimate " + topic + " strategies. Learn " + primary
          + " techniques that actually work. Step-by-step guide with proven results.",
        primary,
        Join(TagTexts(keywords), ", "),
        SeoSlug(topic)))
  }

  /** The tag line holds keyword i, for each of the first eight, at its place
      in the comma-separated list, and starts with the focus keyword. */
  lemma TagsListKeywords(topic: string, keywords: seq<KeywordData>, i: nat)
    requires keywords != [] && i < |keywords| && i < MaxTags
    ensures var m := GenerateSeoMetadata(topic, keywords).value;
            var at := Offset(TagTexts(keywords), ", ", i);
            at + |keywords[i].keyword| <= |m.tags| &&
            m.tags[at..at + |keywords[i].keyword|] == keywords[i].keyword
    ensures var m := GenerateSeoMetadata(topic, keywords).value;
            m.tags[..|m.focusKeyword|] == m.focusKeyword
  {
    var parts := TagTexts(keywords);
    TextsAt(Take(keywords, MaxTags), i);
    TextsAt(Take(keywords, MaxTags), 0);
    JoinAt(parts, ", ", i);
    JoinAt(parts, ", ", 0);
  }

  /** One hashtag: `#` and the keyword with whitespace, then everything outside
      `[a-zA-Z0-9]`, deleted. */
  function Hashtag(keyword: string): (tag: string)
    ensures tag == "#" + Filter(keyword, IsAsciiAlnum)
    ensures |tag| >= 1 && tag[0] == '#'
    ensures forall i :: 1 <= i < |tag| ==> IsAsciiAlnum(tag[i])
  {
    StripSpaceThenKeepAlnum(keyword);
    var tag := "#" + Filter(Filter(keyword, IsNotSpace), IsAsciiAlnum);
    assert forall i :: 1 <= i < |tag| ==> IsAsciiAlnum(tag[i]) by {
      forall i | 1 <= i < |tag| ensures IsAsciiAlnum(tag[i]) {
        assert tag[i] in tag[1..];
      }
    }
    tag
  }

  /** `generateHashtags(keywords)`: one hashtag for each of the first ten keywords, in order. */
  function GenerateHashtags(keywords: seq<KeywordData>): (tags: seq<string>)
    ensures |tags| == |Take(keywords, MaxHashtags)|
    ensures forall i :: 0 <= i < |tags| ==> tags[i] == "#" + Filter(keywords[i].keyword, IsAsciiAlnum)
  {
    var firstTen := Take(keywords, MaxHashtags);
    seq(|firstTen|, i requires 0 <= i < |firstTen| => Hashtag(firstTen[i].keyword))
  }

  /** A keyword made of ASCII letters, digits and spaces loses only its spaces. */
  lemma HashtagOfPlainWords(keyword: string)
    requires forall i :: 0 <= i < |keyword| ==> IsAsciiAlnum(keyword[i]) || keyword[i] == ' '
    ensures Hashtag(keyword) == "#" + Filter(keyword, IsNotSpace)
  {
    PlainWordsFilter(keyword);
  }

  lemma {:induction false} PlainWordsFilter(s: string)
    requires forall i :: 0 <= i < |s| ==> IsAsciiAlnum(s[i]) || s[i] == ' '
    ensures Filter(s, IsAsciiAlnum) == Filter(s, IsNotSpace)
  {
    if s != [] {
      PlainWordsFilter(s[1..]);
    }
  }
}
