/** The blog creator page: the same form as the editor, plus a mock keyword
    research and an AI draft generator that fills the form from a prompt. Saving
    only sets the status; it does not write the stored post list. */
module BlogCreator {
  import opened Text
  import opened Lists
  import opened Wrappers
  import opened BlogForm

  /** A researched keyword; its cost-per-click is not modelled. */
  datatype ResearchedKeyword = ResearchedKeyword(keyword: string, volume: int, difficulty: int)

  datatype KeywordSet = KeywordSet(
    primary: ResearchedKeyword,
    related: seq<ResearchedKeyword>,
    longTail: seq<string>)

  /** t occurs in k starting at index i. */
  predicate OccursAt(k: string, t: string, i: int) {
    0 <= i <= |k| - |t| && k[i..i + |t|] == t
  }

  /** k contains t as a contiguous piece. */
  ghost predicate Mentions(k: string, t: string) {
    exists i :: OccursAt(k, t, i)
  }

  lemma MentionsInside(a: string, t: string, b: string)
    ensures Mentions(a + t + b, t)
  {
    var k := a + t + b;
    assert k[|a|..|a| + |t|] == t;
    assert OccursAt(k, t, |a|);
  }

  lemma MentionsFirst(t: string, b: string)
    ensures Mentions(t + b, t)
  {
    assert (t + b)[0..|t|] == t;
    assert OccursAt(t + b, t, 0);
  }

  lemma MentionsLast(a: string, t: string)
    ensures Mentions(a + t, t)
  {
    assert (a + t)[|a|..|a| + |t|] == t;
    assert OccursAt(a + t, t, |a|);
  }

  /** The mock `performKeywordResearch(topic)`: a primary keyword
      `${lower(topic)} strategies`, five related keywords and five long-tail
      phrases, every one of them built around the lower-cased topic. */
  function MockKeywordResearch(topic: string): (r: KeywordSet)
    ensures r.primary.keyword == Lower(topic) + " strategies"
    ensures |r.related| == 5 && |r.longTail| == 5
  {
    var t := Lower(topic);
    KeywordSet(
      ResearchedKeyword(t + " strategies", 8900, 35),
      [
        ResearchedKeyword(t + " tips", 5400, 28),
        ResearchedKeyword("best " + t + " practices", 3200, 42),
        ResearchedKeyword(t + " guide 2024", 2100, 25),
        ResearchedKeyword(t + " automation", 4600, 38),
        ResearchedKeyword(t + " tools", 6700, 45)
      ],
      [
        "how to improve " + t,
        t + " for small business",
        t + " best practices 2024",
        "advanced " + t + " techniques",
        t + " ROI optimization"
      ])
  }

  /** Every related keyword and long-tail phrase of the mock research is built
      around the lower-cased topic. */
  lemma MockResearchMentionsTopic(topic: string)
    ensures var r := MockKeywordResearch(topic);
            (forall i :: 0 <= i < |r.related| ==> Mentions(r.related[i].keyword, Lower(topic))) &&
            (forall i :: 0 <= i < |r.longTail| ==> Mentions(r.longTail[i], Lower(topic)))
  {
    var t := Lower(topic);
    MentionsFirst(t, " tips");
    MentionsInside("best ", t, " practices");
    MentionsFirst(t, " guide 2024");
    MentionsFirst(t, " automation");
    MentionsFirst(t, " tools");
    MentionsLast("how to improve ", t);
    MentionsFirst(t, " for small business");
    MentionsFirst(t, " best practices 2024");
    MentionsInside("advanced ", t, " techniques");
    MentionsFirst(t, " ROI optimization");
  }

  /** JavaScript's `a || b` on strings: the empty string (or a missing value) falls back. */
  function OrElse(a: string, b: string): (r: string)
    ensures r == a || r == b
    ensures a != [] ==> r == a
  {
    if a == [] then b else a
  }

  /** `keywords?.primaryKeyword?.keyword`, with a missing value read as empty. */
  function ResearchedPrimary(research: Option<KeywordSet>): string {
    if research.Some? then research.value.primary.keyword else ""
  }

  /** `primaryKeyword`: the researched primary keyword, or the lower-cased prompt. */
  function PrimaryKeyword(prompt: string, research: Option<KeywordSet>): (k: string)
    ensures research.None? ==> k == Lower(prompt)
  {
    OrElse(ResearchedPrimary(research), Lower(prompt))
  }

  /** Once research for a topic exists, the primary keyword is that topic's, whatever the prompt. */
  lemma PrimaryFromResearch(prompt: string, topic: string)
    ensures PrimaryKeyword(prompt, Some(MockKeywordResearch(topic))) == Lower(topic) + " strategies"
  {
  }

  /** The items the tag string joins when research exists: the primary keyword,
      the first three related keywords and the first two long-tail phrases. */
  function TagItems(primary: string, research: KeywordSet): (items: seq<string>)
    ensures |items| == 1 + |Take(research.related, 3)| + |Take(research.longTail, 2)|
    ensures items[0] == primary
  {
    var related := Take(research.related, 3);
    [primary] + seq(|related|, i requires 0 <= i < |related| => related[i].keyword) + Take(research.longTail, 2)
  }

  const FixedTagTail: seq<string> := ["marketing automation", "digital marketing", "growth strategies", "2024 trends"]

  /** The `tags` of the generated draft. */
  function GeneratedTags(prompt: string, research: Option<KeywordSet>): string {
    if research.Some? then Join(TagItems(PrimaryKeyword(prompt, research), research.value), ", ")
    else (Lower(prompt) + ", " + "marketing automation" + ", " + "digital marketing" + ", "
          + "growth strategies" + ", " + "2024 trends")
  }

  /** With mock research the tag string lists six items headed by the primary keyword. */
  lemma TagsWithResearch(prompt: string, topic: string)
    ensures var research := MockKeywordResearch(topic);
            var items := TagItems(Lower(topic) + " strategies", research);
            |items| == 6 && items[0] == Lower(topic) + " strategies" &&
            items[1..4] == [research.related[0].keyword, research.related[1].keyword, research.related[2].keyword] &&
            items[4..] == research.longTail[..2] &&
            GeneratedTags(prompt, Some(research)) == Join(items, ", ")
  {
  }

  /** Without research the tag string is the fixed list of five items headed by
      the lower-cased prompt, joined the same way. */
  lemma TagsWithoutResearch(prompt: string)
    ensures GeneratedTags(prompt, None) == Join([Lower(prompt)] + FixedTagTail, ", ")
  {
    JoinFive(Lower(prompt), FixedTagTail[0], FixedTagTail[1], FixedTagTail[2], FixedTagTail[3]);
    assert [Lower(prompt)] + FixedTagTail ==
      [Lower(prompt), FixedTagTail[0], FixedTagTail[1], FixedTagTail[2], FixedTagTail[3]];
  }

  lemma JoinFive(a: string, b: string, c: string, d: string, e: string)
    ensures Join([a, b, c, d, e], ", ") == a + ", " + b + ", " + c + ", " + d + ", " + e
  {
    JoinCons(a, [b, c, d, e]);
    assert [a] + [b, c, d, e] == [a, b, c, d, e];
    JoinCons(b, [c, d, e]);
    assert [b] + [c, d, e] == [b, c, d, e];
    JoinCons(c, [d, e]);
    assert [c] + [d, e] == [c, d, e];
    JoinCons(d, [e]);
    assert [d] + [e] == [d, e];
  }

  lemma JoinCons(x: string, rest: seq<string>)
    requires rest != []
    ensures Join([x] + rest, ", ") == x + ", " + Join(rest, ", ")
  {
    assert ([x] + rest)[1..] == rest;
  }

  /** The `<h2>` headings of the generated article, in order; the prose between
      them is not modelled. */
  function ArticleHeadings(prompt: string): seq<string> {
    [
      "Introduction to " + prompt,
      "Understanding " + prompt + ": The Foundation",
      "Advanced " + prompt + " Strategies for 2024",
      "Tools and Technologies for " + prompt,
      "Best Practices for " + prompt + " Implementation",
      "Measuring Success in " + prompt,
      "Common Challenges and Solutions",
      "Future Trends in " + prompt,
      "Getting Started: Your Action Plan",
      "Conclusion"
    ]
  }

  function ArticleBody(headings: seq<string>): string {
    if headings == [] then "" else "<h2>" + headings[0] + "</h2>" + ArticleBody(headings[1..])
  }

  /** The fixed prose of a draft, kept apart from the keyword logic: the
      excerpt after the primary keyword, the meta description between the
      primary keyword and the lower-cased prompt, and the image address. */
  datatype Wording = Wording(excerptTail: string, descriptionMiddle: string, image: string)

  /** The wording the page uses. */
  const PageWording := Wording(
    " with our comprehensive guide. Discover proven strategies, tools, and techniques that drive real results for businesses of all sizes.",
    " with our comprehensive 2024 guide. Discover proven strategies, tools, and techniques for ",
    "https://images.pexels.com/photos/3184291/pexels-photo-3184291.jpeg?auto=compress&cs=tinysrgb&w=1200&h=600&fit=crop")

  /** `aiGeneratedContent`: the eight generated fields. */
  datatype AiDraft = AiDraft(
    title: string,
    excerpt: string,
    content: string,
    tags: string,
    category: string,
    metaTitle: string,
    metaDescription: string,
    featuredImage: string)

  /** The draft for a prompt and the current research result. Its title and
      content always contain non-space characters, so it can be saved. */
  function GenerateDraft(prompt: string, research: Option<KeywordSet>, w: Wording): (g: AiDraft)
    ensures !IsBlank(g.title) && !IsBlank(g.content)
    ensures g.tags == GeneratedTags(prompt, research) && g.category == "Tutorials"
  {
    var primary := PrimaryKeyword(prompt, research);
    var draft := AiDraft(
      "The Complete " + prompt + " Guide: " + OrElse(ResearchedPrimary(research), "Advanced Strategies") + " for 2024",
      "Master " + primary + w.excerptTail,
      ArticleBody(ArticleHeadings(prompt)),
      GeneratedTags(prompt, research),
      "Tutorials",
      primary + " Guide 2024 | Complete " + prompt + " Strategies",
      "Master " + primary + w.descriptionMiddle + Lower(prompt) + " success.",
      w.image);
    assert draft.title[0] == 'T';
    assert draft.content[0] == '<';
    draft
  }

  /** Without research the title falls back to "Advanced Strategies"; with
      research it names the researched primary keyword. */
  lemma DraftTitle(prompt: string, topic: string, w: Wording)
    ensures GenerateDraft(prompt, None, w).title == "The Complete " + prompt + " Guide: Advanced Strategies for 2024"
    ensures GenerateDraft(prompt, Some(MockKeywordResearch(topic)), w).title
      == "The Complete " + prompt + " Guide: " + Lower(topic) + " strategies" + " for 2024"
  {
    assert "The Complete " + prompt + " Guide: " + "Advanced Strategies" + " for 2024"
        == "The Complete " + prompt + " Guide: Advanced Strategies for 2024";
  }

  /** `{ ...prev, ...aiGeneratedContent }`: the draft's eight fields replace the
      form's; slug, status, publish date and author stay. */
  function ApplyDraft(d: BlogData, g: AiDraft): (e: BlogData)
    ensures e.slug == d.slug && e.status == d.status && e.publishDate == d.publishDate && e.author == d.author
    ensures e.title == g.title && e.content == g.content && e.tags == g.tags
  {
    d.(title := g.title, excerpt := g.excerpt, content := g.content, tags := g.tags, category := g.category,
       metaTitle := g.metaTitle, metaDescription := g.metaDescription, featuredImage := g.featuredImage)
  }

  /** A generated draft always passes the save checks. */
  lemma GeneratedDraftSaves(d: BlogData, prompt: string, research: Option<KeywordSet>, w: Wording)
    ensures CheckSave(ApplyDraft(d, GenerateDraft(prompt, research, w))) == None
  {
  }

  datatype SaveOutcome = Rejected(reason: SaveError) | Saved(navigateToBlog: bool)

  class BlogCreatePage {
    var data: BlogData
    var isPreview: bool
    var aiPrompt: string
    var includeKeywordResearch: bool
    var focusKeyword: string
    var research: Option<KeywordSet>
    /** The draft prose; the page is built with `PageWording`. */
    const wording: Wording

    constructor(wording: Wording)
      ensures this.wording == wording
      ensures data == InitialBlog && !isPreview && aiPrompt == ""
      ensures includeKeywordResearch && focusKeyword == "" && research == None
    {
      this.wording := wording;
      data := InitialBlog;
      isPreview := false;
      aiPrompt := "";
      includeKeywordResearch := true;
      focusKeyword := "";
      research := None;
    }

    /** `handleInputChange(field, value)`. */
    method InputChange(f: Field, v: string)
      modifies this
      ensures data == BlogForm.InputChange(old(data), f, v)
      ensures isPreview == old(isPreview) && aiPrompt == old(aiPrompt) && research == old(research)
      ensures includeKeywordResearch == old(includeKeywordResearch) && focusKeyword == old(focusKeyword)
    {
      data := Set(data, f, v);
      if f == TitleField {
        data := Set(data, SlugField, Slugs.TitleSlug(v));
      }
    }

    /** `handleFileChange`: a chosen file's object URL becomes the featured image. */
    method ChooseImage(url: Option<string>)
      modifies this
      ensures data == if url.Some? then old(data).(featuredImage := url.value) else old(data)
      ensures isPreview == old(isPreview) && aiPrompt == old(aiPrompt) && research == old(research)
      ensures includeKeywordResearch == old(includeKeywordResearch) && focusKeyword == old(focusKeyword)
    {
      if url.Some? {
        data := data.(featuredImage := url.value);
      }
    }

    /** `handlePreview`. */
    method TogglePreview()
      modifies this
      ensures isPreview == !old(isPreview)
      ensures data == old(data) && aiPrompt == old(aiPrompt) && research == old(research)
      ensures includeKeywordResearch == old(includeKeywordResearch) && focusKeyword == old(focusKeyword)
    {
      isPreview := !isPreview;
    }

    method SetPrompt(v: string)
      modifies this
      ensures aiPrompt == v
      ensures data == old(data) && isPreview == old(isPreview) && research == old(research)
      ensures includeKeywordResearch == old(includeKeywordResearch) && focusKeyword == old(focusKeyword)
    {
      aiPrompt := v;
    }

    method SetIncludeKeywordResearch(checked: bool)
      modifies this
      ensures includeKeywordResearch == checked
      ensures data == old(data) && isPreview == old(isPreview) && aiPrompt == old(aiPrompt)
      ensures research == old(research) && focusKeyword == old(focusKeyword)
    {
      includeKeywordResearch := checked;
    }

    /** `performKeywordResearch(aiPrompt)`: the result replaces any earlier one
        and its primary keyword becomes the focus keyword. */
    method ResearchKeywords()
      modifies this
      ensures research == Some(MockKeywordResearch(old(aiPrompt)))
      ensures focusKeyword == Lower(old(aiPrompt)) + " strategies"
      ensures data == old(data) && isPreview == old(isPreview) && aiPrompt == old(aiPrompt)
      ensures includeKeywordResearch == old(includeKeywordResearch)
    {
      var found := MockKeywordResearch(aiPrompt);
      research := Some(found);
      focusKeyword := found.primary.keyword;
    }

    /** `generateAIBlog`: a blank prompt changes nothing. Otherwise research runs
        only when it is enabled and none exists yet (an earlier result, even for
        another prompt, is reused), the draft fields are filled from the prompt
        and the research, and the prompt is cleared. */
    method GenerateAiBlog() returns (generated: bool)
      modifies this
      ensures generated <==> !IsBlank(old(aiPrompt))
      ensures !generated ==>
        data == old(data) && aiPrompt == old(aiPrompt) && research == old(research) &&
        focusKeyword == old(focusKeyword)
      ensures generated ==>
        research == (if old(includeKeywordResearch) && old(research).None?
                     then Some(MockKeywordResearch(old(aiPrompt))) else old(research)) &&
        data == ApplyDraft(old(data), GenerateDraft(old(aiPrompt), research, wording)) &&
        aiPrompt == ""
      ensures generated && old(includeKeywordResearch) && old(research).None? ==>
        focusKeyword == Lower(old(aiPrompt)) + " strategies"
      ensures !(generated && old(includeKeywordResearch) && old(research).None?) ==>
        focusKeyword == old(focusKeyword)
      ensures isPreview == old(isPreview) && includeKeywordResearch == old(includeKeywordResearch)
    {
      if Trim(aiPrompt) == [] {
        return false;
      }
      if includeKeywordResearch && research.None? {
        ResearchKeywords();
      }
      FillDraft(GenerateDraft(aiPrompt, research, wording));
      generated := true;
    }

    /** Merges the generated draft into the form and clears the prompt. */
    method FillDraft(draft: AiDraft)
      modifies this
      ensures data == ApplyDraft(old(data), draft) && aiPrompt == ""
      ensures isPreview == old(isPreview) && includeKeywordResearch == old(includeKeywordResearch)
      ensures research == old(research) && focusKeyword == old(focusKeyword)
    {
      data := ApplyDraft(data, draft);
      aiPrompt := "";
    }

    /** `handleSave(status)`: the same checks as the editor; on success only the
        form's status changes, and only publishing navigates away. */
    method Save(status: Status) returns (outcome: SaveOutcome)
      modifies this
      ensures CheckSave(old(data)).Some? ==> outcome == Rejected(CheckSave(old(data)).value) && data == old(data)
      ensures CheckSave(old(data)).None? ==>
        outcome == Saved(status == Published) && data == old(data).(status := StatusText(status))
      ensures isPreview == old(isPreview) && aiPrompt == old(aiPrompt) && research == old(research)
      ensures includeKeywordResearch == old(includeKeywordResearch) && focusKeyword == old(focusKeyword)
    {
      var check := CheckSave(data);
      if check.Some? {
        return Rejected(check.value);
      }
      data := data.(status := StatusText(status));
      outcome := Saved(status == Published);
    }
  }
}
