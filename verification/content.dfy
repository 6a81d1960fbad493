/** The article composer: a title, an introduction, one section per 400 words
    of target length (at most eight) and a conclusion. The model keeps the block
    and paragraph structure and which template and keyword each block uses,
    not the prose of the templates. */
module Content {
  import opened Random
  import opened Wrappers
  import opened KeywordResearch

  datatype ContentType = HowTo | Guide | Listicle | CaseStudy | Review | Comparison
  datatype Audience = Beginner | Intermediate | Expert | General
  datatype Tone = Professional | Casual | Authoritative | Friendly | Conversational

  /** Generation settings; type, audience, tone and personal experience are
      accepted but do not change what is generated. */
  datatype ContentConfig = ContentConfig(
    topic: string,
    targetLength: int,
    contentType: ContentType,
    audience: Audience,
    tone: Tone,
    includePersonalExperience: bool,
    includeStatistics: bool,
    includeExamples: bool)

  /** The size of each phrase bank and of the title-pattern list. */
  const PhraseBankSize: nat := 10
  const MaxSections: nat := 8

  datatype Paragraph =
    | Opening(transition: nat, personal: nat, keyword: string)
    | Explanation(keyword: string)
    | Example(keyword: string)
    | Statistic(keyword: string, percent: int)

  datatype Block =
    | Title(pattern: nat, topic: string)
    | Introduction(intro: nat, personal: nat, topic: string, keywords: seq<string>)
    | Section(title: string, paragraphs: seq<Paragraph>)
    | Conclusion(starter: nat, topic: string, keywords: seq<string>)

  /** Reading a `.keyword` of an element past the end of the list throws. */
  datatype ContentError = MissingKeyword(index: nat)

  /** `Math.min(Math.floor(targetLength / 400), 8)`, never below zero because
      the loop runs no times for a negative bound. */
  function SectionCount(targetLength: int): (n: nat)
    ensures n <= MaxSections
    ensures n == MaxSections || targetLength < 0 || 400 * n <= targetLength < 400 * (n + 1)
    ensures targetLength >= 400 * MaxSections ==> n == MaxSections
    ensures 0 <= targetLength < 400 ==> n == 0
  {
    if targetLength < 0 then 0
    else if targetLength / 400 < MaxSections then targetLength / 400
    else MaxSections
  }

  /** `generateSectionTitle(keyword, index)`: format `index % 8` applied to keyword. */
  function SectionTitle(keyword: string, index: nat): string {
    match index % 8
    case 0 => "Understanding " + keyword
    case 1 => "How to Implement " + keyword
    case 2 => "Best Practices for " + keyword
    case 3 => "Common Mistakes with " + keyword
    case 4 => "Advanced " + keyword + " Strategies"
    case 5 => "The Benefits of " + keyword
    case 6 => "Getting Started with " + keyword
    case _ => "Optimizing Your " + keyword + " Approach"
  }

  /** The eight formats begin with eight different letters, so a section title
      gives away its format whatever the keywords are. */
  lemma SectionTitleFormat(k1: string, i: nat, k2: string, j: nat)
    requires SectionTitle(k1, i) == SectionTitle(k2, j)
    ensures i % 8 == j % 8
  {
    SectionTitleInitial(k1, i);
    SectionTitleInitial(k2, j);
    assert TitleInitials[i % 8] == TitleInitials[j % 8];
  }

  /** The first letters of the eight formats, in format order. */
  const TitleInitials: string := "UHBCATGO"

  lemma SectionTitleInitial(k: string, i: nat)
    ensures SectionTitle(k, i) != [] && SectionTitle(k, i)[0] == TitleInitials[i % 8]
  {
  }

  /** `generateSectionContent`: an opening and an explanation, then an example
      and a statistic when the settings ask for them. Draws: the transition
      phrase, the personal touch, then the statistic. */
  method GenerateSectionContent(config: ContentConfig, keyword: string, rnd: Stream, at: nat)
    returns (paragraphs: seq<Paragraph>, next: nat)
    ensures |paragraphs| == 2 + (if config.includeExamples then 1 else 0) + (if config.includeStatistics then 1 else 0)
    ensures paragraphs[0].Opening? && paragraphs[0].keyword == keyword
    ensures paragraphs[0].transition < PhraseBankSize && paragraphs[0].personal < PhraseBankSize
    ensures paragraphs[1] == Explanation(keyword)
    ensures config.includeExamples ==> paragraphs[2] == Example(keyword)
    ensures config.includeStatistics ==>
      paragraphs[|paragraphs| - 1].Statistic? && paragraphs[|paragraphs| - 1].keyword == keyword &&
      20 <= paragraphs[|paragraphs| - 1].percent <= 99
    ensures next == at + 2 + (if config.includeStatistics then 1 else 0)
  {
    var transition := Pick(rnd(at), PhraseBankSize);
    var personal := Pick(rnd(at + 1), PhraseBankSize);
    next := at + 2;
    paragraphs := [Opening(transition, personal, keyword)];
    paragraphs := paragraphs + [Explanation(keyword)];
    if config.includeExamples {
      paragraphs := paragraphs + [Example(keyword)];
    }
    if config.includeStatistics {
      var stat := Pick(rnd(next), 80) + 20;
      next := next + 1;
      paragraphs := paragraphs + [Statistic(keyword, stat)];
    }
  }

  /** The shape every section body has under the given settings. */
  predicate WellFormedBody(config: ContentConfig, keyword: string, paragraphs: seq<Paragraph>) {
    |paragraphs| == 2 + (if config.includeExamples then 1 else 0) + (if config.includeStatistics then 1 else 0) &&
    paragraphs[0].Opening? && paragraphs[0].keyword == keyword &&
    paragraphs[1] == Explanation(keyword) &&
    (config.includeExamples ==> paragraphs[2] == Example(keyword)) &&
    (config.includeStatistics ==>
      paragraphs[|paragraphs| - 1].Statistic? && paragraphs[|paragraphs| - 1].keyword == keyword &&
      20 <= paragraphs[|paragraphs| - 1].percent <= 99)
  }

  /** Section i of a generated article. */
  predicate IsSectionFor(config: ContentConfig, keywords: seq<KeywordData>, i: nat, b: Block)
    requires |keywords| > 0
  {
    var keyword := keywords[i % |keywords|].keyword;
    b.Section? && b.title == SectionTitle(keyword, i) && WellFormedBody(config, keyword, b.paragraphs)
  }

  /** `generateContentSections`: the counted loop that pushes one section per
      iteration; section i uses keyword `i % |keywords|` and title format i,
      so no two sections share a title. */
  method GenerateContentSections(config: ContentConfig, keywords: seq<KeywordData>, rnd: Stream, at: nat)
    returns (sections: seq<Block>, next: nat)
    requires |keywords| > 0
    ensures |sections| == SectionCount(config.targetLength)
    ensures forall i :: 0 <= i < |sections| ==> IsSectionFor(config, keywords, i, sections[i])
    ensures forall i, j :: 0 <= i < j < |sections| ==>
      sections[i].Section? && sections[j].Section? && sections[i].title != sections[j].title
    ensures next >= at
  {
    var count := SectionCount(config.targetLength);
    sections := [];
    next := at;
    var i := 0;
    while i < count
      invariant 0 <= i <= count
      invariant |sections| == i
      invariant forall k :: 0 <= k < i ==> IsSectionFor(config, keywords, k, sections[k])
      invariant next >= at
    {
      var keyword := keywords[i % |keywords|];
      var title := SectionTitle(keyword.keyword, i);
      var body;
      body, next := GenerateSectionContent(config, keyword.keyword, rnd, next);
      assert IsSectionFor(config, keywords, i, Section(title, body));
      sections := sections + [Section(title, body)];
      i := i + 1;
    }
    SectionTitlesDistinct(config, keywords, sections);
  }

  /** At most eight sections, section i titled with format i: all titles differ. */
  lemma SectionTitlesDistinct(config: ContentConfig, keywords: seq<KeywordData>, sections: seq<Block>)
    requires |keywords| > 0 && |sections| <= MaxSections
    requires forall i :: 0 <= i < |sections| ==> IsSectionFor(config, keywords, i, sections[i])
    ensures forall i, j :: 0 <= i < j < |sections| ==>
      sections[i].Section? && sections[j].Section? && sections[i].title != sections[j].title
  {
    forall i, j | 0 <= i < j < |sections|
      ensures sections[i].Section? && sections[j].Section? && sections[i].title != sections[j].title
    {
      SectionTitlesDiffer(config, keywords, i, sections[i], j, sections[j]);
    }
  }

  lemma SectionTitlesDiffer(config: ContentConfig, keywords: seq<KeywordData>, i: nat, a: Block, j: nat, b: Block)
    requires |keywords| > 0 && i < j < 8
    requires IsSectionFor(config, keywords, i, a) && IsSectionFor(config, keywords, j, b)
    ensures a.Section? && b.Section? && a.title != b.title
  {
    if a.title == b.title {
      SectionTitleFormat(keywords[i % |keywords|].keyword, i, keywords[j % |keywords|].keyword, j);
    }
  }

  /** `generateHumanContent`: fails unless there are at least five keywords
      (the introduction reads keywords 0 to 3 and the conclusion keyword 4);
      otherwise title, introduction, the sections and the conclusion, with every
      section keyed to one of the first five keywords. */
  method GenerateHumanContent(config: ContentConfig, keywords: seq<KeywordData>, rnd: Stream, at: nat)
    returns (result: Result<seq<Block>, ContentError>)
    ensures result.Failure? <==> |keywords| < 5
    ensures result.Failure? ==> result.error == MissingKeyword(|keywords|)
    ensures result.Success? ==>
      var blocks := result.value;
      |blocks| == 3 + SectionCount(config.targetLength) &&
      blocks[0].Title? && blocks[0].pattern < PhraseBankSize && blocks[0].topic == config.topic &&
      blocks[1].Introduction? && blocks[1].keywords == Texts(keywords[..4]) &&
      blocks[|blocks| - 1].Conclusion? && blocks[|blocks| - 1].keywords == Texts(keywords[..5]) &&
      forall i :: 2 <= i < |blocks| - 1 ==> IsSectionFor(config, keywords[..5], i - 2, blocks[i])
  {
    var primary := if |keywords| < 5 then keywords else keywords[..5];
    var title := Pick(rnd(at), PhraseBankSize);
    var intro := Pick(rnd(at + 1), PhraseBankSize);
    var personal := Pick(rnd(at + 2), PhraseBankSize);
    if |primary| < 4 {
      return Failure(MissingKeyword(|primary|));
    }
    assert primary[..4] == keywords[..4];
    var content := [Title(title, config.topic), Introduction(intro, personal, config.topic, Texts(primary[..4]))];
    var sections, next := GenerateContentSections(config, primary, rnd, at + 3);
    content := content + sections;
    if |primary| < 5 {
      return Failure(MissingKeyword(|primary|));
    }
    assert primary[..5] == keywords[..5];
    var starter := Pick(rnd(next), PhraseBankSize);
    content := content + [Conclusion(starter, config.topic, Texts(primary[..5]))];
    result := Success(content);
    assert forall i :: 2 <= i < |content| - 1 ==> content[i] == sections[i - 2];
  }
}
