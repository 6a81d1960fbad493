/** The keyword candidate list of the content generator: the topic, the topic
    behind each fixed modifier, the topic before each fixed suffix and ten
    long-tail phrases, de-duplicated in first-occurrence order and cut to 20. */
module KeywordSynth {
  import opened Text
  import opened Lists

  const Modifiers: seq<string> := [
    "how to", "best", "top", "guide", "tips", "strategies", "methods", "techniques",
    "complete", "ultimate", "advanced", "beginner", "step by step", "easy",
    "2024", "2025", "latest", "new", "updated", "modern", "effective"
  ]

  const Suffixes: seq<string> := [
    "guide", "tutorial", "tips", "strategies", "methods", "techniques", "tools",
    "software", "platform", "solution", "service", "system", "approach"
  ]

  const MaxKeywords := 20

  function LongTail(topic: string): seq<string> {
    [
      topic + " for beginners",
      topic + " for small business",
      topic + " cost",
      topic + " pricing",
      topic + " vs alternatives",
      topic + " benefits",
      topic + " features",
      topic + " review",
      topic + " comparison",
      topic + " examples"
    ]
  }

  /** The first piece of `s.split(' ')`. */
  function FirstWord(s: string): string {
    if s == [] || s[0] == ' ' then [] else [s[0]] + FirstWord(s[1..])
  }

  /** `topicWords.length > 1`: the lower-cased topic splits into several pieces. */
  predicate IsMultiWord(topic: string) {
    ' ' in Lower(topic)
  }

  /** What one modifier contributes: `${m} ${topic}` and, for a multi-word
      topic, `${m} ${topicWords[0]}`. */
  function ModifierGroup(topic: string, m: string): seq<string> {
    [m + " " + topic] + if IsMultiWord(topic) then [m + " " + FirstWord(Lower(topic))] else []
  }

  function ModifierPhrases(topic: string, ms: seq<string>): seq<string> {
    if ms == [] then [] else ModifierPhrases(topic, ms[..|ms| - 1]) + ModifierGroup(topic, ms[|ms| - 1])
  }

  /** What one suffix contributes: `${topic} ${s}` and, for a multi-word topic,
      `${topicWords[0]} ${s}`. */
  function SuffixGroup(topic: string, s: string): seq<string> {
    [topic + " " + s] + if IsMultiWord(topic) then [FirstWord(Lower(topic)) + " " + s] else []
  }

  function SuffixPhrases(topic: string, ss: seq<string>): seq<string> {
    if ss == [] then [] else SuffixPhrases(topic, ss[..|ss| - 1]) + SuffixGroup(topic, ss[|ss| - 1])
  }

  /** The topic followed by everything the modifier loop pushes. */
  function HeadSection(topic: string): seq<string> {
    [topic] + ModifierPhrases(topic, Modifiers)
  }

  /** Every candidate, in the order the source pushes them. */
  function Candidates(topic: string): seq<string> {
    HeadSection(topic) + SuffixPhrases(topic, Suffixes) + LongTail(topic)
  }

  /** The de-duplicated, truncated candidate list. */
  function BaseKeywords(topic: string): seq<string> {
    Take(Dedup(Candidates(topic)), MaxKeywords)
  }

  /** A keyword that the topic-and-modifier part of the candidate list produces. */
  predicate FromTopicOrModifier(topic: string, k: string) {
    k == topic ||
    exists m :: (m in Modifiers &&
      (k == m + " " + topic || (IsMultiWord(topic) && k == m + " " + FirstWord(Lower(topic)))))
  }

  /** The list the source builds with `push` inside its `forEach` loops, then
      de-duplicates and slices: exactly 20 distinct keywords, the topic first and
      as given, each coming from the topic or a modifier. */
  method GenerateBaseKeywords(topic: string) returns (keywords: seq<string>)
    ensures keywords == BaseKeywords(topic)
    ensures |keywords| == MaxKeywords && Distinct(keywords)
    ensures keywords[0] == topic
    ensures forall i :: 0 <= i < |keywords| ==> FromTopicOrModifier(topic, keywords[i])
  {
    var lowered := Lower(topic);
    var multiWord := ' ' in lowered;
    var firstWord := FirstWord(lowered);
    var list := [topic];
    list := PushModifierPhrases(list, topic, multiWord, firstWord, Modifiers);
    list := PushSuffixPhrases(list, topic, multiWord, firstWord, Suffixes);
    list := list + LongTail(topic);
    keywords := Take(Dedup(list), MaxKeywords);
    BaseKeywordsShape(topic);
  }

  /** The `modifiers.forEach` loop: for each modifier, push `${m} ${topic}` and,
      for a multi-word topic, `${m} ${firstWord}`. */
  method PushModifierPhrases(list0: seq<string>, topic: string, multiWord: bool, firstWord: string, ms: seq<string>)
    returns (list: seq<string>)
    requires multiWord == IsMultiWord(topic) && firstWord == FirstWord(Lower(topic))
    ensures list == list0 + ModifierPhrases(topic, ms)
  {
    list := list0;
    var i := 0;
    while i < |ms|
      invariant 0 <= i <= |ms|
      invariant list == list0 + ModifierPhrases(topic, ms[..i])
    {
      assert ms[..i + 1][..i] == ms[..i];
      list := list + [ms[i] + " " + topic];
      if multiWord {
        list := list + [ms[i] + " " + firstWord];
      }
      i := i + 1;
    }
    assert ms[..i] == ms;
  }

  /** The `suffixes.forEach` loop: for each suffix, push `${topic} ${s}` and,
      for a multi-word topic, `${firstWord} ${s}`. */
  method PushSuffixPhrases(list0: seq<string>, topic: string, multiWord: bool, firstWord: string, ss: seq<string>)
    returns (list: seq<string>)
    requires multiWord == IsMultiWord(topic) && firstWord == FirstWord(Lower(topic))
    ensures list == list0 + SuffixPhrases(topic, ss)
  {
    list := list0;
    var j := 0;
    while j < |ss|
      invariant 0 <= j <= |ss|
      invariant list == list0 + SuffixPhrases(topic, ss[..j])
    {
      assert ss[..j + 1][..j] == ss[..j];
      list := list + [topic + " " + ss[j]];
      if multiWord {
        list := list + [firstWord + " " + ss[j]];
      }
      j := j + 1;
    }
    assert ss[..j] == ss;
  }

  lemma ModifiersDistinct()
    ensures Distinct(Modifiers)
  {
  }

  lemma PrefixCancel(a: string, b: string, t: string)
    requires a + t == b + t
    ensures a == b
  {
    assert |a| == |b|;
    assert a == (a + t)[..|a|];
    assert b == (b + t)[..|b|];
  }

  /** The topic and the 21 phrases `${modifier} ${topic}`: pairwise distinct. */
  function CoreKeywords(topic: string): seq<string> {
    [topic] + seq(|Modifiers|, i requires 0 <= i < |Modifiers| => Modifiers[i] + " " + topic)
  }

  lemma CoreKeywordsDistinct(topic: string)
    ensures Distinct(CoreKeywords(topic))
  {
    ModifiersDistinct();
    PhrasesAfterTopicDistinct(topic, Modifiers);
  }

  lemma PhrasesAfterTopicDistinct(topic: string, ms: seq<string>)
    requires Distinct(ms)
    ensures Distinct([topic] + seq(|ms|, i requires 0 <= i < |ms| => ms[i] + " " + topic))
  {
    var c := [topic] + seq(|ms|, i requires 0 <= i < |ms| => ms[i] + " " + topic);
    forall i, j | 0 <= i < j < |c| ensures c[i] != c[j] {
      if i == 0 {
        assert |c[j]| > |topic|;
      } else {
        ModifierPhrasesDiffer(ms[i - 1], ms[j - 1], topic);
      }
    }
  }

  lemma ModifierPhrasesDiffer(a: string, b: string, topic: string)
    requires a != b
    ensures a + " " + topic != b + " " + topic
  {
    if a + " " + topic == b + " " + topic {
      assert a + " " + topic == a + (" " + topic);
      assert b + " " + topic == b + (" " + topic);
      PrefixCancel(a, b, " " + topic);
    }
  }

  lemma {:induction false} ModifierPhrasesHold(topic: string, ms: seq<string>, i: nat)
    requires i < |ms|
    ensures ms[i] + " " + topic in ModifierPhrases(topic, ms)
  {
    if i < |ms| - 1 {
      ModifierPhrasesHold(topic, ms[..|ms| - 1], i);
    }
  }

  lemma {:induction false} ModifierPhrasesFrom(topic: string, ms: seq<string>, k: string)
    requires k in ModifierPhrases(topic, ms)
    ensures exists m :: (m in ms &&
      (k == m + " " + topic || (IsMultiWord(topic) && k == m + " " + FirstWord(Lower(topic)))))
  {
    var init := ms[..|ms| - 1];
    if k in ModifierPhrases(topic, init) {
      ModifierPhrasesFrom(topic, init, k);
      var m :| m in init &&
        (k == m + " " + topic || (IsMultiWord(topic) && k == m + " " + FirstWord(Lower(topic))));
      assert m in ms;
    } else {
      assert ms[|ms| - 1] in ms;
    }
  }

  /** Every core keyword is pushed before the first suffix candidate. */
  lemma CoreInHead(topic: string)
    ensures forall i :: 0 <= i < |CoreKeywords(topic)| ==> CoreKeywords(topic)[i] in HeadSection(topic)
  {
    var c := CoreKeywords(topic);
    forall i | 0 <= i < |c| ensures c[i] in HeadSection(topic) {
      if i > 0 {
        ModifierPhrasesHold(topic, Modifiers, i - 1);
      }
    }
  }

  /** The head section alone already yields more than 20 distinct keywords. */
  lemma HeadDedupLong(topic: string)
    ensures |Dedup(HeadSection(topic))| > MaxKeywords
  {
    CoreKeywordsDistinct(topic);
    CoreInHead(topic);
    DedupAtLeast(HeadSection(topic), CoreKeywords(topic));
  }

  lemma HeadFromTopicOrModifier(topic: string, k: string)
    requires k in HeadSection(topic)
    ensures FromTopicOrModifier(topic, k)
  {
    if k != topic {
      assert k in ModifierPhrases(topic, Modifiers);
      ModifierPhrasesFrom(topic, Modifiers, k);
    }
  }

  /** Since the head section yields more than 20 distinct keywords, the cut to
      20 never reaches a suffix or long-tail candidate. */
  lemma BaseKeywordsShape(topic: string)
    ensures BaseKeywords(topic) <= Dedup(HeadSection(topic))
    ensures |BaseKeywords(topic)| == MaxKeywords
    ensures Distinct(BaseKeywords(topic))
    ensures BaseKeywords(topic)[0] == topic
    ensures forall i :: 0 <= i < |BaseKeywords(topic)| ==> FromTopicOrModifier(topic, BaseKeywords(topic)[i])
  {
    var head := HeadSection(topic);
    BaseKeywordsCut(topic);
    var r := BaseKeywords(topic);
    DedupHead(Candidates(topic));
    forall i | 0 <= i < |r| ensures FromTopicOrModifier(topic, r[i]) {
      assert r[i] == Dedup(head)[i];
      HeadFromTopicOrModifier(topic, r[i]);
    }
  }

  /** The cut to 20 falls inside the de-duplicated head section. */
  lemma BaseKeywordsCut(topic: string)
    ensures |Dedup(HeadSection(topic))| > MaxKeywords
    ensures BaseKeywords(topic) == Dedup(HeadSection(topic))[..MaxKeywords]
  {
    var head := HeadSection(topic);
    var rest := SuffixPhrases(topic, Suffixes) + LongTail(topic);
    assert Candidates(topic) == head + rest;
    DedupPrefix(head, rest);
    HeadDedupLong(topic);
  }

  /** For a topic without a space the result is the topic followed by the first
      nineteen `${modifier} ${topic}` phrases, in table order. */
  lemma SingleWordKeywords(topic: string)
    requires ' ' !in topic
    ensures BaseKeywords(topic) == CoreKeywords(topic)[..MaxKeywords]
  {
    assert !IsMultiWord(topic);
    assert HeadSection(topic) == CoreKeywords(topic) by {
      SingleWordPhrases(topic, Modifiers);
    }
    CoreKeywordsDistinct(topic);
    DedupOfDistinct(CoreKeywords(topic));
    BaseKeywordsShape(topic);
  }

  lemma {:induction false} SingleWordPhrases(topic: string, ms: seq<string>)
    requires !IsMultiWord(topic)
    ensures ModifierPhrases(topic, ms) == seq(|ms|, i requires 0 <= i < |ms| => ms[i] + " " + topic)
  {
    if ms != [] {
      SingleWordPhrases(topic, ms[..|ms| - 1]);
    }
  }
}
