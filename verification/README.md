# chatriox-frontend: a Dafny model of the site's logic

This project models the behaviour of the chatriox marketing site's front end, a React
application. It leaves out the rendering and keeps the logic behind the pages:

- **Keyword synthesis and research.** A topic is expanded into exactly twenty distinct
  candidate phrases: the topic, then modifier phrases, suffix phrases and long-tail phrases,
  de-duplicated and cut to twenty. Each phrase gets random metrics, and the list is sorted
  by the research comparator.
- **The article composer.** It builds a title, an introduction, up to eight sections and a
  conclusion, keyed to the first five researched keywords.
- **SEO metadata and hashtags.** These are derived from a researched keyword list. They
  include the SEO slug of a topic.
- **The blog editor and the blog creator pages.**
  - The shared twelve-field post form, and the title slug derived as the title is typed.
  - The save checks, and the stored post list that the editor rewrites on save and delete.
  - The creator's mock keyword research and the AI draft it fills the form with.
- **The four-step signup wizard.** Per-step validation, the tool checklist, the progress
  percentage and the profile sent on sign-up.
- **Smaller components.**
  - The password-reset guards.
  - The single-open FAQ accordion.
  - The header's active-link rule.
  - The pricing cards and the pricing page.
  - The persisted dark/light theme.

Each module follows one source file or one concept:

- `Text` holds the string primitives the code relies on: ASCII lower-casing, the regex
  replacements, `trim`, `join` and UTF-16 length.
- `Lists` holds `[...new Set(xs)]` and `slice`.
- `Random` holds the stand-in for `Math.random`. The random source is an injected stream of
  draws in [0, 1), read from a cursor, and `Math.floor(Math.random() * n)` is `Pick`.
- State the pages keep in React hooks becomes a Dafny class whose methods state the whole
  new state. The `localStorage` list of posts becomes the `posts` field of
  `BlogStore.PostStore`, and the stored theme becomes `savedTheme` in `AppTheme.ThemeState`.

Behaviour of the code that the model makes explicit:

- **Sort order.** The research comparator `(a.difficulty - b.difficulty) + (b.volume - a.volume) * 0.001`
  orders by the single key `1000·difficulty − volume`, so a harder keyword with a far larger
  volume sorts first (`KeywordResearch.HarderCanComeFirst`). Ties keep their input order
  (`KeywordResearch.SortIsStable`).
- **Result size.** Research returns exactly twenty keywords.
- **Saving a draft.** Saving on the creator page only sets the form's status and writes no
  record. Saving on the editor page rewrites the records whose id matches the route and
  never appends one.
- **Stale research.** The creator reuses an earlier keyword research result even after the
  prompt changes. A generated draft does not update the slug.
- **A suffix phrase can equal a modifier phrase.** For the topic `guide guide`, the phrase
  `guide guide guide` is both `guide` + topic and topic + `guide`. Every one of the twenty
  kept keywords is the topic or a modifier phrase (`KeywordSynth.BaseKeywordsShape`).

## Model

| member | source | states |
|---|---|---|
| KeywordSynth.GenerateBaseKeywords | src/lib/aiContentGenerator.ts:36-87 | the keyword list has exactly 20 entries, all distinct, the topic first and unchanged, each being the topic or `modifier topic` / `modifier firstWord`; it equals the de-duplicated, cut candidate list |
| KeywordSynth.PushModifierPhrases | src/lib/aiContentGenerator.ts:55-60 | the loop appends, modifier by modifier in table order, `m topic` and, for a multi-word topic, `m firstWord` |
| KeywordSynth.PushSuffixPhrases | src/lib/aiContentGenerator.ts:63-68 | the loop appends, suffix by suffix in table order, `topic s` and, for a multi-word topic, `firstWord s` |
| KeywordSynth.BaseKeywordsShape | src/lib/aiContentGenerator.ts:49-86 | the twenty kept keywords are a prefix of the de-duplicated head section (topic plus modifier phrases), pairwise distinct, topic first, each from the topic or a modifier |
| KeywordSynth.BaseKeywordsCut | src/lib/aiContentGenerator.ts:86 | the head section alone yields more than 20 distinct phrases, so the cut to 20 never reaches a suffix or long-tail phrase |
| KeywordSynth.ModifiersDistinct | src/lib/aiContentGenerator.ts:38-42 | the 21 modifiers are pairwise distinct |
| KeywordSynth.CoreKeywordsDistinct | src/lib/aiContentGenerator.ts:52-56 | the topic and the 21 phrases `modifier topic` are pairwise distinct for every topic |
| KeywordSynth.PhrasesAfterTopicDistinct | src/lib/aiContentGenerator.ts:52-56 | distinct modifiers give pairwise distinct phrases, all different from the topic itself |
| KeywordSynth.ModifierPhrasesDiffer | src/lib/aiContentGenerator.ts:56 | two different modifiers never give the same phrase for one topic |
| KeywordSynth.PrefixCancel | src/lib/aiContentGenerator.ts:56 | two phrases with the same ending are equal only if their beginnings are |
| KeywordSynth.ModifierPhrasesHold | src/lib/aiContentGenerator.ts:55-60 | every `m topic` for a modifier in the list is among the pushed modifier phrases |
| KeywordSynth.ModifierPhrasesFrom | src/lib/aiContentGenerator.ts:55-60 | every pushed modifier phrase is `m topic` or `m firstWord` for some modifier m in the list |
| KeywordSynth.CoreInHead | src/lib/aiContentGenerator.ts:52-60 | the topic and all `modifier topic` phrases are in the head section |
| KeywordSynth.HeadDedupLong | src/lib/aiContentGenerator.ts:52-60 | the de-duplicated head section has more than 20 entries |
| KeywordSynth.HeadFromTopicOrModifier | src/lib/aiContentGenerator.ts:52-60 | every head-section phrase is the topic or comes from a modifier |
| KeywordSynth.SingleWordKeywords | src/lib/aiContentGenerator.ts:37-86 | for a topic without a space the result is the topic followed by the first 19 `modifier topic` phrases, in table order |
| KeywordSynth.SingleWordPhrases | src/lib/aiContentGenerator.ts:55-60 | for a single-word topic the modifier loop pushes exactly one `m topic` per modifier |
| Lists.Take | src/lib/aiContentGenerator.ts:86 | `slice(0, n)` keeps a prefix of length min(n, length) |
| Lists.Dedup | src/lib/aiContentGenerator.ts:86 | `[...new Set(xs)]` is duplicate-free and has exactly the elements of xs |
| Lists.DedupPrefix | src/lib/aiContentGenerator.ts:86 | de-duplicating a prefix gives a prefix of de-duplicating the whole |
| Lists.DedupHead | src/lib/aiContentGenerator.ts:86 | the first element survives de-duplication in first place |
| Lists.DedupOfDistinct | src/lib/aiContentGenerator.ts:86 | a duplicate-free list is its own de-duplication |
| Lists.DedupAtLeast | src/lib/aiContentGenerator.ts:86 | a list containing k distinct values de-duplicates to at least k entries |
| Random.Pick | src/lib/aiContentGenerator.ts:29-32 | `Math.floor(Math.random() * n)` is an index below n |
| KeywordResearch.Score | src/lib/aiContentGenerator.ts:27-32 | a scored keyword keeps its text, has volume in 1000..50999 and difficulty in 1..100 |
| KeywordResearch.TextsOfScored | src/lib/aiContentGenerator.ts:27-32 | scoring keeps the keyword texts and their order |
| KeywordResearch.ScoredInRange | src/lib/aiContentGenerator.ts:29-30 | every scored record is in range |
| KeywordResearch.CompareIsKeyDifference | src/lib/aiContentGenerator.ts:33 | the comparator is the key difference divided by 1000, so it is negative, zero or positive exactly as the keys compare |
| KeywordResearch.HarderCanComeFirst | src/lib/aiContentGenerator.ts:33 | a harder keyword with a much larger volume sorts before an easier one |
| KeywordResearch.SortedCons | src/lib/aiContentGenerator.ts:33 | prepending a key no larger than the rest keeps the list sorted |
| KeywordResearch.Insert | src/lib/aiContentGenerator.ts:33 | inserting into a sorted list keeps it sorted and adds exactly that record and its text |
| KeywordResearch.SortByKey | src/lib/aiContentGenerator.ts:33 | the sort result is ordered by the key and is a permutation of the input (records and texts) |
| KeywordResearch.WithKey | src/lib/aiContentGenerator.ts:33 | the records with a given key are all of that key, in their order in the list |
| KeywordResearch.InsertWithKey | src/lib/aiContentGenerator.ts:33 | inserting a record puts it before every record that has the same key |
| KeywordResearch.SortIsStable | src/lib/aiContentGenerator.ts:33 | for every key, the records carrying it keep their relative order through the sort |
| KeywordResearch.SortKeepsLength | src/lib/aiContentGenerator.ts:33 | sorting keeps the length |
| KeywordResearch.SortKeepsInRange | src/lib/aiContentGenerator.ts:33 | sorting keeps every record in range |
| KeywordResearch.ResearchFacts | src/lib/aiContentGenerator.ts:26-33 | scoring and sorting keep the length, the multiset of texts and the metric ranges |
| KeywordResearch.PerformKeywordResearch | src/lib/aiContentGenerator.ts:22-34 | research returns 20 records sorted by the comparator key, whose texts are exactly the synthesized keywords, all in range |
| KeywordResearch.TextsAt | src/lib/aiContentGenerator.ts:275 | entry i of the text list is the keyword of record i |
| KeywordResearch.TextsCons | src/lib/aiContentGenerator.ts:275 | the texts of a list with one more record start with that record's keyword |
| Content.SectionCount | src/lib/aiContentGenerator.ts:199-201 | the loop runs floor(targetLength/400) times, at most 8 and never below 0 |
| Content.SectionTitleFormat | src/lib/aiContentGenerator.ts:212-225 | two equal section titles come from the same format, whatever the keywords |
| Content.SectionTitleInitial | src/lib/aiContentGenerator.ts:213-224 | the title of format i starts with the i-th of eight different letters |
| Content.GenerateSectionContent | src/lib/aiContentGenerator.ts:227-251 | a section body is an opening with two picked phrases, the explanation, then the example and a statistic in 20..99 when enabled; it consumes two or three draws |
| Content.GenerateContentSections | src/lib/aiContentGenerator.ts:197-210 | the loop produces SectionCount sections, section i using keyword i mod n and title format i, and no two titles are equal |
| Content.SectionTitlesDistinct | src/lib/aiContentGenerator.ts:201-206 | at most eight sections titled with formats 0..7 have pairwise different titles |
| Content.SectionTitlesDiffer | src/lib/aiContentGenerator.ts:201-206 | sections i < j < 8 built by the loop have different titles |
| Content.GenerateHumanContent | src/lib/aiContentGenerator.ts:145-169 | fails exactly when fewer than five keywords are given; otherwise title, introduction on keywords 0..3, the sections, and the conclusion on keywords 0..4 |
| Slugs.TitleSlug | src/pages/BlogEdit.tsx:131-136 | the title slug has only `[a-z0-9-]` and never two hyphens in a row |
| Slugs.SpacesBecomeHyphens | src/pages/BlogEdit.tsx:133-134 | after the deletion and the whitespace replacement only slug characters remain |
| Slugs.HyphenRunsCollapse | src/pages/BlogEdit.tsx:135 | collapsing hyphen runs leaves no two adjacent hyphens |
| Slugs.TitleSlugFixed | src/pages/BlogEdit.tsx:131-136 | a slug text typed as a title gives itself back |
| Slugs.TitleSlugIdempotent | src/pages/BlogEdit.tsx:131-136 | the title slug of a title slug is the same slug |
| Slugs.TitleSlugLeadingHyphen | src/pages/BlogEdit.tsx:131-136 | a title starting with whitespace gives a slug starting with `-`, because `trim` runs after the whitespace is gone |
| Slugs.FilterKeepsHead | src/pages/BlogEdit.tsx:133 | a kept first character stays first after the deletion |
| Slugs.SeoSlug | src/lib/aiContentGenerator.ts:276 | the SEO slug has only `[a-z0-9-]`, no two adjacent hyphens and no hyphen at either end |
| Slugs.SeoRunsShape | src/lib/aiContentGenerator.ts:276 | after the run replacement no two non-alphanumerics are adjacent, so stripping one hyphen per end leaves none at either end |
| Slugs.HyphenFollowsAlnum | src/lib/aiContentGenerator.ts:276 | a trailing hyphen after the run replacement follows a letter or digit |
| Slugs.SeoSlugFixed | src/lib/aiContentGenerator.ts:276 | a clean slug with no edge hyphen is its own SEO slug |
| Slugs.RunsFixed | src/lib/aiContentGenerator.ts:276 | the run replacement leaves a clean slug unchanged |
| Slugs.SeoSlugIdempotent | src/lib/aiContentGenerator.ts:276 | the SEO slug of an SEO slug is the same slug |
| Text.LowerFixed | src/pages/BlogEdit.tsx:132 | lower-casing text without capitals changes nothing |
| Text.Filter | src/pages/BlogEdit.tsx:133 | deleting by a pattern keeps exactly the characters it does not match |
| Text.FilterFixed | src/pages/BlogEdit.tsx:133 | deleting from text with nothing to delete changes nothing |
| Text.ReplaceRunsFrom | src/pages/BlogEdit.tsx:134-135 | replacing each run with one character leaves no two replacement characters adjacent |
| Text.ReplaceRunsFixed | src/pages/BlogEdit.tsx:134-135 | replacing runs in text with no run changes nothing |
| Text.Trim | src/pages/BlogEdit.tsx:136 | `trim` is empty exactly for blank text and otherwise starts and ends with a non-space |
| Text.StripSpaceThenKeepAlnum | src/lib/aiContentGenerator.ts:283 | deleting whitespace and then non-alphanumerics is deleting non-alphanumerics |
| Text.JoinAt | src/lib/aiContentGenerator.ts:275 | in `parts.join(sep)` part i sits at its offset, followed by the separator unless it is the last |
| Text.Utf16Length | src/pages/Signup.tsx:61 | `length` counts UTF-16 code units: one per character in the basic plane |
| Text.Decimal | src/pages/PricingPage.tsx:30 | the rendering of a number is a non-empty run of digits |
| Text.DecimalRoundTrip | src/pages/PricingPage.tsx:30 | reading back a rendered number gives the number |
| Metadata.GenerateSeoMetadata | src/lib/aiContentGenerator.ts:268-278 | fails exactly on an empty keyword list; otherwise the focus keyword is keyword 0, the tags join the first eight keywords with `, `, and the slug is a clean SEO slug of the topic |
| Metadata.TagsListKeywords | src/lib/aiContentGenerator.ts:275 | keyword i (i < 8) appears at its place in the tag line, which starts with the focus keyword |
| Metadata.Hashtag | src/lib/aiContentGenerator.ts:283 | a hashtag is `#` followed only by ASCII letters and digits, exactly those of the keyword in order |
| Metadata.GenerateHashtags | src/lib/aiContentGenerator.ts:281-285 | one hashtag per keyword for the first ten keywords, in order |
| Metadata.HashtagOfPlainWords | src/lib/aiContentGenerator.ts:283 | for a keyword of letters, digits and spaces the hashtag only drops the spaces |
| Metadata.PlainWordsFilter | src/lib/aiContentGenerator.ts:283 | on such text keeping alphanumerics and deleting spaces agree |
| BlogForm.Set | src/pages/BlogEdit.tsx:124-127 | setting a field changes that field and no other |
| BlogForm.FieldsDetermine | src/pages/BlogEdit.tsx:25-38 | two forms equal on all twelve fields are equal |
| BlogForm.InputChange | src/pages/BlogEdit.tsx:123-141 | a change sets the field; a title change also sets the slug to the title slug; every other field is kept |
| BlogForm.InputChangeOverwrites | src/pages/BlogEdit.tsx:123-141 | editing one field twice keeps only the second value |
| BlogForm.CheckSave | src/pages/BlogEdit.tsx:160-169 | blank title is reported first, then blank content; saving proceeds exactly when neither is blank |
| BlogStore.Merge | src/pages/BlogEdit.tsx:175 | a merged post keeps its id and creation time, takes the time stamp and the status, and every other field from the form |
| BlogStore.UpdateById | src/pages/BlogEdit.tsx:173-177 | each post with the route id is merged with the form, every other post is kept, same length and order |
| BlogStore.UpdateKeepsIds | src/pages/BlogEdit.tsx:173-177 | saving never changes the stored ids or their order |
| BlogStore.UpdateWithoutMatch | src/pages/BlogEdit.tsx:173-177 | with no matching id (a non-numeric id included) saving changes nothing |
| BlogStore.UpdateIdempotent | src/pages/BlogEdit.tsx:173-177 | saving the same form twice gives the same list as saving once |
| BlogStore.RemoveById | src/pages/BlogEdit.tsx:192 | deleting keeps exactly the posts whose id differs |
| BlogStore.RemoveCount | src/pages/BlogEdit.tsx:192 | deleting removes exactly the number of matching posts |
| BlogStore.RemoveAppend | src/pages/BlogEdit.tsx:192 | deleting works piecewise, so the kept posts keep their order |
| BlogStore.RemoveWithoutMatch | src/pages/BlogEdit.tsx:192 | with no matching post deleting changes nothing |
| BlogStore.RemoveIdempotent | src/pages/BlogEdit.tsx:192 | deleting twice is deleting once |
| BlogStore.PostStore.Update | src/pages/BlogEdit.tsx:172-178 | the stored list becomes its update by id |
| BlogStore.PostStore.Delete | src/pages/BlogEdit.tsx:191-193 | the stored list becomes its filter by id |
| BlogEditor.BlogEditPage.constructor | src/pages/BlogEdit.tsx:25-41 | the editor starts with the empty form, no preview, loading |
| BlogEditor.BlogEditPage.Load | src/pages/BlogEdit.tsx:83-121 | the loaded post replaces the form and loading ends |
| BlogEditor.BlogEditPage.InputChange | src/pages/BlogEdit.tsx:123-141 | the form becomes its input change; preview and loading are kept |
| BlogEditor.BlogEditPage.ChooseImage | src/pages/BlogEdit.tsx:148-158 | a chosen file's URL becomes the featured image; no file changes nothing |
| BlogEditor.BlogEditPage.TogglePreview | src/pages/BlogEdit.tsx:200-202 | preview flips and nothing else changes |
| BlogEditor.BlogEditPage.Save | src/pages/BlogEdit.tsx:160-186 | a failed check changes neither form nor store; otherwise the store is updated by id, the form takes the status, and only publishing navigates |
| BlogEditor.BlogEditPage.Delete | src/pages/BlogEdit.tsx:188-198 | only a confirmed delete filters the store, and then the page navigates |
| BlogCreator.MockKeywordResearch | src/pages/BlogCreate.tsx:113-135 | the primary keyword is `lower(topic) strategies`, with five related keywords and five long-tail phrases |
| BlogCreator.MockResearchMentionsTopic | src/pages/BlogCreate.tsx:121-134 | every related keyword and long-tail phrase contains the lower-cased topic |
| BlogCreator.MentionsInside | src/pages/BlogCreate.tsx:123 | text placed between two strings occurs in the result |
| BlogCreator.MentionsFirst | src/pages/BlogCreate.tsx:122 | a string occurs at the start of itself followed by more text |
| BlogCreator.MentionsLast | src/pages/BlogCreate.tsx:129 | a string occurs at the end of text ending with it |
| BlogCreator.OrElse | src/pages/BlogCreate.tsx:208 | `a \|\| b` is a when a is non-empty, and otherwise b |
| BlogCreator.PrimaryKeyword | src/pages/BlogCreate.tsx:208 | without research the primary keyword is the lower-cased prompt |
| BlogCreator.PrimaryFromResearch | src/pages/BlogCreate.tsx:208 | with research the primary keyword is the researched one, whatever the prompt |
| BlogCreator.TagItems | src/pages/BlogCreate.tsx:337-340 | the tag items are the primary keyword, at most three related keywords and at most two long-tail phrases |
| BlogCreator.TagsWithResearch | src/pages/BlogCreate.tsx:337-341 | with mock research the tag line joins six items: primary, three related, two long-tail |
| BlogCreator.TagsWithoutResearch | src/pages/BlogCreate.tsx:341 | without research the tag line joins five items headed by the lower-cased prompt |
| BlogCreator.JoinFive | src/pages/BlogCreate.tsx:341 | joining five items with `, ` puts the separator between each pair |
| BlogCreator.JoinCons | src/pages/BlogCreate.tsx:341 | joining x before a non-empty list is x, the separator and the join of the list |
| BlogCreator.GenerateDraft | src/pages/BlogCreate.tsx:210-346 | the draft's title and content are never blank, its tags are the tag line, its category `Tutorials` |
| BlogCreator.DraftTitle | src/pages/BlogCreate.tsx:212 | the title names the researched primary keyword, or `Advanced Strategies` without research |
| BlogCreator.ApplyDraft | src/pages/BlogCreate.tsx:348-351 | merging a draft replaces eight fields and keeps slug, status, publish date and author |
| BlogCreator.GeneratedDraftSaves | src/pages/BlogCreate.tsx:362-371 | a form filled by a draft always passes the save checks |
| BlogCreator.BlogCreatePage.constructor | src/pages/BlogCreate.tsx:39-66 | the creator starts with the empty form, research enabled and none done |
| BlogCreator.BlogCreatePage.InputChange | src/pages/BlogCreate.tsx:152-171 | the form becomes its input change; everything else is kept |
| BlogCreator.BlogCreatePage.ChooseImage | src/pages/BlogCreate.tsx:177-188 | a chosen file's URL becomes the featured image |
| BlogCreator.BlogCreatePage.TogglePreview | src/pages/BlogCreate.tsx:382-384 | preview flips and nothing else changes |
| BlogCreator.BlogCreatePage.SetPrompt | src/pages/BlogCreate.tsx:484 | only the prompt changes |
| BlogCreator.BlogCreatePage.SetIncludeKeywordResearch | src/pages/BlogCreate.tsx:592 | only the research switch changes |
| BlogCreator.BlogCreatePage.ResearchKeywords | src/pages/BlogCreate.tsx:108-150 | the research result is replaced and its primary keyword becomes the focus keyword |
| BlogCreator.BlogCreatePage.GenerateAiBlog | src/pages/BlogCreate.tsx:190-360 | a blank prompt changes nothing; otherwise research runs only when enabled and absent, and only then is the focus keyword set to `lower(prompt) strategies`; the draft fills the form, and the prompt is cleared |
| BlogCreator.BlogCreatePage.FillDraft | src/pages/BlogCreate.tsx:348-354 | the form takes the draft and the prompt is cleared |
| BlogCreator.BlogCreatePage.Save | src/pages/BlogCreate.tsx:362-380 | a failed check changes nothing; otherwise only the status changes, and only publishing navigates |
| Signup.SetText | src/pages/Signup.tsx:150-154 | a text change sets that input only |
| Signup.RemoveTool | src/pages/Signup.tsx:142 | unchecking removes every copy of the tool and keeps every other tool with its count |
| Signup.RemoveToolAppend | src/pages/Signup.tsx:142 | removing works piecewise, so the remaining tools keep their order |
| Signup.UncheckAbsentTool | src/pages/Signup.tsx:142 | unchecking a tool that is not listed changes nothing |
| Signup.ApplyChange | src/pages/Signup.tsx:133-156 | checking appends the tool, unchecking removes all its copies, a flag or a text input takes its value, and nothing else changes |
| Signup.CheckThenUncheck | src/pages/Signup.tsx:137-143 | checking and then unchecking a tool is the same as unchecking it |
| Signup.CheckStep | src/pages/Signup.tsx:50-89 | step 1 passes iff the four fields are non-empty, the passwords match and are at least 6 long, reported in that order; steps 2 and 3 need their required fields; step 4 needs the terms accepted |
| Signup.MismatchBeforeLength | src/pages/Signup.tsx:57-64 | a mismatched pair is reported as a mismatch whatever its length |
| Signup.OptionalFieldsNeverBlock | src/pages/Signup.tsx:67-79 | phone, website, tools and the updates box never affect validation |
| Signup.Metadata | src/pages/Signup.tsx:98-113 | the full name is first name, a space, last name; the other profile fields are copied |
| Signup.Progress | src/pages/Signup.tsx:676 | `Math.round((step / 4) * 100)` is exactly 25·step |
| Signup.SignupWizard.constructor | src/pages/Signup.tsx:13-45 | the wizard starts on step 1 with the empty form |
| Signup.SignupWizard.Change | src/pages/Signup.tsx:133-156 | the form takes the change and the step stays |
| Signup.SignupWizard.Submit | src/pages/Signup.tsx:47-90 | the step stays in 1..4; a failed check keeps it; a passed check moves one step on, or on step 4 requests sign-up with the profile |
| Signup.SignupWizard.Previous | src/pages/Signup.tsx:694-697 | from a step above 1 the wizard goes back exactly one step |
| ResetPassword.CheckReset | src/pages/ResetPassword.tsx:18-26 | a mismatch is rejected first, then a password shorter than 6; the reset proceeds exactly for matching passwords of length at least 6 |
| ResetPassword.ShortMismatchReportsMismatch | src/pages/ResetPassword.tsx:18-26 | a short mismatched pair reports the mismatch |
| ResetPassword.ResetPasswordPage.constructor | src/pages/ResetPassword.tsx:10-12 | the page starts empty and not loading |
| ResetPassword.ResetPasswordPage.SetPassword | src/pages/ResetPassword.tsx:78 | only the password changes |
| ResetPassword.ResetPasswordPage.SetConfirmPassword | src/pages/ResetPassword.tsx:98 | only the confirmation changes |
| ResetPassword.ResetPasswordPage.Submit | src/pages/ResetPassword.tsx:15-28 | a failed guard changes nothing; loading turns on only for matching passwords of length at least 6 |
| ResetPassword.ResetPasswordPage.Finish | src/pages/ResetPassword.tsx:31-35 | the timer ends loading and navigates to the dashboard |
| Faq.Toggle | src/components/FAQ.tsx:38-40 | toggling the open question closes it; toggling any other opens exactly that one |
| Faq.ToggleTwice | src/components/FAQ.tsx:38-40 | toggling the same question twice restores the open question, or a closed accordion |
| Faq.ToggleShows | src/components/FAQ.tsx:38-40 | after toggling i, only i can be shown, and it is shown iff it was not before |
| Faq.FaqList.constructor | src/components/FAQ.tsx:9 | no answer is open at first |
| Faq.FaqList.ShownAnswers | src/components/FAQ.tsx:95 | answer i is shown iff it is the open index, so at most one is shown |
| Faq.FaqList.ToggleFaq | src/components/FAQ.tsx:38-40 | the open index becomes its toggle, and the shown set becomes empty or just that question |
| Header.IsActive | src/components/Header.tsx:14-18 | `/` is active only on `/`; any other path is active on every pathname it prefixes |
| Header.ActiveOnOwnPage | src/components/Header.tsx:15-16 | a link is active on its own page |
| Header.BlogActiveWhileEditing | src/components/Header.tsx:16 | `/blog` is active on `/blog/edit/3` |
| Header.BlogActiveOnBlogroll | src/components/Header.tsx:16 | `/blog` is also active on `/blogroll`: the prefix test has no segment boundary |
| Header.PrefixesNest | src/components/Header.tsx:16 | two prefixes of one pathname are prefixes of each other |
| Header.SecondCharSeparates | src/components/Header.tsx:16 | paths differing in their second character are not prefixes of each other |
| Header.NavPathsDistinctHeads | src/components/Header.tsx:135-178 | the non-home links have distinct second characters |
| Header.NavPathsNotNested | src/components/Header.tsx:135-178 | no non-home link path is a prefix of another link path |
| Header.AtMostOneActive | src/components/Header.tsx:135-178 | on any page at most one header link is highlighted |
| Pricing.DisplayedPrice | src/components/Pricing.tsx:173 | the annual price in annual mode, the monthly price otherwise |
| Pricing.YearlyTotal | src/components/Pricing.tsx:181-187 | the yearly line appears only in annual mode and shows 12 × the annual price |
| Pricing.AnnualBelowMonthly | src/components/Pricing.tsx:11-69 | every plan is cheaper per month when billed annually |
| Pricing.AnnualDiscountBelowBadge | src/components/Pricing.tsx:123-125 | every plan's annual discount is at least 17 and below 18 percent of the monthly price, short of the badge's "Save 20%" |
| Pricing.ExactlyOnePopular | src/components/Pricing.tsx:27-67 | only the Professional plan is marked popular |
| Pricing.BillingToggle.constructor | src/components/Pricing.tsx:9 | billing starts annual |
| Pricing.BillingToggle.ChooseMonthly | src/components/Pricing.tsx:97 | the mode becomes monthly whatever it was |
| Pricing.BillingToggle.ChooseAnnual | src/components/Pricing.tsx:111 | the mode becomes annual whatever it was |
| PricingPage.SamePlansAsHomePage | src/pages/PricingPage.tsx:11-78 | the page lists the home page's plans with the same names, prices and popularity |
| PricingPage.StatedSavingsExact | src/pages/PricingPage.tsx:11-78 | each stated saving reads `$N/year` with N = 12 × (monthly − annual): 60, 168, 408 |
| PricingPage.StarterSavingsText | src/pages/PricingPage.tsx:30 | `$60/year` renders 60 |
| PricingPage.ProfessionalSavingsText | src/pages/PricingPage.tsx:52 | `$168/year` renders 168 |
| PricingPage.EnterpriseSavingsText | src/pages/PricingPage.tsx:76 | `$408/year` renders 408 |
| PricingPage.AmountInside | src/pages/PricingPage.tsx:30 | the amount of `$N/year` is N |
| PricingPage.SavingsLine | src/pages/PricingPage.tsx:255-263 | the savings line appears only in annual mode and shows the plan's saving |
| PricingPage.ExactlyOnePagePlanPopular | src/pages/PricingPage.tsx:29-75 | exactly one plan, the second, is marked popular |
| AppTheme.ThemeText | src/App.tsx:40 | the stored value is `dark` exactly for dark mode |
| AppTheme.Restore | src/App.tsx:29-35 | a stored non-empty value gives dark iff it is `dark`; no value or an empty one keeps the mode |
| AppTheme.RestoreRoundTrip | src/App.tsx:33-40 | restoring what a toggle stored gives back the mode it stored |
| AppTheme.ThemeState.constructor | src/App.tsx:27 | the app starts in dark mode |
| AppTheme.ThemeState.RestoreSaved | src/App.tsx:29-35 | the mode becomes the restored mode and storage is unchanged |
| AppTheme.ThemeState.ToggleDarkMode | src/App.tsx:37-41 | the mode flips, the new mode is stored, and restoring it gives the new mode back |

## Left out

- Rendering: JSX, Tailwind classes, icons, the ReactQuill editor and the HTML strings are not modelled. The article composer keeps blocks, paragraphs, chosen phrase indices and keywords, not the sentences.
- The creator's generated article content keeps only its ten `<h2>` headings. The excerpt, meta-description and image wording is a `Wording` parameter, and the page's literal wording is `PageWording`.
- `cpc` (a float with `toFixed` rounding) is not part of the keyword records.
- `Math.random` is an injected stream of draws, and `new Date().toISOString()` is a time-stamp parameter.
- The comparator's floating-point arithmetic is evaluated exactly. With integer metrics in range, exact and floating-point comparisons agree in sign.
- `toLowerCase` maps ASCII capitals only; Unicode case mapping is not modelled.
- `parseInt(id)` becomes an `Option<int>` route id, where `None` stands for `NaN`.
- `localStorage` and JSON serialisation become in-memory fields. The editor's post list and the stored theme are modelled; reads of missing or malformed JSON are not.
- Navigation, toasts, alerts and `console` output are left out. `window.confirm` becomes a boolean input and a file choice an optional URL; navigation appears only as returned flags.
- Asynchronous waits (`setTimeout`, awaited promises) are not modelled: every operation runs to completion. The in-progress flags `isAIGenerating`, `isResearchingKeywords` and the signup `loading` are left out, as is the reset page's timer, which is the separate `Finish` step.
- The Supabase sign-up, the profile insert and the social sign-in buttons are left out; they are calls into code that is not part of this model. `Submit` on step 4 returns the credentials and profile it would send.
- BlogEditor.BlogEditPage.Load: takes the loaded post as a parameter. The page installs a fixed sample post whatever the route id, and its literal text is not modelled.
- The creator's `targetLength`, `seoOptimization`, `contentType` and `targetAudience` settings are left out: generation never reads them.
- Content.ContentConfig: content type, audience, tone and personal experience are carried but change nothing, as in the code.
- The header's mobile-menu open/closed flag and the login and signup buttons are left out: they are presentation only.
- The plans' feature lists, descriptions and gradients, and the pricing page's add-ons, are left out: they are display text.
- The pricing page's own annual/monthly toggle is not modelled separately: it behaves like `Pricing.BillingToggle`.
