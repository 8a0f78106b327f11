/**
  A recommendation that arrives as text is wrapped in a record whose only
  searchable field is a fixed summary; this module shows that no keyword of
  the classifier occurs in either summary, so such recommendations always
  fall in the plain hydration category.
*/
module Placeholders {
  import opened Wrappers
  import opened Ecma
  import opened SkinTypeMapping
  import opened AiResult
  import opened RecipeReport

  /** The characters of both placeholder search texts. */
  const PlaceholderAlphabet: set<char> := {
    ' ', '.', '가', '니', '다', '되', '레', '리', '만', '맞', '문', '발', '생', '성', '습',
    '시', '식', '었', '장', '제', '중', '지', '처', '춤', '품', '피', '했', '형', '화'
  }

  /** The search texts of the two wrappers: empty title and ingredients, then
      the summary. */
  const MarkdownText := "  " + MarkdownSummary
  const DegradedText := "  " + DegradedSummary

  predicate OverPlaceholderAlphabet(text: string) {
    forall i :: 0 <= i < |text| ==> text[i] in PlaceholderAlphabet
  }

  /** The wrappers have no title and no ingredients, and a fixed summary. */
  lemma WrapperFields(content: string)
    ensures Get(Markdown(content), "recipeTitle") == None && Get(Degraded(content), "recipeTitle") == None
    ensures Get(Markdown(content), "ingredients") == None && Get(Degraded(content), "ingredients") == None
    ensures Get(Markdown(content), "summary") == Some(JStr(MarkdownSummary))
    ensures Get(Degraded(content), "summary") == Some(JStr(DegradedSummary))
    ensures Get(Markdown(content), "error") == None && Get(Degraded(content), "error") == Some(JBool(false))
  {
  }

  /** A record without title and ingredients is searched through its summary
      alone, preceded by the two separators. */
  lemma SummaryOnlySearch(v: Json, summary: string)
    requires Get(v, "recipeTitle") == None && Get(v, "ingredients") == None
    requires Get(v, "summary") == Some(JStr(summary)) && NoUpper(summary)
    ensures SearchText(v) == Returns("  " + summary)
  {
    ToLowerFacts(summary, "");
    assert LoweredProp(v, "summary") == Returns(summary);
    assert "" + " " + "" + " " + summary == "  " + summary;
  }

  /** Only the summary of a Markdown wrapper is searched: its content never is. */
  lemma MarkdownSearchText(content: string)
    ensures SearchText(Markdown(content)) == Returns(MarkdownText)
  {
    WrapperFields(content);
    SummariesLowerCase();
    SummaryOnlySearch(Markdown(content), MarkdownSummary);
  }

  /** Likewise for the wrapper of a text that did not parse. */
  lemma DegradedSearchText(content: string)
    ensures SearchText(Degraded(content)) == Returns(DegradedText)
  {
    WrapperFields(content);
    SummariesLowerCase();
    SummaryOnlySearch(Degraded(content), DegradedSummary);
  }

  /** Neither summary has an upper-case letter, so lower-casing keeps it. */
  lemma SummariesLowerCase()
    ensures NoUpper(MarkdownSummary) && NoUpper(DegradedSummary)
  {
    MarkdownLowerCase();
    DegradedLowerCase();
  }

  lemma MarkdownLowerCase()
    ensures NoUpper(MarkdownSummary)
  {
  }

  lemma DegradedLowerCase()
    ensures NoUpper(DegradedSummary)
  {
  }

  /** Both placeholder texts are written in the placeholder alphabet. */
  lemma PlaceholderTextsAlphabet()
    ensures OverPlaceholderAlphabet(MarkdownText) && OverPlaceholderAlphabet(DegradedText)
  {
  }

  lemma ElasticityMissesPlaceholder(text: string)
    requires OverPlaceholderAlphabet(text)
    ensures !RuleMatches(ElasticityRule, text)
  {
    RuleExcludedBy(ElasticityRule, text, PlaceholderAlphabet, "탄e안a주w프");
  }

  lemma AcneMissesPlaceholder(text: string)
    requires OverPlaceholderAlphabet(text)
    ensures !RuleMatches(AcneRule, text)
  {
    RuleExcludedBy(AcneRule, text, PlaceholderAlphabet, "진s트t여a염i");
  }

  lemma SensitiveMissesPlaceholder(text: string)
    requires OverPlaceholderAlphabet(text)
    ensures !RuleMatches(SensitiveRule, text)
  {
    RuleExcludedBy(SensitiveRule, text, PlaceholderAlphabet, "민s예자i");
  }

  lemma BrighteningMissesPlaceholder(text: string)
    requires OverPlaceholderAlphabet(text)
    ensures !RuleMatches(BrighteningRule, text)
  {
    RuleExcludedBy(BrighteningRule, text, PlaceholderAlphabet, "브b톤t이w미w");
  }

  lemma BarrierMissesPlaceholder(text: string)
    requires OverPlaceholderAlphabet(text)
    ensures !RuleMatches(BarrierRule, text)
  {
    RuleExcludedBy(BarrierRule, text, PlaceholderAlphabet, "보p배b벽강");
  }

  lemma IntensiveMissesPlaceholder(text: string)
    requires OverPlaceholderAlphabet(text)
    ensures !RuleMatches(IntensiveHydrationRule, text)
  {
    RuleExcludedBy(IntensiveHydrationRule, text, PlaceholderAlphabet, "보집i깊d");
  }

  lemma LightMissesPlaceholder(text: string)
    requires OverPlaceholderAlphabet(text)
    ensures !RuleMatches(LightHydrationRule, text)
  {
    RuleExcludedBy(LightHydrationRule, text, PlaceholderAlphabet, "산f벼l겔g");
  }

  lemma HydrationMissesPlaceholder(text: string)
    requires OverPlaceholderAlphabet(text)
    ensures !RuleMatches(HydrationRule, text)
  {
    RuleExcludedBy(HydrationRule, text, PlaceholderAlphabet, "보m수h촉");
  }

  /** The oily rule misses the Markdown text, which has no '지' at all. */
  lemma OilyMissesMarkdown()
    ensures !RuleMatches(OilyRule, MarkdownText)
  {
    var t := MarkdownText;
    PlaceholderTextsAlphabet();
    assert '지' !in t;
    var w := "보유o지o기지s";
    forall k | 0 <= k < |OilyRule.keywords| ensures !Includes(t, OilyRule.keywords[k]) {
      MissingCharExcludes(t, OilyRule.keywords[k], w[k]);
    }
  }

  /** The degraded text has '지', '성' and '피', but never '지' before '성' nor
      '피' before '지'. */
  lemma OilyMissesDegraded()
    ensures !RuleMatches(OilyRule, DegradedText)
  {
    var t := DegradedText;
    PlaceholderTextsAlphabet();
    var w := "보유o_o기_s";
    forall k | 0 <= k < |OilyRule.keywords| ensures !Includes(t, OilyRule.keywords[k]) {
      if k == 3 {
        OilyPairAbsent();
      } else if k == 6 {
        SebumPairAbsent();
      } else {
        MissingCharExcludes(t, OilyRule.keywords[k], w[k]);
      }
    }
  }

  /** '지' is never followed by '성' in the degraded text. */
  lemma OilyPairAbsent()
    ensures !Includes(DegradedText, "지성")
  {
    OilySplit();
    OilyLone();
    LoneCharNotFollowedBy(OilyBefore, OilyAfter, "지성");
  }

  const OilyBefore := "  레시피가 생성되었"
  const OilyAfter := "만 형식 처리 중 문제가 발생했습니다."

  lemma OilySplit()
    ensures DegradedText == OilyBefore + ['지'] + OilyAfter
  {
  }

  lemma OilyLone()
    ensures '지' !in OilyBefore && '지' !in OilyAfter && OilyAfter[0] != '성'
  {
  }

  /** '피' is never followed by '지' in the degraded text. */
  lemma SebumPairAbsent()
    ensures !Includes(DegradedText, "피지")
  {
    SebumSplit();
    SebumLone();
    LoneCharNotFollowedBy(SebumBefore, SebumAfter, "피지");
  }

  const SebumBefore := "  레시"
  const SebumAfter := "가 생성되었지만 형식 처리 중 문제가 발생했습니다."

  lemma SebumSplit()
    ensures DegradedText == SebumBefore + ['피'] + SebumAfter
  {
  }

  lemma SebumLone()
    ensures '피' !in SebumBefore && '피' !in SebumAfter && SebumAfter[0] != '지'
  {
  }

  /** No rule has a keyword in either placeholder text. */
  lemma PlaceholderMissesEveryRule(text: string)
    requires text == MarkdownText || text == DegradedText
    ensures forall j :: 0 <= j < |KeywordRules| ==> !RuleMatches(KeywordRules[j], text)
  {
    PlaceholderTextsAlphabet();
    ElasticityMissesPlaceholder(text);
    if text == MarkdownText { OilyMissesMarkdown(); } else { OilyMissesDegraded(); }
    AcneMissesPlaceholder(text);
    SensitiveMissesPlaceholder(text);
    BrighteningMissesPlaceholder(text);
    BarrierMissesPlaceholder(text);
    IntensiveMissesPlaceholder(text);
    LightMissesPlaceholder(text);
    HydrationMissesPlaceholder(text);
  }

  lemma MarkdownIsHydration(content: string)
    ensures AnalyzeFromAI(Some(Markdown(content))) == Returns(Hydration)
  {
    MarkdownSearchText(content);
    PlaceholderMissesEveryRule(MarkdownText);
    AnalyzeFromAINoKeyword(Markdown(content));
  }

  lemma DegradedIsHydration(content: string)
    ensures AnalyzeFromAI(Some(Degraded(content))) == Returns(Hydration)
  {
    DegradedSearchText(content);
    PlaceholderMissesEveryRule(DegradedText);
    AnalyzeFromAINoKeyword(Degraded(content));
  }

  /** A recommendation that arrives as text (Markdown, or JSON-looking text
      that does not parse) is filed under plain hydration whatever it says,
      and whatever the survey answers: the classifier searches only the
      wrapper's fixed summary. */
  lemma TextRecommendationIsHydration(raw: Json, parse: string -> Option<Json>, answers: Option<SurveyAnswers>)
    requires raw.JStr? && !(LooksLikeJson(raw) && parse(raw.s).Some?)
    ensures DetermineSkinType(Some(Interpret(raw, parse)), answers) == Returns(Hydration)
  {
    if LooksLikeJson(raw) {
      DegradedIsHydration(raw.s);
    } else {
      MarkdownIsHydration(raw.s);
    }
  }
}
