/**
  The skin-type classifier of the client (utils/skinTypeMapping.tsx): nine
  care categories with their card designs, a priority-ordered keyword search
  over an AI recommendation, a fallback table for the survey's own `skin_type`
  answer, and the lookup of a category's design.

  The source passes categories around as string keys; here they are the
  enumeration `Category`, and `Key` gives the string the source uses.
*/
module SkinTypeMapping {
  import opened Wrappers
  import opened Ecma

  // ---------------------------------------------------------------------------
  // Categories and the design table
  // ---------------------------------------------------------------------------

  datatype Category =
    | Elasticity | Oily | Acne | Sensitive | Brightening | Barrier
    | Hydration | LightHydration | IntensiveHydration

  /** The key of a category in `skinTypeDesigns`. */
  function Key(c: Category): string {
    match c
    case Elasticity => "elasticity"
    case Oily => "oily"
    case Acne => "acne"
    case Sensitive => "sensitive"
    case Brightening => "brightening"
    case Barrier => "barrier"
    case Hydration => "hydration"
    case LightHydration => "light_hydration"
    case IntensiveHydration => "intensive_hydration"
  }

  /** The category stored under a key of `skinTypeDesigns`, if any. */
  function CategoryOfKey(k: string): (r: Option<Category>)
    ensures r.Some? ==> Key(r.value) == k
  {
    if k == "elasticity" then Some(Elasticity)
    else if k == "oily" then Some(Oily)
    else if k == "acne" then Some(Acne)
    else if k == "sensitive" then Some(Sensitive)
    else if k == "brightening" then Some(Brightening)
    else if k == "barrier" then Some(Barrier)
    else if k == "hydration" then Some(Hydration)
    else if k == "light_hydration" then Some(LightHydration)
    else if k == "intensive_hydration" then Some(IntensiveHydration)
    else None
  }

  /** The table has one key per category: every category's key is found again,
      and a key that is found belongs to exactly one category. */
  lemma KeysRoundTrip(c: Category, k: string)
    ensures CategoryOfKey(Key(c)) == Some(c)
    ensures CategoryOfKey(k).None? <==> forall c' :: Key(c') != k
  {
    if CategoryOfKey(k).None? {
      forall c' ensures Key(c') != k { KeyFound(c'); }
    }
    KeyFound(c);
  }

  lemma KeyFound(c: Category)
    ensures CategoryOfKey(Key(c)) == Some(c)
  {
  }

  /** A card design; `component` names the illustration drawn for the category. */
  datatype Design = Design(component: string, title: string, backgroundColor: string, description: string)

  /** `skinTypeDesigns`. */
  function DesignOf(c: Category): Design {
    match c
    case Elasticity => Design("Group1707481052", "탄력 메이커", "#ff8788", "탄력과 안티에이징에 특화된 케어")
    case Oily => Design("Group1707481053", "보송보송", "#69db7c", "유분 조절과 깔끔한 마무리")
    case Acne => Design("Group1707481054", "진정진정", "#94d82d", "트러블 진정과 염증 완화")
    case Sensitive => Design("Group1707481055", "민감 케어", "#349aef", "민감하고 예민한 피부를 위한 순한 케어")
    case Brightening => Design("Group1707481056", "피부 톤 케어", "#ffd43a", "브라이트닝과 톤 개선 케어")
    case Barrier => Design("Group1707481057", "굳건한 보호장벽", "#fe932d", "피부 장벽 강화와 보호")
    case Hydration => Design("Group1707481058", "보습", "#7abdf2", "기본적인 수분 공급과 보습")
    case LightHydration => Design("Group1707481059", "산뜻 보습", "#a4d8ff", "가벼우면서도 촉촉한 보습")
    case IntensiveHydration => Design("Group1707481060", "보습보습", "#1c7ed7", "집중적인 수분 공급과 깊은 보습")
  }

  /** No two categories share a title, so the title shown identifies the
      category. */
  lemma DesignTitlesDistinct(c1: Category, c2: Category)
    ensures DesignOf(c1).title == DesignOf(c2).title <==> c1 == c2
  {
  }

  // ---------------------------------------------------------------------------
  // Keyword rules
  // ---------------------------------------------------------------------------

  /** A category chosen when any of its keywords occurs in the search text. */
  datatype Rule = Rule(keywords: seq<string>, category: Category)

  const ElasticityRule := Rule(["탄력", "elasticity", "안티에이징", "anti-aging", "주름", "wrinkle", "리프팅"], Elasticity)
  const OilyRule := Rule(["보송", "유분", "oil", "지성", "oily", "기름", "피지", "sebum"], Oily)
  const AcneRule := Rule(["진정", "soothing", "트러블", "trouble", "여드름", "acne", "염증", "inflammation"], Acne)
  const SensitiveRule := Rule(["민감", "sensitive", "예민", "자극", "irritation"], Sensitive)
  const BrighteningRule := Rule(["브라이트", "bright", "톤", "tone", "화이트", "white", "미백", "whitening"], Brightening)
  const BarrierRule := Rule(["보호", "protection", "배리어", "barrier", "장벽", "강화"], Barrier)
  const IntensiveHydrationRule := Rule(["보습보습", "집중보습", "intensive", "깊은", "deep"], IntensiveHydration)
  const LightHydrationRule := Rule(["산뜻", "fresh", "가벼운", "light", "겔", "gel"], LightHydration)
  const HydrationRule := Rule(["보습", "moisture", "수분", "hydration", "촉촉"], Hydration)

  /** The rules in priority order: the first rule with a hit decides. */
  const KeywordRules: seq<Rule> := [
    ElasticityRule, OilyRule, AcneRule, SensitiveRule, BrighteningRule,
    BarrierRule, IntensiveHydrationRule, LightHydrationRule, HydrationRule
  ]

  /** No two rules share a category, and hydration's comes last; `RuleIndex`
      finds the rule of every category. */
  lemma RulesDistinct()
    ensures |KeywordRules| == 9 && KeywordRules[8].category == Hydration
    ensures forall i, j | 0 <= i < j < |KeywordRules| :: KeywordRules[i].category != KeywordRules[j].category
  {
  }

  /** The position of a category's rule. */
  function RuleIndex(c: Category): (i: nat)
    ensures i < |KeywordRules| && KeywordRules[i].category == c
  {
    match c
    case Elasticity => 0
    case Oily => 1
    case Acne => 2
    case Sensitive => 3
    case Brightening => 4
    case Barrier => 5
    case IntensiveHydration => 6
    case LightHydration => 7
    case Hydration => 8
  }

  /** `rule.keywords.some(keyword => text.includes(keyword))`. */
  predicate RuleMatches(rule: Rule, text: string) {
    exists j :: 0 <= j < |rule.keywords| && Includes(text, rule.keywords[j])
  }

  /** The position of the first rule at or after `from` that matches `text`. */
  function FirstMatch(rules: seq<Rule>, text: string, from: nat): (r: Option<nat>)
    requires from <= |rules|
    ensures r.Some? ==> from <= r.value < |rules| && RuleMatches(rules[r.value], text)
    ensures r.Some? ==> forall j :: from <= j < r.value ==> !RuleMatches(rules[j], text)
    ensures r.None? ==> forall j :: from <= j < |rules| ==> !RuleMatches(rules[j], text)
    decreases |rules| - from
  {
    if from == |rules| then None
    else if RuleMatches(rules[from], text) then Some(from)
    else FirstMatch(rules, text, from + 1)
  }

  // ---------------------------------------------------------------------------
  // The search text
  // ---------------------------------------------------------------------------

  /** `v.k?.toLowerCase() || ''`: an absent or null property reads as the empty
      string, a string is lower-cased, and any other value has no `toLowerCase`. */
  function LoweredProp(v: Json, k: string): (r: Outcome<string>)
    ensures r.Returns? ==> NoUpper(r.value)
    ensures Get(v, k).None? || Get(v, k) == Some(JNull) ==> r == Returns("")
    ensures Get(v, k).Some? && Get(v, k).value.JStr? ==> r == Returns(ToLower(Get(v, k).value.s))
    ensures r.Throws? <==> Get(v, k).Some? && !Get(v, k).value.JNull? && !Get(v, k).value.JStr?
    ensures r.Returns? && r.value != "" ==> Get(v, k).Some? && Get(v, k).value.JStr?
  {
    ToLowerFacts("", "");
    match Get(v, k)
    case None => Returns("")
    case Some(JNull) => Returns("")
    case Some(JStr(s)) => ToLowerFacts(s, ""); Returns(ToLower(s))
    case Some(_) => Throws
  }

  /** `ing.name?.toLowerCase()` for one ingredient; `undefined` joins as "". */
  function ItemName(item: Json): Outcome<string> {
    if item.JNull? then Throws else LoweredProp(item, "name")
  }

  /** The ingredient names, or a throw when one of them throws. */
  function ItemNames(items: seq<Json>): (r: Outcome<seq<string>>)
    ensures r.Returns? <==> forall i :: 0 <= i < |items| ==> ItemName(items[i]).Returns?
    ensures r.Returns? ==> |r.value| == |items|
    ensures r.Returns? ==> forall i :: 0 <= i < |items| ==> r.value[i] == ItemName(items[i]).value
  {
    if |items| == 0 then Returns([])
    else match (ItemName(items[0]), ItemNames(items[1..]))
      case (Returns(n), Returns(ns)) => Returns([n] + ns)
      case _ => Throws
  }

  /** `v.ingredients?.map(...).join(' ') || ''`: only an array has `map`. */
  function IngredientsText(v: Json): (r: Outcome<string>)
    ensures Get(v, "ingredients").None? || Get(v, "ingredients") == Some(JNull) ==> r == Returns("")
    ensures Get(v, "ingredients").Some? && Get(v, "ingredients").value.JArr? ==>
              match ItemNames(Get(v, "ingredients").value.items)
              case Returns(ns) => r == Returns(Join(ns, " "))
              case Throws => r.Throws?
    ensures (Get(v, "ingredients").Some? && !Get(v, "ingredients").value.JNull? &&
             !Get(v, "ingredients").value.JArr?) ==> r.Throws?
  {
    match Get(v, "ingredients")
    case None => Returns("")
    case Some(JNull) => Returns("")
    case Some(JArr(items)) =>
      (match ItemNames(items)
       case Returns(ns) => Returns(Join(ns, " "))
       case Throws => Throws)
    case Some(_) => Throws
  }

  /** `${title} ${ingredients} ${summary}`. */
  function SearchText(v: Json): Outcome<string> {
    match (LoweredProp(v, "recipeTitle"), IngredientsText(v), LoweredProp(v, "summary"))
    case (Returns(t), Returns(i), Returns(s)) => Returns(t + " " + i + " " + s)
    case _ => Throws
  }

  /** Where a keyword may be found: in the title, in one ingredient name or in the
      summary. */
  predicate MentionedIn(v: Json, kw: string)
    requires SearchText(v).Returns?
  {
    Includes(LoweredProp(v, "recipeTitle").value, kw) ||
    Includes(LoweredProp(v, "summary").value, kw) ||
    (Get(v, "ingredients").Some? && Get(v, "ingredients").value.JArr? &&
     exists i :: 0 <= i < |Get(v, "ingredients").value.items| &&
       Includes(ItemName(Get(v, "ingredients").value.items[i]).value, kw))
  }

  /** A keyword without spaces never straddles two segments of the search text:
      it occurs in the text exactly when it occurs in the title, in one
      ingredient name or in the summary. */
  lemma SearchTextSegments(v: Json, kw: string)
    requires SearchText(v).Returns? && kw != "" && ' ' !in kw
    ensures Includes(SearchText(v).value, kw) <==> MentionedIn(v, kw)
  {
    var t := LoweredProp(v, "recipeTitle").value;
    var ing := IngredientsText(v).value;
    var s := LoweredProp(v, "summary").value;
    assert SearchText(v).value == (t + [' '] + ing) + [' '] + s;
    IncludesAroundSeparator(t + [' '] + ing, ' ', s, kw);
    IncludesAroundSeparator(t, ' ', ing, kw);
    var g := Get(v, "ingredients");
    if g.Some? && g.value.JArr? {
      var ns := ItemNames(g.value.items).value;
      assert ing == Join(ns, " ");
      IncludesJoin(ns, kw);
    } else {
      assert ing == "";
    }
  }

  // ---------------------------------------------------------------------------
  // analyzeSkinTypeFromAI
  // ---------------------------------------------------------------------------

  /** The category of an AI recommendation; `None` is `undefined`. Reading a
      property that is neither absent, null nor a string throws. */
  function AnalyzeFromAI(rec: Option<Json>): (r: Outcome<Category>)
    ensures !Present(rec) ==> r == Returns(Hydration)
    ensures Present(rec) ==> (r.Returns? <==> SearchText(rec.value).Returns?)
  {
    if !Present(rec) then Returns(Hydration)
    else match SearchText(rec.value)
      case Throws => Throws
      case Returns(text) =>
        match FirstMatch(KeywordRules, text, 0)
        case Some(i) => Returns(KeywordRules[i].category)
        case None => Returns(Hydration)
  }

  /** A field that is absent, `null` or `` is an empty segment. */
  predicate EmptyField(v: Json, k: string) {
    Get(v, k).None? || Get(v, k) == Some(JNull) || Get(v, k) == Some(JStr(""))
  }

  /** A recommendation whose title and summary are absent, `null` or empty and
      whose ingredients are absent, `null` or an empty array is classified
      without a throw, as hydration. */
  lemma EmptyFieldsGiveHydration(v: Json)
    requires Truthy(v)
    requires EmptyField(v, "recipeTitle") && EmptyField(v, "summary")
    requires Get(v, "ingredients").None? || Get(v, "ingredients") == Some(JNull)
             || Get(v, "ingredients") == Some(JArr([]))
    ensures AnalyzeFromAI(Some(v)) == Returns(Hydration)
  {
    ToLowerFacts("", "");
    assert LoweredProp(v, "recipeTitle") == Returns("");
    assert LoweredProp(v, "summary") == Returns("");
    assert IngredientsText(v) == Returns("");
    assert "" + " " + "" + " " + "" == "  ";
    assert SearchText(v) == Returns("  ");
    BlanksMatchNoRule();
    AnalyzeFromAINoKeyword(v);
  }

  /** No keyword starts with a space, so the two separators alone match no rule. */
  lemma BlanksMatchNoRule()
    ensures forall i | 0 <= i < |KeywordRules| :: !RuleMatches(KeywordRules[i], "  ")
  {
    forall i | 0 <= i < |KeywordRules| ensures !RuleMatches(KeywordRules[i], "  ") {
      forall j | 0 <= j < |KeywordRules[i].keywords|
        ensures !Includes("  ", KeywordRules[i].keywords[j])
      {
        var kw := KeywordRules[i].keywords[j];
        assert kw[0] != ' ';
        MissingCharExcludes("  ", kw, kw[0]);
      }
    }
  }

  /** First-match priority: when rule `i` is the earliest rule with a keyword in
      the text, the result is its category. */
  lemma AnalyzeFromAIFirstMatch(v: Json, i: nat)
    requires Truthy(v) && SearchText(v).Returns? && i < |KeywordRules|
    requires RuleMatches(KeywordRules[i], SearchText(v).value)
    requires forall j :: 0 <= j < i ==> !RuleMatches(KeywordRules[j], SearchText(v).value)
    ensures AnalyzeFromAI(Some(v)) == Returns(KeywordRules[i].category)
  {
    var m := FirstMatch(KeywordRules, SearchText(v).value, 0);
    // an earlier hit contradicts the premise, a later one the minimality of m
    assert m.Some? && m.value == i;
  }

  /** The converse: every category other than hydration comes from its own rule,
      which matches while no earlier rule does; hydration means that the first
      eight rules all miss. */
  lemma AnalyzeFromAIExplained(v: Json)
    requires Truthy(v) && SearchText(v).Returns?
    ensures var text := SearchText(v).value; var r := AnalyzeFromAI(Some(v));
      r.Returns? && r.value != Hydration ==>
        RuleMatches(KeywordRules[RuleIndex(r.value)], text) &&
        forall j :: 0 <= j < RuleIndex(r.value) ==> !RuleMatches(KeywordRules[j], text)
    ensures AnalyzeFromAI(Some(v)) == Returns(Hydration) ==>
      forall j :: 0 <= j < RuleIndex(Hydration) ==> !RuleMatches(KeywordRules[j], SearchText(v).value)
  {
    RulesDistinct();
    var m := FirstMatch(KeywordRules, SearchText(v).value, 0);
    if m.Some? {
      assert RuleIndex(KeywordRules[m.value].category) == m.value;
    }
  }

  /** The hydration default for recommendations: with no keyword anywhere in the
      text, the result is hydration. */
  lemma AnalyzeFromAINoKeyword(v: Json)
    requires SearchText(v).Returns?
    requires forall i | 0 <= i < |KeywordRules| :: !RuleMatches(KeywordRules[i], SearchText(v).value)
    ensures AnalyzeFromAI(Some(v)) == Returns(Hydration)
  {
    if Truthy(v) {
      assert FirstMatch(KeywordRules, SearchText(v).value, 0).None?;
    }
  }

  /** An oily keyword wins over an acne keyword when no elasticity keyword is
      present, so the acne category needs both earlier rules to miss. */
  lemma OilyBeforeAcne(v: Json)
    requires Truthy(v) && SearchText(v).Returns?
    requires !RuleMatches(ElasticityRule, SearchText(v).value)
    requires RuleMatches(OilyRule, SearchText(v).value)
    ensures AnalyzeFromAI(Some(v)) == Returns(Oily)
  {
    AnalyzeFromAIFirstMatch(v, 1);
  }

  /** An elasticity keyword decides however many other keywords are present, in
      particular a hydration keyword. */
  lemma ElasticityFirst(v: Json)
    requires Truthy(v) && SearchText(v).Returns?
    requires RuleMatches(ElasticityRule, SearchText(v).value)
    ensures AnalyzeFromAI(Some(v)) == Returns(Elasticity)
  {
    AnalyzeFromAIFirstMatch(v, 0);
  }

  /** '보습보습' with no keyword of a higher-priority rule gives the intensive
      category, although the '보습' it contains is a hydration keyword too. */
  lemma IntensiveBeforeHydration(v: Json)
    requires Truthy(v) && SearchText(v).Returns?
    requires Includes(SearchText(v).value, "보습보습")
    requires forall j :: 0 <= j < 6 ==> !RuleMatches(KeywordRules[j], SearchText(v).value)
    ensures RuleMatches(HydrationRule, SearchText(v).value)
    ensures AnalyzeFromAI(Some(v)) == Returns(IntensiveHydration)
  {
    var text := SearchText(v).value;
    var i :| 0 <= i <= |text| - 4 && OccursAt(text, "보습보습", i);
    assert text[i..i + 2] == text[i..i + 4][..2] == "보습보습"[..2] == "보습";
    assert OccursAt(text, HydrationRule.keywords[0], i);
    assert RuleMatches(KeywordRules[6], text) by {
      assert Includes(text, KeywordRules[6].keywords[0]);
    }
    AnalyzeFromAIFirstMatch(v, 6);
  }

  /** A text over `alphabet` misses a rule when each keyword of the rule has a
      character, listed in `witnesses`, outside the alphabet. */
  lemma RuleExcludedBy(rule: Rule, text: string, alphabet: set<char>, witnesses: string)
    requires forall i :: 0 <= i < |text| ==> text[i] in alphabet
    requires |witnesses| == |rule.keywords|
    requires forall k :: 0 <= k < |witnesses| ==> witnesses[k] in rule.keywords[k] && witnesses[k] !in alphabet
    ensures !RuleMatches(rule, text)
  {
    forall k | 0 <= k < |rule.keywords| ensures !Includes(text, rule.keywords[k]) {
      MissingCharExcludes(text, rule.keywords[k], witnesses[k]);
    }
  }

  // ---------------------------------------------------------------------------
  // analyzeSkinTypeFromSurvey and determineSkinType
  // ---------------------------------------------------------------------------

  /** The survey answers as far as the classifier reads them. */
  datatype SurveyAnswers = SurveyAnswers(skinType: Option<string>)

  /** `surveyMapping`: the survey's six skin types. */
  function SurveyMapping(k: string): (r: Option<Category>)
    ensures r.Some? <==> k in {"dry", "oily", "sensitive", "combination", "normal", "acne"}
  {
    if k == "dry" then Some(Hydration)
    else if k == "oily" then Some(Oily)
    else if k == "sensitive" then Some(Sensitive)
    else if k == "combination" then Some(LightHydration)
    else if k == "normal" then Some(Hydration)
    else if k == "acne" then Some(Acne)
    else None
  }

  /** The survey's own skin type, looked up after lower-casing; anything else
      is hydration. */
  function AnalyzeFromSurvey(answers: SurveyAnswers): (r: Category)
  {
    match answers.skinType
    case Some(s) => SurveyMapping(ToLower(s)).GetOr(Hydration)
    case None => Hydration
  }

  /** The survey lookup ignores letter case, sends each of the six answers to its
      category, and every other answer (or none) to hydration. */
  lemma AnalyzeFromSurveyTable(s: string)
    ensures AnalyzeFromSurvey(SurveyAnswers(Some(s))) == AnalyzeFromSurvey(SurveyAnswers(Some(ToLower(s))))
    ensures AnalyzeFromSurvey(SurveyAnswers(None)) == Hydration
    ensures ToLower(s) !in {"dry", "oily", "sensitive", "combination", "normal", "acne"} ==>
      AnalyzeFromSurvey(SurveyAnswers(Some(s))) == Hydration
    ensures ToLower(s) == "combination" ==> AnalyzeFromSurvey(SurveyAnswers(Some(s))) == LightHydration
    ensures ToLower(s) == "dry" || ToLower(s) == "normal" ==> AnalyzeFromSurvey(SurveyAnswers(Some(s))) == Hydration
    ensures ToLower(s) == "oily" ==> AnalyzeFromSurvey(SurveyAnswers(Some(s))) == Oily
    ensures ToLower(s) == "sensitive" ==> AnalyzeFromSurvey(SurveyAnswers(Some(s))) == Sensitive
    ensures ToLower(s) == "acne" ==> AnalyzeFromSurvey(SurveyAnswers(Some(s))) == Acne
  {
    ToLowerFacts(s, "");
  }

  /** `determineSkinType`: a truthy recommendation decides alone, then the survey
      answers, then the default. */
  function DetermineSkinType(rec: Option<Json>, answers: Option<SurveyAnswers>): (r: Outcome<Category>)
  {
    if Present(rec) then AnalyzeFromAI(rec)
    else if answers.Some? then Returns(AnalyzeFromSurvey(answers.value))
    else Returns(Hydration)
  }

  /** The precedence of `determineSkinType`: survey answers never affect a
      decision taken from a recommendation, even when they name a different
      category; without one they decide, and without both it is hydration. */
  lemma DeterminePrecedence(rec: Option<Json>, a1: Option<SurveyAnswers>, a2: Option<SurveyAnswers>)
    ensures Present(rec) ==> DetermineSkinType(rec, a1) == DetermineSkinType(rec, a2) == AnalyzeFromAI(rec)
    ensures !Present(rec) && a1.Some? ==> DetermineSkinType(rec, a1) == Returns(AnalyzeFromSurvey(a1.value))
    ensures !Present(rec) && a1.None? ==> DetermineSkinType(rec, a1) == Returns(Hydration)
  {
  }

  // ---------------------------------------------------------------------------
  // getSkinTypeDesign
  // ---------------------------------------------------------------------------

  /** The design stored under a key; an unknown key gets the hydration design. */
  function GetSkinTypeDesign(k: string): (d: Design)
  {
    DesignOf(CategoryOfKey(k).GetOr(Hydration))
  }

  /** Each of the nine keys gives its own design and any other string the
      hydration design. */
  lemma GetSkinTypeDesignTable(c: Category, k: string)
    ensures GetSkinTypeDesign(Key(c)) == DesignOf(c)
    ensures (forall c' :: Key(c') != k) ==> GetSkinTypeDesign(k) == DesignOf(Hydration)
  {
    KeysRoundTrip(c, k);
  }

  /** Whatever the inputs, the design looked up for the decision is the table
      entry of the chosen category (the fallback is never taken), and its title
      tells that category apart from every other. */
  lemma DesignOfDecision(rec: Option<Json>, answers: Option<SurveyAnswers>, c: Category)
    requires DetermineSkinType(rec, answers).Returns?
    ensures var d := DetermineSkinType(rec, answers).value;
      CategoryOfKey(Key(d)).Some? && GetSkinTypeDesign(Key(d)) == DesignOf(d) &&
      (GetSkinTypeDesign(Key(d)).title == DesignOf(c).title <==> d == c)
  {
    var d := DetermineSkinType(rec, answers).value;
    KeysRoundTrip(d, "");
    DesignTitlesDistinct(d, c);
  }
}
