/**
  The report the survey-completion screen (components/SurveyComplete.tsx)
  hands to the application: a fixed recipe whose title and summary come from
  the design of the category the classifier chooses.
*/
module RecipeReport {
  import opened Wrappers
  import opened Ecma
  import opened SkinTypeMapping

  datatype MockIngredient = MockIngredient(name: string, amount: string, description: string)

  /** The report handed to `onShowAIReport`. Only the user's name and the
      design vary between reports, so the record holds those two and its
      fields are computed from them. */
  datatype Report = Report(userName: string, design: Design) {
    function RecipeTitle(): string {
      design.title
    }

    function Ingredients(): seq<MockIngredient> {
      MockIngredients
    }

    function ManufacturingSteps(): seq<string> {
      MockSteps
    }

    function Summary(): string {
      userName + "님의 설문 결과를 바탕으로 제작된 맞춤형 " + design.title + " 레시피입니다. \n\n" +
      design.description + "에 특화된 이 레시피는, 천연 성분만을 사용하여 피부에 부담 없이 사용할 수 있습니다. \n\n" +
      "매일 아침·저녁 세안 후 적당량을 발라 부드럽게 마사지하시면, 건강하고 촉촉한 피부를 유지할 수 있습니다. " +
      "특히 건조한 환절기나 실내 난방으로 인한 피부 트러블 예방에 효과적입니다."
    }

    function Precautions(): string {
      PrecautionText
    }
  }

  const MockIngredients: seq<MockIngredient> := [
    MockIngredient("병풀 추출물", "5g", "예민한 피부를 편안하게 달래주는 진정 추출물입니다. 염증을 가라앉히고 피부 재생을 도와줍니다."),
    MockIngredient("동백오일", "5g", "피부를 부드럽게 가꿔주는 가벼운 텍스처의 오일입니다. 보습과 영양 공급에 탁월합니다."),
    MockIngredient("알로에 젤", "5g", "피부에 시원한 수분을 공급하고 진정 효과를 선사하는 순한 베이스 성분입니다."),
    MockIngredient("글리세린", "3g", "공기 중 수분을 끌어당겨 피부를 촉촉하게 유지해주는 천연 보습 성분입니다."),
    MockIngredient("호호바오일", "2g", "피부 장벽을 보호하며 가벼운 보습막을 형성하는 순한 오일로, 모든 피부 타입에 적합합니다."),
    MockIngredient("올리브리퀴드", "5g", "비타민 E가 풍부한 천연 오일로 피부에 깊은 영양을 공급하고 탄력을 개선합니다.")
  ]

  const MockSteps: seq<string> := [
    "깨끗하게 소독된 용기에 알로에 젤과 글리세린을 넣고 나무 스패츌라로 충분히 섞어주세요. 기포가 생기지 않도록 천천히 저어주는 것이 중요합니다.",
    "별도의 용기에 오일 성분들(동백오일, 호호바오일, 올리브리퀴드)을 차례로 넣고 균일하게 섞어주세요. 오일들이 완전히 융합될 때까지 충분히 저어주세요.",
    "베이스 혼합물에 오일 블렌드를 조금씩 넣으면서 유화가 잘 되도록 지속적으로 저어주세요. 마지막으로 병풀 추출물을 넣고 2-3분간 더 저어서 완성해주세요."
  ]

  const PrecautionText := "개인의 피부 상태와 알레르기 반응은 개인차가 있을 수 있습니다. 처음 사용하실 때는 팔 안쪽 등에 소량을 발라 24시간 후 이상 반응이 없는지 확인 후 사용해주세요."

  /** The report for the category the classifier chose, built from the design
      that `getSkinTypeDesign` returns for the category's key. */
  function ReportOf(userName: string, c: Category): (r: Report)
    ensures r.userName == userName && r.design == DesignOf(c) && r.RecipeTitle() == DesignOf(c).title
  {
    GetSkinTypeDesignTable(c, "");
    Report(userName, GetSkinTypeDesign(Key(c)))
  }

  /** The summary addresses the user by name. */
  lemma SummaryAddressesUser(r: Report)
    ensures |r.Summary()| > |r.userName| && r.Summary()[..|r.userName|] == r.userName
  {
  }

  /** The report's title names its category and no other. */
  lemma ReportTitleIdentifiesCategory(userName: string, c1: Category, c2: Category)
    ensures ReportOf(userName, c1).RecipeTitle() == DesignOf(c2).title <==> c1 == c2
    ensures ReportOf(userName, c1) == ReportOf(userName, c2) <==> c1 == c2
  {
    DesignTitlesDistinct(c1, c2);
  }
}
