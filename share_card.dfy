/**
  The text the server computes for sharing a result: the personalised card
  image (`generateCardSvg`) and the Open Graph share page.  Only the computed
  text fields are modelled; the SVG and HTML around them are constant.
*/
module ShareCard {
  import opened Wrappers
  import opened Ecma
  import ServerApi

  function Min(a: nat, b: nat): nat {
    if a <= b then a else b
  }

  // ---------------------------------------------------------------------------
  // Truncation
  // ---------------------------------------------------------------------------

  const NameLimit: nat := 6
  const TitleLimit: nat := 12
  const IngredientLimit: nat := 8

  /** `s.length > n ? s.substring(0, n) + '...' : s`. */
  function Truncate(s: string, n: nat): (r: string)
    ensures |r| <= n + 3
    ensures |s| <= n ==> r == s
    ensures |s| > n ==> |r| == n + 3 && StartsWith(r, s[..n]) && EndsWith(r, "...")
  {
    if |s| > n then s[..n] + "..." else s
  }

  /** Truncating twice is truncating once: the marked text is cut at the same place. */
  lemma TruncateIdempotent(s: string, n: nat)
    ensures Truncate(Truncate(s, n), n) == Truncate(s, n)
  {
    if |s| > n {
      var t := s[..n] + "...";
      assert t[..n] == s[..n];
    }
  }

  /** Long strings that share their first `n` characters look the same on the card. */
  lemma TruncateKeepsOnlyPrefix(s: string, t: string, n: nat)
    requires |s| > n && |t| > n && s[..n] == t[..n]
    ensures Truncate(s, n) == Truncate(t, n)
  {
  }

  // ---------------------------------------------------------------------------
  // The stored survey and its recipe
  // ---------------------------------------------------------------------------

  /** The row the card and share endpoints select; `""` stands for a null
      `skin_type` or `recommendation`, and `age` None for a null age. */
  datatype SurveyRow = SurveyRow(name: string, age: Option<int>, skinType: string, recommendation: string)

  /** `${data.age}`. */
  function AgeText(age: Option<int>): string {
    match age
    case None => "null"
    case Some(a) => IntString(a)
  }

  /** The non-empty `recipe` array of a stored recommendation, if there is
      one. A recommendation that does not parse, or parses to `null`, throws
      inside a `try` whose `catch` keeps the defaults. */
  function RecipeItems(recommendation: string, parse: string -> Option<Json>): (r: Option<seq<Json>>)
    ensures r.Some? ==> |r.value| > 0
    ensures r.Some? <==>
              recommendation != "" && parse(recommendation).Some? &&
              Present(Get(parse(recommendation).value, "recipe")) &&
              Get(parse(recommendation).value, "recipe").value.JArr? &&
              |Get(parse(recommendation).value, "recipe").value.items| > 0
    ensures r.Some? ==> r.value == Get(parse(recommendation).value, "recipe").value.items
  {
    if recommendation == "" then None
    else
      match parse(recommendation)
      case None => None
      case Some(rec) =>
        var recipe := Get(rec, "recipe");
        if Present(recipe) && recipe.value.JArr? && |recipe.value.items| > 0 then Some(recipe.value.items)
        else None
  }

  /** `rec.recipe[0]?.name || "수분"`. */
  function MainIngredient(item: Json, showNum: real -> string): (r: string)
    ensures Present(Get(item, "name")) ==> r == ToJsString(Get(item, "name").value, showNum)
    ensures !Present(Get(item, "name")) ==> r == "수분"
  {
    var name := Get(item, "name");
    if Present(name) then ToJsString(name.value, showNum) else "수분"
  }

  const CardDefaultTitle := "맞춤형 레시피"

  /** The card endpoint's `recipeTitle` and `ingredients`: the defaults, then
      reassigned from the stored recipe when it has one. */
  method CardRecipe(recommendation: string, parse: string -> Option<Json>, showNum: real -> string)
    returns (title: string, ingredients: seq<Json>)
    ensures RecipeItems(recommendation, parse).None? ==> title == CardDefaultTitle && ingredients == []
    ensures RecipeItems(recommendation, parse).Some? ==>
              var items := RecipeItems(recommendation, parse).value;
              title == MainIngredient(items[0], showNum) + " 베이스" &&
              ingredients == items[..Min(6, |items|)]
  {
    title := CardDefaultTitle;
    ingredients := [];
    var items := RecipeItems(recommendation, parse);
    if items.Some? {
      title := MainIngredient(items.value[0], showNum) + " 베이스";
      ingredients := items.value[..Min(6, |items.value|)];
    }
  }

  // ---------------------------------------------------------------------------
  // The card
  // ---------------------------------------------------------------------------

  /** One ingredient preview tile. */
  datatype Tile = Tile(caption: string, amount: string)

  /** The tile label: the ingredient name, cut to 8 characters, or `성분 {index + 1}`.
      An array name longer than 8 has no `substring` and throws. */
  function TileLabel(item: Json, index: nat, showNum: real -> string): (r: Outcome<string>)
    ensures r.Throws? <==>
              item.JNull? || (Present(Get(item, "name")) && Get(item, "name").value.JArr? &&
                              |Get(item, "name").value.items| > IngredientLimit)
    ensures !item.JNull? && !Present(Get(item, "name")) ==> r == Returns("성분 " + DecimalString(index + 1))
    ensures Present(Get(item, "name")) && Get(item, "name").value.JStr? ==>
              r == Returns(Truncate(Get(item, "name").value.s, IngredientLimit))
  {
    if item.JNull? then Throws
    else
      var name := Get(item, "name");
      if !Present(name) then Returns("성분 " + DecimalString(index + 1))
      else
        var n := name.value;
        if n.JStr? then Returns(Truncate(n.s, IngredientLimit))
        else if n.JArr? && |n.items| > IngredientLimit then Throws
        else Returns(ToJsString(n, showNum))
  }

  /** `percentage ? `${percentage}%` : amount || '적정량'`. */
  function TileAmount(item: Json, showNum: real -> string): (r: string)
    ensures Present(Get(item, "percentage")) ==> r == ToJsString(Get(item, "percentage").value, showNum) + "%"
    ensures !Present(Get(item, "percentage")) && Present(Get(item, "amount")) ==>
              r == ToJsString(Get(item, "amount").value, showNum)
    ensures !Present(Get(item, "percentage")) && !Present(Get(item, "amount")) ==> r == "적정량"
  {
    var percentage := Get(item, "percentage");
    var amount := Get(item, "amount");
    if Present(percentage) then ToJsString(percentage.value, showNum) + "%"
    else if Present(amount) then ToJsString(amount.value, showNum)
    else "적정량"
  }

  /** `ingredients.slice(0, 3).map(...)`: one tile for each of the first
      three ingredients, or a throw when one of them cannot be shown. */
  function Tiles(ingredients: seq<Json>, showNum: real -> string): (r: Outcome<seq<Tile>>)
    ensures r.Throws? <==>
              exists i :: 0 <= i < Min(3, |ingredients|) && TileLabel(ingredients[i], i, showNum).Throws?
    ensures r.Returns? ==>
              |r.value| == Min(3, |ingredients|) &&
              forall i :: 0 <= i < |r.value| ==>
                r.value[i] == Tile(TileLabel(ingredients[i], i, showNum).value, TileAmount(ingredients[i], showNum))
  {
    var shown := ingredients[..Min(3, |ingredients|)];
    if exists i :: 0 <= i < |shown| && TileLabel(shown[i], i, showNum).Throws? then Throws
    else Returns(seq(|shown|, i requires 0 <= i < |shown| =>
                   Tile(TileLabel(shown[i], i, showNum).value, TileAmount(shown[i], showNum))))
  }

  /** The text fields of the card. */
  datatype Card = Card(name: string, title: string, tiles: seq<Tile>, footer: string)

  /** `${skin_type ? `${skin_type} 피부 • ` : ''}${age}세 • AI 맞춤 분석`. */
  function Footer(row: SurveyRow): string {
    (if row.skinType != "" then row.skinType + " 피부 • " else "") + AgeText(row.age) + "세 • AI 맞춤 분석"
  }

  /** `generateCardSvg`. */
  function GenerateCard(row: SurveyRow, recipeTitle: string, ingredients: seq<Json>, showNum: real -> string)
    : (r: Outcome<Card>)
    ensures r.Throws? <==> Tiles(ingredients, showNum).Throws?
    ensures r.Returns? ==>
              r.value.name == Truncate(row.name, NameLimit) && |r.value.name| <= NameLimit + 3 &&
              r.value.title == Truncate(recipeTitle, TitleLimit) && |r.value.title| <= TitleLimit + 3 &&
              r.value.tiles == Tiles(ingredients, showNum).value && |r.value.tiles| <= 3 &&
              r.value.footer == Footer(row)
  {
    match Tiles(ingredients, showNum)
    case Throws => Throws
    case Returns(tiles) => Returns(Card(Truncate(row.name, NameLimit), Truncate(recipeTitle, TitleLimit), tiles, Footer(row)))
  }

  /** The demonstration card's ingredients. */
  const DemoIngredients: seq<Json> := [
    JObj(map["name" := JStr("알로에 젤"), "percentage" := JNum(86.5)]),
    JObj(map["name" := JStr("히알루론산"), "percentage" := JNum(10.0)]),
    JObj(map["name" := JStr("글리세린"), "percentage" := JNum(3.5)])
  ]

  const DemoRow := SurveyRow("김예진", Some(25), "복합성", "")

  /** The reply of the card endpoint. */
  datatype CardReply = CardShown(card: Card) | CardRefused(status: nat, text: string)

  /** GET /card-image/:surveyId. `lookup` is the select by id (None when it
      fails or finds nothing). */
  method CardImage(param: string, lookup: nat -> Option<SurveyRow>, parse: string -> Option<Json>,
                   showNum: real -> string) returns (reply: CardReply)
    ensures param != "demo" && ServerApi.SurveyId(param).None? ==> reply == CardRefused(400, "Invalid survey ID")
    ensures param != "demo" && ServerApi.SurveyId(param).Some? && lookup(ServerApi.SurveyId(param).value).None? ==>
              reply == CardRefused(404, "Survey not found")
    ensures param == "demo" ==> reply.CardShown? && reply.card.name == DemoRow.name && reply.card.title == "수분 지킴이"
    ensures (param == "demo" ==>
               (GenerateCard(DemoRow, "수분 지킴이", DemoIngredients, showNum).Returns?
                && reply == CardShown(GenerateCard(DemoRow, "수분 지킴이", DemoIngredients, showNum).value)))
    ensures param != "demo" && ServerApi.SurveyId(param).Some? && lookup(ServerApi.SurveyId(param).value).Some? ==>
              var row := lookup(ServerApi.SurveyId(param).value).value;
              var items := RecipeItems(row.recommendation, parse);
              var title := if items.Some? then MainIngredient(items.value[0], showNum) + " 베이스" else CardDefaultTitle;
              var ingredients := if items.Some? then items.value[..Min(6, |items.value|)] else [];
              var card := GenerateCard(row, title, ingredients, showNum);
              (card.Returns? ==> reply == CardShown(card.value)) &&
              (card.Throws? ==> reply == CardRefused(500, "Error generating image"))
    ensures reply.CardRefused? ==> reply.status in {400, 404, 500}
  {
    if param == "demo" {
      var demo := GenerateCard(DemoRow, "수분 지킴이", DemoIngredients, showNum);
      assert Tiles(DemoIngredients, showNum).Returns? by {
        forall i | 0 <= i < 3 ensures TileLabel(DemoIngredients[i], i, showNum).Returns? {
          assert Get(DemoIngredients[i], "name").value.JStr?;
        }
      }
      return CardShown(demo.value);
    }
    var id := ServerApi.SurveyId(param);
    if id.None? {
      return CardRefused(400, "Invalid survey ID");
    }
    var row := lookup(id.value);
    if row.None? {
      return CardRefused(404, "Survey not found");
    }
    var title, ingredients := CardRecipe(row.value.recommendation, parse, showNum);
    var card := GenerateCard(row.value, title, ingredients, showNum);
    if card.Throws? {
      return CardRefused(500, "Error generating image");
    }
    reply := CardShown(card.value);
  }

  /** A card shows the first ingredients of the stored recipe, at most three,
      each named as stored when its name is a short string. */
  lemma CardShowsLeadingIngredients(items: seq<Json>, showNum: real -> string, i: nat)
    requires i < Min(3, |items|)
    requires forall j :: 0 <= j < Min(3, |items|) ==> items[j].JObj? && "name" in items[j].fields &&
                                                      items[j].fields["name"].JStr? && 0 < |items[j].fields["name"].s| <= IngredientLimit
    ensures Tiles(items[..Min(6, |items|)], showNum).Returns?
    ensures Tiles(items[..Min(6, |items|)], showNum).value[i].caption == items[i].fields["name"].s
  {
    var ingredients := items[..Min(6, |items|)];
    forall j | 0 <= j < Min(3, |ingredients|) ensures TileLabel(ingredients[j], j, showNum).Returns? {
      assert ingredients[j] == items[j];
    }
    assert ingredients[i] == items[i];
  }

  // ---------------------------------------------------------------------------
  // The share page
  // ---------------------------------------------------------------------------

  const ShareDefaultTitle := "맞춤형 화장품 레시피"

  /** `${item.name} ${item.percentage}%`; a missing property prints as `undefined`. */
  function KeyIngredient(item: Json, showNum: real -> string): string {
    ShowProp(Get(item, "name"), showNum) + " " + ShowProp(Get(item, "percentage"), showNum) + "%"
  }

  /** The first three recipe entries as the share page lists them. */
  function KeyIngredients(items: seq<Json>, showNum: real -> string): (r: string)
    ensures items == [] ==> r == ""
    ensures |items| == 1 ==> r == KeyIngredient(items[0], showNum)
    ensures |items| == 2 ==> r == KeyIngredient(items[0], showNum) + ", " + KeyIngredient(items[1], showNum)
    ensures |items| >= 3 ==>
              r == KeyIngredient(items[0], showNum) + ", " + KeyIngredient(items[1], showNum) + ", " +
                   KeyIngredient(items[2], showNum)
  {
    var top := items[..Min(3, |items|)];
    var parts := seq(|top|, i requires 0 <= i < |top| => KeyIngredient(top[i], showNum));
    assert forall i :: 0 <= i < |top| ==> parts[i] == KeyIngredient(items[i], showNum);
    assert |top| == 2 ==> parts[1..] == [parts[1]] && Join(parts[1..], ", ") == parts[1];
    assert |top| == 3 ==> parts[1..][1..] == [parts[2]] &&
                          Join(parts[1..], ", ") == parts[1] + ", " + parts[2];
    Join(parts, ", ")
  }

  /** The share endpoint's `recipeTitle` and `keyIngredients`. The title is
      reassigned before the list is built, so a `null` among the first three
      entries (whose `name` read throws) leaves the new title and an empty list. */
  method ShareRecipe(recommendation: string, parse: string -> Option<Json>, showNum: real -> string)
    returns (title: string, keyIngredients: string)
    ensures RecipeItems(recommendation, parse).None? ==> title == ShareDefaultTitle && keyIngredients == ""
    ensures RecipeItems(recommendation, parse).Some? ==>
              var items := RecipeItems(recommendation, parse).value;
              title == MainIngredient(items[0], showNum) + " 베이스 레시피" &&
              (JNull in items[..Min(3, |items|)] ==> keyIngredients == "") &&
              (JNull !in items[..Min(3, |items|)] ==> keyIngredients == KeyIngredients(items, showNum))
  {
    title := ShareDefaultTitle;
    keyIngredients := "";
    var items := RecipeItems(recommendation, parse);
    if items.Some? {
      title := MainIngredient(items.value[0], showNum) + " 베이스 레시피";
      if JNull !in items.value[..Min(3, |items.value|)] {
        keyIngredients := KeyIngredients(items.value, showNum);
      }
    }
  }

  /** The share page's description: the recipe's ingredients when a
      recommendation is stored, otherwise the profile being analysed. */
  datatype ShareDescription = FromRecipe(keyIngredients: string) | FromProfile(name: string, subject: string) {
    function Text(): string {
      match this
      case FromRecipe(k) => "🧴 " + k + " 등으로 구성된 맞춤형 화장품 레시피를 확인해보세요!"
      case FromProfile(n, s) => "🤖 AI가 " + n + "님의 " + s + " 피부를 분석해서 맞춤형 화장품 레시피를 추천해드립니다!"
    }
  }

  /** `${data.name}님은 ${recipeTitle}가 필요해요!`. */
  function ShareTitle(name: string, recipeTitle: string): (r: string)
    ensures StartsWith(r, name + "님은 ") && EndsWith(r, recipeTitle + "가 필요해요!")
  {
    name + "님은 " + recipeTitle + "가 필요해요!"
  }

  const DefaultSiteUrl := "https://ai-to-base.netlify.app"

  /** `referer || origin || default`; an absent header is `""`. */
  function BaseUrl(referer: string, origin: string): string {
    if referer != "" then referer else if origin != "" then origin else DefaultSiteUrl
  }

  /** `baseUrl.endsWith('/') ? baseUrl.slice(0, -1) : baseUrl`. */
  function ShareUrl(referer: string, origin: string): (u: string)
    ensures var b := BaseUrl(referer, origin);
            (EndsWith(b, "/") ==> u + "/" == b) && (!EndsWith(b, "/") ==> u == b)
  {
    var b := BaseUrl(referer, origin);
    if EndsWith(b, "/") then b[..|b| - 1] else b
  }

  /** Without either header the page links to the site itself. */
  lemma ShareUrlDefault()
    ensures ShareUrl("", "") == DefaultSiteUrl
  {
    assert DefaultSiteUrl[|DefaultSiteUrl| - 1] == 'p';
  }

  /** The referer wins over the origin, and only one trailing slash goes. */
  lemma ShareUrlStripsOneSlash(site: string, origin: string)
    requires site != ""
    ensures ShareUrl(site + "/", origin) == site
    ensures ShareUrl(site + "//", origin) == site + "/"
  {
    assert (site + "//")[..|site| + 1] == site + "/";
  }

  /** The share page; `status` is the analysis-status line (done or in
      progress), which the demonstration page does not have. */
  datatype SharePage =
    | Page(title: string, description: ShareDescription, url: string, status: Option<bool>)
    | InvalidLink
    | SurveyMissing

  /** `${data.skin_type || data.age + "세"}`. */
  function Subject(row: SurveyRow): string {
    if row.skinType != "" then row.skinType else AgeText(row.age) + "세"
  }

  const DemoKeyIngredients := "알로에 젤 86.5%, 히알루론산 10%, 글리세린 3.5%"

  /** GET /share/:surveyId; `referer` and `origin` are the request headers. */
  method Share(param: string, lookup: nat -> Option<SurveyRow>, parse: string -> Option<Json>,
               showNum: real -> string, referer: string, origin: string) returns (page: SharePage)
    ensures param == "demo" ==>
              page == Page(ShareTitle(DemoRow.name, "수분 지킴이"), FromRecipe(DemoKeyIngredients), ShareUrl(referer, origin), None)
    ensures param != "demo" && ServerApi.SurveyId(param).None? ==> page == InvalidLink
    ensures param != "demo" && ServerApi.SurveyId(param).Some? && lookup(ServerApi.SurveyId(param).value).None? ==>
              page == SurveyMissing
    ensures param != "demo" && ServerApi.SurveyId(param).Some? && lookup(ServerApi.SurveyId(param).value).Some? ==>
              var row := lookup(ServerApi.SurveyId(param).value).value;
              var items := RecipeItems(row.recommendation, parse);
              var title := if items.Some? then MainIngredient(items.value[0], showNum) + " 베이스 레시피"
                           else ShareDefaultTitle;
              var keys := if items.Some? && JNull !in items.value[..Min(3, |items.value|)]
                          then KeyIngredients(items.value, showNum) else "";
              page.Page? && page.url == ShareUrl(referer, origin) &&
              page.status == Some(row.recommendation != "") &&
              page.title == ShareTitle(row.name, title) &&
              page.description == (if row.recommendation != "" then FromRecipe(keys)
                                   else FromProfile(row.name, Subject(row)))
  {
    if param == "demo" {
      return Page(ShareTitle(DemoRow.name, "수분 지킴이"), FromRecipe(DemoKeyIngredients), ShareUrl(referer, origin), None);
    }
    var id := ServerApi.SurveyId(param);
    if id.None? {
      return InvalidLink;
    }
    var row := lookup(id.value);
    if row.None? {
      return SurveyMissing;
    }
    var title, keyIngredients := ShareRecipe(row.value.recommendation, parse, showNum);
    var description := if row.value.recommendation != "" then FromRecipe(keyIngredients)
                       else FromProfile(row.value.name, Subject(row.value));
    page := Page(ShareTitle(row.value.name, title), description, ShareUrl(referer, origin),
                 Some(row.value.recommendation != ""));
  }
}
