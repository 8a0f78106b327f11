/**
  The JSON endpoints of the edge-function server: creating a survey, updating
  it, reading it back, storing the AI recipe for it and reading that recipe.
  The database is a parameter: a handler receives the answer to the statement
  it issues and reports the write it asked for, so that what is stored can be
  stated next to what is answered.
*/
module ServerApi {
  import opened Wrappers
  import opened Ecma

  // ---------------------------------------------------------------------------
  // Replies
  // ---------------------------------------------------------------------------

  /** Why `validateRecipe` turned a recipe away. */
  datatype RecipeFault =
    | Unparsable            // `JSON.parse` threw
    | RecipeArrayRequired   // no `recipe` array
    | DescriptionsRequired  // no `descriptions` object
    | Unreadable            // a property of `null` was read (a TypeError)
  {
    /** The message of the error `validateRecipe` throws itself; the texts of
        the engine's own SyntaxError and TypeError are not modelled. */
    function Detail(): string {
      match this
      case RecipeArrayRequired => "recipe 배열이 필요합니다"
      case DescriptionsRequired => "descriptions 객체가 필요합니다"
      case Unparsable => ""
      case Unreadable => ""
    }
  }

  /** Why a request was turned away. */
  datatype Failure =
    | InvalidJson                      // the ai-recommendation body is not JSON
    | NameAgeRequired
    | FieldsRequired                   // surveyId and recommendation
    | BadRecipe(fault: RecipeFault)
    | InvalidSurveyId
    | UpdateFailed(message: string)    // PUT: the database reported an error
    | QueryFailed(message: string)     // GET: the database reported an error
    | NotFound
    | RecommendationNotSaved(message: string)
    | DatabaseError(message: string)   // POST: the insert failed
    | ServerError                      // POST: an exception reached the outer catch
    | UnexpectedError                  // PUT and GET: an exception reached the outer catch
  {
    /** The HTTP status the failure is sent with. */
    function Status(): nat {
      match this
      case InvalidJson => 400
      case NameAgeRequired => 400
      case FieldsRequired => 400
      case BadRecipe(_) => 400
      case InvalidSurveyId => 400
      case UpdateFailed(_) => 404
      case QueryFailed(_) => 404
      case NotFound => 404
      case RecommendationNotSaved(_) => 404
      case DatabaseError(_) => 500
      case ServerError => 500
      case UnexpectedError => 500
    }

    /** The `error` text of the reply. Where the source appends the text of
        a caught exception, only the fixed part before it is given. */
    function Message(): string {
      match this
      case InvalidJson => "잘못된 JSON 형식입니다: "
      case NameAgeRequired => "이름과 나이는 필수 입력 항목입니다."
      case FieldsRequired => "surveyId와 recommendation은 필수 항목입니다."
      case BadRecipe(f) => "잘못된 레시피 데이터 형식입니다: " + f.Detail()
      case InvalidSurveyId => "잘못된 설문 ID 형식입니다."
      case UpdateFailed(m) => "설문 데이터 업데이트 실패: " + m
      case QueryFailed(m) => "설문 데이터 조회 실패: " + m
      case NotFound => "설문 데이터를 찾을 수 없습니다."
      case RecommendationNotSaved(m) => "설문 데이터를 찾을 수 없습니다: " + m
      case DatabaseError(m) => "데이터베이스 오류가 발생했습니다: " + m
      case ServerError => "서버 오류가 발생했습니다. 다시 시도해주세요."
      case UnexpectedError => "서버 오류가 발생했습니다: "
    }
  }

  /** The JSON reply of a handler. */
  datatype Reply =
    | Created(surveyId: string)
    | Found(data: Json)
    | FoundRecommendation(data: Json, hasRecommendation: bool)
    | Refused(failure: Failure)

  /** A reply together with the database write the handler issued, if any. */
  datatype Handled<W> = Handled(reply: Reply, write: Option<W>)

  /** The answer to a select or an update: an error message, or the row (`null` when none). */
  datatype DbResult = DbFailed(message: string) | Answered(data: Json)

  /** `update(fields).eq('id', id)`. */
  datatype Write = Write(id: nat, fields: map<string, Json>)

  /** `v.k`: reading a property of `null` throws a TypeError. */
  function Field(v: Json, k: string): (r: Outcome<Option<Json>>)
    ensures r.Throws? <==> v.JNull?
    ensures r.Returns? ==> r.value == Get(v, k)
  {
    if v.JNull? then Throws else Returns(Get(v, k))
  }

  // ---------------------------------------------------------------------------
  // Survey ids
  // ---------------------------------------------------------------------------

  /** `parseInt(param)`, accepted when it is not NaN and is greater than zero. */
  function SurveyId(param: string): (r: Option<nat>)
    ensures r.Some? ==> ParseInt(param) == Some(r.value as int) && r.value > 0
    ensures r.None? ==> ParseInt(param).None? || ParseInt(param).value <= 0
  {
    var n := ParseInt(param);
    if n.Some? && n.value > 0 then Some(n.value as nat) else None
  }

  /** An id is accepted exactly when no minus sign leads it and the digits
      `parseInt` reads are not all zero: trailing garbage does not matter. */
  lemma SurveyIdAcceptance(param: string)
    ensures SurveyId(param).Some? <==>
            !Negative(TrimStart(param)) &&
            exists i :: 0 <= i < |ParsedDigits(param)| && DigitValue(ParsedDigits(param)[i]) > 0
  {
    ParseIntPositive(param);
  }

  /** `"12abc"` is read as 12: `parseInt` stops at the first non-digit. */
  lemma SurveyIdTrailingLetters()
    ensures SurveyId("12abc") == Some(12)
  {
    var s := "12abc";
    assert !IsWhiteSpace('1') && !HexPrefixed(s);
    ParseIntUnsigned(s);
    assert DigitPrefixLen(s[2..], 10) == 0 by {
      assert s[2..][0] == 'a' && DigitValue('a') == 10;
    }
    assert DigitPrefixLen(s[1..], 10) == 1 by { assert s[1..][1..] == s[2..]; }
    assert DigitPrefixLen(s, 10) == 2;
    assert s[..2] == "12";
    assert DigitsValue("12", 10) == 12 by {
      assert "12"[..1] == "1" && "1"[..0] == "";
    }
  }

  /** `"0"` is refused: its value is not greater than zero. */
  lemma SurveyIdZero()
    ensures SurveyId("0").None?
  {
    var z := "0";
    assert !IsWhiteSpace('0') && !HexPrefixed(z);
    ParseIntUnsigned(z);
    assert DigitPrefixLen(z, 10) == 1 by { assert z[1..] == ""; }
    assert z[..1] == z;
    assert DigitsValue(z, 10) == 0 by { assert z[..0] == ""; }
  }

  /** `"-3"` is refused: its value is negative. */
  lemma SurveyIdNegative()
    ensures SurveyId("-3").None?
  {
    var m := "-3";
    assert TrimStart(m) == m by { assert !IsWhiteSpace(m[0]); }
    assert Negative(m) && AfterSign(m) == "3";
    assert !HexPrefixed("3") && Body("3") == "3";
    assert DigitPrefixLen("3", 10) == 1 by { assert "3"[1..] == ""; }
    assert ParsedDigits(m) == "3";
    assert DigitsValue("3", 10) == 3 by { assert "3"[..0] == ""; }
  }

  /** `"abc"` is refused: `parseInt` gives NaN. */
  lemma SurveyIdNotANumber()
    ensures SurveyId("abc").None?
  {
    var a := "abc";
    assert !IsWhiteSpace('a') && !HexPrefixed(a);
    ParseIntUnsigned(a);
    assert DigitPrefixLen(a, 10) == 0 by { assert DigitValue('a') == 10; }
  }

  /** The id the create endpoint prints (`data.id.toString()`) is read back
      as the same id by every endpoint that takes an id. */
  lemma SurveyIdOfPrinted(id: nat)
    requires id > 0
    ensures SurveyId(IntString(id)) == Some(id)
  {
    ParseIntDecimal(id);
  }

  // ---------------------------------------------------------------------------
  // POST /survey
  // ---------------------------------------------------------------------------

  /** The row the create endpoint inserts; `age` is `parseInt(body.age)`, None being NaN. */
  datatype NewSurvey = NewSurvey(name: Json, age: Option<int>, skinType: Json, status: string)

  /** The answer to the insert: an error message, or the new row's id. */
  datatype InsertResult = InsertFailed(message: string) | Inserted(id: int)

  /** POST /survey. `body` is `c.req.json()`, `showNum` is `Number::toString`
      and `insert` is the database's answer to the insert. */
  function CreateSurvey(body: Outcome<Json>, showNum: real -> string, insert: NewSurvey -> InsertResult)
    : (r: Handled<NewSurvey>)
    ensures r.reply == Refused(NameAgeRequired) <==>
            body.Returns? && !body.value.JNull? &&
            !(Present(Get(body.value, "name")) && Present(Get(body.value, "age")))
    ensures r.write.Some? <==>
            body.Returns? && !body.value.JNull? && Present(Get(body.value, "name")) && Present(Get(body.value, "age"))
    ensures r.write.Some? ==>
              r.write.value.status == "in_progress" &&
              r.write.value.name == Get(body.value, "name").value &&
              r.write.value.age == ParseInt(ToJsString(Get(body.value, "age").value, showNum)) &&
              (if Present(Get(body.value, "skinType")) then r.write.value.skinType == Get(body.value, "skinType").value
               else r.write.value.skinType == JNull)
    ensures r.reply.Created? <==> r.write.Some? && insert(r.write.value).Inserted?
    ensures r.reply.Created? ==> r.reply.surveyId == IntString(insert(r.write.value).id)
  {
    match body
    case Throws => Handled(Refused(ServerError), None)
    case Returns(b) =>
      if b.JNull? then Handled(Refused(ServerError), None)
      else
        var name := Get(b, "name");
        var age := Get(b, "age");
        if !Present(name) || !Present(age) then Handled(Refused(NameAgeRequired), None)
        else
          var skinType := Get(b, "skinType");
          var row := NewSurvey(name.value, ParseInt(ToJsString(age.value, showNum)),
                               if Present(skinType) then skinType.value else JNull, "in_progress");
          match insert(row)
          case InsertFailed(m) => Handled(Refused(DatabaseError(m)), Some(row))
          case Inserted(id) => Handled(Created(IntString(id)), Some(row))
  }

  /** A survey that was created with a positive id can be addressed by the id
      it was answered with. */
  lemma CreatedIdAccepted(body: Outcome<Json>, showNum: real -> string, insert: NewSurvey -> InsertResult)
    requires CreateSurvey(body, showNum, insert).reply.Created?
    requires insert(CreateSurvey(body, showNum, insert).write.value).id > 0
    ensures SurveyId(CreateSurvey(body, showNum, insert).reply.surveyId)
            == Some(insert(CreateSurvey(body, showNum, insert).write.value).id as nat)
  {
    var r := CreateSurvey(body, showNum, insert);
    SurveyIdOfPrinted(insert(r.write.value).id as nat);
  }

  // ---------------------------------------------------------------------------
  // PUT /survey/:surveyId
  // ---------------------------------------------------------------------------

  /** The patch of the update endpoint: `updated_at` always, and each of
      `skin_type`, `status` and `answers` when the body's field is truthy. */
  method BuildUpdateData(body: Json, now: string) returns (patch: Outcome<map<string, Json>>)
    ensures patch.Throws? <==> body.JNull?
    ensures patch.Returns? ==>
              (forall k :: k in patch.value ==> k in {"updated_at", "skin_type", "status", "answers"}) &&
              "updated_at" in patch.value && patch.value["updated_at"] == JStr(now) &&
              ("skin_type" in patch.value <==> Present(Get(body, "skinType"))) &&
              ("status" in patch.value <==> Present(Get(body, "status"))) &&
              ("answers" in patch.value <==> Present(Get(body, "answers")))
    ensures patch.Returns? && "skin_type" in patch.value ==> patch.value["skin_type"] == Get(body, "skinType").value
    ensures patch.Returns? && "status" in patch.value ==> patch.value["status"] == Get(body, "status").value
    ensures patch.Returns? && "answers" in patch.value ==> patch.value["answers"] == Get(body, "answers").value
  {
    if body.JNull? {
      return Throws;
    }
    var data := map["updated_at" := JStr(now)];
    var skinType := Get(body, "skinType");
    if Present(skinType) {
      data := data["skin_type" := skinType.value];
    }
    var status := Get(body, "status");
    if Present(status) {
      data := data["status" := status.value];
    }
    var answers := Get(body, "answers");
    if Present(answers) {
      data := data["answers" := answers.value];
    }
    patch := Returns(data);
  }

  /** PUT /survey/:surveyId. The body is read before the id is checked;
      `update` is the database's answer to the update. */
  method UpdateSurvey(param: string, body: Outcome<Json>, now: string, update: Write -> DbResult)
    returns (r: Handled<Write>)
    ensures body.Throws? ==> r == Handled(Refused(UnexpectedError), None)
    ensures body.Returns? && SurveyId(param).None? ==> r == Handled(Refused(InvalidSurveyId), None)
    ensures body.Returns? && SurveyId(param).Some? && body.value.JNull? ==> r == Handled(Refused(UnexpectedError), None)
    ensures r.write.Some? <==> body.Returns? && SurveyId(param).Some? && !body.value.JNull?
    ensures r.write.Some? ==>
              r.write.value.id == SurveyId(param).value &&
              "updated_at" in r.write.value.fields && r.write.value.fields["updated_at"] == JStr(now) &&
              (forall k :: k in r.write.value.fields ==> k in {"updated_at", "skin_type", "status", "answers"}) &&
              ("skin_type" in r.write.value.fields <==> Present(Get(body.value, "skinType"))) &&
              ("status" in r.write.value.fields <==> Present(Get(body.value, "status"))) &&
              ("answers" in r.write.value.fields <==> Present(Get(body.value, "answers")))
    ensures r.write.Some? && "skin_type" in r.write.value.fields ==>
              r.write.value.fields["skin_type"] == Get(body.value, "skinType").value
    ensures r.write.Some? && "status" in r.write.value.fields ==>
              r.write.value.fields["status"] == Get(body.value, "status").value
    ensures r.write.Some? && "answers" in r.write.value.fields ==>
              r.write.value.fields["answers"] == Get(body.value, "answers").value
    ensures r.write.Some? ==>
              match update(r.write.value)
              case DbFailed(m) => r.reply == Refused(UpdateFailed(m))
              case Answered(d) => r.reply == if Truthy(d) then Found(d) else Refused(NotFound)
  {
    if body.Throws? {
      return Handled(Refused(UnexpectedError), None);
    }
    var id := SurveyId(param);
    if id.None? {
      return Handled(Refused(InvalidSurveyId), None);
    }
    var patch := BuildUpdateData(body.value, now);
    if patch.Throws? {
      return Handled(Refused(UnexpectedError), None);
    }
    var w := Write(id.value, patch.value);
    match update(w)
    case DbFailed(m) =>
      r := Handled(Refused(UpdateFailed(m)), Some(w));
    case Answered(d) =>
      r := Handled(if Truthy(d) then Found(d) else Refused(NotFound), Some(w));
  }

  // ---------------------------------------------------------------------------
  // GET /survey/:surveyId and GET /recommendation/:surveyId
  // ---------------------------------------------------------------------------

  /** The shared lookup: the id check, then the database's answer. */
  function Lookup(param: string, query: nat -> DbResult): (r: Reply)
    ensures SurveyId(param).None? <==> r == Refused(InvalidSurveyId)
    ensures r.Found? <==> SurveyId(param).Some? && query(SurveyId(param).value).Answered? &&
                          Truthy(query(SurveyId(param).value).data)
    ensures r.Found? ==> r.data == query(SurveyId(param).value).data
  {
    match SurveyId(param)
    case None => Refused(InvalidSurveyId)
    case Some(id) =>
      match query(id)
      case DbFailed(m) => Refused(QueryFailed(m))
      case Answered(d) => if Truthy(d) then Found(d) else Refused(NotFound)
  }

  /** GET /survey/:surveyId. */
  function GetSurvey(param: string, query: nat -> DbResult): Reply {
    Lookup(param, query)
  }

  /** GET /recommendation/:surveyId: also says whether a recipe is stored. */
  function GetRecommendation(param: string, query: nat -> DbResult): (r: Reply)
    ensures r.FoundRecommendation? <==> GetSurvey(param, query).Found?
    ensures r.FoundRecommendation? ==>
              r.data == GetSurvey(param, query).data &&
              (r.hasRecommendation <==> Present(Get(r.data, "recommendation")))
    ensures !r.FoundRecommendation? ==> r == GetSurvey(param, query)
  {
    var found := Lookup(param, query);
    if found.Found? then FoundRecommendation(found.data, Present(Get(found.data, "recommendation")))
    else found
  }

  /** A refused id is never looked up: both lookups answer the same for
      every database. */
  lemma LookupIgnoresStoreOnBadId(param: string, q1: nat -> DbResult, q2: nat -> DbResult)
    requires SurveyId(param).None?
    ensures GetSurvey(param, q1) == GetSurvey(param, q2) == Refused(InvalidSurveyId)
    ensures GetRecommendation(param, q1) == GetRecommendation(param, q2) == Refused(InvalidSurveyId)
  {
  }

  // ---------------------------------------------------------------------------
  // POST /ai-recommendation
  // ---------------------------------------------------------------------------

  /** `validateRecipe`: the parsed recommendation needs a `recipe` array and a
      `descriptions` object, and summing the percentages reads every item.
      A total other than 100 is only logged. */
  function CheckRecipe(parsed: Option<Json>): (r: Option<RecipeFault>)
    ensures r.None? <==>
              parsed.Some? && !parsed.value.JNull? &&
              Present(Get(parsed.value, "recipe")) && Get(parsed.value, "recipe").value.JArr? &&
              JNull !in Get(parsed.value, "recipe").value.items &&
              Present(Get(parsed.value, "descriptions")) &&
              (Get(parsed.value, "descriptions").value.JObj? || Get(parsed.value, "descriptions").value.JArr?)
  {
    match parsed
    case None => Some(Unparsable)
    case Some(d) =>
      if d.JNull? then Some(Unreadable)
      else
        var recipe := Get(d, "recipe");
        var descriptions := Get(d, "descriptions");
        if !Present(recipe) || !recipe.value.JArr? then Some(RecipeArrayRequired)
        // `typeof` answers 'object' for arrays as well
        else if !Present(descriptions) || !(descriptions.value.JObj? || descriptions.value.JArr?) then
          Some(DescriptionsRequired)
        // `item.percentage || 0` reads a property of every item
        else if JNull in recipe.value.items then Some(Unreadable)
        else None
  }

  /** The percentages never decide: any recipe array without `null` items,
      next to a `descriptions` object, passes the check, whatever its items'
      percentages add up to. */
  lemma PercentageTotalOnlyWarns(items: seq<Json>, descriptions: map<string, Json>, rest: map<string, Json>)
    requires JNull !in items
    ensures CheckRecipe(Some(JObj(rest["recipe" := JArr(items)]["descriptions" := JObj(descriptions)]))).None?
  {
    var fields := rest["recipe" := JArr(items)]["descriptions" := JObj(descriptions)];
    assert Get(JObj(fields), "recipe") == Some(JArr(items));
    assert Get(JObj(fields), "descriptions") == Some(JObj(descriptions));
  }

  /** The update of a stored recipe. */
  function RecommendationWrite(id: nat, recommendation: Json, now: string): (w: Write)
    ensures w.id == id && w.fields.Keys == {"recommendation", "status", "updated_at"}
    ensures w.fields["recommendation"] == recommendation && w.fields["status"] == JStr("completed_ai")
  {
    Write(id, map["recommendation" := recommendation, "status" := JStr("completed_ai"), "updated_at" := JStr(now)])
  }

  /** POST /ai-recommendation. `parse` is `JSON.parse` (None when it throws);
      the checks run in the order: fields present, recipe shape, id format. */
  function SaveRecommendation(body: Outcome<Json>, parse: string -> Option<Json>, showNum: real -> string,
                              now: string, update: Write -> DbResult): (r: Handled<Write>)
    ensures body.Throws? ==> r == Handled(Refused(InvalidJson), None)
    ensures r.write.Some? ==>
              body.Returns? &&
              var sid := Get(body.value, "surveyId");
              var rec := Get(body.value, "recommendation");
              Present(sid) && Present(rec) &&
              CheckRecipe(parse(ToJsString(rec.value, showNum))).None? &&
              SurveyId(ToJsString(sid.value, showNum)).Some? &&
              r.write.value == RecommendationWrite(SurveyId(ToJsString(sid.value, showNum)).value, rec.value, now)
    ensures body.Returns? && !body.value.JNull? &&
            Present(Get(body.value, "surveyId")) && Present(Get(body.value, "recommendation")) &&
            CheckRecipe(parse(ToJsString(Get(body.value, "recommendation").value, showNum))).None? &&
            SurveyId(ToJsString(Get(body.value, "surveyId").value, showNum)).Some? ==>
              r.write == Some(RecommendationWrite(SurveyId(ToJsString(Get(body.value, "surveyId").value, showNum)).value,
                                                  Get(body.value, "recommendation").value, now))
    ensures r.reply.Found? <==> r.write.Some? && update(r.write.value).Answered?
  {
    match body
    case Throws => Handled(Refused(InvalidJson), None)
    case Returns(b) =>
      if b.JNull? then Handled(Refused(ServerError), None)
      else
        var sid := Get(b, "surveyId");
        var rec := Get(b, "recommendation");
        if !Present(sid) || !Present(rec) then Handled(Refused(FieldsRequired), None)
        else
          match CheckRecipe(parse(ToJsString(rec.value, showNum)))
          case Some(fault) => Handled(Refused(BadRecipe(fault)), None)
          case None =>
            match SurveyId(ToJsString(sid.value, showNum))
            case None => Handled(Refused(InvalidSurveyId), None)
            case Some(id) =>
              var w := RecommendationWrite(id, rec.value, now);
              match update(w)
              case DbFailed(m) => Handled(Refused(RecommendationNotSaved(m)), Some(w))
              case Answered(d) => Handled(Found(d), Some(w))
  }

  /** Missing fields are reported before the recipe is looked at. */
  lemma FieldsCheckedFirst(b: Json, parse: string -> Option<Json>, showNum: real -> string,
                           now: string, update: Write -> DbResult)
    requires !b.JNull? && !(Present(Get(b, "surveyId")) && Present(Get(b, "recommendation")))
    ensures SaveRecommendation(Returns(b), parse, showNum, now, update) == Handled(Refused(FieldsRequired), None)
  {
  }

  /** A bad recipe is reported even when the id is malformed too: the id
      format is checked last. */
  lemma RecipeCheckedBeforeId(b: Json, parse: string -> Option<Json>, showNum: real -> string,
                              now: string, update: Write -> DbResult)
    requires !b.JNull? && Present(Get(b, "surveyId")) && Present(Get(b, "recommendation"))
    requires CheckRecipe(parse(ToJsString(Get(b, "recommendation").value, showNum))).Some?
    ensures SaveRecommendation(Returns(b), parse, showNum, now, update)
            == Handled(Refused(BadRecipe(CheckRecipe(parse(ToJsString(Get(b, "recommendation").value, showNum))).value)), None)
  {
  }

  /** With the fields present and the recipe sound, the id decides between
      a refusal and the write. */
  lemma IdCheckedLast(b: Json, parse: string -> Option<Json>, showNum: real -> string,
                      now: string, update: Write -> DbResult)
    requires !b.JNull? && Present(Get(b, "surveyId")) && Present(Get(b, "recommendation"))
    requires CheckRecipe(parse(ToJsString(Get(b, "recommendation").value, showNum))).None?
    ensures var r := SaveRecommendation(Returns(b), parse, showNum, now, update);
            SurveyId(ToJsString(Get(b, "surveyId").value, showNum)).None? <==> r == Handled(Refused(InvalidSurveyId), None)
    ensures var r := SaveRecommendation(Returns(b), parse, showNum, now, update);
            var id := SurveyId(ToJsString(Get(b, "surveyId").value, showNum));
            id.Some? ==>
              r.write == Some(RecommendationWrite(id.value, Get(b, "recommendation").value, now)) &&
              r.reply == match update(r.write.value)
                         case DbFailed(m) => Refused(RecommendationNotSaved(m))
                         case Answered(d) => Found(d)
  {
  }

  /** A recipe stored this way is reported by the recommendation lookup of
      a database that kept the write. */
  lemma StoredRecipeIsReported(id: nat, recommendation: Json, now: string, row: map<string, Json>,
                               query: nat -> DbResult)
    requires Truthy(recommendation)
    requires query(id) == Answered(JObj(row + RecommendationWrite(id, recommendation, now).fields))
    ensures GetRecommendation(IntString(id), query).FoundRecommendation? || id == 0
    ensures id > 0 ==> GetRecommendation(IntString(id), query).hasRecommendation
  {
    if id > 0 {
      SurveyIdOfPrinted(id);
      var fields := RecommendationWrite(id, recommendation, now).fields;
      var data := JObj(row + fields);
      assert "recommendation" in fields && (row + fields)["recommendation"] == recommendation;
      assert Get(data, "recommendation") == Some(recommendation);
      LookupFinds(IntString(id), query, id, data);
    }
  }

  lemma LookupFinds(param: string, query: nat -> DbResult, id: nat, data: Json)
    requires SurveyId(param) == Some(id) && query(id) == Answered(data) && Truthy(data)
    ensures GetRecommendation(param, query) == FoundRecommendation(data, Present(Get(data, "recommendation")))
  {
  }
}
