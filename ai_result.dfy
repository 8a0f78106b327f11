/**
  How the survey-completion screen (components/SurveyComplete.tsx) reads what
  the wait for the AI recommendation delivers: a parsed object, a text wrapped
  as Markdown, a text that looked like JSON but did not parse, or an error
  record. `JSON.parse` is a parameter whose `None` stands for a throw.
*/
module AiResult {
  import opened Wrappers
  import opened Ecma

  /** The poller's answer: `result.success` and `result.data?.recommendation`. */
  datatype PollResult = PollResult(success: bool, recommendation: Option<Json>)

  const MarkdownSummary := "맞춤형 화장품 레시피가 생성되었습니다."
  const DegradedSummary := "레시피가 생성되었지만 형식 처리 중 문제가 발생했습니다."
  const FailureMessage := "레시피 생성에 실패했습니다. 다시 시도해주세요."
  const MissingIdMessage := "설문 ID를 찾을 수 없습니다."
  const ExceptionMessage := "처리 중 오류가 발생했습니다."

  /** The wrapper given to a recommendation in Markdown. */
  function Markdown(content: string): Json {
    JObj(map["isMarkdown" := JBool(true), "content" := JStr(content), "summary" := JStr(MarkdownSummary)])
  }

  /** The wrapper given to text that looked like JSON but did not parse. */
  function Degraded(content: string): Json {
    JObj(map["isMarkdown" := JBool(true), "content" := JStr(content),
             "summary" := JStr(DegradedSummary), "error" := JBool(false)])
  }

  function ErrorResult(message: string): Json {
    JObj(map["error" := JBool(true), "message" := JStr(message)])
  }

  /** `typeof raw === 'string' && raw.trim().startsWith('{')`. */
  predicate LooksLikeJson(raw: Json) {
    raw.JStr? && StartsWith(Trim(raw.s), "{")
  }

  /** The recommendation as it is stored in `aiResult`; `parse` is `JSON.parse`,
      with `None` for a throw. */
  function Interpret(raw: Json, parse: string -> Option<Json>): (r: Json)
    ensures LooksLikeJson(raw) && parse(raw.s).Some? ==> r == parse(raw.s).value
    ensures LooksLikeJson(raw) && parse(raw.s).None? ==> r == Degraded(raw.s)
    ensures raw.JStr? && !LooksLikeJson(raw) ==> r == Markdown(raw.s)
    ensures !raw.JStr? ==> r == raw
  {
    match raw
    case JStr(s) =>
      if StartsWith(Trim(s), "{") then
        (match parse(s) case Some(j) => j case None => Degraded(s))
      else Markdown(s)
    case _ => raw
  }

  /** `surveyId` as a JavaScript condition: present and not empty. */
  predicate HasId(surveyId: Option<string>) {
    surveyId.Some? && surveyId.value != ""
  }

  /** The value `startProcessing` leaves in `aiResult`. */
  function ProcessingResult(surveyId: Option<string>, wait: Outcome<PollResult>,
                            parse: string -> Option<Json>): Json
  {
    if !HasId(surveyId) then ErrorResult(MissingIdMessage)
    else match wait
      case Throws => ErrorResult(ExceptionMessage)
      case Returns(res) =>
        if res.success && Present(res.recommendation) then Interpret(res.recommendation.value, parse)
        else ErrorResult(FailureMessage)
  }

  /** `aiResult && aiResult.error`: the result is shown as an error. */
  predicate IsError(v: Json) {
    Truthy(v) && Present(Get(v, "error"))
  }

  /** What the wait delivers, when it delivers a recommendation. */
  function Delivered(surveyId: Option<string>, wait: Outcome<PollResult>,
                     parse: string -> Option<Json>): Option<Json>
  {
    if HasId(surveyId) && wait.Returns? && wait.value.success && Present(wait.value.recommendation)
    then Some(Interpret(wait.value.recommendation.value, parse))
    else None
  }

  /** The result is an error exactly when the id is missing, the wait throws or
      fails, or the delivered value itself carries a truthy `error`; a
      text recommendation is never an error, whether or not it parses. */
  lemma ProcessingResultError(surveyId: Option<string>, wait: Outcome<PollResult>,
                              parse: string -> Option<Json>)
    ensures var r := ProcessingResult(surveyId, wait, parse);
      IsError(r) <==> Delivered(surveyId, wait, parse).None? || IsError(Delivered(surveyId, wait, parse).value)
    ensures !HasId(surveyId) ==> ProcessingResult(surveyId, wait, parse) == ErrorResult(MissingIdMessage)
    ensures HasId(surveyId) && wait.Throws? ==> ProcessingResult(surveyId, wait, parse) == ErrorResult(ExceptionMessage)
    ensures HasId(surveyId) && wait.Returns? && Delivered(surveyId, wait, parse).None? ==>
      ProcessingResult(surveyId, wait, parse) == ErrorResult(FailureMessage)
    ensures HasId(surveyId) && wait.Returns? && wait.value.success && Present(wait.value.recommendation) &&
      wait.value.recommendation.value.JStr? &&
      !(LooksLikeJson(wait.value.recommendation.value) && parse(wait.value.recommendation.value.s).Some?)
      ==> !IsError(ProcessingResult(surveyId, wait, parse))
  {
    var e := ErrorResult("");
    assert forall m :: Get(ErrorResult(m), "error") == Some(JBool(true));
    if Delivered(surveyId, wait, parse).Some? {
      var raw := wait.value.recommendation.value;
      if raw.JStr? && !LooksLikeJson(raw) {
        assert "error" !in Markdown(raw.s).fields;
      }
    }
  }
}
