/**
  The survey-completion screen (components/SurveyComplete.tsx): a two-second
  acknowledgement, the progress animation, the wait for the AI
  recommendation, and the view that follows (report hand-off, error with
  retry, or progress).

  The poller `waitForAIRecommendation` and `JSON.parse` are parameters; the
  interval timer is abstracted into the number of ticks that fire during each
  step.
*/
module SurveyComplete {
  import opened Wrappers
  import opened Ecma
  import opened SkinTypeMapping
  import opened Progress
  import opened AiResult
  import opened RecipeReport
  import opened Placeholders

  /** The callbacks a view hands back to the application. */
  datatype Callback = OnRestart | OnShowAIReport(report: Report)

  /** What the screen renders. */
  datatype View =
    | ReportReady(report: Report)          // "레시피가 완성되었어요!", report handed over after 500 ms
    | ErrorView(message: Json)             // message and a retry button
    | InitialMessage(userName: string)     // "설문이 완료되었어요"
    | Processing(caption: string, progress: real)
    | RenderError                          // the classifier threw while rendering

  /** The callbacks a view can trigger: the scheduled report hand-off, and the
      retry button of the error view. */
  function Callbacks(v: View): seq<Callback> {
    match v
    case ReportReady(r) => [OnShowAIReport(r)]
    case ErrorView(_) => [OnRestart]
    case _ => []
  }

  /** `steps[currentStep]?.text || '처리 중이에요'`. */
  function Caption(step: nat): string {
    if step < |Steps| then Steps[step].text else "처리 중이에요"
  }

  /** The render function of the screen. */
  function Render(userName: string, answers: Option<SurveyAnswers>, hasReportHandler: bool,
                  showInitialMessage: bool, currentStep: nat, loadingProgress: real, aiResult: Json): View
  {
    if Truthy(aiResult) && !IsError(aiResult) && hasReportHandler then
      match DetermineSkinType(Some(aiResult), answers)
      case Returns(c) => ReportReady(ReportOf(userName, c))
      case Throws => RenderError
    else if Truthy(aiResult) && !IsError(aiResult) && DetermineSkinType(Some(aiResult), answers).Throws? then
      RenderError
    else if IsError(aiResult) then
      ErrorView(if Present(Get(aiResult, "message")) then Get(aiResult, "message").value else JStr("다시 시도해주세요"))
    else if showInitialMessage then InitialMessage(userName)
    else Processing(Caption(currentStep), loadingProgress)
  }

  /** When the wait delivers no recommendation the screen shows the error
      view with the message of the cause, and its only callback is restart. */
  lemma RenderFailure(userName: string, answers: Option<SurveyAnswers>, hasReportHandler: bool,
                      showInitialMessage: bool, currentStep: nat, loadingProgress: real,
                      surveyId: Option<string>, wait: Outcome<PollResult>, parse: string -> Option<Json>)
    requires Delivered(surveyId, wait, parse).None?
    ensures var v := Render(userName, answers, hasReportHandler, showInitialMessage, currentStep, loadingProgress,
                            ProcessingResult(surveyId, wait, parse));
      v.ErrorView? && Callbacks(v) == [OnRestart] &&
      v.message == JStr(if !HasId(surveyId) then MissingIdMessage
                        else if wait.Throws? then ExceptionMessage
                        else FailureMessage)
  {
    ProcessingResultError(surveyId, wait, parse);
    var r := ProcessingResult(surveyId, wait, parse);
    assert Get(r, "message").Some? && Get(r, "message").value.JStr?;
  }

  /** A result that is not an error, with a report handler, is handed over as
      the report of its category, whose title is that category's. */
  lemma RenderHandOff(userName: string, answers: Option<SurveyAnswers>,
                      showInitialMessage: bool, currentStep: nat, loadingProgress: real, aiResult: Json)
    requires Truthy(aiResult) && !IsError(aiResult)
    requires DetermineSkinType(Some(aiResult), answers).Returns?
    ensures var v := Render(userName, answers, true, showInitialMessage, currentStep, loadingProgress, aiResult);
      v == ReportReady(ReportOf(userName, DetermineSkinType(Some(aiResult), answers).value)) &&
      Callbacks(v) == [OnShowAIReport(v.report)]
  {
  }

  /** A recommendation that arrived as text is handed over as the plain
      hydration recipe, titled '보습', whatever the text and the answers say. */
  lemma RenderTextRecommendation(userName: string, answers: Option<SurveyAnswers>, showInitialMessage: bool,
                                 currentStep: nat, loadingProgress: real, raw: Json, parse: string -> Option<Json>)
    requires raw.JStr? && !(LooksLikeJson(raw) && parse(raw.s).Some?)
    ensures var v := Render(userName, answers, true, showInitialMessage, currentStep, loadingProgress, Interpret(raw, parse));
      v == ReportReady(ReportOf(userName, Hydration)) && v.report.RecipeTitle() == "보습"
  {
    TextRecommendationIsHydration(raw, parse, answers);
    var r := Interpret(raw, parse);
    WrapperFields(raw.s);
    assert r == Degraded(raw.s) || r == Markdown(raw.s);
    assert Truthy(r) && !IsError(r);
    RenderHandOff(userName, answers, showInitialMessage, currentStep, loadingProgress, r);
    assert ReportOf(userName, Hydration).RecipeTitle() == DesignOf(Hydration).title;
  }

  /** Without a report handler a successful result leaves the screen on the
      acknowledgement or the progress view. */
  lemma RenderWithoutHandler(userName: string, answers: Option<SurveyAnswers>,
                             showInitialMessage: bool, currentStep: nat, loadingProgress: real, aiResult: Json)
    requires !IsError(aiResult) && DetermineSkinType(Some(aiResult), answers).Returns?
    ensures var v := Render(userName, answers, false, showInitialMessage, currentStep, loadingProgress, aiResult);
      Callbacks(v) == [] &&
      v == (if showInitialMessage then InitialMessage(userName) else Processing(Caption(currentStep), loadingProgress))
  {
  }

  /** Before a result arrives the screen shows the acknowledgement, then the
      caption of the current step with the bar. */
  lemma RenderWaiting(userName: string, answers: Option<SurveyAnswers>, hasReportHandler: bool,
                      showInitialMessage: bool, currentStep: nat, loadingProgress: real)
    ensures var v := Render(userName, answers, hasReportHandler, showInitialMessage, currentStep, loadingProgress, JNull);
      Callbacks(v) == [] &&
      (showInitialMessage ==> v == InitialMessage(userName)) &&
      (!showInitialMessage && currentStep < |Steps| ==> v == Processing(Steps[currentStep].text, loadingProgress))
  {
  }

  /** The screen's state; the props are fixed for its lifetime. */
  class CompletionScreen {
    const userName: string
    const answers: Option<SurveyAnswers>
    const surveyId: Option<string>
    const hasReportHandler: bool

    var showInitialMessage: bool
    var currentStep: nat
    var loadingProgress: real
    var aiResult: Json
    /** Every value the progress bar has shown, oldest first. */
    ghost var shown: seq<real>
    /** The calls made to the poller: survey id and attempt budget. */
    ghost var waitCalls: seq<(string, nat)>

    /** The progress bar never moves backwards and the last value shown is
        the current one. */
    ghost predicate Valid()
      reads this
    {
      |shown| > 0 && shown[|shown| - 1] == loadingProgress &&
      (forall a, b :: 0 <= a < b < |shown| ==> shown[a] <= shown[b])
    }

    constructor(userName: string, answers: Option<SurveyAnswers>, surveyId: Option<string>, hasReportHandler: bool)
      ensures this.userName == userName && this.answers == answers
      ensures this.surveyId == surveyId && this.hasReportHandler == hasReportHandler
      ensures showInitialMessage && currentStep == 0 && loadingProgress == 0.0 && aiResult == JNull
      ensures shown == [0.0] && waitCalls == []
      ensures Valid()
    {
      this.userName := userName;
      this.answers := answers;
      this.surveyId := surveyId;
      this.hasReportHandler := hasReportHandler;
      showInitialMessage := true;
      currentStep := 0;
      loadingProgress := 0.0;
      aiResult := JNull;
      shown := [0.0];
      waitCalls := [];
    }

    function View(): View
      reads this
    {
      Render(userName, answers, hasReportHandler, showInitialMessage, currentStep, loadingProgress, aiResult)
    }

    /** `timer1`: after two seconds the acknowledgement gives way to the
        progress view. */
    method AcknowledgementElapsed()
      modifies this
      ensures !showInitialMessage
      ensures currentStep == old(currentStep) && loadingProgress == old(loadingProgress)
      ensures aiResult == old(aiResult) && shown == old(shown) && waitCalls == old(waitCalls)
    {
      showInitialMessage := false;
    }

    /** One interval tick within step `i`; it also updates the bar. */
    method Ticked(i: nat, start: real, total: real) returns (newTotal: real, cleared: bool)
      requires Valid() && i < |Steps| && 0.0 <= start <= total <= Target(i) && total == loadingProgress
      modifies this
      ensures Valid() && total <= newTotal <= Target(i) && loadingProgress == newTotal
      ensures (newTotal, cleared) == Tick(i, start, total)
      ensures shown == old(shown) + [newTotal]
      ensures showInitialMessage == old(showInitialMessage) && currentStep == old(currentStep)
      ensures aiResult == old(aiResult) && waitCalls == old(waitCalls)
    {
      StepSchedule();
      newTotal, cleared := Tick(i, start, total).0, Tick(i, start, total).1;
      // setLoadingProgress(Math.min(totalProgress, 80))
      loadingProgress := if newTotal <= 80.0 then newTotal else 80.0;
      shown := shown + [loadingProgress];
    }

    /** The five steps of `startProcessing`. `ticks[i]` is the number of
        interval ticks that fire before step `i`'s timeout. The bar only
        moves forwards and never passes 80 %. */
    method Animate(ticks: seq<nat>)
      requires Valid() && |ticks| == |Steps| && loadingProgress == 0.0
      modifies this
      ensures Valid() && old(shown) <= shown && loadingProgress <= 80.0
      ensures forall k :: |old(shown)| <= k < |shown| ==> shown[k] <= 80.0
      ensures currentStep == |Steps| - 1 && showInitialMessage == old(showInitialMessage)
      ensures aiResult == old(aiResult) && waitCalls == old(waitCalls)
    {
      StepSchedule();
      var total: real := 0.0;
      var i := 0;
      while i < |Steps|
        invariant 0 <= i <= |Steps|
        invariant Valid() && old(shown) <= shown
        invariant 0.0 <= total == loadingProgress
        invariant i == 0 ==> total == 0.0
        invariant i > 0 ==> total <= Target(i - 1) && currentStep == i - 1
        invariant forall k :: |old(shown)| <= k < |shown| ==> shown[k] <= 80.0
        invariant showInitialMessage == old(showInitialMessage)
        invariant aiResult == old(aiResult) && waitCalls == old(waitCalls)
      {
        currentStep := i;
        var start := total;
        var t := 0;
        var cleared := false;
        while t < ticks[i] && !cleared
          invariant Valid() && old(shown) <= shown
          invariant start <= total <= Target(i) && total == loadingProgress
          invariant forall k :: |old(shown)| <= k < |shown| ==> shown[k] <= 80.0
          invariant currentStep == i && showInitialMessage == old(showInitialMessage)
          invariant aiResult == old(aiResult) && waitCalls == old(waitCalls)
        {
          total, cleared := Ticked(i, start, total);
          t := t + 1;
        }
        i := i + 1;
      }
    }

    /** The tail of `startProcessing`: the wait for the recommendation (one
        call with a budget of 15 attempts when there is an id), the jump to
        100 % once the wait returns, and the result stored in `aiResult`. */
    method Receive(wait: Outcome<PollResult>, parse: string -> Option<Json>)
      requires Valid() && loadingProgress <= 80.0
      modifies this
      ensures Valid() && old(shown) <= shown
      ensures aiResult == ProcessingResult(surveyId, wait, parse)
      ensures HasId(surveyId) ==> waitCalls == old(waitCalls) + [(surveyId.value, 15)]
      ensures !HasId(surveyId) ==> waitCalls == old(waitCalls)
      ensures HasId(surveyId) && wait.Returns? ==> loadingProgress == 100.0 && shown == old(shown) + [100.0]
      ensures !(HasId(surveyId) && wait.Returns?) ==> loadingProgress == old(loadingProgress) && shown == old(shown)
      ensures currentStep == old(currentStep) && showInitialMessage == old(showInitialMessage)
    {
      if HasId(surveyId) {
        waitCalls := waitCalls + [(surveyId.value, 15)];
        match wait {
          case Throws =>
            aiResult := ErrorResult(ExceptionMessage);
          case Returns(res) =>
            loadingProgress := 100.0;
            shown := shown + [100.0];
            if res.success && Present(res.recommendation) {
              aiResult := Interpret(res.recommendation.value, parse);
            } else {
              aiResult := ErrorResult(FailureMessage);
            }
        }
      } else {
        aiResult := ErrorResult(MissingIdMessage);
      }
    }

    /** `startProcessing`: the animation, then the wait; `wait` is the poller's
        outcome and `parse` is `JSON.parse`. */
    method StartProcessing(ticks: seq<nat>, wait: Outcome<PollResult>, parse: string -> Option<Json>)
      requires Valid() && |ticks| == |Steps| && loadingProgress == 0.0
      modifies this
      ensures Valid() && old(shown) <= shown
      ensures aiResult == ProcessingResult(surveyId, wait, parse)
      ensures currentStep == |Steps| - 1
      ensures showInitialMessage == old(showInitialMessage)
      ensures HasId(surveyId) ==> waitCalls == old(waitCalls) + [(surveyId.value, 15)]
      ensures !HasId(surveyId) ==> waitCalls == old(waitCalls)
      ensures HasId(surveyId) && wait.Returns? ==> loadingProgress == 100.0
      ensures !(HasId(surveyId) && wait.Returns?) ==> loadingProgress <= 80.0
      ensures forall k :: |old(shown)| <= k < |shown| - 1 ==> shown[k] <= 80.0
    {
      Animate(ticks);
      Receive(wait, parse);
    }

    /** The whole `timer1` callback: the acknowledgement is hidden first, then
        the processing starts. */
    method AcknowledgementTimer(ticks: seq<nat>, wait: Outcome<PollResult>, parse: string -> Option<Json>)
      requires Valid() && |ticks| == |Steps| && loadingProgress == 0.0
      modifies this
      ensures Valid() && !showInitialMessage && old(shown) <= shown
      ensures aiResult == ProcessingResult(surveyId, wait, parse)
      ensures currentStep == |Steps| - 1
      ensures HasId(surveyId) ==> waitCalls == old(waitCalls) + [(surveyId.value, 15)]
      ensures !HasId(surveyId) ==> waitCalls == old(waitCalls)
      ensures HasId(surveyId) && wait.Returns? ==> loadingProgress == 100.0
      ensures !(HasId(surveyId) && wait.Returns?) ==> loadingProgress <= 80.0
    {
      AcknowledgementElapsed();
      StartProcessing(ticks, wait, parse);
    }
  }
}
