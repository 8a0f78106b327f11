/**
  The screen flow of the application (src/App.tsx): a closed set of screens,
  the handlers that move between them, the survey answers merged part by
  part, and the branches on the outcomes of creating and updating the survey
  row.

  `createSurvey`, `updateSurvey` and `updateDatabaseSchema` are calls into
  code outside this model: their outcomes are parameters of the events, and
  the calls themselves are recorded. `JSON.stringify` is a parameter.
*/
module AppFlow {
  import opened Wrappers
  import opened Ecma
  import opened RecipeReport

  // ---------------------------------------------------------------------------
  // State
  // ---------------------------------------------------------------------------

  const Parts: nat := 7

  /** `Screen`; `PartIntro(n)` is `partN` and `PartQuestions(n)` is
      `partNQuestions`. */
  datatype Screen =
    | Start | Intro | Guide | UserInfoForm | Result
    | PartIntro(n: nat) | PartQuestions(n: nat)
    | SurveyComplete | AiReportPreview | SkinTypePreview

  datatype UserInfo = UserInfo(name: string, age: string)

  /** Survey answers by question key. */
  type Answers = map<string, Json>

  datatype SurveyData = SurveyData(userInfo: UserInfo, answers: Answers)

  /** The `useState` fields; `None` is the `null` recommendation. */
  datatype AppState = AppState(screen: Screen, userInfo: UserInfo, surveyData: SurveyData,
                               surveyId: string, aiRecommendation: Option<Report>)

  const NoUser := UserInfo("", "")

  const Initial := AppState(Start, NoUser, SurveyData(NoUser, map[]), "", None)

  /** What `createSurvey` resolves to. */
  datatype CreateResult = CreateResult(success: bool, surveyId: Option<string>, error: Option<string>)

  /** What `updateSurvey` resolves to. */
  datatype UpdateResult = UpdateResult(success: bool, error: Option<string>)

  /** The patch sent with `updateSurvey`. */
  datatype UpdatePayload = UpdatePayload(skinType: Json, status: string, answers: string)

  /** The calls the application makes into the storage layer. */
  datatype Call = CreateSurvey(info: UserInfo) | UpdateSurvey(id: string, payload: UpdatePayload) | UpdateSchema

  // ---------------------------------------------------------------------------
  // Answers
  // ---------------------------------------------------------------------------

  /** `{ ...prev, ...next }`: the keys of both, and the new value wherever the
      new answers have one. */
  function Merge(prev: Answers, next: Answers): (r: Answers)
    ensures r.Keys == prev.Keys + next.Keys
    ensures forall k :: k in next ==> r[k] == next[k]
    ensures forall k :: k in prev && k !in next ==> r[k] == prev[k]
  {
    prev + next
  }

  /** The answers after merging each batch in turn. */
  function MergeAll(a: Answers, batches: seq<Answers>): Answers
    decreases |batches|
  {
    if batches == [] then a else MergeAll(Merge(a, batches[0]), batches[1..])
  }

  /** A key that no batch answers keeps its old value, or stays absent. */
  lemma {:induction false} MergeAllUntouched(a: Answers, batches: seq<Answers>, k: string)
    requires forall i :: 0 <= i < |batches| ==> k !in batches[i]
    ensures k in MergeAll(a, batches) <==> k in a
    ensures k in a ==> MergeAll(a, batches)[k] == a[k]
    decreases |batches|
  {
    if batches != [] {
      var rest := batches[1..];
      forall i | 0 <= i < |rest| ensures k !in rest[i] {
        assert rest[i] == batches[i + 1];
      }
      MergeAllUntouched(Merge(a, batches[0]), rest, k);
    }
  }

  /** A key holds the value of the last batch that answers it. */
  lemma {:induction false} MergeAllLastWins(a: Answers, batches: seq<Answers>, k: string, i: nat)
    requires i < |batches| && k in batches[i]
    requires forall j :: i < j < |batches| ==> k !in batches[j]
    ensures k in MergeAll(a, batches) && MergeAll(a, batches)[k] == batches[i][k]
    decreases |batches|
  {
    var rest := batches[1..];
    if i == 0 {
      forall j | 0 <= j < |rest| ensures k !in rest[j] {
        assert rest[j] == batches[j + 1];
      }
      MergeAllUntouched(Merge(a, batches[0]), rest, k);
    } else {
      forall j | i - 1 < j < |rest| ensures k !in rest[j] {
        assert rest[j] == batches[j + 1];
      }
      MergeAllLastWins(Merge(a, batches[0]), rest, k, i - 1);
    }
  }

  /** `answers.skin_type || ''`. */
  function SkinTypeField(answers: Answers): (r: Json)
    ensures "skin_type" in answers && Truthy(answers["skin_type"]) ==> r == answers["skin_type"]
    ensures !("skin_type" in answers && Truthy(answers["skin_type"])) ==> r == JStr("")
  {
    if "skin_type" in answers && Truthy(answers["skin_type"]) then answers["skin_type"] else JStr("")
  }

  /** The patch of `handleSurveyComplete`. */
  function Payload(answers: Answers, stringify: Answers -> string): (p: UpdatePayload)
    ensures p.status == "completed" && p.answers == stringify(answers)
    ensures Truthy(p.skinType) || p.skinType == JStr("")
  {
    UpdatePayload(SkinTypeField(answers), "completed", stringify(answers))
  }

  /** The skin type handed to the report screen: the first element of an
      array (or '' when that is falsy), otherwise the value or ''. */
  function ReportSkinType(answers: Answers): (r: Json)
    ensures ("skin_type" in answers && answers["skin_type"].JArr? && |answers["skin_type"].items| > 0 &&
             Truthy(answers["skin_type"].items[0])) ==> r == answers["skin_type"].items[0]
    ensures ("skin_type" in answers && answers["skin_type"].JArr? &&
             (|answers["skin_type"].items| == 0 || !Truthy(answers["skin_type"].items[0]))) ==> r == JStr("")
    ensures !("skin_type" in answers && answers["skin_type"].JArr?) ==> r == SkinTypeField(answers)
  {
    if "skin_type" in answers && answers["skin_type"].JArr? then
      var items := answers["skin_type"].items;
      if |items| > 0 && Truthy(items[0]) then items[0] else JStr("")
    else SkinTypeField(answers)
  }

  /** The two skin-type derivations agree except on arrays, where the patch
      sends the whole array and the report screen its first element. */
  lemma SkinTypeDerivations(answers: Answers)
    ensures !("skin_type" in answers && answers["skin_type"].JArr?) ==>
      ReportSkinType(answers) == Payload(answers, _ => "").skinType
    ensures "skin_type" in answers && answers["skin_type"].JArr? ==>
      Payload(answers, _ => "").skinType == answers["skin_type"]
  {
  }

  // ---------------------------------------------------------------------------
  // Events and the transition function
  // ---------------------------------------------------------------------------

  /** The handlers, with the outcomes of the calls they await. */
  datatype Event =
    | StartPressed                                    // handleStart
    | IntroDone                                       // handleIntroComplete
    | GuideDone                                       // handleGuideComplete
    | UserInfoSubmitted(data: UserInfo, create: Outcome<CreateResult>)
    | BackToGuide                                     // handleBack
    | Restart                                         // handleRestart
    | PartIntroDone(n: nat)                           // handlePartNComplete
    | QuestionsBack(n: nat)                           // SurveyFlow's onBack
    | PartAnswered(n: nat, answers: Answers)          // handlePartNQuestionsComplete, N < 7
    | LastPartAnswered(answers: Answers, update: Outcome<UpdateResult>, stringify: Answers -> string)
    | SurveyRestart                                   // handleSurveyRestart
    | ShowReport(report: Report)                      // handleShowAIReport
    | ReportBack                                      // handleAIReportBack
    | OpenPreview | ClosePreview                      // the skin-type preview

  /** `result.error?.includes('answers') || result.error?.includes('column')`. */
  predicate SchemaError(error: Option<string>) {
    error.Some? && (Includes(error.value, "answers") || Includes(error.value, "column"))
  }

  /** `handleSurveyComplete`. Without an id it returns to the start; with one
      it stores the answers and moves on unless the update failed with a
      schema error or threw. */
  function SurveyCompleted(s: AppState, answers: Answers, update: Outcome<UpdateResult>): AppState {
    if s.surveyId == "" then s.(screen := Start)
    else
      var s1 := s.(surveyData := SurveyData(s.userInfo, answers));
      match update
      case Throws => s1
      case Returns(res) =>
        if res.success then s1.(screen := SurveyComplete)
        else if SchemaError(res.error) then s1
        else s1.(screen := SurveyComplete)
  }

  /** The screen after an event. */
  function Step(s: AppState, ev: Event): AppState {
    match ev
    case StartPressed => s.(screen := Intro)
    case IntroDone => s.(screen := Guide)
    case GuideDone => s.(screen := UserInfoForm)
    case UserInfoSubmitted(data, create) =>
      (match create
       case Returns(r) =>
         if r.success && r.surveyId.Some? && r.surveyId.value != "" then
           s.(userInfo := data, surveyId := r.surveyId.value, screen := Result)
         else s
       case Throws => s)
    case BackToGuide => s.(screen := Guide)
    case Restart => s.(surveyData := SurveyData(s.userInfo, map[]), screen := PartIntro(1))
    case PartIntroDone(n) => s.(screen := PartQuestions(n))
    case QuestionsBack(n) => s.(screen := PartIntro(n))
    case PartAnswered(n, a) =>
      s.(surveyData := s.surveyData.(answers := Merge(s.surveyData.answers, a)), screen := PartIntro(n + 1))
    case LastPartAnswered(a, update, _) =>
      var final := Merge(s.surveyData.answers, a);
      SurveyCompleted(s.(surveyData := s.surveyData.(answers := final)), final, update)
    case SurveyRestart => s.(surveyData := SurveyData(s.userInfo, map[]), screen := PartIntro(1))
    case ShowReport(r) => s.(aiRecommendation := Some(r), screen := AiReportPreview)
    case ReportBack => s.(screen := SurveyComplete)
    case OpenPreview => s.(screen := SkinTypePreview)
    case ClosePreview => s.(screen := Start)
  }

  /** The calls an event makes. */
  function CallsOf(s: AppState, ev: Event): seq<Call> {
    match ev
    case UserInfoSubmitted(data, _) => [CreateSurvey(data)]
    case LastPartAnswered(a, update, stringify) =>
      var final := Merge(s.surveyData.answers, a);
      if s.surveyId == "" then []
      else
        var schema := update.Returns? && !update.value.success && SchemaError(update.value.error);
        [UpdateSurvey(s.surveyId, Payload(final, stringify))] + (if schema then [UpdateSchema] else [])
    case _ => []
  }

  /** The state after a sequence of events. */
  function Run(s: AppState, evs: seq<Event>): AppState
    decreases |evs|
  {
    if evs == [] then s else Run(Step(s, evs[0]), evs[1..])
  }

  lemma {:induction false} RunAppend(s: AppState, a: seq<Event>, b: seq<Event>)
    ensures Run(s, a + b) == Run(Run(s, a), b)
    decreases |a|
  {
    if a == [] {
      assert a + b == b;
    } else {
      assert (a + b)[0] == a[0];
      assert (a + b)[1..] == a[1..] + b;
      RunAppend(Step(s, a[0]), a[1..], b);
    }
  }

  // ---------------------------------------------------------------------------
  // What the screens offer
  // ---------------------------------------------------------------------------

  /** The events each screen's component can raise. */
  predicate Enabled(s: AppState, ev: Event) {
    match s.screen
    case Start => ev.StartPressed? || ev.OpenPreview?
    case Intro => ev.IntroDone?
    case Guide => ev.GuideDone?
    case UserInfoForm => ev.UserInfoSubmitted? || ev.BackToGuide?
    case Result => ev.Restart?
    case PartIntro(n) => ev == PartIntroDone(n)
    case PartQuestions(n) =>
      ev == QuestionsBack(n) || (n < Parts && ev.PartAnswered? && ev.n == n) || (n == Parts && ev.LastPartAnswered?)
    case SurveyComplete => ev.SurveyRestart? || ev.ShowReport?
    case AiReportPreview => s.aiRecommendation.Some? && ev.ReportBack?
    case SkinTypePreview => ev.ClosePreview?
  }

  /** Whether the report screen has anything to render. */
  predicate ReportRendered(s: AppState) {
    s.screen == AiReportPreview && s.aiRecommendation.Some?
  }

  /** What holds in every state the screens can reach. */
  predicate Reachable(s: AppState) {
    (s.screen.PartIntro? ==> 1 <= s.screen.n <= Parts) &&
    (s.screen.PartQuestions? ==> 1 <= s.screen.n <= Parts) &&
    ((s.screen in {Result, SurveyComplete, AiReportPreview} || s.screen.PartIntro? || s.screen.PartQuestions?)
       ==> s.surveyId != "") &&
    (s.screen == AiReportPreview ==> s.aiRecommendation.Some?)
  }

  /** The reachable states are closed under the events the screens raise:
      part numbers stay in 1..7, every screen after the user form has a
      survey id, and the report screen always has a report to show. */
  lemma StepPreservesReachable(s: AppState, ev: Event)
    requires Reachable(s) && Enabled(s, ev)
    ensures Reachable(Step(s, ev))
  {
  }

  lemma {:induction false} RunPreservesReachable(s: AppState, evs: seq<Event>)
    requires Reachable(s)
    requires forall i :: 0 <= i < |evs| ==> Enabled(Run(s, evs[..i]), evs[i])
    ensures Reachable(Run(s, evs))
    decreases |evs|
  {
    if evs != [] {
      assert Run(s, evs[..0]) == s;
      StepPreservesReachable(s, evs[0]);
      var rest := evs[1..];
      forall i | 0 <= i < |rest| ensures Enabled(Run(Step(s, evs[0]), rest[..i]), rest[i]) {
        assert evs[..i + 1] == [evs[0]] + rest[..i];
        RunAppend(s, [evs[0]], rest[..i]);
        assert Run(s, [evs[0]]) == Step(s, evs[0]) by {
          assert [evs[0]][1..] == [];
        }
        assert rest[i] == evs[i + 1];
      }
      RunPreservesReachable(Step(s, evs[0]), rest);
    }
  }

  /** Through the screens, the survey can only be completed with a survey id,
      so the return to the start screen in `handleSurveyComplete` is never
      taken, and the report screen never renders empty. */
  lemma MissingIdUnreachable(evs: seq<Event>, ev: Event)
    requires forall i :: 0 <= i < |evs| ==> Enabled(Run(Initial, evs[..i]), evs[i])
    requires Enabled(Run(Initial, evs), ev) && ev.LastPartAnswered?
    ensures Run(Initial, evs).surveyId != ""
    ensures Run(Initial, evs).screen == AiReportPreview ==> ReportRendered(Run(Initial, evs))
  {
    RunPreservesReachable(Initial, evs);
  }

  // ---------------------------------------------------------------------------
  // Properties of single handlers
  // ---------------------------------------------------------------------------

  /** The introduction chain, and back from the user form to the guide. */
  lemma IntroChain(s: AppState)
    requires s.screen == Start
    ensures Run(s, [StartPressed, IntroDone, GuideDone]) == s.(screen := UserInfoForm)
    ensures Run(s, [StartPressed, IntroDone, GuideDone, BackToGuide]) == s.(screen := Guide)
  {
    assert [StartPressed, IntroDone, GuideDone][1..] == [IntroDone, GuideDone];
    assert [IntroDone, GuideDone][1..] == [GuideDone];
    assert [StartPressed, IntroDone, GuideDone, BackToGuide][1..] == [IntroDone, GuideDone, BackToGuide];
    assert [IntroDone, GuideDone, BackToGuide][1..] == [GuideDone, BackToGuide];
    assert [GuideDone, BackToGuide][1..] == [BackToGuide];
  }

  /** Submitting the user form stores the user and the id and shows the result
      screen exactly when creation succeeds with an id; otherwise nothing
      changes. */
  lemma SubmitOutcome(s: AppState, data: UserInfo, create: Outcome<CreateResult>)
    ensures var t := Step(s, UserInfoSubmitted(data, create));
      (t.screen == Result <==>
        (create.Returns? && create.value.success && create.value.surveyId.Some? && create.value.surveyId.value != "") ||
        (s.screen == Result && t == s))
    ensures var t := Step(s, UserInfoSubmitted(data, create));
      t.screen == Result && s.screen != Result ==> t == s.(userInfo := data, surveyId := create.value.surveyId.value, screen := Result)
    ensures var t := Step(s, UserInfoSubmitted(data, create));
      t != s ==> t.userInfo == data && t.surveyId != ""
  {
  }

  /** Both restarts keep the user, clear the answers and open part 1. */
  lemma RestartsAgree(s: AppState)
    ensures Step(s, Restart) == Step(s, SurveyRestart)
    ensures var t := Step(s, Restart);
      t.screen == PartIntro(1) && t.surveyData == SurveyData(s.userInfo, map[]) &&
      t.userInfo == s.userInfo && t.surveyId == s.surveyId && t.aiRecommendation == s.aiRecommendation
  {
  }

  /** The events of parts `k` to `k + |batches| - 1`: open each part, then
      answer it. */
  function PartEvents(k: nat, batches: seq<Answers>): seq<Event>
    decreases |batches|
  {
    if batches == [] then [] else [PartIntroDone(k), PartAnswered(k, batches[0])] + PartEvents(k + 1, batches[1..])
  }

  /** Going through parts one by one merges each part's answers in turn and
      leaves the user, the id and the report alone. */
  lemma {:induction false} PartsMergeInOrder(s: AppState, k: nat, batches: seq<Answers>)
    requires s.screen == PartIntro(k)
    ensures var t := Run(s, PartEvents(k, batches));
      t == s.(surveyData := s.surveyData.(answers := MergeAll(s.surveyData.answers, batches)),
              screen := PartIntro(k + |batches|))
    decreases |batches|
  {
    if batches != [] {
      var evs := [PartIntroDone(k), PartAnswered(k, batches[0])];
      RunAppend(s, evs, PartEvents(k + 1, batches[1..]));
      var s1 := Step(s, PartIntroDone(k));
      assert evs[1..] == [PartAnswered(k, batches[0])];
      assert Run(s, evs) == Run(s1, [PartAnswered(k, batches[0])]);
      assert Run(s1, [PartAnswered(k, batches[0])]) == Step(s1, PartAnswered(k, batches[0])) by {
        assert [PartAnswered(k, batches[0])][1..] == [];
      }
      var s2 := Run(s, evs);
      assert s2 == s.(surveyData := s.surveyData.(answers := Merge(s.surveyData.answers, batches[0])),
                     screen := PartIntro(k + 1));
      PartsMergeInOrder(s2, k + 1, batches[1..]);
    }
  }

  /** The last part passes the old answers merged with its own to the survey
      completion, which tells the outcomes of the update apart: success and
      any failure other than a schema error show the completion screen, a
      schema error or an exception stay on the questions. */
  lemma LastPartOutcome(s: AppState, a: Answers, update: Outcome<UpdateResult>, stringify: Answers -> string)
    requires s.surveyId != "" && s.screen == PartQuestions(Parts)
    ensures var t := Step(s, LastPartAnswered(a, update, stringify));
      t.surveyData == SurveyData(s.userInfo, Merge(s.surveyData.answers, a)) &&
      (t.screen == SurveyComplete <==> update.Returns? && (update.value.success || !SchemaError(update.value.error))) &&
      (t.screen != SurveyComplete ==> t.screen == s.screen) &&
      t.userInfo == s.userInfo && t.surveyId == s.surveyId
    ensures CallsOf(s, LastPartAnswered(a, update, stringify))[0] ==
      UpdateSurvey(s.surveyId, UpdatePayload(SkinTypeField(Merge(s.surveyData.answers, a)), "completed",
                                             stringify(Merge(s.surveyData.answers, a))))
    ensures |CallsOf(s, LastPartAnswered(a, update, stringify))| == 2 <==>
      update.Returns? && !update.value.success && SchemaError(update.value.error)
  {
  }

  /** Without an id the survey returns to the start with no update. */
  lemma LastPartWithoutId(s: AppState, a: Answers, update: Outcome<UpdateResult>, stringify: Answers -> string)
    requires s.surveyId == ""
    ensures Step(s, LastPartAnswered(a, update, stringify)) ==
      s.(surveyData := s.surveyData.(answers := Merge(s.surveyData.answers, a)), screen := Start)
    ensures CallsOf(s, LastPartAnswered(a, update, stringify)) == []
  {
  }

  /** The report screen shows the report handed over, and back returns to the
      completion screen with the report kept. */
  lemma ReportRoundTrip(s: AppState, r: Report)
    ensures ReportRendered(Step(s, ShowReport(r))) && Step(s, ShowReport(r)).aiRecommendation == Some(r)
    ensures Run(s, [ShowReport(r), ReportBack]) == s.(aiRecommendation := Some(r), screen := SurveyComplete)
  {
    var s1 := s.(aiRecommendation := Some(r), screen := AiReportPreview);
    assert Step(s, ShowReport(r)) == s1;
    var evs := [ShowReport(r), ReportBack];
    assert evs[0] == ShowReport(r) && evs[1..] == [ReportBack];
    assert Run(s, evs) == Run(s1, [ReportBack]);
    assert [ReportBack][1..] == [];
    assert Run(s1, [ReportBack]) == Run(Step(s1, ReportBack), []);
  }

  // ---------------------------------------------------------------------------
  // The component
  // ---------------------------------------------------------------------------

  /** The state of `App`, one field per `useState`. */
  class App {
    var screen: Screen
    var userInfo: UserInfo
    var surveyData: SurveyData
    var surveyId: string
    var aiRecommendation: Option<Report>
    /** The calls made to the storage layer, oldest first. */
    ghost var calls: seq<Call>

    function State(): AppState
      reads this
    {
      AppState(screen, userInfo, surveyData, surveyId, aiRecommendation)
    }

    constructor()
      ensures State() == Initial && calls == []
    {
      screen := Start;
      userInfo := NoUser;
      surveyData := SurveyData(NoUser, map[]);
      surveyId := "";
      aiRecommendation := None;
      calls := [];
    }

    method HandleStart()
      modifies this
      ensures State() == Step(old(State()), StartPressed) && calls == old(calls)
    {
      screen := Intro;
    }

    method HandleIntroComplete()
      modifies this
      ensures State() == Step(old(State()), IntroDone) && calls == old(calls)
    {
      screen := Guide;
    }

    method HandleGuideComplete()
      modifies this
      ensures State() == Step(old(State()), GuideDone) && calls == old(calls)
    {
      screen := UserInfoForm;
    }

    /** `handleUserInfoSubmit`; `create` is what `createSurvey(data)` gives. */
    method HandleUserInfoSubmit(data: UserInfo, create: Outcome<CreateResult>)
      modifies this
      ensures State() == Step(old(State()), UserInfoSubmitted(data, create))
      ensures calls == old(calls) + CallsOf(old(State()), UserInfoSubmitted(data, create))
    {
      calls := calls + [CreateSurvey(data)];
      match create {
        case Returns(result) =>
          if result.success && result.surveyId.Some? && result.surveyId.value != "" {
            userInfo := data;
            surveyId := result.surveyId.value;
            screen := Result;
          }
        case Throws =>
      }
    }

    method HandleBack()
      modifies this
      ensures State() == Step(old(State()), BackToGuide) && calls == old(calls)
    {
      screen := Guide;
    }

    method HandleRestart()
      modifies this
      ensures State() == Step(old(State()), Restart) && calls == old(calls)
    {
      surveyData := SurveyData(userInfo, map[]);
      screen := PartIntro(1);
    }

    /** `handlePartNComplete`. */
    method HandlePartComplete(n: nat)
      modifies this
      ensures State() == Step(old(State()), PartIntroDone(n)) && calls == old(calls)
    {
      screen := PartQuestions(n);
    }

    /** The `onBack` of part `n`'s questions. */
    method HandleQuestionsBack(n: nat)
      modifies this
      ensures State() == Step(old(State()), QuestionsBack(n)) && calls == old(calls)
    {
      screen := PartIntro(n);
    }

    /** `handlePartNQuestionsComplete` for the first six parts. */
    method HandlePartQuestionsComplete(n: nat, answers: Answers)
      modifies this
      ensures State() == Step(old(State()), PartAnswered(n, answers)) && calls == old(calls)
    {
      surveyData := surveyData.(answers := Merge(surveyData.answers, answers));
      screen := PartIntro(n + 1);
    }

    /** `handlePart7QuestionsComplete`. */
    method HandlePart7QuestionsComplete(answers: Answers, update: Outcome<UpdateResult>, stringify: Answers -> string)
      modifies this
      ensures State() == Step(old(State()), LastPartAnswered(answers, update, stringify))
      ensures calls == old(calls) + CallsOf(old(State()), LastPartAnswered(answers, update, stringify))
    {
      var finalAnswers := Merge(surveyData.answers, answers);
      surveyData := surveyData.(answers := finalAnswers);
      HandleSurveyComplete(finalAnswers, update, stringify);
    }

    /** `handleSurveyComplete`; `update` is what `updateSurvey` gives. */
    method HandleSurveyComplete(answers: Answers, update: Outcome<UpdateResult>, stringify: Answers -> string)
      modifies this
      ensures State() == SurveyCompleted(old(State()), answers, update)
      ensures surveyId == "" ==> calls == old(calls)
      ensures surveyId != "" ==>
                (calls == old(calls) + [UpdateSurvey(surveyId, Payload(answers, stringify))] +
                          (if update.Returns? && !update.value.success && SchemaError(update.value.error) then [UpdateSchema] else []))
    {
      if surveyId == "" {
        screen := Start;
        return;
      }
      surveyData := SurveyData(userInfo, answers);
      calls := calls + [UpdateSurvey(surveyId, Payload(answers, stringify))];
      match update {
        case Throws =>
        case Returns(result) =>
          if result.success {
            screen := SurveyComplete;
          } else if SchemaError(result.error) {
            calls := calls + [UpdateSchema];
          } else {
            screen := SurveyComplete;
          }
      }
    }

    method HandleSurveyRestart()
      modifies this
      ensures State() == Step(old(State()), SurveyRestart) && calls == old(calls)
    {
      surveyData := SurveyData(userInfo, map[]);
      screen := PartIntro(1);
    }

    method HandleShowAIReport(report: Report)
      modifies this
      ensures State() == Step(old(State()), ShowReport(report)) && calls == old(calls)
    {
      aiRecommendation := Some(report);
      screen := AiReportPreview;
    }

    method HandleAIReportBack()
      modifies this
      ensures State() == Step(old(State()), ReportBack) && calls == old(calls)
    {
      screen := SurveyComplete;
    }

    method OpenSkinTypePreview()
      modifies this
      ensures State() == Step(old(State()), OpenPreview) && calls == old(calls)
    {
      screen := SkinTypePreview;
    }

    method CloseSkinTypePreview()
      modifies this
      ensures State() == Step(old(State()), ClosePreview) && calls == old(calls)
    {
      screen := Start;
    }
  }
}
