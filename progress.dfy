/**
  The progress animation of the survey-completion screen
  (components/SurveyComplete.tsx): five captioned steps that together fill the
  bar up to 80 %, driven by a 50 ms interval timer.
*/
module Progress {
  /** One stage of the animation: its caption and how long it lasts, in ms. */
  datatype ProgressStep = ProgressStep(text: string, duration: nat)

  const Steps: seq<ProgressStep> := [
    ProgressStep("설문 데이터를 분석하고 있어요", 3000),
    ProgressStep("피부 타입과 선호도를 검토하고 있어요", 3500),
    ProgressStep("맞춤형 레시피를 생성하고 있어요", 4000),
    ProgressStep("최적의 원료 조합을 계산하고 있어요", 3500),
    ProgressStep("거의 완성되었어요", 2000)
  ]

  /** The animation covers 80 % and each step an equal share. */
  const ProgressPerStep: real := 80.0 / |Steps| as real

  /** The share of the interval timer, in ms. */
  const TickMs: real := 50.0

  /** Where step `i` ends: `(i + 1) * progressPerStep`. */
  function Target(i: nat): real {
    (i + 1) as real * ProgressPerStep
  }

  /** Five steps of 16 % each end at 16, 32, 48, 64 and 80; every step lasts
      a whole number of ticks. */
  lemma StepSchedule()
    ensures |Steps| == 5 && ProgressPerStep == 16.0
    ensures forall i :: 0 <= i < |Steps| ==> Target(i) == 16.0 * (i + 1) as real
    ensures Target(|Steps| - 1) == 80.0
    ensures forall i, j :: 0 <= i < j < |Steps| ==> Target(i) < Target(j)
    ensures forall i :: 0 <= i < |Steps| ==> Steps[i].duration > 0 && Steps[i].duration % 50 == 0
  {
  }

  /** The increase per tick: what is left of the step spread over its ticks. */
  function Increment(i: nat, start: real): real
    requires i < |Steps|
  {
    (Target(i) - start) / (Steps[i].duration as real / TickMs)
  }

  /** One tick of the interval: the running total grows and is clamped to the
      step's target; `cleared` tells that the interval stopped itself. */
  function Tick(i: nat, start: real, total: real): (r: (real, bool))
    requires i < |Steps| && start <= total <= Target(i)
    ensures total <= r.0 <= Target(i)
    ensures r.1 <==> total + Increment(i, start) >= Target(i)
    ensures r.1 ==> r.0 == Target(i)
  {
    StepSchedule();
    var t := total + Increment(i, start);
    if t >= Target(i) then (Target(i), true) else (t, false)
  }
}
