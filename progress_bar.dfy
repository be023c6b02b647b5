/** The progress bar shown during the question round: the fill percentage,
    the `correct/asked` label, and one indicator per question, classified
    as completed, current or pending against the current question number. */
module ProgressBar {
  import opened AuthTypes

  datatype IndicatorClass = Completed | Current | Pending

  /** One step indicator: its 1-based number and how it is drawn. */
  datatype Indicator = Indicator(stepNumber: int, kind: IndicatorClass)

  /** `isCompleted ? … : isCurrent ? … : …` for one step number. */
  function ClassOf(stepNumber: int, currentStep: int): IndicatorClass {
    if stepNumber < currentStep then Completed
    else if stepNumber == currentStep then Current
    else Pending
  }

  /** `Array.from({ length: totalSteps }, …)`: a non-positive length gives
      no indicators. */
  function Indicators(currentStep: int, totalSteps: int): seq<Indicator> {
    var n := if totalSteps > 0 then totalSteps else 0;
    seq(n, index requires 0 <= index < n => Indicator(index + 1, ClassOf(index + 1, currentStep)))
  }

  /** A property default: `questionsAsked = 0`, `questionsCorrect = 0`. */
  function OrDefault(o: Option<int>): int {
    if o.Some? then o.value else 0
  }

  /** The fill width in percent; the division is guarded by `totalSteps > 0`. */
  function ProgressPercentage(currentStep: int, totalSteps: int): real {
    if totalSteps > 0 then (currentStep as real / totalSteps as real) * 100.0 else 0.0
  }

  /** Whether the `correct/asked` label is shown. */
  predicate ShowCorrectLabel(questionsAsked: Option<int>) {
    OrDefault(questionsAsked) > 0
  }

  /** The label's numbers, after the defaults. */
  function CorrectLabel(questionsCorrect: Option<int>, questionsAsked: Option<int>): (int, int) {
    (OrDefault(questionsCorrect), OrDefault(questionsAsked))
  }

  // ---------------------------------------------------------------- properties

  /** Exactly `totalSteps` indicators (none when it is not positive),
      numbered 1, 2, … in order. */
  lemma IndicatorsNumbered(currentStep: int, totalSteps: int)
    ensures var r := Indicators(currentStep, totalSteps);
      && (totalSteps > 0 ==> |r| == totalSteps)
      && (totalSteps <= 0 ==> r == [])
      && forall i :: 0 <= i < |r| ==> r[i].stepNumber == i + 1
  {
  }

  /** Each indicator is in exactly the class its number dictates: completed
      before the current step, current at it, pending after it. */
  lemma IndicatorClasses(currentStep: int, totalSteps: int)
    ensures var r := Indicators(currentStep, totalSteps);
      forall i :: 0 <= i < |r| ==>
        && (r[i].kind == Completed <==> r[i].stepNumber < currentStep)
        && (r[i].kind == Current <==> r[i].stepNumber == currentStep)
        && (r[i].kind == Pending <==> r[i].stepNumber > currentStep)
  {
  }

  /** At most one indicator is current, and one is exactly when the current
      step is among 1..totalSteps. */
  lemma AtMostOneCurrent(currentStep: int, totalSteps: int)
    ensures var r := Indicators(currentStep, totalSteps);
      && (forall i, j :: 0 <= i < |r| && 0 <= j < |r| && r[i].kind == Current && r[j].kind == Current ==> i == j)
      && ((exists i :: 0 <= i < |r| && r[i].kind == Current) <==> 1 <= currentStep <= totalSteps)
  {
    var r := Indicators(currentStep, totalSteps);
    if 1 <= currentStep <= totalSteps {
      assert r[currentStep - 1].kind == Current;
    }
  }

  /** The completed indicators form a prefix, and the pending ones a suffix. */
  lemma CompletedPrefix(currentStep: int, totalSteps: int)
    ensures var r := Indicators(currentStep, totalSteps);
      && (forall i, j :: 0 <= i <= j < |r| && r[j].kind == Completed ==> r[i].kind == Completed)
      && (forall i, j :: 0 <= i <= j < |r| && r[i].kind == Pending ==> r[j].kind == Pending)
  {
  }

  /** The number of completed indicators: `currentStep - 1`, clamped to the
      number of indicators. */
  function CountCompleted(r: seq<Indicator>): nat {
    if r == [] then 0 else CountCompleted(r[..|r| - 1]) + (if r[|r| - 1].kind == Completed then 1 else 0)
  }

  lemma {:induction false} CompletedCount(currentStep: int, totalSteps: int)
    ensures var n := if totalSteps > 0 then totalSteps else 0;
      CountCompleted(Indicators(currentStep, totalSteps))
        == if currentStep - 1 < 0 then 0 else if currentStep - 1 > n then n else currentStep - 1
  {
    if totalSteps > 0 {
      var r := Indicators(currentStep, totalSteps);
      assert r[..|r| - 1] == Indicators(currentStep, totalSteps - 1);
      CompletedCount(currentStep, totalSteps - 1);
    }
  }

  /** The percentage is 0 without steps, and between 0 and 100 while the
      current step is within 0..totalSteps. */
  lemma PercentageBounds(currentStep: int, totalSteps: int)
    ensures totalSteps <= 0 ==> ProgressPercentage(currentStep, totalSteps) == 0.0
    ensures 0 <= currentStep <= totalSteps && totalSteps > 0 ==>
      0.0 <= ProgressPercentage(currentStep, totalSteps) <= 100.0
    ensures currentStep == totalSteps > 0 ==> ProgressPercentage(currentStep, totalSteps) == 100.0
  {
    if 0 <= currentStep <= totalSteps && totalSteps > 0 {
      assert currentStep as real / totalSteps as real <= 1.0;
    }
  }

  /** The label shows exactly when a positive number of questions was
      asked; a missing count counts as 0. */
  lemma CorrectLabelDefaults(questionsCorrect: Option<int>, questionsAsked: Option<int>)
    ensures ShowCorrectLabel(questionsAsked) <==> questionsAsked.Some? && questionsAsked.value > 0
    ensures questionsAsked.None? ==> !ShowCorrectLabel(questionsAsked)
    ensures questionsCorrect.None? ==> CorrectLabel(questionsCorrect, questionsAsked).0 == 0
  {
  }
}
