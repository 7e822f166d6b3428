/** The wizard's progress bar: for each step, its status relative to the current step,
    its marker (a check mark or its number), whether its label is highlighted, and the
    connector drawn after it. */
module Steps {
  import opened ArrayOps

  datatype StepStatus = Completed | Current | Pending

  /** The circle's class choice: before, at or after the current step. */
  function StatusOf(index: int, currentStep: int): StepStatus {
    if index < currentStep then Completed
    else if index == currentStep then Current
    else Pending
  }

  datatype Marker = CheckMark | Number(n: int)

  /** A check mark for finished steps, the 1-based number otherwise. */
  function MarkerOf(index: int, currentStep: int): (r: Marker)
    ensures r == CheckMark <==> StatusOf(index, currentStep) == Completed
    ensures r != CheckMark ==> r == Number(index + 1)
  {
    if index < currentStep then CheckMark else Number(index + 1)
  }

  /** The label is highlighted for finished steps and the current one. */
  predicate LabelHighlighted(index: int, currentStep: int) {
    index <= currentStep
  }

  lemma LabelHighlightedIffNotPending(index: int, currentStep: int)
    ensures LabelHighlighted(index, currentStep) <==> StatusOf(index, currentStep) != Pending
  {
  }

  /** A connector follows every step but the last. */
  predicate HasConnector(index: int, stepCount: int) {
    index < stepCount - 1
  }

  /** The connector after a step is lit once that step is finished. */
  predicate ConnectorLit(index: int, currentStep: int) {
    index < currentStep
  }

  lemma ConnectorLitIffCompleted(index: int, currentStep: int)
    ensures ConnectorLit(index, currentStep) <==> StatusOf(index, currentStep) == Completed
  {
  }

  /** The statuses of all `stepCount` steps, in order. */
  function Statuses(stepCount: nat, currentStep: int): (r: seq<StepStatus>)
    ensures |r| == stepCount
    ensures forall i :: 0 <= i < stepCount ==> r[i] == StatusOf(i, currentStep)
  {
    if stepCount == 0 then [] else Statuses(stepCount - 1, currentStep) + [StatusOf(stepCount - 1, currentStep)]
  }

  /** Whether a connector is drawn after each of the `stepCount` steps, in order. */
  function Connectors(stepCount: nat): (r: seq<bool>)
    ensures |r| == stepCount
    ensures forall i :: 0 <= i < stepCount ==> r[i] == HasConnector(i, stepCount)
  {
    seq(stepCount, i => HasConnector(i, stepCount))
  }

  /** With a current step among the steps, exactly one step is current and exactly
      `currentStep` steps are finished; in general the counts are clipped to the bar. */
  lemma {:induction false} StatusCounts(stepCount: nat, currentStep: nat)
    ensures Count(Statuses(stepCount, currentStep), Completed) == Min(currentStep, stepCount)
    ensures Count(Statuses(stepCount, currentStep), Current) == if currentStep < stepCount then 1 else 0
    ensures Count(Statuses(stepCount, currentStep), Pending) == stepCount - Min(currentStep + 1, stepCount)
  {
    if stepCount > 0 {
      var n := stepCount - 1;
      var s := Statuses(stepCount, currentStep);
      StatusCounts(n, currentStep);
      assert s[..n] == Statuses(n, currentStep);
      var last := StatusOf(n, currentStep);
      assert s[n] == last;
      assert last == Completed <==> n < currentStep;
      assert last == Current <==> n == currentStep;
    }
  }

  lemma ExactlyOneCurrent(stepCount: nat, currentStep: nat)
    requires currentStep < stepCount
    ensures Count(Statuses(stepCount, currentStep), Current) == 1
    ensures Count(Statuses(stepCount, currentStep), Completed) == currentStep
  {
    StatusCounts(stepCount, currentStep);
  }

  /** A bar of `n` steps draws `n - 1` connectors. */
  lemma {:induction false} ConnectorCount(stepCount: nat)
    requires stepCount > 0
    ensures Count(Connectors(stepCount), true) == stepCount - 1
    ensures Count(Connectors(stepCount), false) == 1
  {
    var c := Connectors(stepCount);
    assert c == seq(stepCount - 1, _ => true) + [false];
    AllTrueCount(stepCount - 1);
    assert c[..stepCount - 1] == seq(stepCount - 1, _ => true);
  }

  lemma {:induction false} AllTrueCount(n: nat)
    ensures Count(seq(n, _ => true), true) == n
    ensures Count(seq(n, _ => true), false) == 0
  {
    if n > 0 {
      AllTrueCount(n - 1);
      assert seq(n, _ => true)[..n - 1] == seq(n - 1, _ => true);
    }
  }
}
