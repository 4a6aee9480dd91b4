/**
 * The onboarding progress indicator (components/onboarding/OnboardingProgress.tsx):
 * one dot per step, coloured by how the step compares with the current one.
 */
module OnboardingProgress {

  datatype DotState = DotCompleted | DotActive | DotInactive

  /** The class of dot `index` when the user is on `currentStep`. */
  function Classify(index: int, currentStep: int): (d: DotState)
    ensures d == DotCompleted <==> index < currentStep
    ensures d == DotActive <==> index == currentStep
    ensures d == DotInactive <==> index > currentStep
  {
    if index < currentStep then DotCompleted
    else if index == currentStep then DotActive
    else DotInactive
  }

  function Min(a: int, b: int): int { if a <= b then a else b }
  function Max(a: int, b: int): int { if a >= b then a else b }

  /**
   * The dots rendered for `totalSteps` steps, in index order. `Array.from` turns a
   * negative length into an empty array, so a negative step count gives no dots.
   */
  function Dots(currentStep: int, totalSteps: int): (r: seq<DotState>)
    ensures |r| == Max(totalSteps, 0)
  {
    seq(Max(totalSteps, 0), i => Classify(i, currentStep))
  }

  /** How many dots of the row are in state `s`. */
  function CountOf(dots: seq<DotState>, s: DotState): (n: nat)
    ensures n <= |dots|
  {
    if dots == [] then 0 else (if dots[0] == s then 1 else 0) + CountOf(dots[1..], s)
  }

  lemma {:induction false} CountOfAppend(a: seq<DotState>, b: seq<DotState>, s: DotState)
    ensures CountOf(a + b, s) == CountOf(a, s) + CountOf(b, s)
    decreases |a|
  {
    if a == [] {
      assert a + b == b;
    } else {
      assert (a + b)[1..] == a[1..] + b;
      CountOfAppend(a[1..], b, s);
    }
  }

  /** One more step appends one more dot, classified by its index. */
  lemma DotsSnoc(currentStep: int, n: nat)
    ensures Dots(currentStep, n + 1) == Dots(currentStep, n) + [Classify(n, currentStep)]
  {
  }

  /** Every index from 0 to totalSteps-1 gets the dot its comparison with the current step calls for. */
  lemma DotAt(currentStep: int, totalSteps: int, i: int)
    requires 0 <= i < totalSteps
    ensures Dots(currentStep, totalSteps)[i] == Classify(i, currentStep)
    ensures Dots(currentStep, totalSteps)[i] == DotCompleted <==> i < currentStep
    ensures Dots(currentStep, totalSteps)[i] == DotActive <==> i == currentStep
    ensures Dots(currentStep, totalSteps)[i] == DotInactive <==> i > currentStep
  {
  }

  /** Completed dots form a prefix of the row. */
  lemma CompletedPrefix(currentStep: int, totalSteps: int, i: int, j: int)
    requires 0 <= j < i < totalSteps
    requires Dots(currentStep, totalSteps)[i] == DotCompleted
    ensures Dots(currentStep, totalSteps)[j] == DotCompleted
  {
  }

  /** The number of completed dots is the current step clamped to the row. */
  lemma {:induction false} CompletedCount(currentStep: int, totalSteps: int)
    ensures CountOf(Dots(currentStep, totalSteps), DotCompleted) == Min(Max(currentStep, 0), Max(totalSteps, 0))
    decreases Max(totalSteps, 0)
  {
    if totalSteps > 0 {
      var n := totalSteps - 1;
      DotsSnoc(currentStep, n);
      CountOfAppend(Dots(currentStep, n), [Classify(n, currentStep)], DotCompleted);
      CompletedCount(currentStep, n);
    }
  }

  /** Exactly one dot is active while the current step is inside the row, and none once it is past it. */
  lemma {:induction false} ActiveCount(currentStep: int, totalSteps: int)
    ensures CountOf(Dots(currentStep, totalSteps), DotActive) == if 0 <= currentStep < totalSteps then 1 else 0
    decreases Max(totalSteps, 0)
  {
    if totalSteps > 0 {
      var n := totalSteps - 1;
      DotsSnoc(currentStep, n);
      CountOfAppend(Dots(currentStep, n), [Classify(n, currentStep)], DotActive);
      ActiveCount(currentStep, n);
    }
  }

  /** The three classes partition the row. */
  lemma {:induction false} ClassesPartition(dots: seq<DotState>)
    ensures CountOf(dots, DotCompleted) + CountOf(dots, DotActive) + CountOf(dots, DotInactive) == |dots|
    decreases |dots|
  {
    if dots != [] {
      ClassesPartition(dots[1..]);
    }
  }
}
