/** The analysis screen's two timers: a progress counter that climbs by ten
    up to 100, and a status line that walks a fixed list of seven steps. Each
    timer callback is one tick; a timer clears itself on the tick that finds
    its value already final. */
module AiAnalysis {

  const STEPS: seq<string> := [
    "Initializing AI Analysis...",
    "Processing patient data...",
    "Analyzing medical history...",
    "Reviewing test results...",
    "Generating insights...",
    "Creating recommendations...",
    "Finalizing report..."
  ]

  const LAST: nat := |STEPS| - 1

  function Min(a: int, b: int): int {
    if a <= b then a else b
  }

  /** A progress value the counter can hold: a multiple of ten in 0..100. */
  predicate ProgressValue(p: int) {
    0 <= p <= 100 && p % 10 == 0
  }

  /** The progress updater: 100 once `prev` has reached 100, otherwise ten
      more. */
  function NextProgress(prev: int): (next: int)
    ensures prev >= 100 ==> next == 100
    ensures prev < 100 ==> next - prev == 10
    ensures ProgressValue(prev) ==> ProgressValue(next)
  {
    if prev >= 100 then 100 else prev + 10
  }

  /** The progress after `n` ticks from `start`. */
  function ProgressAfter(start: int, n: nat): int {
    if n == 0 then start else NextProgress(ProgressAfter(start, n - 1))
  }

  /** From any progress value, `n` ticks add `10 * n`, capped at 100. */
  lemma {:induction false} ProgressAfterIsCapped(start: int, n: nat)
    requires ProgressValue(start)
    ensures ProgressAfter(start, n) == Min(start + 10 * n, 100)
  {
    if n > 0 {
      ProgressAfterIsCapped(start, n - 1);
    }
  }

  /** From 0 the counter never passes 100, reaches it on the tenth tick and
      stays there; the completion panel shows exactly from then on. */
  lemma ProgressFromZero(n: nat)
    ensures 0 <= ProgressAfter(0, n) <= 100
    ensures ProgressAfter(0, n) == 100 <==> n >= 10
    ensures CompletionShown(ProgressAfter(0, n)) <==> n >= 10
  {
    ProgressAfterIsCapped(0, n);
  }

  /** `steps.indexOf(s)`: the first position of `s`, or -1. */
  function IndexOf<T(==)>(steps: seq<T>, s: T): (r: int)
    ensures -1 <= r < |steps|
    ensures r == -1 <==> s !in steps
    ensures r >= 0 ==> steps[r] == s
  {
    if steps == [] then -1
    else if steps[0] == s then 0
    else var r := IndexOf(steps[1..], s); if r == -1 then -1 else r + 1
  }

  /** `indexOf` finds the first occurrence. */
  lemma {:induction false} IndexOfIsFirst<T>(steps: seq<T>, s: T)
    ensures forall k | 0 <= k < IndexOf(steps, s) :: steps[k] != s
  {
    if steps != [] && steps[0] != s {
      IndexOfIsFirst(steps[1..], s);
      forall k | 0 <= k < IndexOf(steps, s)
        ensures steps[k] != s
      {
        assert k > 0 ==> steps[k] == steps[1..][k - 1];
      }
    }
  }

  /** No entry of `steps` appears twice. */
  predicate Distinct<T(==)>(steps: seq<T>) {
    forall k, m | 0 <= k < m < |steps| :: steps[k] != steps[m]
  }

  /** The updater over any list: the last entry stays, every other entry
      moves to the one after it, and text outside the list (`indexOf` is -1)
      moves to the first entry. */
  function NextIn<T(==)>(steps: seq<T>, prev: T): (next: T)
    requires steps != []
    ensures next in steps || next == prev
  {
    var i := IndexOf(steps, prev);
    if i == |steps| - 1 then prev else steps[i + 1]
  }

  /** In a list without repeats every entry is found at its own position. */
  lemma IndexOfDistinct<T>(steps: seq<T>, i: nat)
    requires Distinct(steps) && i < |steps|
    ensures IndexOf(steps, steps[i]) == i
  {
    assert steps[i] in steps;
    IndexOfIsFirst(steps, steps[i]);
  }

  /** Every entry is found at its own position. */
  predicate Positioned<T(==)>(steps: seq<T>) {
    forall j | 0 <= j < |steps| :: IndexOf(steps, steps[j]) == j
  }

  lemma DistinctPositioned<T>(steps: seq<T>)
    requires Distinct(steps)
    ensures Positioned(steps)
  {
    forall j | 0 <= j < |steps|
      ensures IndexOf(steps, steps[j]) == j
    {
      IndexOfDistinct(steps, j);
    }
  }

  /** The entry after `n` ticks from `start`. */
  function AdvanceAfter<T(==)>(steps: seq<T>, start: T, n: nat): T
    requires steps != []
  {
    if n == 0 then start else NextIn(steps, AdvanceAfter(steps, start, n - 1))
  }

  /** From the `i`-th entry of a list without repeats, `n` ticks move `n`
      places, stopping at the last entry. */
  lemma {:induction false} AdvanceAfterIsCapped<T>(steps: seq<T>, i: nat, n: nat)
    requires Positioned(steps) && i < |steps|
    ensures AdvanceAfter(steps, steps[i], n) == steps[Min(i + n, |steps| - 1)]
  {
    if n > 0 {
      var m := Min(i + n - 1, |steps| - 1);
      AdvanceAfterIsCapped(steps, i, n - 1);
      AdvanceOnce(steps, m);
      assert Min(i + n, |steps| - 1) == Min(m + 1, |steps| - 1);
    }
  }

  /** One tick from the `m`-th entry moves to the next one, or stays on the
      last. */
  lemma AdvanceOnce<T>(steps: seq<T>, m: nat)
    requires Positioned(steps) && m < |steps|
    ensures NextIn(steps, steps[m]) == steps[Min(m + 1, |steps| - 1)]
  {
    assert IndexOf(steps, steps[m]) == m;
  }

  /** The steps begin with seven different letters, so none repeats. */
  lemma StepsAreDistinct()
    ensures Distinct(STEPS)
  {
    assert forall k | 0 <= k < |STEPS| :: STEPS[k][0] == "IPARGCF"[k];
  }

  /** The screen's step updater. */
  function NextStep(prev: string): (next: string)
    ensures next in STEPS
  {
    NextIn(STEPS, prev)
  }

  /** The updater advances one place along the list and stops at the end. */
  lemma NextStepAdvances(i: nat)
    requires i < |STEPS|
    ensures i < LAST ==> NextStep(STEPS[i]) == STEPS[i + 1]
    ensures i == LAST ==> NextStep(STEPS[i]) == STEPS[LAST]
  {
    StepsAreDistinct();
    IndexOfDistinct(STEPS, i);
  }

  lemma UnknownStepRestarts(prev: string)
    requires prev !in STEPS
    ensures NextStep(prev) == STEPS[0]
  {
  }

  /** The step shown after `n` ticks from `start`. */
  function StepAfter(start: string, n: nat): string {
    AdvanceAfter(STEPS, start, n)
  }

  /** From the `i`-th step, `n` ticks move `n` places, stopping at the last. */
  lemma StepAfterIsCapped(i: nat, n: nat)
    requires i < |STEPS|
    ensures StepAfter(STEPS[i], n) == STEPS[Min(i + n, LAST)]
  {
    StepsAreDistinct();
    DistinctPositioned(STEPS);
    AdvanceAfterIsCapped(STEPS, i, n);
  }

  /** From mount the status line reaches the last step on its sixth tick. */
  lemma StepsReachLast(n: nat)
    ensures StepAfter(STEPS[0], n) == STEPS[LAST] <==> n >= 6
  {
    StepAfterIsCapped(0, n);
    if n < 6 {
      StepsAreDistinct();
    }
  }

  /** The two intervals' periods in milliseconds. */
  const PROGRESS_PERIOD: nat := 500
  const STEP_PERIOD: nat := 1000

  /** `t` milliseconds after mount, the progress counter has ticked
      `t / 500` times and the status line `t / 1000` times. The panel shows
      from 5 s, the last step from 6 s: whenever the last step shows, so does
      the completion panel, and for the second in between the panel shows
      while the status line is still one step short. */
  lemma ProgressFinishesBeforeSteps(t: nat)
    ensures CompletionShown(ProgressAfter(0, t / PROGRESS_PERIOD)) <==> t >= 5000
    ensures StepAfter(STEPS[0], t / STEP_PERIOD) == STEPS[LAST] <==> t >= 6000
    ensures StepAfter(STEPS[0], t / STEP_PERIOD) == STEPS[LAST] ==> CompletionShown(ProgressAfter(0, t / PROGRESS_PERIOD))
    ensures 5000 <= t < 6000 ==> CompletionShown(ProgressAfter(0, t / PROGRESS_PERIOD)) &&
                                 StepAfter(STEPS[0], t / STEP_PERIOD) == STEPS[LAST - 1]
  {
    ProgressFromZero(t / PROGRESS_PERIOD);
    StepsReachLast(t / STEP_PERIOD);
    StepAfterIsCapped(0, t / STEP_PERIOD);
  }

  /** The completion panel (`analysisProgress === 100`). */
  predicate CompletionShown(progress: int) {
    progress == 100
  }

  class AnalysisScreen {
    var progress: int
    var currentStep: string
    var progressTimer: bool
    var stepTimer: bool

    /** Mount: progress 0, the first step, both intervals running. */
    constructor()
      ensures progress == 0 && currentStep == STEPS[0] && progressTimer && stepTimer
    {
      progress := 0;
      currentStep := STEPS[0];
      progressTimer := true;
      stepTimer := true;
    }

    /** One firing of the progress interval; it clears itself when it finds
        the counter at 100. */
    method ProgressTick()
      requires progressTimer
      modifies this`progress, this`progressTimer
      ensures progress == NextProgress(old(progress))
      ensures progressTimer <==> old(progress) < 100
    {
      if progress >= 100 {
        progressTimer := false;
        progress := 100;
      } else {
        progress := progress + 10;
      }
    }

    /** One firing of the step interval; it clears itself when it finds the
        last step. */
    method StepTick()
      requires stepTimer
      modifies this`currentStep, this`stepTimer
      ensures currentStep == NextStep(old(currentStep))
      ensures stepTimer <==> IndexOf(STEPS, old(currentStep)) != LAST
    {
      var i := IndexOf(STEPS, currentStep);
      if i == LAST {
        stepTimer := false;
      } else {
        currentStep := STEPS[i + 1];
      }
    }

    /** The progress interval firing up to `ticks` times, as long as it has
        not cleared itself. */
    method RunProgress(ticks: nat) returns (fired: nat)
      requires progressTimer && ProgressValue(progress)
      modifies this`progress, this`progressTimer
      ensures fired <= ticks && progress == ProgressAfter(old(progress), fired)
      ensures progress == Min(old(progress) + 10 * fired, 100)
      ensures fired < ticks ==> !progressTimer && progress == 100
    {
      fired := 0;
      while fired < ticks && progressTimer
        invariant fired <= ticks && ProgressValue(progress)
        invariant progress == ProgressAfter(old(progress), fired)
        invariant !progressTimer ==> progress == 100
      {
        ProgressTick();
        fired := fired + 1;
      }
      ProgressAfterIsCapped(old(progress), fired);
    }

    /** The step interval firing up to `ticks` times, as long as it has not
        cleared itself. */
    method RunSteps(ticks: nat) returns (fired: nat)
      requires stepTimer
      modifies this`currentStep, this`stepTimer
      ensures fired <= ticks && currentStep == StepAfter(old(currentStep), fired)
      ensures fired < ticks ==> !stepTimer && currentStep == STEPS[LAST]
    {
      fired := 0;
      while fired < ticks && stepTimer
        invariant fired <= ticks
        invariant currentStep == StepAfter(old(currentStep), fired)
        invariant !stepTimer ==> currentStep == STEPS[LAST]
      {
        StepTick();
        fired := fired + 1;
      }
    }
  }
}
