/** components/Loader.tsx: the progress animation shown while an analysis runs. A timer
    advances a step counter every 1.5 seconds until the last of five messages. */
module Loader {
  const Steps: seq<string> := [
    "Extracting clinical data from reports...",
    "Analyzing imaging for abnormalities...",
    "Processing video insights...",
    "Correlating findings across modalities...",
    "Generating diagnostic summary..."]

  const LastStep: nat := |Steps| - 1

  /** The timer's update `prev < steps.length - 1 ? prev + 1 : prev`. */
  function NextStep(prev: nat): (next: nat)
    ensures prev < LastStep ==> next == prev + 1
    ensures prev >= LastStep ==> next == prev
  {
    if prev < |Steps| - 1 then prev + 1 else prev
  }

  /** The step after `n` timer firings from the initial step. */
  function Ticks(n: nat): nat
  {
    if n == 0 then 0 else NextStep(Ticks(n - 1))
  }

  /** After `n` firings the counter stands at `n`, or at the last step once it got there. */
  lemma {:induction false} TicksSaturate(n: nat)
    ensures Ticks(n) == if n < LastStep then n else LastStep
  {
    if n > 0 {
      TicksSaturate(n - 1);
    }
  }

  /** Further firings never move the counter back. */
  lemma TicksMonotone(m: nat, n: nat)
    requires m <= n
    ensures Ticks(m) <= Ticks(n)
  {
    TicksSaturate(m);
    TicksSaturate(n);
  }

  /** The state of one mounted loader. */
  class StepLoader {
    var step: nat

    /** `steps[step]` is always defined. */
    ghost predicate Valid()
      reads this
    {
      step < |Steps|
    }

    constructor()
      ensures Valid() && step == 0
    {
      step := 0;
    }

    /** One firing of the timer. */
    method Tick()
      requires Valid()
      modifies this
      ensures Valid()
      ensures step == NextStep(old(step))
      ensures old(step) <= step
    {
      if step < |Steps| - 1 {
        step := step + 1;
      }
    }

    /** The message under the heading. */
    function Message(): (m: string)
      reads this
      requires Valid()
      ensures m == Steps[step]
    {
      Steps[step]
    }

    /** Icon `k` of the four is lit once the counter has reached it. */
    predicate Highlighted(k: nat)
      reads this
      ensures k == 0 ==> Highlighted(k)
      ensures Valid() && k > LastStep ==> !Highlighted(k)
      ensures Highlighted(k) ==> forall j :: 0 <= j <= k ==> Highlighted(j)
    {
      step >= k
    }

    /** The progress bar's fill, as a fraction of its width. */
    function Progress(): (p: real)
      reads this
      requires Valid()
      ensures 0.0 < p <= 1.0
      ensures p == 1.0 <==> step == LastStep
    {
      (step + 1) as real / |Steps| as real
    }
  }

  /** A tick keeps every lit icon lit and never shrinks the progress bar. */
  lemma TickGrowsHighlight(prev: nat, k: nat)
    requires prev < |Steps|
    ensures prev >= k ==> NextStep(prev) >= k
    ensures NextStep(prev) < |Steps|
    ensures (prev + 1) as real / |Steps| as real <= (NextStep(prev) + 1) as real / |Steps| as real
  {
  }
}
