/** The simulated progress counter of `handleGeneratePlan` (App.tsx:52-61):
    every timer tick adds 5; a tick that would pass 95 leaves 95 and stops
    the timer. */
module Progress {
  const Step: int := 5
  const Ceiling: int := 95

  /** The state updater passed to `setGenerationProgress`. */
  function NextProgress(prev: int): (next: int)
    ensures next <= Ceiling
    ensures next == prev + Step || next == Ceiling
    ensures prev <= Ceiling ==> prev <= next
  {
    if prev + Step > Ceiling then Ceiling else prev + Step
  }

  /** Whether that tick also clears the interval. */
  predicate StopsTimer(prev: int) {
    prev + Step > Ceiling
  }

  /** The progress after `n` ticks from the reset value 0. */
  function ProgressAfter(n: nat): int {
    if n == 0 then 0 else NextProgress(ProgressAfter(n - 1))
  }

  /** Ticking from 0 climbs by 5 up to 95 and stays there. */
  lemma {:induction false} ProgressAfterIsClamped(n: nat)
    ensures ProgressAfter(n) == if Step * n > Ceiling then Ceiling else Step * n
  {
    if n > 0 {
      ProgressAfterIsClamped(n - 1);
    }
  }

  /** Ticking from 0 only ever shows multiples of 5 between 0 and 95. */
  lemma ProgressAfterInRange(n: nat)
    ensures 0 <= ProgressAfter(n) <= Ceiling && ProgressAfter(n) % Step == 0
  {
    ProgressAfterIsClamped(n);
  }

  /** Ticking from 0 never makes the counter go back. */
  lemma ProgressIsMonotone(m: nat, n: nat)
    requires m <= n
    ensures ProgressAfter(m) <= ProgressAfter(n)
  {
    ProgressAfterIsClamped(m);
    ProgressAfterIsClamped(n);
  }

  /** The timer is cleared by the 20th tick from 0 and not before: the
      19 ticks before it reach 95. */
  lemma StopsAtTwentiethTick(k: nat)
    ensures StopsTimer(ProgressAfter(k)) <==> k >= 19
  {
    ProgressAfterIsClamped(k);
  }
}
