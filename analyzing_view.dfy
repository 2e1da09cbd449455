/** The "Analysing" screen (src/components/AnalyzingView.tsx): a dot counter
    advanced by a 500-unit interval and a one-shot 3000-unit completion
    timeout, both cancelled by the effect's cleanup. Time is discrete: one
    tick is one time unit. */
module AnalyzingView {

  /** Period of the dot interval. */
  const DotInterval: nat := 500
  /** Delay of the completion timeout. */
  const CompletionDelay: nat := 3000

  /** `'.'.repeat(n)`. */
  function Dots(n: nat): (r: string)
    ensures |r| == n
    ensures forall i :: 0 <= i < |r| ==> r[i] == '.'
  {
    if n == 0 then "" else Dots(n - 1) + "."
  }

  /** The effect's state: time since mount, the closure's `dotCount`, the
      rendered dots, how often `onAnalysisComplete` has been called, and
      whether the cleanup has run. */
  datatype Timers = Timers(elapsed: nat, dotCount: nat, dots: string, completions: nat, cleared: bool)

  /** The state right after the effect starts. */
  function Mount(): (t: Timers)
    ensures Valid(t) && !t.cleared
    ensures t.dots == "" && t.completions == 0
  {
    Timers(0, 0, "", 0, false)
  }

  /** One time unit: the interval fires on every multiple of 500 and moves
      the counter on modulo 4; the timeout fires once, at 3000. After the
      cleanup nothing fires. */
  function Advance(t: Timers): (u: Timers)
    ensures u.cleared == t.cleared
    ensures t.cleared ==> u == t
    ensures !t.cleared ==> u.elapsed == t.elapsed + 1
    ensures u.completions > t.completions ==> u.completions == t.completions + 1
                                              && u.elapsed == CompletionDelay
    ensures u.completions >= t.completions
  {
    if t.cleared then t
    else
      var e := t.elapsed + 1;
      var dotTick := e % DotInterval == 0;
      var count := if dotTick then (t.dotCount + 1) % 4 else t.dotCount;
      Timers(e, count, if dotTick then Dots(count) else t.dots,
             t.completions + (if e == CompletionDelay then 1 else 0), false)
  }

  /** The effect's cleanup: `clearInterval` and `clearTimeout`. */
  function CleanedUp(t: Timers): (u: Timers)
    ensures u.cleared && Advance(u) == u
    ensures Valid(t) ==> Valid(u)
    ensures u.elapsed == t.elapsed && u.completions == t.completions
  {
    t.(cleared := true)
  }

  /** `n` time units in a row. */
  function Advanced(t: Timers, n: nat): Timers {
    if n == 0 then t else Advance(Advanced(t, n - 1))
  }

  /** The timer invariant: the counter is the number of dot ticks so far,
      modulo 4; the dots render it; the completion has fired once if the
      delay has passed and never otherwise. */
  predicate Valid(t: Timers) {
    t.dotCount == (t.elapsed / DotInterval) % 4
    && t.dots == Dots(t.dotCount)
    && t.completions == (if t.elapsed >= CompletionDelay then 1 else 0)
  }

  /** The counter stays in [0, 3] and the dots are that many '.' characters. */
  lemma DotsBounded(t: Timers)
    requires Valid(t)
    ensures t.dotCount <= 3 && |t.dots| == t.dotCount
    ensures forall i :: 0 <= i < |t.dots| ==> t.dots[i] == '.'
    ensures t.completions <= 1
  {
  }

  /** Quotient and remainder by the dot period are determined by any
      decomposition `a == DotInterval * q + r` with `r` in range. */
  lemma DivModUnique(a: nat, q: nat, r: nat)
    requires a == DotInterval * q + r && r < DotInterval
    ensures a / DotInterval == q && a % DotInterval == r
  {
  }

  /** One more time unit adds one dot period exactly when it lands on a
      multiple of the period. */
  lemma PeriodStep(e: nat)
    ensures (e + 1) / DotInterval ==
            e / DotInterval + (if (e + 1) % DotInterval == 0 then 1 else 0)
  {
    var q, r := e / DotInterval, e % DotInterval;
    DivModUnique(e, q, r);
    if r + 1 == DotInterval {
      DivModUnique(e + 1, q + 1, 0);
    } else {
      DivModUnique(e + 1, q, r + 1);
    }
  }

  /** A time unit keeps the invariant and moves the clock unless cleaned up. */
  lemma AdvancePreservesValid(t: Timers)
    requires Valid(t)
    ensures Valid(Advance(t))
    ensures Advance(t).elapsed == if t.cleared then t.elapsed else t.elapsed + 1
  {
    PeriodStep(t.elapsed);
  }

  /** After `n` units without cleanup the invariant holds with `elapsed == n`. */
  lemma {:induction false} AdvancedFromMount(n: nat)
    ensures Valid(Advanced(Mount(), n))
    ensures Advanced(Mount(), n).elapsed == n && !Advanced(Mount(), n).cleared
  {
    if n > 0 {
      AdvancedFromMount(n - 1);
      AdvancePreservesValid(Advanced(Mount(), n - 1));
    }
  }

  /** The dot counts after each interval tick run 1, 2, 3, 0, 1, ... */
  lemma DotCycle(k: nat)
    ensures Advanced(Mount(), k * DotInterval).dotCount == k % 4
    ensures Advanced(Mount(), k * DotInterval).dots == Dots(k % 4)
  {
    AdvancedFromMount(k * DotInterval);
    assert (k * DotInterval) / DotInterval == k;
  }

  /** `onAnalysisComplete` fires exactly once, at the 3000-unit mark. */
  lemma CompletesOnceAtDelay(n: nat)
    ensures Advanced(Mount(), n).completions == if n >= CompletionDelay then 1 else 0
  {
    AdvancedFromMount(n);
  }

  /** After the cleanup nothing changes any more: no dot tick, no completion. */
  lemma {:induction false} CleanupSilences(t: Timers, n: nat)
    ensures Advanced(CleanedUp(t), n) == CleanedUp(t)
  {
    if n > 0 {
      CleanupSilences(t, n - 1);
    }
  }

  /** Cleaning up before the delay (the user leaves the screen) means the
      completion never fires, however long one waits. */
  lemma CleanupBeforeDelayNeverCompletes(m: nat, n: nat)
    requires m < CompletionDelay
    ensures Advanced(CleanedUp(Advanced(Mount(), m)), n).completions == 0
  {
    AdvancedFromMount(m);
    CleanupSilences(Advanced(Mount(), m), n);
  }

  /** The mounted screen: the closure's counter, the rendered dots, the clock,
      the number of completion calls and whether the cleanup has run. */
  class AnalyzingView {
    var dotCount: nat
    var analyzingDots: string
    var elapsed: nat
    var completions: nat
    var cleared: bool

    function State(): Timers
      reads this
    {
      Timers(elapsed, dotCount, analyzingDots, completions, cleared)
    }

    /** Mounting: `analyzingDots` starts empty and the effect schedules both timers. */
    constructor ()
      ensures State() == Mount() && Valid(State())
    {
      dotCount, analyzingDots, elapsed, completions, cleared := 0, "", 0, 0, false;
    }

    /** One time unit; `completed` says whether `onAnalysisComplete` was
        called during it. */
    method Tick() returns (completed: bool)
      requires Valid(State())
      modifies this
      ensures Valid(State())
      ensures State() == Advance(old(State()))
      ensures completed <==> !old(cleared) && old(elapsed) + 1 == CompletionDelay
      ensures completed ==> completions == 1
    {
      AdvancePreservesValid(State());
      completed := false;
      if !cleared {
        elapsed := elapsed + 1;
        if elapsed % DotInterval == 0 {
          dotCount := (dotCount + 1) % 4;
          analyzingDots := Dots(dotCount);
        }
        if elapsed == CompletionDelay {
          completions := completions + 1;
          completed := true;
        }
      }
    }

    /** The effect's cleanup. */
    method Cleanup()
      modifies this
      ensures State() == CleanedUp(old(State()))
    {
      cleared := true;
    }
  }
}
