/**
 * The difficulty schedule of variations/flappy/curriculum.py and the tick /
 * log-interval gating of its FlappyCurriculum wrapper.
 *
 * compute_difficulty holds the difficulty at 0 for the first tenth of
 * training, then ramps it linearly to 1 at the last step. The wrapper hands
 * the shared difficulty (or 0 when it was given no handle) to the C
 * instances on every reset and step, and polls their log every
 * `log_interval` steps.
 */
module Curriculum {
  import opened GapDistribution

  const WarmupFrac: real := 0.10

  /** max(1, total_timesteps): a non-positive total counts as one step. */
  function Total(totalTimesteps: int): (t: int)
    ensures t >= 1
    ensures totalTimesteps >= 1 ==> t == totalTimesteps
    ensures totalTimesteps < 1 ==> t == 1
  {
    if totalTimesteps >= 1 then totalTimesteps else 1
  }

  /** warmup_steps = int(total * WARMUP_FRAC). */
  function WarmupSteps(total: int): int
  {
    Trunc(total as real * WarmupFrac)
  }

  /** Over the positive totals the schedule sees, the warm-up is a tenth of the total, rounded down. */
  lemma WarmupIsTenth(total: int)
    requires total >= 1
    ensures WarmupSteps(total) == total / 10
    ensures 0 <= WarmupSteps(total) < total
  {
    var q, r := total / 10, total % 10;
    assert total as real * WarmupFrac == q as real + r as real / 10.0;
  }

  /** compute_difficulty(global_step, total_timesteps). */
  function ComputeDifficulty(globalStep: int, totalTimesteps: int): real
  {
    var total := Total(totalTimesteps);
    var warmup := WarmupSteps(total);
    if globalStep <= warmup then 0.0
    else
      var ramp := (globalStep - warmup) as real / Total(total - warmup) as real;
      if ramp <= 1.0 then ramp else 1.0
  }

  /** The difficulty always lies in [0, 1]; a non-positive total behaves as a total of 1. */
  lemma DifficultyRange(globalStep: int, totalTimesteps: int)
    ensures 0.0 <= ComputeDifficulty(globalStep, totalTimesteps) <= 1.0
    ensures totalTimesteps <= 0 ==> ComputeDifficulty(globalStep, totalTimesteps) == ComputeDifficulty(globalStep, 1)
  {
    var total := Total(totalTimesteps);
    WarmupIsTenth(total);
  }

  /** The warm-up hold: the difficulty is 0 exactly up to and including step int(total * 0.1). */
  lemma WarmupHold(globalStep: int, totalTimesteps: int)
    ensures ComputeDifficulty(globalStep, totalTimesteps) == 0.0
        <==> globalStep <= WarmupSteps(Total(totalTimesteps))
  {
    var total := Total(totalTimesteps);
    WarmupIsTenth(total);
    var warmup := WarmupSteps(total);
    if globalStep > warmup {
      assert (globalStep - warmup) as real / Total(total - warmup) as real > 0.0;
    }
  }

  /** The ramp ends at the total: the difficulty is 1 exactly from step max(1, total) on. */
  lemma FullAtEnd(globalStep: int, totalTimesteps: int)
    ensures ComputeDifficulty(globalStep, totalTimesteps) == 1.0 <==> globalStep >= Total(totalTimesteps)
  {
    var total := Total(totalTimesteps);
    WarmupIsTenth(total);
    var warmup := WarmupSteps(total);
    var remaining := total - warmup;
    assert Total(remaining) == remaining;
    if globalStep > warmup {
      AtLeastOne((globalStep - warmup) as real, remaining as real);
    }
  }

  /** A quotient by a positive number reaches 1 exactly when the dividend reaches the divisor. */
  lemma AtLeastOne(a: real, b: real)
    requires b > 0.0
    ensures a / b >= 1.0 <==> a >= b
  {
    var q := a / b;
    assert q * b == a;
    if q >= 1.0 {
      assert (q - 1.0) * b >= 0.0;
    } else {
      assert (1.0 - q) * b > 0.0;
    }
  }

  /** A later step never has a lower difficulty. */
  lemma DifficultyMonotone(step1: int, step2: int, totalTimesteps: int)
    requires step1 <= step2
    ensures ComputeDifficulty(step1, totalTimesteps) <= ComputeDifficulty(step2, totalTimesteps)
  {
    var total := Total(totalTimesteps);
    WarmupIsTenth(total);
    DifficultyRange(step2, totalTimesteps);
    var warmup := WarmupSteps(total);
    var remaining := Total(total - warmup) as real;
    if step1 > warmup {
      QuotientMonotone((step1 - warmup) as real, (step2 - warmup) as real, remaining);
    }
  }

  /** Dividing by the same positive number keeps the order. */
  lemma QuotientMonotone(a1: real, a2: real, b: real)
    requires b > 0.0 && a1 <= a2
    ensures a1 / b <= a2 / b
  {
    assert a2 / b - a1 / b == (a2 - a1) / b;
  }

  // ---------------------------------------------------------------------------
  // The wrapper.
  // ---------------------------------------------------------------------------

  /** The log dictionary returned by the C instances' vec_log; empty when no episode finished. */
  type LogDict = map<string, real>

  /** `self._tick % self.log_interval == 0`: a step whose tick is a multiple of the interval polls the log. */
  predicate LogDue(tick: int, logInterval: int)
    requires logInterval != 0
  {
    tick % logInterval == 0
  }

  /** The info list of a step: the polled log, when the step polls and the log is not empty. */
  function Info(tick: int, logInterval: int, log: LogDict): (info: seq<LogDict>)
    requires logInterval != 0
    ensures |info| <= 1
    ensures |info| == 1 <==> LogDue(tick, logInterval) && |log| > 0
    ensures |info| == 1 ==> info[0] == log
  {
    if LogDue(tick, logInterval) && |log| > 0 then [log] else []
  }

  /** How many of the ticks 1..k poll the log. */
  function Polls(k: nat, logInterval: int): nat
    requires logInterval != 0
  {
    if k == 0 then 0 else Polls(k - 1, logInterval) + (if LogDue(k, logInterval) then 1 else 0)
  }

  /** Division by m goes up by one exactly at the multiples of m. */
  lemma DivStep(k: nat, m: int)
    requires m > 0 && k > 0
    ensures k / m == (k - 1) / m + (if k % m == 0 then 1 else 0)
  {
    var q, r := (k - 1) / m, (k - 1) % m;
    assert k - 1 == q * m + r;
    if r + 1 == m {
      assert k == (q + 1) * m;
      DivUnique(k, m, q + 1, 0);
    } else {
      DivUnique(k, m, q, r + 1);
    }
  }

  lemma DivUnique(k: int, m: int, q: int, r: int)
    requires m > 0 && 0 <= r < m && k == q * m + r
    ensures k / m == q && k % m == r
  {
    var q', r' := k / m, k % m;
    assert q * m + r == q' * m + r';
    if q > q' {
      MulDistrib(q - q', q', m);
      MulAtLeast(q - q', m);
    } else if q < q' {
      MulDistrib(q' - q, q, m);
      MulAtLeast(q' - q, m);
    }
  }

  lemma MulDistrib(a: int, b: int, m: int)
    ensures (a + b) * m == a * m + b * m
  {
  }

  lemma MulAtLeast(a: int, m: int)
    requires a >= 1 && m > 0
    ensures a * m >= m
  {
  }

  lemma {:induction false} PollsCount(k: nat, logInterval: int)
    requires logInterval > 0
    ensures Polls(k, logInterval) == k / logInterval
  {
    if k > 0 {
      PollsCount(k - 1, logInterval);
      DivStep(k, logInterval);
    }
  }

  /** Between two resets, the first k steps poll the log k / |log_interval| times. */
  lemma PollsAfterReset(k: nat, logInterval: int)
    requires logInterval != 0
    ensures Polls(k, logInterval) == k / (if logInterval > 0 then logInterval else -logInterval)
  {
    if logInterval > 0 {
      PollsCount(k, logInterval);
    } else {
      SameDivisors(k, logInterval);
      PollsCount(k, -logInterval);
    }
  }

  /** A negative interval polls on the same ticks as its absolute value. */
  lemma {:induction false} SameDivisors(k: nat, logInterval: int)
    requires logInterval < 0
    ensures Polls(k, logInterval) == Polls(k, -logInterval)
  {
    if k > 0 {
      SameDivisors(k - 1, logInterval);
      assert k % logInterval == 0 <==> k % -logInterval == 0 by {
        var m := -logInterval;
        if k % m == 0 {
          assert k == (k / m) * m;
          assert k == (-(k / m)) * logInterval;
        }
        if k % logInterval == 0 {
          assert k == (k / logInterval) * logInterval;
          assert k == (-(k / logInterval)) * m;
        }
      }
    }
  }

  /**
   * FlappyCurriculum: the tick counter, the action buffer shared with the C
   * instances, and the shared difficulty handle. The C instances themselves
   * are reached through the binding, which is not part of this model: a
   * method returns the difficulty it hands to them, and `Step` takes the
   * dictionary vec_log would return.
   */
  class FlappyCurriculum {
    const logInterval: int
    const hasHandle: bool
    const actions: array<int>
    var tick: int

    ghost predicate Valid()
      reads this
    {
      logInterval != 0 && tick >= 0
    }

    constructor (numEnvs: nat, logInterval: int, hasHandle: bool)
      requires logInterval != 0
      ensures Valid() && fresh(actions) && actions.Length == numEnvs
      ensures this.logInterval == logInterval && this.hasHandle == hasHandle && tick == 0
    {
      this.logInterval := logInterval;
      this.hasHandle := hasHandle;
      actions := new int[numEnvs];
      tick := 0;
    }

    /** reset: the shared difficulty (or 0) goes to vec_reset, and the tick restarts. */
    method Reset(shared: real) returns (difficulty: real)
      requires Valid()
      modifies this`tick
      ensures Valid() && tick == 0
      ensures hasHandle ==> difficulty == shared
      ensures !hasHandle ==> difficulty == 0.0
    {
      difficulty := if hasHandle then shared else 0.0;
      tick := 0;
    }

    /**
     * step: one more tick, the actions copied into the shared buffer, the
     * difficulty pushed to vec_step, and the log passed on when it is due
     * and not empty.
     */
    method Step(acts: seq<int>, shared: real, log: LogDict) returns (difficulty: real, info: seq<LogDict>)
      requires Valid() && |acts| == actions.Length
      modifies this`tick, actions
      ensures Valid() && tick == old(tick) + 1
      ensures actions[..] == acts
      ensures hasHandle ==> difficulty == shared
      ensures !hasHandle ==> difficulty == 0.0
      ensures info == Info(tick, logInterval, log)
    {
      tick := tick + 1;
      var i := 0;
      while i < actions.Length
        modifies actions
        invariant 0 <= i <= actions.Length
        invariant actions[..i] == acts[..i]
      {
        actions[i] := acts[i];
        i := i + 1;
      }
      difficulty := if hasHandle then shared else 0.0;
      info := [];
      if tick % logInterval == 0 {
        if |log| > 0 {
          info := info + [log];
        }
      }
    }
  }
}
