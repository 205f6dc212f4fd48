/**
 * The gap-centre distribution of the curriculum Flappy instance
 * (spawn_pipe of variations/flappy/flappy.h), as pure functions of the
 * difficulty d and of the C library's rand() stream.
 *
 * The uniform range [0.5 - h, 0.5 + h] widens with h = min(d, 0.25); an
 * "extreme" probability, a hump that is zero outside (0.25, 0.85) and peaks
 * at 0.45 for d = 0.55, sends a draw to one of the bands [0.25, 0.35] and
 * [0.65, 0.75] instead.
 */
module GapDistribution {

  const PeakDifficulty: real := 0.55
  const PeakExtreme: real := 0.45

  /** The C cast `(int)x` of a float: truncation toward zero. */
  function Trunc(x: real): (n: int)
    ensures x >= 0.0 ==> n as real <= x < n as real + 1.0
    ensures x < 0.0 ==> n as real - 1.0 < x <= n as real
  {
    if x >= 0.0 then x.Floor else -((-x).Floor)
  }

  /** half_range: the uniform range grows with d until it reaches 0.25 on each side. */
  function HalfRange(d: real): (h: real)
    ensures h <= 0.25 && h <= d
    ensures h == 0.25 || h == d
  {
    if d < 0.25 then d else 0.25
  }

  function GapMin(d: real): (g: real)
    ensures g >= 0.25
  {
    0.5 - HalfRange(d)
  }

  function GapMax(d: real): (g: real)
    ensures g <= 0.75
  {
    0.5 + HalfRange(d)
  }

  /** extreme_prob: rises from 0 at d = 0.25 to 0.45 at d = 0.55, falls back to 0 at d = 0.85. */
  function ExtremeProb(d: real): (q: real)
  {
    if 0.25 < d < 0.85 then
      var t := if d <= PeakDifficulty then (d - 0.25) / (PeakDifficulty - 0.25)
               else 1.0 - (d - PeakDifficulty) / (0.85 - PeakDifficulty);
      t * PeakExtreme
    else 0.0
  }

  function Min(a: real, b: real): real { if a <= b then a else b }
  function Max(a: real, b: real): real { if a >= b then a else b }
  function AbsDiff(a: real, b: real): real { if a >= b then a - b else b - a }

  /** The same hump written as a clipped tent with slope 1.5 on both sides. */
  function Tent(d: real): real
  {
    Max(0.0, Min(1.5 * (d - 0.25), 1.5 * (0.85 - d)))
  }

  lemma ExtremeProbIsTent(d: real)
    ensures ExtremeProb(d) == Tent(d)
  {
  }

  /** The hump lies in [0, 0.45], vanishes outside (0.25, 0.85) and peaks at d = 0.55. */
  lemma ExtremeProbBounds(d: real)
    ensures 0.0 <= ExtremeProb(d) <= PeakExtreme
    ensures d <= 0.25 || d >= 0.85 ==> ExtremeProb(d) == 0.0
    ensures 0.25 < d < 0.85 ==> ExtremeProb(d) > 0.0
    ensures ExtremeProb(PeakDifficulty) == PeakExtreme
  {
    ExtremeProbIsTent(d);
  }

  /** Rising up to the peak, falling after it. */
  lemma ExtremeProbMonotone(d1: real, d2: real)
    requires d1 <= d2
    ensures d2 <= PeakDifficulty ==> ExtremeProb(d1) <= ExtremeProb(d2)
    ensures PeakDifficulty <= d1 ==> ExtremeProb(d1) >= ExtremeProb(d2)
  {
    ExtremeProbIsTent(d1);
    ExtremeProbIsTent(d2);
  }

  /** No jump anywhere: the probability moves by at most 1.5 times the change of difficulty. */
  lemma ExtremeProbContinuous(d1: real, d2: real)
    ensures AbsDiff(ExtremeProb(d1), ExtremeProb(d2)) <= 1.5 * AbsDiff(d1, d2)
  {
    ExtremeProbIsTent(d1);
    ExtremeProbIsTent(d2);
  }

  /** steps of the uniform branch: (int)((gap_max - gap_min) * 100 + 0.5). */
  function UniformSteps(d: real): int
  {
    Trunc((GapMax(d) - GapMin(d)) * 100.0 + 0.5)
  }

  /** The j-th point of the uniform grid: gap_min + j / 100. */
  function UniformCenter(d: real, j: int): real
  {
    GapMin(d) + j as real / 100.0
  }

  /** A spawned gap centre and the number of rand() calls it took. */
  datatype Draw = Draw(center: real, draws: nat)

  /**
   * spawn_pipe's gap centre, reading rand() from position k of the stream:
   * one draw against the extreme probability, then either a coin and a band
   * offset, or (when the range is not a single point) one uniform step.
   */
  function GapCenter(d: real, rand: nat -> nat, k: nat): (g: Draw)
    ensures 1 <= g.draws <= 3
  {
    var r := (rand(k) % 1000) as real / 1000.0;
    if r < ExtremeProb(d) then
      var band := if rand(k + 1) % 2 == 0 then 0.25 else 0.65;
      Draw(band + (rand(k + 2) % 11) as real / 100.0, 3)
    else
      var steps := UniformSteps(d);
      if steps <= 0 then Draw(0.5, 1)
      else Draw(UniformCenter(d, rand(k + 1) % (steps + 1)), 2)
  }

  /** At difficulty 0 (and below) every gap is centred: one draw, centre exactly 0.5. */
  lemma {:induction false} ZeroDifficultyCentred(d: real, rand: nat -> nat, k: nat)
    requires d <= 0.0
    ensures GapCenter(d, rand, k) == Draw(0.5, 1)
  {
    ExtremeProbBounds(d);
    assert (GapMax(d) - GapMin(d)) * 100.0 + 0.5 <= 0.5;
    assert UniformSteps(d) <= 0;
  }

  /** Three draws means the extreme branch, whose centres lie in [0.25, 0.35] or [0.65, 0.75]. */
  lemma ExtremeBands(d: real, rand: nat -> nat, k: nat)
    ensures var g := GapCenter(d, rand, k);
      g.draws == 3 ==> (0.25 <= g.center <= 0.35 || 0.65 <= g.center <= 0.75)
  {
  }

  /** The uniform branch: gap_min + j / 100 for some step j in 0..steps. */
  lemma UniformBranch(d: real, rand: nat -> nat, k: nat)
    ensures var g := GapCenter(d, rand, k);
      g.draws == 2 ==>
        (UniformSteps(d) > 0 && exists j :: 0 <= j <= UniformSteps(d) && g.center == UniformCenter(d, j))
  {
    var g := GapCenter(d, rand, k);
    if g.draws == 2 {
      var j := rand(k + 1) % (UniformSteps(d) + 1);
      assert g.center == UniformCenter(d, j);
    }
  }

  /** From d = 0.25 on, with the full range, every centre lies in [0.25, 0.75]. */
  lemma {:induction false} FullRangeBounds(d: real, rand: nat -> nat, k: nat)
    requires d >= 0.25
    ensures 0.25 <= GapCenter(d, rand, k).center <= 0.75
  {
    assert (GapMax(d) - GapMin(d)) * 100.0 + 0.5 == 50.5;
    assert UniformSteps(d) == 50;
    ExtremeBands(d, rand, k);
  }

  /**
   * While the range widens (0 < d < 0.25) the centre stays at or above
   * gap_min, but rounding `steps` up can put it up to 0.005 above gap_max.
   */
  lemma {:induction false} WideningBounds(d: real, rand: nat -> nat, k: nat)
    requires 0.0 < d < 0.25
    ensures var c := GapCenter(d, rand, k).center;
      GapMin(d) <= c <= GapMax(d) + 0.005
  {
    ExtremeProbBounds(d);
    var steps := UniformSteps(d);
    assert steps as real <= 200.0 * d + 0.5;
    if steps > 0 {
      var j := rand(k + 1) % (steps + 1);
      assert j as real / 100.0 <= steps as real / 100.0;
    }
  }

  /**
   * Just below d = 0.25 the rounding does leave [0.25, 0.75]: at d = 0.249
   * there are 50 steps of 0.01 from 0.251, and the last one is 0.751.
   */
  lemma WideningOvershoot()
    ensures GapCenter(0.249, i => if i == 0 then 999 else 50, 0).center > 0.75
  {
    var rand: nat -> nat := i => if i == 0 then 999 else 50;
    ExtremeProbBounds(0.249);
    assert (GapMax(0.249) - GapMin(0.249)) * 100.0 + 0.5 == 50.3;
    assert UniformSteps(0.249) == 50;
    assert GapCenter(0.249, rand, 0).center == UniformCenter(0.249, 50);
  }
}
