/**
 * FlappyGridEnv of src/flappy_rl/env.py: a bird on a two-row strip (row 0 is
 * the floor, row 1 the ceiling) that is told each step to go up (1) or down
 * (0), and dies by pushing into the row it is already in.
 *
 * NumPy's default_rng is not modelled: a generator is its seed and the number
 * of draws taken from it, and `integers(0, 2)` and `random()` at a position
 * are the functions `Generators.integers` and `Generators.random` of the seed
 * and the position.
 */
module Grid {
  import opened Wrappers

  const MaxSteps := 2000
  const SurviveReward: real := 0.01

  type Bit = b: int | 0 <= b <= 1

  /** default_rng(seed) after `pos` draws. */
  datatype Rng = Rng(seed: int, pos: nat)

  /** The draws of default_rng: rng.integers(0, 2) and rng.random() at a seed and position. */
  datatype Generators = Generators(integers: (int, nat) -> Bit, random: (int, nat) -> real)

  /** The instance fields `_y`, `_step_count`, `_wall_roof`, `_wall_floor` and `_rng`, as a value. */
  datatype State = State(y: int, stepCount: int, wallRoof: int, wallFloor: int, rng: Rng)

  datatype Outcome = Outcome(state: State, reward: real, terminal: bool, truncation: bool)

  function Next(r: Rng): Rng { r.(pos := r.pos + 1) }

  /** _obs: each 0/1 field scaled to -1/+1 (position -1 is the floor, +1 the ceiling). */
  function Obs(s: State): (o: seq<real>)
    ensures |o| == 3
  {
    [2.0 * s.y as real - 1.0, 2.0 * s.wallRoof as real - 1.0, 2.0 * s.wallFloor as real - 1.0]
  }

  /** _sample_walls: a random() draw below 0.5 puts the wall at the roof, otherwise at the floor. */
  function SampleWalls(gen: Generators, s: State): (r: State)
  {
    if gen.random(s.rng.seed, s.rng.pos) < 0.5 then s.(wallRoof := 1, wallFloor := 0, rng := Next(s.rng))
    else s.(wallRoof := 0, wallFloor := 1, rng := Next(s.rng))
  }

  /** reset(seed): reseed when a seed is given, draw the row, restart the count, sample the walls. */
  function ResetState(gen: Generators, s: State, seed: Option<int>): (r: State)
  {
    var rng := if seed.Some? then Rng(seed.value, 0) else s.rng;
    SampleWalls(gen, State(gen.integers(rng.seed, rng.pos), 0, s.wallRoof, s.wallFloor, Next(rng)))
  }

  /** Pushing up from the ceiling or down from the floor. */
  predicate Hit(y: int, a: int)
  {
    (y == 1 && a == 1) || (y == 0 && a == 0)
  }

  /** step(action) on the state. */
  function StepState(gen: Generators, s: State, a: int): (r: Outcome)
  {
    if Hit(s.y, a) then Outcome(s, -1.0, true, false)
    else
      var s' := SampleWalls(gen, s.(y := if a == 1 then 1 else 0, stepCount := s.stepCount + 1));
      Outcome(s', SurviveReward, false, s'.stepCount >= MaxSteps)
  }

  // ---------------------------------------------------------------------------
  // What reset and step promise.
  // ---------------------------------------------------------------------------

  /** Exactly one of the two walls is up. */
  predicate OneWall(s: State)
  {
    (s.wallRoof == 1 && s.wallFloor == 0) || (s.wallRoof == 0 && s.wallFloor == 1)
  }

  /** The states reset and step produce: a row, a count, one wall. */
  predicate Reachable(s: State)
  {
    (s.y == 0 || s.y == 1) && s.stepCount >= 0 && OneWall(s)
  }

  lemma SampleWallsOneWall(gen: Generators, s: State)
    ensures OneWall(SampleWalls(gen, s))
    ensures SampleWalls(gen, s).y == s.y && SampleWalls(gen, s).stepCount == s.stepCount
    ensures SampleWalls(gen, s).wallRoof == 1 <==> gen.random(s.rng.seed, s.rng.pos) < 0.5
    ensures SampleWalls(gen, s).rng == Next(s.rng)
  {
  }

  /** reset: row 0 or 1, no steps, one wall; with a seed, the result depends on the seed alone. */
  lemma ResetFacts(gen: Generators, s1: State, s2: State, seed: Option<int>)
    ensures var r := ResetState(gen, s1, seed);
      Reachable(r) && r.stepCount == 0
    ensures seed.Some? ==> ResetState(gen, s1, seed) == ResetState(gen, s2, seed)
  {
  }

  /** A step keeps the state in the reachable set. */
  lemma StepKeepsReachable(gen: Generators, s: State, a: int)
    requires Reachable(s)
    ensures Reachable(StepState(gen, s, a).state)
  {
  }

  /** Every observation of a reachable state is -1 or +1, and position -1 means the floor. */
  lemma ObsValues(s: State)
    requires Reachable(s)
    ensures forall i :: 0 <= i < 3 ==> Obs(s)[i] == -1.0 || Obs(s)[i] == 1.0
    ensures Obs(s)[0] == -1.0 <==> s.y == 0
    ensures Obs(s)[0] == 1.0 <==> s.y == 1
    ensures Obs(s)[1] == -Obs(s)[2]
  {
  }

  /**
   * A hit ends the episode with -1 and changes nothing: not the row, not the
   * count, not the walls, not the generator; the walls play no part in
   * whether a step hits.
   */
  lemma HitFacts(gen: Generators, s: State, a: int, roof: int, floor: int)
    ensures var r := StepState(gen, s, a);
      && (r.terminal <==> (s.y == 1 && a == 1) || (s.y == 0 && a == 0))
      && (r.terminal ==> r.state == s && r.reward == -1.0 && !r.truncation)
      && StepState(gen, s.(wallRoof := roof, wallFloor := floor), a).terminal == r.terminal
  {
  }

  /**
   * A step that does not hit moves to row 1 for action 1 and to row 0 for any
   * other action, counts one step, earns exactly 0.01, resamples the walls,
   * and is truncated exactly from step 2000 on.
   */
  lemma SurviveFacts(gen: Generators, s: State, a: int)
    requires !Hit(s.y, a)
    ensures var r := StepState(gen, s, a);
      && !r.terminal && r.reward == SurviveReward
      && r.state.y == (if a == 1 then 1 else 0) && r.state.stepCount == s.stepCount + 1
      && OneWall(r.state) && r.state.rng == Next(s.rng)
      && (r.truncation <==> s.stepCount + 1 >= MaxSteps)
  {
  }

  /** Any action other than 0 and 1 never hits and moves the bird to the floor row. */
  lemma InvalidActionFalls(gen: Generators, s: State, a: int)
    requires a != 0 && a != 1
    ensures var r := StepState(gen, s, a);
      !r.terminal && r.state.y == 0 && r.reward == SurviveReward
  {
  }

  /** The reward of every step is exactly -1 or exactly 0.01, and -1 exactly on a terminal step. */
  lemma RewardValues(gen: Generators, s: State, a: int)
    ensures var r := StepState(gen, s, a);
      (r.reward == -1.0 <==> r.terminal) && (r.reward == SurviveReward <==> !r.terminal)
  {
  }

  /** k steps of the policy that always moves to the other row: the final state, the return and the hits. */
  datatype Run = Run(state: State, total: real, hits: nat)

  function FlipRun(gen: Generators, s: State, k: nat): Run
    decreases k
  {
    if k == 0 then Run(s, 0.0, 0)
    else
      var o := StepState(gen, s, 1 - s.y);
      var rest := FlipRun(gen, o.state, k - 1);
      Run(rest.state, o.reward + rest.total, (if o.terminal then 1 else 0) + rest.hits)
  }

  /**
   * Moving to the other row never hits: k such steps from a row count k steps
   * and earn exactly 0.01 each, the largest return k steps can have
   * (RunReturnAtMost).
   */
  lemma {:induction false} FlipNeverHits(gen: Generators, s: State, k: nat)
    requires s.y == 0 || s.y == 1
    decreases k
    ensures var r := FlipRun(gen, s, k);
      r.hits == 0 && r.total == k as real * SurviveReward && r.state.stepCount == s.stepCount + k
      && (r.state.y == 0 || r.state.y == 1)
  {
    if k > 0 {
      FlipNeverHits(gen, StepState(gen, s, 1 - s.y).state, k - 1);
    }
  }

  /** The steps of any sequence of actions: the final state, the return and the hits. */
  function ActionRun(gen: Generators, s: State, acts: seq<int>): Run
    decreases |acts|
  {
    if |acts| == 0 then Run(s, 0.0, 0)
    else
      var o := StepState(gen, s, acts[0]);
      var rest := ActionRun(gen, o.state, acts[1..]);
      Run(rest.state, o.reward + rest.total, (if o.terminal then 1 else 0) + rest.hits)
  }

  /** No policy earns more than 0.01 per step, and each hit costs 1.01 of that. */
  lemma {:induction false} RunReturnAtMost(gen: Generators, s: State, acts: seq<int>)
    decreases |acts|
    ensures var r := ActionRun(gen, s, acts);
      r.total == |acts| as real * SurviveReward - r.hits as real * (1.0 + SurviveReward)
      && r.total <= |acts| as real * SurviveReward
  {
    if |acts| > 0 {
      RewardValues(gen, s, acts[0]);
      RunReturnAtMost(gen, StepState(gen, s, acts[0]).state, acts[1..]);
    }
  }

  // ---------------------------------------------------------------------------
  // The instance.
  // ---------------------------------------------------------------------------

  /**
   * FlappyGridEnv with its single agent: the observation row is
   * `observations[0..3]`, and rewards, terminals and truncations have one slot.
   */
  class FlappyGrid {
    const gen: Generators
    const observations: array<real>
    const rewards: array<real>
    const terminals: array<bool>
    const truncations: array<bool>

    var y: int
    var stepCount: int
    var wallRoof: int
    var wallFloor: int
    var rng: Rng

    ghost predicate Valid()
      reads this
    {
      && observations.Length == 3 && rewards.Length == 1 && terminals.Length == 1 && truncations.Length == 1
      && observations != rewards && terminals != truncations
    }

    function Current(): State
      reads this
    {
      State(y, stepCount, wallRoof, wallFloor, rng)
    }

    /** __init__(buf, seed): all fields zero, the generator seeded. */
    constructor (gen: Generators, seed: int,
                 observations: array<real>, rewards: array<real>, terminals: array<bool>, truncations: array<bool>)
      requires observations.Length == 3 && rewards.Length == 1 && terminals.Length == 1 && truncations.Length == 1
      requires observations != rewards && terminals != truncations
      ensures Valid() && this.gen == gen
      ensures Current() == State(0, 0, 0, 0, Rng(seed, 0))
    {
      this.gen := gen;
      this.observations := observations;
      this.rewards := rewards;
      this.terminals := terminals;
      this.truncations := truncations;
      y := 0;
      stepCount := 0;
      wallRoof := 0;
      wallFloor := 0;
      rng := Rng(seed, 0);
    }

    /** _write_obs. */
    method WriteObs()
      requires Valid()
      modifies observations
      ensures observations[..] == Obs(Current())
    {
      observations[0] := 2.0 * y as real - 1.0;
      observations[1] := 2.0 * wallRoof as real - 1.0;
      observations[2] := 2.0 * wallFloor as real - 1.0;
    }

    method SampleWallsInPlace()
      modifies this`wallRoof, this`wallFloor, this`rng
      ensures Current() == SampleWalls(gen, old(Current()))
    {
      var u := gen.random(rng.seed, rng.pos);
      rng := Next(rng);
      if u < 0.5 {
        wallRoof, wallFloor := 1, 0;
      } else {
        wallRoof, wallFloor := 0, 1;
      }
    }

    /** reset(seed); `seed` is None for reset(None), which keeps the generator. */
    method Reset(seed: Option<int>)
      requires Valid()
      modifies this, observations
      ensures Valid()
      ensures Current() == ResetState(gen, old(Current()), seed)
      ensures observations[..] == Obs(Current())
    {
      if seed.Some? {
        rng := Rng(seed.value, 0);
      }
      y := gen.integers(rng.seed, rng.pos);
      rng := Next(rng);
      stepCount := 0;
      SampleWallsInPlace();
      WriteObs();
    }

    /** step(action). */
    method Step(a: int)
      requires Valid()
      modifies this, observations, rewards, terminals, truncations
      ensures Valid()
      ensures var r := StepState(gen, old(Current()), a);
        && Current() == r.state && rewards[0] == r.reward
        && terminals[0] == r.terminal && truncations[0] == r.truncation
        && observations[..] == Obs(r.state)
    {
      rewards[0] := 0.0;
      terminals[0] := false;
      truncations[0] := false;
      var hitCeiling := y == 1 && a == 1;
      var hitFloor := y == 0 && a == 0;
      if hitCeiling || hitFloor {
        rewards[0] := -1.0;
        terminals[0] := true;
        WriteObs();
        return;
      }
      y := if a == 1 then 1 else 0;
      stepCount := stepCount + 1;
      SampleWallsInPlace();
      rewards[0] := SurviveReward;
      if stepCount >= MaxSteps {
        truncations[0] := true;
      }
      WriteObs();
    }
  }
}
