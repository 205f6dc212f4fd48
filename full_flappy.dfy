/**
 * The full-physics Flappy instance of src/flappy_rl/flappy/flappy.h.
 *
 * `Flappy` is the C struct: `init` is its constructor, `Reset` is `c_reset`,
 * `Step` is `c_step`; they update the fields and the pipe array in place and
 * write into the caller's observation, reward and terminal buffers. Each is
 * proved equal to a function on the instance's state as a value (`Env`):
 * `ResetEnv` and `StepOutcome`. The lemmas at the end state what a step does
 * (death, scoring, recycling, shaped rewards, the step limit) about those
 * functions.
 *
 * The C library's `rand()` is the instance's `rand` stream: the k-th call
 * made by this instance returns `rand(k)`, and `randCalls` counts the calls.
 */
module FullFlappy {
  import opened Wrappers
  import opened Pipes

  const ObsDim := 9
  const SurvivalBonus: real := 0.01
  const InGapBonus: real := 0.02
  const AlignmentBonus: real := 0.008
  const AlignmentTolerance: real := 0.2
  const StreakBonus: real := 0.1
  const FlapPenalty: real := 0.001
  /** `half > 1e-6f` guard of the gap-clearance observations. */
  const MinHalfGap: real := 0.000001

  datatype Log = Log(perf: real, score: real, episodeReturn: real, episodeLength: real, n: real)

  /** What `init` fixes: viewport, step limit, and the rand() stream. */
  datatype Params = Params(width: int, height: int, maxSteps: int, rand: nat -> nat)

  /** The fields `c_reset` and `c_step` change, as a value; `pipes` is the whole MAX_PIPES array. */
  datatype Env = Env(
    birdY: real, birdVy: real, pipes: seq<Pipe>, numPipes: int,
    score: int, stepCount: int, log: Log, randCalls: nat)

  /** A step's new state and what it writes into the buffers. */
  datatype Outcome = Outcome(env: Env, reward: real, terminal: Byte, obs: seq<real>)

  predicate WellFormed(p: Params, e: Env)
  {
    p.width > 0 && p.height > 0 && |e.pipes| == MaxPipes && 0 <= e.numPipes <= MaxPipes
  }

  function Abs(v: real): real { if v < 0.0 then -v else v }

  // ---------------------------------------------------------------------------
  // Logging and reset.
  // ---------------------------------------------------------------------------

  /** add_log: records the finished episode's score and length and counts it. */
  function AddLog(log: Log, score: int, stepCount: int): (r: Log)
    ensures r.n == log.n + 1.0 && r.episodeReturn == log.episodeReturn
    ensures r.score == score as real && r.episodeLength == stepCount as real
    ensures r.perf == 1.0 <==> score > 0
    ensures r.perf == 0.0 <==> score <= 0
  {
    log.(perf := if score > 0 then 1.0 else 0.0, score := score as real,
         episodeLength := stepCount as real, n := log.n + 1.0)
  }

  /** The gap centre drawn by spawn_pipe (and by c_reset): 0.25 + (rand() % 50) / 100. */
  function SpawnGap(draw: nat): (c: real)
    ensures 0.25 <= c <= 0.74
  {
    0.25 + (draw % 50) as real / 100.0
  }

  function StartX(width: int): real { width as real * 0.5 }

  /** Pipe i as c_reset lays it out, with the i-th of the three draws it makes. */
  function ResetPipe(p: Params, randCalls: nat, i: nat): Pipe
  {
    Pipe(StartX(p.width) + i as real * p.width as real * PipeSpacingRatio,
         SpawnGap(p.rand(randCalls + i)), GapHeightRatio, 0)
  }

  /** The three pipes c_reset lays out, in order; the other slots keep their contents. */
  function ResetPipes(p: Params, pipes: seq<Pipe>, randCalls: nat): (ps: seq<Pipe>)
    requires |pipes| == MaxPipes
    ensures |ps| == MaxPipes
  {
    [ResetPipe(p, randCalls, 0), ResetPipe(p, randCalls, 1), ResetPipe(p, randCalls, 2)] + pipes[3..]
  }

  /** c_reset on the state: a fresh episode; the log keeps everything but its running return. */
  function ResetEnv(p: Params, e: Env): (r: Env)
    requires |e.pipes| == MaxPipes
    ensures |r.pipes| == MaxPipes
  {
    Env(0.5, 0.0, ResetPipes(p, e.pipes, e.randCalls), 3, 0, 0, e.log.(episodeReturn := 0.0), e.randCalls + 3)
  }

  /**
   * After c_reset the bird is at rest at mid-height, with no score and no steps;
   * pipe i sits at 0.5 * width + i * width * pipe_spacing (so left to right in
   * index order), is unscored, and has a gap centre 0.25 + k/100 for some k < 50.
   */
  lemma {:induction false} ResetLayout(p: Params, e: Env)
    requires WellFormed(p, e)
    ensures var r := ResetEnv(p, e);
      && r.birdY == 0.5 && r.birdVy == 0.0 && r.score == 0 && r.stepCount == 0 && r.numPipes == 3
      && r.randCalls == e.randCalls + 3 && r.log.n == e.log.n
      && r.pipes[0].x < r.pipes[1].x < r.pipes[2].x
      && (forall i :: 0 <= i < 3 ==>
            && r.pipes[i].x == 0.5 * p.width as real + i as real * p.width as real * PipeSpacingRatio
            && r.pipes[i].scored == 0
            && r.pipes[i].gapHeight == GapHeightRatio
            && r.pipes[i].gapCenterY == 0.25 + (p.rand(e.randCalls + i) % 50) as real / 100.0
            && 0.25 <= r.pipes[i].gapCenterY <= 0.74)
  {
    var r := ResetEnv(p, e);
    var w := p.width as real;
    assert r.pipes[..3] == [ResetPipe(p, e.randCalls, 0), ResetPipe(p, e.randCalls, 1), ResetPipe(p, e.randCalls, 2)];
  }

  // ---------------------------------------------------------------------------
  // Observations.
  // ---------------------------------------------------------------------------

  /** Observations 2..8: distance, gap and clearances of the next pipe (if any) as the search found it. */
  function PipeObs(birdY: real, next: Option<Pipe>, birdX: real, width: int): (o: seq<real>)
    requires width > 0
    ensures |o| == ObsDim - 2
  {
    match next
    case None => [1.0, 0.5, GapHeightRatio, 0.0, 0.0, 0.0, 0.0]
    case Some(q) =>
      var half := q.gapHeight * 0.5;
      var topEdge := q.gapCenterY - half;
      var bottomEdge := q.gapCenterY + half;
      [Clamp((q.x - birdX) / width as real, 0.0, 1.0), q.gapCenterY, q.gapHeight, 1.0,
       Clamp(q.gapCenterY - birdY, -1.0, 1.0),
       if half > MinHalfGap then Clamp((topEdge - birdY) / half, -1.0, 1.0) else 0.0,
       if half > MinHalfGap then Clamp((birdY - bottomEdge) / half, -1.0, 1.0) else 0.0]
  }

  /** The 9 observations: clamped height and scaled velocity, then the next pipe's features. */
  function ObsVector(birdY: real, birdVy: real, next: Option<Pipe>, birdX: real, width: int): (o: seq<real>)
    requires width > 0
    ensures |o| == ObsDim
    ensures 0.0 <= o[0] <= 1.0 && -1.0 <= o[1] <= 1.0 && 0.0 <= o[2] <= 1.0
    ensures o[5] == 1.0 <==> next.Some?
    ensures o[5] == 0.0 <==> next.None?
    ensures -1.0 <= o[6] <= 1.0 && -1.0 <= o[7] <= 1.0 && -1.0 <= o[8] <= 1.0
    ensures 0.0 <= birdY <= 1.0 ==> o[0] == birdY
    ensures next.None? ==> o[2] == 1.0 && o[3] == 0.5 && o[4] == GapHeightRatio && o[6] == o[7] == o[8] == 0.0
    ensures next.Some? ==> o[3] == next.value.gapCenterY && o[4] == next.value.gapHeight
  {
    [Clamp(birdY, 0.0, 1.0), Clamp(birdVy / 0.1, -1.0, 1.0)] + PipeObs(birdY, next, birdX, width)
  }

  /** The next pipe of a state: the leftmost one ahead of the bird (see NextIndexIsLeftmostAhead). */
  function NextPipeOf(p: Params, e: Env): Option<Pipe>
    requires WellFormed(p, e)
  {
    var k := NextIndex(e.pipes, e.numPipes, BirdX(p.width), PipeWidth(p.width));
    if k >= 0 then Some(e.pipes[k]) else None
  }

  /** compute_observations on a state. */
  function Observe(p: Params, e: Env): (o: seq<real>)
    requires WellFormed(p, e)
    ensures |o| == ObsDim
  {
    ObsVector(e.birdY, e.birdVy, NextPipeOf(p, e), BirdX(p.width), p.width)
  }

  // ---------------------------------------------------------------------------
  // One step.
  // ---------------------------------------------------------------------------

  /** The bird touches the floor or the ceiling (pixel test of c_step). */
  predicate HitsBounds(p: Params, birdY: real)
  {
    OutOfBounds(birdY * p.height as real, p.height as real * BirdRadiusRatio, p.height)
  }

  /** Some live pipe blocks the bird (collides). */
  predicate Collision(p: Params, e: Env)
    requires WellFormed(p, e)
  {
    AnyBlocks(e.pipes, e.numPipes, BirdX(p.width), e.birdY * p.height as real,
              p.height as real * BirdRadiusRatio, p.width, p.height)
  }

  /** Step count, flap or gravity, and the clamped new height. */
  function Integrate(e: Env, a: int): (r: Env)
    ensures 0.0 <= r.birdY <= 1.0
    ensures r.stepCount == e.stepCount + 1
    ensures r.pipes == e.pipes && r.numPipes == e.numPipes && r.score == e.score
  {
    var vy := (if a == 1 then -FlapVel else e.birdVy) + Gravity;
    e.(stepCount := e.stepCount + 1, birdVy := vy, birdY := Clamp(e.birdY + vy, 0.0, 1.0))
  }

  /** The reward a step starts from: zero, minus the flap penalty when it flaps. */
  function FlapReward(a: int): real { if a == 1 then 0.0 - FlapPenalty else 0.0 }

  /** The death test of c_step, made on the integrated state. */
  predicate Dies(p: Params, e: Env, a: int)
    requires WellFormed(p, e)
  {
    var e1 := Integrate(e, a);
    HitsBounds(p, e1.birdY) || Collision(p, e1)
  }

  /** Reward for the passes of one step: the k-th pass of the episode (k = score before it) earns 1 + 0.1 * k. */
  function StreakReward(score: int, passes: nat): real
  {
    if passes == 0 then 0.0
    else StreakReward(score, passes - 1) + 1.0 + StreakBonus * (score + passes - 1) as real
  }

  /** Recycling: the leftmost pipe, once wholly off screen, moves behind the rightmost and gets a new gap. */
  function Recycle(p: Params, e: Env): (r: Env)
    requires WellFormed(p, e)
    ensures WellFormed(p, r)
  {
    var lm := LeftmostIndex(e.pipes, e.numPipes);
    if e.pipes[lm].x + PipeWidth(p.width) < 0.0 then
      var rx := RightmostX(e.pipes, e.numPipes);
      e.(pipes := e.pipes[lm := Pipe(rx + p.width as real * PipeSpacingRatio,
                                     SpawnGap(p.rand(e.randCalls)), GapHeightRatio, 0)],
         randCalls := e.randCalls + 1)
    else e
  }

  /** In-gap bonus (scaled by closeness to the pipe) plus the alignment bonus. */
  function ShapingBonus(birdY: real, q: Pipe, birdX: real, width: int): (b: real)
    requires width > 0
    ensures 0.0 <= b <= InGapBonus + AlignmentBonus
  {
    var half := q.gapHeight * 0.5;
    var scale := 1.0 - Clamp((q.x - birdX) / width as real, 0.0, 1.0);
    var inGap := if birdY >= q.gapCenterY - half && birdY <= q.gapCenterY + half then scale * InGapBonus else 0.0;
    var alignScale := 1.0 - Clamp(Abs(birdY - q.gapCenterY) / AlignmentTolerance, 0.0, 1.0);
    inGap + AlignmentBonus * alignScale
  }

  function Shaping(p: Params, e: Env): (b: real)
    requires WellFormed(p, e)
    ensures b >= 0.0
  {
    match NextPipeOf(p, e)
    case None => 0.0
    case Some(q) => ShapingBonus(e.birdY, q, BirdX(p.width), p.width)
  }

  /** End of episode: add the reward to the running return, log, reset. */
  function Terminate(p: Params, e: Env, reward: real): (r: Outcome)
    requires WellFormed(p, e)
    ensures WellFormed(p, r.env) && r.terminal == 1 && r.reward == reward
  {
    var log := AddLog(e.log.(episodeReturn := e.log.episodeReturn + reward), e.score, e.stepCount);
    var e' := ResetEnv(p, e.(log := log));
    Outcome(e', reward, 1, Observe(p, e'))
  }

  /** The state after the pipe phases of a surviving step: scoring, scrolling, recycling. */
  function Advance(p: Params, e: Env): (r: Env)
    requires WellFormed(p, e)
    ensures WellFormed(p, r)
  {
    var birdX := BirdX(p.width);
    var pw := PipeWidth(p.width);
    var passes := NumPassed(e.pipes, e.numPipes, birdX, pw);
    var scored := e.(pipes := Scrolled(Marked(e.pipes, e.numPipes, birdX, pw), e.numPipes, p.width as real * PipeSpeedRatio),
                     score := e.score + passes);
    Recycle(p, scored)
  }

  /** The end of a surviving step: the step limit ends the episode, otherwise the reward joins the return. */
  function Finish(p: Params, e: Env, reward: real): (r: Outcome)
    requires WellFormed(p, e)
    ensures WellFormed(p, r.env) && r.reward == reward
    ensures r.terminal == 1 <==> e.stepCount >= p.maxSteps
    ensures r.terminal == 0 <==> e.stepCount < p.maxSteps
  {
    if e.stepCount >= p.maxSteps then
      Terminate(p, e, reward)
    else
      var e' := e.(log := e.log.(episodeReturn := e.log.episodeReturn + reward));
      Outcome(e', reward, 0, Observe(p, e'))
  }

  /** The rest of c_step once the bird has survived the collision tests; r0 is the reward so far. */
  function SurviveOutcome(p: Params, e: Env, r0: real): (r: Outcome)
    requires WellFormed(p, e)
    ensures WellFormed(p, r.env)
    ensures r.terminal == 0 || r.terminal == 1
  {
    var passes := NumPassed(e.pipes, e.numPipes, BirdX(p.width), PipeWidth(p.width));
    var e3 := Advance(p, e);
    Finish(p, e3, r0 + StreakReward(e.score, passes) + SurvivalBonus + Shaping(p, e3))
  }

  /** c_step on a state, given the action in actions[0]. */
  function StepOutcome(p: Params, e: Env, a: int): (r: Outcome)
    requires WellFormed(p, e)
    ensures WellFormed(p, r.env)
    ensures r.terminal == 0 || r.terminal == 1
  {
    var e1 := Integrate(e, a);
    if Dies(p, e, a) then Terminate(p, e1, -1.0) else SurviveOutcome(p, e1, FlapReward(a))
  }

  // ---------------------------------------------------------------------------
  // The instance.
  // ---------------------------------------------------------------------------

  class Flappy {
    var log: Log
    const observations: array<real>
    const actions: array<int>
    const rewards: array<real>
    const terminals: array<Byte>

    const width: int
    const height: int
    const gravity: real
    const flapVelocity: real
    const pipeSpeed: real
    const pipeSpacing: real
    const gapHeight: real
    const maxSteps: int

    var birdY: real
    var birdVy: real
    const pipes: array<Pipe>
    var numPipes: int
    var score: int
    var stepCount: int

    const rand: nat -> nat
    var randCalls: nat

    ghost predicate Valid()
      reads this
    {
      && pipes.Length == MaxPipes && observations.Length >= ObsDim && actions.Length >= 1
      && rewards.Length >= 1 && terminals.Length >= 1 && observations != rewards
      && width > 0 && height > 0 && maxSteps > 0
      && gravity == Gravity && flapVelocity == FlapVel && pipeSpeed == width as real * PipeSpeedRatio
      && pipeSpacing == PipeSpacingRatio && gapHeight == GapHeightRatio
      && 0 <= numPipes <= MaxPipes
    }

    function Config(): Params { Params(width, height, maxSteps, rand) }

    function State(): Env
      reads this, pipes
    {
      Env(birdY, birdVy, pipes[..], numPipes, score, stepCount, log, randCalls)
    }

    /**
     * init, on a zero-filled instance: physics constants, pipe speed from the
     * width, and a step limit of 5000 when the one given is not positive.
     */
    constructor Init(width: int, height: int, maxSteps: int,
                     observations: array<real>, actions: array<int>, rewards: array<real>,
                     terminals: array<Byte>, rand: nat -> nat)
      requires width > 0 && height > 0
      requires observations.Length >= ObsDim && actions.Length >= 1 && rewards.Length >= 1 && terminals.Length >= 1
      requires observations != rewards
      ensures Valid() && fresh(pipes)
      ensures this.maxSteps == if maxSteps <= 0 then DefaultMaxSteps else maxSteps
      ensures this.width == width && this.height == height && this.rand == rand
      ensures this.observations == observations && this.actions == actions
      ensures this.rewards == rewards && this.terminals == terminals
      ensures numPipes == 0 && score == 0 && stepCount == 0 && randCalls == 0 && log == Log(0.0, 0.0, 0.0, 0.0, 0.0)
    {
      this.width := width;
      this.height := height;
      this.observations := observations;
      this.actions := actions;
      this.rewards := rewards;
      this.terminals := terminals;
      this.rand := rand;
      gravity := Gravity;
      flapVelocity := FlapVel;
      pipeSpeed := width as real * PipeSpeedRatio;
      pipeSpacing := PipeSpacingRatio;
      gapHeight := GapHeightRatio;
      this.maxSteps := if maxSteps <= 0 then DefaultMaxSteps else maxSteps;
      pipes := new Pipe[MaxPipes](_ => Pipe(0.0, 0.0, 0.0, 0));
      log := Log(0.0, 0.0, 0.0, 0.0, 0.0);
      birdY, birdVy := 0.0, 0.0;
      numPipes, score, stepCount := 0, 0, 0;
      randCalls := 0;
    }

    /** One call of the C library's rand(). */
    method Rand() returns (v: nat)
      modifies this`randCalls
      ensures v == rand(old(randCalls)) && randCalls == old(randCalls) + 1
    {
      v := rand(randCalls);
      randCalls := randCalls + 1;
    }

    /** spawn_pipe: a fresh gap for pipe idx; the caller has set its x. */
    method SpawnPipe(idx: int)
      requires Valid() && 0 <= idx < pipes.Length
      modifies pipes, this`randCalls
      ensures randCalls == old(randCalls) + 1
      ensures pipes[..] == old(pipes[..])[idx := Pipe(old(pipes[idx].x), SpawnGap(rand(old(randCalls))), GapHeightRatio, 0)]
    {
      var draw := Rand();
      pipes[idx] := pipes[idx].(gapCenterY := 0.25 + (draw % 50) as real / 100.0, gapHeight := gapHeight, scored := 0);
    }

    /** compute_observations, from the search for the next pipe on. */
    method ObservePipe(next: int, birdX: real)
      requires Valid() && -1 <= next < numPipes
      modifies observations
      ensures observations[2..ObsDim] == PipeObs(birdY, if next >= 0 then Some(pipes[next]) else None, birdX, width)
      ensures observations[..2] == old(observations[..2])
      ensures observations[ObsDim..] == old(observations[ObsDim..])
    {
      var distNorm, gapCenter, gapH, hasPipe, dy, top, bottom := 1.0, 0.5, gapHeight, 0.0, 0.0, 0.0, 0.0;
      if next >= 0 {
        var q := pipes[next];
        distNorm := Clamp((q.x - birdX) / width as real, 0.0, 1.0);
        gapCenter := q.gapCenterY;
        gapH := q.gapHeight;
        hasPipe := 1.0;
        dy := Clamp(gapCenter - birdY, -1.0, 1.0);
        var half := gapH * 0.5;
        var topEdge := gapCenter - half;
        var bottomEdge := gapCenter + half;
        if half > MinHalfGap {
          top := Clamp((topEdge - birdY) / half, -1.0, 1.0);
          bottom := Clamp((birdY - bottomEdge) / half, -1.0, 1.0);
        }
      }
      ghost var row := [distNorm, gapCenter, gapH, hasPipe, dy, top, bottom];
      assert row == PipeObs(birdY, if next >= 0 then Some(pipes[next]) else None, birdX, width);
      var o := observations;
      o[2] := distNorm;
      o[3] := gapCenter;
      o[4] := gapH;
      o[5] := hasPipe;
      o[6] := dy;
      o[7] := top;
      o[8] := bottom;
      assert observations[2..ObsDim] == row;
    }

    /** compute_observations: the bird's height and velocity, then the next pipe's features. */
    method ComputeObservations()
      requires Valid()
      modifies observations
      ensures observations[..ObsDim] == Observe(Config(), State())
      ensures observations[ObsDim..] == old(observations[ObsDim..])
    {
      var o := observations;
      o[0] := Clamp(birdY, 0.0, 1.0);
      o[1] := Clamp(birdVy / 0.1, -1.0, 1.0);
      var birdX := width as real * BirdXRatio;
      var pw := width as real * PipeWidthRatio;
      var next := NextPipe(pipes, numPipes, birdX, pw);
      ObservePipe(next, birdX);
      assert observations[..ObsDim] == observations[..2] + observations[2..ObsDim];
    }

    /** The pipe loop of c_reset (the gap draw it repeats inline is spawn_pipe's). */
    method LayOutPipes()
      requires Valid() && numPipes == 3
      modifies pipes, this`randCalls
      ensures randCalls == old(randCalls) + 3
      ensures pipes[..] == ResetPipes(Config(), old(pipes[..]), old(randCalls))
    {
      ghost var e := State();
      var startX := width as real * 0.5;
      var i := 0;
      while i < numPipes
        invariant 0 <= i <= 3 && numPipes == 3 && randCalls == e.randCalls + i
        invariant forall j :: 0 <= j < i ==> pipes[j] == ResetPipe(Config(), e.randCalls, j)
        invariant forall j :: i <= j < MaxPipes ==> pipes[j] == e.pipes[j]
      {
        pipes[i] := pipes[i].(x := startX + i as real * width as real * pipeSpacing);
        SpawnPipe(i);
        assert pipes[i] == ResetPipe(Config(), e.randCalls, i);
        i := i + 1;
      }
      assert i == 3;
      assert pipes[..3] == ResetPipes(Config(), e.pipes, e.randCalls)[..3];
      assert pipes[3..] == e.pipes[3..];
      assert pipes[..] == pipes[..3] + pipes[3..];
    }

    /** c_reset: a fresh episode at mid-height, three pipes, and its first observation. */
    method Reset()
      requires Valid()
      modifies this, pipes, observations
      ensures Valid()
      ensures State() == ResetEnv(Config(), old(State()))
      ensures observations[..ObsDim] == Observe(Config(), State())
      ensures observations[ObsDim..] == old(observations[ObsDim..])
    {
      ghost var e := State();
      log := log.(episodeReturn := 0.0);
      birdY := 0.5;
      birdVy := 0.0;
      score := 0;
      stepCount := 0;
      numPipes := 3;
      LayOutPipes();
      assert State() == ResetEnv(Config(), e);
      ComputeObservations();
    }

    /** The scoring loop of c_step. */
    method ScorePipes(birdX: real, pw: real)
      requires Valid()
      modifies pipes, this`score, rewards
      ensures pipes[..] == Marked(old(pipes[..]), numPipes, birdX, pw)
      ensures score == old(score) + NumPassed(old(pipes[..]), numPipes, birdX, pw)
      ensures rewards[0] == old(rewards[0]) + StreakReward(old(score), NumPassed(old(pipes[..]), numPipes, birdX, pw))
      ensures rewards[1..] == old(rewards[1..])
    {
      var i := 0;
      while i < numPipes
        invariant 0 <= i <= numPipes
        invariant pipes[..] == Marked(old(pipes[..]), i, birdX, pw)
        invariant score == old(score) + NumPassed(old(pipes[..]), i, birdX, pw)
        invariant rewards[0] == old(rewards[0]) + StreakReward(old(score), NumPassed(old(pipes[..]), i, birdX, pw))
        invariant rewards[1..] == old(rewards[1..])
      {
        if pipes[i].scored == 0 && pipes[i].x + pw < birdX {
          pipes[i] := pipes[i].(scored := 1);
          rewards[0] := rewards[0] + 1.0 + StreakBonus * score as real;
          score := score + 1;
        }
        i := i + 1;
      }
    }

    /** The pipe phases after scoring: scroll, then recycle the leftmost pipe. */
    method ScrollAndRecycle()
      requires Valid()
      modifies pipes, this`randCalls
      ensures Recycle(Config(), old(State()).(pipes := Scrolled(old(pipes[..]), numPipes, pipeSpeed)))
              == State()
    {
      Scroll(pipes, numPipes, pipeSpeed);
      var pw := width as real * PipeWidthRatio;
      var leftmost := Leftmost(pipes, numPipes);
      if pipes[leftmost].x + pw < 0.0 {
        var rightmost := Rightmost(pipes, numPipes);
        pipes[leftmost] := pipes[leftmost].(x := rightmost + width as real * pipeSpacing);
        SpawnPipe(leftmost);
      }
    }

    /** The survival bonus, then the in-gap and alignment bonus of c_step. */
    method AddShaping()
      requires Valid()
      modifies rewards
      ensures rewards[0] == old(rewards[0]) + SurvivalBonus + Shaping(Config(), State())
      ensures rewards[1..] == old(rewards[1..])
    {
      rewards[0] := rewards[0] + SurvivalBonus;
      var pw := width as real * PipeWidthRatio;
      var birdX := width as real * BirdXRatio;
      var next := NextPipe(pipes, numPipes, birdX, pw);
      if next >= 0 {
        var gapCenter := pipes[next].gapCenterY;
        var gapH := pipes[next].gapHeight;
        var half := gapH * 0.5;
        var dx := pipes[next].x - birdX;
        var distNorm := Clamp(dx / width as real, 0.0, 1.0);
        var scale := 1.0 - distNorm;
        if birdY >= gapCenter - half && birdY <= gapCenter + half {
          rewards[0] := rewards[0] + scale * InGapBonus;
        }
        var alignErr := Abs(birdY - gapCenter);
        var alignScale := 1.0 - Clamp(alignErr / AlignmentTolerance, 0.0, 1.0);
        rewards[0] := rewards[0] + AlignmentBonus * alignScale;
      }
    }

    /** The terminal branch of c_step: return, log, auto-reset. */
    method EndEpisode()
      requires Valid() && terminals[0] == 1
      modifies this, pipes, observations
      ensures Valid()
      ensures var r := Terminate(Config(), old(State()), rewards[0]);
        State() == r.env && observations[..ObsDim] == r.obs
      ensures observations[ObsDim..] == old(observations[ObsDim..])
    {
      log := log.(episodeReturn := log.episodeReturn + rewards[0]);
      log := AddLog(log, score, stepCount);
      Reset();
    }

    /** Scoring, scrolling and recycling, with the streak rewards of the passes. */
    method AdvancePipes()
      requires Valid()
      modifies pipes, this`score, this`randCalls, rewards
      ensures Valid()
      ensures State() == Advance(Config(), old(State()))
      ensures rewards[0] == old(rewards[0])
        + StreakReward(old(score), NumPassed(old(pipes[..]), numPipes, BirdX(width), PipeWidth(width)))
      ensures rewards[1..] == old(rewards[1..])
    {
      ghost var p, e := Config(), State();
      var bxPx := width as real * BirdXRatio;
      var pw := width as real * PipeWidthRatio;
      ScorePipes(bxPx, pw);
      ghost var e2 := State();
      ScrollAndRecycle();
      AdvanceSteps(p, e, e2, State());
    }

    /** The step-limit test of c_step and what follows it. */
    method FinishStep()
      requires Valid() && terminals[0] == 0
      modifies this, pipes, observations, terminals
      ensures Valid()
      ensures var r := Finish(Config(), old(State()), rewards[0]);
        && State() == r.env && terminals[0] == r.terminal && observations[..ObsDim] == r.obs
      ensures terminals[1..] == old(terminals[1..])
      ensures observations[ObsDim..] == old(observations[ObsDim..])
    {
      if stepCount >= maxSteps {
        terminals[0] := 1;
        EndEpisode();
        return;
      }
      log := log.(episodeReturn := log.episodeReturn + rewards[0]);
      ComputeObservations();
    }

    /** The part of c_step after the collision tests: score, scroll, recycle, shape, step limit. */
    method Survive()
      requires Valid() && terminals[0] == 0
      modifies this, pipes, observations, rewards, terminals
      ensures Valid()
      ensures var r := SurviveOutcome(Config(), old(State()), old(rewards[0]));
        && State() == r.env && rewards[0] == r.reward && terminals[0] == r.terminal
        && observations[..ObsDim] == r.obs
      ensures rewards[1..] == old(rewards[1..]) && terminals[1..] == old(terminals[1..])
      ensures observations[ObsDim..] == old(observations[ObsDim..])
    {
      ghost var p, e, r0 := Config(), State(), rewards[0];
      AdvancePipes();
      ghost var e3, r1 := State(), rewards[0];
      AddShaping();
      ghost var r3 := rewards[0];
      FinishStep();
      SurviveSteps(p, e, r0, e3, r1, r3);
    }

    /** The death branches of c_step: reward -1, terminal, log, auto-reset. */
    method Die()
      requires Valid()
      modifies this, pipes, observations, rewards, terminals
      ensures Valid()
      ensures var r := Terminate(Config(), old(State()), -1.0);
        && State() == r.env && rewards[0] == r.reward && terminals[0] == r.terminal
        && observations[..ObsDim] == r.obs
      ensures rewards[1..] == old(rewards[1..]) && terminals[1..] == old(terminals[1..])
      ensures observations[ObsDim..] == old(observations[ObsDim..])
    {
      rewards[0] := -1.0;
      terminals[0] := 1;
      EndEpisode();
    }

    /** The start of c_step: clear the outputs, count the step, flap or fall, clamp the height. */
    method Move(a: int)
      requires Valid()
      modifies this`stepCount, this`birdVy, this`birdY, rewards, terminals
      ensures Valid()
      ensures State() == Integrate(old(State()), a)
      ensures rewards[0] == FlapReward(a) && terminals[0] == 0
      ensures rewards[1..] == old(rewards[1..]) && terminals[1..] == old(terminals[1..])
    {
      rewards[0] := 0.0;
      terminals[0] := 0;
      stepCount := stepCount + 1;
      if a == 1 {
        birdVy := -flapVelocity;
        rewards[0] := rewards[0] - FlapPenalty;
      }
      birdVy := birdVy + gravity;
      birdY := birdY + birdVy;
      birdY := Clamp(birdY, 0.0, 1.0);
    }

    /** The two death tests of c_step, in order: floor or ceiling, then the pipes. */
    method Crashed() returns (dead: bool)
      requires Valid()
      ensures dead <==> HitsBounds(Config(), birdY) || Collision(Config(), State())
    {
      var byPx := birdY * height as real;
      var bxPx := width as real * BirdXRatio;
      var br := height as real * BirdRadiusRatio;
      if OutOfBounds(byPx, br, height) {
        return true;
      }
      dead := Collides(pipes, numPipes, bxPx, byPx, br, width, height);
    }

    method Step()
      requires Valid()
      modifies this, pipes, observations, rewards, terminals
      ensures Valid()
      ensures var r := StepOutcome(Config(), old(State()), old(actions[0]));
        && State() == r.env && rewards[0] == r.reward && terminals[0] == r.terminal
        && observations[..ObsDim] == r.obs
      ensures rewards[1..] == old(rewards[1..]) && terminals[1..] == old(terminals[1..])
      ensures observations[ObsDim..] == old(observations[ObsDim..])
    {
      ghost var e := State();
      var a := actions[0];
      Move(a);
      var dead := Crashed();
      if dead {
        StepWhenDies(Config(), e, a);
        Die();
      } else {
        StepWhenSurvives(Config(), e, a);
        Survive();
      }
    }
  }

  /** Advance as the two phases AdvancePipes runs: scoring, then scrolling and recycling. */
  lemma AdvanceSteps(p: Params, e: Env, e2: Env, e3: Env)
    requires WellFormed(p, e)
    requires e2.pipes == Marked(e.pipes, e.numPipes, BirdX(p.width), PipeWidth(p.width))
    requires e2.score == e.score + NumPassed(e.pipes, e.numPipes, BirdX(p.width), PipeWidth(p.width))
    requires e2 == e.(pipes := e2.pipes, score := e2.score)
    requires e3 == Recycle(p, e2.(pipes := Scrolled(e2.pipes, e2.numPipes, p.width as real * PipeSpeedRatio)))
    ensures Advance(p, e) == e3
  {
  }

  /** SurviveOutcome as the three phases Survive runs: pipes, shaping, finish. */
  lemma SurviveSteps(p: Params, e: Env, r0: real, e3: Env, r1: real, r3: real)
    requires WellFormed(p, e) && e3 == Advance(p, e)
    requires r1 == r0 + StreakReward(e.score, NumPassed(e.pipes, e.numPipes, BirdX(p.width), PipeWidth(p.width)))
    requires r3 == r1 + SurvivalBonus + Shaping(p, e3)
    ensures SurviveOutcome(p, e, r0) == Finish(p, e3, r3)
  {
  }

  lemma StepWhenDies(p: Params, e: Env, a: int)
    requires WellFormed(p, e)
    requires HitsBounds(p, Integrate(e, a).birdY) || Collision(p, Integrate(e, a))
    ensures StepOutcome(p, e, a) == Terminate(p, Integrate(e, a), -1.0)
  {
  }

  lemma StepWhenSurvives(p: Params, e: Env, a: int)
    requires WellFormed(p, e)
    requires !HitsBounds(p, Integrate(e, a).birdY) && !Collision(p, Integrate(e, a))
    ensures StepOutcome(p, e, a) == SurviveOutcome(p, Integrate(e, a), FlapReward(a))
  {
  }

  // ---------------------------------------------------------------------------
  // What a step does.
  // ---------------------------------------------------------------------------

  /** Closed form of the streak rewards: passes p starting at score s earn p + 0.1 * (p * s + p * (p - 1) / 2). */
  lemma {:induction false} StreakRewardClosedForm(score: int, passes: nat)
    ensures 2.0 * StreakReward(score, passes)
         == 2.0 * passes as real + StreakBonus * (2 * passes * score + passes * (passes - 1)) as real
  {
    if passes > 0 {
      StreakRewardClosedForm(score, passes - 1);
    }
  }

  /** Each pass earns at least 1.0 once the score is not negative. */
  lemma {:induction false} StreakRewardAtLeastPasses(score: int, passes: nat)
    requires score >= 0
    ensures StreakReward(score, passes) >= passes as real
  {
    if passes > 0 {
      StreakRewardAtLeastPasses(score, passes - 1);
    }
  }

  /**
   * A floor/ceiling hit or a pipe collision: reward exactly -1 (the flap penalty
   * is overridden), terminal set, one more episode logged, and the instance
   * already reset.
   */
  lemma DeathResets(p: Params, e: Env, a: int)
    requires WellFormed(p, e) && Dies(p, e, a)
    ensures var r := StepOutcome(p, e, a);
      && r.reward == -1.0 && r.terminal == 1
      && r.env.log.n == e.log.n + 1.0
      && r.env.log.score == e.score as real
      && r.env.log.episodeLength == (e.stepCount + 1) as real
      && r.env.birdY == 0.5 && r.env.birdVy == 0.0 && r.env.score == 0 && r.env.stepCount == 0
      && r.env.numPipes == 3 && r.obs == Observe(p, r.env)
  {
  }

  lemma ThreeTenths(w: real)
    requires w > 0.0
    ensures (w * 0.5 + 0.0 * w * PipeSpacingRatio - w * BirdXRatio) / w == 0.3
  {
    assert w * 0.5 + 0.0 * w * PipeSpacingRatio - w * BirdXRatio == 0.3 * w;
  }

  /** After an auto-reset the observation starts at mid-height, at rest, 0.3 of the width from pipe 0. */
  lemma {:induction false} ResetObservation(p: Params, e: Env)
    requires WellFormed(p, e) && p.width < 2000000000
    ensures var r := ResetEnv(p, e);
      var o := Observe(p, r);
      o[0] == 0.5 && o[1] == 0.0 && o[2] == 0.3 && o[5] == 1.0 && o[3] == r.pipes[0].gapCenterY
  {
    var r := ResetEnv(p, e);
    var w := p.width as real;
    var birdX, pw := BirdX(p.width), PipeWidth(p.width);
    var ps := r.pipes;
    assert ps[..3] == [ResetPipe(p, e.randCalls, 0), ResetPipe(p, e.randCalls, 1), ResetPipe(p, e.randCalls, 2)];
    assert ps[0].x == w * 0.5 + 0.0 * w * PipeSpacingRatio;
    assert ps[1].x == w * 0.5 + 1.0 * w * PipeSpacingRatio;
    assert ps[2].x == w * 0.5 + 2.0 * w * PipeSpacingRatio;
    assert Candidate(ps[0], birdX, pw);
    assert NextIndex(ps, 1, birdX, pw) == 0;
    assert NextIndex(ps, 2, birdX, pw) == 0;
    assert NextIndex(ps, 3, birdX, pw) == 0;
    ThreeTenths(w);
  }

  /** A step that does not die earns at least the survival bonus less the flap penalty. */
  lemma SurvivingStepReward(p: Params, e: Env, a: int)
    requires WellFormed(p, e) && !Dies(p, e, a) && e.score >= 0
    ensures var r := StepOutcome(p, e, a);
      && r.reward >= SurvivalBonus - FlapPenalty
      && r.terminal == (if e.stepCount + 1 >= p.maxSteps then 1 else 0)
  {
    var e1 := Integrate(e, a);
    StreakRewardAtLeastPasses(e1.score, NumPassed(e1.pipes, e1.numPipes, BirdX(p.width), PipeWidth(p.width)));
  }

  /** Rewards are exactly -1 on death and otherwise above zero. */
  lemma RewardSign(p: Params, e: Env, a: int)
    requires WellFormed(p, e) && e.score >= 0
    ensures var r := StepOutcome(p, e, a);
      (r.reward == -1.0 <==> Dies(p, e, a)) && (r.reward > 0.0 <==> !Dies(p, e, a))
  {
    if !Dies(p, e, a) {
      SurvivingStepReward(p, e, a);
    }
  }

  /** The step limit: a surviving step that reaches max_steps ends the episode (terminal, not truncation) and resets. */
  lemma StepLimitResets(p: Params, e: Env, a: int)
    requires WellFormed(p, e) && !Dies(p, e, a) && e.stepCount + 1 >= p.maxSteps
    ensures var r := StepOutcome(p, e, a);
      && r.terminal == 1 && r.env.stepCount == 0 && r.env.numPipes == 3 && r.env.log.n == e.log.n + 1.0
      && r.env.log.episodeLength == (e.stepCount + 1) as real
      && r.env.log.score == Advance(p, Integrate(e, a)).score as real
  {
  }

  /** The pipe count changes only by a reset, which sets it to 3. */
  lemma NumPipesKept(p: Params, e: Env, a: int)
    requires WellFormed(p, e)
    ensures var r := StepOutcome(p, e, a);
      r.env.numPipes == if r.terminal == 1 then 3 else e.numPipes
  {
  }

  /** The running return is zeroed by the auto-reset of every terminal step. */
  lemma TerminalClearsReturn(p: Params, e: Env, a: int)
    requires WellFormed(p, e)
    ensures var r := StepOutcome(p, e, a);
      r.terminal == 1 ==> r.env.log.episodeReturn == 0.0
  {
  }

  /**
   * Recycling moves only the leftmost pipe, only once its right edge is off
   * screen, to the rightmost x plus the spacing, with a fresh unscored gap
   * from one rand() call; every other pipe and every other field is untouched.
   */
  lemma {:induction false} RecycleMovesOnlyLeftmost(p: Params, e: Env)
    requires WellFormed(p, e) && e.numPipes >= 1
    ensures var r := Recycle(p, e);
      var lm := LeftmostIndex(e.pipes, e.numPipes);
      && (forall i :: 0 <= i < e.numPipes ==> e.pipes[lm].x <= e.pipes[i].x)
      && (forall i :: 0 <= i < MaxPipes && i != lm ==> r.pipes[i] == e.pipes[i])
      && (e.pipes[lm].x + PipeWidth(p.width) >= 0.0 ==> r == e)
      && (e.pipes[lm].x + PipeWidth(p.width) < 0.0 ==>
            && r.pipes[lm] == Pipe(RightmostX(e.pipes, e.numPipes) + p.width as real * PipeSpacingRatio,
                                   SpawnGap(p.rand(e.randCalls)), GapHeightRatio, 0)
            && r == e.(pipes := r.pipes, randCalls := e.randCalls + 1)
            && 0.25 <= r.pipes[lm].gapCenterY <= 0.74
            && (forall i :: 0 <= i < e.numPipes ==> r.pipes[lm].x > e.pipes[i].x)
            && r.randCalls == e.randCalls + 1)
  {
    LeftmostIsFirstMinimum(e.pipes, e.numPipes);
    RightmostIsMaximum(e.pipes, e.numPipes);
  }

  /**
   * The observation of any state: o[0], o[2] in [0, 1]; o[1], o[6..8] in [-1, 1];
   * o[5] is 1 exactly when some live pipe is ahead of the bird (and short of the
   * search's 1e9 sentinel), and the pipe observed is the leftmost such pipe.
   */
  lemma {:induction false} ObservationBounds(p: Params, e: Env)
    requires WellFormed(p, e)
    ensures var o := Observe(p, e);
      var birdX, pw := BirdX(p.width), PipeWidth(p.width);
      && 0.0 <= o[0] <= 1.0 && 0.0 <= o[2] <= 1.0
      && -1.0 <= o[1] <= 1.0 && -1.0 <= o[6] <= 1.0 && -1.0 <= o[7] <= 1.0 && -1.0 <= o[8] <= 1.0
      && (o[5] == 1.0 <==> exists i :: 0 <= i < e.numPipes && Candidate(e.pipes[i], birdX, pw))
      && (o[5] == 1.0 ==> exists k :: (0 <= k < e.numPipes && Candidate(e.pipes[k], birdX, pw)
            && o[3] == e.pipes[k].gapCenterY
            && forall i :: 0 <= i < e.numPipes && Ahead(e.pipes[i], birdX, pw) ==> e.pipes[k].x <= e.pipes[i].x))
  {
    NextIndexIsLeftmostAhead(e.pipes, e.numPipes, BirdX(p.width), PipeWidth(p.width));
  }
}
