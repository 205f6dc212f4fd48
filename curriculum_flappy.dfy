/**
 * The curriculum Flappy instance of variations/flappy/flappy.h: the engine of
 * the full instance with a sparse reward (+1 per pipe passed, -1 on death, no
 * flap penalty and no shaping), a 5-value observation, and gaps drawn from the
 * difficulty-dependent distribution of GapDistribution.
 *
 * `Flappy` is the C struct: `Init` is `init`, `Reset(d)` is `c_reset(env, d)`,
 * `Step` is `c_step`. The difficulty given to `Reset` is stored in
 * `curriculumDifficulty`, and every auto-reset inside `Step` reuses it.
 * As in FullFlappy, the k-th rand() call of the instance returns `rand(k)`.
 */
module CurriculumFlappy {
  import opened Wrappers
  import opened Pipes
  import opened GapDistribution

  const ObsDim := 5

  datatype Log = Log(perf: real, score: real, episodeReturn: real, episodeLength: real,
                     difficulty: real, n: real)

  datatype Params = Params(width: int, height: int, maxSteps: int, rand: nat -> nat)

  /** The fields `c_reset` and `c_step` change, as a value. */
  datatype Env = Env(
    birdY: real, birdVy: real, pipes: seq<Pipe>, numPipes: int,
    score: int, stepCount: int, difficulty: real, log: Log, randCalls: nat)

  datatype Outcome = Outcome(env: Env, reward: real, terminal: Byte, obs: seq<real>)

  predicate WellFormed(p: Params, e: Env)
  {
    p.width > 0 && p.height > 0 && |e.pipes| == MaxPipes && 0 <= e.numPipes <= MaxPipes
  }

  // ---------------------------------------------------------------------------
  // Logging, spawning and reset.
  // ---------------------------------------------------------------------------

  /** add_log: the finished episode's score, length and difficulty; one more episode counted. */
  function AddLog(log: Log, score: int, stepCount: int, difficulty: real): (r: Log)
    ensures r.n == log.n + 1.0 && r.episodeReturn == log.episodeReturn
    ensures r.difficulty == difficulty && r.score == score as real && r.episodeLength == stepCount as real
    ensures r.perf == 1.0 <==> score > 0
    ensures r.perf == 0.0 <==> score <= 0
  {
    log.(perf := if score > 0 then 1.0 else 0.0, score := score as real,
         episodeLength := stepCount as real, difficulty := difficulty, n := log.n + 1.0)
  }

  /** spawn_pipe for slot idx, with its x set by the caller: a gap drawn at the stored difficulty. */
  function Spawn(p: Params, e: Env, idx: int, x: real): (r: Env)
    requires WellFormed(p, e) && 0 <= idx < MaxPipes
    ensures WellFormed(p, r)
  {
    var g := GapCenter(e.difficulty, p.rand, e.randCalls);
    e.(pipes := e.pipes[idx := Pipe(x, g.center, GapHeightRatio, 0)], randCalls := e.randCalls + g.draws)
  }

  function StartX(width: int): real { width as real * 0.5 }

  /** Where c_reset puts pipe i: 0.5 * width + i * width * pipe_spacing. */
  function SlotX(p: Params, i: nat): real
  {
    StartX(p.width) + i as real * p.width as real * PipeSpacingRatio
  }

  /** The first n iterations of c_reset's pipe loop: pipe i at 0.5 * width + i * width * spacing. */
  function LayOut(p: Params, e: Env, n: nat): (r: Env)
    requires WellFormed(p, e) && n <= 3
    ensures WellFormed(p, r)
  {
    if n == 0 then e
    else Spawn(p, LayOut(p, e, n - 1), n - 1, SlotX(p, n - 1))
  }

  /** c_reset(env, d) on the state: d is stored, the bird is at rest at mid-height, three pipes are spawned at d. */
  function ResetEnv(p: Params, e: Env, d: real): (r: Env)
    requires WellFormed(p, e)
    ensures WellFormed(p, r)
  {
    LayOut(p, Env(0.5, 0.0, e.pipes, 3, 0, 0, d, e.log.(episodeReturn := 0.0), e.randCalls), 3)
  }

  // ---------------------------------------------------------------------------
  // Observations.
  // ---------------------------------------------------------------------------

  /** Observations 2..4: distance to the next pipe and its gap, or (1, 0.5, gap_height) when there is none. */
  function PipeObs(next: Option<Pipe>, birdX: real, width: int): (o: seq<real>)
    requires width > 0
    ensures |o| == 3
  {
    match next
    case None => [1.0, 0.5, GapHeightRatio]
    case Some(q) => [Clamp((q.x - birdX) / width as real, 0.0, 1.0), q.gapCenterY, q.gapHeight]
  }

  function ObsVector(birdY: real, birdVy: real, next: Option<Pipe>, birdX: real, width: int): (o: seq<real>)
    requires width > 0
    ensures |o| == ObsDim
    ensures 0.0 <= o[0] <= 1.0 && -1.0 <= o[1] <= 1.0 && 0.0 <= o[2] <= 1.0
    ensures next.None? ==> o[2..] == [1.0, 0.5, GapHeightRatio]
    ensures next.Some? ==> o[3] == next.value.gapCenterY && o[4] == next.value.gapHeight
  {
    [Clamp(birdY, 0.0, 1.0), Clamp(birdVy / 0.1, -1.0, 1.0)] + PipeObs(next, birdX, width)
  }

  function NextPipeOf(p: Params, e: Env): Option<Pipe>
    requires WellFormed(p, e)
  {
    var k := NextIndex(e.pipes, e.numPipes, BirdX(p.width), PipeWidth(p.width));
    if k >= 0 then Some(e.pipes[k]) else None
  }

  /** compute_observations on a state. */
  function Observe(p: Params, e: Env): (o: seq<real>)
    requires WellFormed(p, e)
    ensures |o| == ObsDim
  {
    ObsVector(e.birdY, e.birdVy, NextPipeOf(p, e), BirdX(p.width), p.width)
  }

  // ---------------------------------------------------------------------------
  // One step.
  // ---------------------------------------------------------------------------

  predicate HitsBounds(p: Params, birdY: real)
  {
    OutOfBounds(birdY * p.height as real, p.height as real * BirdRadiusRatio, p.height)
  }

  predicate Collision(p: Params, e: Env)
    requires WellFormed(p, e)
  {
    AnyBlocks(e.pipes, e.numPipes, BirdX(p.width), e.birdY * p.height as real,
              p.height as real * BirdRadiusRatio, p.width, p.height)
  }

  /** Step count, flap or gravity, and the clamped new height. */
  function Integrate(e: Env, a: int): (r: Env)
    ensures 0.0 <= r.birdY <= 1.0
    ensures r.stepCount == e.stepCount + 1
    ensures r.pipes == e.pipes && r.numPipes == e.numPipes && r.score == e.score
    ensures r.difficulty == e.difficulty && r.randCalls == e.randCalls
  {
    var vy := (if a == 1 then -FlapVel else e.birdVy) + Gravity;
    e.(stepCount := e.stepCount + 1, birdVy := vy, birdY := Clamp(e.birdY + vy, 0.0, 1.0))
  }

  predicate Dies(p: Params, e: Env, a: int)
    requires WellFormed(p, e)
  {
    var e1 := Integrate(e, a);
    HitsBounds(p, e1.birdY) || Collision(p, e1)
  }

  /** The leftmost pipe, once wholly off screen, moves behind the rightmost and gets a new gap. */
  function Recycle(p: Params, e: Env): (r: Env)
    requires WellFormed(p, e)
    ensures WellFormed(p, r)
  {
    var lm := LeftmostIndex(e.pipes, e.numPipes);
    if e.pipes[lm].x + PipeWidth(p.width) < 0.0 then
      Spawn(p, e, lm, RightmostX(e.pipes, e.numPipes) + p.width as real * PipeSpacingRatio)
    else e
  }

  /** Scoring, scrolling and recycling. */
  function Advance(p: Params, e: Env): (r: Env)
    requires WellFormed(p, e)
    ensures WellFormed(p, r)
  {
    var birdX := BirdX(p.width);
    var pw := PipeWidth(p.width);
    var passes := NumPassed(e.pipes, e.numPipes, birdX, pw);
    var scored := e.(pipes := Scrolled(Marked(e.pipes, e.numPipes, birdX, pw), e.numPipes, p.width as real * PipeSpeedRatio),
                     score := e.score + passes);
    Recycle(p, scored)
  }

  /** End of episode: return, log (with the difficulty), reset at the stored difficulty. */
  function Terminate(p: Params, e: Env, reward: real): (r: Outcome)
    requires WellFormed(p, e)
    ensures WellFormed(p, r.env) && r.terminal == 1 && r.reward == reward
  {
    var log := AddLog(e.log.(episodeReturn := e.log.episodeReturn + reward), e.score, e.stepCount, e.difficulty);
    var e' := ResetEnv(p, e.(log := log), e.difficulty);
    Outcome(e', reward, 1, Observe(p, e'))
  }

  /** The step-limit test and what follows it. */
  function Finish(p: Params, e: Env, reward: real): (r: Outcome)
    requires WellFormed(p, e)
    ensures WellFormed(p, r.env) && r.reward == reward
    ensures r.terminal == 1 <==> e.stepCount >= p.maxSteps
    ensures r.terminal == 0 <==> e.stepCount < p.maxSteps
  {
    if e.stepCount >= p.maxSteps then
      Terminate(p, e, reward)
    else
      var e' := e.(log := e.log.(episodeReturn := e.log.episodeReturn + reward));
      Outcome(e', reward, 0, Observe(p, e'))
  }

  /** A surviving step: +1.0 for each pipe passed, nothing else. */
  function SurviveOutcome(p: Params, e: Env): (r: Outcome)
    requires WellFormed(p, e)
    ensures WellFormed(p, r.env)
  {
    var passes := NumPassed(e.pipes, e.numPipes, BirdX(p.width), PipeWidth(p.width));
    Finish(p, Advance(p, e), passes as real)
  }

  /** c_step on a state, given the action in actions[0]. */
  function StepOutcome(p: Params, e: Env, a: int): (r: Outcome)
    requires WellFormed(p, e)
    ensures WellFormed(p, r.env)
    ensures r.terminal == 0 || r.terminal == 1
  {
    var e1 := Integrate(e, a);
    if Dies(p, e, a) then Terminate(p, e1, -1.0) else SurviveOutcome(p, e1)
  }

  // ---------------------------------------------------------------------------
  // The instance.
  // ---------------------------------------------------------------------------

  class Flappy {
    var log: Log
    const observations: array<real>
    const actions: array<int>
    const rewards: array<real>
    const terminals: array<Byte>

    const width: int
    const height: int
    const gravity: real
    const flapVelocity: real
    const pipeSpeed: real
    const pipeSpacing: real
    const gapHeight: real
    const maxSteps: int

    var birdY: real
    var birdVy: real
    const pipes: array<Pipe>
    var numPipes: int
    var score: int
    var stepCount: int
    var curriculumDifficulty: real

    const rand: nat -> nat
    var randCalls: nat

    ghost predicate Valid()
      reads this
    {
      && pipes.Length == MaxPipes && observations.Length >= ObsDim && actions.Length >= 1
      && rewards.Length >= 1 && terminals.Length >= 1 && observations != rewards
      && width > 0 && height > 0 && maxSteps > 0
      && gravity == Gravity && flapVelocity == FlapVel && pipeSpeed == width as real * PipeSpeedRatio
      && pipeSpacing == PipeSpacingRatio && gapHeight == GapHeightRatio
      && 0 <= numPipes <= MaxPipes
    }

    function Config(): Params { Params(width, height, maxSteps, rand) }

    function State(): Env
      reads this, pipes
    {
      Env(birdY, birdVy, pipes[..], numPipes, score, stepCount, curriculumDifficulty, log, randCalls)
    }

    /** init, on a zero-filled instance. */
    constructor Init(width: int, height: int, maxSteps: int,
                     observations: array<real>, actions: array<int>, rewards: array<real>,
                     terminals: array<Byte>, rand: nat -> nat)
      requires width > 0 && height > 0
      requires observations.Length >= ObsDim && actions.Length >= 1 && rewards.Length >= 1 && terminals.Length >= 1
      requires observations != rewards
      ensures Valid() && fresh(pipes)
      ensures this.maxSteps == if maxSteps <= 0 then DefaultMaxSteps else maxSteps
      ensures this.width == width && this.height == height && this.rand == rand
      ensures this.observations == observations && this.actions == actions
      ensures this.rewards == rewards && this.terminals == terminals
      ensures numPipes == 0 && score == 0 && stepCount == 0 && randCalls == 0 && curriculumDifficulty == 0.0
      ensures log == Log(0.0, 0.0, 0.0, 0.0, 0.0, 0.0)
    {
      this.width := width;
      this.height := height;
      this.observations := observations;
      this.actions := actions;
      this.rewards := rewards;
      this.terminals := terminals;
      this.rand := rand;
      gravity := Gravity;
      flapVelocity := FlapVel;
      pipeSpeed := width as real * PipeSpeedRatio;
      pipeSpacing := PipeSpacingRatio;
      gapHeight := GapHeightRatio;
      this.maxSteps := if maxSteps <= 0 then DefaultMaxSteps else maxSteps;
      pipes := new Pipe[MaxPipes](_ => Pipe(0.0, 0.0, 0.0, 0));
      log := Log(0.0, 0.0, 0.0, 0.0, 0.0, 0.0);
      birdY, birdVy := 0.0, 0.0;
      numPipes, score, stepCount := 0, 0, 0;
      curriculumDifficulty := 0.0;
      randCalls := 0;
    }

    /** One call of the C library's rand(). */
    method Rand() returns (v: nat)
      modifies this`randCalls
      ensures v == rand(old(randCalls)) && randCalls == old(randCalls) + 1
    {
      v := rand(randCalls);
      randCalls := randCalls + 1;
    }

    /** The gap-centre draw of spawn_pipe, at the stored difficulty. */
    method DrawGap() returns (center: real)
      modifies this`randCalls
      ensures var g := GapCenter(curriculumDifficulty, rand, old(randCalls));
        center == g.center && randCalls == old(randCalls) + g.draws
    {
      var d := curriculumDifficulty;
      ghost var k := randCalls;
      var draw := Rand();
      var r := (draw % 1000) as real / 1000.0;
      if r < ExtremeProb(d) {
        var coin := Rand();
        var offset := Rand();
        var band := if coin % 2 == 0 then 0.25 else 0.65;
        center := band + (offset % 11) as real / 100.0;
        assert GapCenter(d, rand, k) == Draw(center, 3);
      } else {
        var steps := UniformSteps(d);
        if steps <= 0 {
          center := 0.5;
        } else {
          var j := Rand();
          center := UniformCenter(d, j % (steps + 1));
        }
      }
    }

    /** spawn_pipe: a gap drawn at the stored difficulty for pipe idx; the caller has set its x. */
    method SpawnPipe(idx: int)
      requires Valid() && 0 <= idx < pipes.Length
      modifies pipes, this`randCalls
      ensures State() == Spawn(Config(), old(State()), idx, old(pipes[idx].x))
    {
      var center := DrawGap();
      pipes[idx] := pipes[idx].(gapCenterY := center, gapHeight := gapHeight, scored := 0);
    }

    /** compute_observations: height, velocity, then the next pipe's distance and gap. */
    method ComputeObservations()
      requires Valid()
      modifies observations
      ensures observations[..ObsDim] == Observe(Config(), State())
      ensures observations[ObsDim..] == old(observations[ObsDim..])
    {
      var o := observations;
      o[0] := Clamp(birdY, 0.0, 1.0);
      o[1] := Clamp(birdVy / 0.1, -1.0, 1.0);
      var birdX := width as real * BirdXRatio;
      var pw := width as real * PipeWidthRatio;
      var next := NextPipe(pipes, numPipes, birdX, pw);
      if next >= 0 {
        var dx := pipes[next].x - birdX;
        o[2] := Clamp(dx / width as real, 0.0, 1.0);
        o[3] := pipes[next].gapCenterY;
        o[4] := pipes[next].gapHeight;
      } else {
        o[2] := 1.0;
        o[3] := 0.5;
        o[4] := gapHeight;
      }
      assert observations[..ObsDim] == [o[0], o[1], o[2], o[3], o[4]];
    }

    /** One iteration of c_reset's pipe loop: place pipe i, then spawn its gap. */
    method PlacePipe(i: int)
      requires Valid() && 0 <= i < 3
      modifies pipes, this`randCalls
      ensures var e := old(State());
        State() == Spawn(Config(), e.(pipes := e.pipes[i := e.pipes[i].(x := SlotX(Config(), i))]), i, SlotX(Config(), i))
    {
      var startX := width as real * 0.5;
      pipes[i] := pipes[i].(x := startX + i as real * width as real * pipeSpacing);
      SpawnPipe(i);
    }

    /** The pipe loop of c_reset. */
    method LayOutPipes()
      requires Valid() && numPipes == 3
      modifies pipes, this`randCalls
      ensures State() == LayOut(Config(), old(State()), 3)
    {
      ghost var e := State();
      var i := 0;
      while i < numPipes
        invariant 0 <= i <= 3 && numPipes == 3
        invariant State() == LayOut(Config(), e, i)
      {
        ghost var before := State();
        PlacePipe(i);
        LayOutNext(Config(), e, i, before, State());
        i := i + 1;
      }
      assert i == 3;
    }

    /** c_reset(env, difficulty). */
    method Reset(difficulty: real)
      requires Valid()
      modifies this, pipes, observations
      ensures Valid()
      ensures State() == ResetEnv(Config(), old(State()), difficulty)
      ensures observations[..ObsDim] == Observe(Config(), State())
      ensures observations[ObsDim..] == old(observations[ObsDim..])
    {
      ghost var e := State();
      curriculumDifficulty := difficulty;
      log := log.(episodeReturn := 0.0);
      birdY := 0.5;
      birdVy := 0.0;
      score := 0;
      stepCount := 0;
      numPipes := 3;
      LayOutPipes();
      ComputeObservations();
    }

    /** The scoring loop of c_step: +1.0 for each pipe passed. */
    method ScorePipes(birdX: real, pw: real)
      requires Valid()
      modifies pipes, this`score, rewards
      ensures pipes[..] == Marked(old(pipes[..]), numPipes, birdX, pw)
      ensures score == old(score) + NumPassed(old(pipes[..]), numPipes, birdX, pw)
      ensures rewards[0] == old(rewards[0]) + NumPassed(old(pipes[..]), numPipes, birdX, pw) as real
      ensures rewards[1..] == old(rewards[1..])
    {
      var i := 0;
      while i < numPipes
        invariant 0 <= i <= numPipes
        invariant pipes[..] == Marked(old(pipes[..]), i, birdX, pw)
        invariant score == old(score) + NumPassed(old(pipes[..]), i, birdX, pw)
        invariant rewards[0] == old(rewards[0]) + NumPassed(old(pipes[..]), i, birdX, pw) as real
        invariant rewards[1..] == old(rewards[1..])
      {
        if pipes[i].scored == 0 && pipes[i].x + pw < birdX {
          pipes[i] := pipes[i].(scored := 1);
          rewards[0] := rewards[0] + 1.0;
          score := score + 1;
        }
        i := i + 1;
      }
    }

    /** Scroll, then recycle the leftmost pipe. */
    method ScrollAndRecycle()
      requires Valid()
      modifies pipes, this`randCalls
      ensures Recycle(Config(), old(State()).(pipes := Scrolled(old(pipes[..]), numPipes, pipeSpeed)))
              == State()
    {
      Scroll(pipes, numPipes, pipeSpeed);
      var pw := width as real * PipeWidthRatio;
      var leftmost := Leftmost(pipes, numPipes);
      if pipes[leftmost].x + pw < 0.0 {
        var rightmost := Rightmost(pipes, numPipes);
        pipes[leftmost] := pipes[leftmost].(x := rightmost + width as real * pipeSpacing);
        SpawnPipe(leftmost);
      }
    }

    /** Scoring, scrolling and recycling, with +1.0 per pass. */
    method AdvancePipes()
      requires Valid()
      modifies pipes, this`score, this`randCalls, rewards
      ensures Valid()
      ensures State() == Advance(Config(), old(State()))
      ensures rewards[0] == old(rewards[0])
        + NumPassed(old(pipes[..]), numPipes, BirdX(width), PipeWidth(width)) as real
      ensures rewards[1..] == old(rewards[1..])
    {
      ghost var p, e := Config(), State();
      var bxPx := width as real * BirdXRatio;
      var pw := width as real * PipeWidthRatio;
      ScorePipes(bxPx, pw);
      ghost var e2 := State();
      ScrollAndRecycle();
      AdvanceSteps(p, e, e2, State());
    }

    /** The terminal branches of c_step: return, log, reset at the stored difficulty. */
    method EndEpisode()
      requires Valid() && terminals[0] == 1
      modifies this, pipes, observations
      ensures Valid()
      ensures var r := Terminate(Config(), old(State()), rewards[0]);
        State() == r.env && observations[..ObsDim] == r.obs
      ensures observations[ObsDim..] == old(observations[ObsDim..])
    {
      log := log.(episodeReturn := log.episodeReturn + rewards[0]);
      log := AddLog(log, score, stepCount, curriculumDifficulty);
      Reset(curriculumDifficulty);
    }

    /** The step-limit test of c_step and what follows it. */
    method FinishStep()
      requires Valid() && terminals[0] == 0
      modifies this, pipes, observations, terminals
      ensures Valid()
      ensures var r := Finish(Config(), old(State()), rewards[0]);
        && State() == r.env && terminals[0] == r.terminal && observations[..ObsDim] == r.obs
      ensures terminals[1..] == old(terminals[1..])
      ensures observations[ObsDim..] == old(observations[ObsDim..])
    {
      if stepCount >= maxSteps {
        terminals[0] := 1;
        EndEpisode();
        return;
      }
      log := log.(episodeReturn := log.episodeReturn + rewards[0]);
      ComputeObservations();
    }

    /** The part of c_step after the collision tests; the reward starts at 0. */
    method Survive()
      requires Valid() && terminals[0] == 0 && rewards[0] == 0.0
      modifies this, pipes, observations, rewards, terminals
      ensures Valid()
      ensures var r := SurviveOutcome(Config(), old(State()));
        && State() == r.env && rewards[0] == r.reward && terminals[0] == r.terminal
        && observations[..ObsDim] == r.obs
      ensures rewards[1..] == old(rewards[1..]) && terminals[1..] == old(terminals[1..])
      ensures observations[ObsDim..] == old(observations[ObsDim..])
    {
      ghost var p, e := Config(), State();
      AdvancePipes();
      ghost var e3, r3 := State(), rewards[0];
      FinishStep();
      SurviveSteps(p, e, e3, r3);
    }

    /** The death branches of c_step: reward -1, terminal, log, auto-reset. */
    method Die()
      requires Valid()
      modifies this, pipes, observations, rewards, terminals
      ensures Valid()
      ensures var r := Terminate(Config(), old(State()), -1.0);
        && State() == r.env && rewards[0] == r.reward && terminals[0] == r.terminal
        && observations[..ObsDim] == r.obs
      ensures rewards[1..] == old(rewards[1..]) && terminals[1..] == old(terminals[1..])
      ensures observations[ObsDim..] == old(observations[ObsDim..])
    {
      rewards[0] := -1.0;
      terminals[0] := 1;
      EndEpisode();
    }

    /** The start of c_step: clear the outputs, count the step, flap or fall, clamp the height. */
    method Move(a: int)
      requires Valid()
      modifies this`stepCount, this`birdVy, this`birdY, rewards, terminals
      ensures Valid()
      ensures State() == Integrate(old(State()), a)
      ensures rewards[0] == 0.0 && terminals[0] == 0
      ensures rewards[1..] == old(rewards[1..]) && terminals[1..] == old(terminals[1..])
    {
      rewards[0] := 0.0;
      terminals[0] := 0;
      stepCount := stepCount + 1;
      if a == 1 {
        birdVy := -flapVelocity;
      }
      birdVy := birdVy + gravity;
      birdY := birdY + birdVy;
      birdY := Clamp(birdY, 0.0, 1.0);
    }

    /** The two death tests of c_step, in order: floor or ceiling, then the pipes. */
    method Crashed() returns (dead: bool)
      requires Valid()
      ensures dead <==> HitsBounds(Config(), birdY) || Collision(Config(), State())
    {
      var byPx := birdY * height as real;
      var bxPx := width as real * BirdXRatio;
      var br := height as real * BirdRadiusRatio;
      if OutOfBounds(byPx, br, height) {
        return true;
      }
      dead := Collides(pipes, numPipes, bxPx, byPx, br, width, height);
    }

    method Step()
      requires Valid()
      modifies this, pipes, observations, rewards, terminals
      ensures Valid()
      ensures var r := StepOutcome(Config(), old(State()), old(actions[0]));
        && State() == r.env && rewards[0] == r.reward && terminals[0] == r.terminal
        && observations[..ObsDim] == r.obs
      ensures rewards[1..] == old(rewards[1..]) && terminals[1..] == old(terminals[1..])
      ensures observations[ObsDim..] == old(observations[ObsDim..])
    {
      ghost var e := State();
      var a := actions[0];
      Move(a);
      var dead := Crashed();
      if dead {
        StepWhenDies(Config(), e, a);
        Die();
      } else {
        StepWhenSurvives(Config(), e, a);
        Survive();
      }
    }
  }

  // ---------------------------------------------------------------------------
  // How the methods' phases compose.
  // ---------------------------------------------------------------------------

  lemma LayOutNext(p: Params, e: Env, i: nat, before: Env, after: Env)
    requires WellFormed(p, e) && i < 3 && before == LayOut(p, e, i)
    requires after == Spawn(p, before.(pipes := before.pipes[i := before.pipes[i].(x := SlotX(p, i))]), i, SlotX(p, i))
    ensures after == LayOut(p, e, i + 1)
  {
  }

  lemma AdvanceSteps(p: Params, e: Env, e2: Env, e3: Env)
    requires WellFormed(p, e)
    requires e2.pipes == Marked(e.pipes, e.numPipes, BirdX(p.width), PipeWidth(p.width))
    requires e2.score == e.score + NumPassed(e.pipes, e.numPipes, BirdX(p.width), PipeWidth(p.width))
    requires e2 == e.(pipes := e2.pipes, score := e2.score)
    requires e3 == Recycle(p, e2.(pipes := Scrolled(e2.pipes, e2.numPipes, p.width as real * PipeSpeedRatio)))
    ensures Advance(p, e) == e3
  {
  }

  lemma SurviveSteps(p: Params, e: Env, e3: Env, r3: real)
    requires WellFormed(p, e) && e3 == Advance(p, e)
    requires r3 == NumPassed(e.pipes, e.numPipes, BirdX(p.width), PipeWidth(p.width)) as real
    ensures SurviveOutcome(p, e) == Finish(p, e3, r3)
  {
  }

  lemma StepWhenDies(p: Params, e: Env, a: int)
    requires WellFormed(p, e)
    requires HitsBounds(p, Integrate(e, a).birdY) || Collision(p, Integrate(e, a))
    ensures StepOutcome(p, e, a) == Terminate(p, Integrate(e, a), -1.0)
  {
  }

  lemma StepWhenSurvives(p: Params, e: Env, a: int)
    requires WellFormed(p, e)
    requires !HitsBounds(p, Integrate(e, a).birdY) && !Collision(p, Integrate(e, a))
    ensures StepOutcome(p, e, a) == SurviveOutcome(p, Integrate(e, a))
  {
  }

  // ---------------------------------------------------------------------------
  // What reset and a step do.
  // ---------------------------------------------------------------------------

  /** A centre spawn_pipe can produce at difficulty d: the draw at some position of the rand() stream. */
  ghost predicate Drawable(d: real, rand: nat -> nat, c: real)
  {
    exists k: nat :: c == GapCenter(d, rand, k).center
  }

  /** Where a drawable centre lies, by the stage of the curriculum. */
  lemma DrawableBounds(d: real, rand: nat -> nat, c: real)
    requires Drawable(d, rand, c)
    ensures d <= 0.0 ==> c == 0.5
    ensures d >= 0.25 ==> 0.25 <= c <= 0.75
    ensures 0.0 < d < 0.25 ==> GapMin(d) <= c <= GapMax(d) + 0.005
  {
    var k: nat :| c == GapCenter(d, rand, k).center;
    if d <= 0.0 {
      ZeroDifficultyCentred(d, rand, k);
    } else if d >= 0.25 {
      FullRangeBounds(d, rand, k);
    } else {
      WideningBounds(d, rand, k);
    }
  }

  /**
   * The first n iterations of the reset loop change only pipes 0..n-1 and the
   * rand() counter, which moves by 1 to 3 per pipe.
   */
  lemma {:induction false} LayOutKeeps(p: Params, e: Env, n: nat)
    requires WellFormed(p, e) && n <= 3
    ensures var r := LayOut(p, e, n);
      && r == e.(pipes := r.pipes, randCalls := r.randCalls)
      && e.randCalls + n <= r.randCalls <= e.randCalls + 3 * n
      && forall i :: n <= i < MaxPipes ==> r.pipes[i] == e.pipes[i]
  {
    if n > 0 {
      LayOutKeeps(p, e, n - 1);
    }
  }

  /** ... and put pipes 0..n-1 at their slots, unscored, with centres drawn at the stored difficulty. */
  lemma {:induction false} LayOutFacts(p: Params, e: Env, n: nat)
    requires WellFormed(p, e) && n <= 3
    ensures var r := LayOut(p, e, n);
      forall i :: 0 <= i < n ==>
        && r.pipes[i].x == SlotX(p, i) && r.pipes[i].scored == 0 && r.pipes[i].gapHeight == GapHeightRatio
        && Drawable(e.difficulty, p.rand, r.pipes[i].gapCenterY)
  {
    if n > 0 {
      LayOutFacts(p, e, n - 1);
      LayOutKeeps(p, e, n - 1);
      var before := LayOut(p, e, n - 1);
      var g := GapCenter(e.difficulty, p.rand, before.randCalls);
      assert LayOut(p, e, n).pipes[n - 1].gapCenterY == g.center;
    }
  }

  /**
   * c_reset(env, d): d is stored, the bird is at rest at mid-height with no
   * score and no steps, the return is cleared, and the three pipes sit left to
   * right at 0.5 * width + i * width * pipe_spacing, unscored, with centres
   * drawn at d: exactly 0.5 for d <= 0, within [0.25, 0.75] from d = 0.25 on,
   * and within [gap_min, gap_max + 0.005] in between.
   */
  lemma ResetLayout(p: Params, e: Env, d: real)
    requires WellFormed(p, e)
    ensures var r := ResetEnv(p, e, d);
      && r.difficulty == d && r.birdY == 0.5 && r.birdVy == 0.0 && r.score == 0 && r.stepCount == 0
      && r.numPipes == 3 && r.log == e.log.(episodeReturn := 0.0)
      && e.randCalls + 3 <= r.randCalls <= e.randCalls + 9
      && r.pipes[0].x < r.pipes[1].x < r.pipes[2].x
      && forall i :: 0 <= i < 3 ==>
           && r.pipes[i].x == SlotX(p, i) && r.pipes[i].scored == 0 && r.pipes[i].gapHeight == GapHeightRatio
           && (d <= 0.0 ==> r.pipes[i].gapCenterY == 0.5)
           && (d >= 0.25 ==> 0.25 <= r.pipes[i].gapCenterY <= 0.75)
           && (0.0 < d < 0.25 ==> GapMin(d) <= r.pipes[i].gapCenterY <= GapMax(d) + 0.005)
  {
    var e0 := Env(0.5, 0.0, e.pipes, 3, 0, 0, d, e.log.(episodeReturn := 0.0), e.randCalls);
    LayOutKeeps(p, e0, 3);
    LayOutFacts(p, e0, 3);
    var r := ResetEnv(p, e, d);
    forall i | 0 <= i < 3
      ensures && r.pipes[i].x == SlotX(p, i) && r.pipes[i].scored == 0 && r.pipes[i].gapHeight == GapHeightRatio
              && (d <= 0.0 ==> r.pipes[i].gapCenterY == 0.5)
              && (d >= 0.25 ==> 0.25 <= r.pipes[i].gapCenterY <= 0.75)
              && (0.0 < d < 0.25 ==> GapMin(d) <= r.pipes[i].gapCenterY <= GapMax(d) + 0.005)
    {
      DrawableBounds(d, p.rand, r.pipes[i].gapCenterY);
    }
  }

  /**
   * Sparse rewards: exactly -1 on death; otherwise the number of pipes passed
   * this step, which is also the score gained when the episode goes on.
   */
  lemma SparseReward(p: Params, e: Env, a: int)
    requires WellFormed(p, e)
    ensures var r := StepOutcome(p, e, a);
      && (r.reward == -1.0 <==> Dies(p, e, a))
      && (!Dies(p, e, a) ==> 0.0 <= r.reward <= e.numPipes as real && r.reward == r.reward.Floor as real)
      && (r.terminal == 0 ==> r.reward == (r.env.score - e.score) as real)
  {
    var e1 := Integrate(e, a);
    if Dies(p, e, a) {
      StepWhenDies(p, e, a);
    } else {
      StepWhenSurvives(p, e, a);
      AdvanceFacts(p, e1);
    }
  }

  /**
   * The observation of any state: o[0], o[2] in [0, 1], o[1] in [-1, 1]; with
   * no live pipe ahead of the bird, slots 2..4 read (1, 0.5, gap_height);
   * otherwise they show the leftmost pipe ahead.
   */
  lemma {:induction false} ObservationSlots(p: Params, e: Env)
    requires WellFormed(p, e)
    ensures var o := Observe(p, e);
      var birdX, pw := BirdX(p.width), PipeWidth(p.width);
      && 0.0 <= o[0] <= 1.0 && -1.0 <= o[1] <= 1.0 && 0.0 <= o[2] <= 1.0
      && ((forall i :: 0 <= i < e.numPipes ==> !Candidate(e.pipes[i], birdX, pw)) ==>
            o[2..] == [1.0, 0.5, GapHeightRatio])
      && ((exists i :: 0 <= i < e.numPipes && Candidate(e.pipes[i], birdX, pw)) ==>
            exists k :: (0 <= k < e.numPipes && Candidate(e.pipes[k], birdX, pw)
              && o[3] == e.pipes[k].gapCenterY && o[4] == e.pipes[k].gapHeight
              && forall i :: 0 <= i < e.numPipes && Ahead(e.pipes[i], birdX, pw) ==> e.pipes[k].x <= e.pipes[i].x))
  {
    NextIndexIsLeftmostAhead(e.pipes, e.numPipes, BirdX(p.width), PipeWidth(p.width));
  }

  /** Every live pipe's gap is centred. */
  ghost predicate Centred(e: Env)
  {
    forall i :: 0 <= i < e.numPipes && i < |e.pipes| ==> e.pipes[i].gapCenterY == 0.5
  }

  /**
   * Scoring, scrolling and recycling keep the difficulty, the step count, the
   * pipe count and the log, add the passes to the score, and at difficulty 0
   * keep the gaps centred.
   */
  lemma AdvanceFacts(p: Params, e: Env)
    requires WellFormed(p, e)
    ensures var r := Advance(p, e);
      && r.difficulty == e.difficulty && r.stepCount == e.stepCount && r.numPipes == e.numPipes
      && r.log == e.log && r.birdY == e.birdY
      && r.score == e.score + NumPassed(e.pipes, e.numPipes, BirdX(p.width), PipeWidth(p.width))
      && (e.difficulty <= 0.0 && Centred(e) ==> Centred(r))
  {
    var birdX, pw := BirdX(p.width), PipeWidth(p.width);
    var passes := NumPassed(e.pipes, e.numPipes, birdX, pw);
    var e2 := e.(pipes := Scrolled(Marked(e.pipes, e.numPipes, birdX, pw), e.numPipes, p.width as real * PipeSpeedRatio),
                 score := e.score + passes);
    assert Centred(e) ==> Centred(e2);
    var lm := LeftmostIndex(e2.pipes, e2.numPipes);
    if e2.pipes[lm].x + pw < 0.0 && e.difficulty <= 0.0 {
      ZeroDifficultyCentred(e2.difficulty, p.rand, e2.randCalls);
    }
  }

  /**
   * The end of an episode: the finished episode is logged with the stored
   * difficulty, the return is cleared, and the reset keeps the difficulty
   * (centring every gap when it is 0).
   */
  lemma TerminateFacts(p: Params, e: Env, reward: real)
    requires WellFormed(p, e)
    ensures var r := Terminate(p, e, reward);
      && r.env.difficulty == e.difficulty && r.env.log.difficulty == e.difficulty
      && r.env.log.n == e.log.n + 1.0 && r.env.log.episodeLength == e.stepCount as real
      && r.env.log.score == e.score as real && r.env.log.episodeReturn == 0.0
      && r.env.stepCount == 0 && r.env.score == 0 && r.env.numPipes == 3
      && (e.difficulty <= 0.0 ==> Centred(r.env))
  {
    var log := AddLog(e.log.(episodeReturn := e.log.episodeReturn + reward), e.score, e.stepCount, e.difficulty);
    ResetLayout(p, e.(log := log), e.difficulty);
  }

  /**
   * The stored difficulty survives every step, auto-reset included, and a
   * terminal step logs it with the finished episode.
   */
  lemma DifficultyKept(p: Params, e: Env, a: int)
    requires WellFormed(p, e)
    ensures var r := StepOutcome(p, e, a);
      && r.env.difficulty == e.difficulty
      && (r.terminal == 1 ==>
            && r.env.log.difficulty == e.difficulty && r.env.log.n == e.log.n + 1.0
            && r.env.log.episodeLength == (e.stepCount + 1) as real && r.env.log.episodeReturn == 0.0
            && r.env.stepCount == 0 && r.env.score == 0 && r.env.numPipes == 3)
  {
    var e1 := Integrate(e, a);
    if Dies(p, e, a) {
      StepWhenDies(p, e, a);
      TerminateFacts(p, e1, -1.0);
    } else {
      StepWhenSurvives(p, e, a);
      AdvanceFacts(p, e1);
      var passes := NumPassed(e1.pipes, e1.numPipes, BirdX(p.width), PipeWidth(p.width));
      TerminateFacts(p, Advance(p, e1), passes as real);
    }
  }

  /** At difficulty 0 (or below) the gaps stay centred through every step, resets included. */
  lemma CentredStaysCentred(p: Params, e: Env, a: int)
    requires WellFormed(p, e) && e.difficulty <= 0.0 && Centred(e)
    ensures Centred(StepOutcome(p, e, a).env)
  {
    var e1 := Integrate(e, a);
    assert Centred(e1);
    if Dies(p, e, a) {
      StepWhenDies(p, e, a);
      TerminateFacts(p, e1, -1.0);
    } else {
      StepWhenSurvives(p, e, a);
      AdvanceFacts(p, e1);
      var passes := NumPassed(e1.pipes, e1.numPipes, BirdX(p.width), PipeWidth(p.width));
      TerminateFacts(p, Advance(p, e1), passes as real);
    }
  }
}
