# flappy-rl in Dafny

This project models the simulation core of flappy-rl, a reinforcement-learning
playground built around Flappy Bird, and the small helpers around it. It also
proves properties of that model. It covers six parts:

- **Full-physics Flappy** (`full_flappy.dfy`, with the pipe-row loops in
  `pipes.dfy`). A C instance holds the bird's height and velocity, up to five
  pipes (three are used), a score, a step counter and an episode log.
  - `c_reset` lays out three pipes.
  - `c_step` integrates a flap or gravity, tests the floor, ceiling and pipes,
    scores each pipe once with a growing streak reward, scrolls the pipes, and
    recycles the leftmost one.
  - It then adds survival and shaping bonuses, applies the step limit, and
    resets itself in place when the episode ends.
  - The model is a class `Flappy` with the instance's fields, its `pipes` array
    and the caller's `observations`, `actions`, `rewards` and `terminals`
    buffers. Every method is proved equal to a function on an immutable
    snapshot `Env`, and the lemmas are stated over that function.
- **Curriculum Flappy** (`curriculum_flappy.dfy`, `gap_distribution.dfy`). This
  is the same engine with sparse rewards (−1 on death, +1 per pipe passed) and
  a 5-value observation.
  - `spawn_pipe` draws the gap centre from a distribution set by a difficulty
    `d`, which `c_reset(env, d)` stores and every auto-reset reuses.
  - The distribution is a range that widens up to d = 0.25 and an "extreme"
    probability that rises and then falls between 0.25 and 0.85. It uses one,
    two or three `rand()` calls.
- **Difficulty scheduler** (`scheduler.dfy`). `compute_difficulty` holds the
  difficulty at 0 for the first tenth of training, then ramps it linearly to 1.
  The `FlappyCurriculum` wrapper counts ticks and forwards the log every
  `log_interval` steps.
- **Two-row grid game** (`grid.dfy`). `FlappyGridEnv` is a bird on row 0 or 1
  with one wall at the roof or the floor. It gets −1 for pushing into the
  ceiling or floor, +0.01 per surviving step, and truncation at 2000 steps.
- **Checkpoint evaluation** (`checkpoints.dfy`). This covers:
  - parsing `model_<digits>.pt`;
  - the filter, stable sort and take-last-N selection;
  - the seed schedule of the episodes;
  - the lexicographic best-of choice.
- **Training entry point** (`train_args.dfy`). This covers the removal of four
  flags from `sys.argv`, the overrides of the train section, and the defaults
  of the vectoriser's `num_workers` and `num_envs`.

Randomness is an input.
- **C `rand()`** is an abstract stream `rand: nat -> nat` plus a call counter
  `randCalls`. Each call reads the next position, so the number and order of
  draws are part of every contract.
- **NumPy's `default_rng(seed)`** is a pair of abstract functions of
  (seed, position), `Generators`.
- **Floats** are `real`. A C `(int)` cast is truncation toward zero (`Trunc`).

Where the code and the repository's own description differ, the model follows
the code:
- **Step limit** (`src/flappy_rl/flappy/flappy.h:295-301`). Reaching
  `max_steps` sets the terminal flag and resets. It never writes a truncation
  flag (`FullFlappy.StepLimitResets`).
- **Running return.** Every terminal step's auto-reset zeroes the running
  return, so the log never accumulates it across episodes
  (`FullFlappy.TerminalClearsReturn`).
- **Gap range while it widens.** The curriculum documentation says the gap
  centre always lies in [0.25, 0.75]. The code rounds the number of uniform
  steps up with `(int)(x + 0.5)`, so for 0.2475 ≤ d < 0.25 the top step lies
  above 0.75. For example, at d = 0.249 the grid runs from 0.251 in 50 steps of
  0.01 to 0.751 (`GapDistribution.WideningOvershoot`). In general the overshoot
  past `gap_max` is at most 0.005 (`GapDistribution.WideningBounds`).
- **Next-pipe sentinel.** The next-pipe search starts from `best_x = 1e9`, so a
  pipe at x ≥ 1e9 is never observed. The model keeps that constant (`NoPipeX`).
- **Trailing newline.** `checkpoint_step` uses `re.match(...\.pt$)`, and
  Python's `$` also matches before one final newline. So `model_7.pt\n` parses
  as 7, and the model accepts it too.
- **Grid reset seed.** `FlappyGridEnv.reset` defaults to `seed=0`, so a plain
  `reset()` reseeds with 0. Only an explicit `reset(None)` keeps the generator
  (`Grid.FlappyGrid.Reset` takes an `Option<int>`).

## Model

| member | source | states |
|---|---|---|
| Pipes.Clamp | src/flappy_rl/flappy/flappy.h:90-94 | clampf lands in [lo, hi], returns v unchanged inside the range and the crossed bound outside it |
| Pipes.NextIndexIsLeftmostAhead | src/flappy_rl/flappy/flappy.h:119-127 | the next-pipe search yields -1 exactly when no live pipe is ahead of the bird (below the 1e9 sentinel); otherwise it yields the leftmost pipe ahead, the first one on ties |
| Pipes.NextPipe | src/flappy_rl/flappy/flappy.h:119-127 | the search loop over the pipe array computes that index |
| Pipes.Collides | src/flappy_rl/flappy/flappy.h:162-176 | collides returns 1 exactly when some live pipe blocks the bird's extent outside the gap |
| Pipes.ScoredPipesDoNotScoreAgain | src/flappy_rl/flappy/flappy.h:240-246 | every passed pipe gets its scored flag, so a second scoring pass counts no pipe: each pipe scores at most once |
| Pipes.NumPassedZero | src/flappy_rl/flappy/flappy.h:240-246 | with no unscored pipe behind the bird, the scoring loop counts nothing |
| Pipes.Scroll | src/flappy_rl/flappy/flappy.h:248-249 | the scroll loop moves every live pipe left by the pipe speed and leaves the other slots |
| Pipes.LeftmostIsFirstMinimum | src/flappy_rl/flappy/flappy.h:251-253 | the leftmost loop finds a pipe of minimal x, and the first one on ties |
| Pipes.Leftmost | src/flappy_rl/flappy/flappy.h:251-253 | the loop over the array computes that index |
| Pipes.RightmostIsMaximum | src/flappy_rl/flappy/flappy.h:255-257 | the rightmost x is the largest x of pipe 0 and the live pipes, and is one of them |
| Pipes.Rightmost | src/flappy_rl/flappy/flappy.h:255-257 | the loop over the array computes that value |
| FullFlappy.AddLog | src/flappy_rl/flappy/flappy.h:73-79 | add_log records the episode's score and length, counts one more episode, keeps the return, and sets perf to 1 exactly when the score is positive, 0 otherwise |
| FullFlappy.SpawnGap | src/flappy_rl/flappy/flappy.h:97-111 | spawn_pipe's centre 0.25 + (rand() % 50) / 100 lies in [0.25, 0.74] |
| FullFlappy.ResetLayout | src/flappy_rl/flappy/flappy.h:178-203 | c_reset puts the bird at rest at 0.5 with no score and no steps. It uses three rand() calls. Pipe i sits at 0.5*width + i*width*0.45, strictly left to right, unscored, with centre 0.25 + k/100 for k = rand() % 50 |
| FullFlappy.ResetObservation | src/flappy_rl/flappy/flappy.h:113-137 | right after a reset the observation reads o[0] = 0.5, o[1] = 0, o[2] = 0.3, and pipe 0 is the next pipe |
| FullFlappy.ObsVector | src/flappy_rl/flappy/flappy.h:113-160 | o[0], o[2] lie in [0, 1]; o[1], o[6..8] lie in [-1, 1]. o[5] is 1 exactly when a next pipe exists. The defaults (1, 0.5, gap_height, 0, 0, 0) apply when none does; otherwise its centre and height are shown |
| FullFlappy.ObservationBounds | src/flappy_rl/flappy/flappy.h:113-160 | for every state the bounds hold, o[5] = 1 exactly when some live pipe is ahead of the bird, and the observed pipe is the leftmost such pipe |
| FullFlappy.Flappy.ObservePipe | src/flappy_rl/flappy/flappy.h:128-159 | writes observations 2..8 for the pipe found, leaving the others |
| FullFlappy.Flappy.ComputeObservations | src/flappy_rl/flappy/flappy.h:113-160 | compute_observations writes exactly Observe of the state into the first 9 slots |
| FullFlappy.Flappy.Init | src/flappy_rl/flappy/flappy.h:81-88 | init sets the constants and the pipe speed, and sets max_steps to 5000 when the one given is not positive |
| FullFlappy.Flappy.Rand | src/flappy_rl/flappy/flappy.h:107 | each rand() reads the next position of the stream |
| FullFlappy.Flappy.SpawnPipe | src/flappy_rl/flappy/flappy.h:97-111 | spawn_pipe replaces pipe idx's gap and flag, and keeps its x and every other pipe |
| FullFlappy.Flappy.LayOutPipes | src/flappy_rl/flappy/flappy.h:187-201 | the reset loop writes the three pipes of ResetPipes, one rand() each |
| FullFlappy.Flappy.Reset | src/flappy_rl/flappy/flappy.h:178-203 | c_reset produces ResetEnv of the old state and its observation |
| FullFlappy.Integrate | src/flappy_rl/flappy/flappy.h:206-217 | after the flap or gravity step the height is clamped into [0, 1], the step count rises by one, and pipes and score are unchanged |
| FullFlappy.Flappy.Move | src/flappy_rl/flappy/flappy.h:206-217 | clears the reward and terminal flag, charges the flap penalty on a flap, and integrates |
| FullFlappy.Flappy.Crashed | src/flappy_rl/flappy/flappy.h:219-237 | the death test is a floor/ceiling hit or a pipe collision on the integrated state |
| FullFlappy.DeathResets | src/flappy_rl/flappy/flappy.h:219-237 | a death gives reward exactly -1 (overriding the flap penalty), sets terminal, logs one more episode with its score and length, and leaves a fresh reset with its observation |
| FullFlappy.Flappy.Die | src/flappy_rl/flappy/flappy.h:219-237 | the death branch writes Terminate with reward -1 |
| FullFlappy.StreakRewardClosedForm | src/flappy_rl/flappy/flappy.h:240-246 | p passes starting at score s earn p + 0.1*(p*s + p(p-1)/2): the k-th pass earns 1 + 0.1*k |
| FullFlappy.StreakRewardAtLeastPasses | src/flappy_rl/flappy/flappy.h:240-246 | each pass earns at least 1 when the score is not negative |
| FullFlappy.Flappy.ScorePipes | src/flappy_rl/flappy/flappy.h:239-246 | the scoring loop marks the passed pipes, adds their count to the score, and adds the streak reward |
| FullFlappy.Recycle | src/flappy_rl/flappy/flappy.h:251-260 | recycling keeps the state well formed |
| FullFlappy.RecycleMovesOnlyLeftmost | src/flappy_rl/flappy/flappy.h:251-260 | only the leftmost pipe moves, and only once its right edge is off screen. It becomes a pipe at the rightmost x plus width*0.45 (past every live pipe), with spawn_pipe's gap from one rand() call, unscored. Every other pipe and every other field is unchanged |
| FullFlappy.Flappy.ScrollAndRecycle | src/flappy_rl/flappy/flappy.h:248-260 | scrolling then recycling yields Recycle of the scrolled state |
| FullFlappy.Flappy.AdvancePipes | src/flappy_rl/flappy/flappy.h:239-260 | scoring, scrolling and recycling yield Advance of the state |
| FullFlappy.ShapingBonus | src/flappy_rl/flappy/flappy.h:264-293 | the in-gap and alignment bonus lies in [0, 0.028] |
| FullFlappy.Shaping | src/flappy_rl/flappy/flappy.h:264-293 | the shaping bonus of a state is never negative |
| FullFlappy.Flappy.AddShaping | src/flappy_rl/flappy/flappy.h:262-293 | adds the survival bonus plus the shaping bonus of the state to the reward |
| FullFlappy.SurvivingStepReward | src/flappy_rl/flappy/flappy.h:211-214 | a step that does not die earns at least 0.01 - 0.001, and it is terminal exactly when the step count reaches max_steps |
| FullFlappy.RewardSign | src/flappy_rl/flappy/flappy.h:205-304 | the reward is exactly -1 if and only if the bird dies, and positive if and only if it survives |
| FullFlappy.Finish | src/flappy_rl/flappy/flappy.h:295-303 | terminal is 1 exactly when the step count has reached max_steps, and the reward is kept |
| FullFlappy.Terminate | src/flappy_rl/flappy/flappy.h:295-301 | the end of an episode is terminal with the reward given, and the reset state is well formed |
| FullFlappy.StepLimitResets | src/flappy_rl/flappy/flappy.h:295-301 | reaching max_steps sets terminal (there is no truncation flag), logs the episode's length and final score, and resets |
| FullFlappy.TerminalClearsReturn | src/flappy_rl/flappy/flappy.h:295-301 | every terminal step leaves the running return at 0 |
| FullFlappy.NumPipesKept | src/flappy_rl/flappy/flappy.h:248-260 | a step keeps num_pipes; only the auto-reset sets it, to 3 |
| FullFlappy.Flappy.EndEpisode | src/flappy_rl/flappy/flappy.h:296-300 | the terminal branch writes Terminate of the state and its observation |
| FullFlappy.Flappy.FinishStep | src/flappy_rl/flappy/flappy.h:295-303 | the step-limit test and what follows it produce Finish |
| FullFlappy.SurviveOutcome | src/flappy_rl/flappy/flappy.h:239-303 | a surviving step ends with terminal 0 or 1 in a well-formed state |
| FullFlappy.Flappy.Survive | src/flappy_rl/flappy/flappy.h:239-303 | the phases after the collision tests produce SurviveOutcome |
| FullFlappy.SurviveSteps | src/flappy_rl/flappy/flappy.h:239-303 | SurviveOutcome is the composition of scoring, scrolling, recycling, shaping and the step limit |
| FullFlappy.AdvanceSteps | src/flappy_rl/flappy/flappy.h:239-260 | Advance is scoring followed by scrolling and recycling |
| FullFlappy.StepWhenDies | src/flappy_rl/flappy/flappy.h:219-237 | a step that dies is Terminate with -1 of the integrated state |
| FullFlappy.StepWhenSurvives | src/flappy_rl/flappy/flappy.h:205-304 | a step that survives is SurviveOutcome of the integrated state, from the flap reward |
| FullFlappy.StepOutcome | src/flappy_rl/flappy/flappy.h:205-304 | c_step keeps the state well formed, with terminal 0 or 1 |
| FullFlappy.Flappy.Step | src/flappy_rl/flappy/flappy.h:205-304 | c_step writes StepOutcome's state, reward, terminal flag and observation, and leaves the other buffer slots |
| GapDistribution.Trunc | variations/flappy/flappy.h:121-122 | the C (int) cast truncates toward zero |
| GapDistribution.GapMin | variations/flappy/flappy.h:103-105 | gap_min, 0.5 minus half_range = min(d, 0.25), is never below 0.25 |
| GapDistribution.GapMax | variations/flappy/flappy.h:103-105 | gap_max, 0.5 plus half_range = min(d, 0.25), is never above 0.75 |
| GapDistribution.ExtremeProbIsTent | variations/flappy/flappy.h:109-118 | the two-piece extreme_prob equals a clipped tent of slope 1.5 around 0.55 |
| GapDistribution.ExtremeProbBounds | variations/flappy/flappy.h:109-118 | extreme_prob lies in [0, 0.45]; it is 0 outside (0.25, 0.85), positive inside, and 0.45 at d = 0.55 |
| GapDistribution.ExtremeProbMonotone | variations/flappy/flappy.h:109-118 | extreme_prob rises up to d = 0.55 and falls after it |
| GapDistribution.ExtremeProbContinuous | variations/flappy/flappy.h:109-118 | extreme_prob moves by at most 1.5 times the change in d, so there is no jump |
| GapDistribution.GapCenter | variations/flappy/flappy.h:121-135 | the draw uses one to three rand() calls |
| GapDistribution.ZeroDifficultyCentred | variations/flappy/flappy.h:103-105 | for d <= 0, one rand() call and the centre is exactly 0.5 |
| GapDistribution.ExtremeBands | variations/flappy/flappy.h:122-128 | the extreme branch yields centres in [0.25, 0.35] or [0.65, 0.75] |
| GapDistribution.UniformBranch | variations/flappy/flappy.h:129-134 | a two-draw centre is gap_min + j/100 for some j in 0..steps |
| GapDistribution.FullRangeBounds | variations/flappy/flappy.h:121-135 | for d >= 0.25 every centre lies in [0.25, 0.75] |
| GapDistribution.WideningBounds | variations/flappy/flappy.h:121-135 | for 0 < d < 0.25 the centre lies in [gap_min, gap_max + 0.005] |
| GapDistribution.WideningOvershoot | variations/flappy/flappy.h:129-134 | at d = 0.249 a centre of 0.751 is drawn, above 0.75 |
| CurriculumFlappy.AddLog | variations/flappy/flappy.h:73-79 | add_log copies score, length and difficulty, counts one more episode, and sets perf to 1 exactly when the score is positive |
| CurriculumFlappy.Spawn | variations/flappy/flappy.h:99-139 | spawn_pipe keeps the state well formed |
| CurriculumFlappy.Flappy.Init | variations/flappy/flappy.h:81-88 | init sets the constants, a difficulty of 0, and a step limit of 5000 when the one given is not positive |
| CurriculumFlappy.Flappy.Rand | variations/flappy/flappy.h:121 | each rand() reads the next position of the stream |
| CurriculumFlappy.Flappy.DrawGap | variations/flappy/flappy.h:121-135 | the draw is GapCenter at the stored difficulty and advances the stream by its number of draws |
| CurriculumFlappy.Flappy.SpawnPipe | variations/flappy/flappy.h:99-139 | spawn_pipe on the arrays yields Spawn of the state |
| CurriculumFlappy.DrawableBounds | variations/flappy/flappy.h:103-135 | a centre drawable at d is 0.5 for d <= 0, in [0.25, 0.75] for d >= 0.25, and in [gap_min, gap_max + 0.005] in between |
| CurriculumFlappy.Flappy.PlacePipe | variations/flappy/flappy.h:193-196 | one iteration of the reset loop places pipe i at its slot and spawns it |
| CurriculumFlappy.LayOutNext | variations/flappy/flappy.h:193-196 | the reset loop after i + 1 iterations is one more placement after i |
| CurriculumFlappy.Flappy.LayOutPipes | variations/flappy/flappy.h:193-196 | the reset loop yields LayOut after three iterations |
| CurriculumFlappy.LayOutKeeps | variations/flappy/flappy.h:193-196 | n iterations touch only pipes 0..n-1 and the stream, which advances 1 to 3 per pipe |
| CurriculumFlappy.LayOutFacts | variations/flappy/flappy.h:193-196 | each laid-out pipe is at its slot, unscored, with a centre drawable at the stored difficulty |
| CurriculumFlappy.ResetLayout | variations/flappy/flappy.h:184-198 | c_reset(env, d) stores d, puts the bird at rest at 0.5 with no score, steps or return, and uses 3 to 9 rand() calls. The three pipes are left to right, unscored, with centres in the bounds for d |
| CurriculumFlappy.Flappy.Reset | variations/flappy/flappy.h:184-198 | c_reset(env, d) produces ResetEnv and its observation |
| CurriculumFlappy.ObsVector | variations/flappy/flappy.h:142-166 | o[0], o[2] lie in [0, 1] and o[1] lies in [-1, 1]. Slots 2..4 are (1, 0.5, gap_height) without a next pipe, and its centre and height otherwise |
| CurriculumFlappy.ObservationSlots | variations/flappy/flappy.h:142-166 | for every state, with no live pipe ahead slots 2..4 read (1, 0.5, gap_height); otherwise they show the leftmost pipe ahead |
| CurriculumFlappy.Flappy.ComputeObservations | variations/flappy/flappy.h:142-166 | compute_observations writes Observe of the state into the first 5 slots |
| CurriculumFlappy.Integrate | variations/flappy/flappy.h:201-211 | after integration the height lies in [0, 1], the step count rises by one, and the pipes, score and difficulty are kept |
| CurriculumFlappy.Flappy.Move | variations/flappy/flappy.h:201-211 | clears the reward (no flap penalty) and the terminal flag, and integrates |
| CurriculumFlappy.Flappy.Crashed | variations/flappy/flappy.h:213-233 | the death test is a floor/ceiling hit or a collision |
| CurriculumFlappy.Flappy.Die | variations/flappy/flappy.h:213-233 | the death branch writes Terminate with reward -1 |
| CurriculumFlappy.Flappy.ScorePipes | variations/flappy/flappy.h:235-243 | each pipe passed adds exactly +1 to reward and score and is marked |
| CurriculumFlappy.Recycle | variations/flappy/flappy.h:249-258 | recycling keeps the state well formed |
| CurriculumFlappy.Flappy.ScrollAndRecycle | variations/flappy/flappy.h:246-258 | scrolling then recycling yields Recycle of the scrolled state |
| CurriculumFlappy.Advance | variations/flappy/flappy.h:235-258 | scoring, scrolling and recycling keep the state well formed |
| CurriculumFlappy.AdvanceSteps | variations/flappy/flappy.h:235-258 | Advance is scoring followed by scrolling and recycling |
| CurriculumFlappy.AdvanceFacts | variations/flappy/flappy.h:235-258 | the pipe phases keep the difficulty, steps, pipe count, log and height, add the passes to the score, and keep centred gaps centred at difficulty 0 |
| CurriculumFlappy.Flappy.AdvancePipes | variations/flappy/flappy.h:235-258 | the pipe phases yield Advance of the state |
| CurriculumFlappy.Terminate | variations/flappy/flappy.h:260-267 | the end of an episode is terminal with the reward given |
| CurriculumFlappy.TerminateFacts | variations/flappy/flappy.h:260-267 | the finished episode is logged with the stored difficulty, the return is cleared, and the reset reuses the difficulty (centring every gap when it is 0) |
| CurriculumFlappy.Flappy.EndEpisode | variations/flappy/flappy.h:261-266 | the terminal branch writes Terminate of the state |
| CurriculumFlappy.Finish | variations/flappy/flappy.h:260-269 | terminal is 1 exactly when the step count has reached max_steps |
| CurriculumFlappy.Flappy.FinishStep | variations/flappy/flappy.h:260-269 | the step-limit test produces Finish |
| CurriculumFlappy.SurviveOutcome | variations/flappy/flappy.h:235-269 | a surviving step keeps the state well formed |
| CurriculumFlappy.SurviveSteps | variations/flappy/flappy.h:235-269 | SurviveOutcome is Advance followed by Finish with the pass count as reward |
| CurriculumFlappy.Flappy.Survive | variations/flappy/flappy.h:235-269 | the phases after the collision tests produce SurviveOutcome |
| CurriculumFlappy.StepWhenDies | variations/flappy/flappy.h:213-233 | a step that dies is Terminate with -1 |
| CurriculumFlappy.StepWhenSurvives | variations/flappy/flappy.h:200-269 | a step that survives is SurviveOutcome of the integrated state |
| CurriculumFlappy.StepOutcome | variations/flappy/flappy.h:200-269 | c_step keeps the state well formed, with terminal 0 or 1 |
| CurriculumFlappy.SparseReward | variations/flappy/flappy.h:200-269 | the reward is -1 exactly on death. Otherwise it is a whole number of passes between 0 and num_pipes, equal to the score gained when the episode goes on |
| CurriculumFlappy.DifficultyKept | variations/flappy/flappy.h:184-198 | every step, auto-reset included, keeps the stored difficulty, and a terminal step logs it with the finished episode |
| CurriculumFlappy.CentredStaysCentred | variations/flappy/flappy.h:99-139 | at difficulty 0 every gap stays centred through every step and reset |
| CurriculumFlappy.Flappy.Step | variations/flappy/flappy.h:200-269 | c_step writes StepOutcome's state, reward, terminal flag and observation |
| Curriculum.Total | variations/flappy/curriculum.py:33 | max(1, total) is at least 1: the total when that is positive, 1 otherwise |
| Curriculum.WarmupIsTenth | variations/flappy/curriculum.py:24-34 | int(total * 0.10) is total / 10, below the total |
| Curriculum.DifficultyRange | variations/flappy/curriculum.py:33-38 | the difficulty lies in [0, 1], and a non-positive total behaves as 1 |
| Curriculum.WarmupHold | variations/flappy/curriculum.py:33-36 | the difficulty is 0 exactly up to step int(max(1, total) * 0.1) |
| Curriculum.FullAtEnd | variations/flappy/curriculum.py:33-38 | the difficulty is 1 exactly from step max(1, total) on |
| Curriculum.DifficultyMonotone | variations/flappy/curriculum.py:33-38 | a later step never has a lower difficulty |
| Curriculum.PollsAfterReset | variations/flappy/curriculum.py:89-102 | after a reset, k steps hand on the log on k / abs(log_interval) of them: a tick polls exactly when it is a multiple of log_interval |
| Curriculum.FlappyCurriculum.constructor | variations/flappy/curriculum.py:44-82 | the wrapper starts at tick 0 with its interval and handle |
| Curriculum.FlappyCurriculum.Reset | variations/flappy/curriculum.py:84-90 | reset hands on the shared difficulty, or 0.0 when no handle was given, and sets the tick to 0 |
| Curriculum.FlappyCurriculum.Step | variations/flappy/curriculum.py:92-109 | step increments the tick, copies the actions into the buffer, and hands on the shared difficulty (0.0 without a handle). Its info list holds the log exactly when the new tick is a multiple of log_interval and the log is not empty, and is empty otherwise |
| Grid.Obs | src/flappy_rl/env.py:43-53 | _obs has three components |
| Grid.ObsValues | src/flappy_rl/env.py:43-53 | every component is -1 or +1, position -1 is the floor and +1 the ceiling, and the two wall components are opposite |
| Grid.SampleWallsOneWall | src/flappy_rl/env.py:59-64 | _sample_walls leaves exactly one wall up, the roof exactly when its one generator draw is below 0.5; it advances the generator by that one draw and keeps the row and the count |
| Grid.ResetFacts | src/flappy_rl/env.py:66-73 | reset leaves row 0 or 1, no steps and one wall; with a seed the result depends on the seed alone |
| Grid.HitFacts | src/flappy_rl/env.py:83-89 | a hit happens exactly for (y=1, a=1) or (y=0, a=0), whatever the walls. It gives -1, terminal, no truncation, and an unchanged state |
| Grid.SurviveFacts | src/flappy_rl/env.py:91-98 | otherwise the bird moves to row 1 for action 1 and to row 0 for anything else. The count rises by one, the reward is exactly 0.01, the walls are resampled, and truncation comes exactly from step 2000 |
| Grid.InvalidActionFalls | src/flappy_rl/env.py:81-91 | an action other than 0 or 1 never hits and moves the bird to row 0 |
| Grid.RewardValues | src/flappy_rl/env.py:76-98 | every reward is exactly -1 (on a terminal step) or exactly 0.01 (otherwise) |
| Grid.StepKeepsReachable | src/flappy_rl/env.py:75-99 | a step keeps the row in {0, 1} and exactly one wall |
| Grid.FlipNeverHits | src/flappy_rl/env.py:83-98 | always moving to the other row never hits: k steps earn exactly 0.01 each |
| Grid.RunReturnAtMost | src/flappy_rl/env.py:83-98 | over any sequence of actions the return is 0.01 per step minus 1.01 per hit, so no policy earns more than 0.01 per step and the alternating policy is optimal |
| Grid.FlappyGrid.constructor | src/flappy_rl/env.py:30-41 | the state starts at zero with a generator seeded by the seed |
| Grid.FlappyGrid.WriteObs | src/flappy_rl/env.py:55-57 | writes _obs into the observation buffer |
| Grid.FlappyGrid.SampleWallsInPlace | src/flappy_rl/env.py:59-64 | the walls become SampleWalls of the state |
| Grid.FlappyGrid.Reset | src/flappy_rl/env.py:66-73 | the state becomes ResetState and its observation is written |
| Grid.FlappyGrid.Step | src/flappy_rl/env.py:75-99 | the state, reward, terminal, truncation and observation buffers become StepState's |
| Checkpoints.Basename | variations/flappy/eval_last_checkpoints.py:36 | a base name holds no '/' |
| Checkpoints.BasenameOfJoin | variations/flappy/eval_last_checkpoints.py:36 | the base name of a directory path joined with a plain name is that name |
| Checkpoints.CheckpointStep | variations/flappy/eval_last_checkpoints.py:35-38 | the step is -1 or a natural number |
| Checkpoints.StepOfName | variations/flappy/eval_last_checkpoints.py:35-38 | the step is non-negative exactly when the base name is model_ + ASCII digits + .pt (with an optional final newline), and it is then the decimal value of the digits |
| Checkpoints.StepRoundTrip | variations/flappy/eval_last_checkpoints.py:37-38 | model_ + zero-padded n + .pt under any directory parses back to n |
| Checkpoints.LeadingZeros | variations/flappy/eval_last_checkpoints.py:38 | leading zeros do not change int() of the digits |
| Checkpoints.Filter | variations/flappy/eval_last_checkpoints.py:101 | the comprehension keeps exactly the names with a key of at least 0, taken from the listing |
| Checkpoints.FilterKeepsOrder | variations/flappy/eval_last_checkpoints.py:101 | for every valid key, the names with that key are kept, all of them and in listing order |
| Checkpoints.SortFacts | variations/flappy/eval_last_checkpoints.py:102 | the sort orders by key and is a permutation |
| Checkpoints.SortIsStable | variations/flappy/eval_last_checkpoints.py:102 | the names with any one key keep their input order |
| Checkpoints.SelectNone | variations/flappy/eval_last_checkpoints.py:101-104 | the run stops for lack of checkpoints exactly when no name has a key of at least 0 |
| Checkpoints.SelectFacts | variations/flappy/eval_last_checkpoints.py:101-106 | the selection has min(count, max(1, last)) names, sorted, from the valid ones, and none left out ranks above one kept |
| Checkpoints.SelectionFacts | variations/flappy/eval_last_checkpoints.py:100-106 | with checkpoint_step as the key, it is non-empty exactly when some name parses; it is sorted by step, min(count, max(1, last)) long, and the top steps |
| Checkpoints.RankingIsStable | variations/flappy/eval_last_checkpoints.py:101-102 | for every valid step, the ranking lists the checkpoints with that step exactly as the listing does (all of them, in listing order) |
| Checkpoints.MeanBounds | variations/flappy/eval_last_checkpoints.py:72-81 | the mean lies between the minimum and the maximum |
| Checkpoints.Summarise | variations/flappy/eval_last_checkpoints.py:72-81 | the report carries the model path, the mean, minimum and maximum of the pipes passed and the mean episode length, with min <= mean <= max |
| Checkpoints.EvalCheckpoint | variations/flappy/eval_last_checkpoints.py:59-81 | the loop runs episode ep with seed seed + ep and reports Summarise of their outcomes; with no episodes there is no report |
| Checkpoints.EvaluateAll | variations/flappy/eval_last_checkpoints.py:131-141 | every selected checkpoint is evaluated, in order, on the same seeds seed, seed + 1, ..., seed + episodes - 1 |
| Checkpoints.BestIsFirstMaximum | variations/flappy/eval_last_checkpoints.py:150 | no result beats the best in (mean_pipes, mean_length) order, and every earlier result is strictly worse |
| TrainArgs.FirstIndex | src/flappy_rl/train.py:61 | list.index returns a position holding the flag with no earlier occurrence |
| TrainArgs.Argv.IndexOf | src/flappy_rl/train.py:61 | the search loop returns that first position |
| TrainArgs.Argv.Delete | src/flappy_rl/train.py:62 | del argv[i] removes exactly position i |
| TrainArgs.StripAbsent | src/flappy_rl/train.py:60-79 | an absent flag leaves argv unchanged |
| TrainArgs.StripDeletes | src/flappy_rl/train.py:60-79 | a present flag loses its first occurrence and the next token, when there is one; everything else is kept |
| TrainArgs.StripLength | src/flappy_rl/train.py:60-79 | a present flag shortens argv by 2, or by 1 when it is the last token |
| TrainArgs.StripKeepsOrder | src/flappy_rl/train.py:60-79 | the remaining tokens keep their relative order |
| TrainArgs.StripAllFacts | src/flappy_rl/train.py:60-79 | the four blocks delete at most eight tokens, keep the rest in order, and change nothing when no flag is present |
| TrainArgs.Argv.Strip | src/flappy_rl/train.py:60-64 | one block turns the tokens into Stripped |
| TrainArgs.Argv.StripTrainFlags | src/flappy_rl/train.py:60-79 | the four blocks turn the tokens into StrippedAll |
| TrainArgs.TimestepsOverride | src/flappy_rl/train.py:84 | any given step count is used, 0 included; only a missing one becomes 5_000_000 |
| TrainArgs.LearningRateOverride | src/flappy_rl/train.py:87 | the rate is never 0: a non-zero override is used, and a missing or zero one becomes 3e-4 |
| TrainArgs.TrainSectionFacts | src/flappy_rl/train.py:83-91 | env, total_timesteps, learning_rate, optimizer "adam", clip_coef 0.2 and ent_coef 0.01 are set, and the device becomes cpu without CUDA. Every other key keeps its value, and no key is added beyond those |
| TrainArgs.VecFacts | src/flappy_rl/train.py:93-97 | an error arises exactly for a num_envs string other than "auto". Otherwise num_envs ends at least 128, a value of at least 128 is kept, num_workers "auto" becomes 2, and other keys are untouched |
| TrainArgs.VecIdempotent | src/flappy_rl/train.py:93-97 | normalising twice equals normalising once |
| TrainArgs.VecKwargs.Normalize | src/flappy_rl/train.py:93-97 | the two statements turn the dictionary into VecNormalized, or fail after the num_workers update |

## Left out

- `c_render` and `c_close` in both `flappy.h` files: raylib windowing, textures and input, which is UI.
- The batched binding (`vec_init`, `vec_reset`, `vec_step`, `vec_log` and the per-instance seeds): `binding.c` includes a header that is not part of this model. The curriculum wrapper returns the difficulty and the log it would hand to the binding.
- The algorithms of C `rand()` and NumPy's `default_rng`. They are abstract streams, so every proof holds for any generator.
- IEEE-754 single precision: positions, velocities and rewards are exact reals. `(int)` casts truncate, and `int(total * 0.10)` is `total / 10` for positive totals.
- `FullFlappy.ResetObservation`: assumes `width < 2e9`, so the first pipe lies below the search's 1e9 sentinel.
- `multiprocessing.Value` sharing of the difficulty between processes. The difficulty is a plain input on each call.
- `Curriculum.FlappyCurriculum.constructor`, `Curriculum.FlappyCurriculum.Step` and `Curriculum.Info` take `log_interval != 0`. The source accepts an interval of 0 at construction and raises ZeroDivisionError at the first `step`; the model requires it away from construction on, so that case is not modelled.
- The torch policy and its runs:
  - `FlappyGridPolicy`;
  - `run_episode`, which `EvalCheckpoint` takes as a function from path and seed to an episode's (pipes passed, steps);
  - checkpoint loading;
  - the PuffeRL trainer.
- `Checkpoints.Summarise`: does not report `std_pipes`, because it needs a square root over reals and no property here is about it.
- `Checkpoints.CheckpointStep`: reads `\d` as the ASCII digits '0'..'9' only. Python 3's str pattern also matches every other Unicode decimal digit (category Nd), and `int()` converts them, so a name such as `model_١٢.pt` (Arabic-Indic digits) has step 12 in Python but -1 here. A Unicode character database is not available to the model.
- `Checkpoints.StepOfName`: its "exactly when" and its value hold over ASCII digit names only, for the same reason.
- `find_latest_run`, `glob` and file modification times. The listing of checkpoint names is an input.
- argparse and `parse_known_args`: the parsed override values are inputs to `TrainSection`.
- `pufferl.load_config`: the train and vec sections are inputs.
- `TrainArgs.VecNormalized`: an error message is a string, not a Python exception type.
- `TrainArgs.BelowMinimum`: a `bool` num_envs compares as 0 or 1, so it always counts as below 128. Other value types (lists, dicts) are not modelled.
- `src/flappy_rl/flappy/flappy.py`, `src/curly_succotash/`, `src/flappy_rl/sweep.py`, `run_eval.py`, `run_eval_flappy.py` and `scripts/`. They duplicate the modelled logic or drive training, evaluation and subprocesses.
- The sample Gymnasium/Puffer environments and the import glue.
