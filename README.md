# Duet environment: a verified model of its step state machine

This project models the core of `DuetGame`, the gym environment of the game
Duet. Two balls, blue and red, orbit a ring locked pi radians apart.
Obstacle sets fall from the top of the screen. The agent spins both balls
left, right or not at all.

Each `step(action)` runs `n_repeat_action` sub-steps. A sub-step:

1. turns the balls;
2. moves every obstacle;
3. retires the oldest set if it is out of frame (score +1, reward 1);
4. spawns a new set every `NEW_OBS_INTERVAL` = 140 sub-steps;
5. tests both balls against the oldest set (game over, reward 0);
6. advances the spawn counter modulo 140.

`reset` puts the game back to score 0, counter 1, two fresh balls and a
manager holding one set. `man_init` installs the configuration, a fresh
manager holding one set and fresh balls, and leaves score and counter as
they were; the constructor sets them to 0 and 1. With capture on and the "coord"
representation, the observation is a 12-number vector.

The Dafny is laid out as follows:

- `ball.dfy` (module `Balls`): the board constants and the balls. A ball is
  its starting point, its starting phase (pi for blue, 0 for red) and an
  integer count of spin steps. The model's angles are therefore exact. The
  game's own angle is a float that gathers rounding (see "## Left out").
- `obstacles.dfy` (module `Obstacles`): obstacles, obstacle sets, and the
  manager's queue of live sets, oldest first (`Spawn` appends, `Retire` pops
  the head).
- `step_spec.dfy` (module `StepSpec`): the specification.
  - `SubStep` is one sub-step, written as its six phases run in order
    (`RunPhase`, `RunPhases`, `SUB_STEP_ORDER`).
  - `Run` is n sub-steps, with the events they produced.
  - `RewardOf` and `GameOverOf` fold the events into the reward and
    game-over flag that `step` returns.
  - The file also holds the lemmas about all of these.
- `coord_state.dfy` (module `CoordObservation`): `_get_coord_state` as a
  pure function, and a reader that recovers its parts.
- `duet_env.dfy` (module `DuetEnv`): the `DuetGame` object as a class whose
  methods update its fields in place.
  - Each method is proved against the pure specification.
  - `Step` ends in exactly the state of `Run`, and returns `RewardOf` and
    `GameOverOf` of the run's events.
  - So every lemma about `Run` holds of the object.

The collaborators the environment imports are not part of this model:
`Ball`, `ObstacleManager` and `Controller` (`duet/duet_env.py:6-8`), and the
`Obstacle` objects it reaches through the manager. They appear as the
fields of `StepSpec.Backend`, which are total functions:

- how an obstacle moves;
- whether the oldest set is out of frame;
- whether a ball touches an obstacle;
- a ball's screen position;
- the k-th obstacle set the seeded generator produces;
- the controller's decision.

The manager's `oldest_obstacle_set()` is called with no emptiness check
(`duet/duet_env.py:163`, `:262`), so an empty manager there is undefined
behaviour. The model also treats `oldest_out_of_frame()` on an empty manager
(`duet/duet_env.py:146`) as undefined, because it too asks about the oldest
set. In the pure model either query on an empty manager ends the sub-step in
`NoOldestSet`. The methods require that this does not happen, and
`SubStepNoOldestSet` states exactly when it does. The object's invariant
keeps the manager non-empty between sub-steps, so the line-146 choice only
matters for states the object never reaches.

Points where the model follows the code rather than a description of it:

- The docstring of `_get_coord_state` (`duet/duet_env.py:248-249`) lists each
  obstacle as top, bottom, right, left. The code builds top, bottom, left,
  right (lines 267 and 275). The model uses the code's order.
- The comment at `duet/duet_env.py:162` ("If either ball has collided,
  quit") says the frame-repeat loop stops at a collision. The loop at lines
  137-176 has no exit: every remaining sub-step still runs, and a later
  retirement can set the reward back to 1 while `game_over` stays true. The model follows the loop (`RunLength`,
  `RewardLastWriteWins`, `GameOverSticky`).
- A retirement scores even in a sub-step that also collides: the
  `score += 1` at line 148 runs before the collision test at lines 163-170.
  The score is not "one point per retired set that was not a collision"
  (`SubStepOrder`, `RunScore`).
- An unknown mode raises `ValueError` in the first sub-step, before
  anything changes. When `n_repeat_action` is 0 or negative, no sub-step
  runs and nothing is raised (`RunModeError`).

## Model

| member | source | states |
|---|---|---|
| Balls.InitialBlue | duet/duet_env.py:313-317 | blue starts at (BOARD_WIDTH//2 - CIRCLE_RADIUS, BOARD_HEIGHT - DIST_TO_BOTTOM), phase pi, orbit radius CIRCLE_RADIUS, no spin steps |
| Balls.InitialRed | duet/duet_env.py:320-324 | red starts at (BOARD_WIDTH//2 + CIRCLE_RADIUS, BOARD_HEIGHT - DIST_TO_BOTTOM), phase 0, orbit radius CIRCLE_RADIUS, no spin steps |
| Balls.SpinLeft | duet/duet_env.py:356-357 | spin_left takes one spin step down and changes nothing else about the ball |
| Balls.SpinRight | duet/duet_env.py:359-360 | spin_right takes one spin step up and changes nothing else about the ball |
| Balls.LockedIffOpposed | duet/duet_env.py:313-324 | for balls started at pi and 0, equal spin counts is the same as being exactly pi radians apart, in both directions |
| Balls.InitialLocked | duet/duet_env.py:313-324 | the freshly created balls are pi radians apart |
| Balls.SpinKeepsLocked | duet/duet_env.py:353-360 | the same spin call on both balls moves them by the same angle and keeps them pi apart |
| Obstacles.MoveSet | duet/duet_env.py:400-401 | every obstacle of a set is moved exactly once, in place and in order |
| Obstacles.MoveAll | duet/duet_env.py:399-401 | every set is moved, none gains, loses or reorders obstacles |
| Obstacles.MoveAllKeepsNonEmpty | duet/duet_env.py:399-401 | moving obstacles never empties a set |
| Obstacles.Spawn | duet/duet_env.py:152-153 | new_obstacle_set: the new set joins as the youngest, and the older sets keep their order |
| Obstacles.Retire | duet/duet_env.py:146-147 | remove_obstacle_set: the oldest set leaves and the rest keep their order |
| Obstacles.FirstInFirstOut | duet/duet_env.py:146-153 | retirement and spawning commute on a non-empty manager; a set spawned behind n older ones becomes the oldest after n retirements |
| StepSpec.Steer | duet/duet_env.py:342-362 | the turn both balls make: the controller's -1/1/other in "contr", the action 1/2/other in "ai"; none (the ValueError) exactly for an unknown mode |
| StepSpec.Hit | duet/duet_env.py:163-170 | some obstacle of the oldest set touches the blue or the red ball; an empty set hits nothing |
| StepSpec.SubStep | duet/duet_env.py:139-173 | one pass of the loop body as six phases in order: turn, move, retire, spawn, collide, advance |
| StepSpec.Run | duet/duet_env.py:137-176 | n passes of the loop body, each after the last, with the event each one produced; it stops at the first error |
| StepSpec.RewardOf | duet/duet_env.py:132-170 | the reward step returns, folded from the events: 0 at the start, 0 after a hit, else 1 after a retirement; always 0 or 1 |
| StepSpec.GameOverOf | duet/duet_env.py:132-170 | game_over as step returns it: some sub-step hit |
| StepSpec.SubStepPhases | duet/duet_env.py:137-173 | the six phases in order have the one-piece effect `SubStepEffect`: turn, move, retire, spawn, collide, advance |
| StepSpec.LaterPhases | duet/duet_env.py:146-173 | after the turn and the move, the last four phases give the one-piece effect |
| StepSpec.RetireThenSpawn | duet/duet_env.py:146-153 | retirement (score +1) then spawning (generator advances) from a non-empty manager, with the events they record |
| StepSpec.SubStepInOrder | duet/duet_env.py:139-173 | a sub-step whose six phases each complete ends with what the last phase left |
| StepSpec.OldestSetAtCollision | duet/duet_env.py:146-163 | in a sub-step that never meets an empty manager, the collision test finds an oldest set |
| StepSpec.SubStepOrder | duet/duet_env.py:140-170 | the retirement test sees the oldest set after it moved; the spawn test sees the counter before it advances; the collision test sees the oldest set left after retiring and spawning; a retirement scores exactly one; both balls get the same turn |
| StepSpec.SubStepCounter | duet/duet_env.py:152-173 | a set spawns exactly when i % 140 == 0; i becomes (i + 1) % 140 |
| StepSpec.SubStepSets | duet/duet_env.py:146-153 | after a sub-step a set is live; the count changes by spawn minus retirement; the generator advances once per spawn; no set becomes empty |
| StepSpec.RunExtend | duet/duet_env.py:137-176 | a completed k-sub-step run plus one completed sub-step is the completed (k+1)-sub-step run |
| StepSpec.NextSubStepDefined | duet/duet_env.py:137-176 | inside a run that never meets an empty manager, every next sub-step is defined |
| StepSpec.InvalidModeAtStart | duet/duet_env.py:137-140 | a sub-step can raise the mode error only as the very first one, and then the whole run raises it |
| StepSpec.RunUnfold | duet/duet_env.py:137-176 | a completed run of n sub-steps is n - 1 sub-steps followed by a completed one |
| StepSpec.AiAction | duet/duet_env.py:353-360 | in "ai" mode, action 1 spins both balls left, action 2 both right, any other action leaves both unchanged |
| StepSpec.SubStepModeError | duet/duet_env.py:361-362 | an unknown mode raises before anything changes; "ai" and "contr" never raise |
| StepSpec.SubStepNoOldestSet | duet/duet_env.py:146-163 | the oldest-set query meets an empty manager exactly when the manager was empty, or its only set retires in a sub-step that does not spawn |
| StepSpec.RunLength | duet/duet_env.py:137-176 | a completed run has exactly n sub-steps: no early exit, not even after a collision |
| StepSpec.NoOldestSetPersists | duet/duet_env.py:137-176 | once a prefix of the run meets an empty manager, the whole run does |
| StepSpec.RunModeError | duet/duet_env.py:137-140 | an unknown mode raises on the first sub-step, and a run of zero sub-steps raises nothing; a known mode never raises |
| StepSpec.RunScore | duet/duet_env.py:146-149 | the score grows by exactly the number of retirements, so it never decreases |
| StepSpec.RunCounter | duet/duet_env.py:172-173 | after n sub-steps, i == (i0 + n) % 140, so after any sub-step 0 <= i < 140 |
| StepSpec.RunSpawnEvents | duet/duet_env.py:152-153 | the j-th sub-step of a run spawns exactly when (i0 + j) % 140 == 0 |
| StepSpec.SpawnCadence | duet/duet_env.py:152-173 | starting from i == 1, the first n sub-steps spawn exactly n / 140 sets |
| StepSpec.CountMultiples | duet/duet_env.py:152-153 | a trace that spawns exactly at the sub-steps j with j + 1 a multiple of 140 has (its length) / 140 spawns |
| StepSpec.RunSets | duet/duet_env.py:146-153 | across a run, sets are live after every sub-step; the count changes by spawns minus retirements; no set becomes empty |
| StepSpec.RunKeepsLocked | duet/duet_env.py:353-360 | a run keeps the balls pi radians apart with equal spin counts |
| StepSpec.RewardLastWriteWins | duet/duet_env.py:132-170 | the reward is 0 or 1; it is 1 exactly when some sub-step retired a set without a collision and no later sub-step retired or collided |
| StepSpec.GameOverSticky | duet/duet_env.py:163-170 | once a sub-step has collided, game_over stays true for the rest of the call |
| CoordObservation.CoordState | duet/duet_env.py:256-277 | the observation has exactly 12 entries |
| CoordObservation.CoordStateRoundTrip | duet/duet_env.py:256-277 | reading the 12 entries back gives blue x, y, red x, y, then top, bottom, left, right of the oldest set's first obstacle, then the same four for its second obstacle or zeros when it has one |
| CoordObservation.SecondSlot | duet/duet_env.py:269-275 | a one-obstacle set gives four trailing zeros; non-zero trailing entries mean a second obstacle |
| DuetEnv.DuetGame.Observe | duet/duet_env.py:178-183 | no observation without capture; with "coord", the 12-entry coordinate vector |
| DuetEnv.DuetGame.constructor | duet/duet_env.py:51-64 | mode and capture as given, "pixel" representation, score 0, counter 1, no action |
| DuetEnv.DuetGame.ManInit | duet/duet_env.py:76-97 | the configuration as given, the action cleared in "ai" mode, a fresh manager holding exactly the generator's next set, fresh locked balls; score and counter untouched |
| DuetEnv.DuetGame.Reset | duet/duet_env.py:108-124 | score 0, counter 1, fresh balls, a manager holding exactly one set; configuration unchanged; returns the observation |
| DuetEnv.DuetGame.InitBalls | duet/duet_env.py:307-324 | both balls re-created at their starting points, pi radians apart |
| DuetEnv.DuetGame.NewObstacleSet | duet/duet_env.py:152-153 | the generator's next set joins the young end of the manager |
| DuetEnv.DuetGame.MoveBalls | duet/duet_env.py:342-362 | both balls make the turn the mode chooses; an unknown mode fails and leaves them unchanged |
| DuetEnv.DuetGame.MoveObstacles | duet/duet_env.py:394-401 | the nested loops move every obstacle of every set exactly once, as MoveAll says |
| DuetEnv.DuetGame.CheckCollisions | duet/duet_env.py:163-170 | game_over is set and reward zeroed exactly when some obstacle of the oldest set touches a ball |
| DuetEnv.DuetGame.RunSubStep | duet/duet_env.py:139-173 | one pass of the loop body ends in the state SubStep gives, updates reward and game_over by that sub-step's event, and keeps the invariant; an unknown mode changes nothing |
| DuetEnv.DuetGame.RetireAndSpawn | duet/duet_env.py:146-153 | the retirement and spawn phases in place, reward 1 on a retirement |
| DuetEnv.DuetGame.CollideAndAdvance | duet/duet_env.py:163-173 | the collision and counter phases in place |
| DuetEnv.DuetGame.RunSubStepLocked | duet/duet_env.py:353-360 | a sub-step keeps the object's balls locked |
| DuetEnv.DuetGame.Advance | duet/duet_env.py:137-176 | one loop pass extends the run by one event, with reward and game_over folded from the events |
| DuetEnv.DuetGame.RepeatSubSteps | duet/duet_env.py:132-176 | the loop runs n_repeat_action sub-steps (none when negative) and ends in the state Run gives, with reward RewardOf and game_over GameOverOf of its events |
| DuetEnv.DuetGame.Step | duet/duet_env.py:126-185 | step stores the action, ends in Run's final state, and returns the observation, RewardOf and GameOverOf; an unknown mode raises ValueError and changes nothing else |
| DuetEnv.RewardStep | duet/duet_env.py:146-170 | one more sub-step sets the reward to 0 on a hit, else to 1 on a retirement, else leaves it |
| DuetEnv.GameOverStep | duet/duet_env.py:163-170 | one more sub-step sets game_over exactly when it already was or the sub-step hit |

## Left out

- Rendering is left out: the pygame screen, fonts, drawing, `render`, `visualize`, `draw_rects` and `_get_pixel_state`. It is output only, or a lossy foreign image pipeline. A pixel observation is the bare `Pixels` value.
- `game_loop` and `_game_over` poll the keyboard and the window and are not modelled. The "man" mode of `_move_balls` (`duet/duet_env.py:331-340`) reads the keyboard, so `Mode` cannot express it: an `Unknown` tag names neither "ai", "contr" nor "man".
- The code for ball geometry, collisions, obstacle movement, set generation, out-of-frame tests and the controller is not part of this model. These are the `Backend` functions, and random gap placement is the generator's k-th set. The model assumes a generated set is never empty (`Obstacles.NonEmptySet`).
- `DuetEnv.DuetGame.Step` requires that no sub-step queries an empty manager, because the code leaves that case undefined. `StepSpec.SubStepNoOldestSet` characterises the case.
- `DuetEnv.DuetGame.Observe` requires a live set, for the same reason (`duet/duet_env.py:262`).
- `Balls.SpinKeepsLocked`, `Balls.LockedIffOpposed`, `Balls.InitialLocked` and `StepSpec.RunKeepsLocked` hold of the integer spin count. The game's angle starts as the floats `np.pi` and `0` (`duet/duet_env.py:315`, `:322`) and moves by the float `SPIN_STEP` (line 21). In floating point, a step left after a step right need not return the same angle, and blue minus red need not stay exactly pi.
- `StepSpec.SubStepNoOldestSet` assumes that `oldest_out_of_frame()` on an empty manager is undefined, like `oldest_obstacle_set()`. The manager's code is not part of this model. If that query simply answered false, a sub-step from an empty manager that spawns would get past line 146.
- `CoordObservation.SecondSlot` states "four trailing zeros exactly when the set has one obstacle" in one direction only. A second obstacle whose box is all zeros also gives four zeros.
- The class-level `observation_space` assignment and `state_size`/`nb_actions` are gym metadata and are not modelled.
- `DuetEnv.DuetGame.constructor` always sets the action to `None` and gives `n_repeat_action` and `random_obstacles` the defaults of `man_init`. The code only creates these fields later, or per mode.
- `DuetEnv.DuetGame.Reset` and `ManInit` do not restart the generator: the model's set counter keeps running. Whether the real generator restarts with a new manager is not known here. `generate` is unconstrained, so the lemmas hold either way.
- Actions are integers or `None`. Python's `True == 1` is not modelled.
