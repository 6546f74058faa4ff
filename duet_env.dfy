/** The Duet environment object: its fields, reset and initialisation, the
  * frame-repeat step loop, and the observation it returns.
  *
  * `Step` is proved against `StepSpec.Run`: its final state, reward and
  * game-over flag are those of the pure run, so everything proved about
  * `Run` (score, counter, spawn cadence, locked balls, reward policy) holds
  * of the object. */
module DuetEnv {
  import opened Balls
  import opened Obstacles
  import opened StepSpec
  import opened CoordObservation

  /** Which observation step and reset return: "pixel", "coord", or a tag
    * naming neither. */
  datatype StateRep = PixelRep | CoordRep | OtherRep(tag: OtherRepTag)

  type OtherRepTag = t: string | t != "pixel" && t != "coord" witness "other"

  /** An observation: none, the coordinate vector, or the pixel raster
    * (whose contents are not part of this model). */
  datatype Observation = NoObservation | Coords(v: seq<real>) | Pixels

  /** What step returns: the observation, the reward and whether the game is
    * over, or the ValueError raised for an unknown mode. */
  datatype StepResult = Stepped(obs: Observation, reward: int, gameOver: bool) | ValueError(tag: string)

  /** range(n) runs no iteration for a negative n. */
  function Repeats(n: int): nat
  {
    if n < 0 then 0 else n
  }

  class DuetGame {
    const backend: Backend
    var mode: Mode
    var capture: bool
    var stateRep: StateRep
    var action: Action
    var nRepeatAction: int
    var randomObstacles: bool
    var score: int
    var i: int
    var blue: Ball
    var red: Ball
    /** The obstacle manager's live sets, oldest first. */
    var sets: seq<ObstacleSet>
    /** How many sets the generator has produced so far. */
    var spawned: nat

    /** Initialised (the manager holds a set), every set holds an obstacle,
      * and the balls are locked pi radians apart. */
    ghost predicate Valid()
      reads this`sets, this`blue, this`red
    {
      sets != [] && AllNonEmpty(sets) && Locked(blue, red)
    }

    function State(): Game
      reads this`score, this`i, this`blue, this`red, this`sets, this`spawned
    {
      Game(score, i, blue, red, sets, spawned)
    }

    function ConfigFor(act: Action): Config
      reads this`mode, this`randomObstacles
    {
      Config(mode, act, randomObstacles, backend)
    }

    /** The observation step and reset return: none without capture, else by
      * the state representation; an unrecognised one gives none. */
    function Observe(): (obs: Observation)
      reads this
      requires Valid()
      ensures capture && stateRep == CoordRep ==> obs.Coords? && |obs.v| == COORD_STATE_LENGTH
      ensures !capture ==> obs == NoObservation
    {
      if !capture then NoObservation
      else match stateRep
        case CoordRep => Coords(CoordState(backend.position(blue), backend.position(red), sets[0]))
        case PixelRep => Pixels
        case OtherRep(_) => NoObservation
    }

    /** The constructor: mode and capture as given, the pixel representation,
      * score 0 and counter 1. The manager and the balls only exist after
      * ManInit, so the object is not yet Valid. */
    constructor (b: Backend, mode: Mode, capture: bool)
      ensures backend == b && this.mode == mode && this.capture == capture
      ensures stateRep == PixelRep && action == None
      ensures score == 0 && i == 1 && sets == [] && spawned == 0
    {
      backend := b;
      this.mode := mode;
      this.capture := capture;
      stateRep := PixelRep;
      action := None;
      nRepeatAction := 1;
      randomObstacles := true;
      score := 0;
      i := 1;
      blue := InitialBlue();
      red := InitialRed();
      sets := [];
      spawned := 0;
    }

    /** man_init: the configuration, a fresh manager holding exactly one
      * generated set, and fresh balls; in "ai" mode the stored action is
      * cleared. Score and counter are left alone. */
    method ManInit(stateRep: StateRep, mode: Mode, capture: bool, nRepeatAction: int, randomObstacles: bool)
      modifies this`mode, this`capture, this`action, this`stateRep, this`nRepeatAction, this`randomObstacles
      modifies this`sets, this`spawned, this`blue, this`red
      ensures Valid()
      ensures this.stateRep == stateRep && this.mode == mode && this.capture == capture
      ensures this.nRepeatAction == nRepeatAction && this.randomObstacles == randomObstacles
      ensures sets == [backend.generate(randomObstacles, old(spawned))] && spawned == old(spawned) + 1
      ensures blue == InitialBlue() && red == InitialRed()
      ensures action == if mode.Ai? then None else old(action)
      ensures score == old(score) && i == old(i)
    {
      this.mode := mode;
      action := if mode.Ai? then None else action;
      this.capture := capture;
      this.stateRep := stateRep;
      this.nRepeatAction := nRepeatAction;
      this.randomObstacles := randomObstacles;
      sets := [];
      NewObstacleSet();
      InitBalls();
    }

    /** reset: score 0, counter 1, fresh balls and a fresh manager holding
      * exactly one set; returns the observation. */
    method Reset() returns (obs: Observation)
      requires Valid()
      modifies this
      ensures Valid()
      ensures score == 0 && i == 1
      ensures |sets| == 1 && sets[0] == backend.generate(randomObstacles, old(spawned))
      ensures spawned == old(spawned) + 1
      ensures blue == InitialBlue() && red == InitialRed()
      ensures mode == old(mode) && capture == old(capture) && stateRep == old(stateRep)
      ensures action == old(action) && nRepeatAction == old(nRepeatAction) && randomObstacles == old(randomObstacles)
      ensures obs == Observe()
    {
      score := 0;
      i := 1;
      InitBalls();
      sets := [];
      NewObstacleSet();
      obs := Observe();
    }

    /** _init_balls: blue at phase pi on the left, red at phase 0 on the right. */
    method InitBalls()
      modifies this`blue, this`red
      ensures blue == InitialBlue() && red == InitialRed()
      ensures Locked(blue, red)
    {
      blue := InitialBlue();
      red := InitialRed();
      InitialLocked();
    }

    /** new_obstacle_set: the generator's next set joins the young end. */
    method NewObstacleSet()
      requires AllNonEmpty(sets)
      modifies this`sets, this`spawned
      ensures sets == Spawn(old(sets), backend.generate(randomObstacles, old(spawned)))
      ensures spawned == old(spawned) + 1
      ensures AllNonEmpty(sets)
    {
      sets := Spawn(sets, backend.generate(randomObstacles, spawned));
      spawned := spawned + 1;
    }

    /** _move_balls: both balls make the turn the mode chooses; an unknown
      * mode raises (ok is false) and leaves them alone. */
    method MoveBalls() returns (ok: bool)
      modifies this`blue, this`red
      ensures ok == Steer(ConfigFor(action), old(State())).Some?
      ensures ok ==> blue == Spin(Steer(ConfigFor(action), old(State())).value, old(blue))
      ensures ok ==> red == Spin(Steer(ConfigFor(action), old(State())).value, old(red))
      ensures !ok ==> blue == old(blue) && red == old(red)
    {
      match mode
      case Contr =>
        var d := backend.decide(sets, backend.position(red), backend.position(blue));
        if d == -1 {
          blue, red := SpinLeft(blue), SpinLeft(red);
        } else if d == 1 {
          blue, red := SpinRight(blue), SpinRight(red);
        }
        ok := true;
      case Ai =>
        if action == Some(1) {
          blue, red := SpinLeft(blue), SpinLeft(red);
        } else if action == Some(2) {
          blue, red := SpinRight(blue), SpinRight(red);
        }
        ok := true;
      case Unknown(_) =>
        ok := false;
    }

    /** _move_obstacles: every obstacle of every live set moves once. */
    method MoveObstacles()
      modifies this`sets
      ensures sets == MoveAll(old(sets), backend.move)
    {
      var j := 0;
      while j < |sets|
        invariant 0 <= j <= |sets| == |old(sets)|
        invariant forall q :: 0 <= q < j ==> sets[q] == MoveSet(old(sets)[q], backend.move)
        invariant forall q :: j <= q < |sets| ==> sets[q] == old(sets)[q]
      {
        var k := 0;
        while k < |sets[j]|
          invariant j < |sets| == |old(sets)|
          invariant 0 <= k <= |sets[j]| == |old(sets)[j]|
          invariant forall q :: 0 <= q < j ==> sets[q] == MoveSet(old(sets)[q], backend.move)
          invariant forall q :: j < q < |sets| ==> sets[q] == old(sets)[q]
          invariant forall p :: 0 <= p < k ==> sets[j][p] == backend.move(old(sets)[j][p])
          invariant forall p :: k <= p < |sets[j]| ==> sets[j][p] == old(sets)[j][p]
        {
          sets := sets[j := sets[j][k := backend.move(sets[j][k])]];
          k := k + 1;
        }
        assert sets[j] == MoveSet(old(sets)[j], backend.move);
        j := j + 1;
      }
      assert forall q :: 0 <= q < |sets| ==> sets[q] == MoveAll(old(sets), backend.move)[q];
    }

    /** The collision test of one sub-step: every obstacle of the oldest set
      * against both balls; any hit ends the game and zeroes the reward. */
    method CheckCollisions(gameOver0: bool, reward0: int) returns (gameOver: bool, reward: int)
      requires sets != []
      ensures gameOver == (gameOver0 || Hit(blue, red, sets[0], backend))
      ensures reward == if Hit(blue, red, sets[0], backend) then 0 else reward0
    {
      gameOver, reward := gameOver0, reward0;
      var oldest := sets[0];
      var k := 0;
      while k < |oldest|
        invariant 0 <= k <= |oldest|
        invariant gameOver == (gameOver0 || Hit(blue, red, oldest[..k], backend))
        invariant reward == if Hit(blue, red, oldest[..k], backend) then 0 else reward0
      {
        assert oldest[..k + 1][k] == oldest[k];
        assert forall p :: 0 <= p < k ==> oldest[..k + 1][p] == oldest[..k][p];
        if backend.collided(blue, oldest[k]) {
          gameOver, reward := true, 0;
        }
        if backend.collided(red, oldest[k]) {
          gameOver, reward := true, 0;
        }
        k := k + 1;
      }
      assert oldest[..k] == oldest;
    }

    /** One sub-step of step, as the pure SubStep describes it: the balls
      * turn, the obstacles move, the oldest set may retire (score and reward
      * 1), a set may spawn, a collision with the oldest set ends the game
      * and zeroes the reward, and the counter advances. An unknown mode
      * raises (ok is false) before anything changes.
      * The environment runs this as one loop body; it is split over
      * RetireAndSpawn and CollideAndAdvance only to keep each proof small. */
    method RunSubStep(gameOver0: bool, reward0: int) returns (ok: bool, gameOver: bool, reward: int, ghost e: Event)
      requires Valid()
      requires SubStep(ConfigFor(action), State()) != NoOldestSet
      modifies this`blue, this`red, this`sets, this`score, this`spawned, this`i
      ensures Valid()
      ensures ok ==> SubStep(ConfigFor(action), old(State())) == Done(Tick(State(), e))
      ensures ok ==> gameOver == (gameOver0 || e.hit) && reward == (if e.hit then 0 else if e.retired then 1 else reward0)
      ensures !ok ==> mode.Unknown? && SubStep(ConfigFor(action), old(State())) == InvalidMode(mode.tag) && State() == old(State())
    {
      gameOver, reward := gameOver0, reward0;
      e := NO_EVENT;
      ghost var c := ConfigFor(action);
      ghost var g := State();
      SubStepModeError(c, g);
      ok := MoveBalls();
      if !ok {
        return;
      }
      ghost var t1 := Tick(State(), NO_EVENT);
      assert RunPhase(c, Tick(g, NO_EVENT), TurnBalls) == Done(t1);
      MoveObstacles();
      ghost var t2 := Tick(State(), NO_EVENT);
      assert RunPhase(c, t1, MoveObstacleSets) == Done(t2);
      MoveAllKeepsNonEmpty(g.sets, backend.move);
      ghost var t4, t6;
      reward, t4 := RetireAndSpawn(c, t2, reward0);
      OldestSetAtCollision(c, g, t1, t2, RunPhase(c, t2, RetireOldest).value, t4);
      gameOver, reward, t6 := CollideAndAdvance(c, t4, gameOver0, reward);
      SubStepInOrder(c, g, t1, t2, RunPhase(c, t2, RetireOldest).value, t4, RunPhase(c, t4, TestCollision).value, t6);
      ghost var t := t6;
      e := t.event;
      SubStepSets(c, g);
      RunSubStepLocked(g);
    }

    /** Retirement and spawning: the oldest set leaves if it is out of
      * frame (score and reward 1), then a set joins if the counter is a
      * multiple of NEW_OBS_INTERVAL. */
    method RetireAndSpawn(ghost c: Config, ghost t: Tick, reward0: int) returns (reward: int, ghost u: Tick)
      requires ConfigFor(action) == c && State() == t.game && !t.event.retired
      requires sets != [] && AllNonEmpty(sets)
      modifies this`sets, this`score, this`spawned
      ensures RunPhase(c, t, RetireOldest).Done?
      ensures u == RunPhase(c, RunPhase(c, t, RetireOldest).value, SpawnIfDue).value
      ensures State() == u.game && AllNonEmpty(sets)
      ensures reward == if u.event.retired then 1 else reward0
    {
      reward := reward0;
      if backend.outOfFrame(sets[0]) {
        sets := Retire(sets);
        score := score + 1;
        reward := 1;
      }
      u := RunPhase(c, t, RetireOldest).value;
      assert State() == u.game;
      if i % NEW_OBS_INTERVAL == 0 {
        NewObstacleSet();
      }
      u := RunPhase(c, u, SpawnIfDue).value;
    }

    /** The collision test against the oldest set (game over, reward 0),
      * then the counter advances. */
    method CollideAndAdvance(ghost c: Config, ghost u: Tick, gameOver0: bool, reward0: int)
      returns (gameOver: bool, reward: int, ghost w: Tick)
      requires ConfigFor(action) == c && State() == u.game && sets != [] && !u.event.hit
      modifies this`i
      ensures RunPhase(c, u, TestCollision).Done?
      ensures w == RunPhase(c, RunPhase(c, u, TestCollision).value, AdvanceCounter).value
      ensures State() == w.game
      ensures w.event.retired == u.event.retired
      ensures gameOver == (gameOver0 || w.event.hit) && reward == if w.event.hit then 0 else reward0
    {
      gameOver, reward := CheckCollisions(gameOver0, reward0);
      w := RunPhase(c, u, TestCollision).value;
      i := (i + 1) % NEW_OBS_INTERVAL;
      w := RunPhase(c, w, AdvanceCounter).value;
    }

    /** The balls after MoveBalls are still locked. */
    lemma RunSubStepLocked(g: Game)
      requires Locked(g.blue, g.red) && SubStep(ConfigFor(action), g).Done?
      ensures Locked(SubStep(ConfigFor(action), g).value.game.blue, SubStep(ConfigFor(action), g).value.game.red)
    {
      SubStepOrder(ConfigFor(action), g);
      SpinKeepsLocked(Steer(ConfigFor(action), g).value, g.blue, g.red);
    }

    /** One pass of step's loop: one sub-step extends the run by one event
      * and updates reward and game_over as the run's trace says; an unknown
      * mode raises, which can only happen on the first pass, so the object
      * is then as step found it. */
    method Advance(ghost c: Config, ghost g0: Game, ghost n: nat, ghost k: nat, ghost events: seq<Event>, gameOver0: bool, reward0: int)
      returns (ok: bool, gameOver: bool, reward: int, ghost events': seq<Event>)
      requires Valid() && ConfigFor(action) == c
      requires k < n && Run(c, g0, n) != NoOldestSet
      requires Run(c, g0, k) == Done(Trace(State(), events))
      requires reward0 == RewardOf(events) && gameOver0 == GameOverOf(events)
      modifies this`blue, this`red, this`sets, this`score, this`spawned, this`i
      ensures Valid()
      ensures ok ==> Run(c, g0, k + 1) == Done(Trace(State(), events'))
      ensures ok ==> reward == RewardOf(events') && gameOver == GameOverOf(events')
      ensures !ok ==> c.mode.Unknown? && Run(c, g0, n) == InvalidMode(c.mode.tag) && State() == g0
    {
      ghost var gk := State();
      NextSubStepDefined(c, g0, k, n, Trace(gk, events));
      ghost var e;
      ok, gameOver, reward, e := RunSubStep(gameOver0, reward0);
      events' := events + [e];
      if !ok {
        InvalidModeAtStart(c, g0, k, n, Trace(gk, events));
        return;
      }
      RunExtend(c, g0, k, Trace(gk, events), Tick(State(), e));
      GameOverStep(events, e);
      RewardStep(events, e);
    }

    /** The frame-repeat loop of step: n_repeat_action sub-steps, with
      * reward and game_over as the run's trace says; no early exit after a
      * collision. An unknown mode raises on the first pass, before
      * anything changes. */
    method RepeatSubSteps(ghost c: Config, ghost g0: Game, ghost n: nat)
      returns (ok: bool, gameOver: bool, reward: int, ghost events: seq<Event>)
      requires Valid() && ConfigFor(action) == c && State() == g0
      requires n == Repeats(nRepeatAction) && Run(c, g0, n) != NoOldestSet
      modifies this`blue, this`red, this`sets, this`score, this`spawned, this`i
      ensures sets != [] && AllNonEmpty(sets) && Locked(blue, red)
      ensures ok ==> Run(c, g0, n) == Done(Trace(State(), events))
      ensures ok ==> reward == RewardOf(events) && gameOver == GameOverOf(events)
      ensures !ok ==> c.mode.Unknown? && Run(c, g0, n) == InvalidMode(c.mode.tag) && State() == g0
    {
      ok, gameOver, reward, events := true, false, 0, [];
      var k := 0;
      while k < nRepeatAction
        invariant 0 <= k <= n == Repeats(nRepeatAction)
        invariant ConfigFor(action) == c
        invariant Valid()
        invariant Run(c, g0, k) == Done(Trace(State(), events))
        invariant reward == RewardOf(events) && gameOver == GameOverOf(events)
      {
        ok, gameOver, reward, events := Advance(c, g0, n, k, events, gameOver, reward);
        if !ok {
          return;
        }
        k := k + 1;
      }
      assert k == n;
    }

    /** step: the frame-repeat loop, then the observation. The final state,
      * reward and game-over flag are those of the pure run; an unknown mode
      * raises before anything changes. */
    method Step(act: Action) returns (r: StepResult)
      requires Valid()
      requires Run(ConfigFor(act), State(), Repeats(nRepeatAction)) != NoOldestSet
      modifies this
      ensures action == act && mode == old(mode) && capture == old(capture)
      ensures stateRep == old(stateRep) && nRepeatAction == old(nRepeatAction) && randomObstacles == old(randomObstacles)
      ensures Valid()
      ensures match Run(old(ConfigFor(act)), old(State()), Repeats(old(nRepeatAction)))
        case Done(tr) =>
          State() == tr.game && r == Stepped(Observe(), RewardOf(tr.events), GameOverOf(tr.events))
        case InvalidMode(tag) => State() == old(State()) && r == ValueError(tag)
        case NoOldestSet => false
    {
      action := act;
      var ok, gameOver, reward, events := RepeatSubSteps(ConfigFor(act), State(), Repeats(nRepeatAction));
      if !ok {
        r := ValueError(mode.tag);
        return;
      }
      r := Stepped(Observe(), reward, gameOver);
    }
  }

  /** The reward after one more sub-step. */
  lemma RewardStep(events: seq<Event>, e: Event)
    ensures RewardOf(events + [e]) == if e.hit then 0 else if e.retired then 1 else RewardOf(events)
  {
    assert (events + [e])[..|events|] == events;
  }

  /** game_over after one more sub-step. */
  lemma GameOverStep(events: seq<Event>, e: Event)
    ensures GameOverOf(events + [e]) == (GameOverOf(events) || e.hit)
  {
    if GameOverOf(events) {
      GameOverSticky(events, [e]);
    }
    if e.hit {
      assert (events + [e])[|events|] == e;
    }
    if GameOverOf(events + [e]) && !e.hit {
      var j :| 0 <= j < |events + [e]| && (events + [e])[j].hit;
      assert j < |events| && events[j] == (events + [e])[j];
    }
  }
}
