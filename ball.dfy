/** The two player balls of the Duet game.
  *
  * A ball orbits the centre of the ring. Its angle is its starting phase
  * (0 or pi radians) plus a whole number of spin steps of SPIN_STEP radians
  * each. The model counts spin steps as an integer and never multiplies the
  * step out, so its angles are exact; the facts proved here hold of that
  * count, not of a floating-point angle that accumulates rounding. */
module Balls {

  /** Distances on the board, in pixels. */
  const BOARD_HEIGHT := 960
  const BOARD_WIDTH := 540
  /** Distance from either ball to the centre of the ring. */
  const CIRCLE_RADIUS := 100
  /** Distance from the ring's centre to the bottom of the screen. */
  const DIST_TO_BOTTOM := CIRCLE_RADIUS + 15

  /** The starting phases the game uses. */
  datatype StartPhase = Zero | Pi

  /** A ball as the environment creates it (the starting point and orbit
    * radius handed to the ball) plus the number of spin steps taken since. */
  datatype Ball = Ball(x: int, y: int, start: StartPhase, radius: int, spins: int)

  /** An angle written as halfTurns * pi + steps * SPIN_STEP. */
  datatype Angle = Angle(halfTurns: int, steps: int)

  function HalfTurns(p: StartPhase): int
  {
    match p
    case Zero => 0
    case Pi => 1
  }

  function AngleOf(b: Ball): Angle
  {
    Angle(HalfTurns(b.start), b.spins)
  }

  /** The angle a minus the angle b. */
  function Difference(a: Angle, b: Angle): Angle
  {
    Angle(a.halfTurns - b.halfTurns, a.steps - b.steps)
  }

  /** The blue ball starts on the left of the ring at phase pi. */
  function InitialBlue(): (b: Ball)
    ensures b.x == BOARD_WIDTH / 2 - CIRCLE_RADIUS && b.y == BOARD_HEIGHT - DIST_TO_BOTTOM
    ensures AngleOf(b) == Angle(1, 0) && b.radius == CIRCLE_RADIUS
  {
    Ball(BOARD_WIDTH / 2 - CIRCLE_RADIUS, BOARD_HEIGHT - DIST_TO_BOTTOM, Pi, CIRCLE_RADIUS, 0)
  }

  /** The red ball starts on the right of the ring at phase 0. */
  function InitialRed(): (b: Ball)
    ensures b.x == BOARD_WIDTH / 2 + CIRCLE_RADIUS && b.y == BOARD_HEIGHT - DIST_TO_BOTTOM
    ensures AngleOf(b) == Angle(0, 0) && b.radius == CIRCLE_RADIUS
  {
    Ball(BOARD_WIDTH / 2 + CIRCLE_RADIUS, BOARD_HEIGHT - DIST_TO_BOTTOM, Zero, CIRCLE_RADIUS, 0)
  }

  /** What one sub-step does to both balls. */
  datatype Turn = Left | Right | Idle

  /** spin_left lowers the angle by one step. */
  function SpinLeft(b: Ball): (r: Ball)
    ensures r.spins == b.spins - 1
    ensures r.(spins := b.spins) == b
  {
    b.(spins := b.spins - 1)
  }

  /** spin_right raises the angle by one step. */
  function SpinRight(b: Ball): (r: Ball)
    ensures r.spins == b.spins + 1
    ensures r.(spins := b.spins) == b
  {
    b.(spins := b.spins + 1)
  }

  function Spin(t: Turn, b: Ball): Ball
  {
    match t
    case Left => SpinLeft(b)
    case Right => SpinRight(b)
    case Idle => b
  }

  /** The two balls are exactly pi radians apart. */
  predicate Opposed(blue: Ball, red: Ball)
  {
    Difference(AngleOf(blue), AngleOf(red)) == Angle(1, 0)
  }

  /** The invariant the environment keeps: blue started at pi, red at 0,
    * and both have taken the same number of spin steps. */
  predicate Locked(blue: Ball, red: Ball)
  {
    blue.start == Pi && red.start == Zero && blue.spins == red.spins
  }

  /** Locked balls are pi radians apart, and balls that started at pi and
    * 0 and are pi radians apart are locked. */
  lemma LockedIffOpposed(blue: Ball, red: Ball)
    requires blue.start == Pi && red.start == Zero
    ensures Locked(blue, red) <==> Opposed(blue, red)
  {
  }

  /** The freshly created balls are locked. */
  lemma InitialLocked()
    ensures Locked(InitialBlue(), InitialRed())
    ensures Opposed(InitialBlue(), InitialRed())
  {
  }

  /** Giving both balls the same turn keeps them locked. */
  lemma SpinKeepsLocked(t: Turn, blue: Ball, red: Ball)
    requires Locked(blue, red)
    ensures Locked(Spin(t, blue), Spin(t, red))
    ensures AngleOf(Spin(t, blue)).steps - AngleOf(blue).steps == AngleOf(Spin(t, red)).steps - AngleOf(red).steps
  {
  }
}
