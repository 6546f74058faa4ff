/** The coordinate observation: a fixed vector of twelve numbers describing
  * both balls and the obstacles of the oldest live set.
  *
  * Layout: blue x, blue y, red x, red y, then top, bottom, left, right of the
  * oldest set's first obstacle, then the same four for its second obstacle,
  * or four zeros when the set has only one. */
module CoordObservation {
  import opened Obstacles
  import opened StepSpec

  const COORD_STATE_LENGTH := 12

  /** The four numbers the observation gives for one obstacle. */
  function BoxCoords(o: Obstacle): seq<real>
  {
    [o.top as real, o.bottom as real, o.left as real, o.right as real]
  }

  /** The observation, from the two ball positions and the oldest set. */
  function CoordState(bluePos: Point, redPos: Point, oldest: ObstacleSet): (v: seq<real>)
    requires oldest != []
    ensures |v| == COORD_STATE_LENGTH
  {
    var second := if |oldest| == 1 then [0.0, 0.0, 0.0, 0.0] else BoxCoords(oldest[1]);
    [bluePos.x, bluePos.y, redPos.x, redPos.y] + BoxCoords(oldest[0]) + second
  }

  /** A box read back from an observation. */
  datatype Box = Box(top: real, bottom: real, left: real, right: real)

  /** Everything an observation says, read back field by field. */
  datatype CoordView = CoordView(blue: Point, red: Point, first: Box, second: Box)

  function BoxOf(o: Obstacle): Box
  {
    Box(o.top as real, o.bottom as real, o.left as real, o.right as real)
  }

  const ZERO_BOX := Box(0.0, 0.0, 0.0, 0.0)

  /** Reading an observation vector back into its parts. */
  function ReadCoordState(v: seq<real>): CoordView
    requires |v| == COORD_STATE_LENGTH
  {
    CoordView(
      Point(v[0], v[1]), Point(v[2], v[3]),
      Box(v[4], v[5], v[6], v[7]),
      Box(v[8], v[9], v[10], v[11]))
  }

  /** The observation loses nothing it claims to carry: reading it back gives
    * the blue and red positions, the first obstacle's box, and the second
    * obstacle's box or the zero box when the oldest set has one obstacle. */
  lemma CoordStateRoundTrip(bluePos: Point, redPos: Point, oldest: ObstacleSet)
    requires oldest != []
    ensures ReadCoordState(CoordState(bluePos, redPos, oldest)) ==
      CoordView(bluePos, redPos, BoxOf(oldest[0]), if |oldest| == 1 then ZERO_BOX else BoxOf(oldest[1]))
  {
  }

  /** A set of one obstacle gives four zeros at the end; a non-zero entry
    * there means the set has a second obstacle. The converse does not hold:
    * a second obstacle whose box is all zeros also gives four zeros. */
  lemma SecondSlot(bluePos: Point, redPos: Point, oldest: ObstacleSet)
    requires oldest != []
    ensures |oldest| == 1 ==> CoordState(bluePos, redPos, oldest)[8..] == [0.0, 0.0, 0.0, 0.0]
    ensures CoordState(bluePos, redPos, oldest)[8..] != [0.0, 0.0, 0.0, 0.0] ==> |oldest| >= 2
    ensures |oldest| >= 2 && BoxOf(oldest[1]) != ZERO_BOX ==>
      CoordState(bluePos, redPos, oldest)[8..] != [0.0, 0.0, 0.0, 0.0]
  {
    var v := CoordState(bluePos, redPos, oldest);
    if |oldest| >= 2 && BoxOf(oldest[1]) != ZERO_BOX {
      assert ReadCoordState(v).second == BoxOf(oldest[1]);
    }
  }
}
