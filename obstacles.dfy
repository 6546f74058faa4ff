/** Obstacles, obstacle sets and the obstacle manager's queue of live sets.
  *
  * An obstacle is a rectangle; how it falls is left to the backend's move
  * function. A set is the one or two obstacles spawned together, and the
  * manager keeps the live sets oldest first. */
module Obstacles {

  /** A rectangle by its horizontal span and its vertical extent. */
  datatype Obstacle = Obstacle(left: int, right: int, top: int, bottom: int)

  type ObstacleSet = seq<Obstacle>

  /** A set as the manager generates it: one or two obstacles, never none. */
  type NonEmptySet = s: ObstacleSet | s != [] witness [Obstacle(0, 0, 0, 0)]

  /** One move of every obstacle in a set, in order. */
  function MoveSet(s: ObstacleSet, move: Obstacle -> Obstacle): (r: ObstacleSet)
    ensures |r| == |s|
    ensures forall k :: 0 <= k < |s| ==> r[k] == move(s[k])
  {
    if s == [] then [] else [move(s[0])] + MoveSet(s[1..], move)
  }

  /** One move of every obstacle of every live set: each obstacle is moved
    * exactly once and no set gains, loses or reorders obstacles. */
  function MoveAll(sets: seq<ObstacleSet>, move: Obstacle -> Obstacle): (r: seq<ObstacleSet>)
    ensures |r| == |sets|
    ensures forall j :: 0 <= j < |sets| ==> r[j] == MoveSet(sets[j], move)
  {
    if sets == [] then [] else [MoveSet(sets[0], move)] + MoveAll(sets[1..], move)
  }

  /** Every live set holds at least one obstacle. */
  predicate AllNonEmpty(sets: seq<ObstacleSet>)
  {
    forall j :: 0 <= j < |sets| ==> sets[j] != []
  }

  /** Moving obstacles keeps every set non-empty. */
  lemma MoveAllKeepsNonEmpty(sets: seq<ObstacleSet>, move: Obstacle -> Obstacle)
    requires AllNonEmpty(sets)
    ensures AllNonEmpty(MoveAll(sets, move))
  {
  }

  /** new_obstacle_set: the new set joins at the young end. */
  function Spawn(sets: seq<ObstacleSet>, s: ObstacleSet): (r: seq<ObstacleSet>)
    ensures |r| == |sets| + 1 && r[|sets|] == s
    ensures r[..|sets|] == sets
  {
    sets + [s]
  }

  /** remove_obstacle_set: the oldest set leaves; nothing happens when the
    * manager is empty. */
  function Retire(sets: seq<ObstacleSet>): (r: seq<ObstacleSet>)
    ensures sets == [] ==> r == []
    ensures sets != [] ==> [sets[0]] + r == sets
  {
    if sets == [] then [] else sets[1..]
  }

  /** The queue is first in, first out: retiring and spawning commute on a
    * non-empty manager, and a set spawned behind n older ones becomes the
    * oldest after n retirements. */
  lemma {:induction false} FirstInFirstOut(sets: seq<ObstacleSet>, s: ObstacleSet, n: nat)
    requires n <= |sets|
    ensures sets != [] ==> Retire(Spawn(sets, s)) == Spawn(Retire(sets), s)
    ensures RetireN(Spawn(sets, s), n) == Spawn(sets[n..], s)
  {
    if sets != [] {
      assert Retire(Spawn(sets, s)) == Spawn(Retire(sets), s);
    }
    if n > 0 {
      FirstInFirstOut(sets[1..], s, n - 1);
      assert Retire(Spawn(sets, s)) == Spawn(sets[1..], s);
      assert sets[1..][n - 1..] == sets[n..];
    }
  }

  /** n retirements in a row. */
  function RetireN(sets: seq<ObstacleSet>, n: nat): seq<ObstacleSet>
  {
    if n == 0 then sets else RetireN(Retire(sets), n - 1)
  }
}
