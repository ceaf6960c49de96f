/** Connecting paths: unit steps in the four directions, the number of
    direction changes along a path, and what makes a path a legal
    connection between two tiles. */
module Paths {
  import opened Board

  /** A unit step, as a row and a column offset. */
  datatype Delta = Delta(dr: int, dc: int)

  /** Up, Down, Left, Right, in this order: a direction is an index
      into this table. */
  const Directions: seq<Delta> := [Delta(-1, 0), Delta(1, 0), Delta(0, -1), Delta(0, 1)]

  /** Maximum number of direction changes a connection may make. */
  const MaxTurns: nat := 2

  function Abs(x: int): nat {
    if x < 0 then -x else x
  }

  /** Number of unit steps between two cells when walking along rows
      and columns. */
  function Distance(a: Coord, b: Coord): nat {
    Abs(b.row - a.row) + Abs(b.col - a.col)
  }

  /** The cell one step from `c` in direction `d`. */
  function Neighbour(c: Coord, d: nat): (n: Coord)
    requires d < |Directions|
    ensures Distance(c, n) == 1
  {
    Coord(c.row + Directions[d].dr, c.col + Directions[d].dc)
  }

  /** The direction of the unit step from `a` to `b`, or -1 when `b` is
      not one step away from `a`. */
  function DirectionOf(a: Coord, b: Coord): (d: int)
    ensures -1 <= d < |Directions|
    ensures d >= 0 ==> Neighbour(a, d) == b
    ensures d == -1 <==> Distance(a, b) != 1
  {
    var dr, dc := b.row - a.row, b.col - a.col;
    if dr == -1 && dc == 0 then 0
    else if dr == 1 && dc == 0 then 1
    else if dr == 0 && dc == -1 then 2
    else if dr == 0 && dc == 1 then 3
    else -1
  }

  /** Stepping in direction `d` is a step in direction `d`. */
  lemma NeighbourDirection(c: Coord, d: nat)
    requires d < |Directions|
    ensures DirectionOf(c, Neighbour(c, d)) == d
  {
  }

  /** Consecutive cells of `p` are one unit step apart. */
  ghost predicate Steps(p: seq<Coord>) {
    forall i :: 0 <= i < |p| - 1 ==> DirectionOf(p[i], p[i + 1]) >= 0
  }

  /** The direction of the last step of `p`. */
  function LastDirection(p: seq<Coord>): int
    requires |p| >= 2
  {
    DirectionOf(p[|p| - 2], p[|p| - 1])
  }

  /** Number of places where `p` changes direction. */
  function Turns(p: seq<Coord>): nat {
    if |p| < 3 then 0
    else Turns(p[..|p| - 1]) + (if LastDirection(p[..|p| - 1]) != LastDirection(p) then 1 else 0)
  }

  /** Extending a path by one cell adds a turn exactly when the new step
      leaves in a different direction from the last one. */
  lemma TurnsExtend(p: seq<Coord>, c: Coord)
    requires |p| >= 2
    ensures Turns(p + [c]) == Turns(p) + (if LastDirection(p) != DirectionOf(p[|p| - 1], c) then 1 else 0)
  {
    assert (p + [c])[..|p|] == p;
  }

  /** `b` lies strictly beyond `a` on the straight line leaving `a` in
      direction `d`. */
  predicate OnRay(a: Coord, d: int, b: Coord) {
    if d == 0 then b.col == a.col && b.row < a.row
    else if d == 1 then b.col == a.col && b.row > a.row
    else if d == 2 then b.row == a.row && b.col < a.col
    else if d == 3 then b.row == a.row && b.col > a.col
    else false
  }

  /** The rays leaving a cell in different directions do not meet. */
  lemma RaysDisjoint(a: Coord, d: int, e: int, b: Coord)
    requires OnRay(a, d, b) && OnRay(a, e, b)
    ensures d == e
  {
  }

  /** One more step along a ray stays on it. */
  lemma RayStep(a: Coord, d: nat, b: Coord)
    requires d < |Directions| && OnRay(a, d, b)
    ensures OnRay(a, d, Neighbour(b, d))
  {
  }

  /** A path without turns steps in the same direction throughout. */
  lemma {:induction false} StraightDirections(p: seq<Coord>)
    requires |p| >= 2 && Steps(p) && Turns(p) == 0
    ensures forall i :: 0 <= i < |p| - 1 ==> DirectionOf(p[i], p[i + 1]) == DirectionOf(p[0], p[1])
  {
    var n := |p|;
    if n > 2 {
      var q := p[..n - 1];
      assert Turns(q) == 0 && LastDirection(q) == LastDirection(p);
      assert Steps(q) by {
        forall i | 0 <= i < |q| - 1 ensures DirectionOf(q[i], q[i + 1]) >= 0 {
          assert q[i] == p[i] && q[i + 1] == p[i + 1];
        }
      }
      StraightDirections(q);
      forall i | 0 <= i < n - 1 ensures DirectionOf(p[i], p[i + 1]) == DirectionOf(p[0], p[1]) {
        assert q[i] == p[i];
        if i < n - 2 {
          assert q[i + 1] == p[i + 1];
        }
      }
    }
  }

  /** Every cell after the first of a path stepping in direction `d`
      throughout lies on the ray from its first cell in direction `d`. */
  lemma {:induction false} StraightRay(p: seq<Coord>, d: nat, k: int)
    requires d < |Directions| && 1 <= k < |p|
    requires forall i :: 0 <= i < |p| - 1 ==> DirectionOf(p[i], p[i + 1]) == d
    ensures OnRay(p[0], d, p[k])
    decreases k
  {
    assert p[k] == Neighbour(p[k - 1], d);
    if k > 1 {
      StraightRay(p, d, k - 1);
      RayStep(p[0], d, p[k - 1]);
    }
  }

  /** A path without turns runs along the ray its first step starts. */
  lemma {:induction false} StraightPath(p: seq<Coord>)
    requires |p| >= 2 && Steps(p) && Turns(p) == 0
    ensures forall i :: 0 <= i < |p| - 1 ==> DirectionOf(p[i], p[i + 1]) == DirectionOf(p[0], p[1])
    ensures forall k :: 1 <= k < |p| ==> OnRay(p[0], DirectionOf(p[0], p[1]), p[k])
  {
    StraightDirections(p);
    var d := DirectionOf(p[0], p[1]);
    assert d >= 0;
    forall k | 1 <= k < |p| ensures OnRay(p[0], d, p[k]) {
      StraightRay(p, d, k);
    }
  }

  /** `p` is a legal connection from `a` to `z` on board `b`: at least
      two cells, starting at `a` and ending at `z`, moving one unit step
      at a time, every cell after the first clear, and at most MaxTurns
      changes of direction. */
  ghost predicate IsConnection(b: Board, a: Coord, z: Coord, p: seq<Coord>)
    requires WellFormed(b)
  {
    && |p| >= 2
    && p[0] == a
    && p[|p| - 1] == z
    && Steps(p)
    && (forall i :: 1 <= i < |p| ==> IsCellClear(b, p[i].row, p[i].col))
    && Turns(p) <= MaxTurns
  }
}
