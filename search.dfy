/** The breadth-first search for a connecting path with at most two
    turns. The queue holds search states that carry the direction they
    arrived in, their turn count and the path walked so far; `visited`
    keeps, per cell, the last state that entered it. */
module Search {
  import opened Board
  import opened Paths

  /** What the search remembers about a cell it entered. */
  datatype Visit = Visit(direction: int, turns: int)

  /** A queued search state. */
  datatype Entry = Entry(row: int, col: int, direction: int, turns: int, path: seq<Coord>)

  /** A search state without its path. */
  datatype Key = Key(row: int, col: int, direction: int, turns: int)

  function KeyOf(e: Entry): Key {
    Key(e.row, e.col, e.direction, e.turns)
  }

  ghost function QueueKeys(q: seq<Entry>): set<Key> {
    set e | e in q :: KeyOf(e)
  }

  lemma QueueKeysShift(q: seq<Entry>)
    requires q != []
    ensures QueueKeys(q) == QueueKeys(q[1..]) + {KeyOf(q[0])}
  {
    forall e | e in q ensures e == q[0] || e in q[1..] {
      var i :| 0 <= i < |q| && q[i] == e;
      if i > 0 { assert q[1..][i - 1] == e; }
    }
  }

  lemma QueueKeysPush(q: seq<Entry>, e: Entry)
    ensures QueueKeys(q + [e]) == QueueKeys(q) + {KeyOf(e)}
  {
    assert e in q + [e];
    forall x | x in q ensures x in q + [e] {
      var i :| 0 <= i < |q| && q[i] == x;
      assert (q + [e])[i] == x;
    }
  }

  /** One more step in direction `d` adds a turn exactly when `d` is not
      the direction of the path's last step. */
  lemma TurnAfterStep(d: nat, p: seq<Coord>)
    requires d < |Directions| && |p| >= 2
    ensures Turns(p + [Neighbour(p[|p| - 1], d)]) == Turns(p) + (if d != LastDirection(p) then 1 else 0)
  {
    NeighbourDirection(p[|p| - 1], d);
    TurnsExtend(p, Neighbour(p[|p| - 1], d));
  }

  /** TurnAfterStep for every path at once. */
  lemma TurnsAfterStep(d: nat)
    requires d < |Directions|
    ensures forall p: seq<Coord> {:trigger Turns(p + [Neighbour(p[|p| - 1], d)])} :: |p| >= 2 ==>
              Turns(p + [Neighbour(p[|p| - 1], d)]) == Turns(p) + (if d != LastDirection(p) then 1 else 0)
  {
    forall p: seq<Coord> | |p| >= 2
      ensures Turns(p + [Neighbour(p[|p| - 1], d)]) == Turns(p) + (if d != LastDirection(p) then 1 else 0)
    {
      TurnAfterStep(d, p);
    }
  }

  /** Turn count of the state that leaves key `k`'s cell in direction `d`:
      for every path that arrived in direction `k.direction` with `k.turns`
      turns, the turn count of that path extended one step in direction `d`. */
  function NextTurns(k: Key, d: nat): (t: int)
    requires d < |Directions|
    ensures forall p: seq<Coord> {:trigger Turns(p + [Neighbour(p[|p| - 1], d)])} ::
              |p| >= 2 && LastDirection(p) == k.direction && Turns(p) == k.turns ==>
                t == Turns(p + [Neighbour(p[|p| - 1], d)])
  {
    TurnsAfterStep(d);
    k.turns + (if d != k.direction then 1 else 0)
  }

  /** The state queued for the neighbour of `t1` in direction `d`: a
      one-step path without turns. */
  function Seed(t1: Coord, d: nat): Entry
    requires d < |Directions|
  {
    var n := Neighbour(t1, d);
    Entry(n.row, n.col, d, 0, [t1, n])
  }

  /** The state that extends `e` by one step in direction `d`. */
  function Step(e: Entry, d: nat): Entry
    requires d < |Directions|
  {
    var n := Neighbour(Coord(e.row, e.col), d);
    Entry(n.row, n.col, d, NextTurns(KeyOf(e), d), e.path + [n])
  }

  /** Whether the search queues the neighbour of `e` in direction `d`: it
      is clear, within the turn limit, and not entered with as few turns. */
  ghost predicate Admits(b: Board, vis: Grid, e: Entry, d: nat)
    requires WellFormed(b) && GridShape(vis) && d < |Directions|
  {
    var n := Neighbour(Coord(e.row, e.col), d);
    var nt := NextTurns(KeyOf(e), d);
    InBounds(n) && IsCellClear(b, n.row, n.col) && nt <= MaxTurns && Needs(vis[n.row][n.col], nt)
  }

  /** A queued state is a path from `t1` that could still be part of a
      connection: it ends at the state's cell, every cell after the first
      is clear, and the state's direction and turn count are those of
      its path. */
  ghost predicate EntryOk(b: Board, t1: Coord, e: Entry)
    requires WellFormed(b)
  {
    && |e.path| >= 2
    && e.path[0] == t1
    && e.path[|e.path| - 1] == Coord(e.row, e.col)
    && Steps(e.path)
    && (forall i :: 1 <= i < |e.path| ==> IsCellClear(b, e.path[i].row, e.path[i].col))
    && e.direction == LastDirection(e.path)
    && e.turns == Turns(e.path)
    && e.turns <= MaxTurns
  }

  /** The first state queued in direction `d`. */
  lemma SeedEntry(b: Board, t1: Coord, d: nat)
    requires WellFormed(b) && d < |Directions|
    requires IsCellClear(b, Neighbour(t1, d).row, Neighbour(t1, d).col)
    ensures var n := Neighbour(t1, d);
            EntryOk(b, t1, Entry(n.row, n.col, d, 0, [t1, n])) && OnRay(t1, d, n)
  {
    NeighbourDirection(t1, d);
  }

  /** Extending a state by one step in direction `d` gives a state again,
      and a state without turns lies on the ray it set out along. */
  lemma ExtendEntry(b: Board, t1: Coord, e: Entry, d: nat, nt: int)
    requires WellFormed(b) && EntryOk(b, t1, e) && d < |Directions|
    requires IsCellClear(b, Neighbour(Coord(e.row, e.col), d).row, Neighbour(Coord(e.row, e.col), d).col)
    requires nt == NextTurns(KeyOf(e), d) && nt <= MaxTurns
    ensures var n := Neighbour(Coord(e.row, e.col), d);
            var e' := Entry(n.row, n.col, d, nt, e.path + [n]);
            EntryOk(b, t1, e') && (nt == 0 ==> OnRay(t1, d, n))
  {
    var c := Coord(e.row, e.col);
    var n := Neighbour(c, d);
    var p := e.path + [n];
    NeighbourDirection(c, d);
    TurnsExtend(e.path, n);
    assert Steps(p) by {
      forall i | 0 <= i < |p| - 1 ensures DirectionOf(p[i], p[i + 1]) >= 0 {
        if i < |p| - 2 {
          assert p[i] == e.path[i] && p[i + 1] == e.path[i + 1];
        }
      }
    }
    assert forall i :: 1 <= i < |p| ==> IsCellClear(b, p[i].row, p[i].col) by {
      forall i | 1 <= i < |p| ensures IsCellClear(b, p[i].row, p[i].col) {
        if i < |p| - 1 { assert p[i] == e.path[i]; }
      }
    }
    if nt == 0 {
      StraightPath(p);
      assert p[0] == t1;
    }
  }

  /** Whether a cell recorded as `v` may still be entered with `t` turns. */
  predicate Needs(v: Option<Visit>, t: int) {
    v.None? || v.value.turns > t
  }

  /** The contents of the `visited` table, row by row. */
  type Grid = seq<seq<Option<Visit>>>

  ghost predicate GridShape(vis: Grid) {
    |vis| == BoardSize && forall r :: 0 <= r < |vis| ==> |vis[r]| == BoardSize
  }

  /** The table `visited` holds exactly the records of `vis`. */
  ghost predicate Mirrors(visited: array2<Option<Visit>>, vis: Grid)
    reads visited
  {
    && visited.Length0 == BoardSize && visited.Length1 == BoardSize && GridShape(vis)
    && forall r, c :: 0 <= r < BoardSize && 0 <= c < BoardSize ==> visited[r, c] == vis[r][c]
  }

  /** `vis` with cell (r, c) recorded as `v`. */
  ghost function SetVisit(vis: Grid, r: int, c: int, v: Visit): (vis': Grid)
    requires GridShape(vis) && IsWithinBounds(r, c)
    ensures GridShape(vis')
    ensures vis'[r][c] == Some(v)
    ensures forall i, j :: 0 <= i < BoardSize && 0 <= j < BoardSize && (i != r || j != c) ==> vis'[i][j] == vis[i][j]
  {
    vis[r := vis[r][c := Some(v)]]
  }

  /** Records `v` for cell (`r`, `c`) in `visited`; the table stays in
      step with `vis` updated the same way. */
  method Record(visited: array2<Option<Visit>>, ghost vis: Grid, r: int, c: int, v: Visit) returns (ghost vis': Grid)
    requires Mirrors(visited, vis) && IsWithinBounds(r, c)
    modifies visited
    ensures vis' == SetVisit(vis, r, c, v) && Mirrors(visited, vis')
  {
    vis' := SetVisit(vis, r, c, v);
    visited[r, c] := Some(v);
    forall i, j | 0 <= i < BoardSize && 0 <= j < BoardSize ensures visited[i, j] == vis'[i][j] {
      if i != r || j != c {
        assert visited[i, j] == old(visited[i, j]);
      }
    }
  }

  /** Every (cell, turn count) pair by which a cell may still be entered
      holds a ticket in `remaining`: each state queued spends one. */
  ghost predicate TicketsOk(vis: Grid, remaining: set<(int, int, int)>)
    requires GridShape(vis)
  {
    forall r, c, t {:trigger Needs(vis[r][c], t)} ::
      0 <= r < BoardSize && 0 <= c < BoardSize && 0 <= t <= MaxTurns && Needs(vis[r][c], t)
      ==> (r, c, t) in remaining
  }

  /** Each record in `vis` is that of a state whose key is in `keys`;
      a record without turns lies on a ray from `t1`. */
  ghost predicate VisitedOk(t1: Coord, vis: Grid, keys: set<Key>)
    requires GridShape(vis)
  {
    forall r, c {:trigger vis[r][c]} :: 0 <= r < BoardSize && 0 <= c < BoardSize && vis[r][c].Some? ==>
      && 0 <= vis[r][c].value.direction < |Directions|
      && 0 <= vis[r][c].value.turns <= MaxTurns
      && (vis[r][c].value.turns == 0 ==> OnRay(t1, vis[r][c].value.direction, Coord(r, c)))
      && Key(r, c, vis[r][c].value.direction, vis[r][c].value.turns) in keys
  }

  /** Leaving cell `c` in direction `d` with `nt` turns is not needed
      any more: the neighbour is blocked, the turn limit is exceeded, or
      the neighbour has been entered with at most `nt` turns. */
  ghost predicate Covered(b: Board, vis: Grid, c: Coord, d: nat, nt: int)
    requires WellFormed(b) && GridShape(vis) && d < |Directions|
  {
    var n := Neighbour(c, d);
    InBounds(n) && IsCellClear(b, n.row, n.col) && nt <= MaxTurns ==>
      vis[n.row][n.col].Some? && vis[n.row][n.col].value.turns <= nt
  }

  /** The first `upto` directions out of state `k` are covered. */
  ghost predicate Expanded(b: Board, vis: Grid, k: Key, upto: int)
    requires WellFormed(b) && GridShape(vis) && upto <= |Directions|
  {
    forall d :: 0 <= d < upto ==> Covered(b, vis, Coord(k.row, k.col), d, NextTurns(k, d))
  }

  /** The clear neighbours of `t1` in the first `upto` directions were
      entered without turns. */
  ghost predicate SeedsKept(b: Board, t1: Coord, vis: Grid, upto: int)
    requires WellFormed(b) && GridShape(vis) && upto <= |Directions|
  {
    forall d {:trigger Neighbour(t1, d)} :: 0 <= d < upto && IsCellClear(b, Neighbour(t1, d).row, Neighbour(t1, d).col) ==>
      vis[Neighbour(t1, d).row][Neighbour(t1, d).col] == Some(Visit(d, 0))
  }

  /** Every expanded state has all its directions covered. */
  ghost predicate AllExpanded(b: Board, vis: Grid, done: set<Key>)
    requires WellFormed(b) && GridShape(vis)
  {
    forall k {:trigger k in done} :: k in done ==> Expanded(b, vis, k, |Directions|)
  }

  /** No expanded state is at the destination. */
  predicate NotReached(t2: Coord, done: set<Key>) {
    forall k :: k in done ==> Coord(k.row, k.col) != t2
  }

  /** Every queued state is a partial path from `t1`. */
  ghost predicate QueueOk(b: Board, t1: Coord, queue: seq<Entry>)
    requires WellFormed(b)
  {
    forall i :: 0 <= i < |queue| ==> EntryOk(b, t1, queue[i])
  }

  /** The facts the search keeps about its queue and `visited` while it
      expands states; `keys` are the states queued or expanded so far. */
  ghost predicate SearchOk(b: Board, tile1: Coord, queue: seq<Entry>, vis: Grid,
                           keys: set<Key>, remaining: set<(int, int, int)>)
    requires WellFormed(b) && GridShape(vis)
  {
    && QueueOk(b, tile1, queue)
    && TicketsOk(vis, remaining)
    && VisitedOk(tile1, vis, keys)
    && SeedsKept(b, tile1, vis, |Directions|)
  }

  lemma QueueOkShift(b: Board, t1: Coord, queue: seq<Entry>)
    requires WellFormed(b) && QueueOk(b, t1, queue) && queue != []
    ensures EntryOk(b, t1, queue[0]) && QueueOk(b, t1, queue[1..])
  {
    forall i | 0 <= i < |queue| - 1 ensures EntryOk(b, t1, queue[1..][i]) {
      assert queue[1..][i] == queue[i + 1];
    }
  }

  lemma QueueOkPush(b: Board, t1: Coord, queue: seq<Entry>, e: Entry)
    requires WellFormed(b) && QueueOk(b, t1, queue) && EntryOk(b, t1, e)
    ensures QueueOk(b, t1, queue + [e])
  {
    forall i | 0 <= i < |queue| + 1 ensures EntryOk(b, t1, (queue + [e])[i]) {
      if i < |queue| { assert (queue + [e])[i] == queue[i]; }
    }
  }

  /** Recording a state at (r, c) with a turn count the cell still needed
      spends that pair's ticket. */
  lemma TicketSpent(vis: Grid, remaining: set<(int, int, int)>, r: int, c: int, v: Visit)
    requires GridShape(vis) && TicketsOk(vis, remaining) && IsWithinBounds(r, c)
    requires 0 <= v.turns <= MaxTurns && Needs(vis[r][c], v.turns)
    ensures (r, c, v.turns) in remaining
    ensures TicketsOk(SetVisit(vis, r, c, v), remaining - {(r, c, v.turns)})
  {
    var vis': Grid := SetVisit(vis, r, c, v);
    forall i, j, t | 0 <= i < BoardSize && 0 <= j < BoardSize && 0 <= t <= MaxTurns && Needs(vis'[i][j], t)
      ensures (i, j, t) in remaining - {(r, c, v.turns)}
    {
      if i == r && j == c {
        assert Needs(vis[i][j], t);
      } else {
        assert vis'[i][j] == vis[i][j];
      }
    }
  }

  /** Recording a seed, which has no turns, needs no ticket. */
  lemma TicketsAfterSeed(vis: Grid, remaining: set<(int, int, int)>, r: int, c: int, d: int)
    requires GridShape(vis) && TicketsOk(vis, remaining) && IsWithinBounds(r, c)
    ensures TicketsOk(SetVisit(vis, r, c, Visit(d, 0)), remaining)
  {
    var vis': Grid := SetVisit(vis, r, c, Visit(d, 0));
    forall i, j, t | 0 <= i < BoardSize && 0 <= j < BoardSize && 0 <= t <= MaxTurns && Needs(vis'[i][j], t)
      ensures (i, j, t) in remaining
    {
      assert i != r || j != c;
      assert vis'[i][j] == vis[i][j];
    }
  }

  /** A record of a state whose key is added to `keys` keeps VisitedOk. */
  lemma VisitRecorded(t1: Coord, vis: Grid, keys: set<Key>, r: int, c: int, v: Visit)
    requires GridShape(vis) && VisitedOk(t1, vis, keys) && IsWithinBounds(r, c)
    requires 0 <= v.direction < |Directions| && 0 <= v.turns <= MaxTurns
    requires v.turns == 0 ==> OnRay(t1, v.direction, Coord(r, c))
    ensures VisitedOk(t1, SetVisit(vis, r, c, v), keys + {Key(r, c, v.direction, v.turns)})
  {
    var vis': Grid := SetVisit(vis, r, c, v);
    forall i, j | 0 <= i < BoardSize && 0 <= j < BoardSize && vis'[i][j].Some?
      ensures Key(i, j, vis'[i][j].value.direction, vis'[i][j].value.turns) in keys + {Key(r, c, v.direction, v.turns)}
      ensures 0 <= vis'[i][j].value.direction < |Directions| && 0 <= vis'[i][j].value.turns <= MaxTurns
      ensures vis'[i][j].value.turns == 0 ==> OnRay(t1, vis'[i][j].value.direction, Coord(i, j))
    {
      if i != r || j != c {
        assert vis'[i][j] == vis[i][j];
      }
    }
  }

  /** A record that needed entering does not overwrite a seed. */
  lemma SeedsKeptAfter(b: Board, t1: Coord, vis: Grid, r: int, c: int, v: Visit)
    requires WellFormed(b) && GridShape(vis) && SeedsKept(b, t1, vis, |Directions|) && IsWithinBounds(r, c)
    requires v.turns >= 0 && Needs(vis[r][c], v.turns)
    ensures SeedsKept(b, t1, SetVisit(vis, r, c, v), |Directions|)
  {
    var vis': Grid := SetVisit(vis, r, c, v);
    forall d | 0 <= d < |Directions| && IsCellClear(b, Neighbour(t1, d).row, Neighbour(t1, d).col)
      ensures vis'[Neighbour(t1, d).row][Neighbour(t1, d).col] == Some(Visit(d, 0))
    {
      var n := Neighbour(t1, d);
      assert vis[n.row][n.col] == Some(Visit(d, 0));
      assert n.row != r || n.col != c;
    }
  }

  /** Recording the seed in direction `index` extends SeedsKept by one. */
  lemma SeedsKeptSeed(b: Board, t1: Coord, vis: Grid, index: nat)
    requires WellFormed(b) && GridShape(vis) && index < |Directions| && SeedsKept(b, t1, vis, index)
    requires IsCellClear(b, Neighbour(t1, index).row, Neighbour(t1, index).col)
    ensures IsWithinBounds(Neighbour(t1, index).row, Neighbour(t1, index).col)
    ensures SeedsKept(b, t1, SetVisit(vis, Neighbour(t1, index).row, Neighbour(t1, index).col, Visit(index, 0)), index + 1)
  {
    var n := Neighbour(t1, index);
    var vis': Grid := SetVisit(vis, n.row, n.col, Visit(index, 0));
    forall d | 0 <= d < index + 1 && IsCellClear(b, Neighbour(t1, d).row, Neighbour(t1, d).col)
      ensures vis'[Neighbour(t1, d).row][Neighbour(t1, d).col] == Some(Visit(d, 0))
    {
      if d < index {
        var m := Neighbour(t1, d);
        NeighbourDirection(t1, d);
        NeighbourDirection(t1, index);
        assert m != n;
      }
    }
  }

  /** A blocked neighbour leaves nothing to seed. */
  lemma SeedsKeptSkip(b: Board, t1: Coord, vis: Grid, index: nat)
    requires WellFormed(b) && GridShape(vis) && index < |Directions| && SeedsKept(b, t1, vis, index)
    requires !IsCellClear(b, Neighbour(t1, index).row, Neighbour(t1, index).col)
    ensures SeedsKept(b, t1, vis, index + 1)
  {
  }

  /** Lowering a cell's turn count keeps every direction covered. */
  lemma ExpandedAfter(b: Board, vis: Grid, k: Key, upto: nat, r: int, c: int, v: Visit)
    requires WellFormed(b) && GridShape(vis) && upto <= |Directions| && IsWithinBounds(r, c)
    requires Expanded(b, vis, k, upto) && Needs(vis[r][c], v.turns)
    ensures Expanded(b, SetVisit(vis, r, c, v), k, upto)
  {
    var vis': Grid := SetVisit(vis, r, c, v);
    forall d | 0 <= d < upto ensures Covered(b, vis', Coord(k.row, k.col), d, NextTurns(k, d)) {
      assert Covered(b, vis, Coord(k.row, k.col), d, NextTurns(k, d));
    }
  }

  lemma AllExpandedAfter(b: Board, vis: Grid, done: set<Key>, r: int, c: int, v: Visit)
    requires WellFormed(b) && GridShape(vis) && IsWithinBounds(r, c)
    requires AllExpanded(b, vis, done) && Needs(vis[r][c], v.turns)
    ensures AllExpanded(b, SetVisit(vis, r, c, v), done)
  {
    forall k | k in done ensures Expanded(b, SetVisit(vis, r, c, v), k, |Directions|) {
      ExpandedAfter(b, vis, k, |Directions|, r, c, v);
    }
  }

  /** A state whose four directions are covered joins the expanded ones. */
  lemma AllExpandedAdd(b: Board, vis: Grid, done: set<Key>, k: Key)
    requires WellFormed(b) && GridShape(vis)
    requires AllExpanded(b, vis, done) && Expanded(b, vis, k, |Directions|)
    ensures AllExpanded(b, vis, done + {k})
  {
  }

  /** Moving the expanded state from the keys in hand to `done` keeps the
      search facts. */
  lemma SearchOkRegroup(b: Board, tile1: Coord, queue: seq<Entry>, vis: Grid, done: set<Key>, k: Key,
                        remaining: set<(int, int, int)>)
    requires WellFormed(b) && GridShape(vis)
    requires SearchOk(b, tile1, queue, vis, QueueKeys(queue) + done + {k}, remaining)
    ensures SearchOk(b, tile1, queue, vis, QueueKeys(queue) + (done + {k}), remaining)
  {
    assert QueueKeys(queue) + done + {k} == QueueKeys(queue) + (done + {k});
  }

  /** Once the queue is empty, a cell entered straight along a ray from
      `t1` passes that record on to its clear neighbour further along. */
  lemma StepAlong(b: Board, t1: Coord, vis: Grid, done: set<Key>, c: Coord, d: nat)
    requires WellFormed(b) && GridShape(vis)
    requires VisitedOk(t1, vis, done) && AllExpanded(b, vis, done)
    requires d < |Directions| && InBounds(c) && vis[c.row][c.col] == Some(Visit(d, 0))
    requires IsCellClear(b, Neighbour(c, d).row, Neighbour(c, d).col) && OnRay(t1, d, Neighbour(c, d))
    ensures vis[Neighbour(c, d).row][Neighbour(c, d).col] == Some(Visit(d, 0))
  {
    var key := Key(c.row, c.col, d, 0);
    assert key in done;
    assert Covered(b, vis, c, d, NextTurns(key, d));
    var n := Neighbour(c, d);
    var v := vis[n.row][n.col].value;
    RaysDisjoint(t1, v.direction, d, n);
  }

  /** When the search has run dry, a straight clear line from `t1` to
      `t2` has been followed cell by cell, and `t2` was expanded. */
  lemma {:induction false} StraightLineFollowed(b: Board, t1: Coord, t2: Coord, vis: Grid,
                                              done: set<Key>, p: seq<Coord>)
    requires WellFormed(b) && GridShape(vis)
    requires VisitedOk(t1, vis, done) && AllExpanded(b, vis, done)
    requires SeedsKept(b, t1, vis, |Directions|)
    requires IsConnection(b, t1, t2, p) && Turns(p) == 0
    ensures Key(t2.row, t2.col, DirectionOf(p[0], p[1]), 0) in done
  {
    StraightPath(p);
    var d := DirectionOf(p[0], p[1]);
    var n := |p|;
    var k := 1;
    assert IsCellClear(b, p[1].row, p[1].col);
    while k < n - 1
      invariant 1 <= k <= n - 1
      invariant InBounds(p[k]) && vis[p[k].row][p[k].col] == Some(Visit(d, 0))
    {
      assert p[k + 1] == Neighbour(p[k], d);
      assert IsCellClear(b, p[k + 1].row, p[k + 1].col);
      StepAlong(b, t1, vis, done, p[k], d);
      k := k + 1;
    }
  }

  /** Queuing the neighbour of `current` in direction `index`, when it is
      clear, within the turn limit and still needed, keeps the search
      facts and spends a ticket. */
  lemma EnqueueKeeps(b: Board, tile1: Coord, current: Entry, index: nat, queue: seq<Entry>, vis: Grid,
                     done: set<Key>, remaining: set<(int, int, int)>)
    requires WellFormed(b) && GridShape(vis) && EntryOk(b, tile1, current) && index < |Directions|
    requires var n := Neighbour(Coord(current.row, current.col), index);
             var nt := NextTurns(KeyOf(current), index);
             InBounds(n) && IsCellClear(b, n.row, n.col) && nt <= MaxTurns && Needs(vis[n.row][n.col], nt)
    requires SearchOk(b, tile1, queue, vis, QueueKeys(queue) + done + {KeyOf(current)}, remaining)
    ensures var n := Neighbour(Coord(current.row, current.col), index);
            var nt := NextTurns(KeyOf(current), index);
            var e := Entry(n.row, n.col, index, nt, current.path + [n]);
            var vis' := SetVisit(vis, n.row, n.col, Visit(index, nt));
            var rem' := remaining - {(n.row, n.col, nt)};
            && SearchOk(b, tile1, queue + [e], vis', QueueKeys(queue + [e]) + done + {KeyOf(current)}, rem')
            && |rem'| < |remaining|
  {
    var key := KeyOf(current);
    var n := Neighbour(Coord(current.row, current.col), index);
    var nt := NextTurns(key, index);
    var v := Visit(index, nt);
    var e := Entry(n.row, n.col, index, nt, current.path + [n]);
    var keys := QueueKeys(queue) + done + {key};
    ExtendEntry(b, tile1, current, index, nt);
    TicketSpent(vis, remaining, n.row, n.col, v);
    VisitRecorded(tile1, vis, keys, n.row, n.col, v);
    SeedsKeptAfter(b, tile1, vis, n.row, n.col, v);
    EnqueueQueue(b, tile1, queue, e, done, key);
  }

  /** Pushing a legal state keeps the queue legal, and its key joins the
      keys queued or expanded so far. */
  lemma EnqueueQueue(b: Board, tile1: Coord, queue: seq<Entry>, e: Entry, done: set<Key>, key: Key)
    requires WellFormed(b) && QueueOk(b, tile1, queue) && EntryOk(b, tile1, e)
    ensures QueueOk(b, tile1, queue + [e])
    ensures QueueKeys(queue) + done + {key} + {KeyOf(e)} == QueueKeys(queue + [e]) + done + {key}
  {
    QueueKeysPush(queue, e);
    QueueOkPush(b, tile1, queue, e);
  }

  /** Recording the neighbour of `current` in direction `index` keeps the
      expanded states covered and covers that direction. */
  lemma EnqueueCovers(b: Board, current: Entry, index: nat, vis: Grid, done: set<Key>)
    requires WellFormed(b) && GridShape(vis) && index < |Directions|
    requires var n := Neighbour(Coord(current.row, current.col), index);
             var nt := NextTurns(KeyOf(current), index);
             InBounds(n) && Needs(vis[n.row][n.col], nt)
    requires AllExpanded(b, vis, done) && Expanded(b, vis, KeyOf(current), index)
    ensures var n := Neighbour(Coord(current.row, current.col), index);
            var nt := NextTurns(KeyOf(current), index);
            var vis' := SetVisit(vis, n.row, n.col, Visit(index, nt));
            AllExpanded(b, vis', done) && Expanded(b, vis', KeyOf(current), index + 1)
  {
    var key := KeyOf(current);
    var n := Neighbour(Coord(current.row, current.col), index);
    var nt := NextTurns(key, index);
    var v := Visit(index, nt);
    AllExpandedAfter(b, vis, done, n.row, n.col, v);
    ExpandedAfter(b, vis, key, index, n.row, n.col, v);
    var vis' := SetVisit(vis, n.row, n.col, v);
    assert Covered(b, vis', Coord(current.row, current.col), index, nt);
  }

  /** Without queuing, direction `index` out of `current` is covered
      already when the neighbour is blocked, beyond the turn limit, or
      entered with as few turns. */
  lemma SkipKeeps(b: Board, current: Entry, index: nat, vis: Grid)
    requires WellFormed(b) && GridShape(vis) && index < |Directions|
    requires Expanded(b, vis, KeyOf(current), index)
    requires var n := Neighbour(Coord(current.row, current.col), index);
             var nt := NextTurns(KeyOf(current), index);
             !(InBounds(n) && IsCellClear(b, n.row, n.col) && nt <= MaxTurns && Needs(vis[n.row][n.col], nt))
    ensures Expanded(b, vis, KeyOf(current), index + 1)
  {
    assert Covered(b, vis, Coord(current.row, current.col), index, NextTurns(KeyOf(current), index));
  }

  /** `queue` is `queue0` followed by at most `upto` one-step extensions
      of `current`, each in a direction below `upto`, in increasing
      direction order. */
  ghost predicate StepsAppended(queue0: seq<Entry>, queue: seq<Entry>, current: Entry, upto: nat) {
    && upto <= |Directions|
    && |queue0| <= |queue| <= |queue0| + upto
    && queue[..|queue0|] == queue0
    && (forall i :: |queue0| <= i < |queue| ==>
          0 <= queue[i].direction < upto && queue[i] == Step(current, queue[i].direction))
    && (forall i, j :: |queue0| <= i < j < |queue| ==> queue[i].direction < queue[j].direction)
  }

  /** Appending the extension in direction `index`, or nothing, extends
      StepsAppended to the next direction. */
  lemma StepsAppendedNext(queue0: seq<Entry>, queue: seq<Entry>, current: Entry, index: nat, queue': seq<Entry>)
    requires index < |Directions| && StepsAppended(queue0, queue, current, index)
    requires queue' == queue || queue' == queue + [Step(current, index)]
    ensures StepsAppended(queue0, queue', current, index + 1)
  {
    if queue' != queue {
      assert queue'[..|queue0|] == queue[..|queue0|];
      forall i | |queue0| <= i < |queue'|
        ensures 0 <= queue'[i].direction < index + 1 && queue'[i] == Step(current, queue'[i].direction)
      {
        if i < |queue| { assert queue'[i] == queue[i]; }
      }
      forall i, j | |queue0| <= i < j < |queue'| ensures queue'[i].direction < queue'[j].direction {
        assert queue'[i] == queue[i];
        if j < |queue| { assert queue'[j] == queue[j]; }
      }
    }
  }

  /** Among the directions below `upto`, the extension of `current` in
      direction `d` was appended to `queue0` exactly when the guard admits
      it against the table `vis0` as it was before the loop. */
  ghost predicate QueuedIffAdmitted(b: Board, current: Entry, queue0: seq<Entry>, vis0: Grid,
                                    queue: seq<Entry>, upto: nat)
    requires WellFormed(b) && GridShape(vis0) && |queue0| <= |queue|
  {
    forall d :: 0 <= d < upto && d < |Directions| ==>
      (Step(current, d) in queue[|queue0|..] <==> Admits(b, vis0, current, d))
  }

  /** Each admitted neighbour of `current` in a direction below `upto` is
      recorded as entered from that direction with the turns it took. */
  ghost predicate AdmittedRecorded(b: Board, current: Entry, vis0: Grid, vis: Grid, upto: nat)
    requires WellFormed(b) && GridShape(vis0) && GridShape(vis)
  {
    forall d :: 0 <= d < upto && d < |Directions| && Admits(b, vis0, current, d) ==>
      var n := Neighbour(Coord(current.row, current.col), d);
      vis[n.row][n.col] == Some(Visit(d, NextTurns(KeyOf(current), d)))
  }

  /** Each neighbour of `current` in a direction below `upto` that is on
      the board but that the guard rejects keeps its record from `vis0`. */
  ghost predicate RejectedKept(b: Board, current: Entry, vis0: Grid, vis: Grid, upto: nat)
    requires WellFormed(b) && GridShape(vis0) && GridShape(vis)
  {
    forall d :: 0 <= d < upto && d < |Directions| && !Admits(b, vis0, current, d) &&
                InBounds(Neighbour(Coord(current.row, current.col), d)) ==>
      var n := Neighbour(Coord(current.row, current.col), d);
      vis[n.row][n.col] == vis0[n.row][n.col]
  }

  /** Every cell other than the neighbours of `current` in the directions
      below `upto` holds what it held in `vis0`. With `upto` at
      |Directions| that is every cell that is not a neighbour at all. */
  ghost predicate OnlyNeighboursChanged(current: Entry, vis0: Grid, vis: Grid, upto: nat)
    requires GridShape(vis0) && GridShape(vis)
  {
    var c := Coord(current.row, current.col);
    forall r, k ::
      (0 <= r < BoardSize && 0 <= k < BoardSize &&
       (Distance(c, Coord(r, k)) != 1 || DirectionOf(c, Coord(r, k)) >= upto)) ==>
      vis[r][k] == vis0[r][k]
  }

  /** What the direction loop of Explore has done after the directions
      below `upto`. */
  ghost predicate Explored(b: Board, current: Entry, queue0: seq<Entry>, vis0: Grid,
                           queue: seq<Entry>, vis: Grid, upto: nat)
    requires WellFormed(b) && GridShape(vis0) && GridShape(vis)
  {
    && StepsAppended(queue0, queue, current, upto)
    && QueuedIffAdmitted(b, current, queue0, vis0, queue, upto)
    && AdmittedRecorded(b, current, vis0, vis, upto)
    && RejectedKept(b, current, vis0, vis, upto)
    && OnlyNeighboursChanged(current, vis0, vis, upto)
  }

  /** One pass of the direction loop, appending and recording the
      extension in direction `index` exactly when the guard admits it,
      extends Explored to the next direction. */
  lemma ExploredNext(b: Board, current: Entry, queue0: seq<Entry>, vis0: Grid,
                     queue: seq<Entry>, vis: Grid, index: nat, queue': seq<Entry>, vis': Grid)
    requires WellFormed(b) && GridShape(vis0) && GridShape(vis) && GridShape(vis') && index < |Directions|
    requires Explored(b, current, queue0, vis0, queue, vis, index)
    requires Admits(b, vis, current, index) ==>
               queue' == queue + [Step(current, index)]
               && vis' == SetVisit(vis, Step(current, index).row, Step(current, index).col, Visit(index, Step(current, index).turns))
    requires !Admits(b, vis, current, index) ==> queue' == queue && vis' == vis
    ensures Explored(b, current, queue0, vis0, queue', vis', index + 1)
  {
    var c := Coord(current.row, current.col);
    var n := Neighbour(c, index);
    NeighbourDirection(c, index);
    if InBounds(n) {
      assert Distance(c, n) == 1 && DirectionOf(c, n) >= index;
      assert vis[n.row][n.col] == vis0[n.row][n.col];
    }
    assert Admits(b, vis, current, index) == Admits(b, vis0, current, index);
    StepsAppendedNext(queue0, queue, current, index, queue');
    var tail, tail' := queue[|queue0|..], queue'[|queue0|..];
    assert tail' == tail || tail' == tail + [Step(current, index)];
    assert Step(current, index) !in tail by {
      forall i | 0 <= i < |tail| ensures tail[i].direction < index {
        assert tail[i] == queue[|queue0| + i];
      }
    }
    forall d | 0 <= d < index + 1 ensures (Step(current, d) in tail' <==> Admits(b, vis0, current, d)) {
      if d < index {
        assert Step(current, d) != Step(current, index);
        assert Step(current, d) in tail' <==> Step(current, d) in tail;
      }
    }
    forall d | 0 <= d < index + 1 && Admits(b, vis0, current, d)
      ensures vis'[Neighbour(c, d).row][Neighbour(c, d).col] == Some(Visit(d, NextTurns(KeyOf(current), d)))
    {
      if d < index {
        NeighbourDirection(c, d);
        assert Neighbour(c, d) != n;
      }
    }
    forall d | 0 <= d < index + 1 && !Admits(b, vis0, current, d) && InBounds(Neighbour(c, d))
      ensures vis'[Neighbour(c, d).row][Neighbour(c, d).col] == vis0[Neighbour(c, d).row][Neighbour(c, d).col]
    {
      if d < index {
        NeighbourDirection(c, d);
        assert Neighbour(c, d) != n;
      }
    }
    forall r, k | 0 <= r < BoardSize && 0 <= k < BoardSize &&
                  (Distance(c, Coord(r, k)) != 1 || DirectionOf(c, Coord(r, k)) >= index + 1)
      ensures vis'[r][k] == vis0[r][k]
    {
      assert Coord(r, k) != n;
    }
  }

  /** One turn of the loop over the four directions out of `current`:
      queues the neighbour in direction `index` when it is clear, within
      the turn limit, and not yet entered with as few turns. */
  method ExploreDirection(b: Board, tile1: Coord, current: Entry, index: nat, queue0: seq<Entry>,
                          visited: array2<Option<Visit>>, ghost vis0: Grid,
                          ghost done: set<Key>, ghost remaining0: set<(int, int, int)>)
    returns (queue: seq<Entry>, ghost vis: Grid, ghost remaining: set<(int, int, int)>)
    requires WellFormed(b) && Mirrors(visited, vis0)
    requires EntryOk(b, tile1, current) && index < |Directions|
    requires SearchOk(b, tile1, queue0, vis0, QueueKeys(queue0) + done + {KeyOf(current)}, remaining0)
    requires AllExpanded(b, vis0, done) && Expanded(b, vis0, KeyOf(current), index)
    modifies visited
    ensures Mirrors(visited, vis)
    ensures Admits(b, vis0, current, index) ==>
              queue == queue0 + [Step(current, index)]
              && vis == SetVisit(vis0, Step(current, index).row, Step(current, index).col, Visit(index, Step(current, index).turns))
    ensures !Admits(b, vis0, current, index) ==> queue == queue0 && vis == vis0
    ensures SearchOk(b, tile1, queue, vis, QueueKeys(queue) + done + {KeyOf(current)}, remaining)
    ensures AllExpanded(b, vis, done) && Expanded(b, vis, KeyOf(current), index + 1)
    ensures 2 * |remaining| + |queue| <= 2 * |remaining0| + |queue0|
  {
    queue, vis, remaining := queue0, vis0, remaining0;
    var newRow := current.row + Directions[index].dr;
    var newCol := current.col + Directions[index].dc;
    var newTurns := current.turns;
    if index != current.direction {
      newTurns := newTurns + 1;
    }
    assert Neighbour(Coord(current.row, current.col), index) == Coord(newRow, newCol);
    assert newTurns == NextTurns(KeyOf(current), index);
    assert Step(current, index) == Entry(newRow, newCol, index, newTurns, current.path + [Coord(newRow, newCol)]);
    if IsWithinBounds(newRow, newCol) && IsCellClear(b, newRow, newCol) && newTurns <= MaxTurns
       && Needs(visited[newRow, newCol], newTurns) {
      EnqueueKeeps(b, tile1, current, index, queue, vis, done, remaining);
      EnqueueCovers(b, current, index, vis, done);
      queue := queue + [Entry(newRow, newCol, index, newTurns, current.path + [Coord(newRow, newCol)])];
      remaining := remaining - {(newRow, newCol, newTurns)};
      vis := Record(visited, vis, newRow, newCol, Visit(index, newTurns));
    } else {
      SkipKeeps(b, current, index, vis);
    }

  }

  /** Queues the clear neighbours of `current` that the turn limit allows
      and that have not been entered with as few turns before. */
  method Explore(b: Board, tile1: Coord, current: Entry, queue0: seq<Entry>,
                 visited: array2<Option<Visit>>, ghost vis0: Grid,
                 ghost done: set<Key>, ghost remaining0: set<(int, int, int)>)
    returns (queue: seq<Entry>, ghost vis: Grid, ghost remaining: set<(int, int, int)>)
    requires WellFormed(b) && Mirrors(visited, vis0)
    requires EntryOk(b, tile1, current)
    requires SearchOk(b, tile1, queue0, vis0, QueueKeys(queue0) + done + {KeyOf(current)}, remaining0)
    requires AllExpanded(b, vis0, done)
    modifies visited
    ensures Mirrors(visited, vis)
    ensures SearchOk(b, tile1, queue, vis, QueueKeys(queue) + done + {KeyOf(current)}, remaining)
    ensures AllExpanded(b, vis, done + {KeyOf(current)})
    ensures 2 * |remaining| + |queue| <= 2 * |remaining0| + |queue0|
    ensures StepsAppended(queue0, queue, current, |Directions|)
    ensures QueuedIffAdmitted(b, current, queue0, vis0, queue, |Directions|)
    ensures AdmittedRecorded(b, current, vis0, vis, |Directions|)
    ensures RejectedKept(b, current, vis0, vis, |Directions|)
    ensures OnlyNeighboursChanged(current, vis0, vis, |Directions|)
  {
    queue, vis, remaining := queue0, vis0, remaining0;
    assert queue0[..|queue0|] == queue0;
    for index := 0 to |Directions|
      invariant Mirrors(visited, vis)
      invariant Explored(b, current, queue0, vis0, queue, vis, index)
      invariant SearchOk(b, tile1, queue, vis, QueueKeys(queue) + done + {KeyOf(current)}, remaining)
      invariant AllExpanded(b, vis, done) && Expanded(b, vis, KeyOf(current), index)
      invariant 2 * |remaining| + |queue| <= 2 * |remaining0| + |queue0|
    {
      ghost var before, recorded := queue, vis;
      queue, vis, remaining := ExploreDirection(b, tile1, current, index, queue, visited, vis, done, remaining);
      ExploredNext(b, current, queue0, vis0, before, recorded, index, queue, vis);
    }
    AllExpandedAdd(b, vis, done, KeyOf(current));
  }

  /** Queuing the clear neighbour of `tile1` in direction `index` as a
      state without turns keeps the facts the seeding loop maintains. */
  lemma SeedKeeps(b: Board, tile1: Coord, index: nat, queue: seq<Entry>, vis: Grid, remaining: set<(int, int, int)>)
    requires WellFormed(b) && GridShape(vis) && index < |Directions|
    requires var n := Neighbour(tile1, index); InBounds(n) && IsCellClear(b, n.row, n.col)
    requires QueueOk(b, tile1, queue) && TicketsOk(vis, remaining)
    requires VisitedOk(tile1, vis, QueueKeys(queue)) && SeedsKept(b, tile1, vis, index)
    ensures var n := Neighbour(tile1, index);
            var q' := queue + [Entry(n.row, n.col, index, 0, [tile1, n])];
            var vis' := SetVisit(vis, n.row, n.col, Visit(index, 0));
            && QueueOk(b, tile1, q') && TicketsOk(vis', remaining)
            && VisitedOk(tile1, vis', QueueKeys(q')) && SeedsKept(b, tile1, vis', index + 1)
  {
    var n := Neighbour(tile1, index);
    var e := Entry(n.row, n.col, index, 0, [tile1, n]);
    SeedEntry(b, tile1, index);
    TicketsAfterSeed(vis, remaining, n.row, n.col, index);
    VisitRecorded(tile1, vis, QueueKeys(queue), n.row, n.col, Visit(index, 0));
    SeedsKeptSeed(b, tile1, vis, index);
    QueueKeysPush(queue, e);
    QueueOkPush(b, tile1, queue, e);
  }

  /** Taking the head off the queue keeps the search facts, with the
      head's key counted among the expanded ones. */
  lemma ShiftKeeps(b: Board, tile1: Coord, queue: seq<Entry>, vis: Grid, done: set<Key>, remaining: set<(int, int, int)>)
    requires WellFormed(b) && GridShape(vis) && queue != []
    requires SearchOk(b, tile1, queue, vis, QueueKeys(queue) + done, remaining)
    ensures EntryOk(b, tile1, queue[0])
    ensures SearchOk(b, tile1, queue[1..], vis, QueueKeys(queue[1..]) + done + {KeyOf(queue[0])}, remaining)
  {
    QueueKeysShift(queue);
    QueueOkShift(b, tile1, queue);
    assert QueueKeys(queue) + done == QueueKeys(queue[1..]) + done + {KeyOf(queue[0])};
  }

  /** `queue` holds, in increasing direction order, the seed state of
      every direction below `upto` whose neighbour of `t1` is clear, and
      nothing else. */
  ghost predicate SeedsQueued(b: Board, t1: Coord, queue: seq<Entry>, upto: nat)
    requires WellFormed(b)
  {
    && upto <= |Directions|
    && |queue| <= upto
    && (forall i :: 0 <= i < |queue| ==>
          && 0 <= queue[i].direction < upto
          && queue[i] == Seed(t1, queue[i].direction)
          && IsCellClear(b, queue[i].row, queue[i].col))
    && (forall i, j :: 0 <= i < j < |queue| ==> queue[i].direction < queue[j].direction)
    && (forall d :: 0 <= d < upto && IsCellClear(b, Neighbour(t1, d).row, Neighbour(t1, d).col) ==>
          Seed(t1, d) in queue)
  }

  /** Every record in `vis` is that of a seed: a neighbour of `t1`,
      entered from `t1` without turns. */
  ghost predicate VisitsAreSeeds(t1: Coord, vis: Grid)
    requires GridShape(vis)
  {
    forall r, c {:trigger vis[r][c]} :: 0 <= r < BoardSize && 0 <= c < BoardSize && vis[r][c].Some? ==>
      && 0 <= vis[r][c].value.direction < |Directions|
      && vis[r][c].value.turns == 0
      && Neighbour(t1, vis[r][c].value.direction) == Coord(r, c)
  }

  /** Queuing the seed in direction `index` exactly when its cell is clear
      extends SeedsQueued to the next direction. */
  lemma SeedsQueuedNext(b: Board, t1: Coord, queue: seq<Entry>, index: nat, queue': seq<Entry>)
    requires WellFormed(b) && index < |Directions| && SeedsQueued(b, t1, queue, index)
    requires var n := Neighbour(t1, index);
             if IsCellClear(b, n.row, n.col) then queue' == queue + [Seed(t1, index)] else queue' == queue
    ensures SeedsQueued(b, t1, queue', index + 1)
  {
    if queue' != queue {
      forall i | 0 <= i < |queue'|
        ensures && 0 <= queue'[i].direction < index + 1
                && queue'[i] == Seed(t1, queue'[i].direction)
                && IsCellClear(b, queue'[i].row, queue'[i].col)
      {
        if i < |queue| { assert queue'[i] == queue[i]; }
      }
      forall i, j | 0 <= i < j < |queue'| ensures queue'[i].direction < queue'[j].direction {
        assert queue'[i] == queue[i];
        if j < |queue| { assert queue'[j] == queue[j]; }
      }
      forall d | 0 <= d < index + 1 && IsCellClear(b, Neighbour(t1, d).row, Neighbour(t1, d).col)
        ensures Seed(t1, d) in queue'
      {
        if d < index {
          assert Seed(t1, d) in queue;
        } else {
          assert queue'[|queue|] == Seed(t1, d);
        }
      }
    }
  }

  /** Recording the seed in direction `index` keeps every record a seed's. */
  lemma VisitsAreSeedsNext(t1: Coord, vis: Grid, index: nat)
    requires GridShape(vis) && index < |Directions| && VisitsAreSeeds(t1, vis)
    requires InBounds(Neighbour(t1, index))
    ensures var n := Neighbour(t1, index);
            VisitsAreSeeds(t1, SetVisit(vis, n.row, n.col, Visit(index, 0)))
  {
    var n := Neighbour(t1, index);
    var vis': Grid := SetVisit(vis, n.row, n.col, Visit(index, 0));
    forall r, c | 0 <= r < BoardSize && 0 <= c < BoardSize && vis'[r][c].Some?
      ensures && 0 <= vis'[r][c].value.direction < |Directions|
              && vis'[r][c].value.turns == 0
              && Neighbour(t1, vis'[r][c].value.direction) == Coord(r, c)
    {
      if r != n.row || c != n.col {
        assert vis'[r][c] == vis[r][c];
      }
    }
  }

  /** Queues the clear neighbours of `tile1` as states without turns and
      records them in a fresh `visited` table. */
  method SeedNeighbours(b: Board, tile1: Coord)
    returns (queue: seq<Entry>, visited: array2<Option<Visit>>, ghost vis: Grid, ghost remaining: set<(int, int, int)>)
    requires WellFormed(b)
    ensures fresh(visited) && Mirrors(visited, vis)
    ensures SeedsQueued(b, tile1, queue, |Directions|) && VisitsAreSeeds(tile1, vis)
    ensures SearchOk(b, tile1, queue, vis, QueueKeys(queue), remaining)
  {
    queue := [];
    visited := new Option<Visit>[BoardSize, BoardSize]((r, c) => None);
    vis := seq(BoardSize, r => seq(BoardSize, c => None));
    remaining := set r, c, t | 0 <= r < BoardSize && 0 <= c < BoardSize && 0 <= t <= MaxTurns :: (r, c, t);
    assert Mirrors(visited, vis);

    for index := 0 to |Directions|
      invariant Mirrors(visited, vis)
      invariant SeedsQueued(b, tile1, queue, index) && VisitsAreSeeds(tile1, vis)
      invariant QueueOk(b, tile1, queue)
      invariant TicketsOk(vis, remaining)
      invariant VisitedOk(tile1, vis, QueueKeys(queue))
      invariant SeedsKept(b, tile1, vis, index)
    {
      var newRow := tile1.row + Directions[index].dr;
      var newCol := tile1.col + Directions[index].dc;
      assert Neighbour(tile1, index) == Coord(newRow, newCol);
      assert Seed(tile1, index) == Entry(newRow, newCol, index, 0, [tile1, Coord(newRow, newCol)]);
      if IsWithinBounds(newRow, newCol) && IsCellClear(b, newRow, newCol) {
        SeedKeeps(b, tile1, index, queue, vis, remaining);
        SeedsQueuedNext(b, tile1, queue, index, queue + [Seed(tile1, index)]);
        VisitsAreSeedsNext(tile1, vis, index);
        queue := queue + [Entry(newRow, newCol, index, 0, [tile1, Coord(newRow, newCol)])];
        vis := Record(visited, vis, newRow, newCol, Visit(index, 0));
      } else {
        SeedsKeptSkip(b, tile1, vis, index);
        SeedsQueuedNext(b, tile1, queue, index, queue);
      }
    }
  }

  /** Searches breadth-first for a path from `tile1` to `tile2` with at
      most two turns through clear cells. When a path is returned it is a
      legal connection; when none is, no straight clear line joins the
      two tiles. */
  method FindPathBFS(b: Board, tile1: Coord, tile2: Coord) returns (path: Option<seq<Coord>>)
    requires WellFormed(b)
    ensures path.Some? ==> IsConnection(b, tile1, tile2, path.value)
    ensures forall p :: IsConnection(b, tile1, tile2, p) && Turns(p) == 0 ==> path.Some?
  {
    var queue, visited, vis, remaining := SeedNeighbours(b, tile1);
    ghost var done: set<Key> := {};
    assert QueueKeys(queue) + done == QueueKeys(queue);

    while queue != []
      invariant Mirrors(visited, vis)
      invariant SearchOk(b, tile1, queue, vis, QueueKeys(queue) + done, remaining)
      invariant AllExpanded(b, vis, done) && NotReached(tile2, done)
      decreases 2 * |remaining| + |queue|
    {
      var current := queue[0];
      ShiftKeeps(b, tile1, queue, vis, done, remaining);
      queue := queue[1..];

      if current.row == tile2.row && current.col == tile2.col {
        return Some(current.path);
      }

      ghost var key := KeyOf(current);
      queue, vis, remaining := Explore(b, tile1, current, queue, visited, vis, done, remaining);
      SearchOkRegroup(b, tile1, queue, vis, done, key, remaining);
      done := done + {key};
    }

    forall p | IsConnection(b, tile1, tile2, p) && Turns(p) == 0
      ensures Key(tile2.row, tile2.col, DirectionOf(p[0], p[1]), 0) in done
    {
      StraightLineFollowed(b, tile1, tile2, vis, done, p);
    }
    return None;
  }
}
