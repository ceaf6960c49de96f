/** The 8x8 grid of tiles, the coordinates that index it and the
    queries a connecting path relies on: bounds, clearness, and the
    all-matched win predicate. */
module Board {

  datatype Option<T> = None | Some(value: T)

  /** A grid position. Rows grow downwards, columns to the right. */
  datatype Coord = Coord(row: int, col: int)

  /** Tile types are the strings shown on the tiles. */
  type TileType = string

  /** One cell of the board: its type and whether it has been matched. */
  datatype Tile = Tile(kind: TileType, matched: bool)

  /** Width and height of the board. */
  const BoardSize: nat := 8

  /** The eight animal symbols the pairs are drawn from. */
  const TileTypes: seq<TileType> := [
    "\U{1F436}", "\U{1F431}", "\U{1F42D}", "\U{1F439}",
    "\U{1F430}", "\U{1F98A}", "\U{1F43B}", "\U{1F43C}"
  ]

  /** The animal types are eight different symbols. */
  lemma TileTypesDistinct()
    ensures |TileTypes| == 8
    ensures forall i, j :: 0 <= i < |TileTypes| && 0 <= j < |TileTypes| && i != j ==> TileTypes[i] != TileTypes[j]
  {
    forall i, j | 0 <= i < |TileTypes| && 0 <= j < |TileTypes| && i != j ensures TileTypes[i] != TileTypes[j] {
      assert TileTypes[i][0] != TileTypes[j][0];
    }
  }

  /** The sentinel type of a permanently open cell. */
  const EmptyType: TileType := "EMPTY"

  type Board = seq<seq<Tile>>

  /** Every board the game holds has BoardSize rows of BoardSize cells. */
  ghost predicate WellFormed(b: Board) {
    |b| == BoardSize && forall r :: 0 <= r < |b| ==> |b[r]| == BoardSize
  }

  /** Whether (`row`, `col`) names a cell of the board. */
  predicate IsWithinBounds(row: int, col: int) {
    row >= 0 && row < BoardSize && col >= 0 && col < BoardSize
  }

  /** IsWithinBounds for a coordinate pair. */
  predicate InBounds(c: Coord) {
    IsWithinBounds(c.row, c.col)
  }

  /** The bounds test accepts exactly the positions that index a cell of
      a well-formed board. */
  lemma BoundsIndexBoard(b: Board, row: int, col: int)
    requires WellFormed(b)
    ensures IsWithinBounds(row, col) <==> 0 <= row < |b| && 0 <= col < |b[row]|
  {
  }

  /** A path may pass through a cell that is on the board and either
      matched or of the sentinel type. */
  predicate IsCellClear(b: Board, row: int, col: int): (clear: bool)
    requires WellFormed(b)
    ensures clear ==> IsWithinBounds(row, col)
  {
    if row < 0 || row >= BoardSize || col < 0 || col >= BoardSize then false
    else b[row][col].matched || b[row][col].kind == EmptyType
  }

  /** The board with the matched flag of cell `c` set to `m`. */
  function SetMatched(b: Board, c: Coord, m: bool): (r: Board)
    requires WellFormed(b) && InBounds(c)
    ensures WellFormed(r)
    ensures r[c.row][c.col] == Tile(b[c.row][c.col].kind, m)
    ensures forall i, j :: 0 <= i < BoardSize && 0 <= j < BoardSize && (i != c.row || j != c.col)
              ==> r[i][j] == b[i][j]
  {
    b[c.row := b[c.row][c.col := Tile(b[c.row][c.col].kind, m)]]
  }

  /** Marking a cell matched makes it clear and leaves every other cell
      as clear or as blocked as it was. */
  lemma MarkClears(b: Board, c: Coord)
    requires WellFormed(b) && InBounds(c)
    ensures IsCellClear(SetMatched(b, c, true), c.row, c.col)
    ensures forall r, k :: (r != c.row || k != c.col) ==>
              (IsCellClear(SetMatched(b, c, true), r, k) <==> IsCellClear(b, r, k))
  {
  }

  /** Two well-formed boards that agree on every cell are the same board. */
  lemma SameBoard(b1: Board, b2: Board)
    requires WellFormed(b1) && WellFormed(b2)
    requires forall i, j :: 0 <= i < BoardSize && 0 <= j < BoardSize ==> b1[i][j] == b2[i][j]
    ensures b1 == b2
  {
    forall i | 0 <= i < BoardSize ensures b1[i] == b2[i] {
      assert forall j :: 0 <= j < BoardSize ==> b1[i][j] == b2[i][j];
    }
  }

  /** The board with both `a` and `z` marked matched, as the connection
      check does before it searches. */
  function MarkBoth(b: Board, a: Coord, z: Coord): (r: Board)
    requires WellFormed(b) && InBounds(a) && InBounds(z)
    ensures WellFormed(r)
    ensures r[a.row][a.col] == Tile(b[a.row][a.col].kind, true)
    ensures r[z.row][z.col] == Tile(b[z.row][z.col].kind, true)
    ensures forall i, j :: 0 <= i < BoardSize && 0 <= j < BoardSize && Coord(i, j) != a && Coord(i, j) != z
              ==> r[i][j] == b[i][j]
  {
    SetMatched(SetMatched(b, a, true), z, true)
  }

  /** Clearing the marks the connection check set restores every cell to
      its kind and clears the matched flag of both endpoints; when both
      endpoints were unmatched, the board is exactly as before. */
  lemma UnmarkBoth(b: Board, a: Coord, z: Coord)
    requires WellFormed(b) && InBounds(a) && InBounds(z)
    ensures SetMatched(SetMatched(MarkBoth(b, a, z), a, false), z, false)
            == SetMatched(SetMatched(b, a, false), z, false)
    ensures !b[a.row][a.col].matched && !b[z.row][z.col].matched ==>
              SetMatched(SetMatched(b, a, false), z, false) == b
  {
    SameBoard(SetMatched(SetMatched(MarkBoth(b, a, z), a, false), z, false),
              SetMatched(SetMatched(b, a, false), z, false));
    if !b[a.row][a.col].matched && !b[z.row][z.col].matched {
      SameBoard(SetMatched(SetMatched(b, a, false), z, false), b);
    }
  }

  /** The win condition: every cell has been matched. */
  ghost predicate AllMatched(b: Board)
    requires WellFormed(b)
  {
    forall r, c :: 0 <= r < BoardSize && 0 <= c < BoardSize ==> b[r][c].matched
  }

  /** Number of unmatched cells in a row. */
  function UnmatchedInRow(row: seq<Tile>): nat {
    if row == [] then 0
    else (if row[0].matched then 0 else 1) + UnmatchedInRow(row[1..])
  }

  /** Number of unmatched cells on a board. */
  function Unmatched(rows: seq<seq<Tile>>): nat {
    if rows == [] then 0 else UnmatchedInRow(rows[0]) + Unmatched(rows[1..])
  }

  lemma {:induction false} UnmatchedInRowZero(row: seq<Tile>)
    ensures UnmatchedInRow(row) == 0 <==> forall j :: 0 <= j < |row| ==> row[j].matched
  {
    if row != [] {
      UnmatchedInRowZero(row[1..]);
      assert forall j :: 1 <= j < |row| ==> row[j] == row[1..][j - 1];
    }
  }

  lemma {:induction false} UnmatchedZero(rows: seq<seq<Tile>>)
    ensures Unmatched(rows) == 0 <==>
              forall i, j :: 0 <= i < |rows| && 0 <= j < |rows[i]| ==> rows[i][j].matched
  {
    if rows != [] {
      UnmatchedZero(rows[1..]);
      UnmatchedInRowZero(rows[0]);
      assert forall i :: 1 <= i < |rows| ==> rows[i] == rows[1..][i - 1];
    }
  }

  /** The win predicate holds exactly when no unmatched cell is left. */
  lemma AllMatchedIffNoneLeft(b: Board)
    requires WellFormed(b)
    ensures AllMatched(b) <==> Unmatched(b) == 0
  {
    UnmatchedZero(b);
  }

  lemma {:induction false} UnmatchedInRowAllFalse(row: seq<Tile>)
    requires forall j :: 0 <= j < |row| ==> !row[j].matched
    ensures UnmatchedInRow(row) == |row|
  {
    if row != [] {
      UnmatchedInRowAllFalse(row[1..]);
    }
  }

  lemma {:induction false} UnmatchedAllFalse(rows: seq<seq<Tile>>, width: nat)
    requires forall i :: 0 <= i < |rows| ==> |rows[i]| == width
    requires forall i, j :: 0 <= i < |rows| && 0 <= j < |rows[i]| ==> !rows[i][j].matched
    ensures Unmatched(rows) == |rows| * width
  {
    if rows != [] {
      UnmatchedInRowAllFalse(rows[0]);
      UnmatchedAllFalse(rows[1..], width);
    }
  }

  /** A freshly dealt board, with no cell matched, has all 64 cells left. */
  lemma FreshBoardUnmatched(b: Board)
    requires WellFormed(b)
    requires forall r, c :: 0 <= r < BoardSize && 0 <= c < BoardSize ==> !b[r][c].matched
    ensures Unmatched(b) == BoardSize * BoardSize
    ensures !AllMatched(b)
  {
    UnmatchedAllFalse(b, BoardSize);
    assert !b[0][0].matched;
  }

  lemma {:induction false} UnmatchedInRowUpdate(row: seq<Tile>, j: nat, t: Tile)
    requires j < |row|
    ensures UnmatchedInRow(row[j := t]) + (if row[j].matched then 0 else 1)
            == UnmatchedInRow(row) + (if t.matched then 0 else 1)
  {
    if j > 0 {
      UnmatchedInRowUpdate(row[1..], j - 1, t);
      assert row[j := t][1..] == row[1..][j - 1 := t];
    } else {
      assert row[j := t][1..] == row[1..];
    }
  }

  lemma {:induction false} UnmatchedUpdate(rows: seq<seq<Tile>>, i: nat, j: nat, t: Tile)
    requires i < |rows| && j < |rows[i]|
    ensures Unmatched(rows[i := rows[i][j := t]]) + (if rows[i][j].matched then 0 else 1)
            == Unmatched(rows) + (if t.matched then 0 else 1)
  {
    var r' := rows[i := rows[i][j := t]];
    if i > 0 {
      UnmatchedUpdate(rows[1..], i - 1, j, t);
      assert r'[1..] == rows[1..][i - 1 := rows[1..][i - 1][j := t]];
    } else {
      UnmatchedInRowUpdate(rows[0], j, t);
      assert r'[1..] == rows[1..];
    }
  }

  /** Matching one unmatched cell leaves one fewer unmatched cell. */
  lemma MatchOneCell(b: Board, c: Coord)
    requires WellFormed(b) && InBounds(c) && !b[c.row][c.col].matched
    ensures Unmatched(SetMatched(b, c, true)) == Unmatched(b) - 1
  {
    UnmatchedUpdate(b, c.row, c.col, Tile(b[c.row][c.col].kind, true));
  }
}
