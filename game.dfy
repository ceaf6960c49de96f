/** The game state and its transitions: dealing, the connection check
    around the search, a tile click, clearing a failed selection, and the
    win check. */
module Game {
  import opened Board
  import opened Paths
  import opened Search
  import opened Deal

  /** Points for one matched pair. */
  const MatchPoints: int := 10

  /** The score once every pair has been matched. */
  const FullScore: int := MatchPoints * TotalPairs

  /** What a click did. */
  datatype ClickOutcome =
    | Ignored                              // matched tile, two tiles pending, or tile already selected
    | Selected                             // first tile of a pair selected
    | Matched(path: seq<Coord>, won: bool) // pair removed along `path`; `won` when the board is clear
    | Mismatch                             // second tile selected, no match: both stay selected

  /** The score earns MatchPoints for every two matched cells. */
  ghost predicate ScoreKept(b: Board, score: int)
    requires WellFormed(b)
  {
    2 * score == MatchPoints * (BoardSize * BoardSize - Unmatched(b))
  }

  /** The board is cleared exactly when the score is full. */
  lemma WinIffFullScore(b: Board, score: int)
    requires WellFormed(b) && ScoreKept(b, score)
    ensures AllMatched(b) <==> score == FullScore
  {
    AllMatchedIffNoneLeft(b);
  }

  /** The score never goes below zero nor above the full score. */
  lemma ScoreBounds(b: Board, score: int)
    requires WellFormed(b) && ScoreKept(b, score)
    ensures 0 <= score <= FullScore
  {
    UnmatchedAtMost(b);
  }

  lemma {:induction false} UnmatchedInRowAtMost(row: seq<Tile>)
    ensures UnmatchedInRow(row) <= |row|
  {
    if row != [] {
      UnmatchedInRowAtMost(row[1..]);
    }
  }

  /** A well-formed board has at most 64 unmatched cells. */
  lemma UnmatchedAtMost(b: Board)
    requires WellFormed(b)
    ensures Unmatched(b) <= BoardSize * BoardSize
  {
    UnmatchedRowsAtMost(b);
  }

  lemma {:induction false} UnmatchedRowsAtMost(rows: seq<seq<Tile>>)
    requires forall i :: 0 <= i < |rows| ==> |rows[i]| == BoardSize
    ensures Unmatched(rows) <= |rows| * BoardSize
  {
    if rows != [] {
      UnmatchedInRowAtMost(rows[0]);
      UnmatchedRowsAtMost(rows[1..]);
    }
  }

  /** Matching two different unmatched cells keeps the score in step when
      the score rises by MatchPoints. */
  lemma MatchKeepsScore(b: Board, score: int, a: Coord, z: Coord)
    requires WellFormed(b) && ScoreKept(b, score) && InBounds(a) && InBounds(z) && a != z
    requires !b[a.row][a.col].matched && !b[z.row][z.col].matched
    ensures ScoreKept(MarkBoth(b, a, z), score + MatchPoints)
  {
    var b1 := SetMatched(b, a, true);
    MatchOneCell(b, a);
    MatchOneCell(b1, z);
  }

  class Game {
    var board: Board
    var selectedTiles: seq<Coord>
    var score: int

    /** The board has its shape; at most two distinct, unmatched tiles are
        selected; the score pays for the matched cells. */
    ghost predicate Valid()
      reads this
    {
      && WellFormed(board)
      && |selectedTiles| <= 2
      && (forall i :: 0 <= i < |selectedTiles| ==>
            InBounds(selectedTiles[i]) && !board[selectedTiles[i].row][selectedTiles[i].col].matched)
      && (|selectedTiles| == 2 ==> selectedTiles[0] != selectedTiles[1])
      && ScoreKept(board, score)
    }

    /** The page load: deals a board under `choices`. */
    constructor (choices: seq<nat>)
      requires ValidChoices(choices, BoardSize * BoardSize)
      ensures Valid()
      ensures board == Dealt(choices) && selectedTiles == [] && score == 0
    {
      board := [];
      selectedTiles := [];
      score := 0;
      new;
      InitializeBoard(choices);
      DealtBoard(choices);
    }

    /** Builds the pairs, shuffles them under `choices` and lays them out
        row by row. */
    method InitializeBoard(choices: seq<nat>)
      requires ValidChoices(choices, BoardSize * BoardSize)
      modifies this
      ensures board == Dealt(choices)
      ensures selectedTiles == old(selectedTiles) && score == old(score)
    {
      var tiles: seq<TileType> := [];
      for i := 0 to TotalPairs
        invariant tiles == PairedTypes(i)
        invariant selectedTiles == old(selectedTiles) && score == old(score)
      {
        var kind := TileTypes[i % |TileTypes|];
        PairedTypesStep(i);
        tiles := tiles + [kind];
        tiles := tiles + [kind];
      }

      var deck := new TileType[|tiles|](k requires 0 <= k < |tiles| => tiles[k]);
      assert deck[..] == PairedTypes(TotalPairs);
      ShuffleArray(deck, choices);
      ghost var dealt := Layout(deck[..]);
      assert dealt == Dealt(choices);
      label shuffled:

      var rows: seq<seq<Tile>> := [];
      for row := 0 to BoardSize
        invariant |rows| == row
        invariant forall r :: 0 <= r < row ==> rows[r] == dealt[r]
        invariant deck[..] == old@shuffled(deck[..])
        invariant selectedTiles == old(selectedTiles) && score == old(score)
      {
        var rowTiles: seq<Tile> := [];
        for col := 0 to BoardSize
          invariant |rowTiles| == col
          invariant forall c :: 0 <= c < col ==> rowTiles[c] == Tile(deck[..][row * BoardSize + c], false)
        {
          rowTiles := rowTiles + [Tile(deck[row * BoardSize + col], false)];
        }
        LayoutRow(deck[..], row, rowTiles);
        rows := rows + [rowTiles];
      }
      board := rows;
    }

    /** The shuffle and reset buttons: a new deal, the score back to zero
        and nothing selected. */
    method Restart(choices: seq<nat>)
      requires ValidChoices(choices, BoardSize * BoardSize)
      modifies this
      ensures Valid()
      ensures board == Dealt(choices) && selectedTiles == [] && score == 0
    {
      InitializeBoard(choices);
      score := 0;
      selectedTiles := [];
      DealtBoard(choices);
    }

    /** Whether `tile1` and `tile2` can be joined: with both marked matched
        for the duration, searches for a path, then clears both marks. */
    method CanConnect(tile1: Coord, tile2: Coord) returns (path: Option<seq<Coord>>)
      requires WellFormed(board) && InBounds(tile1) && InBounds(tile2)
      modifies this
      ensures tile1 == tile2 ==> path == None && board == old(board)
      ensures tile1 != tile2 ==> board == SetMatched(SetMatched(old(board), tile1, false), tile2, false)
      ensures !old(board)[tile1.row][tile1.col].matched && !old(board)[tile2.row][tile2.col].matched ==> board == old(board)
      ensures path.Some? ==> tile1 != tile2 && IsConnection(MarkBoth(old(board), tile1, tile2), tile1, tile2, path.value)
      ensures tile1 != tile2 ==>
                forall p :: IsConnection(MarkBoth(old(board), tile1, tile2), tile1, tile2, p) && Turns(p) == 0 ==> path.Some?
      ensures selectedTiles == old(selectedTiles) && score == old(score)
    {
      if tile1.row == tile2.row && tile1.col == tile2.col {
        return None;
      }
      board := SetMatched(board, tile1, true);
      board := SetMatched(board, tile2, true);
      path := FindPathBFS(board, tile1, tile2);
      board := SetMatched(board, tile1, false);
      board := SetMatched(board, tile2, false);
      UnmarkBoth(old(board), tile1, tile2);
    }

    /** A click on the tile at (`row`, `col`). */
    method HandleTileClick(row: int, col: int) returns (outcome: ClickOutcome)
      requires Valid() && IsWithinBounds(row, col)
      modifies this
      ensures Valid()
      ensures old(board)[row][col].matched || |old(selectedTiles)| == 2 || Coord(row, col) in old(selectedTiles)
              ==> outcome == Ignored
      ensures outcome == Ignored ==> board == old(board) && selectedTiles == old(selectedTiles) && score == old(score)
      ensures outcome == Selected <==> !old(board)[row][col].matched && old(selectedTiles) == []
      ensures outcome == Selected ==> board == old(board) && selectedTiles == [Coord(row, col)] && score == old(score)
      ensures outcome.Matched? ==>
                var first, second := old(selectedTiles)[0], Coord(row, col);
                && |old(selectedTiles)| == 1
                && old(board)[first.row][first.col].kind == old(board)[row][col].kind
                && IsConnection(MarkBoth(old(board), first, second), first, second, outcome.path)
                && board == MarkBoth(old(board), first, second)
                && score == old(score) + MatchPoints
                && selectedTiles == []
                && (outcome.won <==> AllMatched(board))
      ensures outcome == Mismatch ==>
                var first, second := old(selectedTiles)[0], Coord(row, col);
                && |old(selectedTiles)| == 1
                && board == old(board) && score == old(score)
                && selectedTiles == old(selectedTiles) + [second]
                && (old(board)[first.row][first.col].kind == old(board)[row][col].kind ==>
                      forall p :: IsConnection(MarkBoth(old(board), first, second), first, second, p) ==> Turns(p) > 0)
      ensures |old(selectedTiles)| == 1 && !old(board)[row][col].matched && Coord(row, col) != old(selectedTiles)[0]
              ==> outcome.Matched? || outcome == Mismatch
    {
      var clicked := Coord(row, col);
      if board[row][col].matched {
        return Ignored;
      }
      if |selectedTiles| == 2 {
        return Ignored;
      }
      if clicked in selectedTiles {
        return Ignored;
      }

      selectedTiles := selectedTiles + [clicked];

      if |selectedTiles| == 2 {
        var first, second := selectedTiles[0], selectedTiles[1];
        var firstTile := board[first.row][first.col];
        var secondTile := board[second.row][second.col];

        var path := CanConnect(first, second);

        if firstTile.kind == secondTile.kind && path.Some? {
          MatchKeepsScore(board, score, first, second);
          board := SetMatched(board, first, true);
          board := SetMatched(board, second, true);
          score := score + MatchPoints;
          selectedTiles := [];
          var won := CheckWinCondition();
          return Matched(path.value, won);
        }
        return Mismatch;
      }
      return Selected;
    }

    /** Clears the selection after a failed match. */
    method DeselectTiles()
      requires Valid()
      modifies this
      ensures Valid()
      ensures selectedTiles == [] && board == old(board) && score == old(score)
    {
      selectedTiles := [];
    }

    /** Whether every tile has been matched, scanning row by row and
        stopping at the first unmatched tile. */
    method CheckWinCondition() returns (won: bool)
      requires WellFormed(board)
      ensures won <==> AllMatched(board)
    {
      for row := 0 to BoardSize
        invariant forall r, c :: 0 <= r < row && 0 <= c < BoardSize ==> board[r][c].matched
      {
        for col := 0 to BoardSize
          invariant forall c :: 0 <= c < col ==> board[row][c].matched
        {
          if !board[row][col].matched {
            return false;
          }
        }
      }
      return true;
    }
  }
}
