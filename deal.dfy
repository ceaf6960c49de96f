/** Dealing a new board: the tile types in pairs, a Fisher-Yates shuffle
    driven by a supplied sequence of random choices, and the layout of the
    shuffled tiles row by row. */
module Deal {
  import opened Board

  /** Number of pairs on a full board. */
  const TotalPairs: nat := BoardSize * BoardSize / 2

  /** The types of the first `n` pairs, in order: the animal types are
      used in turn, starting over after the last one. */
  function Picks(n: nat): (s: seq<TileType>)
    ensures |s| == n
  {
    seq(n, i requires 0 <= i < n => TileTypes[i % |TileTypes|])
  }

  /** `s` with every element written twice in a row. */
  function Doubled<T>(s: seq<T>): (d: seq<T>)
    ensures |d| == 2 * |s|
  {
    if s == [] then [] else Doubled(s[..|s| - 1]) + [s[|s| - 1], s[|s| - 1]]
  }

  /** The unshuffled tiles for `n` pairs: both tiles of each pair, side by
      side, pair after pair. */
  function PairedTypes(n: nat): (s: seq<TileType>)
    ensures |s| == 2 * n
  {
    Doubled(Picks(n))
  }

  /** One more pair appends two tiles of the next type in turn. */
  lemma PairedTypesStep(n: nat)
    ensures PairedTypes(n + 1) == PairedTypes(n) + [TileTypes[n % |TileTypes|], TileTypes[n % |TileTypes|]]
  {
    assert Picks(n + 1)[..n] == Picks(n);
  }

  /** Doubling multiplies the number of occurrences of every value by two. */
  lemma {:induction false} DoubledCount<T>(s: seq<T>, t: T)
    ensures multiset(Doubled(s))[t] == 2 * multiset(s)[t]
  {
    if s != [] {
      var p, x := s[..|s| - 1], s[|s| - 1];
      DoubledCount(p, t);
      assert s == p + [x];
      assert multiset(Doubled(s)) == multiset(Doubled(p)) + multiset{x, x};
    }
  }

  lemma ModBlock(m: nat, j: nat)
    requires j < 8
    ensures (8 * m + j) % 8 == j
  {
  }

  /** Every block of eight pairs runs through all the animal types. */
  lemma PicksBlock(m: nat)
    ensures Picks(8 * m + 8) == Picks(8 * m) + TileTypes
  {
    TileTypesDistinct();
    forall i | 0 <= i < 8 * m + 8 ensures Picks(8 * m + 8)[i] == (Picks(8 * m) + TileTypes)[i] {
      if i >= 8 * m {
        ModBlock(m, i - 8 * m);
      }
    }
  }

  /** A value at index `k` of a sequence without repetitions occurs once. */
  lemma {:induction false} DistinctOnce<T>(s: seq<T>, k: nat)
    requires k < |s|
    requires forall i, j :: 0 <= i < |s| && 0 <= j < |s| && i != j ==> s[i] != s[j]
    ensures multiset(s)[s[k]] == 1
  {
    var p := s[..|s| - 1];
    assert s == p + [s[|s| - 1]];
    if k < |s| - 1 {
      DistinctOnce(p, k);
    } else {
      assert s[k] !in p;
    }
  }

  /** The 32 pairs of a full board: four of each animal type. */
  lemma PicksCount(k: nat)
    requires k < |TileTypes|
    ensures multiset(Picks(TotalPairs))[TileTypes[k]] == 4
  {
    PicksBlock(0);
    PicksBlock(1);
    PicksBlock(2);
    PicksBlock(3);
    assert Picks(0) == [];
    assert Picks(TotalPairs) == TileTypes + TileTypes + TileTypes + TileTypes;
    TileTypesDistinct();
    DistinctOnce(TileTypes, k);
  }

  /** The sequence `s` with the elements at `i` and `j` exchanged. */
  function Swap(s: seq<TileType>, i: nat, j: nat): (r: seq<TileType>)
    requires i < |s| && j < |s|
    ensures |r| == |s| && r[i] == s[j] && r[j] == s[i]
    ensures forall k :: 0 <= k < |s| && k != i && k != j ==> r[k] == s[k]
  {
    s[i := s[j]][j := s[i]]
  }

  /** Exchanging two elements keeps the same elements. */
  lemma SwapPermutes(s: seq<TileType>, i: nat, j: nat)
    requires i < |s| && j < |s|
    ensures multiset(Swap(s, i, j)) == multiset(s)
  {
  }

  /** A choice `choices[i]` for every position, each at most its own
      index, as `Math.floor(Math.random() * (i + 1))` yields. */
  predicate ValidChoices(choices: seq<nat>, n: nat) {
    |choices| == n && forall i :: 0 < i < n ==> choices[i] <= i
  }

  /** The shuffle from position `i` down to position 1: position `i` is
      exchanged with position `choices[i]`, then the rest follows. */
  function ShuffleFrom(s: seq<TileType>, choices: seq<nat>, i: int): seq<TileType>
    requires ValidChoices(choices, |s|) && i < |s|
    decreases i
  {
    if i <= 0 then s else ShuffleFrom(Swap(s, i, choices[i]), choices, i - 1)
  }

  /** The Fisher-Yates shuffle of `s` under `choices`. */
  function Shuffle(s: seq<TileType>, choices: seq<nat>): seq<TileType>
    requires ValidChoices(choices, |s|)
  {
    ShuffleFrom(s, choices, |s| - 1)
  }

  lemma {:induction false} ShuffleFromPermutes(s: seq<TileType>, choices: seq<nat>, i: int)
    requires ValidChoices(choices, |s|) && i < |s|
    ensures |ShuffleFrom(s, choices, i)| == |s|
    ensures multiset(ShuffleFrom(s, choices, i)) == multiset(s)
    decreases i
  {
    if i > 0 {
      SwapPermutes(s, i, choices[i]);
      ShuffleFromPermutes(Swap(s, i, choices[i]), choices, i - 1);
    }
  }

  /** Shuffling rearranges the tiles and neither adds nor drops one. */
  lemma ShufflePermutes(s: seq<TileType>, choices: seq<nat>)
    requires ValidChoices(choices, |s|)
    ensures |Shuffle(s, choices)| == |s|
    ensures multiset(Shuffle(s, choices)) == multiset(s)
  {
    ShuffleFromPermutes(s, choices, |s| - 1);
  }

  /** Shuffles `a` in place, from the last position down to position 1,
      exchanging each position with the one its choice names. */
  method ShuffleArray(a: array<TileType>, choices: seq<nat>)
    requires ValidChoices(choices, a.Length)
    modifies a
    ensures a[..] == Shuffle(old(a[..]), choices)
  {
    var i := a.Length - 1;
    while i > 0
      invariant -1 <= i < a.Length
      invariant ShuffleFrom(a[..], choices, i) == Shuffle(old(a[..]), choices)
      decreases i
    {
      var j := choices[i];
      ghost var before := a[..];
      a[i], a[j] := a[j], a[i];
      assert a[..] == Swap(before, i, j);
      i := i - 1;
    }
  }

  /** The board that lays `tiles` out row by row, every tile unmatched. */
  function Layout(tiles: seq<TileType>): (b: Board)
    requires |tiles| == BoardSize * BoardSize
    ensures WellFormed(b)
  {
    seq(BoardSize, r requires 0 <= r < BoardSize =>
      seq(BoardSize, c requires 0 <= c < BoardSize => Tile(tiles[r * BoardSize + c], false)))
  }

  /** Row `row` of a laid-out board holds the tiles from `row * BoardSize`
      on, in order. */
  lemma LayoutRow(tiles: seq<TileType>, row: nat, rowTiles: seq<Tile>)
    requires |tiles| == BoardSize * BoardSize && row < BoardSize && |rowTiles| == BoardSize
    requires forall c :: 0 <= c < BoardSize ==> rowTiles[c] == Tile(tiles[row * BoardSize + c], false)
    ensures rowTiles == Layout(tiles)[row]
  {
  }

  /** The tile types of a board, read row by row. */
  function Kinds(b: Board): (s: seq<TileType>)
    requires WellFormed(b)
    ensures |s| == BoardSize * BoardSize
  {
    seq(BoardSize * BoardSize, k requires 0 <= k < BoardSize * BoardSize => b[k / BoardSize][k % BoardSize].kind)
  }

  /** Reading a laid-out board row by row gives back its tiles, and no
      tile of it is matched. */
  lemma LayoutKinds(tiles: seq<TileType>)
    requires |tiles| == BoardSize * BoardSize
    ensures Kinds(Layout(tiles)) == tiles
    ensures forall r, c :: 0 <= r < BoardSize && 0 <= c < BoardSize ==> !Layout(tiles)[r][c].matched
  {
    var b := Layout(tiles);
    forall k | 0 <= k < BoardSize * BoardSize ensures Kinds(b)[k] == tiles[k] {
      assert (k / BoardSize) * BoardSize + k % BoardSize == k;
    }
  }

  /** The board dealt under `choices`. */
  function Dealt(choices: seq<nat>): (b: Board)
    requires ValidChoices(choices, 2 * TotalPairs)
    ensures WellFormed(b)
  {
    ShufflePermutes(PairedTypes(TotalPairs), choices);
    Layout(Shuffle(PairedTypes(TotalPairs), choices))
  }

  /** A dealt board has 64 unmatched tiles; every type on it occurs twice
      as often as among the pair types, so an even number of times; each
      animal type occurs exactly eight times, and no other type occurs. */
  lemma DealtBoard(choices: seq<nat>)
    requires ValidChoices(choices, 2 * TotalPairs)
    ensures var b := Dealt(choices);
            && (forall r, c :: 0 <= r < BoardSize && 0 <= c < BoardSize ==> !b[r][c].matched)
            && Unmatched(b) == BoardSize * BoardSize
            && (forall t :: multiset(Kinds(b))[t] == 2 * multiset(Picks(TotalPairs))[t])
            && (forall k :: 0 <= k < |TileTypes| ==> multiset(Kinds(b))[TileTypes[k]] == 8)
            && (forall t :: t in multiset(Kinds(b)) ==> t in TileTypes)
  {
    var deck := PairedTypes(TotalPairs);
    var tiles := Shuffle(deck, choices);
    ShufflePermutes(deck, choices);
    LayoutKinds(tiles);
    var b := Dealt(choices);
    FreshBoardUnmatched(b);
    forall t ensures multiset(Kinds(b))[t] == 2 * multiset(Picks(TotalPairs))[t] {
      DoubledCount(Picks(TotalPairs), t);
    }
    forall k | 0 <= k < |TileTypes| ensures multiset(Kinds(b))[TileTypes[k]] == 8 {
      PicksCount(k);
    }
    forall t | t in multiset(Kinds(b)) ensures t in TileTypes {
      var i :| 0 <= i < TotalPairs && Picks(TotalPairs)[i] == t;
    }
  }
}
