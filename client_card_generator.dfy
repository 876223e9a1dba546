/** The client's copy of the card generator (src/lib/utils/cardGenerator.ts)
    and its three grid helpers. The generator repeats the server's loops; each
    method here is proved to return exactly what the server's specification
    function returns for the same entropy, so a card drawn in the browser and
    a card drawn in the room follow one and the same rule. */
module ClientCardGenerator {
  import opened BingoTypes
  import opened CardGenerator
  import GameEngine
  import PatternValidator

  /** shuffle: Fisher-Yates on a copy of the input, from the last index down. */
  method Shuffle<T>(a: seq<T>, draws: seq<nat>) returns (r: seq<T>, rest: seq<nat>)
    ensures (r, rest) == Shuffled(a, draws)
  {
    var result := new T[|a|](k requires 0 <= k < |a| => a[k]);
    assert result[..] == a;
    ghost var target := Shuffled(a, draws);
    rest := draws;
    var i := |a| - 1;
    assert ShufflePasses(a, i, rest) == target;
    assert ShufflePasses(result[..], i, rest) == target;
    while i > 0
      invariant result.Length == |a|
      invariant -1 <= i < |a| && (|a| > 0 ==> 0 <= i)
      invariant ShufflePasses(result[..], i, rest) == target
      decreases i
    {
      var j := RandomIndex(rest, i);
      ghost var before := result[..];
      SwapStep(result, i, j);
      ShufflePassStep(before, result[..], i, rest, target);
      rest := Consume(rest);
      i := i - 1;
    }
    r := result[..];
  }

  /** generateColumn: the first `count` numbers of min..max after a shuffle. */
  method GenerateColumn(min: int, max: int, count: int, draws: seq<nat>) returns (col: seq<int>, rest: seq<nat>)
    requires min <= max + 1
    ensures (col, rest) == DrawnColumn(min, max, count, draws)
  {
    var available := Interval(min, max);
    var shuffled;
    shuffled, rest := Shuffle(available, draws);
    col := SlicePrefix(shuffled, count);
  }

  /** generateBingoCard: five columns from the five ranges, laid out row by
      row with FREE in the centre, then a fresh id. */
  method GenerateBingoCard(e: Entropy) returns (card: Card, e': Entropy)
    ensures (card, e') == CardOf(e)
    ensures ValidCardGrid(card.grid)
  {
    var columnB, d1 := GenerateColumn(1, 15, GridSize, e.draws);
    var columnI, d2 := GenerateColumn(16, 30, GridSize, d1);
    var columnN, d3 := GenerateColumn(31, 45, GridSize, d2);
    var columnG, d4 := GenerateColumn(46, 60, GridSize, d3);
    var columnO, d5 := GenerateColumn(61, 75, GridSize, d4);
    var grid := LayOutGrid(columnB, columnI, columnN, columnG, columnO);
    var (id, rest) := NextId(e.(draws := d5));
    card := Card(id, grid);
    e' := rest;
    CardOfValid(e);
  }

  /** generateCardPool: draw cards until `count` have pairwise distinct
      signatures, skipping repeats; stops early once the draws are used up. */
  method GenerateCardPool(count: int, e: Entropy) returns (cards: seq<Card>, e': Entropy)
    ensures (cards, e') == DrawnPool(count, e)
    ensures Drawn(cards)
    ensures |cards| <= count || cards == []
    ensures |cards| < count ==> e'.draws == []
  {
    cards := [];
    var usedSignatures: set<seq<Cell>> := {};
    e' := e;
    ghost var target := DrawnPool(count, e);
    while |cards| < count && e'.draws != []
      invariant PoolFrom(count, e', cards) == target
      invariant forall sig :: sig in usedSignatures <==> sig in Signatures(cards)
      decreases |e'.draws|
    {
      PoolFromStep(count, e', cards);
      var card;
      card, e' := GenerateBingoCard(e');
      var signature := Signature(card.grid);
      if signature !in usedSignatures {
        usedSignatures := usedSignatures + {signature};
        SignaturesSnoc(cards, card);
        cards := cards + [card];
      }
    }
    PoolFromFacts(count, e, []);
  }

  /** createEmptyMarkedGrid: built row by row, true only at the centre. */
  method CreateEmptyMarkedGrid() returns (g: Marks)
    ensures g == CentreMarked()
  {
    var grid: seq<seq<bool>> := [];
    for row := 0 to GridSize
      invariant |grid| == row
      invariant forall r :: 0 <= r < row ==> grid[r] == CentreMarked()[r]
    {
      var line: seq<bool> := [];
      for col := 0 to GridSize
        invariant |line| == col
        invariant forall c :: 0 <= c < col ==> line[c] == (row == 2 && c == 2)
      {
        line := line + [row == 2 && col == 2];
      }
      grid := grid + [line];
    }
    g := grid;
  }

  // ---------------------------------------------------------------------------
  // Grid helpers of the client

  /** autoMarkNumber: copies the marked grid, then marks every cell holding
      the number; the result is the grid the server's auto-marking stores. */
  method AutoMarkNumber(cardGrid: CardGrid, markedGrid: Marks, number: int) returns (newMarked: Marks)
    ensures newMarked == GameEngine.AutoMarkGrid(cardGrid, markedGrid, number)
  {
    var w := new bool[GridSize, GridSize]((r, c) requires 0 <= r < GridSize && 0 <= c < GridSize => markedGrid[r][c]);
    for row := 0 to GridSize
      invariant forall r, c :: 0 <= r < GridSize && 0 <= c < GridSize ==>
        w[r, c] == if r < row && cardGrid[r][c] == Num(number) then true else markedGrid[r][c]
    {
      for col := 0 to GridSize
        invariant forall r, c :: 0 <= r < GridSize && 0 <= c < GridSize ==>
          w[r, c] == if (r < row || (r == row && c < col)) && cardGrid[r][c] == Num(number) then true else markedGrid[r][c]
      {
        if cardGrid[row][col] == Num(number) {
          w[row, col] := true;
        }
      }
    }
    newMarked := PatternValidator.Snapshot(w);
    ghost var expected := GameEngine.AutoMarkGrid(cardGrid, markedGrid, number);
    forall r | 0 <= r < GridSize
      ensures newMarked[r] == expected[r]
    {
      assert forall c :: 0 <= c < GridSize ==> newMarked[r][c] == expected[r][c];
    }
  }

  /** The card holds the number in some cell. */
  predicate HoldsNumber(g: CardGrid, number: int)
  {
    exists r, c :: 0 <= r < GridSize && 0 <= c < GridSize && g[r][c] == Num(number)
  }

  /** cardContainsNumber: some row includes the number (FREE never equals one). */
  method CardContainsNumber(card: Card, number: int) returns (b: bool)
    ensures b <==> HoldsNumber(card.grid, number)
  {
    for row := 0 to GridSize
      invariant forall r, c :: 0 <= r < row && 0 <= c < GridSize ==> card.grid[r][c] != Num(number)
    {
      if Num(number) in card.grid[row] {
        var c :| 0 <= c < |card.grid[row]| && card.grid[row][c] == Num(number);
        assert card.grid[row][c] == Num(number);
        return true;
      }
    }
    return false;
  }

  /** getNumberPosition: the first cell in row-major order holding the
      number, or none. */
  method GetNumberPosition(card: Card, number: int) returns (pos: Option<(int, int)>)
    ensures pos.None? <==> !HoldsNumber(card.grid, number)
    ensures pos.Some? ==>
      var (row, col) := pos.value;
      0 <= row < GridSize && 0 <= col < GridSize && card.grid[row][col] == Num(number) &&
      forall r, c :: 0 <= r < GridSize && 0 <= c < GridSize && GridSize * r + c < GridSize * row + col ==>
        card.grid[r][c] != Num(number)
  {
    for row := 0 to GridSize
      invariant forall r, c :: 0 <= r < row && 0 <= c < GridSize ==> card.grid[r][c] != Num(number)
    {
      for col := 0 to GridSize
        invariant forall r, c :: ((0 <= r < row && 0 <= c < GridSize) || (r == row && 0 <= c < col)) ==>
          card.grid[r][c] != Num(number)
      {
        if card.grid[row][col] == Num(number) {
          return Some((row, col));
        }
      }
    }
    return None;
  }
}
