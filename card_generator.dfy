/** The server's card and number generator (party/cardGenerator.ts): a
    Fisher-Yates shuffle, bingo cards drawn column by column from the fixed
    ranges, a pool of cards with distinct grids, the shuffled call order 1..75
    and the starting marked grid. Math.random and generateId are read from an
    `Entropy` value the caller supplies. */
module CardGenerator {
  import opened BingoTypes

  // ---------------------------------------------------------------------------
  // Randomness as an explicit input

  /** `draws` stands for successive Math.random() results, already scaled
      to whole numbers; `ids` for successive generateId() results. */
  datatype Entropy = Entropy(draws: seq<nat>, ids: seq<Id>)

  /** Math.floor(Math.random() * (i + 1)): an index in 0..i. Once the stream
      is used up every draw reads 0. */
  function RandomIndex(draws: seq<nat>, i: nat): (j: nat)
    ensures j <= i
  {
    if draws == [] then 0 else draws[0] % (i + 1)
  }

  function Consume(draws: seq<nat>): (rest: seq<nat>)
    ensures draws != [] ==> |rest| == |draws| - 1
    ensures draws == [] ==> rest == []
  {
    if draws == [] then [] else draws[1..]
  }

  /** generateId: the next id of the stream; the empty id once it is used up. */
  function NextId(e: Entropy): (r: (Id, Entropy))
    ensures r.1.draws == e.draws
  {
    if e.ids == [] then ("", e) else (e.ids[0], e.(ids := e.ids[1..]))
  }

  // ---------------------------------------------------------------------------
  // Sequences without repeats, and permutations

  predicate Distinct<T(==)>(s: seq<T>)
  {
    forall i, j :: 0 <= i < j < |s| ==> s[i] != s[j]
  }

  lemma {:induction false} DistinctCountsAtMostOne<T>(s: seq<T>, x: T)
    requires Distinct(s)
    ensures multiset(s)[x] <= 1
  {
    if s != [] {
      assert s == [s[0]] + s[1..];
      assert Distinct(s[1..]);
      DistinctCountsAtMostOne(s[1..], x);
      if x == s[0] {
        assert x !in s[1..];
      }
    }
  }

  lemma RepeatCountsTwice<T>(s: seq<T>, i: int, j: int)
    requires 0 <= i < j < |s| && s[i] == s[j]
    ensures multiset(s)[s[i]] >= 2
  {
    assert s == s[..i] + [s[i]] + s[i + 1..j] + [s[j]] + s[j + 1..];
  }

  /** A rearrangement of a sequence without repeats has no repeats. */
  lemma PermutationKeepsDistinct<T>(a: seq<T>, b: seq<T>)
    requires multiset(a) == multiset(b) && Distinct(a)
    ensures Distinct(b)
  {
    forall i, j | 0 <= i < j < |b|
      ensures b[i] != b[j]
    {
      if b[i] == b[j] {
        RepeatCountsTwice(b, i, j);
        DistinctCountsAtMostOne(a, b[i]);
      }
    }
  }

  /** A rearrangement holds the same elements. */
  lemma PermutationKeepsMembers<T>(a: seq<T>, b: seq<T>)
    requires multiset(a) == multiset(b)
    ensures forall x :: x in a <==> x in b
  {
    forall x
      ensures x in a <==> x in b
    {
      assert x in a <==> x in multiset(a);
      assert x in b <==> x in multiset(b);
    }
  }

  // ---------------------------------------------------------------------------
  // shuffle

  /** `[result[i], result[j]] = [result[j], result[i]]`. */
  function Swap<T>(a: seq<T>, i: nat, j: nat): (b: seq<T>)
    requires i < |a| && j < |a|
    ensures |b| == |a|
  {
    a[i := a[j]][j := a[i]]
  }

  /** A swap exchanges the two slots, keeps every other one, and so only
      rearranges the sequence. */
  lemma SwapFacts<T>(a: seq<T>, i: nat, j: nat)
    requires i < |a| && j < |a|
    ensures Swap(a, i, j)[i] == a[j] && Swap(a, i, j)[j] == a[i]
    ensures forall k :: 0 <= k < |a| && k != i && k != j ==> Swap(a, i, j)[k] == a[k]
    ensures multiset(Swap(a, i, j)) == multiset(a)
  {
  }

  /** The Fisher-Yates passes for indices i, i - 1, ..., 1, each swapping
      index i with a drawn index in 0..i; returns the rearranged sequence and
      the draws left over. */
  function ShufflePasses<T>(a: seq<T>, i: int, draws: seq<nat>): (seq<T>, seq<nat>)
    requires i < |a|
    decreases i
  {
    if i <= 0 then (a, draws)
    else ShufflePasses(Swap(a, i, RandomIndex(draws, i)), i - 1, Consume(draws))
  }

  /** The passes only rearrange the sequence. */
  lemma {:induction false} ShufflePassesPermutes<T>(a: seq<T>, i: int, draws: seq<nat>)
    requires i < |a|
    ensures |ShufflePasses(a, i, draws).0| == |a|
    ensures multiset(ShufflePasses(a, i, draws).0) == multiset(a)
    decreases i
  {
    if i > 0 {
      SwapFacts(a, i, RandomIndex(draws, i));
      ShufflePassesPermutes(Swap(a, i, RandomIndex(draws, i)), i - 1, Consume(draws));
    }
  }

  /** Each pass uses up one draw while any are left. */
  lemma {:induction false} ShufflePassesConsumes<T>(a: seq<T>, i: int, draws: seq<nat>)
    requires i < |a|
    ensures |ShufflePasses(a, i, draws).1| <= |draws|
    ensures i >= 1 && draws != [] ==> |ShufflePasses(a, i, draws).1| < |draws|
    decreases i
  {
    if i > 0 {
      ShufflePassesConsumes(Swap(a, i, RandomIndex(draws, i)), i - 1, Consume(draws));
    }
  }

  /** What shuffle returns for a given stream of draws. */
  function Shuffled<T>(a: seq<T>, draws: seq<nat>): (seq<T>, seq<nat>)
  {
    ShufflePasses(a, |a| - 1, draws)
  }

  /** A shuffle is a rearrangement; it uses up a draw when there is one and
      at least two elements to shuffle. */
  lemma ShuffledFacts<T>(a: seq<T>, draws: seq<nat>)
    ensures var (r, rest) := Shuffled(a, draws);
      |r| == |a| && multiset(r) == multiset(a) &&
      |rest| <= |draws| && (|a| >= 2 && draws != [] ==> |rest| < |draws|)
  {
    ShufflePassesPermutes(a, |a| - 1, draws);
    ShufflePassesConsumes(a, |a| - 1, draws);
  }

  /** shuffle: Fisher-Yates on a copy of the input, from the last index down. */
  method Shuffle<T>(a: seq<T>, draws: seq<nat>) returns (r: seq<T>, rest: seq<nat>)
    ensures (r, rest) == Shuffled(a, draws)
    ensures |r| == |a| && multiset(r) == multiset(a)
  {
    ShuffledFacts(a, draws);
    var result := new T[|a|](k requires 0 <= k < |a| => a[k]);
    assert result[..] == a;
    ghost var target := Shuffled(a, draws);
    rest := draws;
    var i := |a| - 1;
    assert ShufflePasses(a, i, rest) == target;
    assert ShufflePasses(result[..], i, rest) == target;
    while i > 0
      invariant result.Length == |a|
      invariant -1 <= i < |a| && (|a| > 0 ==> 0 <= i)
      invariant ShufflePasses(result[..], i, rest) == target
      decreases i
    {
      var j := RandomIndex(rest, i);
      ghost var before := result[..];
      SwapStep(result, i, j);
      ghost var after := result[..];
      ShufflePassStep(before, after, i, rest, target);
      rest := Consume(rest);
      i := i - 1;
    }
    r := result[..];
  }

  /** One pass of the loop leaves the remaining passes with the same outcome. */
  lemma ShufflePassStep<T>(before: seq<T>, after: seq<T>, i: int, draws: seq<nat>, target: (seq<T>, seq<nat>))
    requires 0 < i < |before|
    requires ShufflePasses(before, i, draws) == target
    requires after == Swap(before, i, RandomIndex(draws, i))
    ensures ShufflePasses(after, i - 1, Consume(draws)) == target
  {
  }

  /** One pass of the loop: swap two slots of the array in place. */
  method SwapStep<T>(result: array<T>, i: nat, j: nat)
    requires i < result.Length && j < result.Length
    modifies result
    ensures result[..] == Swap(old(result[..]), i, j)
  {
    result[i], result[j] := result[j], result[i];
  }

  // ---------------------------------------------------------------------------
  // generateColumn and generateBingoCard

  /** Array.from({ length: max - min + 1 }, (_, i) => min + i). */
  function Interval(min: int, max: int): (s: seq<int>)
    requires min <= max + 1
    ensures |s| == max - min + 1
    ensures forall k :: 0 <= k < |s| ==> s[k] == min + k
  {
    seq(max - min + 1, k => min + k)
  }

  lemma IntervalFacts(min: int, max: int)
    requires min <= max + 1
    ensures Distinct(Interval(min, max))
    ensures forall x :: x in Interval(min, max) <==> min <= x <= max
  {
    var s := Interval(min, max);
    forall x | min <= x <= max
      ensures x in s
    {
      assert s[x - min] == x;
    }
  }

  /** slice(0, count): a negative count counts from the end. */
  function SlicePrefix<T>(s: seq<T>, count: int): (r: seq<T>)
    ensures |r| == if count >= 0 then (if count <= |s| then count else |s|)
      else (if |s| + count >= 0 then |s| + count else 0)
    ensures r == s[..|r|]
  {
    if count >= 0 then (if count <= |s| then s[..count] else s)
    else (if |s| + count >= 0 then s[..|s| + count] else [])
  }

  /** What generateColumn returns: the first `count` numbers of min..max
      after a shuffle, and the draws left over. */
  function DrawnColumn(min: int, max: int, count: int, draws: seq<nat>): (r: (seq<int>, seq<nat>))
    requires min <= max + 1
    ensures 0 <= count <= max - min + 1 ==> |r.0| == count
    ensures |r.1| <= |draws|
    ensures max - min + 1 >= 2 && draws != [] ==> |r.1| < |draws|
  {
    ShuffledFacts(Interval(min, max), draws);
    var (shuffled, rest) := Shuffled(Interval(min, max), draws);
    (SlicePrefix(shuffled, count), rest)
  }

  /** Numbers of min..max, none twice. */
  predicate Within(col: seq<int>, min: int, max: int)
  {
    (forall k :: 0 <= k < |col| ==> min <= col[k] <= max) && Distinct(col)
  }

  /** A column holds at most max - min + 1 numbers, all of min..max, none twice. */
  lemma ColumnFacts(min: int, max: int, count: int, draws: seq<nat>)
    requires min <= max + 1
    ensures |DrawnColumn(min, max, count, draws).0| <= max - min + 1
    ensures Within(DrawnColumn(min, max, count, draws).0, min, max)
  {
    var available := Interval(min, max);
    var shuffled := Shuffled(available, draws).0;
    ShuffledFacts(available, draws);
    IntervalFacts(min, max);
    PermutationKeepsDistinct(available, shuffled);
    PermutationKeepsMembers(available, shuffled);
    var col := SlicePrefix(shuffled, count);
    forall k | 0 <= k < |col|
      ensures min <= col[k] <= max
    {
      assert col[k] == shuffled[k];
      assert shuffled[k] in available;
    }
  }

  /** generateColumn: `count` distinct numbers of min..max in shuffled order. */
  method GenerateColumn(min: int, max: int, count: int, draws: seq<nat>) returns (col: seq<int>, rest: seq<nat>)
    requires min <= max + 1
    ensures (col, rest) == DrawnColumn(min, max, count, draws)
    ensures Within(col, min, max)
  {
    var available := Interval(min, max);
    var shuffled;
    shuffled, rest := Shuffle(available, draws);
    col := SlicePrefix(shuffled, count);
    ColumnFacts(min, max, count, draws);
  }

  /** A well-formed card: FREE in the centre, every other cell a number from
      its column's block of fifteen, and no number twice in a column. */
  predicate ValidCardGrid(g: CardGrid)
  {
    g[2][2] == Free &&
    (forall r, c :: 0 <= r < GridSize && 0 <= c < GridSize && !(r == 2 && c == 2) ==>
      g[r][c].Num? && 15 * c + 1 <= g[r][c].n <= 15 * c + 15) &&
    (forall r1, r2, c ::
      0 <= r1 < GridSize && 0 <= r2 < GridSize && 0 <= c < GridSize && r1 != r2 && g[r1][c].Num? && g[r2][c].Num? ==>
      g[r1][c].n != g[r2][c].n)
  }

  /** On a well-formed card every number sits under the letter it is
      announced with, so the column of a cell and getColumnForNumber agree. */
  lemma ValidCardColumnsMatchLetters(g: CardGrid)
    requires ValidCardGrid(g)
    ensures forall r, c :: InGrid(r, c) && g[r][c].Num? ==> ColumnForNumber(g[r][c].n) == Columns[c]
  {
    ColumnRangesPartition();
    forall r, c | InGrid(r, c) && g[r][c].Num?
      ensures ColumnForNumber(g[r][c].n) == Columns[c]
    {
      ColumnForNumberInRange(g[r][c].n);
      var k := ColumnForNumber(g[r][c].n);
      assert Columns[c] == [B, I, N, G, O][c];
    }
  }

  /** A drawn column for the card: five distinct numbers of min..max. */
  predicate ColumnIn(col: seq<int>, min: int, max: int)
  {
    |col| == GridSize && Within(col, min, max)
  }

  /** Row `row` of a card: the row-th number of each column, FREE in the centre. */
  function RowOf(columnB: seq<int>, columnI: seq<int>, columnN: seq<int>, columnG: seq<int>, columnO: seq<int>,
                 row: int): (line: seq<Cell>)
    requires |columnB| == GridSize && |columnI| == GridSize && |columnN| == GridSize
    requires |columnG| == GridSize && |columnO| == GridSize
    requires 0 <= row < GridSize
  {
    [Num(columnB[row]), Num(columnI[row]), if row == 2 then Free else Num(columnN[row]),
     Num(columnG[row]), Num(columnO[row])]
  }

  /** The grid laid out row by row from the five columns. */
  function GridOf(columnB: seq<int>, columnI: seq<int>, columnN: seq<int>, columnG: seq<int>, columnO: seq<int>): (g: CardGrid)
    requires |columnB| == GridSize && |columnI| == GridSize && |columnN| == GridSize
    requires |columnG| == GridSize && |columnO| == GridSize
    ensures forall row :: 0 <= row < GridSize ==> g[row] == RowOf(columnB, columnI, columnN, columnG, columnO, row)
  {
    seq(GridSize, row requires 0 <= row < GridSize => RowOf(columnB, columnI, columnN, columnG, columnO, row))
  }

  /** generateBingoCard's loop over the rows, building the grid from the columns. */
  method LayOutGrid(columnB: seq<int>, columnI: seq<int>, columnN: seq<int>, columnG: seq<int>, columnO: seq<int>)
    returns (grid: CardGrid)
    requires |columnB| == GridSize && |columnI| == GridSize && |columnN| == GridSize
    requires |columnG| == GridSize && |columnO| == GridSize
    ensures grid == GridOf(columnB, columnI, columnN, columnG, columnO)
  {
    var rows: seq<seq<Cell>> := [];
    for row := 0 to GridSize
      invariant |rows| == row
      invariant forall r :: 0 <= r < row ==> rows[r] == RowOf(columnB, columnI, columnN, columnG, columnO, r)
    {
      rows := rows + [[Num(columnB[row]), Num(columnI[row]), if row == 2 then Free else Num(columnN[row]),
                       Num(columnG[row]), Num(columnO[row])]];
    }
    assert rows == GridOf(columnB, columnI, columnN, columnG, columnO);
    grid := rows;
  }

  /** Five well-drawn columns make a well-formed card. */
  lemma GridOfValid(columnB: seq<int>, columnI: seq<int>, columnN: seq<int>, columnG: seq<int>, columnO: seq<int>)
    requires ColumnIn(columnB, 1, 15) && ColumnIn(columnI, 16, 30) && ColumnIn(columnN, 31, 45)
    requires ColumnIn(columnG, 46, 60) && ColumnIn(columnO, 61, 75)
    ensures ValidCardGrid(GridOf(columnB, columnI, columnN, columnG, columnO))
  {
    var g := GridOf(columnB, columnI, columnN, columnG, columnO);
    forall r, c | 0 <= r < GridSize && 0 <= c < GridSize && !(r == 2 && c == 2)
      ensures g[r][c].Num? && 15 * c + 1 <= g[r][c].n <= 15 * c + 15
    {
      assert g[r] == RowOf(columnB, columnI, columnN, columnG, columnO, r);
    }
    forall r1, r2, c | 0 <= r1 < GridSize && 0 <= r2 < GridSize && 0 <= c < GridSize && r1 != r2 && g[r1][c].Num? && g[r2][c].Num?
      ensures g[r1][c].n != g[r2][c].n
    {
      var col := [columnB, columnI, columnN, columnG, columnO][c];
      assert Distinct(col);
      assert g[r1][c].n == col[r1] && g[r2][c].n == col[r2];
    }
  }

  /** What generateBingoCard returns for a given entropy: the five columns
      drawn in the order B, I, N, G, O, then a fresh id. */
  function CardOf(e: Entropy): (r: (Card, Entropy))
    ensures |r.1.draws| <= |e.draws|
    ensures e.draws != [] ==> |r.1.draws| < |e.draws|
  {
    var (columnB, d1) := DrawnColumn(1, 15, GridSize, e.draws);
    var (columnI, d2) := DrawnColumn(16, 30, GridSize, d1);
    var (columnN, d3) := DrawnColumn(31, 45, GridSize, d2);
    var (columnG, d4) := DrawnColumn(46, 60, GridSize, d3);
    var (columnO, d5) := DrawnColumn(61, 75, GridSize, d4);
    var (id, rest) := NextId(e.(draws := d5));
    (Card(id, GridOf(columnB, columnI, columnN, columnG, columnO)), rest)
  }

  /** Every generated card is well formed. */
  lemma CardOfValid(e: Entropy)
    ensures ValidCardGrid(CardOf(e).0.grid)
  {
    var (columnB, d1) := DrawnColumn(1, 15, GridSize, e.draws);
    var (columnI, d2) := DrawnColumn(16, 30, GridSize, d1);
    var (columnN, d3) := DrawnColumn(31, 45, GridSize, d2);
    var (columnG, d4) := DrawnColumn(46, 60, GridSize, d3);
    var (columnO, d5) := DrawnColumn(61, 75, GridSize, d4);
    ColumnFacts(1, 15, GridSize, e.draws);
    ColumnFacts(16, 30, GridSize, d1);
    ColumnFacts(31, 45, GridSize, d2);
    ColumnFacts(46, 60, GridSize, d3);
    ColumnFacts(61, 75, GridSize, d4);
    assert ColumnIn(columnB, 1, 15) && ColumnIn(columnI, 16, 30) && ColumnIn(columnN, 31, 45);
    assert ColumnIn(columnG, 46, 60) && ColumnIn(columnO, 61, 75);
    assert CardOf(e).0.grid == GridOf(columnB, columnI, columnN, columnG, columnO);
    GridOfValid(columnB, columnI, columnN, columnG, columnO);
  }

  /** generateBingoCard: five columns from the five ranges, laid out row by
      row with FREE in the centre, then a fresh id. */
  method GenerateBingoCard(e: Entropy) returns (card: Card, e': Entropy)
    ensures (card, e') == CardOf(e)
    ensures ValidCardGrid(card.grid)
  {
    var columnB, d1 := GenerateColumn(1, 15, GridSize, e.draws);
    var columnI, d2 := GenerateColumn(16, 30, GridSize, d1);
    var columnN, d3 := GenerateColumn(31, 45, GridSize, d2);
    var columnG, d4 := GenerateColumn(46, 60, GridSize, d3);
    var columnO, d5 := GenerateColumn(61, 75, GridSize, d4);
    var grid := LayOutGrid(columnB, columnI, columnN, columnG, columnO);
    var (id, rest) := NextId(e.(draws := d5));
    card := Card(id, grid);
    e' := rest;
    CardOfValid(e);
  }

  // ---------------------------------------------------------------------------
  // generateCardPool

  /** card.grid.flat(): the cells row after row. The source joins them with
      commas; no cell spelling contains a comma, so the joined string and the
      cell list determine each other. */
  function Signature(g: CardGrid): (s: seq<Cell>)
    ensures |s| == GridSize * GridSize
    ensures forall r, c :: InGrid(r, c) ==> s[GridSize * r + c] == g[r][c]
  {
    g[0] + g[1] + g[2] + g[3] + g[4]
  }

  /** Equal signatures mean equal grids. */
  lemma SignatureInjective(g1: CardGrid, g2: CardGrid)
    requires Signature(g1) == Signature(g2)
    ensures g1 == g2
  {
    forall r | 0 <= r < GridSize
      ensures g1[r] == g2[r]
    {
      forall c | 0 <= c < GridSize
        ensures g1[r][c] == g2[r][c]
      {
        assert Signature(g1)[GridSize * r + c] == Signature(g2)[GridSize * r + c];
      }
    }
  }

  predicate SignaturesDistinct(cards: seq<Card>)
  {
    forall i, j :: 0 <= i < j < |cards| ==> Signature(cards[i].grid) != Signature(cards[j].grid)
  }

  /** The signatures of the cards so far, in order. */
  function Signatures(cards: seq<Card>): (sigs: seq<seq<Cell>>)
    ensures |sigs| == |cards|
    ensures forall k :: 0 <= k < |cards| ==> sigs[k] == Signature(cards[k].grid)
  {
    seq(|cards|, k requires 0 <= k < |cards| => Signature(cards[k].grid))
  }

  lemma SignaturesSnoc(cards: seq<Card>, card: Card)
    ensures Signatures(cards + [card]) == Signatures(cards) + [Signature(card.grid)]
  {
    var next := cards + [card];
    assert forall k :: 0 <= k < |cards| ==> next[k] == cards[k];
  }

  /** The rest of generateCardPool's loop from the cards kept so far: draw a
      card, keep it unless its signature was seen, until `count` are kept. The
      model also stops once the draws are used up. */
  function PoolFrom(count: int, e: Entropy, cards: seq<Card>): (r: (seq<Card>, Entropy))
    decreases |e.draws|
  {
    if |cards| < count && e.draws != [] then
      var (card, e1) := CardOf(e);
      if Signature(card.grid) in Signatures(cards) then PoolFrom(count, e1, cards)
      else PoolFrom(count, e1, cards + [card])
    else (cards, e)
  }

  /** What generateCardPool returns for a given entropy. */
  function DrawnPool(count: int, e: Entropy): (seq<Card>, Entropy)
  {
    PoolFrom(count, e, [])
  }

  /** Cards of a pool so far: each well formed, no two with one signature. */
  predicate Drawn(cards: seq<Card>)
  {
    (forall k :: 0 <= k < |cards| ==> ValidCardGrid(cards[k].grid)) && SignaturesDistinct(cards)
  }

  /** Keeping a well-formed card whose signature is new keeps the pool drawn. */
  lemma KeepCard(cards: seq<Card>, card: Card)
    requires Drawn(cards) && ValidCardGrid(card.grid)
    requires Signature(card.grid) !in Signatures(cards)
    ensures Drawn(cards + [card])
  {
    var next := cards + [card];
    forall i, j | 0 <= i < j < |next|
      ensures Signature(next[i].grid) != Signature(next[j].grid)
    {
      if j == |cards| {
        assert Signatures(cards)[i] == Signature(next[i].grid);
      }
    }
  }

  /** One turn of generateCardPool's loop, as PoolFrom takes it. */
  lemma PoolFromStep(count: int, e: Entropy, cards: seq<Card>)
    requires |cards| < count && e.draws != []
    ensures PoolFrom(count, e, cards) ==
      if Signature(CardOf(e).0.grid) in Signatures(cards) then PoolFrom(count, CardOf(e).1, cards)
      else PoolFrom(count, CardOf(e).1, cards + [CardOf(e).0])
  {
  }

  /** The loop keeps its cards well formed and pairwise distinct, never keeps
      more than `count`, only adds cards, and falls short only when the draws
      ran out. */
  lemma {:induction false} PoolFromFacts(count: int, e: Entropy, cards: seq<Card>)
    requires Drawn(cards)
    requires |cards| <= count || cards == []
    ensures Drawn(PoolFrom(count, e, cards).0)
    ensures |PoolFrom(count, e, cards).0| <= count || PoolFrom(count, e, cards).0 == []
    ensures cards <= PoolFrom(count, e, cards).0
    ensures |PoolFrom(count, e, cards).0| < count ==> PoolFrom(count, e, cards).1.draws == []
    decreases |e.draws|
  {
    if |cards| < count && e.draws != [] {
      var (card, e1) := CardOf(e);
      PoolFromStep(count, e, cards);
      if Signature(card.grid) in Signatures(cards) {
        PoolFromFacts(count, e1, cards);
      } else {
        CardOfValid(e);
        KeepCard(cards, card);
        PoolFromFacts(count, e1, cards + [card]);
      }
    }
  }

  /** generateCardPool: draw cards until `count` have pairwise distinct
      signatures, skipping repeats. The model stops early once the draws are
      used up. */
  method GenerateCardPool(count: int, e: Entropy) returns (cards: seq<Card>, e': Entropy)
    ensures (cards, e') == DrawnPool(count, e)
    ensures forall k :: 0 <= k < |cards| ==> ValidCardGrid(cards[k].grid)
    ensures SignaturesDistinct(cards)
    ensures |cards| <= count || cards == []
    ensures |cards| < count ==> e'.draws == []
  {
    cards := [];
    var usedSignatures: set<seq<Cell>> := {};
    e' := e;
    ghost var target := DrawnPool(count, e);
    while |cards| < count && e'.draws != []
      invariant PoolFrom(count, e', cards) == target
      invariant forall sig :: sig in usedSignatures <==> sig in Signatures(cards)
      decreases |e'.draws|
    {
      PoolFromStep(count, e', cards);
      var card;
      card, e' := GenerateBingoCard(e');
      var signature := Signature(card.grid);
      if signature !in usedSignatures {
        usedSignatures := usedSignatures + {signature};
        SignaturesSnoc(cards, card);
        cards := cards + [card];
      }
    }
    PoolFromFacts(count, e, []);
  }

  /** The cards of a pool have pairwise different grids. */
  lemma PoolGridsDistinct(cards: seq<Card>)
    requires SignaturesDistinct(cards)
    ensures forall i, j :: 0 <= i < j < |cards| ==> cards[i].grid != cards[j].grid
  {
  }

  // ---------------------------------------------------------------------------
  // generateShuffledNumbers and createEmptyMarkedGrid

  /** 1, 2, ..., 75. */
  function AllNumbers(): seq<int>
  {
    Interval(1, TotalNumbers)
  }

  /** The sequence holds each of 1..75 exactly once. */
  predicate IsCallOrder(s: seq<int>)
  {
    multiset(s) == multiset(AllNumbers())
  }

  /** A call order has 75 entries, no repeats, and exactly the numbers 1..75. */
  lemma CallOrderFacts(s: seq<int>)
    requires IsCallOrder(s)
    ensures |s| == TotalNumbers
    ensures Distinct(s)
    ensures forall x :: x in s <==> 1 <= x <= TotalNumbers
  {
    IntervalFacts(1, TotalNumbers);
    assert |multiset(s)| == |multiset(AllNumbers())|;
    PermutationKeepsDistinct(AllNumbers(), s);
    PermutationKeepsMembers(AllNumbers(), s);
  }

  /** generateShuffledNumbers: 1..75 shuffled. */
  method GenerateShuffledNumbers(draws: seq<nat>) returns (numbers: seq<int>, rest: seq<nat>)
    ensures (numbers, rest) == Shuffled(AllNumbers(), draws)
    ensures IsCallOrder(numbers)
    ensures |rest| <= |draws|
  {
    numbers, rest := Shuffle(AllNumbers(), draws);
    ShuffledFacts(AllNumbers(), draws);
  }

  /** The starting marks: only the FREE centre. */
  function CentreMarked(): Marks
  {
    seq(5, r => seq(5, c => r == 2 && c == 2))
  }

  /** createEmptyMarkedGrid: built row by row, true only at the centre. */
  method CreateEmptyMarkedGrid() returns (g: Marks)
    ensures forall r, c :: InGrid(r, c) ==> (g[r][c] <==> r == 2 && c == 2)
    ensures g == CentreMarked()
  {
    var grid: seq<seq<bool>> := [];
    for row := 0 to GridSize
      invariant |grid| == row
      invariant forall r :: 0 <= r < row ==> grid[r] == CentreMarked()[r]
    {
      var line: seq<bool> := [];
      for col := 0 to GridSize
        invariant |line| == col
        invariant forall c :: 0 <= c < col ==> line[c] == (row == 2 && c == 2)
      {
        line := line + [row == 2 && col == 2];
      }
      grid := grid + [line];
    }
    g := grid;
  }
}
