/** The server's pattern matcher (party/patternValidator.ts): does a marked
    5x5 grid complete the current pattern, which cells make up the win, and
    are all marked numbers really called. The specification predicates come
    first; the methods follow the source's loops and are proved equal to them. */
module PatternValidator {
  import opened BingoTypes

  // ---------------------------------------------------------------------------
  // What it means to complete a pattern

  predicate RowFull(m: Marks, r: int)
    requires 0 <= r < GridSize
  {
    forall c :: 0 <= c < GridSize ==> m[r][c]
  }

  predicate ColFull(m: Marks, c: int)
    requires 0 <= c < GridSize
  {
    forall r :: 0 <= r < GridSize ==> m[r][c]
  }

  /** Top-left to bottom-right. */
  predicate DiagFull(m: Marks)
  {
    forall i :: 0 <= i < GridSize ==> m[i][i]
  }

  /** Top-right to bottom-left. */
  predicate AntiDiagFull(m: Marks)
  {
    forall i :: 0 <= i < GridSize ==> m[i][GridSize - 1 - i]
  }

  /** The 2x2 block whose top-left cell is (r0, c0) lies on the card and is marked. */
  predicate StampFull(m: Marks, r0: int, c0: int)
  {
    forall r, c :: r0 <= r < r0 + 2 && c0 <= c < c0 + 2 ==> InGrid(r, c) && m[r][c]
  }

  /** The anchors of the four corner stamps, in the order they are tried. */
  const StampCorners: seq<(int, int)> := [(0, 0), (0, 3), (3, 0), (3, 3)]

  predicate StampAt(m: Marks, k: int)
    requires 0 <= k < |StampCorners|
  {
    StampFull(m, StampCorners[k].0, StampCorners[k].1)
  }

  predicate HasFullRow(m: Marks)
  {
    exists r :: 0 <= r < GridSize && RowFull(m, r)
  }

  predicate HasFullCol(m: Marks)
  {
    exists c :: 0 <= c < GridSize && ColFull(m, c)
  }

  predicate HasDiagonal(m: Marks)
  {
    DiagFull(m) || AntiDiagFull(m)
  }

  predicate HasLine(m: Marks)
  {
    HasFullRow(m) || HasFullCol(m) || HasDiagonal(m)
  }

  predicate HasStamp(m: Marks)
  {
    exists k :: 0 <= k < |StampCorners| && StampAt(m, k)
  }

  /** Every cell the pattern grid asks for is marked; other marks do not matter. */
  predicate Covers(m: Marks, patternGrid: Marks)
  {
    forall r, c :: 0 <= r < GridSize && 0 <= c < GridSize && patternGrid[r][c] ==> m[r][c]
  }

  /** How a pattern id is judged: five ids name a family of shapes, any other
      id is judged by the pattern's own grid. */
  datatype Rule = RowRule | ColumnRule | DiagonalRule | LineRule | StampRule | GridRule

  function RuleOf(id: string): Rule
  {
    if id == "horizontal-line" then RowRule
    else if id == "vertical-line" then ColumnRule
    else if id == "diagonal" then DiagonalRule
    else if id == "any-line" then LineRule
    else if id == "postage-stamp" then StampRule
    else GridRule
  }

  /** The marked grid completes the pattern. */
  predicate Matches(m: Marks, p: Pattern)
  {
    match RuleOf(p.id)
    case RowRule => HasFullRow(m)
    case ColumnRule => HasFullCol(m)
    case DiagonalRule => HasDiagonal(m)
    case LineRule => HasLine(m)
    case StampRule => HasStamp(m)
    case GridRule => Covers(m, p.grid)
  }

  predicate SubGrid(m: Marks, m': Marks)
  {
    forall r, c :: 0 <= r < GridSize && 0 <= c < GridSize && m[r][c] ==> m'[r][c]
  }

  /** Marking more cells never undoes a completed pattern. */
  lemma MatchesMonotone(m: Marks, m': Marks, p: Pattern)
    requires Matches(m, p) && SubGrid(m, m')
    ensures Matches(m', p)
  {
    match RuleOf(p.id)
    case RowRule =>
      var r :| 0 <= r < GridSize && RowFull(m, r);
      assert RowFull(m', r);
    case ColumnRule =>
      var c :| 0 <= c < GridSize && ColFull(m, c);
      assert ColFull(m', c);
    case DiagonalRule =>
    case LineRule =>
      if HasFullRow(m) {
        var r :| 0 <= r < GridSize && RowFull(m, r);
        assert RowFull(m', r);
      } else if HasFullCol(m) {
        var c :| 0 <= c < GridSize && ColFull(m, c);
        assert ColFull(m', c);
      }
    case StampRule =>
      var k :| 0 <= k < |StampCorners| && StampAt(m, k);
      assert StampAt(m', k);
    case GridRule =>
  }

  /** The postage stamp, cell by cell: one of the four corner 2x2 blocks. */
  lemma PostageStampCorners(m: Marks)
    ensures HasStamp(m) <==>
      (m[0][0] && m[0][1] && m[1][0] && m[1][1]) ||
      (m[0][3] && m[0][4] && m[1][3] && m[1][4]) ||
      (m[3][0] && m[3][1] && m[4][0] && m[4][1]) ||
      (m[3][3] && m[3][4] && m[4][3] && m[4][4])
  {
    if HasStamp(m) {
      var k :| 0 <= k < |StampCorners| && StampAt(m, k);
      var (r0, c0) := StampCorners[k];
      assert m[r0][c0] && m[r0][c0 + 1] && m[r0 + 1][c0] && m[r0 + 1][c0 + 1];
    } else {
      assert !StampAt(m, 0) && !StampAt(m, 1) && !StampAt(m, 2) && !StampAt(m, 3);
    }
  }

  // ---------------------------------------------------------------------------
  // The checkers, as the source loops over the grid

  /** checkExactPattern: every cell of the pattern grid must be marked. */
  method CheckExactPattern(m: Marks, patternGrid: Marks) returns (b: bool)
    ensures b == Covers(m, patternGrid)
  {
    for row := 0 to GridSize
      invariant forall r, c :: 0 <= r < row && 0 <= c < GridSize && patternGrid[r][c] ==> m[r][c]
    {
      for col := 0 to GridSize
        invariant forall r, c ::
          ((0 <= r < row && 0 <= c < GridSize) || (r == row && 0 <= c < col)) && patternGrid[r][c] ==> m[r][c]
      {
        if patternGrid[row][col] && !m[row][col] {
          return false;
        }
      }
    }
    return true;
  }

  /** checkAnyHorizontalLine: some row is marked end to end. */
  method CheckAnyHorizontalLine(m: Marks) returns (b: bool)
    ensures b == HasFullRow(m)
  {
    for row := 0 to GridSize
      invariant forall r :: 0 <= r < row ==> !RowFull(m, r)
    {
      if forall c :: 0 <= c < GridSize ==> m[row][c] {
        assert RowFull(m, row);
        return true;
      }
    }
    return false;
  }

  /** checkAnyVerticalLine: some column is marked top to bottom. */
  method CheckAnyVerticalLine(m: Marks) returns (b: bool)
    ensures b == HasFullCol(m)
  {
    for col := 0 to GridSize
      invariant forall c :: 0 <= c < col ==> !ColFull(m, c)
    {
      var complete := true;
      for row := 0 to GridSize
        invariant complete <==> forall r :: 0 <= r < row ==> m[r][col]
      {
        if !m[row][col] {
          complete := false;
          break;
        }
      }
      if complete {
        assert ColFull(m, col);
        return true;
      }
    }
    return false;
  }

  /** checkAnyDiagonal: the main diagonal, else the anti-diagonal. */
  method CheckAnyDiagonal(m: Marks) returns (b: bool)
    ensures b == HasDiagonal(m)
  {
    var diagonal1 := true;
    for i := 0 to GridSize
      invariant diagonal1 <==> forall k :: 0 <= k < i ==> m[k][k]
    {
      if !m[i][i] {
        diagonal1 := false;
        break;
      }
    }
    if diagonal1 {
      return true;
    }
    var diagonal2 := true;
    for i := 0 to GridSize
      invariant diagonal2 <==> forall k :: 0 <= k < i ==> m[k][GridSize - 1 - k]
    {
      if !m[i][GridSize - 1 - i] {
        diagonal2 := false;
        break;
      }
    }
    return diagonal2;
  }

  /** checkAnyLine: a full row, a full column or a full diagonal. */
  method CheckAnyLine(m: Marks) returns (b: bool)
    ensures b == HasLine(m)
  {
    b := CheckAnyHorizontalLine(m);
    if b {
      return;
    }
    b := CheckAnyVerticalLine(m);
    if b {
      return;
    }
    b := CheckAnyDiagonal(m);
  }

  /** The inner loops of checkPostageStamp: is the 2x2 block at (startRow,
      startCol) fully marked. */
  method StampComplete(m: Marks, startRow: int, startCol: int) returns (complete: bool)
    requires 0 <= startRow <= GridSize - 2 && 0 <= startCol <= GridSize - 2
    ensures complete == StampFull(m, startRow, startCol)
  {
    complete := true;
    for row := startRow to startRow + 2
      invariant complete <==> forall r, c :: startRow <= r < row && startCol <= c < startCol + 2 ==> m[r][c]
    {
      for col := startCol to startCol + 2
        invariant complete <==>
          (forall r, c :: startRow <= r < row && startCol <= c < startCol + 2 ==> m[r][c]) &&
          (forall c :: startCol <= c < col ==> m[row][c])
      {
        if !m[row][col] {
          complete := false;
          break;
        }
      }
      if !complete {
        break;
      }
    }
  }

  /** checkPostageStamp: the corner blocks in the order of StampCorners. */
  method CheckPostageStamp(m: Marks) returns (b: bool)
    ensures b == HasStamp(m)
  {
    for k := 0 to |StampCorners|
      invariant forall j :: 0 <= j < k ==> !StampAt(m, j)
    {
      var (startRow, startCol) := StampCorners[k];
      var complete := StampComplete(m, startRow, startCol);
      if complete {
        assert StampAt(m, k);
        return true;
      }
    }
    return false;
  }

  /** checkPatternMatch: dispatch on the pattern id. */
  method CheckPatternMatch(m: Marks, p: Pattern) returns (b: bool)
    ensures b == Matches(m, p)
  {
    if p.id == "horizontal-line" {
      b := CheckAnyHorizontalLine(m);
    } else if p.id == "vertical-line" {
      b := CheckAnyVerticalLine(m);
    } else if p.id == "diagonal" {
      b := CheckAnyDiagonal(m);
    } else if p.id == "any-line" {
      b := CheckAnyLine(m);
    } else if p.id == "postage-stamp" {
      b := CheckPostageStamp(m);
    } else {
      b := CheckExactPattern(m, p.grid);
    }
  }

  // ---------------------------------------------------------------------------
  // Anti-cheat: marks against called numbers

  /** Every marked cell holding a number holds a called number. */
  predicate MarksLegal(g: CardGrid, m: Marks, called: seq<int>)
  {
    forall r, c :: 0 <= r < GridSize && 0 <= c < GridSize && m[r][c] && g[r][c].Num? ==> g[r][c].n in called
  }

  /** validateMarkedCells: FREE cells are skipped, any other marked cell must
      hold a called number. */
  method ValidateMarkedCells(card: Card, m: Marks, called: seq<int>) returns (ok: bool)
    ensures ok == MarksLegal(card.grid, m, called)
  {
    var calledSet := set x | x in called;
    for row := 0 to GridSize
      invariant forall r, c :: 0 <= r < row && 0 <= c < GridSize && m[r][c] && card.grid[r][c].Num? ==>
        card.grid[r][c].n in called
    {
      for col := 0 to GridSize
        invariant forall r, c ::
          ((0 <= r < row && 0 <= c < GridSize) || (r == row && 0 <= c < col)) && m[r][c] && card.grid[r][c].Num? ==>
          card.grid[r][c].n in called
      {
        var cellValue := card.grid[row][col];
        var isMarked := m[row][col];
        if cellValue == Free {
          continue;
        }
        if isMarked && cellValue.n !in calledSet {
          return false;
        }
      }
    }
    return true;
  }

  /** Marks on FREE cells never decide the check: two grids that differ only
      at FREE cells are judged alike. */
  lemma FreeMarksIrrelevant(g: CardGrid, m: Marks, m': Marks, called: seq<int>)
    requires forall r, c :: InGrid(r, c) && g[r][c].Num? ==> m[r][c] == m'[r][c]
    ensures MarksLegal(g, m, called) <==> MarksLegal(g, m', called)
  {
    if MarksLegal(g, m, called) {
      forall r, c | InGrid(r, c) && m'[r][c] && g[r][c].Num?
        ensures g[r][c].n in called
      {
        assert m[r][c];
      }
    }
    if MarksLegal(g, m', called) {
      forall r, c | InGrid(r, c) && m[r][c] && g[r][c].Num?
        ensures g[r][c].n in called
      {
        assert m'[r][c];
      }
    }
  }

  /** Calling more numbers never makes legal marks illegal. */
  lemma MarksLegalMonotone(g: CardGrid, m: Marks, called: seq<int>, called': seq<int>)
    requires MarksLegal(g, m, called)
    requires forall x :: x in called ==> x in called'
    ensures MarksLegal(g, m, called')
  {
    forall r, c | InGrid(r, c) && m[r][c] && g[r][c].Num?
      ensures g[r][c].n in called'
    {
      assert g[r][c].n in called;
    }
  }

  // ---------------------------------------------------------------------------
  // Winning cells

  function RowMask(row: int): Marks
  {
    seq(5, r => seq(5, c => r == row))
  }

  function ColMask(col: int): Marks
  {
    seq(5, r => seq(5, c => c == col))
  }

  function DiagMask(): Marks
  {
    seq(5, r => seq(5, c => r == c))
  }

  function AntiDiagMask(): Marks
  {
    seq(5, r => seq(5, c => c == GridSize - 1 - r))
  }

  function StampMask(r0: int, c0: int): (g: Marks)
    ensures forall r, c :: InGrid(r, c) ==> g[r][c] == (r0 <= r < r0 + 2 && c0 <= c < c0 + 2)
  {
    seq(5, r => seq(5, c => r0 <= r < r0 + 2 && c0 <= c < c0 + 2))
  }

  function NoCells(): Marks
  {
    seq(5, r => seq(5, c => false))
  }

  /** The first full row at or after `from`. */
  function FirstFullRow(m: Marks, from: int): (r: Option<int>)
    requires 0 <= from <= GridSize
    ensures r.Some? ==> (from <= r.value < GridSize && RowFull(m, r.value) &&
      forall k :: from <= k < r.value ==> !RowFull(m, k))
    ensures r.None? ==> forall k :: from <= k < GridSize ==> !RowFull(m, k)
    decreases GridSize - from
  {
    if from == GridSize then None
    else if RowFull(m, from) then Some(from)
    else FirstFullRow(m, from + 1)
  }

  /** The first full column at or after `from`. */
  function FirstFullCol(m: Marks, from: int): (c: Option<int>)
    requires 0 <= from <= GridSize
    ensures c.Some? ==> (from <= c.value < GridSize && ColFull(m, c.value) &&
      forall k :: from <= k < c.value ==> !ColFull(m, k))
    ensures c.None? ==> forall k :: from <= k < GridSize ==> !ColFull(m, k)
    decreases GridSize - from
  {
    if from == GridSize then None
    else if ColFull(m, from) then Some(from)
    else FirstFullCol(m, from + 1)
  }

  /** The first complete corner stamp at or after position `from` of StampCorners. */
  function FirstStamp(m: Marks, from: int): (k: Option<int>)
    requires 0 <= from <= |StampCorners|
    ensures k.Some? ==> (from <= k.value < |StampCorners| && StampAt(m, k.value) &&
      forall j :: from <= j < k.value ==> !StampAt(m, j))
    ensures k.None? ==> forall j :: from <= j < |StampCorners| ==> !StampAt(m, j)
    decreases |StampCorners| - from
  {
    if from == |StampCorners| then None
    else if StampAt(m, from) then Some(from)
    else FirstStamp(m, from + 1)
  }

  /** The first complete corner stamp, or no cells. */
  function StampCells(m: Marks): Marks
  {
    match FirstStamp(m, 0)
    case Some(k) => StampMask(StampCorners[k].0, StampCorners[k].1)
    case None => NoCells()
  }

  /** The cells getWinningCells reports. */
  function WinningCells(m: Marks, p: Pattern): Marks
  {
    match RuleOf(p.id)
    case RowRule =>
      (match FirstFullRow(m, 0) case Some(r) => RowMask(r) case None => NoCells())
    case ColumnRule =>
      (match FirstFullCol(m, 0) case Some(c) => ColMask(c) case None => NoCells())
    case StampRule => StampCells(m)
    case GridRule => p.grid
    case _ =>
      if FirstFullRow(m, 0).Some? then RowMask(FirstFullRow(m, 0).value)
      else if FirstFullCol(m, 0).Some? then ColMask(FirstFullCol(m, 0).value)
      else if DiagFull(m) then DiagMask()
      else AntiDiagMask()
  }

  /** When the pattern is complete, every reported winning cell is marked. */
  lemma WinningCellsMarked(m: Marks, p: Pattern)
    requires Matches(m, p)
    ensures SubGrid(WinningCells(m, p), m)
  {
    var w := WinningCells(m, p);
    match RuleOf(p.id)
    case RowRule =>
    case ColumnRule =>
    case StampRule =>
      var k := FirstStamp(m, 0).value;
      assert StampAt(m, k);
    case GridRule =>
    case _ =>
      if FirstFullRow(m, 0).None? && FirstFullCol(m, 0).None? && !DiagFull(m) {
        assert !HasFullRow(m) && !HasFullCol(m);
        assert AntiDiagFull(m);
      }
  }

  /** For the line and stamp families a completed pattern reports at least one cell. */
  lemma WinningCellsNonEmpty(m: Marks, p: Pattern)
    requires Matches(m, p) && RuleOf(p.id) != GridRule
    ensures exists r, c :: InGrid(r, c) && WinningCells(m, p)[r][c]
  {
    var w := WinningCells(m, p);
    match RuleOf(p.id)
    case RowRule =>
      var r :| 0 <= r < GridSize && RowFull(m, r);
      var f := FirstFullRow(m, 0).value;
      assert w[f][0];
    case ColumnRule =>
      var c :| 0 <= c < GridSize && ColFull(m, c);
      var f := FirstFullCol(m, 0).value;
      assert w[0][f];
    case StampRule =>
      var k :| 0 <= k < |StampCorners| && StampAt(m, k);
      var f := FirstStamp(m, 0).value;
      assert w[StampCorners[f].0][StampCorners[f].1];
    case DiagonalRule => WinningLineCell(m, w);
    case LineRule => WinningLineCell(m, w);
    case GridRule =>
  }

  lemma WinningLineCell(m: Marks, w: Marks)
    requires w == if FirstFullRow(m, 0).Some? then RowMask(FirstFullRow(m, 0).value)
      else if FirstFullCol(m, 0).Some? then ColMask(FirstFullCol(m, 0).value)
      else if DiagFull(m) then DiagMask()
      else AntiDiagMask()
    ensures exists r, c :: InGrid(r, c) && w[r][c]
  {
    if FirstFullRow(m, 0).Some? {
      assert w[FirstFullRow(m, 0).value][0];
    } else if FirstFullCol(m, 0).Some? {
      assert w[0][FirstFullCol(m, 0).value];
    } else if DiagFull(m) {
      assert w[0][0];
    } else {
      assert w[0][4];
    }
  }

  /** Two 5x5 grids with the same cells are equal. */
  lemma GridEq(a: Marks, b: Marks)
    requires forall r, c :: InGrid(r, c) ==> a[r][c] == b[r][c]
    ensures a == b
  {
    forall r | 0 <= r < GridSize
      ensures a[r] == b[r]
    {
    }
  }

  predicate IsBoard(w: array2<bool>)
  {
    w.Length0 == GridSize && w.Length1 == GridSize
  }

  /** The board's cells as a 5x5 grid. */
  function Snapshot(w: array2<bool>): (g: Marks)
    reads w
    requires IsBoard(w)
    ensures forall r, c :: InGrid(r, c) ==> g[r][c] == w[r, c]
  {
    seq(5, r requires 0 <= r < 5 reads w => seq(5, c requires 0 <= c < 5 reads w => w[r, c]))
  }

  ghost predicate BoardIs(w: array2<bool>, g: Marks)
    reads w
    requires IsBoard(w)
  {
    forall r, c :: InGrid(r, c) ==> w[r, c] == g[r][c]
  }

  /** Sets one row of the board (the inner `for col` of the row cases). */
  method FillRow(w: array2<bool>, row: int)
    requires IsBoard(w) && 0 <= row < GridSize
    modifies w
    ensures forall r, c :: InGrid(r, c) ==> w[r, c] == (old(w[r, c]) || r == row)
  {
    for col := 0 to GridSize
      invariant forall r, c :: InGrid(r, c) ==> w[r, c] == (old(w[r, c]) || (r == row && c < col))
    {
      w[row, col] := true;
    }
  }

  /** Sets one column of the board. */
  method FillCol(w: array2<bool>, col: int)
    requires IsBoard(w) && 0 <= col < GridSize
    modifies w
    ensures forall r, c :: InGrid(r, c) ==> w[r, c] == (old(w[r, c]) || c == col)
  {
    for row := 0 to GridSize
      invariant forall r, c :: InGrid(r, c) ==> w[r, c] == (old(w[r, c]) || (c == col && r < row))
    {
      w[row, col] := true;
    }
  }

  /** Sets the 2x2 block anchored at (r0, c0). */
  method FillStamp(w: array2<bool>, r0: int, c0: int)
    requires IsBoard(w) && 0 <= r0 <= GridSize - 2 && 0 <= c0 <= GridSize - 2
    modifies w
    ensures forall r, c :: InGrid(r, c) ==> w[r, c] == (old(w[r, c]) || (r0 <= r < r0 + 2 && c0 <= c < c0 + 2))
  {
    for row := r0 to r0 + 2
      invariant forall r, c :: InGrid(r, c) ==>
        w[r, c] == (old(w[r, c]) || (r0 <= r < row && c0 <= c < c0 + 2))
    {
      for col := c0 to c0 + 2
        invariant forall r, c :: InGrid(r, c) ==>
          w[r, c] == (old(w[r, c]) || (r0 <= r < row && c0 <= c < c0 + 2) || (r == row && c0 <= c < col))
      {
        w[row, col] := true;
      }
    }
  }

  /** The horizontal-line case: the first full row, or nothing. */
  method WinRow(m: Marks, w: array2<bool>)
    requires IsBoard(w) && BoardIs(w, NoCells())
    modifies w
    ensures BoardIs(w, match FirstFullRow(m, 0) case Some(r) => RowMask(r) case None => NoCells())
  {
    for row := 0 to GridSize
      invariant BoardIs(w, NoCells())
      invariant FirstFullRow(m, 0) == FirstFullRow(m, row)
    {
      if forall c :: 0 <= c < GridSize ==> m[row][c] {
        FillRow(w, row);
        return;
      }
    }
  }

  /** The vertical-line case: the first full column, or nothing. */
  method WinCol(m: Marks, w: array2<bool>)
    requires IsBoard(w) && BoardIs(w, NoCells())
    modifies w
    ensures BoardIs(w, match FirstFullCol(m, 0) case Some(c) => ColMask(c) case None => NoCells())
  {
    for col := 0 to GridSize
      invariant BoardIs(w, NoCells())
      invariant FirstFullCol(m, 0) == FirstFullCol(m, col)
    {
      var complete := true;
      for row := 0 to GridSize
        invariant complete <==> forall r :: 0 <= r < row ==> m[r][col]
      {
        if !m[row][col] {
          complete := false;
          break;
        }
      }
      if complete {
        FillCol(w, col);
        return;
      }
    }
  }

  /** The diagonal and any-line case: first full row, else first full column,
      else the main diagonal when it is complete, else the anti-diagonal. */
  method WinLine(m: Marks, w: array2<bool>)
    requires IsBoard(w) && BoardIs(w, NoCells())
    modifies w
    ensures BoardIs(w,
      if FirstFullRow(m, 0).Some? then RowMask(FirstFullRow(m, 0).value)
      else if FirstFullCol(m, 0).Some? then ColMask(FirstFullCol(m, 0).value)
      else if DiagFull(m) then DiagMask()
      else AntiDiagMask())
  {
    for row := 0 to GridSize
      invariant BoardIs(w, NoCells())
      invariant FirstFullRow(m, 0) == FirstFullRow(m, row)
    {
      if forall c :: 0 <= c < GridSize ==> m[row][c] {
        FillRow(w, row);
        return;
      }
    }
    for col := 0 to GridSize
      invariant BoardIs(w, NoCells())
      invariant FirstFullCol(m, 0) == FirstFullCol(m, col)
    {
      var complete := true;
      for row := 0 to GridSize
        invariant complete <==> forall r :: 0 <= r < row ==> m[r][col]
      {
        if !m[row][col] {
          complete := false;
          break;
        }
      }
      if complete {
        FillCol(w, col);
        return;
      }
    }
    var d1 := true;
    for i := 0 to GridSize
      invariant d1 <==> forall k :: 0 <= k < i ==> m[k][k]
    {
      if !m[i][i] {
        d1 := false;
      }
    }
    if d1 {
      for i := 0 to GridSize
        invariant forall r, c :: InGrid(r, c) ==> w[r, c] == (r == c && r < i)
      {
        w[i, i] := true;
      }
      return;
    }
    for i := 0 to GridSize
      invariant forall r, c :: InGrid(r, c) ==> w[r, c] == (c == GridSize - 1 - r && r < i)
    {
      w[i, GridSize - 1 - i] := true;
    }
  }

  /** The postage-stamp case: the first complete corner block, or nothing. */
  method WinStamp(m: Marks, w: array2<bool>)
    requires IsBoard(w) && BoardIs(w, NoCells())
    modifies w
    ensures BoardIs(w, StampCells(m))
  {
    for k := 0 to |StampCorners|
      invariant BoardIs(w, NoCells())
      invariant FirstStamp(m, 0) == FirstStamp(m, k)
    {
      var (startRow, startCol) := StampCorners[k];
      var complete := StampComplete(m, startRow, startCol);
      if complete {
        assert StampAt(m, k);
        assert StampCells(m) == StampMask(startRow, startCol);
        FillStamp(w, startRow, startCol);
        return;
      }
    }
  }

  /** The default case: copy the pattern's own cells. */
  method WinGrid(patternGrid: Marks, w: array2<bool>)
    requires IsBoard(w) && BoardIs(w, NoCells())
    modifies w
    ensures BoardIs(w, patternGrid)
  {
    for row := 0 to GridSize
      invariant forall r, c :: InGrid(r, c) ==> w[r, c] == (r < row && patternGrid[r][c])
    {
      for col := 0 to GridSize
        invariant forall r, c :: InGrid(r, c) ==>
          w[r, c] == ((r < row && patternGrid[r][c]) || (r == row && c < col && patternGrid[r][c]))
      {
        if patternGrid[row][col] {
          w[row, col] := true;
        }
      }
    }
  }

  /** getWinningCells: allocates an all-false 5x5 board and fills it by the
      pattern's rule. */
  method GetWinningCells(m: Marks, p: Pattern) returns (cells: Marks)
    ensures cells == WinningCells(m, p)
  {
    var w := new bool[GridSize, GridSize]((r, c) => false);
    ghost var expected := WinningCells(m, p);
    if p.id == "horizontal-line" {
      assert RuleOf(p.id) == RowRule;
      WinRow(m, w);
      assert BoardIs(w, expected);
    } else if p.id == "vertical-line" {
      assert RuleOf(p.id) == ColumnRule;
      WinCol(m, w);
      assert BoardIs(w, expected);
    } else if p.id == "diagonal" || p.id == "any-line" {
      assert RuleOf(p.id) == DiagonalRule || RuleOf(p.id) == LineRule;
      WinLine(m, w);
      assert BoardIs(w, expected);
    } else if p.id == "postage-stamp" {
      assert RuleOf(p.id) == StampRule;
      WinStamp(m, w);
      assert BoardIs(w, expected);
    } else {
      assert RuleOf(p.id) == GridRule;
      WinGrid(p.grid, w);
      assert BoardIs(w, expected);
    }
    cells := Snapshot(w);
    GridEq(cells, expected);
  }
}
