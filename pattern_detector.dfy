/** The client's copy of the pattern checker (src/lib/utils/patternDetector.ts).
    It repeats the server's loops; every method here is proved to compute the
    same specification predicate or function as the server's checker, so the
    browser and the room can never disagree about a pattern. */
module PatternDetector {
  import opened BingoTypes
  import opened PatternValidator

  /** checkExactPattern: every cell of the pattern grid must be marked. */
  method CheckExactPattern(m: Marks, patternGrid: Marks) returns (b: bool)
    ensures b == Covers(m, patternGrid)
  {
    for row := 0 to GridSize
      invariant forall r, c :: 0 <= r < row && 0 <= c < GridSize && patternGrid[r][c] ==> m[r][c]
    {
      for col := 0 to GridSize
        invariant forall r, c ::
          ((0 <= r < row && 0 <= c < GridSize) || (r == row && 0 <= c < col)) && patternGrid[r][c] ==> m[r][c]
      {
        if patternGrid[row][col] && !m[row][col] {
          return false;
        }
      }
    }
    return true;
  }

  /** checkAnyHorizontalLine: `row.every(cell => cell)` for some row. */
  method CheckAnyHorizontalLine(m: Marks) returns (b: bool)
    ensures b == HasFullRow(m)
  {
    for row := 0 to GridSize
      invariant forall r :: 0 <= r < row ==> !RowFull(m, r)
    {
      if forall c :: 0 <= c < GridSize ==> m[row][c] {
        assert RowFull(m, row);
        return true;
      }
    }
    return false;
  }

  /** checkAnyVerticalLine: some column is marked top to bottom. */
  method CheckAnyVerticalLine(m: Marks) returns (b: bool)
    ensures b == HasFullCol(m)
  {
    for col := 0 to GridSize
      invariant forall c :: 0 <= c < col ==> !ColFull(m, c)
    {
      var complete := true;
      for row := 0 to GridSize
        invariant complete <==> forall r :: 0 <= r < row ==> m[r][col]
      {
        if !m[row][col] {
          complete := false;
          break;
        }
      }
      if complete {
        assert ColFull(m, col);
        return true;
      }
    }
    return false;
  }

  /** checkAnyDiagonal: the main diagonal, else the anti-diagonal. */
  method CheckAnyDiagonal(m: Marks) returns (b: bool)
    ensures b == HasDiagonal(m)
  {
    var diagonal1 := true;
    for i := 0 to GridSize
      invariant diagonal1 <==> forall k :: 0 <= k < i ==> m[k][k]
    {
      if !m[i][i] {
        diagonal1 := false;
        break;
      }
    }
    if diagonal1 {
      return true;
    }
    var diagonal2 := true;
    for i := 0 to GridSize
      invariant diagonal2 <==> forall k :: 0 <= k < i ==> m[k][GridSize - 1 - k]
    {
      if !m[i][GridSize - 1 - i] {
        diagonal2 := false;
        break;
      }
    }
    return diagonal2;
  }

  /** checkAnyLine: rows, then columns, then diagonals, stopping at the first hit. */
  method CheckAnyLine(m: Marks) returns (b: bool)
    ensures b == HasLine(m)
  {
    b := CheckAnyHorizontalLine(m);
    if !b {
      b := CheckAnyVerticalLine(m);
    }
    if !b {
      b := CheckAnyDiagonal(m);
    }
  }

  /** checkPostageStamp: the four corner blocks, each scanned by two nested
      loops that stop at the first unmarked cell. */
  method CheckPostageStamp(m: Marks) returns (b: bool)
    ensures b == HasStamp(m)
  {
    var corners := StampCorners;
    for k := 0 to |corners|
      invariant forall j :: 0 <= j < k ==> !StampAt(m, j)
    {
      var (startRow, startCol) := corners[k];
      var complete := true;
      for row := startRow to startRow + 2
        invariant complete <==> forall r, c :: startRow <= r < row && startCol <= c < startCol + 2 ==> m[r][c]
      {
        for col := startCol to startCol + 2
          invariant complete <==>
            (forall r, c :: startRow <= r < row && startCol <= c < startCol + 2 ==> m[r][c]) &&
            (forall c :: startCol <= c < col ==> m[row][c])
        {
          if !m[row][col] {
            complete := false;
            break;
          }
        }
        if !complete {
          break;
        }
      }
      if complete {
        assert StampFull(m, startRow, startCol);
        assert StampAt(m, k);
        return true;
      }
      assert !StampFull(m, startRow, startCol);
    }
    return false;
  }

  /** checkPatternMatch: the same dispatch on the pattern id as the server. */
  method CheckPatternMatch(m: Marks, p: Pattern) returns (b: bool)
    ensures b == Matches(m, p)
  {
    match p.id
    case "horizontal-line" => b := CheckAnyHorizontalLine(m);
    case "vertical-line" => b := CheckAnyVerticalLine(m);
    case "diagonal" => b := CheckAnyDiagonal(m);
    case "any-line" => b := CheckAnyLine(m);
    case "postage-stamp" => b := CheckPostageStamp(m);
    case _ => b := CheckExactPattern(m, p.grid);
  }

  /** getWinningCells: the client's text differs from the server's only in
      comments, so the board is filled by the same per-rule steps. */
  method GetWinningCells(m: Marks, p: Pattern) returns (cells: Marks)
    ensures cells == WinningCells(m, p)
  {
    var w := new bool[GridSize, GridSize]((r, c) => false);
    ghost var expected := WinningCells(m, p);
    if p.id == "horizontal-line" {
      assert RuleOf(p.id) == RowRule;
      WinRow(m, w);
      assert BoardIs(w, expected);
    } else if p.id == "vertical-line" {
      assert RuleOf(p.id) == ColumnRule;
      WinCol(m, w);
      assert BoardIs(w, expected);
    } else if p.id == "diagonal" || p.id == "any-line" {
      assert RuleOf(p.id) == DiagonalRule || RuleOf(p.id) == LineRule;
      WinLine(m, w);
      assert BoardIs(w, expected);
    } else if p.id == "postage-stamp" {
      assert RuleOf(p.id) == StampRule;
      WinStamp(m, w);
      assert BoardIs(w, expected);
    } else {
      assert RuleOf(p.id) == GridRule;
      WinGrid(p.grid, w);
      assert BoardIs(w, expected);
    }
    cells := Snapshot(w);
    GridEq(cells, expected);
  }

  /** validateMarkedCells, which on the client takes the bare card grid: FREE
      cells are skipped, any other marked cell must hold a called number. */
  method ValidateMarkedCells(cardGrid: CardGrid, m: Marks, calledNumbers: seq<int>) returns (ok: bool)
    ensures ok == MarksLegal(cardGrid, m, calledNumbers)
  {
    var calledSet := set x | x in calledNumbers;
    for row := 0 to GridSize
      invariant forall r, c :: 0 <= r < row && 0 <= c < GridSize && m[r][c] && cardGrid[r][c].Num? ==>
        cardGrid[r][c].n in calledNumbers
    {
      for col := 0 to GridSize
        invariant forall r, c ::
          ((0 <= r < row && 0 <= c < GridSize) || (r == row && 0 <= c < col)) && m[r][c] && cardGrid[r][c].Num? ==>
          cardGrid[r][c].n in calledNumbers
      {
        var cellValue := cardGrid[row][col];
        var isMarked := m[row][col];
        if cellValue == Free {
          continue;
        }
        if isMarked && cellValue.n !in calledSet {
          return false;
        }
      }
    }
    return true;
  }
}
