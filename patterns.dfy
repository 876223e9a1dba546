/** The preset win patterns and the grid builders they are made from
    (shared/patterns.ts). */
module Patterns {
  import opened BingoTypes

  /** A 5x5 grid with every cell false (emptyGrid). */
  function EmptyGrid(): Marks
  {
    seq(5, r => seq(5, c => false))
  }

  /** The grid setPattern leaves behind: true exactly at the listed cells. */
  function CellsGrid(cells: seq<(int, int)>): Marks
  {
    seq(5, r => seq(5, c => (r, c) in cells))
  }

  /** setPattern: starts from an empty grid and sets each listed cell in turn. */
  method SetPattern(cells: seq<(int, int)>) returns (g: Marks)
    requires forall k :: 0 <= k < |cells| ==> InGrid(cells[k].0, cells[k].1)
    ensures forall r, c :: InGrid(r, c) ==> (g[r][c] <==> (r, c) in cells)
    ensures g == CellsGrid(cells)
  {
    g := EmptyGrid();
    for k := 0 to |cells|
      invariant forall r, c :: InGrid(r, c) ==> (g[r][c] <==> (r, c) in cells[..k])
    {
      var (row, col) := cells[k];
      g := g[row := g[row][col := true]];
      assert cells[..k + 1] == cells[..k] + [cells[k]];
    }
    assert cells[..|cells|] == cells;
    forall r | 0 <= r < 5
      ensures g[r] == CellsGrid(cells)[r]
    {
    }
  }

  function HorizontalLine(row: int): Marks
    requires 0 <= row < GridSize
  {
    CellsGrid([(row, 0), (row, 1), (row, 2), (row, 3), (row, 4)])
  }

  function VerticalLine(col: int): Marks
    requires 0 <= col < GridSize
  {
    CellsGrid([(0, col), (1, col), (2, col), (3, col), (4, col)])
  }

  const DiagonalTopLeft: Marks := CellsGrid([(0, 0), (1, 1), (2, 2), (3, 3), (4, 4)])
  const DiagonalTopRight: Marks := CellsGrid([(0, 4), (1, 3), (2, 2), (3, 1), (4, 0)])

  const FourCorners: Marks := CellsGrid([(0, 0), (0, 4), (4, 0), (4, 4)])
  /** A 5x5 grid with every cell true. */
  function FullGrid(): Marks
  {
    seq(5, r => seq(5, c => true))
  }

  const Blackout: Marks := FullGrid()

  /** horizontalLine(r) is true exactly on row r, verticalLine(c) exactly on column c. */
  lemma LinesExact(line: int)
    requires 0 <= line < GridSize
    ensures forall r, c :: InGrid(r, c) ==> (HorizontalLine(line)[r][c] <==> r == line)
    ensures forall r, c :: InGrid(r, c) ==> (VerticalLine(line)[r][c] <==> c == line)
  {
  }

  /** The two diagonal grids are true exactly at (i, i) and at (i, 4 - i). */
  lemma DiagonalsExact()
    ensures forall r, c :: InGrid(r, c) ==> (DiagonalTopLeft[r][c] <==> r == c)
    ensures forall r, c :: InGrid(r, c) ==> (DiagonalTopRight[r][c] <==> c == 4 - r)
  {
  }

  /** Blackout requires every cell; four-corners exactly the four corner cells. */
  lemma BlackoutAndCornersExact()
    ensures forall r, c :: InGrid(r, c) ==> Blackout[r][c]
    ensures forall r, c :: InGrid(r, c) ==>
      (FourCorners[r][c] <==> (r == 0 || r == 4) && (c == 0 || c == 4))
  {
  }

  function PresetOf(id: string, name: string, nameEs: string, grid: Marks,
                  description: string, descriptionEs: string): Pattern
  {
    Pattern(id, name, Some(nameEs), PatternType.Preset, grid, Some(description), Some(descriptionEs))
  }

  const PresetPatterns: seq<Pattern> := [
    PresetOf("horizontal-line", "Horizontal Line", "Línea Horizontal", HorizontalLine(0),
      "Complete any horizontal row", "Completa cualquier fila horizontal"),
    PresetOf("vertical-line", "Vertical Line", "Línea Vertical", VerticalLine(0),
      "Complete any vertical column", "Completa cualquier columna vertical"),
    PresetOf("diagonal", "Diagonal Line", "Línea Diagonal", DiagonalTopLeft,
      "Complete either diagonal", "Completa cualquier diagonal"),
    PresetOf("any-line", "Any Line", "Cualquier Línea", HorizontalLine(0),
      "Complete any horizontal, vertical, or diagonal line",
      "Completa cualquier línea horizontal, vertical o diagonal"),
    PresetOf("four-corners", "Four Corners", "Cuatro Esquinas", FourCorners,
      "Mark all four corners", "Marca las cuatro esquinas"),
    PresetOf("blackout", "Blackout", "Cartón Lleno", Blackout,
      "Mark every cell on the card", "Marca todas las casillas del cartón"),
    PresetOf("letter-x", "Letter X", "Letra X",
      CellsGrid([(0, 0), (0, 4), (1, 1), (1, 3), (2, 2), (3, 1), (3, 3), (4, 0), (4, 4)]),
      "Form an X shape with both diagonals", "Forma una X con ambas diagonales"),
    PresetOf("letter-t", "Letter T", "Letra T",
      CellsGrid([(0, 0), (0, 1), (0, 2), (0, 3), (0, 4), (1, 2), (2, 2), (3, 2), (4, 2)]),
      "Form a T shape with top row and middle column",
      "Forma una T con la fila superior y la columna central"),
    PresetOf("letter-l", "Letter L", "Letra L",
      CellsGrid([(0, 0), (1, 0), (2, 0), (3, 0), (4, 0), (4, 1), (4, 2), (4, 3), (4, 4)]),
      "Form an L shape with left column and bottom row",
      "Forma una L con la columna izquierda y la fila inferior"),
    PresetOf("plus", "Plus Sign", "Signo Más",
      CellsGrid([(0, 2), (1, 2), (2, 0), (2, 1), (2, 2), (2, 3), (2, 4), (3, 2), (4, 2)]),
      "Form a plus sign with middle row and column",
      "Forma un signo más con la fila y columna central"),
    PresetOf("picture-frame", "Picture Frame", "Marco",
      CellsGrid([(0, 0), (0, 1), (0, 2), (0, 3), (0, 4), (1, 0), (1, 4), (2, 0), (2, 4),
                 (3, 0), (3, 4), (4, 0), (4, 1), (4, 2), (4, 3), (4, 4)]),
      "Mark all cells on the outer edge", "Marca todas las casillas del borde exterior"),
    PresetOf("postage-stamp", "Postage Stamp", "Estampilla",
      CellsGrid([(0, 0), (0, 1), (1, 0), (1, 1)]),
      "Complete a 2x2 square in any corner", "Completa un cuadrado 2x2 en cualquier esquina"),
    PresetOf("chevron-up", "Chevron", "Flecha",
      CellsGrid([(2, 2), (3, 1), (3, 3), (4, 0), (4, 4)]),
      "Form a V or arrow shape", "Forma una V o flecha")
  ]

  /** Array.prototype.find over a pattern list: some pattern with the id when
      one exists, undefined otherwise. */
  function FindPattern(ps: seq<Pattern>, id: string): (r: Option<Pattern>)
    ensures r.Some? ==> r.value in ps && r.value.id == id
    ensures r.None? <==> forall k :: 0 <= k < |ps| ==> ps[k].id != id
  {
    if ps == [] then None
    else if ps[0].id == id then Some(ps[0])
    else FindPattern(ps[1..], id)
  }

  /** find returns the FIRST pattern carrying the id. */
  lemma {:induction false} FindPatternFirst(ps: seq<Pattern>, id: string, k: int)
    requires 0 <= k < |ps| && ps[k].id == id
    requires forall j :: 0 <= j < k ==> ps[j].id != id
    ensures FindPattern(ps, id) == Some(ps[k])
  {
    if k > 0 {
      FindPatternFirst(ps[1..], id, k - 1);
    }
  }

  function GetPatternById(id: string): Option<Pattern>
  {
    FindPattern(PresetPatterns, id)
  }

  /** No two presets share an id. */
  lemma PresetIdsDistinct()
    ensures forall i, j :: 0 <= i < j < |PresetPatterns| ==> PresetPatterns[i].id != PresetPatterns[j].id
  {
  }

  /** Because the ids are distinct, getPatternById returns the one preset with
      that id, and undefined when no preset carries it. */
  lemma GetPatternByIdUnique(id: string)
    ensures forall k :: 0 <= k < |PresetPatterns| ==>
      (GetPatternById(id) == Some(PresetPatterns[k]) <==> PresetPatterns[k].id == id)
    ensures GetPatternById(id).None? <==> forall k :: 0 <= k < |PresetPatterns| ==> PresetPatterns[k].id != id
  {
    PresetIdsDistinct();
    forall k | 0 <= k < |PresetPatterns| && PresetPatterns[k].id == id
      ensures GetPatternById(id) == Some(PresetPatterns[k])
    {
      FindPatternFirst(PresetPatterns, id, k);
    }
  }

  /** The default pattern: the preset whose id is any-line. */
  const DefaultPattern: Pattern := PresetPatterns[3]

  lemma DefaultPatternIsAnyLine()
    ensures DefaultPattern.id == "any-line"
    ensures GetPatternById("any-line") == Some(DefaultPattern)
  {
    FindPatternFirst(PresetPatterns, "any-line", 3);
  }
}
