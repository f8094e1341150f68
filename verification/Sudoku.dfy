/** The Sudoku solver of examples/sudoku/Sudoku.h: what a completed grid is, independent of any search. */
module SudokuSpec {
  type Grid = g: seq<seq<char>> | |g| == 9 && forall i :: 0 <= i < 9 ==> |g[i]| == 9
    witness seq(9, _ => seq(9, _ => '.'))

  predicate Cell(i: int, j: int) {
    0 <= i < 9 && 0 <= j < 9
  }

  function Block(i: int, j: int): int {
    i / 3 * 3 + j / 3
  }

  predicate Digit(c: char) {
    '1' <= c <= '9'
  }

  /** Two different cells that share a row, a column or a 3x3 block. */
  predicate Peers(i: int, j: int, k: int, l: int) {
    && Cell(i, j) && Cell(k, l) && (i != k || j != l)
    && (i == k || j == l || Block(i, j) == Block(k, l))
  }

  /** Every cell is blank or a digit. */
  ghost predicate WellFormed(g: Grid) {
    forall i, j :: Cell(i, j) ==> g[i][j] == '.' || Digit(g[i][j])
  }

  ghost predicate NoClash(g: Grid) {
    forall i, j, k, l {:trigger Peers(i, j, k, l)} :: Peers(i, j, k, l) && g[i][j] != '.' ==> g[i][j] != g[k][l]
  }

  ghost predicate Coherent(g: Grid) {
    NoClash(g) && WellFormed(g)
  }

  /** A full grid that obeys the rules of the game. */
  ghost predicate Legal(g: Grid) {
    && (forall i, j :: Cell(i, j) ==> Digit(g[i][j]))
    && NoClash(g)
  }

  ghost predicate Extends(g: Grid, b: Grid) {
    forall i, j :: Cell(i, j) && b[i][j] != '.' ==> g[i][j] == b[i][j]
  }

  ghost predicate Completes(g: Grid, b: Grid) {
    Legal(g) && Extends(g, b)
  }

  /** Row-major reading order of the cells. */
  predicate Before(i: int, j: int, k: int, l: int) {
    i < k || (i == k && j < l)
  }

  ghost predicate DiffersFirstAt(g: Grid, h: Grid, i: int, j: int) {
    && Cell(i, j) && g[i][j] < h[i][j]
    && forall k, l :: Cell(k, l) && Before(k, l, i, j) ==> g[k][l] == h[k][l]
  }

  ghost predicate LexLess(g: Grid, h: Grid) {
    exists i, j :: DiffersFirstAt(g, h, i, j)
  }

  /** g is the row-major least of all legal completions of b. */
  ghost predicate FirstCompletion(g: Grid, b: Grid) {
    Completes(g, b) && forall h :: Completes(h, b) ==> h == g || LexLess(g, h)
  }

  ghost predicate FilledBefore(b: Grid, i: int, j: int) {
    forall k, l :: Cell(k, l) && Before(k, l, i, j) ==> b[k][l] != '.'
  }

  function Place(b: Grid, i: int, j: int, c: char): Grid
    requires Cell(i, j)
  {
    b[i := b[i][j := c]]
  }

  function DigitChar(k: int): char
    requires 1 <= k <= 9
  {
    (k + '0' as int) as char
  }

  function Mark(on: bool): char {
    if on then 'v' else '0'
  }

  // Occupancy of the three kinds of unit.

  ghost predicate InRow(b: Grid, i: int, c: char)
    requires 0 <= i < 9
  {
    exists j :: 0 <= j < 9 && b[i][j] == c
  }

  ghost predicate InCol(b: Grid, j: int, c: char)
    requires 0 <= j < 9
  {
    exists i :: 0 <= i < 9 && b[i][j] == c
  }

  ghost predicate InBlock(b: Grid, n: int, c: char) {
    exists i, j :: Cell(i, j) && Block(i, j) == n && b[i][j] == c
  }

  ghost predicate Taken(b: Grid, i: int, j: int, c: char)
    requires Cell(i, j)
  {
    InRow(b, i, c) || InCol(b, j, c) || InBlock(b, Block(i, j), c)
  }

  /** Filling one blank cell adds its digit to exactly its own row, column and block. */
  lemma PlaceOccupancy(b: Grid, i: int, j: int, c: char)
    requires Cell(i, j) && b[i][j] == '.' && c != '.'
    ensures forall r, d :: 0 <= r < 9 && d != '.' ==>
            (InRow(Place(b, i, j, c), r, d) <==> InRow(b, r, d) || (r == i && d == c))
    ensures forall s, d :: 0 <= s < 9 && d != '.' ==>
            (InCol(Place(b, i, j, c), s, d) <==> InCol(b, s, d) || (s == j && d == c))
    ensures forall n, d :: d != '.' ==>
            (InBlock(Place(b, i, j, c), n, d) <==> InBlock(b, n, d) || (n == Block(i, j) && d == c))
  {
    var p := Place(b, i, j, c);
    assert p[i][j] == c;
    assert forall k, l :: Cell(k, l) && (k != i || l != j) ==> p[k][l] == b[k][l];
    forall r, d | 0 <= r < 9 && d != '.' && InRow(b, r, d) ensures InRow(p, r, d) {
      var l :| 0 <= l < 9 && b[r][l] == d;
      assert p[r][l] == d;
    }
    forall s, d | 0 <= s < 9 && d != '.' && InCol(b, s, d) ensures InCol(p, s, d) {
      var k :| 0 <= k < 9 && b[k][s] == d;
      assert p[k][s] == d;
    }
    forall n, d | d != '.' && InBlock(b, n, d) ensures InBlock(p, n, d) {
      var k, l :| Cell(k, l) && Block(k, l) == n && b[k][l] == d;
      assert p[k][l] == d;
    }
  }

  ghost function RowTable(b: Grid): Grid {
    seq(9, i requires 0 <= i < 9 => seq(9, d requires 0 <= d < 9 => Mark(InRow(b, i, DigitChar(d + 1)))))
  }

  ghost function ColTable(b: Grid): Grid {
    seq(9, j requires 0 <= j < 9 => seq(9, d requires 0 <= d < 9 => Mark(InCol(b, j, DigitChar(d + 1)))))
  }

  ghost function BlockTable(b: Grid): Grid {
    seq(9, n => seq(9, d requires 0 <= d < 9 => Mark(InBlock(b, n, DigitChar(d + 1)))))
  }

  /** The row, column and block tables r, c and n hold a mark for exactly the digits on the board b. */
  ghost predicate Recorded(r: Grid, c: Grid, n: Grid, b: Grid) {
    r == RowTable(b) && c == ColTable(b) && n == BlockTable(b)
  }

  /** The three table entries consulted for a digit say whether it is taken. */
  lemma LookupIsTaken(r: Grid, c: Grid, n: Grid, b: Grid, i: int, j: int, k: int)
    requires Recorded(r, c, n, b) && Cell(i, j) && 1 <= k <= 9
    ensures 0 <= Block(i, j) < 9
    ensures Taken(b, i, j, DigitChar(k)) <==>
            r[i][k - 1] != '0' || c[j][k - 1] != '0' || n[Block(i, j)][k - 1] != '0'
  {
    assert Cell(i, k - 1) && Cell(j, k - 1) && Cell(Block(i, j), k - 1);
  }

  ghost predicate Blank(g: Grid, c: char) {
    forall i, j :: Cell(i, j) ==> g[i][j] == c
  }

  lemma SameCells(g: Grid, h: Grid)
    requires forall i, j :: Cell(i, j) ==> g[i][j] == h[i][j]
    ensures g == h
  {
    forall i | 0 <= i < 9 ensures g[i] == h[i] {
      assert forall j :: 0 <= j < 9 ==> Cell(i, j);
    }
  }

  lemma BlankTables(r: Grid, c: Grid, n: Grid, b: Grid)
    requires Blank(r, '0') && Blank(c, '0') && Blank(n, '0') && Blank(b, '.')
    ensures Recorded(r, c, n, b)
  {
    SameCells(r, RowTable(b));
    SameCells(c, ColTable(b));
    SameCells(n, BlockTable(b));
  }

  lemma MarkRow(b: Grid, i: int, j: int, k: int)
    requires Cell(i, j) && 1 <= k <= 9 && b[i][j] == '.'
    ensures Place(RowTable(b), i, k - 1, 'v') == RowTable(Place(b, i, j, DigitChar(k)))
  {
    PlaceOccupancy(b, i, j, DigitChar(k));
    SameCells(Place(RowTable(b), i, k - 1, 'v'), RowTable(Place(b, i, j, DigitChar(k))));
  }

  lemma MarkCol(b: Grid, i: int, j: int, k: int)
    requires Cell(i, j) && 1 <= k <= 9 && b[i][j] == '.'
    ensures Place(ColTable(b), j, k - 1, 'v') == ColTable(Place(b, i, j, DigitChar(k)))
  {
    PlaceOccupancy(b, i, j, DigitChar(k));
    SameCells(Place(ColTable(b), j, k - 1, 'v'), ColTable(Place(b, i, j, DigitChar(k))));
  }

  lemma MarkBlock(b: Grid, i: int, j: int, k: int)
    requires Cell(i, j) && 1 <= k <= 9 && b[i][j] == '.'
    ensures Place(BlockTable(b), Block(i, j), k - 1, 'v') == BlockTable(Place(b, i, j, DigitChar(k)))
  {
    PlaceOccupancy(b, i, j, DigitChar(k));
    SameCells(Place(BlockTable(b), Block(i, j), k - 1, 'v'), BlockTable(Place(b, i, j, DigitChar(k))));
  }

  /** Marking a placed digit turns the tables of the old board into those of the new one. */
  lemma MarkPlaced(r: Grid, c: Grid, n: Grid, b: Grid, i: int, j: int, k: int)
    requires Recorded(r, c, n, b) && Cell(i, j) && 1 <= k <= 9 && b[i][j] == '.'
    ensures Recorded(Place(r, i, k - 1, 'v'), Place(c, j, k - 1, 'v'), Place(n, Block(i, j), k - 1, 'v'),
                     Place(b, i, j, DigitChar(k)))
  {
    MarkRow(b, i, j, k);
    MarkCol(b, i, j, k);
    MarkBlock(b, i, j, k);
  }

  lemma PlaceBack(b: Grid, i: int, j: int, c: char)
    requires Cell(i, j)
    ensures Place(Place(b, i, j, c), i, j, b[i][j]) == b
  {
    SameCells(Place(Place(b, i, j, c), i, j, b[i][j]), b);
  }

  /** Clearing the three marks of a digit that was free before it was placed erases no other cell's mark. */
  lemma UnmarkPlaced(r: Grid, c: Grid, n: Grid, b: Grid, i: int, j: int, k: int)
    requires Cell(i, j) && 1 <= k <= 9 && b[i][j] == '.' && !Taken(b, i, j, DigitChar(k))
    requires Recorded(r, c, n, Place(b, i, j, DigitChar(k)))
    ensures Recorded(Place(r, i, k - 1, '0'), Place(c, j, k - 1, '0'), Place(n, Block(i, j), k - 1, '0'), b)
  {
    MarkPlaced(RowTable(b), ColTable(b), BlockTable(b), b, i, j, k);
    PlaceBack(RowTable(b), i, k - 1, 'v');
    PlaceBack(ColTable(b), j, k - 1, 'v');
    PlaceBack(BlockTable(b), Block(i, j), k - 1, 'v');
  }

  /** A free digit keeps the board free of clashes. */
  lemma PlaceKeepsNoClash(b: Grid, i: int, j: int, c: char)
    requires Cell(i, j) && b[i][j] == '.' && Digit(c)
    requires NoClash(b) && WellFormed(b) && !Taken(b, i, j, c)
    ensures NoClash(Place(b, i, j, c)) && WellFormed(Place(b, i, j, c))
  {
    var p := Place(b, i, j, c);
    forall k, l, m, n | Peers(k, l, m, n) && p[k][l] != '.' ensures p[k][l] != p[m][n] {
      if k == i && l == j {
        assert p[m][n] == b[m][n];
      } else if m == i && n == j {
        assert p[k][l] == b[k][l];
      } else {
        assert p[k][l] == b[k][l] && p[m][n] == b[m][n];
      }
    }
  }

  /** A taken digit is held by some peer of the cell. */
  lemma OtherOwner(b: Grid, i: int, j: int, c: char) returns (k: int, l: int)
    requires Cell(i, j) && b[i][j] != c && Taken(b, i, j, c)
    ensures Peers(i, j, k, l) && b[k][l] == c
  {
    if InRow(b, i, c) {
      l :| 0 <= l < 9 && b[i][l] == c;
      k := i;
    } else if InCol(b, j, c) {
      k :| 0 <= k < 9 && b[k][j] == c;
      l := j;
    } else {
      k, l :| Cell(k, l) && Block(k, l) == Block(i, j) && b[k][l] == c;
    }
  }

  /** A digit that clashes when it is placed belongs to no completion. */
  lemma TakenDigitFails(b: Grid, i: int, j: int, c: char, g: Grid)
    requires Cell(i, j) && b[i][j] == '.' && Digit(c) && Taken(b, i, j, c)
    requires Completes(g, b)
    ensures g[i][j] != c
  {
    var k, l := OtherOwner(b, i, j, c);
  }

  /** The completions that put c at a blank cell are those of the board with c placed there. */
  lemma PlaceSplitsCompletions(b: Grid, i: int, j: int, c: char, g: Grid)
    requires Cell(i, j) && b[i][j] == '.' && c != '.'
    ensures Completes(g, Place(b, i, j, c)) <==> Completes(g, b) && g[i][j] == c
  {
    var p := Place(b, i, j, c);
    assert p[i][j] == c;
    assert forall k, l :: Cell(k, l) && (k != i || l != j) ==> p[k][l] == b[k][l];
  }

  /** A board without blanks or clashes is its own only completion. */
  lemma FullBoardIsFirst(b: Grid)
    requires NoClash(b) && WellFormed(b) && FilledBefore(b, 9, 0)
    ensures FirstCompletion(b, b)
  {
    assert forall i, j :: Cell(i, j) ==> Before(i, j, 9, 0);
    forall h | Completes(h, b) ensures h == b {
      SameCells(h, b);
    }
  }

  ghost predicate NoCompletion(b: Grid) {
    forall g :: !Completes(g, b)
  }

  /** No completion puts a digit below k at cell (i, j). */
  ghost predicate NoneBelow(b: Grid, i: int, j: int, k: int)
    requires Cell(i, j)
  {
    forall g :: Completes(g, b) ==> '0' as int + k <= g[i][j] as int
  }

  lemma SkipTaken(b: Grid, i: int, j: int, k: int)
    requires Cell(i, j) && 1 <= k <= 9 && b[i][j] == '.'
    requires NoneBelow(b, i, j, k) && Taken(b, i, j, DigitChar(k))
    ensures NoneBelow(b, i, j, k + 1)
  {
    forall g | Completes(g, b) ensures g[i][j] != DigitChar(k) {
      TakenDigitFails(b, i, j, DigitChar(k), g);
    }
  }

  lemma SkipFailed(b: Grid, i: int, j: int, k: int)
    requires Cell(i, j) && 1 <= k <= 9 && b[i][j] == '.'
    requires NoneBelow(b, i, j, k) && NoCompletion(Place(b, i, j, DigitChar(k)))
    ensures NoneBelow(b, i, j, k + 1)
  {
    forall g | Completes(g, b) ensures g[i][j] != DigitChar(k) {
      PlaceSplitsCompletions(b, i, j, DigitChar(k), g);
    }
  }

  lemma SomeDigit(b: Grid, i: int, j: int)
    requires Cell(i, j)
    ensures NoneBelow(b, i, j, 1)
  {
    assert forall g :: Completes(g, b) ==> Digit(g[i][j]);
  }

  lemma NineIsLast(b: Grid, i: int, j: int)
    requires Cell(i, j) && NoneBelow(b, i, j, 10)
    ensures NoCompletion(b)
  {
    assert forall g :: Completes(g, b) ==> Digit(g[i][j]);
  }

  /** What the search relies on when it enters cell (i, j) of board b. */
  ghost predicate Searchable(b: Grid, i: int, j: int) {
    NoClash(b) && WellFormed(b) && FilledBefore(b, i, j)
  }

  lemma NextCell(b: Grid, i: int, j: int)
    requires Cell(i, j) && Searchable(b, i, j) && b[i][j] != '.'
    ensures j < 8 ==> Searchable(b, i, j + 1)
    ensures j == 8 ==> Searchable(b, i + 1, 0)
  {}

  lemma FreeDigitNext(b: Grid, i: int, j: int, k: int)
    requires Cell(i, j) && 1 <= k <= 9 && b[i][j] == '.'
    requires Searchable(b, i, j) && !Taken(b, i, j, DigitChar(k))
    ensures j < 8 ==> Searchable(Place(b, i, j, DigitChar(k)), i, j + 1)
    ensures j == 8 ==> Searchable(Place(b, i, j, DigitChar(k)), i + 1, 0)
  {
    var p := Place(b, i, j, DigitChar(k));
    PlaceKeepsNoClash(b, i, j, DigitChar(k));
    assert forall m, n :: Cell(m, n) && Before(m, n, i, j) ==> p[m][n] == b[m][n];
    NextCell(p, i, j);
  }

  /** The first completion with digit c at the first blank is first overall once every smaller digit has failed
      there. */
  lemma LeastDigitIsFirst(b: Grid, i: int, j: int, k: int, g: Grid)
    requires Cell(i, j) && 1 <= k <= 9 && b[i][j] == '.' && FilledBefore(b, i, j)
    requires FirstCompletion(g, Place(b, i, j, DigitChar(k)))
    requires NoneBelow(b, i, j, k)
    ensures FirstCompletion(g, b)
  {
    var c := DigitChar(k);
    PlaceSplitsCompletions(b, i, j, c, g);
    forall h | Completes(h, b) ensures h == g || LexLess(g, h) {
      PlaceSplitsCompletions(b, i, j, c, h);
      if h[i][j] != c {
        assert DiffersFirstAt(g, h, i, j);
      }
    }
  }

  /** b read up to, but not including, cell (i, j). */
  ghost predicate ReadSoFar(seen: Grid, b: Grid, i: int, j: int) {
    forall k, l :: Cell(k, l) ==> seen[k][l] == if Before(k, l, i, j) then b[k][l] else '.'
  }

  lemma ReadNext(seen: Grid, b: Grid, i: int, j: int)
    requires Cell(i, j) && ReadSoFar(seen, b, i, j) && Coherent(seen) && WellFormed(b)
    requires b[i][j] != '.' ==> !Taken(seen, i, j, b[i][j])
    ensures ReadSoFar(Place(seen, i, j, b[i][j]), b, i, j + 1) && Coherent(Place(seen, i, j, b[i][j]))
    ensures b[i][j] == '.' ==> Place(seen, i, j, b[i][j]) == seen
  {
    if b[i][j] == '.' {
      PlaceBack(seen, i, j, '.');
      SameCells(Place(seen, i, j, '.'), seen);
    } else {
      PlaceKeepsNoClash(seen, i, j, b[i][j]);
    }
  }

  lemma ReadAll(seen: Grid, b: Grid)
    requires ReadSoFar(seen, b, 9, 0)
    ensures seen == b
  {
    SameCells(seen, b);
  }

  /** Two givens that clash rule out every completion. */
  lemma ClashSeen(seen: Grid, b: Grid, i: int, j: int)
    requires Cell(i, j) && ReadSoFar(seen, b, i, j)
    requires b[i][j] != '.' && Taken(seen, i, j, b[i][j])
    ensures !NoClash(b)
    ensures NoCompletion(b)
  {
    var k, l := OtherOwner(seen, i, j, b[i][j]);
    assert b[k][l] == b[i][j];
  }

  lemma LexLessAsymmetric(g: Grid, h: Grid)
    requires LexLess(g, h)
    ensures !LexLess(h, g) && g != h
  {
    var i, j :| DiffersFirstAt(g, h, i, j);
    forall k, l ensures !DiffersFirstAt(h, g, k, l) {
      if Cell(k, l) && !Before(i, j, k, l) && (i != k || j != l) {
        assert Before(k, l, i, j);
      }
    }
  }

  /** At most one grid is the first completion, and a puzzle with a single solution has it as its first. */
  lemma FirstCompletionIsTheAnswer(b: Grid, g: Grid, h: Grid)
    requires FirstCompletion(g, b)
    ensures FirstCompletion(h, b) ==> h == g
    ensures Completes(h, b) && (forall x, y :: Completes(x, b) && Completes(y, b) ==> x == y) ==> h == g
  {
    if FirstCompletion(h, b) && h != g {
      LexLessAsymmetric(g, h);
    }
  }
}

/** The solver object: board and occupancy tables are changed and restored in place. */
module SudokuSolver {
  import opened SudokuSpec

  predicate Is9x9(a: array2<char>) {
    a.Length0 == 9 && a.Length1 == 9
  }

  ghost function Cells(a: array2<char>): Grid
    requires Is9x9(a)
    reads a
  {
    seq(9, i requires 0 <= i < 9 reads a => seq(9, j requires 0 <= j < 9 reads a => a[i, j]))
  }

  /** Writes one entry of a 9x9 table in place. */
  method Put(a: array2<char>, i: int, j: int, c: char)
    requires Is9x9(a) && Cell(i, j)
    modifies a
    ensures Cells(a) == Place(old(Cells(a)), i, j, c)
  {
    ghost var before := Cells(a);
    a[i, j] := c;
    SameCells(Cells(a), Place(before, i, j, c));
  }

  class Sudoku {
    const board: array2<char>
    const rows: array2<char>
    const cols: array2<char>
    const blocks: array2<char>
    var solved: bool

    ghost predicate Shape() {
      && Is9x9(board) && Is9x9(rows) && Is9x9(cols) && Is9x9(blocks)
      && board != rows && board != cols && board != blocks && rows != cols && rows != blocks && cols != blocks
    }

    ghost function Board(): Grid
      requires Shape()
      reads board
    {
      Cells(board)
    }

    /** The tables hold a mark for exactly the digits on the board b. */
    ghost predicate TablesRecord(b: Grid)
      requires Shape()
      reads rows, cols, blocks
    {
      Recorded(Cells(rows), Cells(cols), Cells(blocks), b)
    }

    constructor (s: string)
      ensures Shape() && !solved
      ensures fresh(board) && fresh(rows) && fresh(cols) && fresh(blocks)
      ensures |s| >= 81 ==> forall i, j :: Cell(i, j) ==>
              Board()[i][j] == (if s[9 * i + j] == '0' then '.' else s[9 * i + j])
    {
      board := new char[9, 9]((_, _) => '0');
      rows := new char[9, 9]((_, _) => '0');
      cols := new char[9, 9]((_, _) => '0');
      blocks := new char[9, 9]((_, _) => '0');
      solved := false;
      new;
      Update(s);
    }

    /** Loads a puzzle, row by row, with '0' for a blank; a short string changes nothing. */
    method Update(s: string)
      requires Shape()
      modifies this`solved, board
      ensures |s| < 81 ==> solved == old(solved) && Board() == old(Board())
      ensures |s| >= 81 ==> !solved && forall i, j :: Cell(i, j) ==>
              Board()[i][j] == (if s[9 * i + j] == '0' then '.' else s[9 * i + j])
    {
      if |s| < 81 {
        return;
      }
      solved := false;
      var si := 0;
      for i := 0 to 9
        invariant !solved && si == 9 * i
        invariant forall k, l :: Cell(k, l) && k < i ==>
                  board[k, l] == if s[9 * k + l] == '0' then '.' else s[9 * k + l]
      {
        for j := 0 to 9
          invariant !solved && si == 9 * i + j
          invariant forall k, l :: Cell(k, l) && Before(k, l, i, j) ==>
                    board[k, l] == if s[9 * k + l] == '0' then '.' else s[9 * k + l]
        {
          board[i, j] := s[si];
          si := si + 1;
          if board[i, j] == '0' {
            board[i, j] := '.';
          }
        }
      }
      assert forall i, j :: Cell(i, j) ==> board[i, j] == (if s[9 * i + j] == '0' then '.' else s[9 * i + j]);
    }

    /** The solved grid read row by row, or nothing while unsolved. */
    method Result() returns (s: string)
      requires Shape()
      ensures !solved ==> s == ""
      ensures solved ==> |s| == 81 && forall i, j :: Cell(i, j) ==> s[9 * i + j] == Board()[i][j]
    {
      if !solved {
        return "";
      }
      s := seq(81, _ => '0');
      var si := 0;
      for i := 0 to 9
        invariant si == 9 * i && |s| == 81
        invariant forall k, l :: Cell(k, l) && k < i ==> s[9 * k + l] == board[k, l]
      {
        for j := 0 to 9
          invariant si == 9 * i + j && |s| == 81
          invariant forall k, l :: Cell(k, l) && Before(k, l, i, j) ==> s[9 * k + l] == board[k, l]
        {
          s := s[si := board[i, j]];
          si := si + 1;
        }
      }
    }

    /** Says whether digit k is still free at cell (i, j). */
    method CurEleValid(i: int, j: int, k: int, ghost b: Grid) returns (free: bool)
      requires Shape() && Cell(i, j) && 1 <= k <= 9 && TablesRecord(b)
      ensures free <==> !Taken(b, i, j, DigitChar(k))
    {
      LookupIsTaken(Cells(rows), Cells(cols), Cells(blocks), b, i, j, k);
      var idx := k - 1;
      var bidx := i / 3 * 3 + j / 3;
      if rows[i, idx] != '0' || cols[j, idx] != '0' || blocks[bidx, idx] != '0' {
        return false;
      }
      return true;
    }

    method UpdateRecord(i: int, j: int, k: int, ghost b: Grid)
      requires Shape() && Cell(i, j) && 1 <= k <= 9
      requires b[i][j] == '.' && TablesRecord(b)
      modifies rows, cols, blocks
      ensures TablesRecord(Place(b, i, j, DigitChar(k)))
    {
      MarkPlaced(Cells(rows), Cells(cols), Cells(blocks), b, i, j, k);
      var idx := k - 1;
      var bidx := i / 3 * 3 + j / 3;
      Put(rows, i, idx, 'v');
      Put(cols, j, idx, 'v');
      Put(blocks, bidx, idx, 'v');
    }

    /** Reads one cell: its given, if any, is recorded unless it clashes with one read before. */
    method RecordGiven(i: int, j: int, ghost seen: Grid) returns (free: bool)
      requires Shape() && Cell(i, j) && WellFormed(Board())
      requires ReadSoFar(seen, Board(), i, j) && TablesRecord(seen) && Coherent(seen)
      modifies rows, cols, blocks
      ensures free ==> var next := Place(seen, i, j, Board()[i][j]);
                       ReadSoFar(next, Board(), i, j + 1) && TablesRecord(next) && Coherent(next)
      ensures !free ==> !NoClash(Board()) && NoCompletion(Board())
    {
      ghost var b := Board();
      var c := board[i, j];
      assert c == b[i][j];
      free := true;
      if c != '.' {
        free := CurEleValid(i, j, c as int - '0' as int, seen);
        if !free {
          ClashSeen(seen, b, i, j);
          return;
        }
        UpdateRecord(i, j, c as int - '0' as int, seen);
      }
      ReadNext(seen, b, i, j);
    }

    /** Records the givens and rejects a board on which two of them clash. */
    method IsValidSudoku() returns (valid: bool)
      requires Shape() && WellFormed(Board())
      requires Blank(Cells(rows), '0') && Blank(Cells(cols), '0') && Blank(Cells(blocks), '0')
      modifies rows, cols, blocks
      ensures valid <==> NoClash(Board())
      ensures valid ==> TablesRecord(Board())
      ensures !valid ==> NoCompletion(Board())
    {
      ghost var b := Board();
      ghost var seen: Grid := seq(9, _ => seq(9, _ => '.'));
      BlankTables(Cells(rows), Cells(cols), Cells(blocks), seen);
      for i := 0 to 9
        invariant ReadSoFar(seen, b, i, 0) && TablesRecord(seen) && Coherent(seen)
      {
        for j := 0 to 9
          invariant ReadSoFar(seen, b, i, j) && TablesRecord(seen) && Coherent(seen)
        {
          var free := RecordGiven(i, j, seen);
          if !free {
            return false;
          }
          seen := Place(seen, i, j, b[i][j]);
        }
        assert ReadSoFar(seen, b, i + 1, 0);
      }
      ReadAll(seen, b);
      return true;
    }

    /** Undoing a digit that was free erases no other cell's mark. */
    method CancelRecord(i: int, j: int, k: int, ghost b: Grid)
      requires Shape() && Cell(i, j) && 1 <= k <= 9
      requires b[i][j] == '.' && !Taken(b, i, j, DigitChar(k))
      requires TablesRecord(Place(b, i, j, DigitChar(k)))
      modifies rows, cols, blocks
      ensures TablesRecord(b)
    {
      UnmarkPlaced(Cells(rows), Cells(cols), Cells(blocks), b, i, j, k);
      var idx := k - 1;
      var bidx := i / 3 * 3 + j / 3;
      Put(rows, i, idx, '0');
      Put(cols, j, idx, '0');
      Put(blocks, bidx, idx, '0');
    }

    /** The search from cell (i, j): either it completes the board to its first completion or it restores everything. */
    method Traceback(i: int, j: int)
      requires Shape() && 0 <= i <= 9 && 0 <= j < 9 && (i == 9 ==> j == 0)
      requires !solved ==> TablesRecord(Board()) && Searchable(Board(), i, j)
      modifies this`solved, board, rows, cols, blocks
      ensures old(solved) ==> solved
      ensures old(solved) || !solved ==> Board() == old(Board())
      ensures old(solved) || !solved ==>
                && Cells(rows) == old(Cells(rows)) && Cells(cols) == old(Cells(cols))
                && Cells(blocks) == old(Cells(blocks))
      ensures !old(solved) && solved ==> FirstCompletion(Board(), old(Board()))
      ensures !old(solved) ==> TablesRecord(Board())
      ensures !solved ==> NoCompletion(Board())
      decreases 9 * (9 - i) - j
    {
      if solved {
        return;
      }
      ghost var b := Board();
      if i == 9 {
        FullBoardIsFirst(b);
        solved := true;
        return;
      }
      if board[i, j] != '.' {
        NextCell(b, i, j);
        if j < 8 {
          Traceback(i, j + 1);
        } else {
          Traceback(i + 1, 0);
        }
        return;
      }
      var k := 1;
      assert NoneBelow(b, i, j, 1) by { SomeDigit(b, i, j); }
      while k <= 9 && !solved
        invariant 1 <= k <= 10 && !solved
        invariant Board() == b && TablesRecord(b)
        invariant NoneBelow(b, i, j, k)
      {
        var free := CurEleValid(i, j, k, b);
        if free {
          FreeDigitNext(b, i, j, k);
          Put(board, i, j, DigitChar(k));
          UpdateRecord(i, j, k, b);
          if j < 8 {
            Traceback(i, j + 1);
          } else {
            Traceback(i + 1, 0);
          }
          if solved {
            LeastDigitIsFirst(b, i, j, k, Board());
            return;
          }
          Put(board, i, j, '.');
          PlaceBack(b, i, j, DigitChar(k));
          CancelRecord(i, j, k, b);
          SkipFailed(b, i, j, k);
        } else {
          SkipTaken(b, i, j, k);
        }
        k := k + 1;
      }
      NineIsLast(b, i, j);
    }

    /** Decides the puzzle and leaves the first completion on the board when there is one. */
    method SolveSudoku()
      requires Shape() && (!solved ==> WellFormed(Board()))
      modifies this`solved, board, rows, cols, blocks
      ensures old(solved) ==> solved && Board() == old(Board())
      ensures !old(solved) ==> (solved <==> exists g :: Completes(g, old(Board())))
      ensures !old(solved) && solved ==> FirstCompletion(Board(), old(Board()))
      ensures !solved ==> Board() == old(Board())
    {
      if solved {
        return;
      }
      forall i, d | 0 <= i < 9 && 0 <= d < 9 { rows[i, d] := '0'; }
      forall i, d | 0 <= i < 9 && 0 <= d < 9 { cols[i, d] := '0'; }
      forall i, d | 0 <= i < 9 && 0 <= d < 9 { blocks[i, d] := '0'; }
      var valid := IsValidSudoku();
      if !valid {
        return;
      }
      Traceback(0, 0);
    }
  }
}
