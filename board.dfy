/** The board grid of the board-game store: a `size × size` matrix of cells
    `{letter, playerId, wordId}`, where an empty cell has all three unset.
    A letter of a placed word at index `i` lands on `(startRow, startCol + i)`
    horizontally or `(startRow + i, startCol)` vertically. */
module Board {
  import opened Common

  datatype Direction = Horizontal | Vertical

  datatype Cell = Cell(letter: Option<char>, playerId: Option<int>, wordId: Option<int>)

  const EmptyCell := Cell(None, None, None)

  type Grid = seq<seq<Cell>>

  predicate IsGrid(g: Grid, size: nat) {
    |g| == size && forall r :: 0 <= r < |g| ==> |g[r]| == size
  }

  /** `initializeBoard`: every cell empty. */
  function EmptyGrid(size: nat): (g: Grid)
    ensures IsGrid(g, size)
    ensures forall r, c :: 0 <= r < size && 0 <= c < size ==> g[r][c] == EmptyCell
  {
    seq(size, _ => seq(size, _ => EmptyCell))
  }

  /** `centerPosition`: `Math.floor(boardSize / 2)`. */
  function Center(size: nat): nat {
    size / 2
  }

  /** Where letter `i` of a word starting at `(sr, sc)` lands. */
  function PosAt(sr: int, sc: int, dir: Direction, i: int): (int, int) {
    if dir == Horizontal then (sr, sc + i) else (sr + i, sc)
  }

  /** The index of the letter that lands on `(r, c)`, or -1 when `(r, c)` is
      not on the word's line (the index may still lie past either end). */
  function OffsetOf(sr: int, sc: int, dir: Direction, r: int, c: int): int {
    if dir == Horizontal then (if r == sr then c - sc else -1)
    else (if c == sc then r - sr else -1)
  }

  lemma OffsetOfPosAt(sr: int, sc: int, dir: Direction, i: int, r: int, c: int)
    requires i >= 0
    ensures IsAt(PosAt(sr, sc, dir, i), r, c) <==> OffsetOf(sr, sc, dir, r, c) == i
  {
  }

  /** Position `p` is the cell `(r, c)`. */
  predicate IsAt(p: (int, int), r: int, c: int) {
    p.0 == r && p.1 == c
  }

  predicate InGrid(size: nat, r: int, c: int) {
    0 <= r < size && 0 <= c < size
  }

  /** A cell inside the grid that holds a letter; outside the grid there is
      nothing, as `boardGrid[row]?.[col]?.letter` is `undefined` there. */
  predicate Occupied(g: Grid, size: nat, r: int, c: int)
    requires IsGrid(g, size)
  {
    InGrid(size, r, c) && g[r][c].letter.Some?
  }

  /** Every letter of a word of length `n` lies on the board. */
  predicate AllInGrid(size: nat, n: nat, sr: int, sc: int, dir: Direction) {
    forall i :: 0 <= i < n ==> InGrid(size, PosAt(sr, sc, dir, i).0, PosAt(sr, sc, dir, i).1)
  }

  /** One letter of a placed word, as kept in `placedWord.positions`. */
  datatype LetterPos = LetterPos(row: int, col: int, letter: char)

  /** A word on the board: `{id, text, playerId, startRow, startCol,
      direction, positions}`. */
  datatype PlacedWord = PlacedWord(id: int, text: string, playerId: int, startRow: int,
                                   startCol: int, direction: Direction, positions: seq<LetterPos>)

  function LetterPositions(letters: string, sr: int, sc: int, dir: Direction): (ps: seq<LetterPos>)
    ensures |ps| == |letters|
    ensures forall i :: 0 <= i < |ps| ==>
      IsAt(PosAt(sr, sc, dir, i), ps[i].row, ps[i].col) && ps[i].letter == letters[i]
  {
    seq(|letters|, i requires 0 <= i < |letters| =>
      LetterPos(PosAt(sr, sc, dir, i).0, PosAt(sr, sc, dir, i).1, letters[i]))
  }

  /** Write `cell` at `(r, c)` only when that cell is on the board and empty. */
  function SetIfEmpty(g: Grid, size: nat, r: int, c: int, cell: Cell): (g': Grid)
    requires IsGrid(g, size)
    ensures IsGrid(g', size)
  {
    if InGrid(size, r, c) && g[r][c].letter.None? then g[r := g[r][c := cell]] else g
  }

  /** The grid after the first `n` letters of a word were written one by one
      by the loops of `placeWord` and `rebuildBoardGridFromPlacedWords`: a
      letter goes only into an empty cell, with the writer's ids. */
  function WriteLetters(g: Grid, size: nat, letters: string, sr: int, sc: int, dir: Direction,
                        pid: int, wid: int, n: nat): (g': Grid)
    requires IsGrid(g, size) && n <= |letters|
    ensures IsGrid(g', size)
    decreases n
  {
    if n == 0 then g
    else
      var p := PosAt(sr, sc, dir, n - 1);
      SetIfEmpty(WriteLetters(g, size, letters, sr, sc, dir, pid, wid, n - 1), size, p.0, p.1,
                 Cell(Some(letters[n - 1]), Some(pid), Some(wid)))
  }

  /** What a cell holds once the first `n` letters are written. */
  function WrittenCell(g: Grid, size: nat, letters: string, sr: int, sc: int, dir: Direction,
                       pid: int, wid: int, n: nat, r: int, c: int): Cell
    requires IsGrid(g, size) && n <= |letters| && InGrid(size, r, c)
  {
    var k := OffsetOf(sr, sc, dir, r, c);
    if 0 <= k < n && g[r][c].letter.None? then Cell(Some(letters[k]), Some(pid), Some(wid))
    else g[r][c]
  }

  /** Cell by cell, writing a word changes exactly the empty cells it covers:
      an occupied cell keeps its letter and both of its ids. */
  lemma {:induction false} WriteLettersAt(g: Grid, size: nat, letters: string, sr: int, sc: int,
                                          dir: Direction, pid: int, wid: int, n: nat, r: int, c: int)
    requires IsGrid(g, size) && n <= |letters| && InGrid(size, r, c)
    ensures WriteLetters(g, size, letters, sr, sc, dir, pid, wid, n)[r][c] ==
            WrittenCell(g, size, letters, sr, sc, dir, pid, wid, n, r, c)
    decreases n
  {
    if n > 0 {
      WriteLettersAt(g, size, letters, sr, sc, dir, pid, wid, n - 1, r, c);
      OffsetOfPosAt(sr, sc, dir, n - 1, r, c);
    }
  }

  /** First writer wins, and every covered cell ends up occupied. */
  lemma WriteLettersKeepsOccupied(g: Grid, size: nat, letters: string, sr: int, sc: int,
                                  dir: Direction, pid: int, wid: int, n: nat, r: int, c: int)
    requires IsGrid(g, size) && n <= |letters| && InGrid(size, r, c)
    ensures g[r][c].letter.Some? ==>
      WriteLetters(g, size, letters, sr, sc, dir, pid, wid, n)[r][c] == g[r][c]
    ensures 0 <= OffsetOf(sr, sc, dir, r, c) < n ==>
      WriteLetters(g, size, letters, sr, sc, dir, pid, wid, n)[r][c].letter.Some?
    ensures !(0 <= OffsetOf(sr, sc, dir, r, c) < n) ==>
      WriteLetters(g, size, letters, sr, sc, dir, pid, wid, n)[r][c] == g[r][c]
  {
    WriteLettersAt(g, size, letters, sr, sc, dir, pid, wid, n, r, c);
  }

  /** The letter loop shared by `placeWord` and `rebuildBoardGridFromPlacedWords`:
      letter `i` goes to its cell only when that cell is on the board and empty. */
  method WriteWord(g0: Grid, size: nat, letters: string, sr: int, sc: int, dir: Direction,
                   pid: int, wid: int) returns (g: Grid)
    requires IsGrid(g0, size)
    ensures g == WriteLetters(g0, size, letters, sr, sc, dir, pid, wid, |letters|)
  {
    g := g0;
    for i := 0 to |letters|
      invariant g == WriteLetters(g0, size, letters, sr, sc, dir, pid, wid, i)
    {
      var row := if dir == Horizontal then sr else sr + i;
      var col := if dir == Horizontal then sc + i else sc;
      if 0 <= row < size && 0 <= col < size && g[row][col].letter.None? {
        g := g[row := g[row][col := Cell(Some(letters[i]), Some(pid), Some(wid))]];
      }
    }
  }

  /** Does some letter of `ps` sit on `(r, c)`? */
  predicate Covers(ps: seq<LetterPos>, r: int, c: int) {
    exists j :: 0 <= j < |ps| && ps[j].row == r && ps[j].col == c
  }

  /** The grid after `deleteWord` blanked the first `n` positions in turn. */
  function BlankPositions(g: Grid, size: nat, ps: seq<LetterPos>, n: nat): (g': Grid)
    requires IsGrid(g, size) && n <= |ps|
    ensures IsGrid(g', size)
    decreases n
  {
    if n == 0 then g
    else
      var g1 := BlankPositions(g, size, ps, n - 1);
      var p := ps[n - 1];
      if InGrid(size, p.row, p.col) then g1[p.row := g1[p.row][p.col := EmptyCell]] else g1
  }

  /** `placedWord.positions.forEach(...)` in `deleteWord`: each listed cell
      on the board is emptied in turn. */
  method ClearPositions(g0: Grid, size: nat, ps: seq<LetterPos>) returns (g: Grid)
    requires IsGrid(g0, size)
    ensures g == BlankPositions(g0, size, ps, |ps|)
  {
    g := g0;
    for i := 0 to |ps|
      invariant g == BlankPositions(g0, size, ps, i)
    {
      var p := ps[i];
      if 0 <= p.row < size && 0 <= p.col < size {
        g := g[p.row := g[p.row][p.col := EmptyCell]];
      }
    }
  }

  /** Blanking empties every listed cell, whoever wrote it, and nothing else. */
  lemma {:induction false} BlankPositionsAt(g: Grid, size: nat, ps: seq<LetterPos>, n: nat, r: int, c: int)
    requires IsGrid(g, size) && n <= |ps| && InGrid(size, r, c)
    ensures BlankPositions(g, size, ps, n)[r][c] ==
            if Covers(ps[..n], r, c) then EmptyCell else g[r][c]
    decreases n
  {
    if n > 0 {
      BlankPositionsAt(g, size, ps, n - 1, r, c);
      var p := ps[n - 1];
      assert forall j :: 0 <= j < n - 1 ==> ps[..n][j] == ps[..n - 1][j];
      if p.row == r && p.col == c {
        assert ps[..n][n - 1] == p;
      } else if Covers(ps[..n], r, c) {
        var j :| 0 <= j < n && ps[..n][j].row == r && ps[..n][j].col == c;
        assert j < n - 1;
        assert ps[..n - 1][j] == ps[..n][j];
      }
    }
  }
}
