/** Perpendicular word detection (`getWordAtPosition`, `findPerpendicularWords`).
    For a letter about to land on an empty cell, the word it forms across the
    main word is the maximal contiguous run of letters through that cell on
    the other axis, with the new letter put in at that cell only.  The run is
    worked out on the line through the cell, seen as a sequence of optional
    letters indexed by the coordinate along the line. */
module Perpendicular {
  import opened Common
  import opened Board

  /** A letter of a scored word: `{row, col, letter, isNew}`. */
  datatype ScoredPos = ScoredPos(row: int, col: int, letter: char, isNew: bool)

  /** What `getWordAtPosition` returns: `{text, positions, startRow, startCol, direction}`. */
  datatype FoundWord = FoundWord(text: string, positions: seq<ScoredPos>, startRow: int, startCol: int,
                                 direction: Direction)

  /** An entry of `findPerpendicularWords`: the word plus `newLetterPosition`
      and `newLetter`. */
  datatype PerpWord = PerpWord(word: FoundWord, newRow: int, newCol: int, newLetter: char)

  function Across(d: Direction): Direction {
    if d == Horizontal then Vertical else Horizontal
  }

  /** The cell with coordinate `k` along `dir` on the line through `(row, col)`. */
  function LinePos(row: int, col: int, dir: Direction, k: int): (int, int) {
    if dir == Horizontal then (row, k) else (k, col)
  }

  /** The coordinate of `(row, col)` along `dir`. */
  function Axis(row: int, col: int, dir: Direction): int {
    if dir == Horizontal then col else row
  }

  lemma LinePosTarget(row: int, col: int, dir: Direction, k: int)
    ensures LinePos(row, col, dir, k).0 == row && LinePos(row, col, dir, k).1 == col <==> k == Axis(row, col, dir)
  {
  }

  lemma LinePosStep(row: int, col: int, dir: Direction, s: int, k: int)
    ensures IsAt(PosAt(LinePos(row, col, dir, s).0, LinePos(row, col, dir, s).1, dir, k),
                 LinePos(row, col, dir, s + k).0, LinePos(row, col, dir, s + k).1)
  {
  }

  /** The letters of the line through `(row, col)` along `dir`. */
  function LineLetters(g: Grid, size: nat, row: int, col: int, dir: Direction): (line: seq<Option<char>>)
    requires IsGrid(g, size) && InGrid(size, row, col)
    ensures |line| == size
  {
    LinePrefix(g, size, row, col, dir, size)
  }

  /** The letters at coordinates `0 .. n - 1` of that line. */
  function LinePrefix(g: Grid, size: nat, row: int, col: int, dir: Direction, n: nat): (line: seq<Option<char>>)
    requires IsGrid(g, size) && InGrid(size, row, col) && n <= size
    ensures |line| == n
    decreases n
  {
    if n == 0 then []
    else LinePrefix(g, size, row, col, dir, n - 1) + [if dir == Horizontal then g[row][n - 1].letter else g[n - 1][col].letter]
  }

  lemma {:induction false} LinePrefixAt(g: Grid, size: nat, row: int, col: int, dir: Direction, n: nat, k: int)
    requires IsGrid(g, size) && InGrid(size, row, col) && n <= size && 0 <= k < n
    ensures var p := LinePos(row, col, dir, k);
      InGrid(size, p.0, p.1) && LinePrefix(g, size, row, col, dir, n)[k] == g[p.0][p.1].letter
    decreases n
  {
    if k < n - 1 {
      LinePrefixAt(g, size, row, col, dir, n - 1, k);
    }
  }

  /** Coordinate `j` of the line holds a letter. */
  predicate Filled(line: seq<Option<char>>, j: int) {
    0 <= j < |line| && line[j].Some?
  }

  /** The line is read straight off the board: coordinate `k` is filled
      exactly when its cell is occupied, with the same letter. */
  lemma LineLettersAt(g: Grid, size: nat, row: int, col: int, dir: Direction, k: int)
    requires IsGrid(g, size) && InGrid(size, row, col)
    ensures var p := LinePos(row, col, dir, k);
      Filled(LineLetters(g, size, row, col, dir), k) <==> Occupied(g, size, p.0, p.1)
    ensures var p := LinePos(row, col, dir, k);
      0 <= k < size ==> InGrid(size, p.0, p.1) && LineLetters(g, size, row, col, dir)[k] == g[p.0][p.1].letter
  {
    if 0 <= k < size {
      LinePrefixAt(g, size, row, col, dir, size, k);
    }
  }

  /** Where the backward walk from coordinate `k` stops: every coordinate
      passed is filled and the one before the stop is not. */
  function RunStart(line: seq<Option<char>>, k: int): (s: int)
    requires 0 <= k
    ensures 0 <= s <= k
    decreases k
  {
    if Filled(line, k - 1) then RunStart(line, k - 1) else k
  }

  lemma {:induction false} RunStartFilled(line: seq<Option<char>>, k: int)
    requires 0 <= k
    ensures forall j :: RunStart(line, k) <= j < k ==> Filled(line, j)
    ensures !Filled(line, RunStart(line, k) - 1)
    decreases k
  {
    if Filled(line, k - 1) {
      RunStartFilled(line, k - 1);
    }
  }

  /** The last coordinate of the run going forward from `k`. */
  function RunEnd(line: seq<Option<char>>, k: int): (e: int)
    requires 0 <= k < |line|
    ensures k <= e < |line|
    decreases |line| - k
  {
    if Filled(line, k + 1) then RunEnd(line, k + 1) else k
  }

  lemma {:induction false} RunEndFilled(line: seq<Option<char>>, k: int)
    requires 0 <= k < |line|
    ensures forall j :: k < j <= RunEnd(line, k) ==> Filled(line, j)
    ensures !Filled(line, RunEnd(line, k) + 1)
    decreases |line| - k
  {
    if Filled(line, k + 1) {
      RunEndFilled(line, k + 1);
    }
  }

  /** `[s, e]` is a maximal run through coordinate `t`: every coordinate of
      it but `t` is filled and both coordinates around it are not. */
  predicate IsRun(line: seq<Option<char>>, t: int, s: int, e: int) {
    && 0 <= s <= t <= e < |line|
    && (forall j :: s <= j <= e && j != t ==> Filled(line, j))
    && !Filled(line, s - 1)
    && !Filled(line, e + 1)
  }

  lemma RunStartEndIsRun(line: seq<Option<char>>, t: int)
    requires 0 <= t < |line|
    ensures IsRun(line, t, RunStart(line, t), RunEnd(line, t))
  {
    RunStartFilled(line, t);
    RunEndFilled(line, t);
  }

  /** The letter read at coordinate `j`: the new letter at `t`, the line's
      letter elsewhere. */
  function LetterAt(line: seq<Option<char>>, t: int, newLetter: char, j: int): char {
    if j == t then newLetter
    else if Filled(line, j) then line[j].value
    else newLetter
  }

  /** The entry for coordinate `j` of the line through `(row, col)`. */
  function ScoredAt(row: int, col: int, dir: Direction, line: seq<Option<char>>, newLetter: char, j: int): ScoredPos {
    var p := LinePos(row, col, dir, j);
    var t := Axis(row, col, dir);
    ScoredPos(p.0, p.1, LetterAt(line, t, newLetter, j), j == t)
  }

  /** The `n` entries of a run starting at coordinate `s`, as the forward
      read appends them. */
  function RunPositions(row: int, col: int, dir: Direction, line: seq<Option<char>>, newLetter: char, s: int, n: nat)
    : (ps: seq<ScoredPos>)
    ensures |ps| == n
    decreases n
  {
    if n == 0 then []
    else RunPositions(row, col, dir, line, newLetter, s, n - 1) + [ScoredAt(row, col, dir, line, newLetter, s + n - 1)]
  }

  lemma {:induction false} RunPositionsAt(row: int, col: int, dir: Direction, line: seq<Option<char>>,
                                          newLetter: char, s: int, n: nat)
    ensures forall i :: 0 <= i < n ==>
      RunPositions(row, col, dir, line, newLetter, s, n)[i] == ScoredAt(row, col, dir, line, newLetter, s + i)
    decreases n
  {
    if n > 0 {
      RunPositionsAt(row, col, dir, line, newLetter, s, n - 1);
    }
  }

  /** The text of the `n` letters of a run starting at coordinate `s`. */
  function RunText(line: seq<Option<char>>, t: int, newLetter: char, s: int, n: nat): (w: string)
    ensures |w| == n
    decreases n
  {
    if n == 0 then "" else RunText(line, t, newLetter, s, n - 1) + [LetterAt(line, t, newLetter, s + n - 1)]
  }

  lemma {:induction false} RunTextAt(line: seq<Option<char>>, t: int, newLetter: char, s: int, n: nat)
    ensures forall i :: 0 <= i < n ==> RunText(line, t, newLetter, s, n)[i] == LetterAt(line, t, newLetter, s + i)
    decreases n
  {
    if n > 0 {
      RunTextAt(line, t, newLetter, s, n - 1);
    }
  }

  /** The word through coordinate `Axis(row, col, dir)` of `line`, or `None`
      when the run there is a single letter. */
  function WordOnLine(row: int, col: int, dir: Direction, line: seq<Option<char>>, newLetter: char)
    : Option<FoundWord>
    requires 0 <= Axis(row, col, dir) < |line|
  {
    var t := Axis(row, col, dir);
    var s := RunStart(line, t);
    var e := RunEnd(line, t);
    if e - s + 1 <= 1 then None
    else
      var ps := RunPositions(row, col, dir, line, newLetter, s, e - s + 1);
      var start := LinePos(row, col, dir, s);
      Some(FoundWord(RunText(line, t, newLetter, s, e - s + 1), ps, start.0, start.1, dir))
  }

  /** `getWordAtPosition(row, col, dir, newLetter)` on the board `g`. */
  function WordAtPosition(g: Grid, size: nat, row: int, col: int, dir: Direction, newLetter: char)
    : Option<FoundWord>
    requires IsGrid(g, size) && InGrid(size, row, col)
  {
    WordOnLine(row, col, dir, LineLetters(g, size, row, col, dir), newLetter)
  }

  /** A found word has at least two letters, as the store's final length
      test demands. */
  lemma WordAtPositionLong(g: Grid, size: nat, row: int, col: int, dir: Direction, newLetter: char)
    requires IsGrid(g, size) && InGrid(size, row, col)
    ensures WordAtPosition(g, size, row, col, dir, newLetter).Some? ==>
      |WordAtPosition(g, size, row, col, dir, newLetter).value.text| >= 2
  {
  }

  /** A word is found exactly when a neighbour of `(row, col)` along `dir`
      is occupied. */
  lemma WordAtPositionFound(g: Grid, size: nat, row: int, col: int, dir: Direction, newLetter: char)
    requires IsGrid(g, size) && InGrid(size, row, col)
    ensures var before := PosAt(row, col, dir, -1);
      var after := PosAt(row, col, dir, 1);
      WordAtPosition(g, size, row, col, dir, newLetter).Some? <==>
        Occupied(g, size, before.0, before.1) || Occupied(g, size, after.0, after.1)
  {
    var line := LineLetters(g, size, row, col, dir);
    var t := Axis(row, col, dir);
    var s := RunStart(line, t);
    var e := RunEnd(line, t);
    LineLettersAt(g, size, row, col, dir, t - 1);
    LineLettersAt(g, size, row, col, dir, t + 1);
    if s < t {
      assert Filled(line, t - 1);
    }
    if t < e {
      assert Filled(line, t + 1);
    }
  }

  /** The entries of a found word are those of the run through `(row, col)`. */
  lemma WordAtPositionEntries(g: Grid, size: nat, row: int, col: int, dir: Direction, newLetter: char)
    requires IsGrid(g, size) && InGrid(size, row, col)
    requires WordAtPosition(g, size, row, col, dir, newLetter).Some?
    ensures var line := LineLetters(g, size, row, col, dir);
      var s := RunStart(line, Axis(row, col, dir));
      var w := WordAtPosition(g, size, row, col, dir, newLetter).value;
      && w.direction == dir
      && IsAt(LinePos(row, col, dir, s), w.startRow, w.startCol)
      && |w.positions| == RunEnd(line, Axis(row, col, dir)) - s + 1 >= 2
      && w.text == RunText(line, Axis(row, col, dir), newLetter, s, |w.positions|)
      && (forall i :: 0 <= i < |w.positions| ==> w.positions[i] == ScoredAt(row, col, dir, line, newLetter, s + i))
  {
    var line := LineLetters(g, size, row, col, dir);
    var t := Axis(row, col, dir);
    RunPositionsAt(row, col, dir, line, newLetter, RunStart(line, t), RunEnd(line, t) - RunStart(line, t) + 1);
  }

  /** A found word spells its entries' letters, in order. */
  lemma WordAtPositionText(g: Grid, size: nat, row: int, col: int, dir: Direction, newLetter: char)
    requires IsGrid(g, size) && InGrid(size, row, col)
    requires WordAtPosition(g, size, row, col, dir, newLetter).Some?
    ensures var w := WordAtPosition(g, size, row, col, dir, newLetter).value;
      && w.direction == dir && |w.positions| >= 2 && |w.text| == |w.positions|
      && (forall i :: 0 <= i < |w.positions| ==> w.text[i] == w.positions[i].letter)
  {
    WordAtPositionEntries(g, size, row, col, dir, newLetter);
    var line := LineLetters(g, size, row, col, dir);
    var t := Axis(row, col, dir);
    RunTextAt(line, t, newLetter, RunStart(line, t), RunEnd(line, t) - RunStart(line, t) + 1);
  }

  /** A found word occupies consecutive cells from its start along `dir`,
      and exactly one of them, `(row, col)`, is marked new. */
  lemma WordAtPositionCells(g: Grid, size: nat, row: int, col: int, dir: Direction, newLetter: char)
    requires IsGrid(g, size) && InGrid(size, row, col)
    requires WordAtPosition(g, size, row, col, dir, newLetter).Some?
    ensures var w := WordAtPosition(g, size, row, col, dir, newLetter).value;
      var ps := w.positions;
      && (forall i :: 0 <= i < |ps| ==> IsAt(PosAt(w.startRow, w.startCol, dir, i), ps[i].row, ps[i].col))
      && (forall i :: 0 <= i < |ps| ==> (ps[i].isNew <==> ps[i].row == row && ps[i].col == col))
      && (exists i :: 0 <= i < |ps| && ps[i].isNew)
  {
    WordAtPositionEntries(g, size, row, col, dir, newLetter);
    var line := LineLetters(g, size, row, col, dir);
    var t := Axis(row, col, dir);
    var s := RunStart(line, t);
    var w := WordAtPosition(g, size, row, col, dir, newLetter).value;
    var ps := w.positions;
    forall i | 0 <= i < |ps|
      ensures IsAt(PosAt(w.startRow, w.startCol, dir, i), ps[i].row, ps[i].col)
      ensures ps[i].isNew <==> ps[i].row == row && ps[i].col == col
    {
      assert ps[i] == ScoredAt(row, col, dir, line, newLetter, s + i);
      LinePosStep(row, col, dir, s, i);
      LinePosTarget(row, col, dir, s + i);
    }
    assert ps[t - s].isNew;
  }

  /** The new entry holds the new letter, and every other entry is an
      occupied cell whose letter it repeats. */
  lemma WordAtPositionLetters(g: Grid, size: nat, row: int, col: int, dir: Direction, newLetter: char)
    requires IsGrid(g, size) && InGrid(size, row, col)
    requires WordAtPosition(g, size, row, col, dir, newLetter).Some?
    ensures var ps := WordAtPosition(g, size, row, col, dir, newLetter).value.positions;
      && (forall i :: 0 <= i < |ps| && ps[i].isNew ==> ps[i].letter == newLetter)
      && (forall i :: 0 <= i < |ps| && !ps[i].isNew ==>
            Occupied(g, size, ps[i].row, ps[i].col) && g[ps[i].row][ps[i].col].letter == Some(ps[i].letter))
  {
    WordAtPositionEntries(g, size, row, col, dir, newLetter);
    var line := LineLetters(g, size, row, col, dir);
    var t := Axis(row, col, dir);
    var s := RunStart(line, t);
    var ps := WordAtPosition(g, size, row, col, dir, newLetter).value.positions;
    RunStartEndIsRun(line, t);
    forall i | 0 <= i < |ps| && !ps[i].isNew
      ensures Occupied(g, size, ps[i].row, ps[i].col) && g[ps[i].row][ps[i].col].letter == Some(ps[i].letter)
    {
      assert ps[i] == ScoredAt(row, col, dir, line, newLetter, s + i);
      assert s + i != t && Filled(line, s + i);
      LineLettersAt(g, size, row, col, dir, s + i);
    }
  }

  /** A found word cannot be extended: the cells just before and just after
      it are empty or off the board. */
  lemma WordAtPositionMaximal(g: Grid, size: nat, row: int, col: int, dir: Direction, newLetter: char)
    requires IsGrid(g, size) && InGrid(size, row, col)
    requires WordAtPosition(g, size, row, col, dir, newLetter).Some?
    ensures var w := WordAtPosition(g, size, row, col, dir, newLetter).value;
      var before := PosAt(w.startRow, w.startCol, dir, -1);
      var after := PosAt(w.startRow, w.startCol, dir, |w.positions|);
      !Occupied(g, size, before.0, before.1) && !Occupied(g, size, after.0, after.1)
  {
    var line := LineLetters(g, size, row, col, dir);
    var t := Axis(row, col, dir);
    var s := RunStart(line, t);
    var e := RunEnd(line, t);
    RunStartEndIsRun(line, t);
    LinePosStep(row, col, dir, s, -1);
    LinePosStep(row, col, dir, s, e - s + 1);
    LineLettersAt(g, size, row, col, dir, s - 1);
    LineLettersAt(g, size, row, col, dir, e + 1);
  }

  /** The cross word letter `i` forms, if it lands on an empty cell and a
      word longer than one letter runs across it there. */
  function CrossWordAt(g: Grid, size: nat, letters: string, sr: int, sc: int, dir: Direction, i: nat)
    : Option<PerpWord>
    requires IsGrid(g, size) && i < |letters| && AllInGrid(size, |letters|, sr, sc, dir)
  {
    var p := PosAt(sr, sc, dir, i);
    if Occupied(g, size, p.0, p.1) then None
    else
      match WordAtPosition(g, size, p.0, p.1, Across(dir), letters[i])
      case None => None
      case Some(w) => Some(PerpWord(w, p.0, p.1, letters[i]))
  }

  /** `findPerpendicularWords` over the first `n` letters: only letters
      landing on empty cells are looked at, each along the other axis. */
  function PerpendicularWords(g: Grid, size: nat, letters: string, sr: int, sc: int, dir: Direction, n: nat)
    : seq<PerpWord>
    requires IsGrid(g, size) && n <= |letters| && AllInGrid(size, |letters|, sr, sc, dir)
    decreases n
  {
    if n == 0 then []
    else
      var prev := PerpendicularWords(g, size, letters, sr, sc, dir, n - 1);
      match CrossWordAt(g, size, letters, sr, sc, dir, n - 1)
      case None => prev
      case Some(pw) => prev + [pw]
  }

  /** Entry `pw` is the word formed across letter `i`, which lands on an empty cell. */
  predicate FromNewLetter(g: Grid, size: nat, letters: string, sr: int, sc: int, dir: Direction, pw: PerpWord, i: int)
    requires IsGrid(g, size) && AllInGrid(size, |letters|, sr, sc, dir)
  {
    var p := PosAt(sr, sc, dir, i);
    && 0 <= i < |letters|
    && !Occupied(g, size, p.0, p.1)
    && IsAt(p, pw.newRow, pw.newCol)
    && pw.newLetter == letters[i]
    && WordAtPosition(g, size, p.0, p.1, Across(dir), letters[i]) == Some(pw.word)
  }

  /** Entry `pw` is the cross word of one of the first `n` letters. */
  predicate FromSomeLetter(g: Grid, size: nat, letters: string, sr: int, sc: int, dir: Direction, pw: PerpWord, n: nat)
    requires IsGrid(g, size) && AllInGrid(size, |letters|, sr, sc, dir)
  {
    exists i :: 0 <= i < n && FromNewLetter(g, size, letters, sr, sc, dir, pw, i)
  }

  /** Some entry of `res` is the cross word of letter `i`. */
  predicate HasEntryFor(g: Grid, size: nat, letters: string, sr: int, sc: int, dir: Direction, res: seq<PerpWord>, i: int)
    requires IsGrid(g, size) && AllInGrid(size, |letters|, sr, sc, dir)
  {
    exists k :: 0 <= k < |res| && FromNewLetter(g, size, letters, sr, sc, dir, res[k], i)
  }

  /** Every secondary word is the cross word of a letter that lands on an
      empty cell. */
  lemma {:induction false} PerpendicularWordsSound(g: Grid, size: nat, letters: string, sr: int, sc: int,
                                                   dir: Direction, n: nat)
    requires IsGrid(g, size) && n <= |letters| && AllInGrid(size, |letters|, sr, sc, dir)
    ensures forall k :: 0 <= k < |PerpendicularWords(g, size, letters, sr, sc, dir, n)| ==>
      FromSomeLetter(g, size, letters, sr, sc, dir, PerpendicularWords(g, size, letters, sr, sc, dir, n)[k], n)
    decreases n
  {
    if n > 0 {
      PerpendicularWordsSound(g, size, letters, sr, sc, dir, n - 1);
      var prev := PerpendicularWords(g, size, letters, sr, sc, dir, n - 1);
      var res := PerpendicularWords(g, size, letters, sr, sc, dir, n);
      var p := PosAt(sr, sc, dir, n - 1);
      assert InGrid(size, p.0, p.1);
      forall k | 0 <= k < |res|
        ensures FromSomeLetter(g, size, letters, sr, sc, dir, res[k], n)
      {
        if k < |prev| {
          assert FromSomeLetter(g, size, letters, sr, sc, dir, prev[k], n - 1);
          var i :| 0 <= i < n - 1 && FromNewLetter(g, size, letters, sr, sc, dir, prev[k], i);
          assert res[k] == prev[k];
          assert FromNewLetter(g, size, letters, sr, sc, dir, res[k], i);
        } else {
          assert FromNewLetter(g, size, letters, sr, sc, dir, res[k], n - 1);
        }
      }
    }
  }

  /** Letter `i` has a cross word exactly when it lands on an empty cell
      and a word runs across it there; that word is then `FromNewLetter`. */
  lemma CrossWordAtMeaning(g: Grid, size: nat, letters: string, sr: int, sc: int, dir: Direction, i: nat)
    requires IsGrid(g, size) && i < |letters| && AllInGrid(size, |letters|, sr, sc, dir)
    ensures var p := PosAt(sr, sc, dir, i);
      CrossWordAt(g, size, letters, sr, sc, dir, i).Some? <==>
        !Occupied(g, size, p.0, p.1) && WordAtPosition(g, size, p.0, p.1, Across(dir), letters[i]).Some?
    ensures CrossWordAt(g, size, letters, sr, sc, dir, i).Some? ==>
      FromNewLetter(g, size, letters, sr, sc, dir, CrossWordAt(g, size, letters, sr, sc, dir, i).value, i)
  {
  }

  /** The cross word of each of the first `n` letters is kept. */
  lemma {:induction false} PerpendicularWordsKeeps(g: Grid, size: nat, letters: string, sr: int, sc: int,
                                                   dir: Direction, n: nat, i: nat)
    requires IsGrid(g, size) && n <= |letters| && AllInGrid(size, |letters|, sr, sc, dir)
    requires i < n && CrossWordAt(g, size, letters, sr, sc, dir, i).Some?
    ensures CrossWordAt(g, size, letters, sr, sc, dir, i).value in PerpendicularWords(g, size, letters, sr, sc, dir, n)
    decreases n
  {
    if i < n - 1 {
      PerpendicularWordsKeeps(g, size, letters, sr, sc, dir, n - 1, i);
    }
  }

  /** Every letter that lands on an empty cell and forms a cross word has
      that word among the secondary words. */
  lemma PerpendicularWordsComplete(g: Grid, size: nat, letters: string, sr: int, sc: int,
                                   dir: Direction, n: nat, i: nat)
    requires IsGrid(g, size) && n <= |letters| && AllInGrid(size, |letters|, sr, sc, dir)
    requires i < n
    requires !Occupied(g, size, PosAt(sr, sc, dir, i).0, PosAt(sr, sc, dir, i).1)
    requires WordAtPosition(g, size, PosAt(sr, sc, dir, i).0, PosAt(sr, sc, dir, i).1, Across(dir), letters[i]).Some?
    ensures HasEntryFor(g, size, letters, sr, sc, dir, PerpendicularWords(g, size, letters, sr, sc, dir, n), i)
  {
    CrossWordAtMeaning(g, size, letters, sr, sc, dir, i);
    PerpendicularWordsKeeps(g, size, letters, sr, sc, dir, n, i);
    var res := PerpendicularWords(g, size, letters, sr, sc, dir, n);
    var k :| 0 <= k < |res| && res[k] == CrossWordAt(g, size, letters, sr, sc, dir, i).value;
    assert FromNewLetter(g, size, letters, sr, sc, dir, res[k], i);
  }

  /** A word laid entirely over existing letters forms no secondary word. */
  lemma {:induction false} PerpendicularWordsNone(g: Grid, size: nat, letters: string, sr: int, sc: int,
                                                  dir: Direction, n: nat)
    requires IsGrid(g, size) && n <= |letters| && AllInGrid(size, |letters|, sr, sc, dir)
    requires forall i :: 0 <= i < n ==> Occupied(g, size, PosAt(sr, sc, dir, i).0, PosAt(sr, sc, dir, i).1)
    ensures PerpendicularWords(g, size, letters, sr, sc, dir, n) == []
    decreases n
  {
    if n > 0 {
      PerpendicularWordsNone(g, size, letters, sr, sc, dir, n - 1);
    }
  }

  /** The backward walk of `getWordAtPosition`: step back while the previous
      cell is on the board and holds a letter. */
  method WalkBack(g: Grid, size: nat, row: int, col: int, dir: Direction) returns (startRow: int, startCol: int)
    requires IsGrid(g, size) && InGrid(size, row, col)
    ensures IsAt(LinePos(row, col, dir, RunStart(LineLetters(g, size, row, col, dir), Axis(row, col, dir))), startRow, startCol)
  {
    var rowDelta := if dir == Vertical then 1 else 0;
    var colDelta := if dir == Horizontal then 1 else 0;
    ghost var line := LineLetters(g, size, row, col, dir);
    ghost var s := RunStart(line, Axis(row, col, dir));
    ghost var a := Axis(row, col, dir);
    startRow, startCol := row, col;
    while true
      invariant IsAt(LinePos(row, col, dir, a), startRow, startCol)
      invariant s <= a && RunStart(line, a) == s
      decreases a
    {
      var prevRow := startRow - rowDelta;
      var prevCol := startCol - colDelta;
      assert IsAt(LinePos(row, col, dir, a - 1), prevRow, prevCol);
      LineLettersAt(g, size, row, col, dir, a - 1);
      if prevRow < 0 || prevCol < 0 || prevRow >= size || prevCol >= size {
        break;
      }
      if g[prevRow][prevCol].letter.None? {
        break;
      }
      startRow, startCol := prevRow, prevCol;
      a := a - 1;
    }
  }

  /** The forward read may go on at coordinate `a` only inside the run. */
  lemma ReadContinues(line: seq<Option<char>>, t: int, s: int, e: int, a: int)
    requires IsRun(line, t, s, e) && s <= a <= e + 1
    requires a == t || Filled(line, a)
    ensures a <= e
  {
  }

  /** The forward read stops at coordinate `a` only just past the run. */
  lemma ReadStops(line: seq<Option<char>>, t: int, s: int, e: int, a: int)
    requires IsRun(line, t, s, e) && s <= a <= e + 1
    requires a != t && !Filled(line, a)
    ensures a == e + 1
  {
  }

  /** The forward read of `getWordAtPosition`, from the start of the run
      `[s, e]` until the board ends or a cell other than `(row, col)` is
      empty. */
  method ReadRun(g: Grid, size: nat, row: int, col: int, dir: Direction, newLetter: char,
                 startRow: int, startCol: int, ghost s: int, ghost e: int)
    returns (positions: seq<ScoredPos>, wordText: string)
    requires IsGrid(g, size) && InGrid(size, row, col)
    requires IsRun(LineLetters(g, size, row, col, dir), Axis(row, col, dir), s, e)
    requires IsAt(LinePos(row, col, dir, s), startRow, startCol)
    ensures positions == RunPositions(row, col, dir, LineLetters(g, size, row, col, dir), newLetter, s, e - s + 1)
    ensures wordText == RunText(LineLetters(g, size, row, col, dir), Axis(row, col, dir), newLetter, s, e - s + 1)
  {
    var rowDelta := if dir == Vertical then 1 else 0;
    var colDelta := if dir == Horizontal then 1 else 0;
    ghost var line := LineLetters(g, size, row, col, dir);
    ghost var t := Axis(row, col, dir);
    positions, wordText := [], "";
    var currentRow, currentCol := startRow, startCol;
    ghost var a := s;
    while currentRow < size && currentCol < size
      invariant IsAt(LinePos(row, col, dir, a), currentRow, currentCol)
      invariant s <= a <= e + 1
      invariant positions == RunPositions(row, col, dir, line, newLetter, s, a - s)
      invariant wordText == RunText(line, t, newLetter, s, a - s)
      decreases e + 1 - a
    {
      LineLettersAt(g, size, row, col, dir, a);
      LinePosTarget(row, col, dir, a);
      var isNew := currentRow == row && currentCol == col;
      var letter := if isNew then Some(newLetter) else g[currentRow][currentCol].letter;
      if letter.None? {
        ReadStops(line, t, s, e, a);
        break;
      }
      ReadContinues(line, t, s, e, a);
      var entry := ScoredPos(currentRow, currentCol, letter.value, isNew);
      assert entry == ScoredAt(row, col, dir, line, newLetter, a);
      wordText := wordText + [letter.value];
      positions := positions + [entry];
      currentRow, currentCol := currentRow + rowDelta, currentCol + colDelta;
      a := a + 1;
    }
    if a <= e {
      LineLettersAt(g, size, row, col, dir, a);
      assert false;
    }
  }

  /** The store's `getWordAtPosition`. */
  method GetWordAtPosition(g: Grid, size: nat, row: int, col: int, dir: Direction, newLetter: char)
    returns (r: Option<FoundWord>)
    requires IsGrid(g, size) && InGrid(size, row, col)
    ensures r == WordAtPosition(g, size, row, col, dir, newLetter)
  {
    ghost var line := LineLetters(g, size, row, col, dir);
    ghost var t := Axis(row, col, dir);
    var startRow, startCol := WalkBack(g, size, row, col, dir);
    RunStartEndIsRun(line, t);
    var positions, wordText := ReadRun(g, size, row, col, dir, newLetter, startRow, startCol,
                                       RunStart(line, t), RunEnd(line, t));
    if |wordText| <= 1 {
      return None;
    }
    return Some(FoundWord(wordText, positions, startRow, startCol, dir));
  }

  /** The store's `findPerpendicularWords`: the typed word is upper-cased
      and its letters are visited in order. */
  method FindPerpendicularWords(g: Grid, size: nat, text: string, sr: int, sc: int, dir: Direction)
    returns (r: seq<PerpWord>)
    requires IsGrid(g, size) && AllInGrid(size, |text|, sr, sc, dir)
    ensures r == PerpendicularWords(g, size, Upper(text), sr, sc, dir, |text|)
  {
    r := CollectCrossWords(g, size, Upper(text), sr, sc, dir);
  }

  /** The loop of `findPerpendicularWords` over upper-cased letters. */
  method CollectCrossWords(g: Grid, size: nat, letters: string, sr: int, sc: int, dir: Direction)
    returns (r: seq<PerpWord>)
    requires IsGrid(g, size) && AllInGrid(size, |letters|, sr, sc, dir)
    ensures r == PerpendicularWords(g, size, letters, sr, sc, dir, |letters|)
  {
    r := [];
    for i := 0 to |letters|
      invariant r == PerpendicularWords(g, size, letters, sr, sc, dir, i)
    {
      var entry := CrossWordOfLetter(g, size, letters, sr, sc, dir, i);
      r := r + (if entry.Some? then [entry.value] else []);
    }
  }

  /** One turn of that loop: skip a letter already on the board, otherwise
      keep the word across it when it is longer than one letter. */
  method CrossWordOfLetter(g: Grid, size: nat, letters: string, sr: int, sc: int, dir: Direction, i: nat)
    returns (entry: Option<PerpWord>)
    requires IsGrid(g, size) && i < |letters| && AllInGrid(size, |letters|, sr, sc, dir)
    ensures entry == CrossWordAt(g, size, letters, sr, sc, dir, i)
  {
    var row := if dir == Horizontal then sr else sr + i;
    var col := if dir == Horizontal then sc + i else sc;
    assert IsAt(PosAt(sr, sc, dir, i), row, col);
    assert InGrid(size, row, col);
    if g[row][col].letter.Some? {
      return None;
    }
    var perpWord := GetWordAtPosition(g, size, row, col, Across(dir), letters[i]);
    WordAtPositionLong(g, size, row, col, Across(dir), letters[i]);
    if perpWord.Some? && |perpWord.value.text| > 1 {
      return Some(PerpWord(perpWord.value, row, col, letters[i]));
    }
    return None;
  }
}
