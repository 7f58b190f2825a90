/** `validateWordPlacement`: the checks a placement must pass, in the order
    the store runs them — empty word, bounds, then either the centre rule
    (first word) or the letter-match and connection rules (later words), and
    last the dictionary predicate, which the store stubs to accept every
    word and which is a parameter here. */
module Validation {
  import opened Common
  import opened Board

  datatype ValidationError =
    | EmptyWord
    | OutOfBounds
    | MustPassCenter
    | LetterMismatch(existing: char, placed: char)
    | MustConnect
    | NotInDictionary

  datatype Verdict = Accepted | Rejected(error: ValidationError)

  /** The store's dictionary stub `isValidWord`: every word is valid. */
  function AnyWord(word: string): bool {
    true
  }

  /** The bounds test as the store writes it: start and end of the word. */
  predicate WithinBoard(size: nat, n: nat, sr: int, sc: int, dir: Direction) {
    var end := PosAt(sr, sc, dir, n - 1);
    !(sr < 0 || sc < 0 || end.0 >= size || end.1 >= size)
  }

  /** Testing the two ends is the same as testing every letter. */
  lemma WithinBoardIff(size: nat, n: nat, sr: int, sc: int, dir: Direction)
    requires n >= 1
    ensures WithinBoard(size, n, sr, sc, dir) <==> AllInGrid(size, n, sr, sc, dir)
  {
    if !WithinBoard(size, n, sr, sc, dir) {
      var end := PosAt(sr, sc, dir, n - 1);
      if sr < 0 || sc < 0 {
        assert !InGrid(size, PosAt(sr, sc, dir, 0).0, PosAt(sr, sc, dir, 0).1);
      } else {
        assert !InGrid(size, end.0, end.1);
      }
    }
  }

  predicate PassesCenter(size: nat, n: nat, sr: int, sc: int, dir: Direction) {
    exists i :: 0 <= i < n && IsAt(PosAt(sr, sc, dir, i), Center(size), Center(size))
  }

  /** Letter `i` lands on an occupied cell holding a different letter
      (compared after upper-casing the letter already on the board). */
  predicate MismatchAt(g: Grid, size: nat, letters: string, sr: int, sc: int, dir: Direction, i: int)
    requires IsGrid(g, size)
  {
    var p := PosAt(sr, sc, dir, i);
    0 <= i < |letters| && Occupied(g, size, p.0, p.1) && UpperChar(g[p.0][p.1].letter.value) != letters[i]
  }

  /** An occupied orthogonal neighbour (top, bottom, left, right) on the board. */
  predicate NeighbourOccupied(g: Grid, size: nat, r: int, c: int)
    requires IsGrid(g, size)
  {
    Occupied(g, size, r - 1, c) || Occupied(g, size, r + 1, c) ||
    Occupied(g, size, r, c - 1) || Occupied(g, size, r, c + 1)
  }

  /** Letter `i` connects: it overlaps a letter or touches one. */
  predicate ConnectsAt(g: Grid, size: nat, sr: int, sc: int, dir: Direction, i: int)
    requires IsGrid(g, size)
  {
    var p := PosAt(sr, sc, dir, i);
    Occupied(g, size, p.0, p.1) || NeighbourOccupied(g, size, p.0, p.1)
  }

  predicate Connects(g: Grid, size: nat, n: nat, sr: int, sc: int, dir: Direction)
    requires IsGrid(g, size)
  {
    exists i :: 0 <= i < n && ConnectsAt(g, size, sr, sc, dir, i)
  }

  /** The first mismatching letter at index `i` or later, if any. */
  function FirstMismatch(g: Grid, size: nat, letters: string, sr: int, sc: int, dir: Direction, i: nat)
    : (r: Option<nat>)
    requires IsGrid(g, size) && i <= |letters|
    ensures r.None? <==> forall j :: i <= j < |letters| ==> !MismatchAt(g, size, letters, sr, sc, dir, j)
    ensures r.Some? ==> i <= r.value < |letters| && MismatchAt(g, size, letters, sr, sc, dir, r.value) &&
                        forall j :: i <= j < r.value ==> !MismatchAt(g, size, letters, sr, sc, dir, j)
    decreases |letters| - i
  {
    if i == |letters| then None
    else if MismatchAt(g, size, letters, sr, sc, dir, i) then Some(i)
    else FirstMismatch(g, size, letters, sr, sc, dir, i + 1)
  }

  /** The verdict of `validateWordPlacement(text, startRow, startCol, direction)`
      on a board whose `placedWords` list is empty exactly when `firstWord`. */
  function Validate(g: Grid, size: nat, firstWord: bool, text: string, sr: int, sc: int, dir: Direction,
                    isValidWord: string -> bool): Verdict
    requires IsGrid(g, size)
  {
    var letters := Upper(text);
    if |text| == 0 then Rejected(EmptyWord)
    else if !WithinBoard(size, |letters|, sr, sc, dir) then Rejected(OutOfBounds)
    else if firstWord && !PassesCenter(size, |letters|, sr, sc, dir) then Rejected(MustPassCenter)
    else if !firstWord && FirstMismatch(g, size, letters, sr, sc, dir, 0).Some? then
      var i := FirstMismatch(g, size, letters, sr, sc, dir, 0).value;
      var p := PosAt(sr, sc, dir, i);
      Rejected(LetterMismatch(g[p.0][p.1].letter.value, letters[i]))
    else if !firstWord && !Connects(g, size, |letters|, sr, sc, dir) then Rejected(MustConnect)
    else if !isValidWord(text) then Rejected(NotInDictionary)
    else Accepted
  }

  predicate NoMismatch(g: Grid, size: nat, letters: string, sr: int, sc: int, dir: Direction)
    requires IsGrid(g, size)
  {
    forall j :: 0 <= j < |letters| ==> !MismatchAt(g, size, letters, sr, sc, dir, j)
  }

  /** A placement is accepted exactly when it is non-empty, lies on the board,
      passes the centre (first word) or matches every overlapped letter and
      connects (later words), and the dictionary accepts it. */
  lemma AcceptedIff(g: Grid, size: nat, firstWord: bool, text: string, sr: int, sc: int, dir: Direction,
                    isValidWord: string -> bool)
    requires IsGrid(g, size)
    ensures Validate(g, size, firstWord, text, sr, sc, dir, isValidWord) == Accepted <==>
      && |text| > 0
      && AllInGrid(size, |text|, sr, sc, dir)
      && (firstWord ==> PassesCenter(size, |text|, sr, sc, dir))
      && (!firstWord ==> NoMismatch(g, size, Upper(text), sr, sc, dir) &&
                         Connects(g, size, |text|, sr, sc, dir))
      && isValidWord(text)
  {
    if |text| > 0 {
      WithinBoardIff(size, |text|, sr, sc, dir);
    }
  }

  /** The empty word is refused before anything else is looked at; otherwise
      a word is refused as out of bounds exactly when one of its letters
      falls off the board. */
  lemma EmptyThenBounds(g: Grid, size: nat, firstWord: bool, text: string, sr: int, sc: int, dir: Direction,
                        isValidWord: string -> bool)
    requires IsGrid(g, size)
    ensures |text| == 0 ==> Validate(g, size, firstWord, text, sr, sc, dir, isValidWord) == Rejected(EmptyWord)
    ensures |text| > 0 ==>
      (Validate(g, size, firstWord, text, sr, sc, dir, isValidWord) == Rejected(OutOfBounds) <==>
       exists i :: 0 <= i < |text| && !InGrid(size, PosAt(sr, sc, dir, i).0, PosAt(sr, sc, dir, i).1))
  {
    if |text| > 0 {
      WithinBoardIff(size, |text|, sr, sc, dir);
    }
  }

  /** On an empty board a word on the board is accepted only through the
      centre square, and is refused with `MustPassCenter` otherwise. */
  lemma FirstWordThroughCenter(g: Grid, size: nat, text: string, sr: int, sc: int, dir: Direction,
                               isValidWord: string -> bool)
    requires IsGrid(g, size)
    requires |text| > 0 && AllInGrid(size, |text|, sr, sc, dir)
    ensures Validate(g, size, true, text, sr, sc, dir, isValidWord) == Rejected(MustPassCenter) <==>
            !PassesCenter(size, |text|, sr, sc, dir)
    ensures Validate(g, size, true, text, sr, sc, dir, isValidWord) == Accepted <==>
            PassesCenter(size, |text|, sr, sc, dir) && isValidWord(text)
  {
    WithinBoardIff(size, |text|, sr, sc, dir);
  }

  /** A later word that overlaps a different letter is refused with a
      mismatch naming the board's letter and the word's letter at the first
      such cell; one that matches everywhere but touches nothing is refused
      with `MustConnect`. */
  lemma LaterWordRules(g: Grid, size: nat, text: string, sr: int, sc: int, dir: Direction,
                       isValidWord: string -> bool)
    requires IsGrid(g, size)
    requires |text| > 0 && AllInGrid(size, |text|, sr, sc, dir)
    ensures Validate(g, size, false, text, sr, sc, dir, isValidWord).Rejected? &&
            Validate(g, size, false, text, sr, sc, dir, isValidWord).error.LetterMismatch? <==>
            !NoMismatch(g, size, Upper(text), sr, sc, dir)
    ensures Validate(g, size, false, text, sr, sc, dir, isValidWord) == Rejected(MustConnect) <==>
            NoMismatch(g, size, Upper(text), sr, sc, dir) && !Connects(g, size, |text|, sr, sc, dir)
    ensures forall e, n :: Validate(g, size, false, text, sr, sc, dir, isValidWord) == Rejected(LetterMismatch(e, n)) ==>
            exists i :: 0 <= i < |text| && MismatchAt(g, size, Upper(text), sr, sc, dir, i) &&
              g[PosAt(sr, sc, dir, i).0][PosAt(sr, sc, dir, i).1].letter == Some(e) &&
              Upper(text)[i] == n && UpperChar(e) != n
  {
    WithinBoardIff(size, |text|, sr, sc, dir);
  }

  /** The store's code: the same checks with the loops and early returns of
      `validateWordPlacement`; it reads the board and changes nothing. */
  method ValidateWordPlacement(g: Grid, size: nat, firstWord: bool, text: string, sr: int, sc: int,
                               dir: Direction, isValidWord: string -> bool) returns (v: Verdict)
    requires IsGrid(g, size)
    ensures v == Validate(g, size, firstWord, text, sr, sc, dir, isValidWord)
  {
    if |text| == 0 {
      return Rejected(EmptyWord);
    }
    var letters := Upper(text);
    var n := |letters|;
    var endRow := if dir == Horizontal then sr else sr + n - 1;
    var endCol := if dir == Horizontal then sc + n - 1 else sc;
    if sr < 0 || sc < 0 || endRow >= size || endCol >= size {
      return Rejected(OutOfBounds);
    }
    WithinBoardIff(size, n, sr, sc, dir);
    if firstWord {
      var passesCenter := ScanForCenter(size, n, sr, sc, dir);
      if !passesCenter {
        return Rejected(MustPassCenter);
      }
    } else {
      var later := ScanLetters(g, size, letters, sr, sc, dir);
      if later.Rejected? {
        return later;
      }
    }
    if !isValidWord(text) {
      return Rejected(NotInDictionary);
    }
    return Accepted;
  }

  /** The loop of the first-word branch, with its `break`. */
  method ScanForCenter(size: nat, n: nat, sr: int, sc: int, dir: Direction) returns (passesCenter: bool)
    ensures passesCenter == PassesCenter(size, n, sr, sc, dir)
  {
    var center := Center(size);
    passesCenter := false;
    for i := 0 to n
      invariant !passesCenter
      invariant forall j :: 0 <= j < i ==> !IsAt(PosAt(sr, sc, dir, j), center, center)
    {
      var row := if dir == Horizontal then sr else sr + i;
      var col := if dir == Horizontal then sc + i else sc;
      if row == center && col == center {
        assert IsAt(PosAt(sr, sc, dir, i), Center(size), Center(size));
        passesCenter := true;
        break;
      }
    }
  }

  /** What the later-word branch decides: the first mismatch, else whether
      some letter connects. */
  function LaterWordVerdict(g: Grid, size: nat, letters: string, sr: int, sc: int, dir: Direction): Verdict
    requires IsGrid(g, size)
  {
    match FirstMismatch(g, size, letters, sr, sc, dir, 0)
    case Some(i) =>
      var p := PosAt(sr, sc, dir, i);
      Rejected(LetterMismatch(g[p.0][p.1].letter.value, letters[i]))
    case None =>
      if Connects(g, size, |letters|, sr, sc, dir) then Accepted else Rejected(MustConnect)
  }

  /** The letter-by-letter loop of the later-word branch: a mismatch returns
      at once; an overlapped matching letter connects and skips the
      neighbour test; an empty cell connects when a neighbour is occupied. */
  method ScanLetters(g: Grid, size: nat, letters: string, sr: int, sc: int, dir: Direction)
    returns (v: Verdict)
    requires IsGrid(g, size) && AllInGrid(size, |letters|, sr, sc, dir)
    ensures v == LaterWordVerdict(g, size, letters, sr, sc, dir)
  {
    var connects := false;
    for i := 0 to |letters|
      invariant forall j :: 0 <= j < i ==> !MismatchAt(g, size, letters, sr, sc, dir, j)
      invariant connects <==> exists j :: 0 <= j < i && ConnectsAt(g, size, sr, sc, dir, j)
    {
      var row := if dir == Horizontal then sr else sr + i;
      var col := if dir == Horizontal then sc + i else sc;
      assert IsAt(PosAt(sr, sc, dir, i), row, col);
      var existing := g[row][col];
      if existing.letter.Some? {
        assert Occupied(g, size, row, col);
        if UpperChar(existing.letter.value) != letters[i] {
          assert MismatchAt(g, size, letters, sr, sc, dir, i);
          assert FirstMismatch(g, size, letters, sr, sc, dir, 0) == Some(i);
          return Rejected(LetterMismatch(existing.letter.value, letters[i]));
        }
        assert ConnectsAt(g, size, sr, sc, dir, i);
        connects := true;
        continue;
      }
      var touching := ScanNeighbours(g, size, row, col);
      assert !MismatchAt(g, size, letters, sr, sc, dir, i);
      assert ConnectsAt(g, size, sr, sc, dir, i) <==> touching;
      if touching {
        connects := true;
      }
    }
    assert FirstMismatch(g, size, letters, sr, sc, dir, 0).None?;
    if !connects {
      return Rejected(MustConnect);
    }
    return Accepted;
  }

  /** The inner loop over the four neighbours, with its `break`. */
  method ScanNeighbours(g: Grid, size: nat, row: int, col: int) returns (touching: bool)
    requires IsGrid(g, size)
    ensures touching == NeighbourOccupied(g, size, row, col)
  {
    var adjacent := [(row - 1, col), (row + 1, col), (row, col - 1), (row, col + 1)];
    touching := false;
    for k := 0 to 4
      invariant touching <==> exists m :: 0 <= m < k && Occupied(g, size, adjacent[m].0, adjacent[m].1)
    {
      var adjRow := adjacent[k].0;
      var adjCol := adjacent[k].1;
      if 0 <= adjRow < size && 0 <= adjCol < size {
        if g[adjRow][adjCol].letter.Some? {
          touching := true;
          break;
        }
      }
    }
    if !touching {
      assert !Occupied(g, size, adjacent[0].0, adjacent[0].1) && !Occupied(g, size, adjacent[1].0, adjacent[1].1) &&
             !Occupied(g, size, adjacent[2].0, adjacent[2].1) && !Occupied(g, size, adjacent[3].0, adjacent[3].1);
    }
  }
}
