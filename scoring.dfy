/** Scoring of a placement (`calculateSingleWordScore`, `calculateWordScore`,
    `getMultiplierAtPosition`, `getCharacterPoints`).  A word is scored as
    the sum of its letter values times the product of its word multipliers,
    where a square's multiplier counts only when its letter is newly placed.
    A placement scores its main word, every secondary word it forms across
    the main word, and the manual bonus when the player claims it. */
module Scoring {
  import opened Common
  import opened Board
  import opened Perpendicular

  /** A premium square multiplies the letter on it or the whole word; any
      other `type` (the store's `"none"`) multiplies nothing. */
  datatype MultiplierKind = LetterKind | WordKind | OtherKind

  datatype Multiplier = Multiplier(kind: MultiplierKind, value: int)

  /** The `multipliers` object of a board configuration, keyed by
      `"row,col"`; a configuration without one has the empty map. */
  type Multipliers = map<(int, int), Multiplier>

  /** The letter values of the current language. */
  type LetterTable = map<char, int>

  /** `getMultiplierAtPosition`: the square's multiplier, or a neutral one
      when the square has none. */
  function MultiplierAt(mults: Multipliers, row: int, col: int): (m: Multiplier)
    ensures (row, col) in mults ==> m == mults[(row, col)]
    ensures (row, col) !in mults ==> m.kind == OtherKind && m.value == 1
  {
    if (row, col) in mults then mults[(row, col)] else Multiplier(OtherKind, 1)
  }

  /** `getCharacterPoints`: the blank `_` is worth nothing, a letter missing
      from the table nothing either, any other letter its table value. */
  function CharacterPoints(table: LetterTable, c: char): (p: int)
    ensures c == '_' ==> p == 0
    ensures c != '_' && c in table ==> p == table[c]
    ensures c !in table ==> p == 0
  {
    if c == '_' then 0 else if c in table then table[c] else 0
  }

  /** What one entry adds to the letter sum. */
  function LetterValue(e: ScoredPos, mults: Multipliers, table: LetterTable): int {
    var v := CharacterPoints(table, e.letter);
    var m := MultiplierAt(mults, e.row, e.col);
    if e.isNew && m.kind == LetterKind then v * m.value else v
  }

  /** What one entry multiplies the word by. */
  function EntryFactor(e: ScoredPos, mults: Multipliers): int {
    var m := MultiplierAt(mults, e.row, e.col);
    if e.isNew && m.kind == WordKind then m.value else 1
  }

  /** Sum of the letter values of the first `n` entries. */
  function LetterSum(ps: seq<ScoredPos>, mults: Multipliers, table: LetterTable, n: nat): int
    requires n <= |ps|
    decreases n
  {
    if n == 0 then 0 else LetterSum(ps, mults, table, n - 1) + LetterValue(ps[n - 1], mults, table)
  }

  /** Product of the word multipliers of the first `n` entries. */
  function WordFactor(ps: seq<ScoredPos>, mults: Multipliers, n: nat): int
    requires n <= |ps|
    decreases n
  {
    if n == 0 then 1 else WordFactor(ps, mults, n - 1) * EntryFactor(ps[n - 1], mults)
  }

  /** Sum of the face values of the first `n` entries, no multiplier applied. */
  function FaceSum(ps: seq<ScoredPos>, table: LetterTable, n: nat): int
    requires n <= |ps|
    decreases n
  {
    if n == 0 then 0 else FaceSum(ps, table, n - 1) + CharacterPoints(table, ps[n - 1].letter)
  }

  /** The score of one word. */
  function SingleWordScore(ps: seq<ScoredPos>, mults: Multipliers, table: LetterTable): int {
    LetterSum(ps, mults, table, |ps|) * WordFactor(ps, mults, |ps|)
  }

  /** Squares under letters already on the board do not count: two
      configurations that agree on the squares of the new letters give the
      same letter sum and word factor. */
  lemma {:induction false} OnlyNewSquaresCount(ps: seq<ScoredPos>, m1: Multipliers, m2: Multipliers,
                                               table: LetterTable, n: nat)
    requires n <= |ps|
    requires forall i :: 0 <= i < |ps| && ps[i].isNew ==>
      MultiplierAt(m1, ps[i].row, ps[i].col) == MultiplierAt(m2, ps[i].row, ps[i].col)
    ensures LetterSum(ps, m1, table, n) == LetterSum(ps, m2, table, n)
    ensures WordFactor(ps, m1, n) == WordFactor(ps, m2, n)
    decreases n
  {
    if n > 0 {
      OnlyNewSquaresCount(ps, m1, m2, table, n - 1);
      var e := ps[n - 1];
      if e.isNew {
        assert MultiplierAt(m1, e.row, e.col) == MultiplierAt(m2, e.row, e.col);
      }
    }
  }

  /** Hence the word's score depends only on the squares of its new letters. */
  lemma ScoreUsesOnlyNewSquares(ps: seq<ScoredPos>, m1: Multipliers, m2: Multipliers, table: LetterTable)
    requires forall i :: 0 <= i < |ps| && ps[i].isNew ==>
      MultiplierAt(m1, ps[i].row, ps[i].col) == MultiplierAt(m2, ps[i].row, ps[i].col)
    ensures SingleWordScore(ps, m1, table) == SingleWordScore(ps, m2, table)
  {
    OnlyNewSquaresCount(ps, m1, m2, table, |ps|);
  }

  /** A word made only of letters already on the board scores its face value. */
  lemma {:induction false} NoNewLettersFaceValue(ps: seq<ScoredPos>, mults: Multipliers, table: LetterTable, n: nat)
    requires n <= |ps|
    requires forall i :: 0 <= i < |ps| ==> !ps[i].isNew
    ensures LetterSum(ps, mults, table, n) == FaceSum(ps, table, n)
    ensures WordFactor(ps, mults, n) == 1
    decreases n
  {
    if n > 0 {
      NoNewLettersFaceValue(ps, mults, table, n - 1);
      assert !ps[n - 1].isNew;
    }
  }

  /** A word on a board without premium squares scores its face value. */
  lemma {:induction false} NoPremiumSquaresFaceValue(ps: seq<ScoredPos>, table: LetterTable, n: nat)
    requires n <= |ps|
    ensures LetterSum(ps, map[], table, n) == FaceSum(ps, table, n)
    ensures WordFactor(ps, map[], n) == 1
    decreases n
  {
    if n > 0 {
      NoPremiumSquaresFaceValue(ps, table, n - 1);
    }
  }

  /** Blanks are worth nothing on any square, so a word of blanks scores 0. */
  lemma {:induction false} BlanksScoreZero(ps: seq<ScoredPos>, mults: Multipliers, table: LetterTable, n: nat)
    requires n <= |ps|
    requires forall i :: 0 <= i < |ps| ==> ps[i].letter == '_'
    ensures LetterSum(ps, mults, table, n) == 0
    decreases n
  {
    if n > 0 {
      BlanksScoreZero(ps, mults, table, n - 1);
      assert ps[n - 1].letter == '_';
    }
  }

  /** `calculateSingleWordScore`: one pass accumulating the letter sum and
      the word multiplier; returns `{score, wordMultiplier}`. */
  method CalculateSingleWordScore(ps: seq<ScoredPos>, mults: Multipliers, table: LetterTable)
    returns (score: int, wordMultiplier: int)
    ensures score == SingleWordScore(ps, mults, table)
    ensures wordMultiplier == WordFactor(ps, mults, |ps|)
  {
    score, wordMultiplier := 0, 1;
    for i := 0 to |ps|
      invariant score == LetterSum(ps, mults, table, i)
      invariant wordMultiplier == WordFactor(ps, mults, i)
    {
      var pos := ps[i];
      var letterValue := CharacterPoints(table, pos.letter);
      if pos.isNew {
        var multiplier := MultiplierAt(mults, pos.row, pos.col);
        if multiplier.kind == LetterKind {
          letterValue := letterValue * multiplier.value;
        } else if multiplier.kind == WordKind {
          wordMultiplier := wordMultiplier * multiplier.value;
        }
      }
      score := score + letterValue;
    }
    score := score * wordMultiplier;
  }

  /** The first `n` entries of the main word: letter `i` of the upper-cased
      text at its square, new exactly when that square holds no letter
      (a square off the board holds none). */
  function MainWordPositions(g: Grid, size: nat, letters: string, sr: int, sc: int, dir: Direction, n: nat)
    : (ps: seq<ScoredPos>)
    requires IsGrid(g, size) && n <= |letters|
    ensures |ps| == n
    decreases n
  {
    if n == 0 then []
    else
      var p := PosAt(sr, sc, dir, n - 1);
      MainWordPositions(g, size, letters, sr, sc, dir, n - 1) +
        [ScoredPos(p.0, p.1, letters[n - 1], !Occupied(g, size, p.0, p.1))]
  }

  /** Entry `i` of the main word is letter `i` on its square, and it is new
      exactly when the square was empty before the placement. */
  lemma {:induction false} MainWordPositionsAt(g: Grid, size: nat, letters: string, sr: int, sc: int,
                                               dir: Direction, n: nat)
    requires IsGrid(g, size) && n <= |letters|
    ensures forall i :: 0 <= i < n ==>
      var e := MainWordPositions(g, size, letters, sr, sc, dir, n)[i];
      && IsAt(PosAt(sr, sc, dir, i), e.row, e.col)
      && e.letter == letters[i]
      && (e.isNew <==> !Occupied(g, size, e.row, e.col))
    decreases n
  {
    if n > 0 {
      MainWordPositionsAt(g, size, letters, sr, sc, dir, n - 1);
    }
  }

  /** The loop building `mainWordPositions`. */
  method BuildMainWordPositions(g: Grid, size: nat, letters: string, sr: int, sc: int, dir: Direction)
    returns (ps: seq<ScoredPos>)
    requires IsGrid(g, size)
    ensures ps == MainWordPositions(g, size, letters, sr, sc, dir, |letters|)
  {
    ps := [];
    for i := 0 to |letters|
      invariant ps == MainWordPositions(g, size, letters, sr, sc, dir, i)
    {
      var row := if dir == Horizontal then sr else sr + i;
      var col := if dir == Horizontal then sc + i else sc;
      var isNew := !(0 <= row < size && 0 <= col < size && g[row][col].letter.Some?);
      ps := ps + [ScoredPos(row, col, letters[i], isNew)];
    }
  }

  /** A scored word of the breakdown: `{text, points}`. */
  datatype WordPoints = WordPoints(text: string, points: int)

  /** What `calculateWordScore` returns. */
  datatype ScoreResult = ScoreResult(total: int, mainWord: WordPoints, secondaryWords: seq<WordPoints>,
                                     breakdown: string)

  /** The first `n` entries re-marked so that only `(r, c)` is new. */
  function Remark(ps: seq<ScoredPos>, r: int, c: int, n: nat): (qs: seq<ScoredPos>)
    requires n <= |ps|
    ensures |qs| == n
    decreases n
  {
    if n == 0 then [] else Remark(ps, r, c, n - 1) + [ps[n - 1].(isNew := ps[n - 1].row == r && ps[n - 1].col == c)]
  }

  lemma {:induction false} RemarkAt(ps: seq<ScoredPos>, r: int, c: int, n: nat)
    requires n <= |ps|
    ensures forall i :: 0 <= i < n ==>
      Remark(ps, r, c, n)[i] == ps[i].(isNew := ps[i].row == r && ps[i].col == c)
    decreases n
  {
    if n > 0 {
      RemarkAt(ps, r, c, n - 1);
    }
  }

  /** The positions of a secondary word as `calculateWordScore` scores them. */
  function SecondaryPositions(pw: PerpWord): seq<ScoredPos> {
    Remark(pw.word.positions, pw.newRow, pw.newCol, |pw.word.positions|)
  }

  /** The scored secondary words of the first `n` cross words. */
  function SecondaryWords(pws: seq<PerpWord>, mults: Multipliers, table: LetterTable, n: nat): (sws: seq<WordPoints>)
    requires n <= |pws|
    ensures |sws| == n
    decreases n
  {
    if n == 0 then []
    else
      var pw := pws[n - 1];
      SecondaryWords(pws, mults, table, n - 1) +
        [WordPoints(pw.word.text, SingleWordScore(SecondaryPositions(pw), mults, table))]
  }

  lemma {:induction false} SecondaryWordsAt(pws: seq<PerpWord>, mults: Multipliers, table: LetterTable, n: nat)
    requires n <= |pws|
    ensures forall i :: 0 <= i < n ==>
      SecondaryWords(pws, mults, table, n)[i] ==
        WordPoints(pws[i].word.text, SingleWordScore(SecondaryPositions(pws[i]), mults, table))
    decreases n
  {
    if n > 0 {
      SecondaryWordsAt(pws, mults, table, n - 1);
    }
  }

  /** The points of the first `n` scored words, added up. */
  function PointsSum(ws: seq<WordPoints>, n: nat): int
    requires n <= |ws|
    decreases n
  {
    if n == 0 then 0 else PointsSum(ws, n - 1) + ws[n - 1].points
  }

  /** `line` followed by the ` + TEXT: points` parts of the first `n`
      secondary words. */
  function WithSecondaryText(line: string, sws: seq<WordPoints>, n: nat): string
    requires n <= |sws|
    decreases n
  {
    if n == 0 then line else WithSecondaryText(line, sws, n - 1) + SecondaryPart(sws[n - 1])
  }

  /** ` + TEXT: points` for one secondary word. */
  function SecondaryPart(w: WordPoints): string {
    " + " + w.text + ": " + IntToString(w.points)
  }

  /** The breakdown line: `TEXT: main + W1: p1 + ... [+ Bonus: b] = total`. */
  function Breakdown(upperText: string, mainPoints: int, sws: seq<WordPoints>, hasBonus: bool, bonus: int,
                     total: int): string {
    WithSecondaryText(upperText + ": " + IntToString(mainPoints), sws, |sws|) + BonusPart(hasBonus, bonus) +
      TotalPart(total)
  }

  /** ` + Bonus: b` when the bonus is claimed. */
  function BonusPart(hasBonus: bool, bonus: int): string {
    if hasBonus then " + Bonus: " + IntToString(bonus) else ""
  }

  /** ` = total`. */
  function TotalPart(total: int): string {
    " = " + IntToString(total)
  }

  /** The score of a placement given the cross words it forms. */
  function ScoreWith(g: Grid, size: nat, mults: Multipliers, table: LetterTable, bonus: int, text: string,
                     sr: int, sc: int, dir: Direction, hasBonus: bool, perps: seq<PerpWord>): ScoreResult
    requires IsGrid(g, size)
  {
    var letters := Upper(text);
    var mainPoints := SingleWordScore(MainWordPositions(g, size, letters, sr, sc, dir, |letters|), mults, table);
    var sws := SecondaryWords(perps, mults, table, |perps|);
    var total := mainPoints + PointsSum(sws, |sws|) + (if hasBonus then bonus else 0);
    ScoreResult(total, WordPoints(letters, mainPoints), sws, Breakdown(letters, mainPoints, sws, hasBonus, bonus, total))
  }

  /** `calculateWordScore(text, startRow, startCol, direction, hasBonus)`
      with the selected board configuration (`None` when there is none),
      the letter table and the bonus value. */
  function WordScore(g: Grid, size: nat, config: Option<Multipliers>, table: LetterTable, bonus: int, text: string,
                     sr: int, sc: int, dir: Direction, hasBonus: bool): ScoreResult
    requires IsGrid(g, size) && AllInGrid(size, |text|, sr, sc, dir)
  {
    match config
    case None => ScoreResult(0, WordPoints(Upper(text), 0), [], Upper(text) + ": 0")
    case Some(mults) =>
      ScoreWith(g, size, mults, table, bonus, text, sr, sc, dir, hasBonus,
                PerpendicularWords(g, size, Upper(text), sr, sc, dir, |text|))
  }

  /** Without a board configuration a placement is worth nothing, bonus or not. */
  lemma NoConfigScoresZero(g: Grid, size: nat, table: LetterTable, bonus: int, text: string,
                           sr: int, sc: int, dir: Direction, hasBonus: bool)
    requires IsGrid(g, size) && AllInGrid(size, |text|, sr, sc, dir)
    ensures var r := WordScore(g, size, None, table, bonus, text, sr, sc, dir, hasBonus);
      r.total == 0 && r.mainWord == WordPoints(Upper(text), 0) && r.secondaryWords == [] &&
      r.breakdown == Upper(text) + ": 0"
  {
  }

  /** The total is the main word's points plus every secondary word's
      points, plus the bonus exactly when it is claimed; the main word is
      the upper-cased text scored over its own letters. */
  lemma ScoreWithTotal(g: Grid, size: nat, mults: Multipliers, table: LetterTable, bonus: int, text: string,
                       sr: int, sc: int, dir: Direction, hasBonus: bool, perps: seq<PerpWord>)
    requires IsGrid(g, size)
    ensures var r := ScoreWith(g, size, mults, table, bonus, text, sr, sc, dir, hasBonus, perps);
      && r.mainWord.text == Upper(text)
      && r.mainWord.points ==
           SingleWordScore(MainWordPositions(g, size, Upper(text), sr, sc, dir, |text|), mults, table)
      && r.total == r.mainWord.points + PointsSum(r.secondaryWords, |r.secondaryWords|) +
                    (if hasBonus then bonus else 0)
  {
  }

  /** One secondary entry per cross word, with its text and its score. */
  lemma ScoreWithSecondary(g: Grid, size: nat, mults: Multipliers, table: LetterTable, bonus: int, text: string,
                           sr: int, sc: int, dir: Direction, hasBonus: bool, perps: seq<PerpWord>)
    requires IsGrid(g, size)
    ensures var r := ScoreWith(g, size, mults, table, bonus, text, sr, sc, dir, hasBonus, perps);
      && |r.secondaryWords| == |perps|
      && forall i :: 0 <= i < |perps| ==>
           r.secondaryWords[i].text == perps[i].word.text &&
           r.secondaryWords[i].points == SingleWordScore(SecondaryPositions(perps[i]), mults, table)
  {
    SecondaryWordsAt(perps, mults, table, |perps|);
  }

  /** Claiming the bonus adds exactly the bonus value to the total and
      changes no word's points. */
  lemma BonusAddsExactly(g: Grid, size: nat, config: Option<Multipliers>, table: LetterTable, bonus: int,
                         text: string, sr: int, sc: int, dir: Direction)
    requires IsGrid(g, size) && AllInGrid(size, |text|, sr, sc, dir)
    requires config.Some?
    ensures var with := WordScore(g, size, config, table, bonus, text, sr, sc, dir, true);
      var without := WordScore(g, size, config, table, bonus, text, sr, sc, dir, false);
      with.total == without.total + bonus && with.mainWord == without.mainWord &&
      with.secondaryWords == without.secondaryWords
  {
  }

  /** The cross words the detector finds already mark only the new letter's
      square as new, so the re-marking before scoring them changes nothing. */
  lemma SecondaryPositionsUnchanged(g: Grid, size: nat, letters: string, sr: int, sc: int, dir: Direction,
                                    n: nat, k: nat)
    requires IsGrid(g, size) && n <= |letters| && AllInGrid(size, |letters|, sr, sc, dir)
    requires k < |PerpendicularWords(g, size, letters, sr, sc, dir, n)|
    ensures var pw := PerpendicularWords(g, size, letters, sr, sc, dir, n)[k];
      SecondaryPositions(pw) == pw.word.positions
  {
    var pw := PerpendicularWords(g, size, letters, sr, sc, dir, n)[k];
    PerpendicularWordsSound(g, size, letters, sr, sc, dir, n);
    assert FromSomeLetter(g, size, letters, sr, sc, dir, pw, n);
    var i :| 0 <= i < n && FromNewLetter(g, size, letters, sr, sc, dir, pw, i);
    var p := PosAt(sr, sc, dir, i);
    assert InGrid(size, p.0, p.1);
    WordAtPositionCells(g, size, p.0, p.1, Across(dir), letters[i]);
    RemarkAt(pw.word.positions, pw.newRow, pw.newCol, |pw.word.positions|);
  }

  /** The loop over the cross words: score each one, collect `{text,
      points}` and add the points up. */
  method ScoreSecondaryWords(perps: seq<PerpWord>, mults: Multipliers, table: LetterTable)
    returns (sws: seq<WordPoints>, secondaryTotal: int)
    ensures sws == SecondaryWords(perps, mults, table, |perps|)
    ensures secondaryTotal == PointsSum(sws, |sws|)
  {
    sws, secondaryTotal := [], 0;
    for i := 0 to |perps|
      invariant sws == SecondaryWords(perps, mults, table, i)
      invariant secondaryTotal == PointsSum(sws, i)
    {
      var perpWord := perps[i];
      var positions := Remark(perpWord.word.positions, perpWord.newRow, perpWord.newCol, |perpWord.word.positions|);
      var score, _ := CalculateSingleWordScore(positions, mults, table);
      PointsSumSnoc(sws, WordPoints(perpWord.word.text, score));
      sws := sws + [WordPoints(perpWord.word.text, score)];
      secondaryTotal := secondaryTotal + score;
    }
  }

  lemma PointsSumSnoc(ws: seq<WordPoints>, w: WordPoints)
    ensures PointsSum(ws + [w], |ws| + 1) == PointsSum(ws, |ws|) + w.points
  {
    PointsSumPrefix(ws + [w], ws, |ws|);
  }

  /** `PointsSum` of a prefix only looks at the prefix. */
  lemma {:induction false} PointsSumPrefix(ws: seq<WordPoints>, vs: seq<WordPoints>, n: nat)
    requires n <= |ws| && n <= |vs|
    requires forall i :: 0 <= i < n ==> ws[i] == vs[i]
    ensures PointsSum(ws, n) == PointsSum(vs, n)
    decreases n
  {
    if n > 0 {
      PointsSumPrefix(ws, vs, n - 1);
    }
  }

  /** The loop appending ` + TEXT: points` for each secondary word. */
  method AppendSecondaryText(head: string, sws: seq<WordPoints>) returns (breakdown: string)
    ensures breakdown == WithSecondaryText(head, sws, |sws|)
  {
    breakdown := head;
    for i := 0 to |sws|
      invariant breakdown == WithSecondaryText(head, sws, i)
    {
      breakdown := breakdown + SecondaryPart(sws[i]);
    }
  }

  /** The breakdown line, built piece by piece as the store does. */
  method BuildBreakdown(upperText: string, mainPoints: int, sws: seq<WordPoints>, hasBonus: bool, bonus: int,
                        total: int) returns (breakdown: string)
    ensures breakdown == Breakdown(upperText, mainPoints, sws, hasBonus, bonus, total)
  {
    breakdown := AppendSecondaryText(upperText + ": " + IntToString(mainPoints), sws);
    if hasBonus {
      breakdown := breakdown + BonusPart(hasBonus, bonus);
    } else {
      assert breakdown + BonusPart(hasBonus, bonus) == breakdown;
    }
    breakdown := breakdown + TotalPart(total);
  }

  /** Scoring once the cross words are known. */
  method ScoreFrom(g: Grid, size: nat, mults: Multipliers, table: LetterTable, bonus: int, text: string,
                   sr: int, sc: int, dir: Direction, hasBonus: bool, perps: seq<PerpWord>)
    returns (r: ScoreResult)
    requires IsGrid(g, size)
    ensures r == ScoreWith(g, size, mults, table, bonus, text, sr, sc, dir, hasBonus, perps)
  {
    var letters := Upper(text);
    var mainWordPositions := BuildMainWordPositions(g, size, letters, sr, sc, dir);
    var mainWordPoints, _ := CalculateSingleWordScore(mainWordPositions, mults, table);
    var secondaryWords, secondaryTotal := ScoreSecondaryWords(perps, mults, table);
    var total := mainWordPoints + secondaryTotal + (if hasBonus then bonus else 0);
    var breakdown := BuildBreakdown(letters, mainWordPoints, secondaryWords, hasBonus, bonus, total);
    r := ScoreResult(total, WordPoints(letters, mainWordPoints), secondaryWords, breakdown);
  }

  /** The store's `calculateWordScore`. */
  method CalculateWordScore(g: Grid, size: nat, config: Option<Multipliers>, table: LetterTable, bonus: int,
                            text: string, sr: int, sc: int, dir: Direction, hasBonus: bool)
    returns (r: ScoreResult)
    requires IsGrid(g, size) && AllInGrid(size, |text|, sr, sc, dir)
    ensures r == WordScore(g, size, config, table, bonus, text, sr, sc, dir, hasBonus)
  {
    if config.None? {
      return ScoreResult(0, WordPoints(Upper(text), 0), [], Upper(text) + ": 0");
    }
    var perps := FindPerpendicularWords(g, size, text, sr, sc, dir);
    r := ScoreFrom(g, size, config.value, table, bonus, text, sr, sc, dir, hasBonus, perps);
  }
}
