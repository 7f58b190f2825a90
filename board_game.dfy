/** The board-game store: players and turns, the grid and its placed words,
    the move ledger with undo, the interactive selection, and import.  The
    store object is the class `BoardGame`; its whole state read as a value
    is a `Store`, and every action is specified by a function from the old
    `Store` to the new one, about which the lemmas below speak. */
module BoardGameStore {
  import opened Common
  import opened Board
  import opened Players
  import opened Validation
  import opened Perpendicular
  import opened Scoring
  import opened Serialization

  /** The structured score kept with a player's word. */
  datatype WordBreakdown = WordBreakdown(mainWord: WordPoints, secondaryWords: seq<WordPoints>,
                                         hasBonus: bool, bonusValue: int)

  /** A word in a player's list: `{id, text, points, breakdown}`. */
  datatype BoardWord = BoardWord(id: int, text: string, points: int, breakdown: WordBreakdown)

  type BoardPlayer = Player<BoardWord>

  /** What `createSnapshot` copies before a move. */
  datatype Snapshot = Snapshot(grid: Grid, players: seq<BoardPlayer>, placedWords: seq<PlacedWord>,
                               activePlayerId: Option<int>)

  /** A ledger entry; `timestamp` is the clock reading the caller supplies. */
  datatype Move = Move(id: int, timestamp: int, playerId: int, playerName: string, word: string,
                       points: int, breakdown: string, startRow: int, startCol: int,
                       direction: Direction, snapshot: Snapshot)

  /** Settings and the tables loaded from the settings file: board
      configurations by name and letter values by language. */
  datatype Setup = Setup(bonus: int, language: string, seconds: int, boardConfig: string,
                         boardSize: nat, configs: map<string, Multipliers>,
                         letters: map<string, LetterTable>)

  /** The interactive selection: the chosen cell, the typing direction and
      the previewed word. */
  datatype Selection = Selection(cell: Option<(int, int)>, direction: Direction, preview: string)

  const NoSelection := Selection(None, Horizontal, "")

  /** The game proper: grid, players, placed words and ledger. */
  datatype Play = Play(grid: Grid, players: seq<BoardPlayer>, placedWords: seq<PlacedWord>,
                       moveHistory: seq<Move>)

  datatype Store = Store(setup: Setup, selection: Selection, play: Play)

  /** The store as created and mounted: default settings and an empty 15 × 15 board. */
  function Initial(configs: map<string, Multipliers>, letters: map<string, LetterTable>): Store {
    Store(Setup(50, "en", 90, "standard", 15, configs, letters), NoSelection,
          Play(EmptyGrid(15), [], [], []))
  }

  /** `currentBoardConfig`: the selected configuration, if there is one. */
  function CurrentConfig(s: Setup): Option<Multipliers> {
    if s.boardConfig in s.configs then Some(s.configs[s.boardConfig]) else None
  }

  /** The letter values of the current language. */
  function LetterValues(s: Setup): LetterTable {
    if s.language in s.letters then s.letters[s.language] else map[]
  }

  /** Player ids are pairwise distinct, as `addPlayer` keeps them. */
  predicate UniqueIds(ps: seq<BoardPlayer>) {
    forall i, j :: 0 <= i < |ps| && 0 <= j < |ps| && ps[i].id == ps[j].id ==> i == j
  }

  // ---------------------------------------------------------------------
  // Board management

  /** `changeBoardSize`: a fresh board of the new size and no placed words;
      the ledger is kept. */
  function Resized(st: Store, newSize: nat): (r: Store)
    ensures r.setup.boardSize == newSize && IsGrid(r.play.grid, newSize)
    ensures r.play.placedWords == [] && r.play.players == st.play.players
    ensures r.play.moveHistory == st.play.moveHistory
  {
    Store(st.setup.(boardSize := newSize), st.selection,
          st.play.(grid := EmptyGrid(newSize), placedWords := []))
  }

  /** Every player's word list emptied, nothing else. */
  function WordsCleared(ps: seq<BoardPlayer>): (r: seq<BoardPlayer>)
    ensures |r| == |ps|
    ensures forall j :: 0 <= j < |ps| ==> r[j] == ps[j].(words := [])
  {
    seq(|ps|, j requires 0 <= j < |ps| => ps[j].(words := []))
  }

  /** `resetBoard`: empty board, no placed words, empty ledger, and every
      player keeps name, id and turn but loses the words. */
  function Reset(p: Play, size: nat): (r: Play)
    ensures IsGrid(r.grid, size) && r.placedWords == [] && r.moveHistory == []
  {
    Play(EmptyGrid(size), WordsCleared(p.players), [], [])
  }

  // ---------------------------------------------------------------------
  // Players

  /** `addPlayer(name)`: nothing for an empty name; otherwise a new inactive
      player with the next free id, who becomes active when alone. */
  function AddedPlayer(ps: seq<BoardPlayer>, name: string): seq<BoardPlayer> {
    if name == "" then ps
    else
      var r := ps + [Player(MaxId(ps) + 1, name, false, [])];
      if |r| == 1 then Activated(r, 0) else r
  }

  /** A new player gets the largest id so far plus one, an id no one has,
      so distinct ids stay distinct; those already there are untouched; the
      first player starts the game active. */
  lemma AddPlayerFreshId(ps: seq<BoardPlayer>, name: string)
    requires name != ""
    ensures var r := AddedPlayer(ps, name);
      && |r| == |ps| + 1
      && (|ps| > 0 ==> r[..|ps|] == ps)
      && r[|ps|].name == name && r[|ps|].words == []
      && r[|ps|].id == MaxId(ps) + 1
      && r[|ps|].id !in Ids(ps)
      && (UniqueIds(ps) ==> UniqueIds(r))
      && r[|ps|].active == (|ps| == 0)
  {
    var r := AddedPlayer(ps, name);
    ActivatedOnlyOne(ps + [Player(MaxId(ps) + 1, name, false, [])], 0);
    assert r[|ps|].id == MaxId(ps) + 1;
    if |ps| > 0 {
      assert r[..|ps|] == ps;
    }
  }

  /** `deletePlayer(player)`: the player leaves the list; a player not in
      the list changes nothing. */
  function DeletedPlayer(ps: seq<BoardPlayer>, idx: int): (r: seq<BoardPlayer>)
    ensures 0 <= idx < |ps| ==> r == ps[..idx] + ps[idx + 1..]
    ensures !(0 <= idx < |ps|) ==> r == ps
  {
    if 0 <= idx < |ps| then ps[..idx] + ps[idx + 1..] else ps
  }

  /** `nextPlayer`. */
  function NextTurn(ps: seq<BoardPlayer>): seq<BoardPlayer> {
    Activated(ps, NextIndex(ps))
  }

  /** `player.words.findIndex((word) => word.id === wordId)`. */
  function FindWord(ws: seq<BoardWord>, id: int): (r: Option<nat>)
    ensures r.Some? ==> r.value < |ws| && ws[r.value].id == id &&
                        forall j :: 0 <= j < r.value ==> ws[j].id != id
    ensures r.None? <==> forall j :: 0 <= j < |ws| ==> ws[j].id != id
  {
    FindIndex(ws, (w: BoardWord) => w.id == id)
  }

  /** `placedWords.findIndex((w) => w.id === wordId && w.playerId === pid)`. */
  function FindPlaced(pws: seq<PlacedWord>, id: int, pid: int): (r: Option<nat>)
    ensures r.Some? ==> r.value < |pws| && pws[r.value].id == id && pws[r.value].playerId == pid &&
                        forall j :: 0 <= j < r.value ==> !(pws[j].id == id && pws[j].playerId == pid)
    ensures r.None? <==> forall j :: 0 <= j < |pws| ==> !(pws[j].id == id && pws[j].playerId == pid)
  {
    FindIndex(pws, (w: PlacedWord) => w.id == id && w.playerId == pid)
  }

  /** `deleteWord({wordId, player})`: the first word of that player with
      that id leaves the player's list; then the first placed word with
      that id and player leaves the board, every cell it lists blanked. */
  function DeletedWord(p: Play, size: nat, idx: nat, wordId: int): (r: Play)
    requires IsGrid(p.grid, size) && idx < |p.players|
    ensures IsGrid(r.grid, size) && r.moveHistory == p.moveHistory
  {
    var player := p.players[idx];
    match FindWord(player.words, wordId)
    case None => p
    case Some(k) =>
      var ps := p.players[idx := player.(words := player.words[..k] + player.words[k + 1..])];
      match FindPlaced(p.placedWords, wordId, player.id)
      case None => p.(players := ps)
      case Some(j) =>
        var pw := p.placedWords[j];
        Play(BlankPositions(p.grid, size, pw.positions, |pw.positions|), ps,
             p.placedWords[..j] + p.placedWords[j + 1..], p.moveHistory)
  }

  /** Deleting a word removes exactly one entry from the player's list and,
      when it is on the board, exactly one placed word; each cell the placed
      word lists becomes empty, even one another word wrote first, and every
      other cell keeps what it held. */
  lemma DeleteWordEffects(p: Play, size: nat, idx: nat, wordId: int, r: int, c: int)
    requires IsGrid(p.grid, size) && idx < |p.players| && InGrid(size, r, c)
    ensures var q := DeletedWord(p, size, idx, wordId);
      var player := p.players[idx];
      match FindWord(player.words, wordId)
      case None => q == p
      case Some(k) =>
        && |q.players| == |p.players|
        && q.players[idx].words == player.words[..k] + player.words[k + 1..]
        && (forall j :: 0 <= j < |p.players| && j != idx ==> q.players[j] == p.players[j])
        && match FindPlaced(p.placedWords, wordId, player.id)
           case None => q.grid == p.grid && q.placedWords == p.placedWords
           case Some(j) =>
             && q.placedWords == p.placedWords[..j] + p.placedWords[j + 1..]
             && q.grid[r][c] ==
                  if Covers(p.placedWords[j].positions, r, c) then EmptyCell else p.grid[r][c]
  {
    var player := p.players[idx];
    match FindWord(player.words, wordId)
    case None =>
    case Some(k) =>
      match FindPlaced(p.placedWords, wordId, player.id)
      case None =>
      case Some(j) =>
        var ps := p.placedWords[j].positions;
        BlankPositionsAt(p.grid, size, ps, |ps|, r, c);
        assert ps[..|ps|] == ps;
  }

  /** `updateWordPoints({wordId, player, newPoints})`. */
  function UpdatedPoints(ps: seq<BoardPlayer>, idx: nat, wordId: int, newPoints: int): (r: seq<BoardPlayer>)
    requires idx < |ps|
    ensures |r| == |ps|
  {
    match FindWord(ps[idx].words, wordId)
    case None => ps
    case Some(k) => ps[idx := ps[idx].(words := ps[idx].words[k := ps[idx].words[k].(points := newPoints)])]
  }

  /** Only the points of the first word with that id change. */
  lemma UpdatedPointsOnly(ps: seq<BoardPlayer>, idx: nat, wordId: int, newPoints: int)
    requires idx < |ps|
    requires FindWord(ps[idx].words, wordId).Some?
    ensures var k := FindWord(ps[idx].words, wordId).value;
      var r := UpdatedPoints(ps, idx, wordId, newPoints);
      && |r[idx].words| == |ps[idx].words|
      && r[idx].words[k] == ps[idx].words[k].(points := newPoints)
      && (forall j :: 0 <= j < |ps[idx].words| && j != k ==> r[idx].words[j] == ps[idx].words[j])
      && forall j :: 0 <= j < |ps| && j != idx ==> r[j] == ps[j]
  {
  }

  // ---------------------------------------------------------------------
  // Placing a word and undoing it

  /** `activePlayer.value?.id || null`: an id of 0 counts as none. */
  function ActiveId(ps: seq<BoardPlayer>): Option<int> {
    match ActiveIndex(ps)
    case None => None
    case Some(a) => if ps[a].id != 0 then Some(ps[a].id) else None
  }

  /** `createSnapshot`. */
  function SnapshotOf(p: Play): Snapshot {
    Snapshot(p.grid, p.players, p.placedWords, ActiveId(p.players))
  }

  function WithWord(ps: seq<BoardPlayer>, a: nat, w: BoardWord): (r: seq<BoardPlayer>)
    requires a < |ps|
    ensures |r| == |ps|
  {
    ps[a := ps[a].(words := ps[a].words + [w])]
  }

  /** The commit part of `placeWord` for the active player `a` and the score
      computed before any letter was written. */
  function Commit(p: Play, size: nat, a: nat, score: ScoreResult, bonus: int, text: string,
                  sr: int, sc: int, dir: Direction, hasBonus: bool, time: int): (r: Play)
    requires IsGrid(p.grid, size) && a < |p.players|
    ensures IsGrid(r.grid, size)
  {
    var player := p.players[a];
    var letters := Upper(text);
    var wordId := |player.words| + 1;
    var word := BoardWord(wordId, text, score.total,
                          WordBreakdown(score.mainWord, score.secondaryWords, hasBonus,
                                        if hasBonus then bonus else 0));
    var ps := WithWord(p.players, a, word);
    Play(WriteLetters(p.grid, size, letters, sr, sc, dir, player.id, wordId, |letters|),
         NextTurn(ps),
         p.placedWords + [PlacedWord(wordId, text, player.id, sr, sc, dir,
                                     LetterPositions(letters, sr, sc, dir))],
         p.moveHistory + [Move(|p.moveHistory| + 1, time, player.id, player.name, letters,
                               score.total, score.breakdown, sr, sc, dir, SnapshotOf(p))])
  }

  /** The score `placeWord` records for an accepted placement. */
  function PlacementScore(s: Setup, p: Play, text: string, sr: int, sc: int, dir: Direction,
                          hasBonus: bool): ScoreResult
    requires IsGrid(p.grid, s.boardSize) && AllInGrid(s.boardSize, |text|, sr, sc, dir)
  {
    WordScore(p.grid, s.boardSize, CurrentConfig(s), LetterValues(s), s.bonus, text, sr, sc, dir,
              hasBonus)
  }

  /** `placeWord`: without an active player, or when validation refuses,
      nothing changes; otherwise the placement is committed. */
  function Place(s: Setup, p: Play, text: string, sr: int, sc: int, dir: Direction, hasBonus: bool,
                 time: int): (r: Play)
    requires IsGrid(p.grid, s.boardSize)
    ensures IsGrid(r.grid, s.boardSize)
  {
    match ActiveIndex(p.players)
    case None => p
    case Some(a) =>
      if Validate(p.grid, s.boardSize, |p.placedWords| == 0, text, sr, sc, dir, AnyWord).Rejected?
      then p
      else
        AcceptedIff(p.grid, s.boardSize, |p.placedWords| == 0, text, sr, sc, dir, AnyWord);
        Commit(p, s.boardSize, a, PlacementScore(s, p, text, sr, sc, dir, hasBonus), s.bonus, text,
               sr, sc, dir, hasBonus, time)
  }

  /** A placement without an active player, or one validation refuses,
      changes nothing; an accepted one commits for the active player. */
  lemma PlaceRefusedOrCommitted(s: Setup, p: Play, text: string, sr: int, sc: int, dir: Direction,
                                hasBonus: bool, time: int)
    requires IsGrid(p.grid, s.boardSize)
    ensures var v := Validate(p.grid, s.boardSize, |p.placedWords| == 0, text, sr, sc, dir, AnyWord);
      var r := Place(s, p, text, sr, sc, dir, hasBonus, time);
      (ActiveIndex(p.players).None? || v.Rejected?) <==> r == p
  {
    var r := Place(s, p, text, sr, sc, dir, hasBonus, time);
    if ActiveIndex(p.players).Some? &&
       Validate(p.grid, s.boardSize, |p.placedWords| == 0, text, sr, sc, dir, AnyWord).Accepted? {
      assert |r.moveHistory| == |p.moveHistory| + 1;
    }
  }

  /** What a commit does to a cell: only empty cells receive letters, so
      overlapped letters keep their player and word ids, and cells off the
      word are untouched. */
  lemma CommitCells(p: Play, size: nat, a: nat, score: ScoreResult, bonus: int, text: string,
                    sr: int, sc: int, dir: Direction, hasBonus: bool, time: int, r: int, c: int)
    requires IsGrid(p.grid, size) && a < |p.players| && InGrid(size, r, c)
    ensures var q := Commit(p, size, a, score, bonus, text, sr, sc, dir, hasBonus, time);
      && (p.grid[r][c].letter.Some? ==> q.grid[r][c] == p.grid[r][c])
      && (p.grid[r][c].letter.None? && 0 <= OffsetOf(sr, sc, dir, r, c) < |text| ==>
            q.grid[r][c] == Cell(Some(Upper(text)[OffsetOf(sr, sc, dir, r, c)]),
                                 Some(p.players[a].id), Some(|p.players[a].words| + 1)))
      && (!(0 <= OffsetOf(sr, sc, dir, r, c) < |text|) ==> q.grid[r][c] == p.grid[r][c])
  {
    WriteLettersAt(p.grid, size, Upper(text), sr, sc, dir, p.players[a].id,
                   |p.players[a].words| + 1, |text|, r, c);
  }

  /** What a commit records: exactly one placed word, one word of the
      active player (worth the total) and one ledger entry holding the
      pre-move snapshot are appended; nobody else's words change. */
  lemma CommitRecords(p: Play, size: nat, a: nat, score: ScoreResult, bonus: int, text: string,
                      sr: int, sc: int, dir: Direction, hasBonus: bool, time: int)
    requires IsGrid(p.grid, size) && a < |p.players|
    ensures var q := Commit(p, size, a, score, bonus, text, sr, sc, dir, hasBonus, time);
      && |q.placedWords| == |p.placedWords| + 1 && q.placedWords[..|p.placedWords|] == p.placedWords
      && |q.players| == |p.players|
      && q.players[a].words == p.players[a].words + [q.players[a].words[|p.players[a].words|]]
      && q.players[a].words[|p.players[a].words|].points == score.total
      && (forall j :: 0 <= j < |p.players| && j != a ==> q.players[j].words == p.players[j].words)
      && |q.moveHistory| == |p.moveHistory| + 1 && q.moveHistory[..|p.moveHistory|] == p.moveHistory
      && q.moveHistory[|p.moveHistory|].snapshot == SnapshotOf(p)
  {
    var q := Commit(p, size, a, score, bonus, text, sr, sc, dir, hasBonus, time);
    assert q.placedWords[..|p.placedWords|] == p.placedWords;
    assert q.moveHistory[..|p.moveHistory|] == p.moveHistory;
  }

  /** After a commit by the active player the turn passes to the next
      player in list order. */
  lemma CommitTurn(p: Play, size: nat, a: nat, score: ScoreResult, bonus: int, text: string,
                   sr: int, sc: int, dir: Direction, hasBonus: bool, time: int)
    requires IsGrid(p.grid, size) && a < |p.players|
    requires ActiveIndex(p.players) == Some(a)
    ensures var q := Commit(p, size, a, score, bonus, text, sr, sc, dir, hasBonus, time);
      ActiveIndex(q.players) == Some((a + 1) % |p.players|)
  {
    var ps := WithWord(p.players, a, BoardWord(|p.players[a].words| + 1, text, score.total,
                          WordBreakdown(score.mainWord, score.secondaryWords, hasBonus,
                                        if hasBonus then bonus else 0)));
    assert ActiveIndex(ps) == ActiveIndex(p.players) by {
      assert forall j :: 0 <= j < |ps| ==> (ps[j].active <==> p.players[j].active);
    }
    NextIndexRotates(ps);
    ActivatedOnlyOne(ps, NextIndex(ps));
  }

  /** `undoLastMove`: nothing on an empty ledger; otherwise the last entry's
      snapshot comes back, its active player (found by id) is activated
      again, and the entry is dropped. */
  function Undo(p: Play): (r: Play)
    ensures |p.moveHistory| == 0 ==> r == p
    ensures |p.moveHistory| > 0 ==> r.moveHistory == p.moveHistory[..|p.moveHistory| - 1]
  {
    if |p.moveHistory| == 0 then p
    else
      var snap := p.moveHistory[|p.moveHistory| - 1].snapshot;
      var idx := if snap.activePlayerId.Some? then IndexOfId(snap.players, snap.activePlayerId.value)
                 else None;
      Play(snap.grid, if idx.Some? then Activated(snap.players, idx.value) else snap.players,
           snap.placedWords, p.moveHistory[..|p.moveHistory| - 1])
  }

  /** Activating the player already alone in being active changes nothing. */
  lemma ActivatedSame(ps: seq<BoardPlayer>, a: nat)
    requires a < |ps| && ps[a].active && AtMostOneActive(ps)
    ensures Activated(ps, a) == ps
  {
    assert forall j :: 0 <= j < |ps| ==> Activated(ps, a)[j] == ps[j];
  }

  /** Undo right after a committed placement gives back the exact game that
      was there before it: grid, players with their words and turn, placed
      words and ledger. */
  lemma UndoAfterCommit(p: Play, size: nat, a: nat, score: ScoreResult, bonus: int, text: string,
                        sr: int, sc: int, dir: Direction, hasBonus: bool, time: int)
    requires IsGrid(p.grid, size) && a < |p.players|
    requires ActiveIndex(p.players) == Some(a)
    requires UniqueIds(p.players) && AtMostOneActive(p.players)
    ensures Undo(Commit(p, size, a, score, bonus, text, sr, sc, dir, hasBonus, time)) == p
  {
    var q := Commit(p, size, a, score, bonus, text, sr, sc, dir, hasBonus, time);
    assert q.moveHistory[|q.moveHistory| - 1].snapshot == SnapshotOf(p);
    assert q.moveHistory[..|q.moveHistory| - 1] == p.moveHistory;
    if p.players[a].id != 0 {
      assert IndexOfId(p.players, p.players[a].id) == Some(a);
      ActivatedSame(p.players, a);
    }
  }

  /** Undo after any placement: a refused one leaves the ledger as it was,
      and a committed one is undone completely. */
  lemma UndoAfterPlace(s: Setup, p: Play, text: string, sr: int, sc: int, dir: Direction,
                       hasBonus: bool, time: int)
    requires IsGrid(p.grid, s.boardSize)
    requires UniqueIds(p.players) && AtMostOneActive(p.players)
    ensures var q := Place(s, p, text, sr, sc, dir, hasBonus, time);
      q == p || Undo(q) == p
  {
    match ActiveIndex(p.players)
    case None =>
    case Some(a) =>
      if Validate(p.grid, s.boardSize, |p.placedWords| == 0, text, sr, sc, dir, AnyWord).Accepted? {
        AcceptedIff(p.grid, s.boardSize, |p.placedWords| == 0, text, sr, sc, dir, AnyWord);
        UndoAfterCommit(p, s.boardSize, a, PlacementScore(s, p, text, sr, sc, dir, hasBonus),
                        s.bonus, text, sr, sc, dir, hasBonus, time);
      }
  }

  /** Rebuilding depends on the players only through their ids. */
  lemma {:induction false} RebuildWordsSameIds(g: Grid, size: nat, words: seq<PlacedWord>,
                                               ps: seq<BoardPlayer>, qs: seq<BoardPlayer>, n: nat)
    requires IsGrid(g, size) && n <= |words|
    requires |ps| == |qs| && forall j :: 0 <= j < |ps| ==> ps[j].id == qs[j].id
    ensures RebuildWords(g, size, words, ps, n) == RebuildWords(g, size, words, qs, n)
    decreases n
  {
    if n > 0 {
      RebuildWordsSameIds(g, size, words, ps, qs, n - 1);
      var id := words[n - 1].playerId;
      assert IndexOfId(ps, id).None? <==> IndexOfId(qs, id).None?;
    }
  }

  /** A board built by placements is the board a shared link rebuilds: when
      the grid is the replay of the placed words before a commit, it still
      is after it. */
  lemma CommitKeepsRebuildable(p: Play, size: nat, a: nat, score: ScoreResult, bonus: int,
                               text: string, sr: int, sc: int, dir: Direction, hasBonus: bool, time: int)
    requires IsGrid(p.grid, size) && a < |p.players|
    requires p.grid == Rebuild(size, p.placedWords, p.players)
    ensures var q := Commit(p, size, a, score, bonus, text, sr, sc, dir, hasBonus, time);
      q.grid == Rebuild(size, q.placedWords, q.players)
  {
    var q := Commit(p, size, a, score, bonus, text, sr, sc, dir, hasBonus, time);
    var n := |p.placedWords|;
    var ps := WithWord(p.players, a, BoardWord(|p.players[a].words| + 1, text, score.total,
                          WordBreakdown(score.mainWord, score.secondaryWords, hasBonus,
                                        if hasBonus then bonus else 0)));
    assert forall j :: 0 <= j < |p.players| ==> q.players[j].id == p.players[j].id by {
      ActivatedOnlyOne(ps, NextIndex(ps));
    }
    RebuildPrefix(EmptyGrid(size), size, q.placedWords, p.placedWords, q.players, n);
    RebuildWordsSameIds(EmptyGrid(size), size, p.placedWords, q.players, p.players, n);
    assert IndexOfId(q.players, p.players[a].id).Some? by {
      assert q.players[a].id == p.players[a].id;
    }
    assert q.placedWords[n].text == text;
  }

  /** Replaying a list replays its prefixes first. */
  lemma {:induction false} RebuildPrefix(g: Grid, size: nat, words: seq<PlacedWord>,
                                         prefix: seq<PlacedWord>, ps: seq<BoardPlayer>, n: nat)
    requires IsGrid(g, size) && n <= |prefix| <= |words| && prefix == words[..|prefix|]
    ensures RebuildWords(g, size, words, ps, n) == RebuildWords(g, size, prefix, ps, n)
    decreases n
  {
    if n > 0 {
      RebuildPrefix(g, size, words, prefix, ps, n - 1);
      assert words[n - 1] == prefix[n - 1];
    }
  }

  // ---------------------------------------------------------------------
  // Selection

  /** `selectCell(row, col)`: a new cell is selected horizontally; the same
      cell again turns the direction vertical; a third time deselects. */
  function SelectedCell(sel: Selection, row: int, col: int): Selection {
    if sel.cell.Some? && sel.cell.value.0 == row && sel.cell.value.1 == col then
      if sel.direction == Horizontal then sel.(direction := Vertical) else NoSelection
    else Selection(Some((row, col)), Horizontal, "")
  }

  /** Clicking one cell cycles: selected across, then down, then nothing,
      then selected across again. */
  lemma SelectCellCycles(sel: Selection, row: int, col: int)
    requires !(sel.cell.Some? && sel.cell.value.0 == row && sel.cell.value.1 == col)
    ensures var s1 := SelectedCell(sel, row, col);
      var s2 := SelectedCell(s1, row, col);
      var s3 := SelectedCell(s2, row, col);
      && s1 == Selection(Some((row, col)), Horizontal, "")
      && s2 == Selection(Some((row, col)), Vertical, "")
      && s3 == NoSelection
      && SelectedCell(s3, row, col) == s1
  {
  }

  /** A letter of the preview: `{row, col, letter}`. */
  datatype PreviewCell = PreviewCell(row: int, col: int, letter: char)

  /** `previewCells`, over the first `n` letters of the preview word. */
  function PreviewOf(sel: Selection, size: nat, n: nat): (cells: seq<PreviewCell>)
    requires sel.cell.Some? && n <= |sel.preview|
    decreases n
  {
    if n == 0 then []
    else
      var p := PosAt(sel.cell.value.0, sel.cell.value.1, sel.direction, n - 1);
      PreviewOf(sel, size, n - 1) +
        (if p.0 < size && p.1 < size then [PreviewCell(p.0, p.1, sel.preview[n - 1])] else [])
  }

  /** `previewCells`: nothing without a selection or a word. */
  function Preview(sel: Selection, size: nat): seq<PreviewCell> {
    if sel.cell.None? || sel.preview == "" then [] else PreviewOf(sel, size, |sel.preview|)
  }

  /** Every preview cell is a letter of the word at its own square, short of
      the far edges; for a selection at non-negative coordinates it is on
      the board. */
  lemma {:induction false} PreviewOfCells(sel: Selection, size: nat, n: nat)
    requires sel.cell.Some? && n <= |sel.preview|
    ensures forall k :: 0 <= k < |PreviewOf(sel, size, n)| ==>
      var cell := PreviewOf(sel, size, n)[k];
      cell.row < size && cell.col < size &&
      exists i :: 0 <= i < n && IsAt(PosAt(sel.cell.value.0, sel.cell.value.1, sel.direction, i),
                                      cell.row, cell.col) && cell.letter == sel.preview[i]
    ensures 0 <= sel.cell.value.0 && 0 <= sel.cell.value.1 ==>
      forall k :: 0 <= k < |PreviewOf(sel, size, n)| ==>
        0 <= PreviewOf(sel, size, n)[k].row && 0 <= PreviewOf(sel, size, n)[k].col
    decreases n
  {
    if n > 0 {
      PreviewOfCells(sel, size, n - 1);
      var prev := PreviewOf(sel, size, n - 1);
      var cur := PreviewOf(sel, size, n);
      assert forall k :: 0 <= k < |prev| ==> cur[k] == prev[k];
      var p := PosAt(sel.cell.value.0, sel.cell.value.1, sel.direction, n - 1);
      if p.0 < size && p.1 < size {
        assert cur[|prev|] == PreviewCell(p.0, p.1, sel.preview[n - 1]);
        assert IsAt(p, cur[|prev|].row, cur[|prev|].col);
      }
    }
  }

  /** When the whole word fits, the preview has one cell per letter, in
      order. */
  lemma {:induction false} PreviewOfFits(sel: Selection, size: nat, n: nat)
    requires sel.cell.Some? && n <= |sel.preview|
    requires AllInGrid(size, n, sel.cell.value.0, sel.cell.value.1, sel.direction)
    ensures |PreviewOf(sel, size, n)| == n
    ensures forall i :: 0 <= i < n ==>
        IsAt(PosAt(sel.cell.value.0, sel.cell.value.1, sel.direction, i),
             PreviewOf(sel, size, n)[i].row, PreviewOf(sel, size, n)[i].col) &&
        PreviewOf(sel, size, n)[i].letter == sel.preview[i]
    decreases n
  {
    if n > 0 {
      assert AllInGrid(size, n - 1, sel.cell.value.0, sel.cell.value.1, sel.direction);
      PreviewOfFits(sel, size, n - 1);
      var p := PosAt(sel.cell.value.0, sel.cell.value.1, sel.direction, n - 1);
      assert InGrid(size, p.0, p.1);
      var prev := PreviewOf(sel, size, n - 1);
      var cur := PreviewOf(sel, size, n);
      assert cur == prev + [PreviewCell(p.0, p.1, sel.preview[n - 1])];
    }
  }

  /** `placeWordFromPreview`: with a selected cell and a previewed word, try
      to place it; clear the selection in either case. */
  function FromPreview(st: Store, hasBonus: bool, time: int): Store
    requires IsGrid(st.play.grid, st.setup.boardSize)
  {
    var sel := st.selection;
    if sel.cell.None? || sel.preview == "" then st
    else Store(st.setup, NoSelection,
               Place(st.setup, st.play, sel.preview, sel.cell.value.0, sel.cell.value.1,
                     sel.direction, hasBonus, time))
  }

  // ---------------------------------------------------------------------
  // Import

  function SettingsOf(s: Setup): Settings {
    Settings(s.boardSize, s.boardConfig, s.bonus, s.language, s.seconds)
  }

  /** The game after `importGameState` accepted `imp`: players and placed
      words installed, the grid taken or rebuilt, the first player activated
      when nobody is, the ledger emptied. */
  function InstalledPlay(imp: Imported<BoardWord>): (r: Play)
    requires imp.settings.boardSize >= 0
    requires imp.grid.Some? ==> IsGrid(imp.grid.value, imp.settings.boardSize)
    ensures IsGrid(r.grid, imp.settings.boardSize as nat) && r.moveHistory == []
  {
    var ps := imp.players;
    Play(if imp.grid.Some? then imp.grid.value
         else Rebuild(imp.settings.boardSize as nat, imp.placedWords, ps),
         if |ps| > 0 && ActiveIndex(ps).None? then Activated(ps, 0) else ps,
         imp.placedWords, [])
  }

  /** The store after `importGameState` accepted `imp`: the imported
      settings over the loaded tables, the selection untouched. */
  function Installed(st: Store, imp: Imported<BoardWord>): (r: Store)
    requires imp.settings.boardSize >= 0
    requires imp.grid.Some? ==> IsGrid(imp.grid.value, imp.settings.boardSize)
    ensures IsGrid(r.play.grid, r.setup.boardSize) && r.play.moveHistory == []
  {
    Store(Setup(imp.settings.bonus, imp.settings.language, imp.settings.seconds, imp.settings.config,
                imp.settings.boardSize as nat, st.setup.configs, st.setup.letters),
          st.selection, InstalledPlay(imp))
  }

  /** `importGameState`: a rejected state changes nothing. */
  function ImportInto(st: Store, raw: RawState<BoardWord>): Store {
    match ImportFields(raw, SettingsOf(st.setup))
    case Rejected(_) => st
    case Accepted(imp) => Installed(st, imp)
  }

  /** After a link import someone is active whenever there are players, and
      the board is the replay of the imported placed words. */
  lemma ImportedLinkBoard(st: Store, players: seq<BoardPlayer>, words: seq<PlacedWord>,
                          s: Settings)
    requires s.boardSize > 0 && s.config != "" && s.language != ""
    ensures var r := ImportInto(st, ExportForLink(players, words, s));
      && (r.play.players != [] <==> players != [])
      && (players != [] ==> ActiveIndex(r.play.players).Some?)
      && r.play.grid == Rebuild(s.boardSize, words, r.play.players)
      && r.play.placedWords == words && r.play.moveHistory == []
      && SettingsOf(r.setup) == s
  {
    ExportForLinkRoundTrip(players, words, s, SettingsOf(st.setup));
    var r := ImportInto(st, ExportForLink(players, words, s));
    if |players| > 0 && ActiveIndex(players).None? {
      ActivatedOnlyOne(players, 0);
      RebuildWordsSameIds(EmptyGrid(s.boardSize), s.boardSize, words, players, r.play.players,
                          |words|);
    }
  }

  /** Sharing a link and opening it gives back the same game, ledger aside,
      for a board built by placements while someone holds the turn. */
  lemma LinkRestoresGame(st: Store, other: Store)
    requires st.setup.boardSize > 0 && st.setup.boardConfig != "" && st.setup.language != ""
    requires st.play.grid == Rebuild(st.setup.boardSize, st.play.placedWords, st.play.players)
    requires ActiveIndex(st.play.players).Some?
    ensures var r := ImportInto(other, ExportForLink(st.play.players, st.play.placedWords,
                                                     SettingsOf(st.setup)));
      r.play == st.play.(moveHistory := []) && SettingsOf(r.setup) == SettingsOf(st.setup)
  {
    ExportForLinkRoundTrip(st.play.players, st.play.placedWords, SettingsOf(st.setup),
                           SettingsOf(other.setup));
  }

  // ---------------------------------------------------------------------
  // Loops of the store's actions

  /** The letter loop of `placeWord`: letters go into empty cells only, and
      every letter's square is recorded. */
  method PlaceLetters(g0: Grid, size: nat, letters: string, sr: int, sc: int, dir: Direction,
                      pid: int, wid: int) returns (g: Grid, positions: seq<LetterPos>)
    requires IsGrid(g0, size)
    ensures g == WriteLetters(g0, size, letters, sr, sc, dir, pid, wid, |letters|)
    ensures positions == LetterPositions(letters, sr, sc, dir)
  {
    g := g0;
    positions := [];
    for i := 0 to |letters|
      invariant g == WriteLetters(g0, size, letters, sr, sc, dir, pid, wid, i)
      invariant |positions| == i
      invariant forall k :: 0 <= k < i ==>
        positions[k] == LetterPos(PosAt(sr, sc, dir, k).0, PosAt(sr, sc, dir, k).1, letters[k])
    {
      var row := if dir == Horizontal then sr else sr + i;
      var col := if dir == Horizontal then sc + i else sc;
      if 0 <= row < size && 0 <= col < size && g[row][col].letter.None? {
        g := g[row := g[row][col := Cell(Some(letters[i]), Some(pid), Some(wid))]];
      }
      positions := positions + [LetterPos(row, col, letters[i])];
    }
  }

  /** `for (const player of players) player.words = []`. */
  method ClearWords(ps: seq<BoardPlayer>) returns (r: seq<BoardPlayer>)
    ensures r == WordsCleared(ps)
  {
    r := ps;
    for j := 0 to |ps|
      invariant |r| == |ps|
      invariant forall k :: 0 <= k < j ==> r[k] == ps[k].(words := [])
      invariant forall k :: j <= k < |r| ==> r[k] == ps[k]
    {
      r := r[j := r[j].(words := [])];
    }
  }

  /** The loop of `previewCells`. */
  method PreviewLoop(sel: Selection, size: nat) returns (cells: seq<PreviewCell>)
    requires sel.cell.Some?
    ensures cells == PreviewOf(sel, size, |sel.preview|)
  {
    cells := [];
    var letters := sel.preview;
    for i := 0 to |letters|
      invariant cells == PreviewOf(sel, size, i)
    {
      var row := if sel.direction == Horizontal then sel.cell.value.0 else sel.cell.value.0 + i;
      var col := if sel.direction == Horizontal then sel.cell.value.1 + i else sel.cell.value.1;
      cells := cells + (if row < size && col < size then [PreviewCell(row, col, letters[i])] else []);
    }
  }

  /** The grid and players `importGameState` installs: the imported grid or
      the rebuild, and the first player activated when nobody is. */
  method ImportedGame(imp: Imported<BoardWord>) returns (game: Play)
    requires imp.settings.boardSize >= 0
    requires imp.grid.Some? ==> IsGrid(imp.grid.value, imp.settings.boardSize)
    ensures game == InstalledPlay(imp)
  {
    var grid;
    if imp.grid.Some? {
      grid := imp.grid.value;
    } else {
      grid := RebuildGrid(imp.settings.boardSize as nat, imp.placedWords, imp.players);
    }
    var ps := imp.players;
    if |ps| > 0 && ActiveIndex(ps).None? {
      ps := ActivateAll(ps, 0);
    }
    game := Play(grid, ps, imp.placedWords, []);
  }

  /** The commit of `placeWord`, step by step: the snapshot is taken first,
      then the letters are written, the placed word and the player's word
      recorded, the ledger entry appended and the turn passed on. */
  method Committed(p: Play, size: nat, a: nat, score: ScoreResult, bonus: int, text: string,
                   sr: int, sc: int, dir: Direction, hasBonus: bool, time: int) returns (q: Play)
    requires IsGrid(p.grid, size) && a < |p.players|
    ensures q == Commit(p, size, a, score, bonus, text, sr, sc, dir, hasBonus, time)
  {
    var snapshot := SnapshotOf(p);
    var upper := Upper(text);
    var player := p.players[a];
    var wordId := |player.words| + 1;
    var grid, positions := PlaceLetters(p.grid, size, upper, sr, sc, dir, player.id, wordId);
    var placed := p.placedWords + [PlacedWord(wordId, text, player.id, sr, sc, dir, positions)];
    var word := BoardWord(wordId, text, score.total,
                          WordBreakdown(score.mainWord, score.secondaryWords, hasBonus,
                                        if hasBonus then bonus else 0));
    var ps := WithWord(p.players, a, word);
    var history := p.moveHistory + [Move(|p.moveHistory| + 1, time, player.id, player.name, upper,
                                         score.total, score.breakdown, sr, sc, dir, snapshot)];
    ps := ActivateAll(ps, NextIndex(ps));
    q := Play(grid, ps, placed, history);
  }

  // ---------------------------------------------------------------------
  // The store object

  class BoardGame {
    var bonus: int
    var language: string
    var players: seq<BoardPlayer>
    var seconds: int
    var selectedBoardConfig: string
    var boardSize: nat
    var boardConfigs: map<string, Multipliers>
    var letters: map<string, LetterTable>
    var boardGrid: Grid
    var placedWords: seq<PlacedWord>
    var selectedCell: Option<(int, int)>
    var direction: Direction
    var previewWord: string
    var moveHistory: seq<Move>

    function State(): Store
      reads this
    {
      Store(Setup(bonus, language, seconds, selectedBoardConfig, boardSize, boardConfigs, letters),
            Selection(selectedCell, direction, previewWord),
            Play(boardGrid, players, placedWords, moveHistory))
    }

    /** The grid has the board's size. */
    predicate Valid()
      reads this
    {
      IsGrid(boardGrid, boardSize)
    }

    /** The newest ledger entry holds a grid of the current size. */
    predicate LastSnapshotFits()
      reads this
    {
      |moveHistory| > 0 ==> IsGrid(moveHistory[|moveHistory| - 1].snapshot.grid, boardSize)
    }

    constructor (configs: map<string, Multipliers>, letterTables: map<string, LetterTable>)
      ensures Valid() && State() == Initial(configs, letterTables)
    {
      bonus, language, players, seconds := 50, "en", [], 90;
      selectedBoardConfig, boardSize, boardConfigs, letters := "standard", 15, configs, letterTables;
      boardGrid, placedWords := EmptyGrid(15), [];
      selectedCell, direction, previewWord := None, Horizontal, "";
      moveHistory := [];
    }

    /** `initializeBoard`. */
    method InitializeBoard()
      modifies this
      ensures Valid()
      ensures State() == old(State()).(play := old(State()).play.(grid := EmptyGrid(boardSize)))
    {
      boardGrid := EmptyGrid(boardSize);
    }

    /** `changeBoardSize`. */
    method ChangeBoardSize(newSize: nat)
      modifies this
      ensures Valid() && State() == Resized(old(State()), newSize)
    {
      boardSize := newSize;
      boardGrid := [];
      placedWords := [];
      InitializeBoard();
    }

    /** `changeBoardConfig`: the multipliers change, the board stays. */
    method ChangeBoardConfig(configName: string)
      modifies this
      ensures State() == old(State()).(setup := old(State()).setup.(boardConfig := configName))
    {
      selectedBoardConfig := configName;
    }

    /** `resetBoard`. */
    method ResetBoard()
      modifies this
      ensures Valid()
      ensures State() == old(State()).(play := Reset(old(State()).play, old(boardSize)))
    {
      boardGrid := [];
      placedWords := [];
      moveHistory := [];
      InitializeBoard();
      players := ClearWords(players);
    }

    /** `activatePlayer(players[idx])`. */
    method ActivatePlayer(idx: int)
      modifies this
      ensures State() == old(State()).(play := old(State()).play.(players := Activated(old(players), idx)))
    {
      players := ActivateAll(players, idx);
    }

    /** `addPlayer(name)`. */
    method AddPlayer(name: string)
      modifies this
      ensures State() == old(State()).(play := old(State()).play.(players := AddedPlayer(old(players), name)))
    {
      if name == "" {
        return;
      }
      var id := MaxId(players) + 1;
      players := players + [Player(id, name, false, [])];
      if |players| == 1 {
        ActivatePlayer(0);
      }
    }

    /** `deletePlayer(players[idx])`. */
    method DeletePlayer(idx: int)
      modifies this
      ensures State() == old(State()).(play := old(State()).play.(players := DeletedPlayer(old(players), idx)))
    {
      if 0 <= idx < |players| {
        players := players[..idx] + players[idx + 1..];
      }
    }

    /** `deleteWord({wordId, player: players[idx]})`. */
    method DeleteWord(wordId: int, idx: nat)
      requires Valid() && idx < |players|
      modifies this
      ensures Valid()
      ensures State() == old(State()).(play := DeletedWord(old(State()).play, old(boardSize), idx, wordId))
    {
      var player := players[idx];
      var wordIndex := FindWord(player.words, wordId);
      if wordIndex.None? {
        return;
      }
      var k := wordIndex.value;
      players := players[idx := player.(words := player.words[..k] + player.words[k + 1..])];
      var placedWordIndex := FindPlaced(placedWords, wordId, player.id);
      if placedWordIndex.None? {
        return;
      }
      var j := placedWordIndex.value;
      var placedWord := placedWords[j];
      boardGrid := ClearPositions(boardGrid, boardSize, placedWord.positions);
      placedWords := placedWords[..j] + placedWords[j + 1..];
    }

    /** `updateWordPoints({wordId, player: players[idx], newPoints})`. */
    method UpdateWordPoints(wordId: int, idx: nat, newPoints: int)
      requires idx < |players|
      modifies this
      ensures State() == old(State()).(play := old(State()).play.(
        players := UpdatedPoints(old(players), idx, wordId, newPoints)))
    {
      var wordIndex := FindWord(players[idx].words, wordId);
      if wordIndex.Some? {
        var k := wordIndex.value;
        var words := players[idx].words;
        players := players[idx := players[idx].(words := words[k := words[k].(points := newPoints)])];
      }
    }

    /** `nextPlayer`. */
    method NextPlayer()
      modifies this
      ensures State() == old(State()).(play := old(State()).play.(players := NextTurn(old(players))))
    {
      var active := ActiveIndex(players);
      var index := if active.Some? then active.value as int else -1;
      var nextIndex := if index == |players| - 1 then 0 else index + 1;
      ActivatePlayer(nextIndex);
    }

    /** `createSnapshot`. */
    method CreateSnapshot() returns (snapshot: Snapshot)
      ensures snapshot == SnapshotOf(State().play)
    {
      var active := ActiveIndex(players);
      var id := if active.Some? && players[active.value].id != 0 then Some(players[active.value].id)
                else None;
      snapshot := Snapshot(boardGrid, players, placedWords, id);
    }

    /** `placeWord({text, startRow, startCol, direction, hasBonus})`; `time`
        is the clock reading for the ledger entry. */
    method PlaceWord(text: string, startRow: int, startCol: int, dir: Direction, hasBonus: bool,
                     time: int)
      requires Valid()
      modifies this
      ensures Valid()
      ensures State() == old(State()).(play := Place(old(State()).setup, old(State()).play, text,
                                                     startRow, startCol, dir, hasBonus, time))
    {
      var active := ActiveIndex(players);
      if active.None? {
        return;
      }
      var a := active.value;
      var validation := ValidateWordPlacement(boardGrid, boardSize, |placedWords| == 0, text,
                                              startRow, startCol, dir, AnyWord);
      if validation.Rejected? {
        return;
      }
      AcceptedIff(boardGrid, boardSize, |placedWords| == 0, text, startRow, startCol, dir, AnyWord);
      var scoreResult := CalculateWordScore(boardGrid, boardSize, CurrentConfig(State().setup),
                                            LetterValues(State().setup), bonus, text, startRow,
                                            startCol, dir, hasBonus);
      CommitPlacement(a, scoreResult, text, startRow, startCol, dir, hasBonus, time);
    }

    /** The part of `placeWord` after validation and scoring: snapshot,
        letters, placed word, the player's word, ledger entry, next turn. */
    method CommitPlacement(a: nat, scoreResult: ScoreResult, text: string, startRow: int,
                           startCol: int, dir: Direction, hasBonus: bool, time: int)
      requires Valid() && a < |players|
      modifies this
      ensures Valid()
      ensures State() == old(State()).(play := Commit(old(State()).play, old(boardSize), a, scoreResult,
        old(bonus), text, startRow, startCol, dir, hasBonus, time))
    {
      var game := Committed(State().play, boardSize, a, scoreResult, bonus, text, startRow, startCol,
                            dir, hasBonus, time);
      InstallPlay(game);
    }

    /** `undoLastMove`. */
    method UndoLastMove()
      modifies this
      ensures old(|moveHistory|) > 0 && old(LastSnapshotFits()) ==> Valid()
      ensures State() == old(State()).(play := Undo(old(State()).play))
    {
      if |moveHistory| == 0 {
        return;
      }
      var lastMove := moveHistory[|moveHistory| - 1];
      var snapshot := lastMove.snapshot;
      boardGrid := snapshot.grid;
      players := snapshot.players;
      placedWords := snapshot.placedWords;
      if snapshot.activePlayerId.Some? {
        var playerToActivate := IndexOfId(players, snapshot.activePlayerId.value);
        if playerToActivate.Some? {
          ActivatePlayer(playerToActivate.value);
        }
      }
      moveHistory := moveHistory[..|moveHistory| - 1];
    }

    /** `selectCell(row, col)`. */
    method SelectCell(row: int, col: int)
      modifies this
      ensures State() == old(State()).(selection := SelectedCell(old(State()).selection, row, col))
    {
      if selectedCell.Some? && selectedCell.value.0 == row && selectedCell.value.1 == col {
        if direction == Horizontal {
          direction := Vertical;
        } else {
          selectedCell := None;
          direction := Horizontal;
          previewWord := "";
        }
      } else {
        selectedCell := Some((row, col));
        direction := Horizontal;
        previewWord := "";
      }
    }

    /** `updatePreviewWord(word)`. */
    method UpdatePreviewWord(word: string)
      modifies this
      ensures State() == old(State()).(selection := old(State()).selection.(preview := Upper(word)))
    {
      previewWord := Upper(word);
    }

    /** `clearSelection`. */
    method ClearSelection()
      modifies this
      ensures State() == old(State()).(selection := NoSelection)
    {
      selectedCell := None;
      direction := Horizontal;
      previewWord := "";
    }

    /** `placeWordFromPreview(hasBonus)`. */
    method PlaceWordFromPreview(hasBonus: bool, time: int)
      requires Valid()
      modifies this
      ensures Valid() && State() == FromPreview(old(State()), hasBonus, time)
    {
      if selectedCell.None? || previewWord == "" {
        return;
      }
      PlaceWord(previewWord, selectedCell.value.0, selectedCell.value.1, direction, hasBonus, time);
      ClearSelection();
    }

    /** `previewCells`. */
    method PreviewCells() returns (cells: seq<PreviewCell>)
      ensures cells == Preview(State().selection, boardSize)
    {
      if selectedCell.None? || previewWord == "" {
        return [];
      }
      cells := PreviewLoop(Selection(selectedCell, direction, previewWord), boardSize);
    }

    /** `rebuildBoardGridFromPlacedWords`. */
    method RebuildBoardGridFromPlacedWords()
      modifies this
      ensures Valid()
      ensures State() == old(State()).(play := old(State()).play.(
        grid := Rebuild(boardSize, placedWords, players)))
    {
      boardGrid := RebuildGrid(boardSize, placedWords, players);
    }

    /** `importGameState` on a decoded state: the reason when it is refused. */
    method ImportGameState(raw: RawState<BoardWord>) returns (error: Option<ImportError>)
      modifies this
      ensures State() == ImportInto(old(State()), raw)
      ensures Valid() || error.Some?
      ensures error.Some? <==> ImportFields(raw, SettingsOf(old(State()).setup)).Rejected?
    {
      var outcome := ImportFields(raw, SettingsOf(State().setup));
      if outcome.Rejected? {
        return Some(outcome.error);
      }
      InstallImported(outcome.state);
      return None;
    }

    /** The part of `importGameState` after the checks. */
    method InstallImported(imp: Imported<BoardWord>)
      requires imp.settings.boardSize >= 0
      requires imp.grid.Some? ==> IsGrid(imp.grid.value, imp.settings.boardSize)
      modifies this
      ensures Valid() && State() == Installed(old(State()), imp)
    {
      var game := ImportedGame(imp);
      InstallSettings(imp.settings);
      InstallPlay(game);
    }

    /** The imported settings over the current ones. */
    method InstallSettings(s: Settings)
      requires s.boardSize >= 0
      modifies this
      ensures State() == old(State()).(setup := old(State()).setup.(
        bonus := s.bonus, language := s.language, seconds := s.seconds,
        boardConfig := s.config, boardSize := s.boardSize as nat))
    {
      bonus, language, seconds := s.bonus, s.language, s.seconds;
      selectedBoardConfig, boardSize := s.config, s.boardSize as nat;
    }

    /** The imported game over the current one. */
    method InstallPlay(p: Play)
      modifies this
      ensures State() == old(State()).(play := p)
    {
      boardGrid, players, placedWords, moveHistory := p.grid, p.players, p.placedWords, p.moveHistory;
    }
  }
}
