/** The freeform scorer: a player list and, for each player, a log of the
    words they declared with the points they claim.  The store object keeps
    the player list and a few settings; every operation changes the list in
    place. */
module GameStore {
  import opened Common
  import opened Players

  /** One letter of a logged word.  `bonus` is `None` where the caller's
      bonus array is shorter than the word (its entry is `undefined`). */
  datatype LetterRecord = LetterRecord(ch: char, points: int, bonus: Option<int>)

  /** A logged word: `{id, text, points, letters, wordBonus, hasExtraBonus}`. */
  datatype ScoreWord = ScoreWord(id: int, text: string, points: int, letters: seq<LetterRecord>,
                                 wordBonus: int, hasExtraBonus: bool)

  type ScorePlayer = Player<ScoreWord>

  /** The argument of `addWord`: the text, the points already parsed to an
      integer, the optional per-letter bonus array, the optional word
      multiplier and the extra-bonus flag. */
  datatype WordInput = WordInput(text: string, points: int, bonusArray: Option<seq<int>>,
                                 wordBonus: Option<int>, superBonus: bool)

  /** Letter values per language, as loaded from the settings file. */
  type LetterTables = map<string, map<char, int>>

  // ---------------------------------------------------------------------
  // Specification functions

  /** `getCharacterPoints(char)`: the value in the current language's
      table, 0 for a character the table lacks. */
  function CharPoints(tables: LetterTables, language: string, ch: char): (r: int)
    ensures language in tables && ch in tables[language] ==> r == tables[language][ch]
    ensures !(language in tables && ch in tables[language]) ==> r == 0
  {
    var table := if language in tables then tables[language] else map[];
    if ch in table then table[ch] else 0
  }

  /** `word.bonusArray ? word.bonusArray[i] : 1`. */
  function LetterBonus(bonusArray: Option<seq<int>>, i: nat): Option<int> {
    match bonusArray
    case None => Some(1)
    case Some(a) => if i < |a| then Some(a[i]) else None
  }

  /** `[...text.toUpperCase()].map(...)`: one record per letter. */
  function LetterRecords(tables: LetterTables, language: string, text: string,
                         bonusArray: Option<seq<int>>): (r: seq<LetterRecord>)
    ensures |r| == |text|
    ensures forall i :: 0 <= i < |text| ==>
      r[i].ch == UpperChar(text[i]) && r[i].points == CharPoints(tables, language, UpperChar(text[i]))
      && r[i].bonus == LetterBonus(bonusArray, i)
  {
    var upper := Upper(text);
    seq(|upper|, i requires 0 <= i < |upper| =>
      LetterRecord(upper[i], CharPoints(tables, language, upper[i]), LetterBonus(bonusArray, i)))
  }

  /** `word.wordBonus || 1`: a missing or zero multiplier counts as 1. */
  function WordBonus(w: WordInput): (r: int)
    ensures r != 0
    ensures w.wordBonus.Some? && w.wordBonus.value != 0 ==> r == w.wordBonus.value
  {
    if w.wordBonus.None? || w.wordBonus.value == 0 then 1 else w.wordBonus.value
  }

  /** The record `addWord` appends to a log of `count` words. */
  function NewWord(tables: LetterTables, language: string, count: nat, w: WordInput): ScoreWord {
    ScoreWord(count + 1, w.text, w.points, LetterRecords(tables, language, w.text, w.bonusArray),
              WordBonus(w), w.superBonus)
  }

  /** The list after `addPlayer(name)`: a new inactive player whose id is the
      largest id so far (no increment), activated when it is alone. */
  function WithPlayer(ps: seq<ScorePlayer>, name: string): seq<ScorePlayer> {
    if name == "" then ps
    else
      var grown := ps + [Player(MaxId(ps), name, false, [])];
      if |grown| == 1 then Activated(grown, 0) else grown
  }

  /** Why `addWord` did not log a word. */
  datatype AddWordOutcome = Logged | EmptyText | NoActivePlayer

  function AddWordOutcomeOf(ps: seq<ScorePlayer>, w: WordInput): AddWordOutcome {
    if w.text == "" then EmptyText
    else if ActiveIndex(ps).None? then NoActivePlayer
    else Logged
  }

  /** The list after `addWord(w)`: the word appended to the active player's
      log, then the turn passed on.  Without a text, or (where the store
      would fail on `undefined`) without an active player, nothing changes. */
  function WithWord(tables: LetterTables, language: string, ps: seq<ScorePlayer>,
                    w: WordInput): seq<ScorePlayer>
  {
    if w.text == "" then ps
    else match ActiveIndex(ps)
      case None => ps
      case Some(a) =>
        var logged := ps[a := ps[a].(words := ps[a].words +
                                      [NewWord(tables, language, |ps[a].words|, w)])];
        Activated(logged, NextIndex(logged))
  }

  /** `player.words.findIndex((word) => word.id === wordId)`. */
  function WordIndex(ws: seq<ScoreWord>, id: int): (r: Option<nat>)
    ensures r.Some? ==> r.value < |ws| && ws[r.value].id == id &&
                        forall j :: 0 <= j < r.value ==> ws[j].id != id
    ensures r.None? <==> forall j :: 0 <= j < |ws| ==> ws[j].id != id
  {
    FindIndex(ws, (w: ScoreWord) => w.id == id)
  }

  /** The log after the `splice` in `deleteWord`. */
  function WithoutWord(ws: seq<ScoreWord>, id: int): seq<ScoreWord> {
    match WordIndex(ws, id)
    case None => ws
    case Some(k) => ws[..k] + ws[k + 1..]
  }

  /** The list after `deleteWord({wordId, player: ps[idx]})`; an index
      outside the list stands for a player object no longer in it. */
  function WithoutPlayerWord(ps: seq<ScorePlayer>, idx: int, id: int): (r: seq<ScorePlayer>)
    ensures |r| == |ps|
  {
    if 0 <= idx < |ps| then ps[idx := ps[idx].(words := WithoutWord(ps[idx].words, id))] else ps
  }

  /** What `deletePlayer` did: removed the player, found nobody to remove,
      or stopped on `activePlayer.value.id` with nobody active and more than
      one player. */
  datatype DeleteOutcome = Removed | NotFound | NobodyActive

  function DeleteOutcomeOf(ps: seq<ScorePlayer>, idx: int): DeleteOutcome {
    if !(0 <= idx < |ps|) then NotFound
    else if |ps| != 1 && ActiveIndex(ps).None? then NobodyActive
    else Removed
  }

  /** The list after `deletePlayer(ps[idx])`. */
  function WithoutPlayer(ps: seq<ScorePlayer>, idx: int): seq<ScorePlayer> {
    if DeleteOutcomeOf(ps, idx) == Removed then ps[..idx] + ps[idx + 1..] else ps
  }

  // ---------------------------------------------------------------------
  // Properties

  /** `addPlayer` with a name appends exactly one inactive player without
      words, keeps everyone before it, and gives it the largest id so far;
      the first player is activated.  Ids therefore repeat: a non-zero id
      that is the maximum is shared by the new player and an old one. */
  lemma AddPlayerEffects(ps: seq<ScorePlayer>, name: string)
    requires name != ""
    ensures var r := WithPlayer(ps, name);
      && |r| == |ps| + 1
      && (|ps| > 0 ==> r[..|ps|] == ps && !r[|ps|].active)
      && (|ps| == 0 ==> r[0].active)
      && r[|ps|].name == name && r[|ps|].words == []
      && r[|ps|].id == MaxId(ps)
      && (forall j :: 0 <= j < |ps| ==> ps[j].id <= r[|ps|].id)
      && (r[|ps|].id != 0 ==> exists j :: 0 <= j < |ps| && ps[j].id == r[|ps|].id)
  {
    var r := WithPlayer(ps, name);
    var grown := ps + [Player(MaxId(ps), name, false, [])];
    if |ps| == 0 {
      ActivatedOnlyOne(grown, 0);
    } else {
      assert r == grown;
      assert r[..|ps|] == ps;
    }
  }

  /** There is room for one more player under a cap of `cap` exactly when
      every `addPlayer` leaves at most `cap` players. */
  lemma RoomForOneMore(ps: seq<ScorePlayer>, cap: nat)
    ensures |ps| < cap <==> forall name :: |WithPlayer(ps, name)| <= cap
  {
    forall name | name != ""
      ensures |WithPlayer(ps, name)| == |ps| + 1
    {
      AddPlayerEffects(ps, name);
    }
    assert |WithPlayer(ps, "?")| == |ps| + 1;
  }

  /** The first two players both get id 0. */
  lemma FirstTwoPlayersShareId(a: string, b: string)
    requires a != "" && b != ""
    ensures var r := WithPlayer(WithPlayer([], a), b);
      |r| == 2 && r[0].id == 0 && r[1].id == 0
  {
    var one := WithPlayer([], a);
    AddPlayerEffects([], a);
    AddPlayerEffects(one, b);
    assert MaxId(one) == 0 by {
      assert one[0].id == 0;
    }
  }

  /** `addWord` with a text and an active player `a`: exactly one word is
      appended to `a`'s log, numbered one past its length, carrying one
      letter record per character, and nobody else's log changes; the turn
      moves to the next index, wrapping to the first. */
  lemma AddWordEffects(tables: LetterTables, language: string, ps: seq<ScorePlayer>, w: WordInput)
    requires w.text != "" && ActiveIndex(ps).Some?
    ensures var a := ActiveIndex(ps).value;
      var r := WithWord(tables, language, ps, w);
      && |r| == |ps|
      && |r[a].words| == |ps[a].words| + 1 && r[a].words[..|ps[a].words|] == ps[a].words
      && r[a].words[|ps[a].words|] == NewWord(tables, language, |ps[a].words|, w)
      && r[a].words[|ps[a].words|].id == |ps[a].words| + 1
      && |r[a].words[|ps[a].words|].letters| == |w.text|
      && (forall j :: 0 <= j < |ps| && j != a ==> r[j].words == ps[j].words)
      && (forall j :: 0 <= j < |ps| ==> r[j].id == ps[j].id && r[j].name == ps[j].name)
      && ActiveIndex(r) == Some((a + 1) % |ps|)
  {
    var a := ActiveIndex(ps).value;
    var logged := ps[a := ps[a].(words := ps[a].words +
                                  [NewWord(tables, language, |ps[a].words|, w)])];
    assert ActiveIndex(logged) == ActiveIndex(ps) by {
      assert forall j :: 0 <= j < |ps| ==> (logged[j].active <==> ps[j].active);
    }
    ActivatedOnlyOne(logged, NextIndex(logged));
    NextIndexRotates(logged);
    var r := WithWord(tables, language, ps, w);
    assert r[a].words == logged[a].words;
    assert r[a].words[..|ps[a].words|] == ps[a].words;
  }

  /** A word's letter records read its text in upper case, and the word
      multiplier is never 0. */
  lemma NewWordLetters(tables: LetterTables, language: string, count: nat, w: WordInput)
    ensures var nw := NewWord(tables, language, count, w);
      && |nw.letters| == |w.text|
      && (forall i :: 0 <= i < |w.text| ==> nw.letters[i].ch == Upper(w.text)[i])
      && (w.bonusArray.None? ==> forall i :: 0 <= i < |w.text| ==> nw.letters[i].bonus == Some(1))
      && nw.wordBonus != 0
  {
  }

  /** `deleteWord` removes the first word with the id and only it: what
      comes before and after keeps its order, and the log loses one copy of
      that word; without such a word the log is unchanged. */
  lemma WithoutWordFirstOnly(ws: seq<ScoreWord>, id: int)
    ensures WordIndex(ws, id).None? ==> WithoutWord(ws, id) == ws
    ensures WordIndex(ws, id).Some? ==>
      var k := WordIndex(ws, id).value;
      var r := WithoutWord(ws, id);
      && ws[k].id == id && (forall j :: 0 <= j < k ==> ws[j].id != id)
      && |r| == |ws| - 1 && r[..k] == ws[..k] && r[k..] == ws[k + 1..]
      && multiset(r) + multiset{ws[k]} == multiset(ws)
  {
    if WordIndex(ws, id).Some? {
      var k := WordIndex(ws, id).value;
      var r := WithoutWord(ws, id);
      assert r == ws[..k] + ws[k + 1..];
      assert r[..k] == ws[..k];
      assert r[k..] == ws[k + 1..];
      calc {
        multiset(ws);
        { assert ws == ws[..k] + [ws[k]] + ws[k + 1..]; }
        multiset(ws[..k]) + multiset{ws[k]} + multiset(ws[k + 1..]);
        multiset(r) + multiset{ws[k]};
      }
    }
  }

  /** A later word with the same id stays in the log. */
  lemma WithoutWordKeepsLaterDuplicate(ws: seq<ScoreWord>, id: int, j: nat)
    requires j < |ws| && ws[j].id == id
    requires exists i :: 0 <= i < j && ws[i].id == id
    ensures ws[j] in WithoutWord(ws, id)
  {
    var k := WordIndex(ws, id).value;
    assert k < j;
    var r := WithoutWord(ws, id);
    assert r[j - 1] == ws[j];
  }

  /** `deletePlayer` removes exactly the chosen player when it runs to the
      end, and changes nothing otherwise. */
  lemma WithoutPlayerEffects(ps: seq<ScorePlayer>, idx: int)
    ensures var r := WithoutPlayer(ps, idx);
      && (DeleteOutcomeOf(ps, idx) == Removed <==> |r| == |ps| - 1)
      && (DeleteOutcomeOf(ps, idx) == Removed ==>
            r[..idx] == ps[..idx] && r[idx..] == ps[idx + 1..])
      && (DeleteOutcomeOf(ps, idx) != Removed ==> r == ps)
  {
    var r := WithoutPlayer(ps, idx);
    if DeleteOutcomeOf(ps, idx) == Removed {
      assert r[..idx] == ps[..idx];
      assert r[idx..] == ps[idx + 1..];
    }
  }

  // ---------------------------------------------------------------------
  // The store object

  /** Everything in the store but the player list. */
  datatype Options = Options(bonus: int, maxWordLength: int, language: string, seconds: int,
                             letters: LetterTables)

  class Game {
    var bonus: int
    var maxWordLength: int
    var language: string
    var players: seq<ScorePlayer>
    var seconds: int
    var letters: LetterTables

    function Settings(): Options
      reads this
    {
      Options(bonus, maxWordLength, language, seconds, letters)
    }

    /** `canAddPlayer`: room for a fifth player is refused, so a player may
        be added exactly when any `addPlayer` leaves at most four. */
    function CanAddPlayer(): (r: bool)
      reads this
      ensures r <==> forall name :: |WithPlayer(players, name)| <= 4
    {
      RoomForOneMore(players, 4);
      |players| < 4
    }

    /** The initial store, with the letter tables of the settings file. */
    constructor (tables: LetterTables)
      ensures players == [] && Settings() == Options(50, 10, "it", 90, tables)
    {
      bonus, maxWordLength, language, players, seconds := 50, 10, "it", [], 90;
      letters := tables;
    }

    /** `activatePlayer(players[idx])`: that player alone is active. */
    method ActivatePlayer(idx: int)
      modifies this
      ensures players == Activated(old(players), idx) && Settings() == old(Settings())
      ensures forall j :: 0 <= j < |players| ==> (players[j].active <==> j == idx)
    {
      players := ActivateAll(players, idx);
      ActivatedOnlyOne(old(players), idx);
    }

    /** `addPlayer(name)`; `added` is false where the store shows an error
        toast for an empty name. */
    method AddPlayer(name: string) returns (added: bool)
      modifies this
      ensures added <==> name != ""
      ensures players == WithPlayer(old(players), name) && Settings() == old(Settings())
      ensures old(CanAddPlayer()) ==> |players| <= 4
    {
      if name == "" {
        return false;
      }
      var id := MaxId(players);
      players := players + [Player(id, name, false, [])];
      if |players| == 1 {
        ActivatePlayer(0);
      }
      return true;
    }

    /** `nextPlayer()`: the successor of the active player, or the first
        player when nobody is active. */
    method NextPlayer()
      modifies this
      ensures players == Activated(old(players), NextIndex(old(players)))
      ensures Settings() == old(Settings())
      ensures |players| > 0 ==>
        ActiveIndex(players) == (match ActiveIndex(old(players))
                                 case Some(a) => Some((a + 1) % |players|)
                                 case None => Some(0))
    {
      var active := ActiveIndex(players);
      var index := if active.Some? then active.value as int else -1;
      var nextIndex := if index == |players| - 1 then 0 else index + 1;
      if |players| > 0 {
        NextIndexRotates(players);
      }
      ActivatePlayer(nextIndex);
    }

    /** `addWord(w)`, without the timer restart. */
    method AddWord(w: WordInput) returns (outcome: AddWordOutcome)
      modifies this
      ensures outcome == AddWordOutcomeOf(old(players), w)
      ensures players == WithWord(old(letters), old(language), old(players), w)
      ensures Settings() == old(Settings())
    {
      if w.text == "" {
        return EmptyText;
      }
      var active := ActiveIndex(players);
      if active.None? {
        return NoActivePlayer;
      }
      var a := active.value;
      var word := ScoreWord(|players[a].words| + 1, w.text, w.points,
                            LetterRecords(letters, language, w.text, w.bonusArray), WordBonus(w),
                            w.superBonus);
      players := players[a := players[a].(words := players[a].words + [word])];
      NextPlayer();
      return Logged;
    }

    /** `deletePlayer(players[idx])`, without the timer pause. */
    method DeletePlayer(idx: int) returns (outcome: DeleteOutcome)
      modifies this
      ensures outcome == DeleteOutcomeOf(old(players), idx)
      ensures players == WithoutPlayer(old(players), idx) && Settings() == old(Settings())
    {
      if !(0 <= idx < |players|) {
        return NotFound;
      }
      if |players| != 1 && ActiveIndex(players).None? {
        return NobodyActive;
      }
      players := players[..idx] + players[idx + 1..];
      return Removed;
    }

    /** `deleteWord({wordId, player: players[idx]})`. */
    method DeleteWord(idx: int, wordId: int)
      modifies this
      ensures players == WithoutPlayerWord(old(players), idx, wordId)
      ensures Settings() == old(Settings())
    {
      if 0 <= idx < |players| {
        var index := WordIndex(players[idx].words, wordId);
        if index.Some? {
          var k := index.value;
          players := players[idx := players[idx].(words := players[idx].words[..k] +
                                                            players[idx].words[k + 1..])];
        }
      }
    }
  }
}
