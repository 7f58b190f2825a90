/** The statistics the board game shows: the longest placed word, the
    highest-scoring word, the per-player figures and the total score.  Each
    "best" is found by a scan that replaces the candidate only on a strictly
    larger value, starting from 0, so the first maximum wins and nothing is
    chosen when no value is positive. */
module Stats {
  import opened Common
  import opened Board
  import opened Players
  import BoardGameStore
  import Scoring

  type BoardWord = BoardGameStore.BoardWord
  type BoardPlayer = BoardGameStore.BoardPlayer

  // ---------------------------------------------------------------------
  // The first strict maximum

  /** The candidate after scanning the first `n` elements with
      `if (key(x) > max) { max = key(x); best = x }`, as an index. */
  function FirstMaxOf<T>(xs: seq<T>, key: T -> int, n: nat): (r: Option<nat>)
    requires n <= |xs|
    ensures r.Some? ==> r.value < n
    decreases n
  {
    if n == 0 then None
    else
      var m := FirstMaxOf(xs, key, n - 1);
      if key(xs[n - 1]) > KeyAt(xs, key, m) then Some(n - 1) else m
  }

  /** The running maximum of the scan: the candidate's key, or 0. */
  function KeyAt<T>(xs: seq<T>, key: T -> int, m: Option<nat>): int
    requires m.Some? ==> m.value < |xs|
  {
    if m.Some? then key(xs[m.value]) else 0
  }

  /** The scan picks the first element of largest key, provided that key
      is positive, and nothing when no key is. */
  lemma {:induction false} FirstMaxIsFirstMaximum<T>(xs: seq<T>, key: T -> int, n: nat)
    requires n <= |xs|
    ensures var r := FirstMaxOf(xs, key, n);
      && (r.Some? ==>
            && key(xs[r.value]) > 0
            && (forall j :: 0 <= j < n ==> key(xs[j]) <= key(xs[r.value]))
            && (forall j :: 0 <= j < r.value ==> key(xs[j]) < key(xs[r.value])))
      && (r.None? <==> forall j :: 0 <= j < n ==> key(xs[j]) <= 0)
    decreases n
  {
    if n > 0 {
      FirstMaxIsFirstMaximum(xs, key, n - 1);
    }
  }

  /** The scan only looks at the elements it has passed. */
  lemma {:induction false} FirstMaxPrefix<T>(xs: seq<T>, ys: seq<T>, key: T -> int, n: nat)
    requires n <= |xs| && n <= |ys|
    requires forall j :: 0 <= j < n ==> xs[j] == ys[j]
    ensures FirstMaxOf(xs, key, n) == FirstMaxOf(ys, key, n)
    decreases n
  {
    if n > 0 {
      FirstMaxPrefix(xs, ys, key, n - 1);
    }
  }

  // ---------------------------------------------------------------------
  // longestWord

  function PlacedLength(w: PlacedWord): int {
    |w.text|
  }

  /** `{word, length, playerId, points}`. */
  datatype LongestInfo = LongestInfo(word: string, length: nat, playerId: int, points: int)

  /** `words.find((w) => w.text === text)`, as an index. */
  function WordWithText(ws: seq<BoardWord>, text: string): (r: Option<nat>)
    ensures r.Some? ==> r.value < |ws| && ws[r.value].text == text &&
                        forall j :: 0 <= j < r.value ==> ws[j].text != text
    ensures r.None? <==> forall j :: 0 <= j < |ws| ==> ws[j].text != text
  {
    FindIndex(ws, (w: BoardWord) => w.text == text)
  }

  /** `players.find((p) => p.id === playerId)?.words.find((w) => w.text ===
      text)?.points || 0`. */
  function PointsOfText(ps: seq<BoardPlayer>, playerId: int, text: string): int {
    match IndexOfId(ps, playerId)
    case None => 0
    case Some(i) =>
      match WordWithText(ps[i].words, text)
      case None => 0
      case Some(k) => ps[i].words[k].points
  }

  /** `longestWord`. */
  function Longest(pws: seq<PlacedWord>, ps: seq<BoardPlayer>): Option<LongestInfo> {
    match FirstMaxOf(pws, PlacedLength, |pws|)
    case None => None
    case Some(k) =>
      Some(LongestInfo(pws[k].text, |pws[k].text|, pws[k].playerId,
                       PointsOfText(ps, pws[k].playerId, pws[k].text)))
  }

  /** The longest word is the first placed word of greatest length, absent
      only when every placed text is empty; its points are those of the
      placing player's first word with the same text, or 0. */
  lemma LongestMeaning(pws: seq<PlacedWord>, ps: seq<BoardPlayer>)
    ensures Longest(pws, ps).None? <==> forall j :: 0 <= j < |pws| ==> pws[j].text == ""
    ensures Longest(pws, ps).Some? ==>
      var l := Longest(pws, ps).value;
      exists k :: 0 <= k < |pws| && pws[k].text == l.word && pws[k].playerId == l.playerId &&
        l.length == |l.word| > 0 &&
        (forall j :: 0 <= j < |pws| ==> |pws[j].text| <= l.length) &&
        (forall j :: 0 <= j < k ==> |pws[j].text| < l.length)
  {
    FirstMaxIsFirstMaximum(pws, PlacedLength, |pws|);
    if Longest(pws, ps).None? {
      assert forall j :: 0 <= j < |pws| ==> PlacedLength(pws[j]) <= 0;
    }
  }

  /** `longestWord`, as the store computes it: one scan over the placed
      words. */
  method LongestWord(pws: seq<PlacedWord>, ps: seq<BoardPlayer>) returns (r: Option<LongestInfo>)
    ensures r == Longest(pws, ps)
  {
    var longest: Option<nat> := None;
    var maxLength := 0;
    for i := 0 to |pws|
      invariant longest == FirstMaxOf(pws, PlacedLength, i)
      invariant maxLength == KeyAt(pws, PlacedLength, longest)
    {
      if |pws[i].text| > maxLength {
        maxLength := |pws[i].text|;
        longest := Some(i);
      }
    }
    if longest.None? {
      return None;
    }
    var w := pws[longest.value];
    return Some(LongestInfo(w.text, |w.text|, w.playerId, PointsOfText(ps, w.playerId, w.text)));
  }

  // ---------------------------------------------------------------------
  // highestScoringWord

  /** `{word, points, playerId, playerName}`. */
  datatype Highest = Highest(word: string, points: int, playerId: int, playerName: string)

  function EntryPoints(h: Highest): int {
    h.points
  }

  /** A player's words, as the records the scan builds. */
  function EntriesOf(p: BoardPlayer): (r: seq<Highest>)
    ensures |r| == |p.words|
  {
    seq(|p.words|, j requires 0 <= j < |p.words| =>
      Highest(p.words[j].text, p.words[j].points, p.id, p.name))
  }

  /** The words of the first `i` players, player by player. */
  function Flatten(ps: seq<BoardPlayer>, i: nat): seq<Highest>
    requires i <= |ps|
    decreases i
  {
    if i == 0 then [] else Flatten(ps, i - 1) + EntriesOf(ps[i - 1])
  }

  /** Taking more players only extends the list. */
  lemma {:induction false} FlattenGrows(ps: seq<BoardPlayer>, i: nat, m: nat)
    requires i <= m <= |ps|
    ensures |Flatten(ps, i)| <= |Flatten(ps, m)|
    ensures forall k :: 0 <= k < |Flatten(ps, i)| ==> Flatten(ps, m)[k] == Flatten(ps, i)[k]
    decreases m - i
  {
    if i < m {
      FlattenGrows(ps, i + 1, m);
    }
  }

  /** Word `j` of player `i` sits right after the words of the players
      before it. */
  lemma FlattenAt(ps: seq<BoardPlayer>, i: nat, j: nat)
    requires i < |ps| && j < |ps[i].words|
    ensures |Flatten(ps, i)| + j < |Flatten(ps, |ps|)|
    ensures Flatten(ps, |ps|)[|Flatten(ps, i)| + j] == EntriesOf(ps[i])[j]
  {
    FlattenGrows(ps, i + 1, |ps|);
  }

  /** Every entry of the list is a word of some player, at that word's
      place. */
  lemma {:induction false} FlattenCovers(ps: seq<BoardPlayer>, n: nat, k: nat)
    requires n <= |ps| && k < |Flatten(ps, n)|
    ensures exists i, j ::
      0 <= i < n && 0 <= j < |ps[i].words| && k == |Flatten(ps, i)| + j &&
      Flatten(ps, n)[k] == EntriesOf(ps[i])[j]
    decreases n
  {
    if k < |Flatten(ps, n - 1)| {
      FlattenCovers(ps, n - 1, k);
      var i, j :| 0 <= i < n - 1 && 0 <= j < |ps[i].words| && k == |Flatten(ps, i)| + j &&
        Flatten(ps, n - 1)[k] == EntriesOf(ps[i])[j];
      assert Flatten(ps, n)[k] == EntriesOf(ps[i])[j];
    } else {
      var j := k - |Flatten(ps, n - 1)|;
      assert Flatten(ps, n)[k] == EntriesOf(ps[n - 1])[j];
    }
  }

  /** The words of an earlier player come before those of a later one. */
  lemma FlattenBefore(ps: seq<BoardPlayer>, i0: nat, j0: nat, i: nat)
    requires i0 < i <= |ps| && j0 < |ps[i0].words|
    ensures |Flatten(ps, i0)| + j0 < |Flatten(ps, i)|
  {
    FlattenGrows(ps, i0 + 1, i);
  }

  /** `highestScoringWord`. */
  function HighestOf(ps: seq<BoardPlayer>): Option<Highest> {
    var all := Flatten(ps, |ps|);
    match FirstMaxOf(all, EntryPoints, |all|)
    case None => None
    case Some(k) => Some(all[k])
  }

  /** The highest-scoring word is a word of some player with the greatest
      points of all words, absent only when no word has positive points. */
  lemma HighestMeaning(ps: seq<BoardPlayer>)
    ensures HighestOf(ps).None? <==>
      forall i, j :: 0 <= i < |ps| && 0 <= j < |ps[i].words| ==> ps[i].words[j].points <= 0
    ensures HighestOf(ps).Some? ==>
      var h := HighestOf(ps).value;
      && h.points > 0
      && (exists i, j :: 0 <= i < |ps| && 0 <= j < |ps[i].words| &&
            h == Highest(ps[i].words[j].text, ps[i].words[j].points, ps[i].id, ps[i].name))
      && (forall i, j :: 0 <= i < |ps| && 0 <= j < |ps[i].words| ==>
            ps[i].words[j].points <= h.points)
  {
    var all := Flatten(ps, |ps|);
    FirstMaxIsFirstMaximum(all, EntryPoints, |all|);
    forall i, j | 0 <= i < |ps| && 0 <= j < |ps[i].words|
      ensures |Flatten(ps, i)| + j < |all| && EntryPoints(all[|Flatten(ps, i)| + j]) == ps[i].words[j].points
    {
      FlattenAt(ps, i, j);
    }
    if HighestOf(ps).Some? {
      FlattenCovers(ps, |ps|, FirstMaxOf(all, EntryPoints, |all|).value);
    } else {
      forall k | 0 <= k < |all| ensures all[k].points <= 0 {
        FlattenCovers(ps, |ps|, k);
      }
      assert forall k :: 0 <= k < |all| ==> EntryPoints(all[k]) <= 0;
    }
  }

  /** Ties keep the earliest word: every word before the chosen one, in
      player order and then in each player's order, scores strictly less. */
  lemma HighestIsFirst(ps: seq<BoardPlayer>)
    requires HighestOf(ps).Some?
    ensures var h := HighestOf(ps).value;
      exists i, j :: 0 <= i < |ps| && 0 <= j < |ps[i].words| &&
        h == Highest(ps[i].words[j].text, ps[i].words[j].points, ps[i].id, ps[i].name) &&
        forall i0, j0 ::
          (0 <= i0 < |ps| && 0 <= j0 < |ps[i0].words| && (i0 < i || (i0 == i && j0 < j))) ==>
            ps[i0].words[j0].points < h.points
  {
    var all := Flatten(ps, |ps|);
    FirstMaxIsFirstMaximum(all, EntryPoints, |all|);
    var k := FirstMaxOf(all, EntryPoints, |all|).value;
    FlattenCovers(ps, |ps|, k);
    var i, j :| 0 <= i < |ps| && 0 <= j < |ps[i].words| && k == |Flatten(ps, i)| + j &&
      all[k] == EntriesOf(ps[i])[j];
    forall i0, j0 | 0 <= i0 < |ps| && 0 <= j0 < |ps[i0].words| && (i0 < i || (i0 == i && j0 < j))
      ensures ps[i0].words[j0].points < all[k].points
    {
      FlattenAt(ps, i0, j0);
      if i0 < i {
        FlattenBefore(ps, i0, j0, i);
      }
    }
  }

  /** `highestScoringWord`, as the store computes it: a scan over every
      player's words in turn. */
  method HighestScoringWord(ps: seq<BoardPlayer>) returns (highest: Option<Highest>)
    ensures highest == HighestOf(ps)
  {
    ghost var all := Flatten(ps, |ps|);
    ghost var n := 0;
    ghost var best: Option<nat> := None;
    highest := None;
    var maxPoints := 0;
    for i := 0 to |ps|
      invariant n == |Flatten(ps, i)| <= |all|
      invariant Scanned(all, n, best, highest, maxPoints)
    {
      PlayerEntries(ps, i, all, n);
      best, highest, maxPoints := ScanWords(all, n, ps[i], best, highest, maxPoints);
      n := n + |ps[i].words|;
    }
  }

  /** The state of the scan after the first `n` entries of the list. */
  ghost predicate Scanned(all: seq<Highest>, n: nat, best: Option<nat>, highest: Option<Highest>,
                          maxPoints: int)
  {
    && n <= |all|
    && best == FirstMaxOf(all, EntryPoints, n)
    && highest == (if best.Some? then Some(all[best.value]) else None)
    && maxPoints == KeyAt(all, EntryPoints, best)
  }

  /** The inner loop of `highestScoringWord`: one player's words, which
      sit in the list from `base` on. */
  method ScanWords(ghost all: seq<Highest>, ghost base: nat, player: BoardPlayer,
                   ghost best0: Option<nat>, highest0: Option<Highest>, maxPoints0: int)
    returns (ghost best: Option<nat>, highest: Option<Highest>, maxPoints: int)
    requires base + |player.words| <= |all|
    requires forall j :: 0 <= j < |player.words| ==>
      all[base + j] == Highest(player.words[j].text, player.words[j].points, player.id, player.name)
    requires Scanned(all, base, best0, highest0, maxPoints0)
    ensures Scanned(all, base + |player.words|, best, highest, maxPoints)
  {
    best, highest, maxPoints := best0, highest0, maxPoints0;
    for j := 0 to |player.words|
      invariant Scanned(all, base + j, best, highest, maxPoints)
    {
      var word := player.words[j];
      if word.points > maxPoints {
        maxPoints := word.points;
        highest := Some(Highest(word.text, word.points, player.id, player.name));
        best := Some(base + j);
      }
    }
  }

  /** Player `i`'s words fill the list right after the players before. */
  lemma PlayerEntries(ps: seq<BoardPlayer>, i: nat, all: seq<Highest>, base: nat)
    requires i < |ps| && all == Flatten(ps, |ps|) && base == |Flatten(ps, i)|
    ensures base + |ps[i].words| == |Flatten(ps, i + 1)| <= |all|
    ensures forall j :: 0 <= j < |ps[i].words| ==>
      all[base + j] == Highest(ps[i].words[j].text, ps[i].words[j].points, ps[i].id, ps[i].name)
  {
    FlattenGrows(ps, i + 1, |ps|);
    forall j | 0 <= j < |ps[i].words|
      ensures Flatten(ps, |ps|)[|Flatten(ps, i)| + j] == EntriesOf(ps[i])[j]
    {
      FlattenAt(ps, i, j);
    }
  }

  // ---------------------------------------------------------------------
  // playerStats and totalScore

  /** `{word, length}` and `{word, points}` of a player's statistics. */
  datatype LongestOwn = LongestOwn(word: string, length: nat)
  datatype HighestOwn = HighestOwn(word: string, points: int)

  /** The integer part of one `playerStats` entry. */
  datatype PlayerStat = PlayerStat(playerId: int, playerName: string, totalWords: nat,
                                   totalPoints: int, longestWord: Option<LongestOwn>,
                                   highestScoringWord: Option<HighestOwn>)

  function WordLength(w: BoardWord): int {
    |w.text|
  }

  function WordPoints(w: BoardWord): int {
    w.points
  }

  /** `words.reduce((sum, word) => sum + word.points, 0)` over the first `n`
      words. */
  function Total(ws: seq<BoardWord>, n: nat): int
    requires n <= |ws|
    decreases n
  {
    if n == 0 then 0 else Total(ws, n - 1) + ws[n - 1].points
  }

  function TotalPoints(ws: seq<BoardWord>): int {
    Total(ws, |ws|)
  }

  /** The entry of one player. */
  function StatOf(p: BoardPlayer): PlayerStat {
    var ws := p.words;
    PlayerStat(p.id, p.name, |ws|, TotalPoints(ws),
               match FirstMaxOf(ws, WordLength, |ws|)
               case None => None
               case Some(k) => Some(LongestOwn(ws[k].text, |ws[k].text|)),
               match FirstMaxOf(ws, WordPoints, |ws|)
               case None => None
               case Some(k) => Some(HighestOwn(ws[k].text, ws[k].points)))
  }

  /** A player's entry counts and sums that player's words, and its longest
      word is the first of greatest length among them. */
  lemma StatMeaning(p: BoardPlayer)
    ensures var s := StatOf(p);
      && s.playerId == p.id && s.playerName == p.name
      && s.totalWords == |p.words| && s.totalPoints == TotalPoints(p.words)
      && (s.longestWord.None? <==> forall j :: 0 <= j < |p.words| ==> p.words[j].text == "")
      && (s.longestWord.Some? ==>
            exists k :: 0 <= k < |p.words| &&
              s.longestWord.value == LongestOwn(p.words[k].text, |p.words[k].text|) &&
              (forall j :: 0 <= j < |p.words| ==> |p.words[j].text| <= |p.words[k].text|) &&
              (forall j :: 0 <= j < k ==> |p.words[j].text| < |p.words[k].text|))
  {
    var ws := p.words;
    FirstMaxIsFirstMaximum(ws, WordLength, |ws|);
    assert forall j :: 0 <= j < |ws| ==> WordLength(ws[j]) <= 0 ==> ws[j].text == "";
    var l := FirstMaxOf(ws, WordLength, |ws|);
    if l.Some? {
      var k := l.value;
      assert StatOf(p).longestWord.value == LongestOwn(ws[k].text, |ws[k].text|);
    }
  }

  /** A player's highest-scoring word is the first of greatest positive
      points among that player's words. */
  lemma StatHighest(p: BoardPlayer)
    ensures var s := StatOf(p);
      && (s.highestScoringWord.None? <==> forall j :: 0 <= j < |p.words| ==> p.words[j].points <= 0)
      && (s.highestScoringWord.Some? ==>
            exists k :: 0 <= k < |p.words| &&
              s.highestScoringWord.value == HighestOwn(p.words[k].text, p.words[k].points) &&
              p.words[k].points > 0 &&
              (forall j :: 0 <= j < |p.words| ==> p.words[j].points <= p.words[k].points) &&
              (forall j :: 0 <= j < k ==> p.words[j].points < p.words[k].points))
  {
    var ws := p.words;
    FirstMaxIsFirstMaximum(ws, WordPoints, |ws|);
    var h := FirstMaxOf(ws, WordPoints, |ws|);
    if h.Some? {
      var k := h.value;
      assert StatOf(p).highestScoringWord.value == HighestOwn(ws[k].text, ws[k].points);
    }
  }

  /** `playerStats`, without the averages: for each player, one scan over
      the words for the longest and the highest-scoring one. */
  method PlayerStats(ps: seq<BoardPlayer>) returns (stats: seq<PlayerStat>)
    ensures |stats| == |ps| && forall i :: 0 <= i < |ps| ==> stats[i] == StatOf(ps[i])
  {
    stats := [];
    for i := 0 to |ps|
      invariant |stats| == i && forall k :: 0 <= k < i ==> stats[k] == StatOf(ps[k])
    {
      var ws := ps[i].words;
      var longest: Option<nat> := None;
      var maxLength := 0;
      var highest: Option<nat> := None;
      var maxPoints := 0;
      for j := 0 to |ws|
        invariant longest == FirstMaxOf(ws, WordLength, j)
        invariant maxLength == KeyAt(ws, WordLength, longest)
        invariant highest == FirstMaxOf(ws, WordPoints, j)
        invariant maxPoints == KeyAt(ws, WordPoints, highest)
      {
        if |ws[j].text| > maxLength {
          maxLength := |ws[j].text|;
          longest := Some(j);
        }
        if ws[j].points > maxPoints {
          maxPoints := ws[j].points;
          highest := Some(j);
        }
      }
      var longestWord := if longest.Some? then Some(LongestOwn(ws[longest.value].text, maxLength))
                         else None;
      var highestScoring := if highest.Some? then Some(HighestOwn(ws[highest.value].text, maxPoints))
                            else None;
      stats := stats + [PlayerStat(ps[i].id, ps[i].name, |ws|, TotalPoints(ws), longestWord,
                                   highestScoring)];
    }
  }

  /** `totalScore`: the points of every player's words. */
  function TotalScore(ps: seq<BoardPlayer>, n: nat): int
    requires n <= |ps|
    decreases n
  {
    if n == 0 then 0 else TotalScore(ps, n - 1) + TotalPoints(ps[n - 1].words)
  }

  /** Appending a word adds its points to the player's total. */
  lemma TotalAppend(ws: seq<BoardWord>, w: BoardWord)
    ensures TotalPoints(ws + [w]) == TotalPoints(ws) + w.points
  {
    assert forall n :: 0 <= n <= |ws| ==> Total(ws + [w], n) == Total(ws, n) by {
      forall n | 0 <= n <= |ws| ensures Total(ws + [w], n) == Total(ws, n) {
        TotalPrefix(ws, ws + [w], n);
      }
    }
  }

  lemma {:induction false} TotalPrefix(ws: seq<BoardWord>, vs: seq<BoardWord>, n: nat)
    requires n <= |ws| && n <= |vs| && forall j :: 0 <= j < n ==> ws[j] == vs[j]
    ensures Total(ws, n) == Total(vs, n)
    decreases n
  {
    if n > 0 {
      TotalPrefix(ws, vs, n - 1);
    }
  }

  /** When one player's total grows by `d` and nobody else's changes, the
      total score grows by `d`. */
  lemma {:induction false} TotalScoreOneChanged(ps: seq<BoardPlayer>, qs: seq<BoardPlayer>, a: nat,
                                                d: int, n: nat)
    requires |ps| == |qs| && a < |ps| && n <= |ps|
    requires forall j :: 0 <= j < |ps| && j != a ==> qs[j].words == ps[j].words
    requires TotalPoints(qs[a].words) == TotalPoints(ps[a].words) + d
    ensures TotalScore(qs, n) == TotalScore(ps, n) + (if a < n then d else 0)
    decreases n
  {
    if n > 0 {
      TotalScoreOneChanged(ps, qs, a, d, n - 1);
    }
  }

  /** Committing a placement raises the total score by exactly the points
      recorded for it. */
  lemma CommitRaisesTotalScore(p: BoardGameStore.Play, size: nat, a: nat,
                               score: Scoring.ScoreResult, bonus: int, text: string, sr: int,
                               sc: int, dir: Direction, hasBonus: bool, time: int)
    requires IsGrid(p.grid, size) && a < |p.players|
    ensures var q := BoardGameStore.Commit(p, size, a, score, bonus, text, sr, sc, dir, hasBonus, time);
      TotalScore(q.players, |q.players|) == TotalScore(p.players, |p.players|) + score.total
  {
    var q := BoardGameStore.Commit(p, size, a, score, bonus, text, sr, sc, dir, hasBonus, time);
    BoardGameStore.CommitRecords(p, size, a, score, bonus, text, sr, sc, dir, hasBonus, time);
    var w := q.players[a].words[|p.players[a].words|];
    TotalAppend(p.players[a].words, w);
    TotalScoreOneChanged(p.players, q.players, a, score.total, |p.players|);
  }

  // ---------------------------------------------------------------------
  // canResetBoard

  /** `canResetBoard`: some word is on the board and some player has a
      word. */
  method CanResetBoard(pws: seq<PlacedWord>, ps: seq<BoardPlayer>) returns (r: bool)
    ensures r <==> |pws| > 0 && exists j :: 0 <= j < |ps| && |ps[j].words| > 0
  {
    if |pws| == 0 {
      return false;
    }
    for i := 0 to |ps|
      invariant forall j :: 0 <= j < i ==> |ps[j].words| == 0
    {
      if |ps[i].words| > 0 {
        return true;
      }
    }
    return false;
  }
}
