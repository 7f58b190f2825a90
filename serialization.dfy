/** The parts of the board-game store's save and share features that are
    not input or output: the character mapping between standard base64 and
    its URL-safe variant (alphabets of sections 4 and 5 of RFC 4648, padding
    of section 3.2), rebuilding the grid from the placed words after a link
    import, and the choice between long and short field names on import. */
module Serialization {
  import opened Common
  import opened Board
  import opened Players

  // ---------------------------------------------------------------------
  // base64 and base64url

  /** The alphabet of section 4 of RFC 4648. */
  predicate IsBase64Char(c: char) {
    'A' <= c <= 'Z' || 'a' <= c <= 'z' || '0' <= c <= '9' || c == '+' || c == '/'
  }

  /** The URL- and filename-safe alphabet of section 5 of RFC 4648. */
  predicate IsBase64URLChar(c: char) {
    'A' <= c <= 'Z' || 'a' <= c <= 'z' || '0' <= c <= '9' || c == '-' || c == '_'
  }

  function Pad(k: nat): (p: string)
    ensures |p| == k
    ensures forall i :: 0 <= i < k ==> p[i] == '='
  {
    seq(k, _ => '=')
  }

  /** How many '=' end `s`. */
  function TrailingPads(s: string): (t: nat)
    ensures t <= |s|
    ensures forall i :: |s| - t <= i < |s| ==> s[i] == '='
    decreases |s|
  {
    if |s| == 0 || s[|s| - 1] != '=' then 0 else 1 + TrailingPads(s[..|s| - 1])
  }

  /** A padded standard base64 text: a multiple of four characters, alphabet
      characters followed by at most two '='. */
  predicate IsBase64(s: string) {
    |s| % 4 == 0 && TrailingPads(s) <= 2 &&
    forall i :: 0 <= i < |s| - TrailingPads(s) ==> IsBase64Char(s[i])
  }

  /** An unpadded base64url text. */
  predicate IsBase64URL(u: string) {
    forall i :: 0 <= i < |u| ==> IsBase64URLChar(u[i])
  }

  /** `s.replace(/a/g, b)` for a single character `a`. */
  function ReplaceAll(s: string, a: char, b: char): (r: string)
    ensures |r| == |s|
    ensures forall i :: 0 <= i < |s| ==> r[i] == if s[i] == a then b else s[i]
  {
    seq(|s|, i requires 0 <= i < |s| => if s[i] == a then b else s[i])
  }

  /** `s.replace(/a/g, "")` for a single character `a`. */
  function RemoveAll(s: string, a: char): (r: string)
    ensures a !in r
    decreases |s|
  {
    if |s| == 0 then "" else (if s[0] == a then "" else [s[0]]) + RemoveAll(s[1..], a)
  }

  lemma {:induction false} RemoveAllAppend(x: string, y: string, a: char)
    ensures RemoveAll(x + y, a) == RemoveAll(x, a) + RemoveAll(y, a)
    decreases |x|
  {
    if |x| > 0 {
      assert (x + y)[0] == x[0];
      assert (x + y)[1..] == x[1..] + y;
      RemoveAllAppend(x[1..], y, a);
    } else {
      assert x + y == y;
    }
  }

  lemma {:induction false} RemoveAllAbsent(x: string, a: char)
    requires a !in x
    ensures RemoveAll(x, a) == x
    decreases |x|
  {
    if |x| > 0 {
      assert x[0] != a;
      assert a !in x[1..];
      RemoveAllAbsent(x[1..], a);
      assert [x[0]] + x[1..] == x;
    }
  }

  lemma {:induction false} RemoveAllPad(k: nat)
    ensures RemoveAll(Pad(k), '=') == ""
    decreases k
  {
    if k > 0 {
      assert Pad(k)[1..] == Pad(k - 1);
      RemoveAllPad(k - 1);
    }
  }

  /** The renaming half of `base64ToBase64URL`: '+' to '-', '/' to '_'. */
  function ToURLChars(s: string): (r: string)
    ensures |r| == |s|
  {
    ReplaceAll(ReplaceAll(s, '+', '-'), '/', '_')
  }

  /** The renaming half of `base64URLToBase64`: '-' to '+', '_' to '/'. */
  function FromURLChars(s: string): (r: string)
    ensures |r| == |s|
  {
    ReplaceAll(ReplaceAll(s, '-', '+'), '_', '/')
  }

  /** `base64ToBase64URL`. */
  function ToBase64URL(s: string): string {
    RemoveAll(ToURLChars(s), '=')
  }

  /** How many '=' make a text of length `n` a multiple of four long. */
  function PadCount(n: nat): (k: nat)
    ensures k < 4 && (n + k) % 4 == 0
  {
    (4 - n % 4) % 4
  }

  /** `base64URLToBase64`: the characters mapped back and '=' appended up to
      a multiple of four. */
  function FromBase64URL(u: string): string {
    FromURLChars(u) + Pad(PadCount(|u|))
  }

  /** The only multiple of four reachable from `n` by adding at most
      `PadCount(n)` is `n + PadCount(n)`. */
  lemma PadCountLeast(n: nat, k: nat)
    requires k <= PadCount(n) && (n + k) % 4 == 0
    ensures k == PadCount(n)
  {
    var q := n / 4;
    assert n == 4 * q + n % 4;
  }

  /** The padding a standard text drops is the padding the way back adds. */
  lemma PadCountOfBody(n: nat, t: nat)
    requires n % 4 == 0 && t <= 2 && t <= n
    ensures PadCount(n - t) == t
  {
    var q := n / 4;
    assert n == 4 * q;
    if t > 0 {
      assert n - t == 4 * (q - 1) + (4 - t);
    }
  }

  /** `base64URLToBase64`, with its padding loop. */
  method Base64URLToBase64(base64url: string) returns (base64: string)
    ensures base64 == FromBase64URL(base64url)
  {
    base64 := ReplaceAll(ReplaceAll(base64url, '-', '+'), '_', '/');
    ghost var v := base64;
    while |base64| % 4 != 0
      invariant |v| <= |base64| <= |v| + PadCount(|v|)
      invariant base64 == v + Pad(|base64| - |v|)
      decreases |v| + PadCount(|v|) - |base64|
    {
      assert v + Pad(|base64| - |v|) + "=" == v + Pad(|base64| + 1 - |v|);
      base64 := base64 + "=";
    }
    PadCountLeast(|v|, |base64| - |v|);
  }

  /** The alphabet part of a text: everything before its trailing '='. */
  function Body(s: string): string {
    s[..|s| - TrailingPads(s)]
  }

  /** A text is its alphabet part followed by its padding. */
  lemma SplitPadding(s: string)
    ensures s == Body(s) + Pad(TrailingPads(s))
  {
    var t := TrailingPads(s);
    assert forall i :: 0 <= i < |s| ==> s[i] == (Body(s) + Pad(t))[i];
  }

  lemma ToURLCharsAppend(x: string, y: string)
    ensures ToURLChars(x + y) == ToURLChars(x) + ToURLChars(y)
  {
    assert forall i :: 0 <= i < |x + y| ==>
      ToURLChars(x + y)[i] == (ToURLChars(x) + ToURLChars(y))[i];
  }

  lemma ToURLCharsPad(k: nat)
    ensures ToURLChars(Pad(k)) == Pad(k)
  {
  }

  /** Renaming keeps the alphabet characters of a standard text apart from
      '=' and maps them to URL-safe ones, and renaming back restores them. */
  lemma URLCharsOfBase64(x: string)
    requires forall i :: 0 <= i < |x| ==> IsBase64Char(x[i])
    ensures '=' !in ToURLChars(x)
    ensures IsBase64URL(ToURLChars(x))
    ensures FromURLChars(ToURLChars(x)) == x
  {
    assert forall i :: 0 <= i < |x| ==> FromURLChars(ToURLChars(x))[i] == x[i];
  }

  /** On a standard text, `base64ToBase64URL` renames the alphabet part and
      drops the padding. */
  lemma ToBase64URLOfBase64(s: string)
    requires IsBase64(s)
    ensures ToBase64URL(s) == ToURLChars(Body(s))
  {
    var t := TrailingPads(s);
    var b := ToURLChars(Body(s));
    SplitPadding(s);
    ToURLCharsAppend(Body(s), Pad(t));
    ToURLCharsPad(t);
    RemoveAllAppend(b, Pad(t), '=');
    RemoveAllPad(t);
    URLCharsOfBase64(Body(s));
    RemoveAllAbsent(b, '=');
    assert b + "" == b;
  }

  /** The URL form of a standard text holds only URL-safe characters, one
      for each character before the padding. */
  lemma ToBase64URLSafe(s: string)
    requires IsBase64(s)
    ensures IsBase64URL(ToBase64URL(s)) && |ToBase64URL(s)| == |s| - TrailingPads(s)
  {
    ToBase64URLOfBase64(s);
    URLCharsOfBase64(Body(s));
  }

  /** Decoding a link restores the standard text it was made from. */
  lemma Base64RoundTrip(s: string)
    requires IsBase64(s)
    ensures FromBase64URL(ToBase64URL(s)) == s
  {
    ToBase64URLOfBase64(s);
    URLCharsOfBase64(Body(s));
    PadCountOfBody(|s|, TrailingPads(s));
    SplitPadding(s);
  }

  /** Every base64url text comes back unchanged from a trip through the
      standard form. */
  lemma Base64URLRoundTrip(u: string)
    requires IsBase64URL(u)
    ensures ToBase64URL(FromBase64URL(u)) == u
  {
    var v := FromURLChars(u);
    var k := PadCount(|u|);
    assert ToURLChars(v) == u by {
      assert forall i :: 0 <= i < |u| ==> IsBase64URLChar(u[i]);
    }
    ToURLCharsAppend(v, Pad(k));
    ToURLCharsPad(k);
    RemoveAllAppend(u, Pad(k), '=');
    RemoveAllPad(k);
    assert '=' !in u by {
      assert forall i :: 0 <= i < |u| ==> IsBase64URLChar(u[i]);
    }
    RemoveAllAbsent(u, '=');
    assert u + "" == u;
  }

  /** A base64url text of a length that standard base64 can have comes back
      as a standard text. */
  lemma FromBase64URLIsBase64(u: string)
    requires IsBase64URL(u) && |u| % 4 != 1
    ensures IsBase64(FromBase64URL(u))
  {
    var v := FromURLChars(u);
    var k := PadCount(|u|);
    assert forall i :: 0 <= i < |v| ==> IsBase64Char(v[i]) && v[i] != '=' by {
      forall i | 0 <= i < |v| ensures IsBase64Char(v[i]) && v[i] != '=' {
        assert IsBase64URLChar(u[i]);
      }
    }
    TrailingPadsOf(v, k);
    assert k <= 2 by {
      var q := |u| / 4;
      assert |u| == 4 * q + |u| % 4;
    }
  }

  lemma {:induction false} TrailingPadsOf(v: string, k: nat)
    requires forall i :: 0 <= i < |v| ==> v[i] != '='
    ensures TrailingPads(v + Pad(k)) == k
    decreases k
  {
    var s := v + Pad(k);
    if k > 0 {
      assert s[..|s| - 1] == v + Pad(k - 1);
      TrailingPadsOf(v, k - 1);
    } else {
      assert s == v;
      if |v| > 0 {
        assert s[|s| - 1] == v[|v| - 1];
      }
    }
  }

  // ---------------------------------------------------------------------
  // rebuildBoardGridFromPlacedWords

  /** Placed word `w` writes at `(r, c)` during a rebuild: it belongs to a
      player in the list and one of its letters lands there. */
  predicate Writes<W>(w: PlacedWord, players: seq<Player<W>>, r: int, c: int) {
    IndexOfId(players, w.playerId).Some? &&
    0 <= OffsetOf(w.startRow, w.startCol, w.direction, r, c) < |w.text|
  }

  /** The cell `w` writes at `(r, c)`: its upper-cased letter and its ids. */
  function WriterCell(w: PlacedWord, r: int, c: int): Cell
    requires 0 <= OffsetOf(w.startRow, w.startCol, w.direction, r, c) < |w.text|
  {
    Cell(Some(Upper(w.text)[OffsetOf(w.startRow, w.startCol, w.direction, r, c)]),
         Some(w.playerId), Some(w.id))
  }

  /** The grid after the first `n` placed words were replayed onto `g`. */
  function RebuildWords<W>(g: Grid, size: nat, words: seq<PlacedWord>, players: seq<Player<W>>,
                           n: nat): (g': Grid)
    requires IsGrid(g, size) && n <= |words|
    ensures IsGrid(g', size)
    decreases n
  {
    if n == 0 then g
    else
      var g1 := RebuildWords(g, size, words, players, n - 1);
      var w := words[n - 1];
      if IndexOfId(players, w.playerId).None? then g1
      else WriteLetters(g1, size, Upper(w.text), w.startRow, w.startCol, w.direction,
                        w.playerId, w.id, |w.text|)
  }

  /** `rebuildBoardGridFromPlacedWords`: an empty board, then every word. */
  function Rebuild<W>(size: nat, words: seq<PlacedWord>, players: seq<Player<W>>): (g: Grid)
    ensures IsGrid(g, size)
  {
    RebuildWords(EmptyGrid(size), size, words, players, |words|)
  }

  /** The first of the first `n` words that writes at `(r, c)`. */
  function FirstWriter<W>(words: seq<PlacedWord>, players: seq<Player<W>>, r: int, c: int,
                          n: nat): (k: Option<nat>)
    requires n <= |words|
    ensures k.Some? ==> k.value < n && Writes(words[k.value], players, r, c) &&
                        forall j :: 0 <= j < k.value ==> !Writes(words[j], players, r, c)
    ensures k.None? <==> forall j :: 0 <= j < n ==> !Writes(words[j], players, r, c)
    decreases n
  {
    if n == 0 then None
    else
      match FirstWriter(words, players, r, c, n - 1)
      case Some(k) => Some(k)
      case None => if Writes(words[n - 1], players, r, c) then Some(n - 1) else None
  }

  /** Replaying words keeps every letter already on `g` and gives an empty
      cell to the first word that writes there; a word of an unknown player
      writes nothing. */
  lemma {:induction false} RebuildWordsAt<W>(g: Grid, size: nat, words: seq<PlacedWord>,
                                             players: seq<Player<W>>, n: nat, r: int, c: int)
    requires IsGrid(g, size) && n <= |words| && InGrid(size, r, c)
    ensures RebuildWords(g, size, words, players, n)[r][c] ==
      if g[r][c].letter.Some? then g[r][c]
      else match FirstWriter(words, players, r, c, n)
        case None => g[r][c]
        case Some(k) => WriterCell(words[k], r, c)
    decreases n
  {
    if n > 0 {
      RebuildWordsAt(g, size, words, players, n - 1, r, c);
      var w := words[n - 1];
      if IndexOfId(players, w.playerId).Some? {
        var g1 := RebuildWords(g, size, words, players, n - 1);
        WriteLettersAt(g1, size, Upper(w.text), w.startRow, w.startCol, w.direction,
                       w.playerId, w.id, |w.text|, r, c);
      }
    }
  }

  /** First writer wins: after a rebuild a cell holds the letter and ids of
      the earliest placed word of a known player covering it, and is empty
      when there is none. */
  lemma RebuildFirstWriterWins<W>(size: nat, words: seq<PlacedWord>, players: seq<Player<W>>,
                                  r: int, c: int)
    requires InGrid(size, r, c)
    ensures Rebuild(size, words, players)[r][c] ==
      match FirstWriter(words, players, r, c, |words|)
      case None => EmptyCell
      case Some(k) => WriterCell(words[k], r, c)
  {
    RebuildWordsAt(EmptyGrid(size), size, words, players, |words|, r, c);
  }

  /** A word whose player is gone leaves no letter: each cell of the rebuilt
      grid was written by a word of a player in the list. */
  lemma RebuildSkipsOrphans<W>(size: nat, words: seq<PlacedWord>, players: seq<Player<W>>,
                               r: int, c: int)
    requires InGrid(size, r, c)
    requires Rebuild(size, words, players)[r][c].playerId.Some?
    ensures Rebuild(size, words, players)[r][c].playerId.value in Ids(players)
  {
    RebuildFirstWriterWins(size, words, players, r, c);
    var k := FirstWriter(words, players, r, c, |words|).value;
    var j := IndexOfId(players, words[k].playerId).value;
    assert players[j].id == words[k].playerId;
  }

  /** The loop of `rebuildBoardGridFromPlacedWords` over a fresh board. */
  method RebuildGrid<W>(size: nat, words: seq<PlacedWord>, players: seq<Player<W>>)
    returns (g: Grid)
    ensures g == Rebuild(size, words, players)
  {
    g := EmptyGrid(size);
    for k := 0 to |words|
      invariant g == RebuildWords(EmptyGrid(size), size, words, players, k)
    {
      var w := words[k];
      var letters := Upper(w.text);
      var player := IndexOfId(players, w.playerId);
      if player.None? {
        continue;
      }
      g := WriteWord(g, size, letters, w.startRow, w.startCol, w.direction, w.playerId, w.id);
    }
  }

  // ---------------------------------------------------------------------
  // importGameState field detection and the two export layouts

  /** A JSON value where a list is expected: `Absent` stands for every falsy
      value (missing, `null`, `0`, `""`), `NotAList` for a truthy non-array. */
  datatype JsonList<T> = Absent | NotAList | List(items: seq<T>)

  /** A decoded saved state as far as import reads it: each setting under
      its long and its short name, `None` where the key is missing. */
  datatype RawState<W> = RawState(
    players: JsonList<Player<W>>, p: JsonList<Player<W>>,
    placedWords: Option<seq<PlacedWord>>, pw: Option<seq<PlacedWord>>,
    boardSize: Option<int>, bs: Option<int>,
    selectedBoardConfig: Option<string>, cfg: Option<string>,
    bonus: Option<int>, b: Option<int>,
    language: Option<string>, l: Option<string>,
    seconds: Option<int>, s: Option<int>,
    boardGrid: Option<Grid>)

  /** The store settings an import may replace. */
  datatype Settings = Settings(boardSize: int, config: string, bonus: int, language: string,
                               seconds: int)

  /** What an accepted import installs; `grid == None` means the grid is
      rebuilt from the placed words. */
  datatype Imported<W> = Imported(players: seq<Player<W>>, placedWords: seq<PlacedWord>,
                                  settings: Settings, grid: Option<Grid>)

  datatype ImportError = MissingPlayers | BadBoardSize | BadGrid

  datatype ImportOutcome<W> = Accepted(state: Imported<W>) | Rejected(error: ImportError)

  predicate TruthyInt(o: Option<int>) {
    o.Some? && o.value != 0
  }

  predicate TruthyString(o: Option<string>) {
    o.Some? && o.value != ""
  }

  /** `a || b || current` for numbers. */
  function OrInt(a: Option<int>, b: Option<int>, current: int): (v: int)
    ensures TruthyInt(a) ==> v == a.value
    ensures !TruthyInt(a) && TruthyInt(b) ==> v == b.value
    ensures !TruthyInt(a) && !TruthyInt(b) ==> v == current
  {
    if TruthyInt(a) then a.value else if TruthyInt(b) then b.value else current
  }

  /** `a || b || current` for strings. */
  function OrString(a: Option<string>, b: Option<string>, current: string): (v: string)
    ensures TruthyString(a) ==> v == a.value
    ensures !TruthyString(a) && TruthyString(b) ==> v == b.value
    ensures !TruthyString(a) && !TruthyString(b) ==> v == current
  {
    if TruthyString(a) then a.value else if TruthyString(b) then b.value else current
  }

  /** `a !== undefined ? a : b`, kept only when defined. */
  function DefinedOr(a: Option<int>, b: Option<int>, current: int): (v: int)
    ensures a.Some? ==> v == a.value
    ensures a.None? && b.Some? ==> v == b.value
    ensures a.None? && b.None? ==> v == current
  {
    if a.Some? then a.value else if b.Some? then b.value else current
  }

  /** The settings after an import: size, configuration and language from
      the first truthy name, bonus and seconds from the first defined one,
      and the current value otherwise. */
  function ImportedSettings<W>(raw: RawState<W>, current: Settings): Settings {
    Settings(OrInt(raw.boardSize, raw.bs, current.boardSize),
             OrString(raw.selectedBoardConfig, raw.cfg, current.config),
             DefinedOr(raw.bonus, raw.b, current.bonus),
             OrString(raw.language, raw.l, current.language),
             DefinedOr(raw.seconds, raw.s, current.seconds))
  }

  /** The player list import takes: `players || p`. */
  function PlayersField<W>(raw: RawState<W>): JsonList<Player<W>> {
    if raw.players.Absent? then raw.p else raw.players
  }

  /** `importGameState` before it touches the store: players must be a list;
      placed words default to none; the imported grid is used when it is
      present and not empty, otherwise the grid is rebuilt. */
  function ImportFields<W>(raw: RawState<W>, current: Settings): (r: ImportOutcome<W>)
    ensures r.Accepted? ==>
      PlayersField(raw) == List(r.state.players) &&
      r.state.settings == ImportedSettings(raw, current) && r.state.settings.boardSize >= 0
    ensures r.Accepted? && r.state.grid.Some? ==>
      IsGrid(r.state.grid.value, r.state.settings.boardSize)
  {
    var ps := PlayersField(raw);
    if !ps.List? then Rejected(MissingPlayers)
    else
      var settings := ImportedSettings(raw, current);
      var words := if raw.placedWords.Some? then raw.placedWords.value
                   else if raw.pw.Some? then raw.pw.value else [];
      var grid := if raw.boardGrid.Some? && |raw.boardGrid.value| > 0 then raw.boardGrid else None;
      if settings.boardSize < 0 then Rejected(BadBoardSize)
      else if grid.Some? && !IsGrid(grid.value, settings.boardSize) then Rejected(BadGrid)
      else Accepted(Imported(ps.items, words, settings, grid))
  }

  /** An import fails for want of players exactly when neither name holds a
      list. */
  lemma ImportNeedsPlayers<W>(raw: RawState<W>, current: Settings)
    ensures ImportFields(raw, current) == Rejected(MissingPlayers) <==>
      !raw.players.List? && (raw.players.NotAList? || !raw.p.List?)
  {
  }

  /** A long name wins over its short twin whenever it is set. */
  lemma LongNamesWin<W>(raw: RawState<W>, current: Settings)
    requires raw.players.List? && TruthyInt(raw.boardSize) && raw.boardSize.value >= 0
    requires TruthyString(raw.selectedBoardConfig) && TruthyString(raw.language)
    requires raw.bonus.Some? && raw.seconds.Some? && raw.placedWords.Some? && raw.boardGrid.None?
    ensures ImportFields(raw, current) ==
      Accepted(Imported(raw.players.items, raw.placedWords.value,
        Settings(raw.boardSize.value, raw.selectedBoardConfig.value, raw.bonus.value,
                 raw.language.value, raw.seconds.value), None))
  {
  }

  /** `exportGameState`: long names and the grid. */
  function ExportFull<W>(players: seq<Player<W>>, words: seq<PlacedWord>, grid: Grid,
                         st: Settings): RawState<W> {
    RawState(List(players), Absent, Some(words), None, Some(st.boardSize), None,
             Some(st.config), None, Some(st.bonus), None, Some(st.language), None,
             Some(st.seconds), None, Some(grid))
  }

  /** `exportGameStateForLink`: short names and no grid. */
  function ExportForLink<W>(players: seq<Player<W>>, words: seq<PlacedWord>,
                            st: Settings): RawState<W> {
    RawState(Absent, List(players), None, Some(words), None, Some(st.boardSize),
             None, Some(st.config), None, Some(st.bonus), None, Some(st.language),
             None, Some(st.seconds), None)
  }

  /** A saved file imports back to the state it was saved from, whatever
      the store held before, grid included; a zero size or an empty
      configuration or language name would instead keep the current one. */
  lemma ExportFullRoundTrip<W>(players: seq<Player<W>>, words: seq<PlacedWord>, grid: Grid,
                               st: Settings, current: Settings)
    requires st.boardSize > 0 && IsGrid(grid, st.boardSize)
    requires st.config != "" && st.language != ""
    ensures ImportFields(ExportFull(players, words, grid, st), current) ==
      Accepted(Imported(players, words, st, Some(grid)))
  {
  }

  /** A shared link imports back to the players, words and settings it was
      made from, with the grid left to be rebuilt. */
  lemma ExportForLinkRoundTrip<W>(players: seq<Player<W>>, words: seq<PlacedWord>, st: Settings,
                                  current: Settings)
    requires st.boardSize > 0 && st.config != "" && st.language != ""
    ensures ImportFields(ExportForLink(players, words, st), current) ==
      Accepted(Imported(players, words, st, None))
  {
  }

  /** The falsy-value quirk: a stored size of 0 is ignored on import. */
  lemma ZeroSizeKeepsCurrent<W>(players: seq<Player<W>>, words: seq<PlacedWord>, st: Settings,
                                current: Settings)
    requires st.boardSize == 0 && current.boardSize >= 0
    ensures ImportFields(ExportForLink(players, words, st), current).Accepted?
    ensures ImportFields(ExportForLink(players, words, st), current).state.settings.boardSize ==
      current.boardSize
  {
  }
}
