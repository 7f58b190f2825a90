# xScrabbler stores in Dafny

xScrabbler is a score keeper for word games with two modes. The Dafny model covers the three stores behind them.

- **Board game** (`src/stores/BoardGameStore.js`). A square grid of cells, each holding a letter with the player and word that wrote it. Placing a word works like this:
  - the placement is validated (empty word, bounds, first word through the centre, letter mismatch, must connect, dictionary);
  - the words formed across the new letters are found;
  - the placement is scored with letter and word multipliers, which apply on newly covered squares only, plus an optional bingo bonus;
  - the letters are written without overwriting existing ones;
  - a ledger entry records a snapshot of the board before the move, for undo;
  - the turn passes to the next player.

  The store also manages players and their word lists, resizes and resets the board, and runs the cell-selection state machine with its preview. It converts base64 to and from base64url for share links and rebuilds the grid from the placed words, where the first writer of a cell wins. It imports a saved game under either the long or the short field names and computes the statistics shown in the summary.
- **Freeform scorer** (`src/stores/GameStore.js`). A list of players, each with a log of declared words: add, activate and delete players, pass the turn, log and delete words, look up letter values.
- **Interface language** (`src/stores/LocaleStore.js`). The dotted-key message lookup `t`, the language fallback to Italian, the language lists for the picker, and the rewrite of the URL's language segment when the language changes.

Modules follow the source's structure:
- `Common`: options, ASCII upper case, integer printing, split and join.
- `Players`: the player list shared by both stores.
- `Board`: cells, the grid, letter positions and writing letters.
- `Validation`, `Perpendicular`, `Scoring` and `Serialization`.
- `BoardGameStore`: the class `BoardGame`.
- `Stats`: the board game's computed statistics.
- `GameStore`: the class `Game`.
- `LocaleStore`: the class `Locale`.

How the two kinds of store are modelled:
- **Mutating stores** are classes. Each action is a method whose `ensures` gives the whole new state as a function of the old one, and lemmas about those functions state what the source promises.
- **Loop-based queries** are methods with loops (the validator, the perpendicular scan, the scorer, the rebuild, the statistics). Each is proved equal to a specification function, and the properties are proved about that function.
- **Inputs from outside** are parameters: the dictionary check, clock readings, the settings file's tables and the locale modules.

## Model

Lemmas about the board take a grid of the board's size (`IsGrid(grid, size)`) and cells on it (`InGrid`) as standing hypotheses, and lemmas over the first `n` items of a list take `n` within the list; the other hypotheses are named in the rows.

| member | source | states |
|---|---|---|
| Common.FindIndex | src/stores/BoardGameStore.js:309 | the search every `find`/`findIndex` of the stores performs: the first index whose element satisfies the test, and nothing exactly when no element does |
| Common.Upper | src/stores/BoardGameStore.js:394 | `toUpperCase` keeps the length and maps every character through the ASCII upper-case mapping |
| Common.Split | src/stores/LocaleStore.js:33 | splitting on a separator yields at least one part, no part contains the separator, and joining the parts gives back the string |
| Common.SplitJoin | src/stores/LocaleStore.js:19-22 | splitting a joined list of separator-free parts gives back the parts, so rewriting one path segment leaves the others intact |
| Players.ActiveIndex | src/stores/BoardGameStore.js:97 | `activePlayer` is the first player whose flag is set, and there is none exactly when no flag is set |
| Players.ActivatedOnlyOne | src/stores/BoardGameStore.js:269-273 | after activating the player at an index, that player and no other is active; ids, names and words are unchanged; an index outside the list leaves nobody active |
| Players.ActivateAll | src/stores/BoardGameStore.js:270-272 | the `forEach` loop over the players computes exactly the activated list |
| Players.NextIndexModulo | src/stores/BoardGameStore.js:341-342 | for a non-empty list, the next index is the active index plus one modulo the number of players, or 0 with nobody active (`indexOf` gives -1) |
| Players.NextIndexRotates | src/stores/BoardGameStore.js:340-344 | for a non-empty list, after `nextPlayer` the active player is the successor of the old one, wrapping from last to first, or the first player when nobody was active |
| Players.MaxId | src/stores/BoardGameStore.js:281-284 | the `reduce` from 0 yields a value that is non-negative, at least every id, and either 0 or the id of some player |
| Players.IndexOfId | src/stores/BoardGameStore.js:605-607 | `find` by id yields the first player with that id, and nothing exactly when no player has it |
| Board.EmptyGrid | src/stores/BoardGameStore.js:227-240 | `initializeBoard` builds a size × size grid whose every cell has no letter, player or word |
| Board.LetterPositions | src/stores/BoardGameStore.js:393-414 | the recorded positions of a placed word list, in order, the cell of each letter with that letter |
| Board.WriteLettersAt | src/stores/BoardGameStore.js:397-409 | after the letter-writing loop, each cell is exactly what the last write to it left there |
| Board.WriteLettersKeepsOccupied | src/stores/BoardGameStore.js:401-411 | writing a word never changes an occupied cell, fills every cell the word covers, and leaves every cell it does not cover unchanged |
| Board.WriteWord | src/stores/BoardGameStore.js:397-409 | the loop writes each letter into its cell only where the cell has no letter |
| Board.ClearPositions | src/stores/BoardGameStore.js:320-326 | the `forEach` over a word's positions blanks each of them in turn |
| Board.BlankPositionsAt | src/stores/BoardGameStore.js:320-326 | every cell listed among the positions is blank afterwards, including intersections written by another word, and every other cell is unchanged |
| Validation.WithinBoardIff | src/stores/BoardGameStore.js:477-491 | for a word of at least one letter, checking the start and end cells is equivalent to every letter of the word lying on the board |
| Validation.FirstMismatch | src/stores/BoardGameStore.js:517-535 | the scan finds the first letter that lands on an occupied cell holding a different letter (compared in upper case), or none when no letter does |
| Validation.AcceptedIff | src/stores/BoardGameStore.js:472-580 | a placement is accepted exactly when the text is non-empty, every letter is on the board, the first word passes through the centre, a later word has no mismatch and connects, and the dictionary accepts the text |
| Validation.EmptyThenBounds | src/stores/BoardGameStore.js:472-491 | an empty text fails with the empty-word error first; a non-empty one fails with out-of-bounds exactly when some letter lies off the board |
| Validation.FirstWordThroughCenter | src/stores/BoardGameStore.js:494-512 | an in-bounds first word fails with the centre error exactly when no letter lands on (size/2, size/2), and is accepted exactly when one does and the dictionary accepts it |
| Validation.LaterWordRules | src/stores/BoardGameStore.js:513-566 | a later word fails with a mismatch exactly when some covered letter differs, reporting the existing and the new letter of such a cell; it fails with must-connect exactly when nothing differs and no letter overlaps or touches an occupied cell |
| Validation.ValidateWordPlacement | src/stores/BoardGameStore.js:472-580 | the validator with its loops and early returns yields the verdict of the specification |
| Validation.ScanForCenter | src/stores/BoardGameStore.js:494-505 | the loop with `break` sets `passesCenter` exactly when some letter lands on the centre |
| Validation.ScanLetters | src/stores/BoardGameStore.js:515-566 | the letter loop returns the first mismatch or the connects verdict of the specification |
| Validation.ScanNeighbours | src/stores/BoardGameStore.js:541-561 | the neighbour loop reports an in-bounds occupied orthogonal neighbour exactly when there is one |
| Perpendicular.WordAtPositionLong | src/stores/BoardGameStore.js:748-750 | a found word has at least two letters |
| Perpendicular.WordAtPositionFound | src/stores/BoardGameStore.js:685-759 | a word is found exactly when the cell before or the cell after along the axis holds a letter |
| Perpendicular.WordAtPositionEntries | src/stores/BoardGameStore.js:719-757 | the found word starts at the beginning of the run through the cell, spans the whole run, and reads the run's letters with the new letter substituted |
| Perpendicular.WordAtPositionText | src/stores/BoardGameStore.js:736-742 | the word's text is its positions' letters in order, it has at least two of them, and it keeps the scan direction |
| Perpendicular.WordAtPositionCells | src/stores/BoardGameStore.js:737-742 | the positions are consecutive cells from the start along the axis, and exactly one of them, the target cell, is marked new |
| Perpendicular.WordAtPositionLetters | src/stores/BoardGameStore.js:727-735 | the new position carries the new letter, and every other position is an occupied cell carrying that cell's letter |
| Perpendicular.WordAtPositionMaximal | src/stores/BoardGameStore.js:693-746 | the cells just before and just after the found word are not occupied, so the run is maximal |
| Perpendicular.PerpendicularWordsSound | src/stores/BoardGameStore.js:636-674 | every reported cross word comes from a letter of the placed word that lands on an empty cell |
| Perpendicular.CrossWordAtMeaning | src/stores/BoardGameStore.js:646-670 | a letter yields a cross word exactly when its cell is empty and a word of two or more letters runs across it; the entry records that letter and its cell |
| Perpendicular.PerpendicularWordsKeeps | src/stores/BoardGameStore.js:663-670 | the cross word of every scanned letter is in the result |
| Perpendicular.PerpendicularWordsComplete | src/stores/BoardGameStore.js:642-671 | every letter on an empty cell with a word running across it has an entry in the result |
| Perpendicular.PerpendicularWordsNone | src/stores/BoardGameStore.js:646-653 | a word laid entirely over occupied cells forms no cross words |
| Perpendicular.WalkBack | src/stores/BoardGameStore.js:693-717 | the backward loop stops at the first cell of the run through the target cell |
| Perpendicular.ReadRun | src/stores/BoardGameStore.js:719-746 | the forward loop collects exactly the run's positions and text, with the new letter at the target cell |
| Perpendicular.GetWordAtPosition | src/stores/BoardGameStore.js:685-759 | `getWordAtPosition` with its two loops yields the word of the specification, or null |
| Perpendicular.FindPerpendicularWords | src/stores/BoardGameStore.js:636-674 | `findPerpendicularWords` yields the cross words of the upper-cased letters, in letter order |
| Perpendicular.CollectCrossWords | src/stores/BoardGameStore.js:642-671 | the letter loop collects the entry of each letter that has one, in order |
| Perpendicular.CrossWordOfLetter | src/stores/BoardGameStore.js:643-670 | one iteration of the letter loop skips an occupied cell and otherwise yields the cross word found there |
| Scoring.MultiplierAt | src/stores/BoardGameStore.js:893-902 | the multiplier of a listed square, and ×1 of no kind for any other square |
| Scoring.CharacterPoints | src/stores/BoardGameStore.js:904-908 | the blank `_` is worth 0, a letter in the table its value, and a letter missing from the table 0 |
| Scoring.OnlyNewSquaresCount | src/stores/BoardGameStore.js:776-791 | the letter sum and the word factor depend on the multipliers of newly covered squares only |
| Scoring.ScoreUsesOnlyNewSquares | src/stores/BoardGameStore.js:772-794 | two boards that agree on the multipliers of the new squares give a word the same score |
| Scoring.NoNewLettersFaceValue | src/stores/BoardGameStore.js:776-793 | with no new letter, a word scores the plain sum of its letter values with word factor 1 |
| Scoring.NoPremiumSquaresFaceValue | src/stores/BoardGameStore.js:893-902 | with no multiplier squares, every square counts ×1 and a word scores the plain sum of its letter values |
| Scoring.BlanksScoreZero | src/stores/BoardGameStore.js:904-906 | a word made only of blanks has letter sum 0 whatever the multipliers |
| Scoring.CalculateSingleWordScore | src/stores/BoardGameStore.js:772-794 | the scoring loop yields (Σ letter values) × (Π word multipliers), with letter multipliers inside the sum, both only on new squares, and the word multiplier itself |
| Scoring.MainWordPositionsAt | src/stores/BoardGameStore.js:819-834 | each main-word position is its letter's cell with the upper-cased letter, and it is new exactly when the cell is empty before the placement; no neighbouring letter is appended |
| Scoring.BuildMainWordPositions | src/stores/BoardGameStore.js:820-834 | the position loop builds exactly those main-word positions |
| Scoring.RemarkAt | src/stores/BoardGameStore.js:851-857 | remarking marks as new exactly the position at the new letter's cell and changes nothing else |
| Scoring.SecondaryWordsAt | src/stores/BoardGameStore.js:850-865 | each secondary entry is the cross word's text with its single-word score |
| Scoring.SecondaryPositionsUnchanged | src/stores/BoardGameStore.js:851-857 | remarking a detected cross word's positions gives back the same positions, because the detector already marks only the new letter's cell |
| Scoring.NoConfigScoresZero | src/stores/BoardGameStore.js:810-817 | definitional (the closed form of the no-configuration branch): without a board configuration the result is total 0, the upper-cased main word at 0 points, no secondary words and the breakdown "TEXT: 0" |
| Scoring.ScoreWithTotal | src/stores/BoardGameStore.js:836-873 | definitional (the closed form that `ScoreFrom` and `BuildBreakdown` are proved against): the total is the main-word score plus the sum of the secondary scores, plus the bonus exactly when it is claimed, and the main word is the upper-cased text |
| Scoring.ScoreWithSecondary | src/stores/BoardGameStore.js:847-865 | there is one secondary entry per cross word, in order, with its text and score |
| Scoring.BonusAddsExactly | src/stores/BoardGameStore.js:867-873 | with a board configuration present, an in-grid word and a well-formed grid, claiming the bonus adds exactly `bonus` to the total and changes neither the main nor the secondary words (without a configuration the score is 0 either way) |
| Scoring.ScoreSecondaryWords | src/stores/BoardGameStore.js:847-865 | the cross-word loop yields the secondary entries and their running total |
| Scoring.AppendSecondaryText | src/stores/BoardGameStore.js:877-879 | the loop appends " + TEXT: points" for each secondary word in order |
| Scoring.BuildBreakdown | src/stores/BoardGameStore.js:875-883 | the breakdown string is the main part, the secondary parts, the bonus part when claimed, and " = total" |
| Scoring.ScoreFrom | src/stores/BoardGameStore.js:819-890 | with a configuration, the computation yields the specified score result |
| Scoring.CalculateWordScore | src/stores/BoardGameStore.js:800-891 | `calculateWordScore` yields the specified score result, with and without a configuration |
| Serialization.ReplaceAll | src/stores/BoardGameStore.js:1036 | a global replace maps exactly the occurrences of one character to another and keeps the rest |
| Serialization.PadCount | src/stores/BoardGameStore.js:1043-1045 | the padding loop appends fewer than four `=`, and the result's length is a multiple of four |
| Serialization.Base64URLToBase64 | src/stores/BoardGameStore.js:1040-1047 | the replace-and-pad loop yields the specified standard base64 string |
| Serialization.ToBase64URLOfBase64 | src/stores/BoardGameStore.js:1035-1037 | base64url of a base64 string is its unpadded body with `+` → `-` and `/` → `_` (RFC 4648, sections 3.2 and 5) |
| Serialization.ToBase64URLSafe | src/stores/BoardGameStore.js:1035-1037 | the result uses only the URL-safe alphabet and is shorter by exactly the padding |
| Serialization.Base64RoundTrip | src/stores/BoardGameStore.js:1035-1047 | `base64URLToBase64(base64ToBase64URL(s)) == s` for every well-formed base64 string |
| Serialization.Base64URLRoundTrip | src/stores/BoardGameStore.js:1035-1047 | `base64ToBase64URL(base64URLToBase64(u)) == u` for every URL-safe string without padding |
| Serialization.FromBase64URLIsBase64 | src/stores/BoardGameStore.js:1040-1047 | converting a URL-safe string whose length is not 1 modulo 4 gives well-formed base64 |
| Serialization.FirstWriter | src/stores/BoardGameStore.js:1071-1099 | the first placed word, in order, whose player exists and which covers a cell |
| Serialization.RebuildWordsAt | src/stores/BoardGameStore.js:1071-1100 | replaying words onto a grid keeps every filled cell, and writes an empty cell from its first writer |
| Serialization.RebuildFirstWriterWins | src/stores/BoardGameStore.js:1067-1101 | each cell of the rebuilt grid holds the letter, player and word id of the first word that covers it, or is empty |
| Serialization.RebuildSkipsOrphans | src/stores/BoardGameStore.js:1073-1075 | every cell of the rebuilt grid belongs to an existing player, so words whose player is missing leave no trace |
| Serialization.RebuildGrid | src/stores/BoardGameStore.js:1067-1101 | the nested replay loop yields the rebuilt grid of the specification |
| Serialization.OrInt | src/stores/BoardGameStore.js:982-983 | `a \|\| b \|\| current`: the first truthy number of the long name, the short name and the current value |
| Serialization.OrString | src/stores/BoardGameStore.js:984-990 | the same choice for strings, where the empty string is falsy |
| Serialization.DefinedOr | src/stores/BoardGameStore.js:988-992 | `a !== undefined ? a : b`, falling back to the current value when both are absent |
| Serialization.ImportFields | src/stores/BoardGameStore.js:962-1009 | an accepted import takes the players listed under either name and the chosen settings, with a grid only of the board's size |
| Serialization.ImportNeedsPlayers | src/stores/BoardGameStore.js:970-976 | an import is refused for missing players exactly when the field chosen by `players \|\| p` is not a list: a truthy non-list `players` is refused even when `p` is a list |
| Serialization.LongNamesWin | src/stores/BoardGameStore.js:969-1008 | when the long field names are all present, with `players` a list and a truthy non-negative size, configuration name and language, they are the ones imported |
| Serialization.ExportFullRoundTrip | src/stores/BoardGameStore.js:945-957 | for a positive board size, a non-empty configuration name and language, and a grid of that size, importing a full export gives back its players, words, settings and grid (a zero size or an empty name would be replaced by the current value) |
| Serialization.ExportForLinkRoundTrip | src/stores/BoardGameStore.js:1049-1061 | for a positive board size and a non-empty configuration name and language, importing a short-name link export gives back its players, words and settings, without a grid |
| Serialization.ZeroSizeKeepsCurrent | src/stores/BoardGameStore.js:982-996 | a board size of 0 in the import is falsy, so the current size is kept |
| BoardGameStore.Resized | src/stores/BoardGameStore.js:242-248 | a board-size change installs an empty grid of the new size, drops the placed words, and keeps the players and the ledger |
| BoardGameStore.WordsCleared | src/stores/BoardGameStore.js:260-262 | every player keeps everything except its words, which become empty |
| BoardGameStore.Reset | src/stores/BoardGameStore.js:255-263 | a reset leaves an empty grid of the board's size, no placed words and an empty ledger |
| BoardGameStore.AddPlayerFreshId | src/stores/BoardGameStore.js:275-296 | adding a named player appends one player without words whose id is the largest id plus one, so it is fresh; distinct ids stay distinct, and the id is fresh even among repeated imported ids; the player is active exactly when it is the first |
| BoardGameStore.DeletedPlayer | src/stores/BoardGameStore.js:298-306 | deleting splices out exactly the chosen player, and an index outside the list changes nothing |
| BoardGameStore.FindWord | src/stores/BoardGameStore.js:309 | `findIndex` by id yields the first word with the id, or nothing exactly when there is none |
| BoardGameStore.FindPlaced | src/stores/BoardGameStore.js:315-317 | the first placed word with both the id and the player's id, or nothing exactly when there is none |
| BoardGameStore.DeleteWordEffects | src/stores/BoardGameStore.js:308-330 | with no such word nothing changes; otherwise the word leaves the player's list and no other player changes; if it was placed, it leaves the placed words and all its cells, intersections included, are blanked |
| BoardGameStore.UpdatedPointsOnly | src/stores/BoardGameStore.js:332-338 | exactly the found word's points change, and no other word or player |
| BoardGameStore.PlaceRefusedOrCommitted | src/stores/BoardGameStore.js:360-380 | `placeWord` changes nothing exactly when nobody is active or validation fails |
| BoardGameStore.CommitCells | src/stores/BoardGameStore.js:397-411 | committing keeps every occupied cell, writes each empty covered cell with the letter, the active player's id and the new word id, and leaves uncovered cells unchanged |
| BoardGameStore.CommitRecords | src/stores/BoardGameStore.js:416-466 | committing appends exactly one placed word, one word for the active player with points equal to the score total, and one ledger entry holding the pre-move snapshot; no other player's words change |
| BoardGameStore.CommitTurn | src/stores/BoardGameStore.js:340-344 | after a commit by the active player the turn moves to the next index, wrapping to 0 |
| BoardGameStore.Undo | src/stores/BoardGameStore.js:589-614 | undo on an empty ledger changes nothing, and otherwise pops exactly the last entry |
| BoardGameStore.UndoAfterCommit | src/stores/BoardGameStore.js:589-622 | when the player ids are distinct and at most one player is active, undoing a commit by the active player restores exactly the grid, players, placed words and ledger from before it |
| BoardGameStore.UndoAfterPlace | src/stores/BoardGameStore.js:589-622 | when the player ids are distinct and at most one player is active, after a `placeWord` either nothing changed or one undo restores the state from before it (a list that repeats an id can re-activate the wrong player) |
| BoardGameStore.CommitKeepsRebuildable | src/stores/BoardGameStore.js:1067-1101 | when the grid is the rebuild of the placed words, it still is after a commit, so a link export loses nothing |
| BoardGameStore.SelectCellCycles | src/stores/BoardGameStore.js:1147-1168 | clicking a cell that is not the selected one selects it horizontally, clicking it again turns it vertical, and a third click deselects; the cycle repeats |
| BoardGameStore.PreviewOfCells | src/stores/BoardGameStore.js:1198-1225 | every preview cell lies short of the far edges (row and column below the size) and carries the preview letter placed at its square; for a selection at non-negative coordinates every cell is also on the board |
| BoardGameStore.PreviewOfFits | src/stores/BoardGameStore.js:1204-1222 | when the whole preview fits on the board, there is one preview cell per letter, in order, at its position |
| BoardGameStore.InstalledPlay | src/stores/BoardGameStore.js:1010-1025 | an installed import has a grid of the board's size and an empty ledger |
| BoardGameStore.ImportedLinkBoard | src/stores/BoardGameStore.js:1010-1025 | for a positive board size and a non-empty configuration name and language, importing a link export installs its words and settings, rebuilds the grid from them, activates a player when there is one, and clears the ledger |
| BoardGameStore.LinkRestoresGame | src/stores/BoardGameStore.js:1049-1065 | a game with a positive board size, a non-empty configuration name and language, a grid that is the rebuild of its words and an active player comes back unchanged, except for the ledger, from its own link export |
| BoardGameStore.PlaceLetters | src/stores/BoardGameStore.js:393-414 | the placement loop writes the grid and records the positions, as specified |
| BoardGameStore.ClearWords | src/stores/BoardGameStore.js:260-262 | the reset loop empties every player's words |
| BoardGameStore.PreviewLoop | src/stores/BoardGameStore.js:1201-1224 | the preview loop yields the specified preview cells |
| BoardGameStore.ImportedGame | src/stores/BoardGameStore.js:1010-1025 | the import installation computes the specified game |
| BoardGameStore.Committed | src/stores/BoardGameStore.js:381-468 | the commit half of `placeWord` computes the specified committed game |
| BoardGameStore.BoardGame.constructor | src/stores/BoardGameStore.js:11-40 | the new store has the default settings, an empty 15 × 15 board, no players and an empty ledger |
| BoardGameStore.BoardGame.InitializeBoard | src/stores/BoardGameStore.js:227-240 | the grid becomes empty at the board's size and nothing else changes |
| BoardGameStore.BoardGame.ChangeBoardSize | src/stores/BoardGameStore.js:242-248 | the store becomes the resized store |
| BoardGameStore.BoardGame.ChangeBoardConfig | src/stores/BoardGameStore.js:250-253 | only the selected configuration changes |
| BoardGameStore.BoardGame.ResetBoard | src/stores/BoardGameStore.js:255-263 | the game becomes the reset game and every player's words are emptied |
| BoardGameStore.BoardGame.ActivatePlayer | src/stores/BoardGameStore.js:269-273 | only the active flags change, to the activated list |
| BoardGameStore.BoardGame.AddPlayer | src/stores/BoardGameStore.js:275-296 | only the player list changes, as specified |
| BoardGameStore.BoardGame.DeletePlayer | src/stores/BoardGameStore.js:298-306 | only the player list changes, losing the chosen player |
| BoardGameStore.BoardGame.DeleteWord | src/stores/BoardGameStore.js:308-330 | the game becomes the one after the deletion, and the grid keeps the board's size |
| BoardGameStore.BoardGame.UpdateWordPoints | src/stores/BoardGameStore.js:332-338 | only the found word's points change |
| BoardGameStore.BoardGame.NextPlayer | src/stores/BoardGameStore.js:340-344 | only the active flags change, to the next player's turn |
| BoardGameStore.BoardGame.CreateSnapshot | src/stores/BoardGameStore.js:350-358 | the snapshot copies the grid, players and placed words with the active player's id, where a falsy id counts as none |
| BoardGameStore.BoardGame.PlaceWord | src/stores/BoardGameStore.js:360-470 | `placeWord` refuses or commits as specified, and the grid keeps the board's size |
| BoardGameStore.BoardGame.CommitPlacement | src/stores/BoardGameStore.js:381-468 | the game becomes the committed game |
| BoardGameStore.BoardGame.UndoLastMove | src/stores/BoardGameStore.js:589-622 | the game becomes the undone game, and the grid keeps the board's size when the restored snapshot has it |
| BoardGameStore.BoardGame.SelectCell | src/stores/BoardGameStore.js:1147-1168 | only the selection changes, to the next state of the click cycle |
| BoardGameStore.BoardGame.UpdatePreviewWord | src/stores/BoardGameStore.js:1170-1172 | only the preview changes, to the upper-cased word |
| BoardGameStore.BoardGame.ClearSelection | src/stores/BoardGameStore.js:1174-1178 | the selection returns to no cell, horizontal, no preview |
| BoardGameStore.BoardGame.PlaceWordFromPreview | src/stores/BoardGameStore.js:1180-1192 | with a selected cell and a preview, placement of the preview is attempted through `placeWord` (a refused placement leaves the board and players unchanged) and the selection is cleared; otherwise nothing changes |
| BoardGameStore.BoardGame.PreviewCells | src/stores/BoardGameStore.js:1198-1225 | `previewCells` yields the specified preview of the current selection |
| BoardGameStore.BoardGame.RebuildBoardGridFromPlacedWords | src/stores/BoardGameStore.js:1067-1101 | only the grid changes, to the rebuild of the placed words |
| BoardGameStore.BoardGame.ImportGameState | src/stores/BoardGameStore.js:962-1032 | the store becomes the import of the input; an error is reported exactly when the import is refused, and the store is unchanged then |
| BoardGameStore.BoardGame.InstallImported | src/stores/BoardGameStore.js:994-1025 | an accepted import installs its settings, players, words and grid, and clears the ledger |
| Stats.FirstMaxIsFirstMaximum | src/stores/BoardGameStore.js:142-147 | the strict `>` scan from 0 picks an element with a positive key that is at least every key and greater than every earlier key, and picks none exactly when no key is positive |
| Stats.WordWithText | src/stores/BoardGameStore.js:157 | `find` by text yields a player's first word with that text, or nothing exactly when there is none |
| Stats.LongestMeaning | src/stores/BoardGameStore.js:138-160 | the longest word is the first placed word of greatest length, with its length and player, absent exactly when every placed text is empty |
| Stats.LongestWord | src/stores/BoardGameStore.js:138-160 | the loop yields the specified longest word with its points |
| Stats.HighestMeaning | src/stores/BoardGameStore.js:162-181 | the highest-scoring word is some player's word with the greatest positive points, with that player's id and name, and is absent exactly when no word has positive points |
| Stats.HighestIsFirst | src/stores/BoardGameStore.js:162-181 | the highest-scoring word is that of some player `i`, word `j`, and every word before it (an earlier player, or an earlier word of player `i`) scores strictly less, so ties keep the first in player-then-word order |
| Stats.HighestScoringWord | src/stores/BoardGameStore.js:162-181 | the nested loop yields the first word, in player then word order, of greatest positive points |
| Stats.StatMeaning | src/stores/BoardGameStore.js:183-221 | a player's entry carries the player's id and name, counts the words, sums their points, and names the player's first word of greatest length, absent exactly when every text is empty |
| Stats.StatHighest | src/stores/BoardGameStore.js:197-208 | a player's highest-scoring word is that player's first word of greatest positive points, absent exactly when no word has positive points |
| Stats.PlayerStats | src/stores/BoardGameStore.js:183-221 | the loops yield one entry per player, in order, as specified |
| Stats.CommitRaisesTotalScore | src/stores/BoardGameStore.js:127-131 | after a commit, `totalScore` has grown by exactly the committed total |
| Stats.CanResetBoard | src/stores/BoardGameStore.js:105-116 | the board can be reset exactly when words are placed and some player has words |
| GameStore.CharPoints | src/stores/GameStore.js:111-113 | the value in the language's table, or 0 when the character is absent |
| GameStore.LetterRecords | src/stores/GameStore.js:75-84 | one record per character, holding the upper-cased character, its value, and the bonus from the array or 1 |
| GameStore.WordBonus | src/stores/GameStore.js:85 | `wordBonus \|\| 1`: a nonzero given multiplier is kept, and the result is never 0 |
| GameStore.WordIndex | src/stores/GameStore.js:105 | `findIndex` by id yields the first word with the id, or nothing exactly when there is none |
| GameStore.AddPlayerEffects | src/stores/GameStore.js:40-61 | a named player is appended inactive and without words, keeping everyone before it; its id is the current maximum with no increment, so a nonzero one is shared; a lone player is activated |
| GameStore.FirstTwoPlayersShareId | src/stores/GameStore.js:48-57 | the first two players both get id 0 |
| GameStore.AddWordEffects | src/stores/GameStore.js:63-89 | with an active player, a word with text appends exactly one word to the active player's log, numbered one past its length, with one letter record per character, and nobody else's log changes; the turn then moves on, wrapping |
| GameStore.NewWordLetters | src/stores/GameStore.js:71-87 | the records read the upper-cased text, and each bonus is 1 when no array is given; the word multiplier is nonzero |
| GameStore.WithoutWordFirstOnly | src/stores/GameStore.js:104-109 | only the first word with the id is removed, keeping what comes before and after in order, and the log loses exactly one copy of it; with no such word nothing changes |
| GameStore.WithoutWordKeepsLaterDuplicate | src/stores/GameStore.js:105-107 | a later word with the same id stays in the log |
| GameStore.WithoutPlayerEffects | src/stores/GameStore.js:93-102 | `deletePlayer` removes exactly the chosen player when it runs to the end, and changes nothing otherwise |
| GameStore.Game.constructor | src/stores/GameStore.js:9-13 | no players, bonus 50, at most 10 letters, language "it", 90 seconds |
| GameStore.Game.ActivatePlayer | src/stores/GameStore.js:34-38 | the chosen player alone is active, and nothing else changes |
| GameStore.RoomForOneMore | src/stores/GameStore.js:26-28 | a list is below a cap exactly when every `addPlayer` leaves it within the cap |
| GameStore.Game.CanAddPlayer | src/stores/GameStore.js:26-28 | `canAddPlayer` holds exactly when any `addPlayer` from the current list leaves at most four players |
| GameStore.Game.AddPlayer | src/stores/GameStore.js:40-61 | the player is added exactly when the name is non-empty, the list becomes the specified one, and when `canAddPlayer` held before there are at most four players after |
| GameStore.Game.NextPlayer | src/stores/GameStore.js:119-123 | the active player becomes the successor, wrapping, or the first player when nobody was active |
| GameStore.Game.AddWord | src/stores/GameStore.js:63-91 | the outcome and the new list are as specified; the settings are unchanged |
| GameStore.Game.DeletePlayer | src/stores/GameStore.js:93-102 | the outcome and the new list are as specified |
| GameStore.Game.DeleteWord | src/stores/GameStore.js:104-109 | only the chosen player's log changes, losing its first word with the id |
| LocaleStore.CurrentLocale | src/stores/LocaleStore.js:29 | the locale of the language when it is truthy, otherwise the Italian one |
| LocaleStore.TranslateFound | src/stores/LocaleStore.js:32-46 | when the whole dotted key resolves, every prefix resolves and the value reached is truthy |
| LocaleStore.TranslateMissing | src/stores/LocaleStore.js:37-42 | as soon as one segment is missing or falsy, `t` returns the key itself |
| LocaleStore.TranslateNested | src/stores/LocaleStore.js:32-46 | for segment names without `.` and a non-empty message, a two-level key finds the message stored two levels deep |
| LocaleStore.ChosenLanguage | src/stores/LocaleStore.js:49-56 | the language becomes `lang` exactly when its locale is truthy (or it is "it"), and otherwise "it" |
| LocaleStore.RewrittenSegments | src/stores/LocaleStore.js:14-26 | for a language code without `/`, the path is rewritten exactly when it has a second segment that differs from the language; the rewrite sets that segment and keeps all others |
| LocaleStore.SupportedLanguagesListing | src/stores/LocaleStore.js:58-75 | one entry per locale code, in order, named by the built-in table or by the code itself |
| LocaleStore.LocalizedNamesChoice | src/stores/LocaleStore.js:78-101 | localized names are used exactly when every code has one, and otherwise the supported-languages list is returned |
| LocaleStore.LocalNameMeaning | src/stores/LocaleStore.js:81-86 | a code has a localized name exactly when the locale has a truthy `languages[code]` |
| LocaleStore.Locale.constructor | src/stores/LocaleStore.js:9 | the language starts as "it" |
| LocaleStore.Locale.T | src/stores/LocaleStore.js:32-46 | the cursor loop yields the specified lookup: the value reached, or the key |
| LocaleStore.Locale.SetLanguage | src/stores/LocaleStore.js:14-56 | the language becomes the chosen one, and the navigation, when it changed, is the rewritten path |

## Left out

- Timers: `restartTimer`, `pauseTimer`, `isRunning`, the mounting code and the `seconds` watcher. They drive an external timer library from the wall clock.
- `useStorage`/localStorage persistence: the fields hold their values in memory.
- JSON text, `btoa`/`atob`, `window.location`, `history.replaceState` and `URLSearchParams`. `exportGameState`, `exportGameStateForLink`, `generateShareableLink` and `importFromUrl` are foreign calls and browser I/O. Only the export records (`Serialization.ExportFull`, `Serialization.ExportForLink`), the base64/base64url character mapping and the field selection of the import are modelled; `Serialization.RawState` stands for the parsed input.
- Toasts, console messages and translated message texts. Verdicts, outcomes and errors are datatypes instead.
- `averageScorePerWord` and `averagePoints`: they use floating-point division with rounding.
- `totalWordsPlaced`, `isBoardEmpty`, `isFirstWord` and `centerPosition` are not separate members. They appear as `|placedWords|`, `|placedWords| == 0` and `size / 2` inside the members that read them.
- Case mapping is ASCII only; JavaScript's Unicode `toUpperCase` is not modelled.
- `parseInt(word.points)` in the freeform scorer: points arrive already as an integer.
- Values as they come from JSON: `null` becomes `Option`, and the model assumes the declared shapes, so it has no numbers where strings are expected. Locale lookups by numeric segments or by `length` on a message string are not modelled; a message is a leaf.
- `router.push`: the rewritten path is returned as a value rather than navigated to. The initial interface language is the stored default `"it"`.
- Players are chosen by index rather than by object identity. An index outside the list stands for an object that is not in the list.
- BoardGameStore.BoardGame.DeleteWord, BoardGameStore.BoardGame.UpdateWordPoints: require the player to be in the list (`idx < |players|`). For a stale player object the source still removes the placed word carrying that player's id and blanks its cells; the model does not cover that path.
- `GameStore.Game.DeletePlayer`: the assignment to the read-only `activePlayer` and the timer pause have no effect on the list and are left out.
- A missing letter table for the language counts as an empty table; the source would fail on it.
- `deleteWord` and the rebuild skip positions outside the grid, where the source would fail on a missing row.
- A verbose import whose grid is not size × size, or whose size is negative, is refused. The source would accept it and fail later. The partial assignment to `players` and `placedWords` before a refused import throws is not modelled.
- `Scoring.CalculateWordScore`: requires an in-bounds placement; its only caller, `placeWord`, validates first.
- `BoardGameStore.BoardGame.UndoLastMove`: keeps the grid at the board's size only when the restored snapshot has that size. `changeBoardSize` keeps the ledger, so an undo after a resize restores a grid of the old size.
- The timestamp of a ledger entry is a parameter instead of the clock.
- The dictionary check `isValidWord` is a parameter of the validator. The stub that accepts every word is `Validation.AnyWord`.
- `GameStore.Game.AddWord`: without an active player the source fails on `undefined`. The model leaves the list unchanged and reports `NoActivePlayer`.
