# bingo-party session engine, modelled in Dafny

This project models the engine behind bingo-party, a multiplayer bingo game. One
room process holds one game session. Players join and pick up to four cards from
a pool of eight. The host starts the game and numbers 1..75 are called. Players
mark cells and claim a bingo against the current pattern, and the room checks the
claim and records the winners.

The model covers five parts:

- **Pattern matcher.** `PatternValidator` is the room's copy (party/patternValidator.ts) and
  `PatternDetector` the browser's copy (src/lib/utils/patternDetector.ts). Each checker loop
  is a method proved equal to one specification predicate: `HasFullRow`, `HasFullCol`,
  `HasDiagonal`, `HasLine`, `HasStamp`, `Covers`, `Matches` or `MarksLegal`. The reported
  winning cells are proved equal to the function `WinningCells`. Both copies are proved
  against the same predicates, so the browser and the room compute the same function.
- **Card and number generator.** `CardGenerator` is the room's copy (party/cardGenerator.ts)
  and `ClientCardGenerator` the browser's (src/lib/utils/cardGenerator.ts).
  - `Math.random()` and `generateId()` are read from an `Entropy` value: a stream of draws
    and a stream of ids. Every property below holds for every stream.
  - The Fisher-Yates shuffle keeps its array and is proved equal to the function `Shuffled`.
  - Cards, pools and the call order are proved equal to `CardOf`, `DrawnPool` and
    `Shuffled(AllNumbers(), ...)`. Both copies are proved equal to the same functions.
- **Game reducer.** `GameEngine` models party/gameEngine.ts.
  - The spread-copy reducers are functions on an immutable `BingoGameState`.
  - The reducers that build dictionaries in loops or draw randomness are methods proved
    against functions or predicates: `autoMarkNumber`, `resetGame`, `incrementGamesPlayed`,
    `selectCards`, `regenerateCards`, `createPlayer` and `createInitialState`.
  - `StateOk` collects the session invariants: the call order, well-formed winners and
    consistently keyed players. Lemmas prove that adding a fresh player, `selectCards`,
    `markCell`, `callNextNumber` and `addWinner` preserve it, and that `resetGame` keeps each
    player consistent. The other reducers the room uses get no lemma of their own: the
    handler that calls one proves `StateOk` of its result as part of `Valid()`.
- **Session coordinator.** `PartyServer.BingoServer` models party/bingoServer.ts as a class.
  - Its fields are `state`, the set of open `connections`, an `outbox` of sent notifications,
    an `entropy` stream, and two flags. The flags say whether the auto-call ticker and the
    timeout timer would be running.
  - There is one method per inbound command. Each keeps the class invariant `Valid()` and
    ensures a two-state predicate (`JoinRoomEffect`, `HostResetEffect`, ...) that states its
    whole effect on the session, the flags and the outbox.
  - `CommandEffect` maps a parsed command to the effect predicate of its handler. `OnMessage`
    and the two dispatch methods ensure it, so the routing is part of their contracts.
- **Shared definitions.** `BingoTypes` (shared/types.ts with shared/constants.ts), `Patterns`
  (shared/patterns.ts) and `NumberFormatter` (src/lib/utils/numberFormatter.ts).

The model follows the code, including where the code departs from its own comments and
declared types:

- `markCell` toggles the FREE centre like any other cell, so a player can clear it, although
  `createEmptyMarkedGrid`'s comment says the FREE centre is always marked
  (src/lib/utils/cardGenerator.ts:77). `GameEngine.MarkCellCanClearFree` exhibits this.
- The init message's `isHost` flag is computed before the host is assigned. A second
  connection arriving before anyone has joined is told it is the host, although the host
  stays the first connection. `PartyServer.InitHostFlagCanDisagree` exhibits this.
- `hostStartGame` does not call `incrementGamesPlayed`, and no handler touches the stats
  reducers. They are modelled as reducers on their own.
- The dispatch switch has no case for `toggleHighlightCalledNumbers`,
  `hostToggleAllowHighlight`, `sendChatMessage`, `sendReaction` or `playerUnready`, so they
  all get "Unknown message type". `hostSetPattern` broadcasts `gameState`, not
  `patternChanged`.
- `joinRoom` never forwards its `persistentId`, and `regenerateCards` never forwards
  `preserveSelected`. The room therefore always does a full regeneration.
- `BingoGameState` carries `playerStats`, which shared/types.ts does not declare but
  party/gameEngine.ts reads and writes.

## Model

| member | source | states |
|---|---|---|
| BingoTypes.ColumnForNumber | shared/types.ts:186-192 | 1..15 map to B, 16..30 to I, 31..45 to N, 46..60 to G; every other input (below 1, above 60) maps to O, each as an if-and-only-if |
| BingoTypes.ColumnForNumberInRange | shared/types.ts:174-192 | every number 1..75 lies in the range of the column it is announced under |
| BingoTypes.ColumnRangesPartition | shared/types.ts:174-183 | the five ranges, in COLUMNS order, are the blocks 15i+1..15i+15; no number lies in two of them and together they cover 1..75 |
| BingoTypes.NatToString | shared/types.ts:195-197 | the decimal rendering of a natural number is non-empty, all digits, with no leading zero |
| BingoTypes.NatToStringRoundTrip | shared/types.ts:195-197 | reading the decimal rendering back gives the number |
| BingoTypes.FormatNumber | shared/types.ts:195-197 | the text starts with the column letter of the number and "-", followed by digits for a non-negative number |
| BingoTypes.FormatNumberRoundTrip | shared/types.ts:195-197 | the digits after "X-" read back as the number |
| Patterns.SetPattern | shared/patterns.ts:9-15 | the grid built in place is true exactly at the listed cells |
| Patterns.LinesExact | shared/patterns.ts:18-25 | horizontalLine(r) is true exactly on row r, verticalLine(c) exactly on column c |
| Patterns.DiagonalsExact | shared/patterns.ts:28-29 | the two diagonal grids are true exactly at (i, i) and at (i, 4 - i) |
| Patterns.BlackoutAndCornersExact | shared/patterns.ts:70-83 | blackout is all true; four-corners is true exactly at the four corners |
| Patterns.FindPattern | shared/patterns.ts:187-189 | a found pattern is in the list with the wanted id; nothing is found iff no pattern has that id |
| Patterns.FindPatternFirst | shared/patterns.ts:187-189 | `find` returns the first pattern with the id |
| Patterns.PresetIdsDistinct | shared/patterns.ts:32-185 | the preset ids are pairwise distinct |
| Patterns.GetPatternByIdUnique | shared/patterns.ts:187-189 | getPatternById returns preset k iff preset k has the id, and undefined iff no preset does |
| Patterns.DefaultPatternIsAnyLine | shared/patterns.ts:192 | DEFAULT_PATTERN has id any-line and is what getPatternById("any-line") returns |
| NumberFormatter.ColumnIndex | src/lib/utils/numberFormatter.ts:30-39 | the index of a column is its position in COLUMNS |
| NumberFormatter.ColumnFromIndex | src/lib/utils/numberFormatter.ts:42-45 | a column comes back iff the index is 0..4, and it is COLUMNS[index] |
| NumberFormatter.ColumnIndexRoundTrip | src/lib/utils/numberFormatter.ts:30-45 | column to index to column is the identity, and index to column to index is the identity on 0..4 |
| NumberFormatter.JsRem | src/lib/utils/numberFormatter.ts:50 | JavaScript `%` truncates: it agrees with the mathematical remainder for a non-negative dividend and is non-positive for a negative one |
| NumberFormatter.PadStart2 | src/lib/utils/numberFormatter.ts:51 | padStart(2, '0') keeps the text as its suffix and fills up to length 2 with zeros |
| NumberFormatter.FormatTimeReadsBack | src/lib/utils/numberFormatter.ts:48-52 | for s >= 0 the text is digits, ":", two digits; they read back as s div 60 and s mod 60 |
| NumberFormatter.MsToSeconds | src/lib/utils/numberFormatter.ts:55-57 | Math.round(ms / 1000): the result r satisfies 1000r - 500 <= ms < 1000r + 500, so halves round up |
| NumberFormatter.OrdinalSuffix | src/lib/utils/numberFormatter.ts:60-64 | the suffix is one of th, st, nd, rd |
| NumberFormatter.FormatOrdinalSuffix | src/lib/utils/numberFormatter.ts:60-64 | for n >= 0: st, nd or rd when n ends in 1, 2 or 3 and n mod 100 is not 11..13; th otherwise, and also for every negative n |
| NumberFormatter.FormatOrdinalEs | src/lib/utils/numberFormatter.ts:67-69 | the text is the decimal n followed by "°" |
| NumberFormatter.FormatOrdinalEsReadsBack | src/lib/utils/numberFormatter.ts:67-69 | for n >= 0 the part before "°" is digits reading back as n |
| PatternValidator.CheckExactPattern | party/patternValidator.ts:25-34 | the loop returns true iff every cell of the pattern grid is marked |
| PatternValidator.CheckAnyHorizontalLine | party/patternValidator.ts:36-43 | true iff some row is fully marked |
| PatternValidator.CheckAnyVerticalLine | party/patternValidator.ts:45-57 | true iff some column is fully marked |
| PatternValidator.CheckAnyDiagonal | party/patternValidator.ts:59-77 | true iff all (i, i) or all (i, 4 - i) are marked |
| PatternValidator.CheckAnyLine | party/patternValidator.ts:79-85 | true iff a full row, a full column or a full diagonal exists |
| PatternValidator.StampComplete | party/patternValidator.ts:90-99 | the nested scan of one 2x2 block is true iff all four of its cells are marked |
| PatternValidator.CheckPostageStamp | party/patternValidator.ts:87-103 | true iff one of the blocks anchored at (0,0), (0,3), (3,0), (3,3) is fully marked |
| PatternValidator.PostageStampCorners | party/patternValidator.ts:87-103 | the stamp predicate spelled out as the four explicit 2x2 corner blocks |
| PatternValidator.CheckPatternMatch | party/patternValidator.ts:5-23 | the dispatch on the pattern id equals `Matches`: the symbolic rules for the five named ids, the subset check otherwise |
| PatternValidator.MatchesMonotone | party/patternValidator.ts:5-34 | extra marks never break a match |
| PatternValidator.ValidateMarkedCells | party/patternValidator.ts:106-129 | true iff every marked non-FREE cell holds a called number |
| PatternValidator.FreeMarksIrrelevant | party/patternValidator.ts:117-120 | marks on FREE cells never change the verdict |
| PatternValidator.MarksLegalMonotone | party/patternValidator.ts:106-129 | once legal, marks stay legal as more numbers are called |
| PatternValidator.FirstFullRow | party/patternValidator.ts:142-149 | the first fully marked row at or after `from`, or none when no such row exists |
| PatternValidator.FirstFullCol | party/patternValidator.ts:153-167 | the first fully marked column at or after `from`, or none when no such column exists |
| PatternValidator.FirstStamp | party/patternValidator.ts:211-231 | the first complete corner block in the search order, or none |
| PatternValidator.StampMask | party/patternValidator.ts:224-228 | the 2x2 block at (r0, c0) and nothing else |
| PatternValidator.WinRow | party/patternValidator.ts:141-150 | the board holds the first full row, or stays all false when there is none |
| PatternValidator.WinCol | party/patternValidator.ts:152-168 | the board holds the first full column, or stays all false |
| PatternValidator.WinLine | party/patternValidator.ts:170-208 | first full row, else first full column, else the main diagonal if complete, else the anti-diagonal unconditionally |
| PatternValidator.WinStamp | party/patternValidator.ts:210-232 | the board holds the first complete corner block, or stays all false |
| PatternValidator.WinGrid | party/patternValidator.ts:234-241 | for any other pattern the board is exactly the true cells of the pattern grid |
| PatternValidator.FillRow | party/patternValidator.ts:144-146 | sets one row of the board and leaves every other cell as it was |
| PatternValidator.FillCol | party/patternValidator.ts:162-164 | sets one column of the board and leaves every other cell as it was |
| PatternValidator.FillStamp | party/patternValidator.ts:224-228 | sets one 2x2 block and leaves every other cell as it was |
| PatternValidator.GetWinningCells | party/patternValidator.ts:132-245 | the freshly allocated board, filled by the pattern's rule, equals `WinningCells` |
| PatternValidator.WinningCellsMarked | party/patternValidator.ts:5-23 | when the pattern matches, every reported winning cell is marked |
| PatternValidator.WinningCellsNonEmpty | party/patternValidator.ts:132-232 | for a symbolic pattern that matches, at least one winning cell is reported |
| PatternValidator.WinningLineCell | party/patternValidator.ts:170-208 | the diagonal/any-line result always has a true cell, the anti-diagonal fallback included |
| PatternDetector.CheckExactPattern | src/lib/utils/patternDetector.ts:28-38 | the client's loop computes the same subset check `Covers` as the room's |
| PatternDetector.CheckAnyHorizontalLine | src/lib/utils/patternDetector.ts:41-48 | the client's row check equals the room's `HasFullRow` |
| PatternDetector.CheckAnyVerticalLine | src/lib/utils/patternDetector.ts:51-63 | the client's column check equals the room's `HasFullCol` |
| PatternDetector.CheckAnyDiagonal | src/lib/utils/patternDetector.ts:66-86 | the client's diagonal check equals the room's `HasDiagonal` |
| PatternDetector.CheckAnyLine | src/lib/utils/patternDetector.ts:89-95 | the client's any-line check equals the room's `HasLine` |
| PatternDetector.CheckPostageStamp | src/lib/utils/patternDetector.ts:98-120 | the client's stamp scan equals the room's `HasStamp` |
| PatternDetector.CheckPatternMatch | src/lib/utils/patternDetector.ts:5-25 | the client's dispatch returns the same verdict `Matches` as the room's for every grid and pattern |
| PatternDetector.GetWinningCells | src/lib/utils/patternDetector.ts:123-241 | the client reports the same cells `WinningCells` as the room, in the same search order with the anti-diagonal fallback |
| PatternDetector.ValidateMarkedCells | src/lib/utils/patternDetector.ts:244-269 | on the bare card grid, the same verdict `MarksLegal` as the room's anti-cheat check |
| CardGenerator.NextId | party/cardGenerator.ts:5-7 | taking an id leaves the draws untouched |
| CardGenerator.SwapFacts | party/cardGenerator.ts:14 | a swap exchanges the two slots, keeps all others, and keeps the multiset |
| CardGenerator.ShufflePassesPermutes | party/cardGenerator.ts:12-15 | the passes from index i down keep the length and the multiset |
| CardGenerator.ShufflePassesConsumes | party/cardGenerator.ts:12-15 | the passes never create draws, and use one up when there is a pass and a draw |
| CardGenerator.ShuffledFacts | party/cardGenerator.ts:10-17 | a shuffle is a permutation of its input for every stream of draws |
| CardGenerator.Shuffle | party/cardGenerator.ts:10-17 | the in-place loop over the copy returns `Shuffled` of its input: same length, same multiset |
| CardGenerator.Interval | party/cardGenerator.ts:21 | the list min..max in order |
| CardGenerator.IntervalFacts | party/cardGenerator.ts:21 | min..max has no repeats and holds exactly the numbers from min to max |
| CardGenerator.SlicePrefix | party/cardGenerator.ts:22 | `slice(0, count)`: a prefix of the list; its length is count clamped to the list's length, and for a negative count the length plus count, at least 0 |
| CardGenerator.DrawnColumn | party/cardGenerator.ts:20-23 | count values when count fits the range; it never creates draws and uses one when the range has two values or more |
| CardGenerator.ColumnFacts | party/cardGenerator.ts:20-23 | the drawn values are pairwise distinct and lie in [min, max] |
| CardGenerator.GenerateColumn | party/cardGenerator.ts:20-23 | returns `DrawnColumn`: distinct values within the range |
| CardGenerator.ValidCardColumnsMatchLetters | party/cardGenerator.ts:26-47 | on a valid card every number sits under the column letter `getColumnForNumber` gives it |
| CardGenerator.GridOf | party/cardGenerator.ts:36-45 | row r is the five columns' r-th values, with FREE at (2,2) |
| CardGenerator.LayOutGrid | party/cardGenerator.ts:36-45 | the row-by-row loop lays out `GridOf` |
| CardGenerator.GridOfValid | party/cardGenerator.ts:26-47 | five distinct in-range columns give a valid card: column c within 15c+1..15c+15, no repeats, FREE at the centre |
| CardGenerator.CardOf | party/cardGenerator.ts:26-48 | drawing a card never creates draws, and uses one whenever there is one |
| CardGenerator.CardOfValid | party/cardGenerator.ts:26-48 | every card drawn is valid, for every stream |
| CardGenerator.GenerateBingoCard | party/cardGenerator.ts:26-48 | returns `CardOf`, a valid card |
| CardGenerator.Signature | party/cardGenerator.ts:57 | the flattened grid, cell (r, c) at position 5r + c |
| CardGenerator.SignatureInjective | party/cardGenerator.ts:56-60 | equal signatures mean equal grids |
| CardGenerator.KeepCard | party/cardGenerator.ts:58-61 | adding a valid card with a new signature keeps the pool valid and distinct |
| CardGenerator.PoolFromFacts | party/cardGenerator.ts:51-66 | the pool loop yields valid cards with distinct signatures, at most count, extending what it had; it stops short only when the draws are used up |
| CardGenerator.GenerateCardPool | party/cardGenerator.ts:51-66 | returns `DrawnPool`: valid cards, pairwise distinct signatures, at most count, and fewer only once the draws run out |
| CardGenerator.PoolGridsDistinct | party/cardGenerator.ts:51-66 | distinct signatures mean pairwise distinct grids |
| CardGenerator.CallOrderFacts | party/cardGenerator.ts:69-71 | a call order has 75 numbers, no repeats, exactly 1..75 |
| CardGenerator.GenerateShuffledNumbers | party/cardGenerator.ts:69-71 | returns `Shuffled` of 1..75, which is a call order (a permutation of 1..75); the draws left over are never more than the draws given |
| CardGenerator.CreateEmptyMarkedGrid | party/cardGenerator.ts:74-83 | the only true cell is (2,2) |
| ClientCardGenerator.Shuffle | src/lib/utils/cardGenerator.ts:10-17 | the client's shuffle returns the room's `Shuffled` for the same draws |
| ClientCardGenerator.GenerateColumn | src/lib/utils/cardGenerator.ts:20-23 | the client's column equals the room's `DrawnColumn` |
| ClientCardGenerator.GenerateBingoCard | src/lib/utils/cardGenerator.ts:26-50 | the client's card equals the room's `CardOf`, so it keeps the ranges and FREE at (2,2) |
| ClientCardGenerator.GenerateCardPool | src/lib/utils/cardGenerator.ts:53-69 | the client's pool equals the room's `DrawnPool`: valid, distinct signatures, at most count, and short only when the draws ran out |
| ClientCardGenerator.CreateEmptyMarkedGrid | src/lib/utils/cardGenerator.ts:72-82 | the same grid as the room's: only the centre is true |
| ClientCardGenerator.AutoMarkNumber | src/lib/utils/cardGenerator.ts:85-101 | the marked copy equals the room's per-card auto-mark `AutoMarkGrid`: cells holding the number become true, all others stay as they were |
| ClientCardGenerator.CardContainsNumber | src/lib/utils/cardGenerator.ts:104-111 | true iff some cell of the card holds the number |
| ClientCardGenerator.GetNumberPosition | src/lib/utils/cardGenerator.ts:114-126 | the first row-major cell holding the number, and null iff the card does not hold it |
| GameEngine.CallOrderConsequences | party/gameEngine.ts:390-415 | while the call order is kept: 75 numbers in all, no number called twice, nothing called is still to come, all called numbers in 1..75 |
| GameEngine.CreateInitialState | party/gameEngine.ts:23-41 | `InitialState`: the room id and host given, lobby, no players, nothing called, a fresh permutation of 1..75 to call, no current number or history, no winners, default settings and pattern, last call time 0, no timeout, no chat and no stats |
| GameEngine.CreatePlayer | party/gameEngine.ts:44-63 | the player's fields as given, connected, nothing selected, auto-mark off, highlight on, and a valid pool of distinct cards |
| GameEngine.AddPlayer | party/gameEngine.ts:66-77 | the player is stored under its id; every other entry and field is unchanged |
| GameEngine.RemovePlayer | party/gameEngine.ts:80-89 | the id is gone; every other entry and field is unchanged |
| GameEngine.AddThenRemove | party/gameEngine.ts:66-89 | adding a new player and removing it restores the session |
| GameEngine.UpdatePlayerConnection | party/gameEngine.ts:92-110 | only the connected flag of an existing player changes; an unknown id is a no-op |
| GameEngine.ConnectionRoundTrip | party/gameEngine.ts:92-110 | a disconnect followed by a reconnect restores the session |
| GameEngine.FindPlayerByPersistentId | party/gameEngine.ts:113-123 | returns a player with that persistent id, and null iff none has it |
| GameEngine.ReconnectPlayer | party/gameEngine.ts:126-160 | the old key is removed, the player is stored under the new id with its id updated and connected; hostId moves only if it was the old id; an unknown old id is a no-op |
| GameEngine.ReconnectRoundTrip | party/gameEngine.ts:126-160 | moving a player to an unused id and back restores the session |
| GameEngine.FindCard | party/gameEngine.ts:260 | `find`: the first card with the id (no earlier card has it), and none iff no card has it; the same search is at lines 305 and 429 |
| GameEngine.OwnedIds | party/gameEngine.ts:172-174 | the requested ids present in the pool and no others, in request order (a subsequence of the request) |
| GameEngine.OwnedIdsCounts | party/gameEngine.ts:172-174 | the filter keeps each owned id exactly as often as it was requested |
| GameEngine.AtMostMaxCards | party/gameEngine.ts:176-179 | `length = MAX_CARDS`: the first at most four ids, unchanged when there are four or fewer |
| GameEngine.FreshMarks | party/gameEngine.ts:184-187 | exactly the kept ids as keys, each with the starting grid |
| GameEngine.FreshMarksLoop | party/gameEngine.ts:184-187 | the loop builds `FreshMarks` |
| GameEngine.SelectCards | party/gameEngine.ts:163-199 | the selection is the owned ids in input order, at most four, with fresh grids for exactly those ids; an unknown player is a no-op |
| GameEngine.SelectionBounds | party/gameEngine.ts:172-187 | at most four ids, each requested and in the pool; the grid keys are exactly the selection |
| GameEngine.CardsWithIds | party/gameEngine.ts:212 | the pool cards whose ids are selected and no others, in pool order (a subsequence of the pool) |
| GameEngine.CardsWithIdsCounts | party/gameEngine.ts:212 | the filter keeps each selected card exactly as often as the pool holds it |
| GameEngine.RegenerateCards | party/gameEngine.ts:202-243 | with preserveSelected and a selection, the selected cards lead the new pool, followed by valid cards with distinct signatures, at most 8 minus the kept ones, and nothing else of the player changes; otherwise a fresh valid pool with selection, grids and readiness cleared; a short pool means the draws ran out |
| GameEngine.Toggle | party/gameEngine.ts:269-272 | flips the one cell and keeps every other |
| GameEngine.MarkCell | party/gameEngine.ts:246-287 | a no-op unless player, grid and card exist, the cell is in range and it is FREE or called; otherwise only that cell flips |
| GameEngine.MarkCellTwice | party/gameEngine.ts:246-287 | marking the same cell twice restores the session |
| GameEngine.MarkCellCanClearFree | party/gameEngine.ts:253-272 | a marked FREE centre can be cleared by markCell |
| GameEngine.AutoMarkGrid | party/gameEngine.ts:310-322 | a cell is marked afterwards iff it was marked or holds the number |
| GameEngine.AutoMarkEffect | party/gameEngine.ts:290-339 | players without auto-mark are untouched; on each selected card exactly the cells holding the number become true; no mark is cleared and no grid appears or vanishes |
| GameEngine.AutoMarkNumber | party/gameEngine.ts:290-339 | the loops over players and cards build `AutoMarked` |
| GameEngine.CallNextNumber | party/gameEngine.ts:390-415 | unchanged with nothing left; otherwise the head of the remaining numbers becomes current and is appended to the called list and history, with auto-mark applied; called followed by remaining stays the same list |
| GameEngine.CallNextKeepsCallOrder | party/gameEngine.ts:390-415 | calling keeps the call order, so called plus remaining stays 75 |
| GameEngine.ValidateBingoClaim | party/gameEngine.ts:418-460 | valid iff all seven checks pass; an invalid claim carries the reason of the first check that fails, in the source's order |
| GameEngine.AddWinner | party/gameEngine.ts:463-495 | appends a winner with place = old count + 1 and the winning cells; finished iff multiple winners are off, the new count reaches maxWinners, or it was already finished; otherwise the phase is unchanged |
| GameEngine.ValidClaimThenAddWinner | party/gameEngine.ts:418-495 | after a valid claim the winners stay well formed (places 1..n, no player twice, at most maxWinners) and the recorded winning cells are all marked |
| GameEngine.StartGame | party/gameEngine.ts:498-504 | playing, with the last call time set; nothing else changes |
| GameEngine.PauseGame | party/gameEngine.ts:507-512 | paused; nothing else changes |
| GameEngine.ResumeGame | party/gameEngine.ts:515-521 | playing, with the last call time set; nothing else changes |
| GameEngine.PauseThenResume | party/gameEngine.ts:507-521 | pause then resume restores a playing session, apart from the call time |
| GameEngine.StartTimeout | party/gameEngine.ts:568-577 | timeout phase ending durationSeconds * 1000 ms from now; nothing else changes |
| GameEngine.EndTimeout | party/gameEngine.ts:580-587 | playing, no end time, last call time set; nothing else changes |
| GameEngine.TimeoutRoundTrip | party/gameEngine.ts:568-587 | a timeout and its end restore a playing session, apart from the call time |
| GameEngine.UpdateSettings | party/gameEngine.ts:590-601 | each setting present in the patch replaces the old value; absent ones are kept |
| GameEngine.UpdateSettingsEmpty | party/gameEngine.ts:590-601 | an empty patch changes nothing |
| GameEngine.UpdatePattern | party/gameEngine.ts:604-612 | only the current pattern changes |
| GameEngine.ToggleAutoMark | party/gameEngine.ts:342-360 | only the player's auto-mark flag changes; an unknown player is a no-op |
| GameEngine.ToggleHighlightCalledNumbers | party/gameEngine.ts:363-387 | the flag is set, except that turning it on is refused while the host disallows it; an unknown player is a no-op |
| GameEngine.ResetOnePlayer | party/gameEngine.ts:528-549 | one player reset: with a selection when preserving, fresh grids and ready, and no draws used; otherwise the pool is exactly `DrawnPool(8, e)` (valid, and shorter than 8 only when the draws ran out) with everything cleared |
| GameEngine.ResetPlayers | party/gameEngine.ts:524-550 | the same ids, each player reset as above; a regenerated pool shorter than 8 means the draws ran out |
| GameEngine.ResetGame | party/gameEngine.ts:524-565 | lobby, players reset (a regenerated pool is shorter than 8 only when the draws ran out), no calls, a fresh permutation of 1..75, no current number, history, winners or end time; settings, pattern, host and chat kept |
| GameEngine.ResetPlayerConsistent | party/gameEngine.ts:528-549 | a reset player keeps its id and a consistent selection |
| GameEngine.AddChatMessage | party/gameEngine.ts:620-649 | appends the message and drops the oldest once more than 100 are kept; nothing else changes |
| GameEngine.ChatBounded | party/gameEngine.ts:620-649 | the log stays within 100, ends with the new message, and keeps the newest of the old ones in order |
| GameEngine.UpdatePlayerStats | party/gameEngine.ts:652-681 | the entry gets the name and connection, keeping its counters, or starts at zero when new; other entries unchanged |
| GameEngine.UpdatePlayerStatsConnection | party/gameEngine.ts:684-702 | only the connected flag of an existing entry changes; a missing entry is a no-op |
| GameEngine.IncrementPlayerWins | party/gameEngine.ts:727-744 | an existing entry's wins go up by one; a missing entry is a no-op |
| GameEngine.PlayersUnderStep | party/gameEngine.ts:708-719 | one more player visited adds one to a key's count iff it plays under that key |
| GameEngine.GamesPlayedNone | party/gameEngine.ts:706 | before the loop the stats are the old ones |
| GameEngine.GamesPlayedStep | party/gameEngine.ts:708-719 | each loop step bumps the visited player's entry, if it has one |
| GameEngine.IncrementGamesPlayed | party/gameEngine.ts:705-724 | each entry's gamesPlayed grows by the number of players with that persistent id and a selection; entries without one are untouched; nothing else changes |
| GameEngine.NewPlayerConsistent | party/gameEngine.ts:66-77 | adding a fresh player keeps the session invariants |
| GameEngine.SelectionKeepsStateOk | party/gameEngine.ts:163-199 | selecting cards keeps the session invariants |
| GameEngine.MarkCellKeepsStateOk | party/gameEngine.ts:246-287 | marking keeps the session invariants |
| GameEngine.CallNextKeepsStateOk | party/gameEngine.ts:390-415 | calling a number keeps the session invariants |
| GameEngine.AddWinnerKeepsStateOk | party/gameEngine.ts:463-495 | recording a validated winner keeps the session invariants |
| PartyServer.ClampInterval | party/bingoServer.ts:536-538 | max(2000, min(10000, x)): always within the bounds, x itself inside them, the nearer bound outside |
| PartyServer.InitHostFlagCanDisagree | party/bingoServer.ts:135-147 | with no players yet, a second connection is told it is the host while the session's host is the first |
| PartyServer.BingoServer.constructor | party/bingoServer.ts:33-38 | a room with no session, no connections, nothing sent, no timers |
| PartyServer.BingoServer.SendTo | party/bingoServer.ts:60-65 | appends one direct message to the recipient |
| PartyServer.BingoServer.Broadcast | party/bingoServer.ts:50-57 | appends one message for everyone but the excluded connection |
| PartyServer.BingoServer.StartAutoCall | party/bingoServer.ts:68-96 | the ticker runs iff the session is playing with auto-call on |
| PartyServer.BingoServer.EnsureState | party/bingoServer.ts:41-47 | an existing session is kept; otherwise the full `InitialState` of this room with no host |
| PartyServer.BingoServer.OnConnect | party/bingoServer.ts:131-149 | the connection is added and the timers untouched; a new session is the full `InitialState` with this connection as host and it is sent init with isHost true; in an existing session the connection becomes host only when there is none, and init carries the isHost flag as the source computes it |
| PartyServer.BingoServer.AdmitConnection | party/bingoServer.ts:133-148 | the connection is added, made host only when the session has none, and sent init with the isHost flag computed before the host is assigned |
| PartyServer.BingoServer.OnClose | party/bingoServer.ts:153-163 | the connection is dropped; a known player is kept but marked disconnected and playerLeft is broadcast; otherwise nothing changes |
| PartyServer.BingoServer.OnMessage | party/bingoServer.ts:166-253 | no session: nothing; unreadable message: "Invalid message format"; otherwise `CommandEffect`: the effect of the command's own handler, or "Unknown message type" with nothing else changed; the outbox only grows |
| PartyServer.BingoServer.DispatchPlayerCommand | party/bingoServer.ts:177-204 | each player case has exactly the effect of its handler (`CommandEffect`), keeps the invariant and only adds to the outbox |
| PartyServer.BingoServer.DispatchHostCommand | party/bingoServer.ts:206-236 | each game-flow host case has exactly the effect of its handler (`CommandEffect`), keeps the invariant and only adds to the outbox; the other host cases go to `DispatchRoomCommand` |
| PartyServer.BingoServer.DispatchRoomCommand | party/bingoServer.ts:222-248 | the reset, timeout and kick cases each have exactly the effect of their handler (`CommandEffect`), keep the invariant and only add to the outbox |
| PartyServer.BingoServer.HandleJoinRoom | party/bingoServer.ts:261-270 | a known id is marked connected and gameState is broadcast; a new one is handed to `AdmitPlayer` (`JoinRoomEffect` states both branches) |
| PartyServer.BingoServer.AdmitPlayer | party/bingoServer.ts:272-288 | a new player joins, as host when there is none or it is the host, without its persistent id, with auto-mark and readiness off, highlighting on and a valid pool of distinct cards, shorter than 8 only when the draws ran out; it is sent its pool, everyone else hears playerJoined, then it is sent gameState |
| PartyServer.BingoServer.HandleSelectCards | party/bingoServer.ts:291-300 | the selectCards reducer is applied and the player broadcast; an unknown player changes nothing |
| PartyServer.BingoServer.HandleRegenerateCards | party/bingoServer.ts:303-319 | refused outside lobby and timeout; otherwise always a full regeneration to a valid pool, shorter than 8 only when the draws ran out, with the pool sent to the player and the player broadcast |
| PartyServer.BingoServer.HandleMarkCell | party/bingoServer.ts:322-335 | ignored outside playing; a row off the card (where markCell throws) changes nothing and sends nothing; otherwise the markCell reducer and a playerUpdated broadcast |
| PartyServer.BingoServer.HandleClaimBingo | party/bingoServer.ts:338-368 | "Game not in progress" outside playing; a failed claim leaves the session unchanged and broadcasts bingoInvalid with the first failing reason; a valid one adds the winner |
| PartyServer.BingoServer.RecordWinner | party/bingoServer.ts:358-367 | the winner is added, the ticker stops once finished, and bingoValidated then gameState are broadcast |
| PartyServer.BingoServer.HandleToggleAutoMark | party/bingoServer.ts:371-380 | the toggleAutoMark reducer and a playerUpdated broadcast for a known player |
| PartyServer.BingoServer.HandlePlayerReady | party/bingoServer.ts:383-401 | a player with a selection becomes ready and is broadcast; otherwise nothing changes |
| PartyServer.BingoServer.HandleHostStartGame | party/bingoServer.ts:404-431 | non-host: "Not authorized"; not in lobby: "Game already started"; no selections: "No players ready", each with the session unchanged; otherwise playing, gameStarted broadcast, ticker per the auto-call setting |
| PartyServer.BingoServer.HandleHostCallNext | party/bingoServer.ts:434-453 | non-host: "Not authorized"; ignored outside playing; "No more numbers" when none remain; otherwise the next number is called and numberCalled broadcast |
| PartyServer.BingoServer.HandleHostPause | party/bingoServer.ts:456-470 | non-host refused; only playing pauses: the ticker stops and gamePaused then gameState are broadcast; otherwise no change |
| PartyServer.BingoServer.HandleHostResume | party/bingoServer.ts:473-489 | non-host refused; only paused resumes: the ticker runs iff auto-call is on, and gameResumed is broadcast; otherwise no change |
| PartyServer.BingoServer.SendPools | party/bingoServer.ts:505-508 | every connected player gets its own pool, nobody twice, and nothing else is sent |
| PartyServer.BingoServer.HandleHostReset | party/bingoServer.ts:492-511 | non-host refused; otherwise both timers stop, the session is reset keeping selections (lobby, nothing called, a fresh call order, last call time 0, no timeout) with room id, host, settings, pattern, chat and stats kept, every player without a selection gets a valid pool, shorter than 8 only when the draws ran out, every connected player gets its pool once, and gameReset is broadcast last |
| PartyServer.BingoServer.HandleHostSetPattern | party/bingoServer.ts:514-524 | non-host refused; otherwise the pattern changes and gameState is broadcast |
| PartyServer.BingoServer.HandleHostSetSpeed | party/bingoServer.ts:527-545 | non-host refused; otherwise only the interval changes, clamped to 2000..10000 ms; a running ticker keeps running (restarted), a stopped one starts iff auto-call is on while playing; gameState is broadcast |
| PartyServer.BingoServer.HandleHostToggleAutoCall | party/bingoServer.ts:548-564 | non-host refused; otherwise the setting is stored and the ticker runs iff it is on while playing |
| PartyServer.BingoServer.HandleHostCreateTimeout | party/bingoServer.ts:567-587 | non-host refused; only from playing: timeout phase, ticker stopped, timer running, timeoutStarted broadcast with the end time |
| PartyServer.BingoServer.HandleHostEndTimeout | party/bingoServer.ts:590-609 | non-host refused; only from timeout: playing, timer stopped, ticker per auto-call, timeoutEnded broadcast |
| PartyServer.BingoServer.HandleHostKickPlayer | party/bingoServer.ts:612-641 | non-host refused; kicking oneself refused with "Cannot kick yourself"; otherwise the player is removed (not soft-disconnected), told it is kicked, its connection closed, and playerLeft then gameState are broadcast |

## Left out

- Timers: the bodies of `startAutoCall`, `stopAutoCall`, `startTimeoutTimer` and `stopTimeoutTimer` (party/bingoServer.ts:67-129) are wall-clock scheduling. The room records only two flags saying whether the ticker and the timeout timer would be running. A tick (party/bingoServer.ts:74-95) is not modelled. It differs from the `hostCallNext` path in three ways: it skips the host check; it sends no "No more numbers" error; and when nothing remains it broadcasts the last call again, then stops the ticker.
- Transport: `JSON.parse` and `JSON.stringify`, `conn.send` and `conn.close`. A message is a `ClientMessage` value, with `None` for text that does not parse. Sent notifications are appended to `outbox`. `connections` is a set of ids rather than a map of connection objects.
- `Math.random()`, `Date.now()`, `generateId()` and `generateMessageId()` are inputs. Draws and ids come from an `Entropy` value, and `now` and the message id are parameters.
- GameEngine.CallNextNumber: `callNextNumber` reads `Date.now()` twice, once for the call's timestamp (party/gameEngine.ts:401) and once for `lastCallTime` (party/gameEngine.ts:410). The model uses one `now` for both, so the call's timestamp always equals `lastCallTime`; in the source the two can differ by the time between the reads.
  - A draw is any natural number d, and index i + 1 reads it as d mod (i + 1). This stands for `Math.floor(Math.random() * (i + 1))` without floating point.
  - Once the draws are used up every index reads 0 and every id is empty.
- CardGenerator.GenerateCardPool: when the draws run out before `count` distinct cards are found, the pool stops short. The source's loop never ends without them. The contract states that a short pool means the draws were used up.
- ClientCardGenerator.GenerateCardPool: stops short in the same way as the room's copy.
- Map iteration order: Dafny maps have no insertion order, so `resetGame`, `autoMarkNumber` and `incrementGamesPlayed` visit players in an unspecified order. The results of `autoMarkNumber` and `incrementGamesPlayed` do not depend on it. `resetGame` threads the entropy through the players in visit order, so which pool each player draws depends on that order. Its contract holds for every order.
- GameEngine.FindPlayerByPersistentId: returns some player with the persistent id, not necessarily the first one inserted, because map order is not modelled.
- Malformed grids from clients: a claimed or patterned grid is always a 5x5 boolean grid here. The source would read `undefined` for missing rows.
- GameEngine.MarkCell: for a row off the card the source throws a TypeError, because it reads a column of `undefined` (party/gameEngine.ts:264). The function returns the session unchanged there, and `GameEngine.MarkCellThrows` names the case. A column off the card reads `undefined`, which is neither FREE nor called, so the source and the model both change nothing.
- PartyServer.BingoServer.HandleMarkCell: the throw ends the message handler, since its try/catch covers only `JSON.parse` (party/bingoServer.ts:170-175). The handler models that as no change and no message. The thrown error itself is not modelled.
- The colour-class lookups of src/lib/utils/numberFormatter.ts:6-27 are string tables for the UI.
- Non-integer and non-finite numbers (formatTime and msToSeconds of fractions, NaN) are out of scope: numbers are integers.
- src/lib/stores/gameState.svelte.ts, src/lib/utils/audio.ts, src/service-worker.ts, src/lib/i18n/index.ts, scripts/convert-favicon.js and vite.config.ts are not part of this model. shared/constants.ts appears only as constants.
