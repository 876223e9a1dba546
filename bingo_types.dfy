/** The shared vocabulary of a bingo room: column letters and their number
    ranges, card cells and 5x5 grids, patterns, players, the session record and
    the wire messages (shared/types.ts), together with the game constants of
    shared/constants.ts. */
module BingoTypes {

  datatype Option<+T> = None | Some(value: T)

  // ---------------------------------------------------------------------------
  // Game constants (shared/constants.ts)

  const GridSize: int := 5
  const TotalNumbers: int := 75
  const MinCards: int := 1
  const MaxCards: int := 4
  const CardPoolSize: int := 8
  const MinCallInterval: int := 2000
  const MaxCallInterval: int := 10000
  const DefaultCallInterval: int := 5000
  const DefaultTimeoutDuration: int := 60

  // ---------------------------------------------------------------------------
  // Columns and their ranges

  datatype Column = B | I | N | G | O

  /** The column order B, I, N, G, O. */
  const Columns: seq<Column> := [B, I, N, G, O]

  datatype Range = Range(min: int, max: int)

  /** The closed number range printed under each column letter. */
  function ColumnRange(c: Column): Range
  {
    match c
    case B => Range(1, 15)
    case I => Range(16, 30)
    case N => Range(31, 45)
    case G => Range(46, 60)
    case O => Range(61, 75)
  }

  function ColumnLetter(c: Column): string
  {
    match c
    case B => "B"
    case I => "I"
    case N => "N"
    case G => "G"
    case O => "O"
  }

  /** The column a called number belongs to; everything outside 1..60,
      including numbers below 1 and above 75, falls through to O. */
  function ColumnForNumber(n: int): (c: Column)
    ensures c == B <==> 1 <= n <= 15
    ensures c == I <==> 16 <= n <= 30
    ensures c == N <==> 31 <= n <= 45
    ensures c == G <==> 46 <= n <= 60
    ensures c == O <==> (n < 1 || n > 60)
  {
    if 1 <= n <= 15 then B
    else if 16 <= n <= 30 then I
    else if 31 <= n <= 45 then N
    else if 46 <= n <= 60 then G
    else O
  }

  predicate InRange(n: int, r: Range) { r.min <= n <= r.max }

  /** Every callable number lies in the range of the column it is announced under. */
  lemma ColumnForNumberInRange(n: int)
    requires 1 <= n <= TotalNumbers
    ensures InRange(n, ColumnRange(ColumnForNumber(n)))
  {
  }

  /** n lies in the range of some column. */
  predicate Covered(n: int)
  {
    exists i :: 0 <= i < |Columns| && InRange(n, ColumnRange(Columns[i]))
  }

  /** The ranges, taken in the order of Columns, are the consecutive blocks of
      fifteen numbers; they are pairwise disjoint and together cover 1..75. */
  lemma ColumnRangesPartition()
    ensures |Columns| == GridSize
    ensures forall i :: 0 <= i < |Columns| ==>
      ColumnRange(Columns[i]) == Range(15 * i + 1, 15 * i + 15)
    ensures forall n, i, j ::
      (0 <= i < |Columns| && 0 <= j < |Columns| &&
       InRange(n, ColumnRange(Columns[i])) && InRange(n, ColumnRange(Columns[j]))) ==> i == j
    ensures forall n :: 1 <= n <= TotalNumbers ==> Covered(n)
  {
    forall n | 1 <= n <= TotalNumbers
      ensures Covered(n)
    {
      var i := if n <= 15 then 0 else if n <= 30 then 1 else if n <= 45 then 2 else if n <= 60 then 3 else 4;
      assert InRange(n, ColumnRange(Columns[i]));
    }
  }

  // ---------------------------------------------------------------------------
  // Decimal rendering of integers (JavaScript's `${n}` for integral numbers)

  predicate IsDigit(ch: char) { '0' <= ch <= '9' }

  function DigitChar(d: int): (ch: char)
    requires 0 <= d <= 9
    ensures IsDigit(ch) && ch as int - '0' as int == d
  {
    ('0' as int + d) as char
  }

  /** The decimal digits of n, most significant first, without leading zeros. */
  function NatToString(n: nat): (s: string)
    ensures 1 <= |s|
    ensures forall i :: 0 <= i < |s| ==> IsDigit(s[i])
    ensures |s| > 1 ==> s[0] != '0'
  {
    if n < 10 then [DigitChar(n)] else NatToString(n / 10) + [DigitChar(n % 10)]
  }

  function IntToString(n: int): string
  {
    if n < 0 then "-" + NatToString(-n) else NatToString(n)
  }

  /** The number a string of decimal digits denotes. */
  function DigitsValue(s: string): int
    requires forall i :: 0 <= i < |s| ==> IsDigit(s[i])
  {
    if s == [] then 0
    else 10 * DigitsValue(s[..|s| - 1]) + (s[|s| - 1] as int - '0' as int)
  }

  /** Reading the rendered digits back gives the number: the rendering loses nothing. */
  lemma {:induction false} NatToStringRoundTrip(n: nat)
    ensures DigitsValue(NatToString(n)) == n
  {
    if n >= 10 {
      NatToStringRoundTrip(n / 10);
      var s := NatToString(n);
      assert s[..|s| - 1] == NatToString(n / 10);
    }
  }

  /** `${getColumnForNumber(n)}-${n}`. */
  function FormatNumber(n: int): (s: string)
    ensures |s| >= 3 && s[..2] == ColumnLetter(ColumnForNumber(n)) + "-"
    ensures n >= 0 ==> forall i :: 2 <= i < |s| ==> IsDigit(s[i])
  {
    ColumnLetter(ColumnForNumber(n)) + "-" + IntToString(n)
  }

  /** The digits after the dash of FormatNumber(n) spell n back. */
  lemma FormatNumberRoundTrip(n: nat)
    ensures DigitsValue(FormatNumber(n)[2..]) == n
  {
    assert FormatNumber(n)[2..] == NatToString(n);
    NatToStringRoundTrip(n);
  }

  // ---------------------------------------------------------------------------
  // Cards and grids

  type Id = string

  /** A card cell holds a number or the FREE centre. */
  datatype Cell = Num(n: int) | Free

  predicate IsGrid<T>(g: seq<seq<T>>)
  {
    |g| == GridSize && forall r :: 0 <= r < |g| ==> |g[r]| == GridSize
  }

  predicate InGrid(r: int, c: int) { 0 <= r < GridSize && 0 <= c < GridSize }

  /** A 5x5 grid of marks (marked cells, pattern cells or winning cells). */
  type Marks = g: seq<seq<bool>> | IsGrid(g) witness seq(5, _ => seq(5, _ => false))

  /** A 5x5 grid of card cells, rows first. */
  type CardGrid = g: seq<seq<Cell>> | IsGrid(g) witness seq(5, _ => seq(5, _ => Free))

  datatype Card = Card(id: Id, grid: CardGrid)

  datatype NumberCall = NumberCall(number: int, column: Column, timestamp: int)

  datatype Winner = Winner(
    playerId: Id,
    playerName: string,
    cardId: Id,
    place: int,
    timestamp: int,
    winningPattern: Marks)

  datatype ChatMessageType = Text | Reaction

  datatype QuickReaction = GoodLuck | SoClose | OneMore | Nice | Wow | Haha | Nervous | LetsGo

  datatype ChatMessage = ChatMessage(
    id: Id,
    playerId: Id,
    playerName: string,
    kind: ChatMessageType,
    content: string,
    timestamp: int)

  datatype PatternType = Preset | Custom

  datatype Pattern = Pattern(
    id: string,
    name: string,
    nameEs: Option<string>,
    kind: PatternType,
    grid: Marks,
    description: Option<string>,
    descriptionEs: Option<string>)

  datatype GameSettings = GameSettings(
    autoCall: bool,
    callInterval: int,
    allowMultipleWinners: bool,
    maxWinners: int,
    requireAllPlayersReady: bool,
    allowHighlightCalledNumbers: bool)

  const DefaultSettings: GameSettings := GameSettings(
    autoCall := false,
    callInterval := DefaultCallInterval,
    allowMultipleWinners := true,
    maxWinners := 3,
    requireAllPlayersReady := false,
    allowHighlightCalledNumbers := true)

  datatype GamePhase = Lobby | CardSelection | Playing | Paused | Timeout | Finished

  datatype BingoPlayer = BingoPlayer(
    id: Id,
    persistentId: Option<string>,
    name: string,
    isHost: bool,
    connected: bool,
    cards: seq<Card>,
    selectedCardIds: seq<Id>,
    markedCells: map<Id, Marks>,
    autoMark: bool,
    readyToPlay: bool,
    highlightCalledNumbers: bool)

  datatype PlayerStats = PlayerStats(
    persistentId: string,
    playerName: string,
    wins: int,
    gamesPlayed: int,
    connected: bool)

  /** The whole session of one room. */
  datatype BingoGameState = BingoGameState(
    roomId: string,
    phase: GamePhase,
    hostId: Id,
    players: map<Id, BingoPlayer>,
    calledNumbers: seq<int>,
    remainingNumbers: seq<int>,
    currentNumber: Option<int>,
    callHistory: seq<NumberCall>,
    settings: GameSettings,
    currentPattern: Pattern,
    winners: seq<Winner>,
    lastCallTime: int,
    timeoutEndTime: Option<int>,
    chatMessages: seq<ChatMessage>,
    playerStats: map<string, PlayerStats>)

  // ---------------------------------------------------------------------------
  // Wire messages

  /** Commands a client may send; `Other` is any message whose type the server does not name. */
  datatype ClientMessage =
    | JoinRoom(playerName: string, persistentId: Option<string>)
    | SelectCards(cardIds: seq<Id>)
    | RegenerateCards(preserveSelected: Option<bool>)
    | MarkCell(cardId: Id, row: int, col: int)
    | ClaimBingo(cardId: Id, markedGrid: Marks)
    | ToggleAutoMark(enabled: bool)
    | ToggleHighlightCalledNumbers(enabled: bool)
    | PlayerReady
    | PlayerUnready
    | HostStartGame
    | HostCallNext
    | HostPause
    | HostResume
    | HostReset
    | HostSetPattern(pattern: Pattern)
    | HostSetSpeed(intervalMs: int)
    | HostToggleAutoCall(enabled: bool)
    | HostToggleAllowHighlight(enabled: bool)
    | HostCreateTimeout(durationSeconds: int)
    | HostEndTimeout
    | HostKickPlayer(playerId: Id)
    | SendChatMessage(content: string)
    | SendReaction(reaction: QuickReaction)
    | Other(messageType: string)

  /** Notifications the server sends. */
  datatype ServerMessage =
    | Init(playerId: Id, isHost: bool, state: BingoGameState)
    | CardPool(cards: seq<Card>)
    | GameState(state: BingoGameState)
    | NumberCalled(call: NumberCall, state: BingoGameState)
    | PlayerJoined(player: BingoPlayer)
    | PlayerLeft(playerId: Id)
    | PlayerUpdated(player: BingoPlayer)
    | BingoValidated(winner: Winner)
    | BingoInvalid(playerId: Id, reason: string)
    | GameStarted(state: BingoGameState)
    | GamePaused
    | GameResumed(state: BingoGameState)
    | GameReset(state: BingoGameState)
    | TimeoutStarted(endTime: int)
    | TimeoutEnded
    | PatternChanged(pattern: Pattern, changedBy: Id)
    | Kicked
    | Error(message: string)
    | ChatMessageSent(chat: ChatMessage)
    | ChatHistory(messages: seq<ChatMessage>)
}
