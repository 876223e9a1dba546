/** The game reducer (party/gameEngine.ts): each operation maps the session
    record to a new one. String-keyed records are maps, arrays are sequences,
    Date.now() is the parameter `now`, fresh ids are parameters, and card pools
    and call orders come from the generator with an explicit `Entropy`. */
module GameEngine {
  import opened BingoTypes
  import opened Patterns
  import opened PatternValidator
  import opened CardGenerator

  const MaxChatMessages: int := 100

  // ---------------------------------------------------------------------------
  // Facts kept across the reducers

  /** Called and remaining numbers together are 1..75 in some order. */
  predicate CallOrderKept(s: BingoGameState)
  {
    IsCallOrder(s.calledNumbers + s.remainingNumbers)
  }

  /** While the call order is kept no number is called twice, nothing called
      is still to come, and the two lists always hold 75 numbers together. */
  lemma CallOrderConsequences(s: BingoGameState)
    requires CallOrderKept(s)
    ensures |s.calledNumbers| + |s.remainingNumbers| == TotalNumbers
    ensures Distinct(s.calledNumbers)
    ensures forall x :: x in s.calledNumbers ==> x !in s.remainingNumbers
    ensures forall x :: x in s.calledNumbers ==> 1 <= x <= TotalNumbers
  {
    var all := s.calledNumbers + s.remainingNumbers;
    CallOrderFacts(all);
    forall i, j | 0 <= i < j < |s.calledNumbers|
      ensures s.calledNumbers[i] != s.calledNumbers[j]
    {
      assert all[i] == s.calledNumbers[i] && all[j] == s.calledNumbers[j];
    }
    forall x | x in s.calledNumbers
      ensures x !in s.remainingNumbers && 1 <= x <= TotalNumbers
    {
      var i :| 0 <= i < |s.calledNumbers| && s.calledNumbers[i] == x;
      assert all[i] == x;
      assert x in all;
      forall j | 0 <= j < |s.remainingNumbers|
        ensures s.remainingNumbers[j] != x
      {
        assert all[|s.calledNumbers| + j] == s.remainingNumbers[j];
      }
    }
  }

  /** Places run 1, 2, 3, ..., no player wins twice, and there are never more
      winners than the settings allow. */
  predicate WinnersWellFormed(s: BingoGameState)
  {
    |s.winners| <= s.settings.maxWinners &&
    (forall i :: 0 <= i < |s.winners| ==> s.winners[i].place == i + 1) &&
    (forall i, j :: 0 <= i < j < |s.winners| ==> s.winners[i].playerId != s.winners[j].playerId)
  }

  /** A pool as the generator leaves it: well-formed cards with distinct grids. */
  predicate PoolOk(cards: seq<Card>)
  {
    |cards| <= CardPoolSize &&
    (forall k :: 0 <= k < |cards| ==> ValidCardGrid(cards[k].grid)) &&
    SignaturesDistinct(cards)
  }

  // ---------------------------------------------------------------------------
  // Session and players

  /** A session as createInitialState leaves it: lobby, no players, nothing
      called and a full call order still to come, the default settings and
      pattern, no winners, no chat and no stats. */
  predicate InitialState(s: BingoGameState, roomId: string, hostId: Id)
  {
    s.roomId == roomId && s.phase == Lobby && s.hostId == hostId && s.players == map[] &&
    s.calledNumbers == [] && IsCallOrder(s.remainingNumbers) &&
    s.currentNumber == None && s.callHistory == [] && s.winners == [] &&
    s.settings == DefaultSettings && s.currentPattern == DefaultPattern &&
    s.lastCallTime == 0 && s.timeoutEndTime == None &&
    s.chatMessages == [] && s.playerStats == map[]
  }

  /** createInitialState: lobby, no players, a fresh call order, the default
      settings and pattern. */
  method CreateInitialState(roomId: string, hostId: Id, e: Entropy) returns (s: BingoGameState, e': Entropy)
    ensures InitialState(s, roomId, hostId)
    ensures CallOrderKept(s) && WinnersWellFormed(s)
    ensures e'.ids == e.ids
  {
    var numbers, rest := GenerateShuffledNumbers(e.draws);
    s := BingoGameState(roomId, Lobby, hostId, map[], [], numbers, None, [], DefaultSettings,
                        DefaultPattern, [], 0, None, [], map[]);
    assert s.calledNumbers + s.remainingNumbers == numbers;
    e' := e.(draws := rest);
  }

  /** createPlayer: connected, with a fresh pool and nothing selected or marked. */
  method CreatePlayer(id: Id, name: string, isHost: bool, persistentId: Option<string>, e: Entropy)
    returns (p: BingoPlayer, e': Entropy)
    ensures p.id == id && p.name == name && p.isHost == isHost && p.persistentId == persistentId
    ensures p.connected && p.selectedCardIds == [] && p.markedCells == map[]
    ensures !p.autoMark && !p.readyToPlay && p.highlightCalledNumbers
    ensures PoolOk(p.cards)
    ensures |p.cards| < CardPoolSize ==> e'.draws == []
  {
    var cards;
    cards, e' := GenerateCardPool(CardPoolSize, e);
    p := BingoPlayer(id, persistentId, name, isHost, true, cards, [], map[], false, false, true);
  }

  /** addPlayer: the player is stored under its own id. */
  function AddPlayer(s: BingoGameState, p: BingoPlayer): (r: BingoGameState)
    ensures p.id in r.players && r.players[p.id] == p
    ensures forall id :: id != p.id ==> (id in r.players <==> id in s.players)
    ensures forall id :: id != p.id && id in s.players ==> r.players[id] == s.players[id]
    ensures r.(players := s.players) == s
  {
    s.(players := s.players[p.id := p])
  }

  /** removePlayer: the entry goes, every other entry stays. */
  function RemovePlayer(s: BingoGameState, id: Id): (r: BingoGameState)
    ensures id !in r.players
    ensures forall k :: k != id ==> (k in r.players <==> k in s.players)
    ensures forall k :: k != id && k in s.players ==> r.players[k] == s.players[k]
    ensures r.(players := s.players) == s
  {
    s.(players := s.players - {id})
  }

  /** Adding a new player and removing it again restores the session. */
  lemma AddThenRemove(s: BingoGameState, p: BingoPlayer)
    requires p.id !in s.players
    ensures RemovePlayer(AddPlayer(s, p), p.id) == s
  {
    assert s.players[p.id := p] - {p.id} == s.players;
  }

  /** updatePlayerConnection: only the connected flag of an existing player changes. */
  function UpdatePlayerConnection(s: BingoGameState, id: Id, connected: bool): (r: BingoGameState)
    ensures id !in s.players ==> r == s
    ensures id in s.players ==> r.players == s.players[id := s.players[id].(connected := connected)]
    ensures r.(players := s.players) == s
  {
    if id !in s.players then s
    else s.(players := s.players[id := s.players[id].(connected := connected)])
  }

  /** Dropping and restoring a connection gives back the same session. */
  lemma ConnectionRoundTrip(s: BingoGameState, id: Id)
    requires id in s.players && s.players[id].connected
    ensures UpdatePlayerConnection(UpdatePlayerConnection(s, id, false), id, true) == s
  {
    assert s.players[id := s.players[id]] == s.players;
  }

  /** findPlayerByPersistentId: a player whose persistent id matches, or null
      when none does. */
  method FindPlayerByPersistentId(s: BingoGameState, persistentId: string) returns (r: Option<BingoPlayer>)
    ensures r.Some? ==> r.value in s.players.Values && r.value.persistentId == Some(persistentId)
    ensures r.None? <==> forall p :: p in s.players.Values ==> p.persistentId != Some(persistentId)
  {
    var rest := s.players.Values;
    while rest != {}
      invariant rest <= s.players.Values
      invariant forall p :: p in s.players.Values - rest ==> p.persistentId != Some(persistentId)
      decreases |rest|
    {
      var player :| player in rest;
      if player.persistentId == Some(persistentId) {
        return Some(player);
      }
      rest := rest - {player};
    }
    return None;
  }

  /** reconnectPlayer: the player moves from the old key to the new one, with
      its id updated and marked connected; the host moves along with it. */
  function ReconnectPlayer(s: BingoGameState, oldId: Id, newId: Id): (r: BingoGameState)
    ensures oldId !in s.players ==> r == s
    ensures oldId in s.players ==>
      newId in r.players &&
      r.players[newId] == s.players[oldId].(id := newId, connected := true) &&
      (oldId in r.players <==> oldId == newId) &&
      (forall k :: k != oldId && k != newId ==> (k in r.players <==> k in s.players)) &&
      (forall k :: k != oldId && k != newId && k in s.players ==> r.players[k] == s.players[k]) &&
      r.hostId == (if s.hostId == oldId then newId else s.hostId) &&
      r.(players := s.players, hostId := s.hostId) == s
  {
    if oldId !in s.players then s
    else
      var updated := s.players[oldId].(id := newId, connected := true);
      var moved := s.(players := (s.players - {oldId})[newId := updated]);
      if s.hostId == oldId then moved.(hostId := newId) else moved
  }

  /** Moving a connected player to an unused id and back restores the session. */
  lemma ReconnectRoundTrip(s: BingoGameState, oldId: Id, newId: Id)
    requires oldId in s.players && newId !in s.players
    requires s.players[oldId].id == oldId && s.players[oldId].connected
    requires s.hostId != newId
    ensures ReconnectPlayer(ReconnectPlayer(s, oldId, newId), newId, oldId) == s
  {
    var p := s.players[oldId];
    var moved := (s.players - {oldId})[newId := p.(id := newId, connected := true)];
    var s1 := ReconnectPlayer(s, oldId, newId);
    assert s1.players == moved;
    var back := (moved - {newId})[oldId := p];
    assert back == s.players;
    var s2 := ReconnectPlayer(s1, newId, oldId);
    assert s2.players == back;
    assert s2.hostId == s.hostId;
  }

  // ---------------------------------------------------------------------------
  // Cards of a player

  predicate HasCard(cards: seq<Card>, id: Id)
  {
    exists k :: 0 <= k < |cards| && cards[k].id == id
  }

  /** cards.find(c => c.id === id): the first card with the id. */
  function FindCard(cards: seq<Card>, id: Id): (r: Option<Card>)
    ensures r.Some? ==> r.value in cards && r.value.id == id
    ensures r.Some? ==> exists k :: 0 <= k < |cards| && cards[k] == r.value && forall j :: 0 <= j < k ==> cards[j].id != id
    ensures r.None? <==> !HasCard(cards, id)
  {
    if cards == [] then None
    else if cards[0].id == id then Some(cards[0])
    else
      var r := FindCard(cards[1..], id);
      assert HasCard(cards[1..], id) ==> HasCard(cards, id) by {
        if HasCard(cards[1..], id) {
          var k :| 0 <= k < |cards| - 1 && cards[1..][k].id == id;
          assert cards[k + 1].id == id;
        }
      }
      r
  }

  /** `r` is `xs` with some elements deleted: what a filter leaves, in order. */
  predicate Subsequence<T(==)>(r: seq<T>, xs: seq<T>)
    decreases |xs|
  {
    r == [] ||
    (xs != [] && ((r[0] == xs[0] && Subsequence(r[1..], xs[1..])) || Subsequence(r, xs[1..])))
  }

  /** cardIds.filter(id => cards.some(card => card.id === id)): the requested
      ids the pool holds, in request order, each as often as requested. */
  function OwnedIds(cards: seq<Card>, ids: seq<Id>): (r: seq<Id>)
    ensures |r| <= |ids|
    ensures forall x :: x in r <==> x in ids && HasCard(cards, x)
    ensures Subsequence(r, ids)
  {
    if ids == [] then []
    else
      var head := if HasCard(cards, ids[0]) then [ids[0]] else [];
      var rest := OwnedIds(cards, ids[1..]);
      assert ids == [ids[0]] + ids[1..];
      assert head != [] ==> (head + rest)[0] == ids[0] && (head + rest)[1..] == rest;
      assert head == [] ==> head + rest == rest;
      head + rest
  }

  /** The filter keeps every owned id as often as it was requested. */
  lemma {:induction false} OwnedIdsCounts(cards: seq<Card>, ids: seq<Id>, x: Id)
    requires HasCard(cards, x)
    ensures multiset(OwnedIds(cards, ids))[x] == multiset(ids)[x]
    decreases |ids|
  {
    if ids != [] {
      OwnedIdsCounts(cards, ids[1..], x);
      assert ids == [ids[0]] + ids[1..];
      var rest := OwnedIds(cards, ids[1..]);
      if HasCard(cards, ids[0]) {
        assert OwnedIds(cards, ids) == [ids[0]] + rest;
      } else {
        assert OwnedIds(cards, ids) == rest;
      }
    }
  }

  /** Truncation to MAX_CARDS (`validCardIds.length = MAX_CARDS`). */
  function AtMostMaxCards(ids: seq<Id>): (r: seq<Id>)
    ensures |r| <= MaxCards && |r| <= |ids| && r == ids[..|r|]
    ensures |ids| <= MaxCards ==> r == ids
  {
    if |ids| > MaxCards then ids[..MaxCards] else ids
  }

  /** A fresh marked grid (centre only) for every listed card id. */
  function FreshMarks(ids: seq<Id>): (m: map<Id, Marks>)
    ensures forall x :: x in m <==> x in ids
    ensures forall x :: x in m ==> m[x] == CentreMarked()
  {
    map x | x in ids :: CentreMarked()
  }

  /** The loop `for (const cardId of ids) marked[cardId] = createEmptyMarkedGrid()`. */
  method FreshMarksLoop(ids: seq<Id>) returns (marked: map<Id, Marks>)
    ensures marked == FreshMarks(ids)
  {
    marked := map[];
    for k := 0 to |ids|
      invariant forall x :: x in marked <==> x in ids[..k]
      invariant forall x :: x in marked ==> marked[x] == CentreMarked()
    {
      var g := CreateEmptyMarkedGrid();
      marked := marked[ids[k] := g];
      assert ids[..k + 1] == ids[..k] + [ids[k]];
    }
    assert ids[..|ids|] == ids;
  }

  /** selectCards: keep the requested ids the player owns, in request order,
      at most four; every kept id gets a fresh grid and the old marks go. */
  method SelectCards(s: BingoGameState, playerId: Id, cardIds: seq<Id>) returns (r: BingoGameState)
    ensures playerId !in s.players ==> r == s
    ensures playerId in s.players ==>
      var p := s.players[playerId];
      var kept := AtMostMaxCards(OwnedIds(p.cards, cardIds));
      r.players == s.players[playerId := p.(selectedCardIds := kept, markedCells := FreshMarks(kept))]
    ensures r.(players := s.players) == s
  {
    if playerId !in s.players {
      return s;
    }
    var player := s.players[playerId];
    var validCardIds := OwnedIds(player.cards, cardIds);
    if |validCardIds| > MaxCards {
      validCardIds := validCardIds[..MaxCards];
    }
    var markedCells := FreshMarksLoop(validCardIds);
    r := s.(players := s.players[playerId := player.(selectedCardIds := validCardIds, markedCells := markedCells)]);
  }

  /** What a selection can hold: only owned, requested ids, at most four,
      each with a centre-only grid and nothing else marked. */
  lemma SelectionBounds(p: BingoPlayer, cardIds: seq<Id>)
    ensures var kept := AtMostMaxCards(OwnedIds(p.cards, cardIds));
      |kept| <= MaxCards &&
      (forall x :: x in kept ==> x in cardIds && HasCard(p.cards, x)) &&
      (forall x :: x in FreshMarks(kept) <==> x in kept)
  {
    var owned := OwnedIds(p.cards, cardIds);
    var kept := AtMostMaxCards(owned);
    forall x | x in kept
      ensures x in owned
    {
      var k :| 0 <= k < |kept| && kept[k] == x;
      assert owned[k] == x;
    }
  }

  /** cards.filter(c => selectedCardIds.includes(c.id)): in pool order, each
      card as often as the pool holds it. */
  function CardsWithIds(cards: seq<Card>, ids: seq<Id>): (r: seq<Card>)
    ensures |r| <= |cards|
    ensures forall c :: c in r <==> c in cards && c.id in ids
    ensures Subsequence(r, cards)
  {
    if cards == [] then []
    else
      var head := if cards[0].id in ids then [cards[0]] else [];
      var rest := CardsWithIds(cards[1..], ids);
      assert cards == [cards[0]] + cards[1..];
      assert head != [] ==> (head + rest)[0] == cards[0] && (head + rest)[1..] == rest;
      assert head == [] ==> head + rest == rest;
      head + rest
  }

  /** The filter keeps every selected card as often as the pool holds it. */
  lemma {:induction false} CardsWithIdsCounts(cards: seq<Card>, ids: seq<Id>, c: Card)
    requires c.id in ids
    ensures multiset(CardsWithIds(cards, ids))[c] == multiset(cards)[c]
    decreases |cards|
  {
    if cards != [] {
      CardsWithIdsCounts(cards[1..], ids, c);
      assert cards == [cards[0]] + cards[1..];
      var rest := CardsWithIds(cards[1..], ids);
      if cards[0].id in ids {
        assert CardsWithIds(cards, ids) == [cards[0]] + rest;
      } else {
        assert CardsWithIds(cards, ids) == rest;
      }
    }
  }

  /** regenerateCards: with preserveSelected and a selection, the selected
      cards stay and new cards fill the pool; otherwise a whole new pool and a
      cleared selection. */
  method RegenerateCards(s: BingoGameState, playerId: Id, preserveSelected: bool, e: Entropy)
    returns (r: BingoGameState, e': Entropy)
    ensures playerId !in s.players ==> r == s
    ensures playerId in s.players ==>
      var p := s.players[playerId];
      playerId in r.players && r.players == s.players[playerId := r.players[playerId]] &&
      var q := r.players[playerId];
      if preserveSelected && |p.selectedCardIds| > 0 then
        var kept := CardsWithIds(p.cards, p.selectedCardIds);
        q == p.(cards := q.cards) &&
        |kept| <= |q.cards| && q.cards[..|kept|] == kept &&
        var generated := q.cards[|kept|..];
        (forall k :: 0 <= k < |generated| ==> ValidCardGrid(generated[k].grid)) && SignaturesDistinct(generated) &&
        (|generated| <= CardPoolSize - |kept| || generated == []) &&
        (|generated| < CardPoolSize - |kept| ==> e'.draws == [])
      else
        q == p.(cards := q.cards, selectedCardIds := [], markedCells := map[], readyToPlay := false) &&
        PoolOk(q.cards) && (|q.cards| < CardPoolSize ==> e'.draws == [])
    ensures r.(players := s.players) == s
  {
    e' := e;
    if playerId !in s.players {
      return s, e;
    }
    var player := s.players[playerId];
    if preserveSelected && |player.selectedCardIds| > 0 {
      var selectedCards := CardsWithIds(player.cards, player.selectedCardIds);
      var remainingSlots := CardPoolSize - |selectedCards|;
      var newCards;
      newCards, e' := GenerateCardPool(remainingSlots, e);
      var cards := selectedCards + newCards;
      assert cards[..|selectedCards|] == selectedCards;
      assert cards[|selectedCards|..] == newCards;
      return s.(players := s.players[playerId := player.(cards := cards)]), e';
    }
    var pool;
    pool, e' := GenerateCardPool(CardPoolSize, e);
    r := s.(players := s.players[playerId := player.(cards := pool, selectedCardIds := [], markedCells := map[],
                                                     readyToPlay := false)]);
  }

  // ---------------------------------------------------------------------------
  // Marking

  /** The cell may be toggled: the player, its grid for the card and the card
      exist, the position is on the card, and the cell is FREE or called. */
  predicate CanMark(s: BingoGameState, playerId: Id, cardId: Id, row: int, col: int)
  {
    playerId in s.players &&
    cardId in s.players[playerId].markedCells &&
    FindCard(s.players[playerId].cards, cardId).Some? &&
    InGrid(row, col) &&
    var cell := FindCard(s.players[playerId].cards, cardId).value.grid[row][col];
    cell == Free || cell.n in s.calledNumbers
  }

  /** markCell reads `card.grid[row][col]` once the player, its grid for the
      card and the card are found; for a row off the card that read throws,
      so the call ends without a result. (A column off the card only reads
      `undefined`, which is neither FREE nor called: no change.) */
  predicate MarkCellThrows(s: BingoGameState, playerId: Id, cardId: Id, row: int)
  {
    playerId in s.players &&
    cardId in s.players[playerId].markedCells &&
    FindCard(s.players[playerId].cards, cardId).Some? &&
    !(0 <= row < GridSize)
  }

  function Toggle(m: Marks, row: int, col: int): (t: Marks)
    requires InGrid(row, col)
    ensures forall r, c :: InGrid(r, c) ==> t[r][c] == (if r == row && c == col then !m[r][c] else m[r][c])
  {
    m[row := m[row][col := !m[row][col]]]
  }

  /** markCell: flips one cell of the player's grid for the card, if allowed. */
  function MarkCell(s: BingoGameState, playerId: Id, cardId: Id, row: int, col: int): (r: BingoGameState)
    ensures !CanMark(s, playerId, cardId, row, col) ==> r == s
    ensures CanMark(s, playerId, cardId, row, col) ==>
      var p := s.players[playerId];
      r.players == s.players[playerId := p.(markedCells := p.markedCells[cardId := Toggle(p.markedCells[cardId], row, col)])]
    ensures r.(players := s.players) == s
  {
    if playerId !in s.players then s
    else
      var player := s.players[playerId];
      if cardId !in player.markedCells then s
      else
        match FindCard(player.cards, cardId)
        case None => s
        case Some(card) =>
          if !InGrid(row, col) then s
          else
            var cellValue := card.grid[row][col];
            if cellValue != Free && cellValue.n !in s.calledNumbers then s
            else
              var markedGrid := player.markedCells[cardId];
              s.(players := s.players[playerId := player.(markedCells := player.markedCells[cardId := Toggle(markedGrid, row, col)])])
  }

  /** Marking the same cell twice restores the session. */
  lemma MarkCellTwice(s: BingoGameState, playerId: Id, cardId: Id, row: int, col: int)
    ensures MarkCell(MarkCell(s, playerId, cardId, row, col), playerId, cardId, row, col) == s
  {
    if CanMark(s, playerId, cardId, row, col) {
      var p := s.players[playerId];
      var m := p.markedCells[cardId];
      var t := Toggle(m, row, col);
      var p1 := p.(markedCells := p.markedCells[cardId := t]);
      var s1 := MarkCell(s, playerId, cardId, row, col);
      assert s1 == s.(players := s.players[playerId := p1]);
      assert CanMark(s1, playerId, cardId, row, col);
      GridEq(Toggle(t, row, col), m);
      assert p1.(markedCells := p1.markedCells[cardId := m]) == p;
      assert s.players[playerId := p1][playerId := p] == s.players;
    }
  }

  /** Toggling is not restricted to unmarking numbers: the FREE centre, marked
      from the start, can be unmarked. */
  lemma MarkCellCanClearFree(s: BingoGameState, playerId: Id, cardId: Id)
    requires playerId in s.players && cardId in s.players[playerId].markedCells
    requires FindCard(s.players[playerId].cards, cardId).Some?
    requires FindCard(s.players[playerId].cards, cardId).value.grid[2][2] == Free
    requires s.players[playerId].markedCells[cardId][2][2]
    ensures !MarkCell(s, playerId, cardId, 2, 2).players[playerId].markedCells[cardId][2][2]
  {
    assert CanMark(s, playerId, cardId, 2, 2);
  }

  // ---------------------------------------------------------------------------
  // Calling numbers

  /** One card's grid after a call: cells holding the number become true,
      all others keep their mark. */
  function AutoMarkGrid(g: CardGrid, m: Marks, number: int): (r: Marks)
    ensures forall row, col :: InGrid(row, col) ==> (r[row][col] <==> m[row][col] || g[row][col] == Num(number))
  {
    seq(5, row requires 0 <= row < 5 => seq(5, col requires 0 <= col < 5 =>
      if g[row][col] == Num(number) then true else m[row][col]))
  }

  /** The grid stored for a card after a call, for an auto-marking player. */
  function MarkedAfterCall(p: BingoPlayer, cardId: Id, number: int): Marks
    requires cardId in p.markedCells
  {
    if cardId in p.selectedCardIds && FindCard(p.cards, cardId).Some? then
      AutoMarkGrid(FindCard(p.cards, cardId).value.grid, p.markedCells[cardId], number)
    else p.markedCells[cardId]
  }

  function AutoMarkPlayer(p: BingoPlayer, number: int): BingoPlayer
  {
    if !p.autoMark then p
    else p.(markedCells := map k | k in p.markedCells :: MarkedAfterCall(p, k, number))
  }

  /** The session after autoMarkNumber. */
  function AutoMarked(s: BingoGameState, number: int): BingoGameState
  {
    s.(players := map id | id in s.players :: AutoMarkPlayer(s.players[id], number))
  }

  /** What auto-marking does: players without auto-mark are untouched; for
      the others each selected card's grid gains exactly the cells holding the
      number; no mark is ever cleared and no grid appears or disappears. */
  lemma AutoMarkEffect(s: BingoGameState, number: int)
    ensures var r := AutoMarked(s, number);
      r.(players := s.players) == s && r.players.Keys == s.players.Keys &&
      (forall id :: id in s.players && !s.players[id].autoMark ==> r.players[id] == s.players[id]) &&
      (forall id :: id in s.players ==>
        r.players[id] == s.players[id].(markedCells := r.players[id].markedCells) &&
        r.players[id].markedCells.Keys == s.players[id].markedCells.Keys) &&
      (forall id, k, row, col ::
        (id in s.players && k in s.players[id].markedCells && InGrid(row, col) &&
         s.players[id].markedCells[k][row][col]) ==> r.players[id].markedCells[k][row][col]) &&
      (forall id, k, row, col ::
        id in s.players && s.players[id].autoMark && k in s.players[id].markedCells &&
        k in s.players[id].selectedCardIds && FindCard(s.players[id].cards, k).Some? && InGrid(row, col) ==>
        (r.players[id].markedCells[k][row][col] <==>
          s.players[id].markedCells[k][row][col] || FindCard(s.players[id].cards, k).value.grid[row][col] == Num(number)))
  {
  }

  /** autoMarkNumber: rebuilds the player map one player at a time and, for an
      auto-marking player, the grids of the selected cards one card at a time. */
  method AutoMarkNumber(s: BingoGameState, number: int) returns (r: BingoGameState)
    ensures r == AutoMarked(s, number)
  {
    var updatedPlayers: map<Id, BingoPlayer> := map[];
    var todo := s.players.Keys;
    while todo != {}
      invariant todo <= s.players.Keys
      invariant updatedPlayers.Keys == s.players.Keys - todo
      invariant forall id :: id in updatedPlayers ==> updatedPlayers[id] == AutoMarkPlayer(s.players[id], number)
      decreases |todo|
    {
      var playerId :| playerId in todo;
      todo := todo - {playerId};
      var player := s.players[playerId];
      if !player.autoMark {
        updatedPlayers := updatedPlayers[playerId := player];
        continue;
      }
      var newMarkedCells: map<Id, Marks> := map[];
      for k := 0 to |player.selectedCardIds|
        invariant forall x :: x in newMarkedCells <==> x in player.selectedCardIds[..k] && x in player.markedCells
        invariant forall x :: x in newMarkedCells ==> newMarkedCells[x] == MarkedAfterCall(player, x, number)
      {
        var cardId := player.selectedCardIds[k];
        assert player.selectedCardIds[..k + 1] == player.selectedCardIds[..k] + [cardId];
        var card := FindCard(player.cards, cardId);
        if card.None? || cardId !in player.markedCells {
          if cardId in player.markedCells {
            newMarkedCells := newMarkedCells[cardId := player.markedCells[cardId]];
          }
          continue;
        }
        var markedGrid := player.markedCells[cardId];
        newMarkedCells := newMarkedCells[cardId := AutoMarkGrid(card.value.grid, markedGrid, number)];
      }
      assert player.selectedCardIds[..|player.selectedCardIds|] == player.selectedCardIds;
      var merged := player.markedCells + newMarkedCells;
      assert merged == map x | x in player.markedCells :: MarkedAfterCall(player, x, number);
      updatedPlayers := updatedPlayers[playerId := player.(markedCells := merged)];
    }
    assert updatedPlayers == map id | id in s.players :: AutoMarkPlayer(s.players[id], number);
    r := s.(players := updatedPlayers);
  }

  /** callNextNumber: the head of the remaining numbers is called, recorded
      in both logs and auto-marked; with nothing remaining nothing changes. */
  function CallNextNumber(s: BingoGameState, now: int): (r: BingoGameState)
    ensures s.remainingNumbers == [] ==> r == s
    ensures s.remainingNumbers != [] ==>
      var x := s.remainingNumbers[0];
      r.currentNumber == Some(x) &&
      r.calledNumbers == s.calledNumbers + [x] &&
      r.remainingNumbers == s.remainingNumbers[1..] &&
      r.callHistory == s.callHistory + [NumberCall(x, ColumnForNumber(x), now)] &&
      r.lastCallTime == now &&
      r.players == AutoMarked(s, x).players &&
      r.(players := s.players, currentNumber := s.currentNumber, calledNumbers := s.calledNumbers,
         remainingNumbers := s.remainingNumbers, callHistory := s.callHistory, lastCallTime := s.lastCallTime) == s
    ensures r.calledNumbers + r.remainingNumbers == s.calledNumbers + s.remainingNumbers
  {
    if s.remainingNumbers == [] then s
    else
      var nextNumber := s.remainingNumbers[0];
      var call := NumberCall(nextNumber, ColumnForNumber(nextNumber), now);
      var newState := s.(currentNumber := Some(nextNumber),
                         calledNumbers := s.calledNumbers + [nextNumber],
                         remainingNumbers := s.remainingNumbers[1..],
                         callHistory := s.callHistory + [call],
                         lastCallTime := now);
      assert newState.calledNumbers + newState.remainingNumbers == s.calledNumbers + s.remainingNumbers;
      AutoMarked(newState, nextNumber)
  }

  /** Calling keeps the call order, and the count of called plus remaining
      numbers stays 75. */
  lemma CallNextKeepsCallOrder(s: BingoGameState, now: int)
    requires CallOrderKept(s)
    ensures CallOrderKept(CallNextNumber(s, now))
    ensures |CallNextNumber(s, now).calledNumbers| + |CallNextNumber(s, now).remainingNumbers| == TotalNumbers
  {
    CallOrderConsequences(CallNextNumber(s, now));
  }

  // ---------------------------------------------------------------------------
  // Claims and winners

  const ClaimReasons: seq<string> := [
    "Player not found",
    "Card not found",
    "Card not selected for play",
    "Invalid marked cells - numbers not called",
    "Pattern not completed",
    "Already won",
    "Maximum winners reached"
  ]

  predicate HasWon(winners: seq<Winner>, playerId: Id)
  {
    exists i :: 0 <= i < |winners| && winners[i].playerId == playerId
  }

  /** Check number k of validateBingoClaim passes (each check assumes the
      earlier ones found the player and the card). */
  predicate ClaimCheck(s: BingoGameState, playerId: Id, cardId: Id, m: Marks, k: int)
    requires 0 <= k < |ClaimReasons|
  {
    if k == 0 then playerId in s.players
    else if k == 1 then playerId in s.players && HasCard(s.players[playerId].cards, cardId)
    else if k == 2 then playerId in s.players && cardId in s.players[playerId].selectedCardIds
    else if k == 3 then
      playerId in s.players && FindCard(s.players[playerId].cards, cardId).Some? &&
      MarksLegal(FindCard(s.players[playerId].cards, cardId).value.grid, m, s.calledNumbers)
    else if k == 4 then Matches(m, s.currentPattern)
    else if k == 5 then !HasWon(s.winners, playerId)
    else |s.winners| < s.settings.maxWinners
  }

  datatype Claim = Valid | Invalid(reason: string)

  /** validateBingoClaim: the checks in their fixed order; the first that
      fails names the reason. */
  function ValidateBingoClaim(s: BingoGameState, playerId: Id, cardId: Id, m: Marks): (r: Claim)
    ensures r.Valid? <==> forall k :: 0 <= k < |ClaimReasons| ==> ClaimCheck(s, playerId, cardId, m, k)
    ensures r.Invalid? ==>
      exists k :: 0 <= k < |ClaimReasons| && r.reason == ClaimReasons[k] &&
        !ClaimCheck(s, playerId, cardId, m, k) && forall j :: 0 <= j < k ==> ClaimCheck(s, playerId, cardId, m, j)
  {
    if playerId !in s.players then
      assert !ClaimCheck(s, playerId, cardId, m, 0);
      Invalid(ClaimReasons[0])
    else
      var player := s.players[playerId];
      match FindCard(player.cards, cardId)
      case None =>
        assert ClaimCheck(s, playerId, cardId, m, 0) && !ClaimCheck(s, playerId, cardId, m, 1);
        Invalid(ClaimReasons[1])
      case Some(card) =>
        assert ClaimCheck(s, playerId, cardId, m, 0) && ClaimCheck(s, playerId, cardId, m, 1);
        if cardId !in player.selectedCardIds then
          assert !ClaimCheck(s, playerId, cardId, m, 2);
          Invalid(ClaimReasons[2])
        else if !MarksLegal(card.grid, m, s.calledNumbers) then
          assert !ClaimCheck(s, playerId, cardId, m, 3);
          Invalid(ClaimReasons[3])
        else if !Matches(m, s.currentPattern) then
          assert !ClaimCheck(s, playerId, cardId, m, 4);
          Invalid(ClaimReasons[4])
        else if exists i :: 0 <= i < |s.winners| && s.winners[i].playerId == playerId then
          assert !ClaimCheck(s, playerId, cardId, m, 5);
          Invalid(ClaimReasons[5])
        else if |s.winners| >= s.settings.maxWinners then
          assert !ClaimCheck(s, playerId, cardId, m, 6);
          Invalid(ClaimReasons[6])
        else
          assert forall k :: 0 <= k < |ClaimReasons| ==> ClaimCheck(s, playerId, cardId, m, k);
          Valid
  }

  /** addWinner: the winner takes the next place with the cells getWinningCells
      reports; the game finishes when only one winner is allowed or the
      maximum is reached. */
  function AddWinner(s: BingoGameState, playerId: Id, cardId: Id, m: Marks, now: int): (r: BingoGameState)
    ensures playerId !in s.players ==> r == s
    ensures playerId in s.players ==>
      r.winners == s.winners + [Winner(playerId, s.players[playerId].name, cardId, |s.winners| + 1, now,
                                       WinningCells(m, s.currentPattern))] &&
      (r.phase == Finished <==> !s.settings.allowMultipleWinners || |s.winners| + 1 >= s.settings.maxWinners ||
                                s.phase == Finished) &&
      (r.phase != Finished ==> r.phase == s.phase) &&
      r.(winners := s.winners, phase := s.phase) == s
  {
    if playerId !in s.players then s
    else
      var player := s.players[playerId];
      var winningPattern := WinningCells(m, s.currentPattern);
      var winner := Winner(playerId, player.name, cardId, |s.winners| + 1, now, winningPattern);
      var newWinners := s.winners + [winner];
      var shouldEnd := !s.settings.allowMultipleWinners || |newWinners| >= s.settings.maxWinners;
      s.(winners := newWinners, phase := if shouldEnd then Finished else s.phase)
  }

  /** A validated claim keeps the winner list well formed, and the recorded
      winning cells are all marked on the claimed grid. */
  lemma ValidClaimThenAddWinner(s: BingoGameState, playerId: Id, cardId: Id, m: Marks, now: int)
    requires WinnersWellFormed(s)
    requires ValidateBingoClaim(s, playerId, cardId, m).Valid?
    ensures WinnersWellFormed(AddWinner(s, playerId, cardId, m, now))
    ensures SubGrid(AddWinner(s, playerId, cardId, m, now).winners[|s.winners|].winningPattern, m)
  {
    assert ClaimCheck(s, playerId, cardId, m, 0);
    assert ClaimCheck(s, playerId, cardId, m, 4);
    assert ClaimCheck(s, playerId, cardId, m, 5);
    assert ClaimCheck(s, playerId, cardId, m, 6);
    WinningCellsMarked(m, s.currentPattern);
  }

  // ---------------------------------------------------------------------------
  // Phase changes

  /** startGame. */
  function StartGame(s: BingoGameState, now: int): (r: BingoGameState)
    ensures r.phase == Playing && r.lastCallTime == now
    ensures r.(phase := s.phase, lastCallTime := s.lastCallTime) == s
  {
    s.(phase := Playing, lastCallTime := now)
  }

  /** pauseGame. */
  function PauseGame(s: BingoGameState): (r: BingoGameState)
    ensures r.phase == Paused && r.(phase := s.phase) == s
  {
    s.(phase := Paused)
  }

  /** resumeGame. */
  function ResumeGame(s: BingoGameState, now: int): (r: BingoGameState)
    ensures r.phase == Playing && r.lastCallTime == now
    ensures r.(phase := s.phase, lastCallTime := s.lastCallTime) == s
  {
    s.(phase := Playing, lastCallTime := now)
  }

  /** Pausing and resuming a running game only moves the last call time. */
  lemma PauseThenResume(s: BingoGameState, now: int)
    requires s.phase == Playing
    ensures ResumeGame(PauseGame(s), now) == s.(lastCallTime := now)
  {
  }

  /** startTimeout: the break ends durationSeconds from now. */
  function StartTimeout(s: BingoGameState, durationSeconds: int, now: int): (r: BingoGameState)
    ensures r.phase == Timeout && r.timeoutEndTime == Some(now + durationSeconds * 1000)
    ensures r.(phase := s.phase, timeoutEndTime := s.timeoutEndTime) == s
  {
    s.(phase := Timeout, timeoutEndTime := Some(now + durationSeconds * 1000))
  }

  /** endTimeout. */
  function EndTimeout(s: BingoGameState, now: int): (r: BingoGameState)
    ensures r.phase == Playing && r.timeoutEndTime == None && r.lastCallTime == now
    ensures r.(phase := s.phase, timeoutEndTime := s.timeoutEndTime, lastCallTime := s.lastCallTime) == s
  {
    s.(phase := Playing, timeoutEndTime := None, lastCallTime := now)
  }

  /** A timeout taken during play and ended returns to play with no end time. */
  lemma TimeoutRoundTrip(s: BingoGameState, durationSeconds: int, start: int, now: int)
    requires s.phase == Playing && s.timeoutEndTime == None
    ensures EndTimeout(StartTimeout(s, durationSeconds, start), now) == s.(lastCallTime := now)
  {
  }

  /** A Partial<GameSettings>: the fields present overwrite. */
  datatype SettingsPatch = SettingsPatch(
    autoCall: Option<bool>,
    callInterval: Option<int>,
    allowMultipleWinners: Option<bool>,
    maxWinners: Option<int>,
    requireAllPlayersReady: Option<bool>,
    allowHighlightCalledNumbers: Option<bool>)

  function Pick<T>(patch: Option<T>, current: T): T
  {
    if patch.Some? then patch.value else current
  }

  /** updateSettings: `{ ...settings, ...patch }`. */
  function UpdateSettings(s: BingoGameState, patch: SettingsPatch): (r: BingoGameState)
    ensures r.(settings := s.settings) == s
    ensures r.settings.autoCall == Pick(patch.autoCall, s.settings.autoCall)
    ensures r.settings.callInterval == Pick(patch.callInterval, s.settings.callInterval)
    ensures r.settings.allowMultipleWinners == Pick(patch.allowMultipleWinners, s.settings.allowMultipleWinners)
    ensures r.settings.maxWinners == Pick(patch.maxWinners, s.settings.maxWinners)
    ensures r.settings.requireAllPlayersReady == Pick(patch.requireAllPlayersReady, s.settings.requireAllPlayersReady)
    ensures r.settings.allowHighlightCalledNumbers ==
      Pick(patch.allowHighlightCalledNumbers, s.settings.allowHighlightCalledNumbers)
  {
    var t := s.settings;
    s.(settings := GameSettings(
      Pick(patch.autoCall, t.autoCall),
      Pick(patch.callInterval, t.callInterval),
      Pick(patch.allowMultipleWinners, t.allowMultipleWinners),
      Pick(patch.maxWinners, t.maxWinners),
      Pick(patch.requireAllPlayersReady, t.requireAllPlayersReady),
      Pick(patch.allowHighlightCalledNumbers, t.allowHighlightCalledNumbers)))
  }

  /** An empty patch changes nothing. */
  lemma UpdateSettingsEmpty(s: BingoGameState)
    ensures UpdateSettings(s, SettingsPatch(None, None, None, None, None, None)) == s
  {
  }

  /** updatePattern. */
  function UpdatePattern(s: BingoGameState, pattern: Pattern): (r: BingoGameState)
    ensures r.currentPattern == pattern && r.(currentPattern := s.currentPattern) == s
  {
    s.(currentPattern := pattern)
  }

  // ---------------------------------------------------------------------------
  // Per-player switches

  /** toggleAutoMark. */
  function ToggleAutoMark(s: BingoGameState, playerId: Id, enabled: bool): (r: BingoGameState)
    ensures playerId !in s.players ==> r == s
    ensures playerId in s.players ==> r.players == s.players[playerId := s.players[playerId].(autoMark := enabled)]
    ensures r.(players := s.players) == s
  {
    if playerId !in s.players then s
    else s.(players := s.players[playerId := s.players[playerId].(autoMark := enabled)])
  }

  /** toggleHighlightCalledNumbers: switching on is refused when the host
      does not allow highlighting; switching off is always allowed. */
  function ToggleHighlightCalledNumbers(s: BingoGameState, playerId: Id, enabled: bool): (r: BingoGameState)
    ensures playerId !in s.players || (enabled && !s.settings.allowHighlightCalledNumbers) ==> r == s
    ensures playerId in s.players && (!enabled || s.settings.allowHighlightCalledNumbers) ==>
      r.players == s.players[playerId := s.players[playerId].(highlightCalledNumbers := enabled)]
    ensures r.(players := s.players) == s
  {
    if playerId !in s.players then s
    else if enabled && !s.settings.allowHighlightCalledNumbers then s
    else s.(players := s.players[playerId := s.players[playerId].(highlightCalledNumbers := enabled)])
  }

  // ---------------------------------------------------------------------------
  // Reset

  /** How resetGame treats one player. */
  predicate ResetPlayer(p: BingoPlayer, q: BingoPlayer, preserveCardSelections: bool)
  {
    if preserveCardSelections && |p.selectedCardIds| > 0 then
      q == p.(markedCells := FreshMarks(p.selectedCardIds), readyToPlay := true)
    else
      q == p.(cards := q.cards, selectedCardIds := [], markedCells := map[], readyToPlay := false) &&
      PoolOk(q.cards)
  }

  /** The body of resetGame's per-player map: a player with a selection keeps
      it with fresh grids and is ready, any other player gets a new pool. */
  method ResetOnePlayer(player: BingoPlayer, preserveCardSelections: bool, e: Entropy) returns (q: BingoPlayer, e': Entropy)
    ensures ResetPlayer(player, q, preserveCardSelections)
    ensures preserveCardSelections && |player.selectedCardIds| > 0 ==> e' == e
    ensures !(preserveCardSelections && |player.selectedCardIds| > 0) ==>
      (q.cards, e') == DrawnPool(CardPoolSize, e) && (|q.cards| < CardPoolSize ==> e'.draws == [])
    ensures e.draws == [] ==> e'.draws == []
  {
    e' := e;
    if preserveCardSelections && |player.selectedCardIds| > 0 {
      var freshMarkedCells := FreshMarksLoop(player.selectedCardIds);
      q := player.(markedCells := freshMarkedCells, readyToPlay := true);
    } else {
      var pool;
      pool, e' := GenerateCardPool(CardPoolSize, e);
      q := player.(cards := pool, selectedCardIds := [], markedCells := map[], readyToPlay := false);
    }
  }

  /** resetGame's loop over the players, one entropy stream threaded through. */
  method ResetPlayers(players: map<Id, BingoPlayer>, preserveCardSelections: bool, e: Entropy)
    returns (updatedPlayers: map<Id, BingoPlayer>, e': Entropy)
    ensures updatedPlayers.Keys == players.Keys
    ensures forall id :: id in players ==> ResetPlayer(players[id], updatedPlayers[id], preserveCardSelections)
    ensures forall id ::
      id in players && !(preserveCardSelections && |players[id].selectedCardIds| > 0) &&
      |updatedPlayers[id].cards| < CardPoolSize ==>
        e'.draws == []
  {
    updatedPlayers := map[];
    var todo := players.Keys;
    e' := e;
    while todo != {}
      invariant todo <= players.Keys
      invariant updatedPlayers.Keys == players.Keys - todo
      invariant forall id :: id in updatedPlayers ==> ResetPlayer(players[id], updatedPlayers[id], preserveCardSelections)
      invariant forall id ::
        id in updatedPlayers && !(preserveCardSelections && |players[id].selectedCardIds| > 0) &&
        |updatedPlayers[id].cards| < CardPoolSize ==>
          e'.draws == []
      decreases |todo|
    {
      var playerId :| playerId in todo;
      todo := todo - {playerId};
      var updated;
      updated, e' := ResetOnePlayer(players[playerId], preserveCardSelections, e');
      updatedPlayers := updatedPlayers[playerId := updated];
    }
  }

  /** resetGame: back to the lobby with a fresh call order; players with a
      selection keep it with fresh grids and stay ready, the others get a new
      pool and start over. */
  method ResetGame(s: BingoGameState, preserveCardSelections: bool, e: Entropy) returns (r: BingoGameState, e': Entropy)
    ensures r.phase == Lobby
    ensures r.players.Keys == s.players.Keys
    ensures forall id :: id in s.players ==> ResetPlayer(s.players[id], r.players[id], preserveCardSelections)
    ensures forall id ::
      id in s.players && !(preserveCardSelections && |s.players[id].selectedCardIds| > 0) &&
      |r.players[id].cards| < CardPoolSize ==>
        e'.draws == []
    ensures r.calledNumbers == [] && IsCallOrder(r.remainingNumbers) && CallOrderKept(r)
    ensures r.currentNumber == None && r.callHistory == [] && r.winners == []
    ensures r.lastCallTime == 0 && r.timeoutEndTime == None
    ensures r.(phase := s.phase, players := s.players, calledNumbers := s.calledNumbers,
               remainingNumbers := s.remainingNumbers, currentNumber := s.currentNumber,
               callHistory := s.callHistory, winners := s.winners, lastCallTime := s.lastCallTime,
               timeoutEndTime := s.timeoutEndTime) == s
  {
    var updatedPlayers, ent := ResetPlayers(s.players, preserveCardSelections, e);
    var numbers, rest := GenerateShuffledNumbers(ent.draws);
    r := s.(phase := Lobby, players := updatedPlayers, calledNumbers := [], remainingNumbers := numbers,
            currentNumber := None, callHistory := [], winners := [], lastCallTime := 0, timeoutEndTime := None);
    assert r.calledNumbers + r.remainingNumbers == numbers;
    e' := ent.(draws := rest);
  }

  // ---------------------------------------------------------------------------
  // Chat

  datatype ChatResult = ChatResult(state: BingoGameState, message: ChatMessage)

  /** addChatMessage: appends the message and drops the oldest one once the
      history would exceed MAX_CHAT_MESSAGES. */
  function AddChatMessage(s: BingoGameState, playerId: Id, playerName: string, content: string,
                          kind: ChatMessageType, messageId: Id, now: int): (r: ChatResult)
    ensures r.message == ChatMessage(messageId, playerId, playerName, kind, content, now)
    ensures r.state.(chatMessages := s.chatMessages) == s
    ensures var all := s.chatMessages + [r.message];
      r.state.chatMessages == if |all| > MaxChatMessages then all[1..] else all
  {
    var message := ChatMessage(messageId, playerId, playerName, kind, content, now);
    var newMessages := s.chatMessages + [message];
    var kept := if |newMessages| > MaxChatMessages then newMessages[1..] else newMessages;
    ChatResult(s.(chatMessages := kept), message)
  }

  /** The history stays within the bound, ends with the new message, and is
      the most recent part of the old history. */
  lemma ChatBounded(s: BingoGameState, playerId: Id, playerName: string, content: string,
                    kind: ChatMessageType, messageId: Id, now: int)
    requires |s.chatMessages| <= MaxChatMessages
    ensures var r := AddChatMessage(s, playerId, playerName, content, kind, messageId, now);
      var h := r.state.chatMessages;
      1 <= |h| <= MaxChatMessages && h[|h| - 1] == r.message &&
      h[..|h| - 1] == s.chatMessages[|s.chatMessages| - (|h| - 1)..]
  {
    var r := AddChatMessage(s, playerId, playerName, content, kind, messageId, now);
    var h := r.state.chatMessages;
    if |s.chatMessages| == MaxChatMessages {
      assert h == s.chatMessages[1..] + [r.message];
    }
  }

  // ---------------------------------------------------------------------------
  // Player statistics

  /** updatePlayerStats: refreshes name and connection, creating a zeroed
      record for an unknown persistent id; wins and games are kept. */
  function UpdatePlayerStats(s: BingoGameState, persistentId: string, playerName: string, connected: bool)
    : (r: BingoGameState)
    ensures persistentId in r.playerStats
    ensures var st := r.playerStats[persistentId];
      st.playerName == playerName && st.connected == connected &&
      if persistentId in s.playerStats then
        st == s.playerStats[persistentId].(playerName := playerName, connected := connected)
      else st == PlayerStats(persistentId, playerName, 0, 0, connected)
    ensures r.playerStats == s.playerStats[persistentId := r.playerStats[persistentId]]
    ensures r.(playerStats := s.playerStats) == s
  {
    var updatedStats :=
      if persistentId in s.playerStats then
        s.playerStats[persistentId].(playerName := playerName, connected := connected)
      else PlayerStats(persistentId, playerName, 0, 0, connected);
    s.(playerStats := s.playerStats[persistentId := updatedStats])
  }

  /** updatePlayerStatsConnection: only an existing record changes. */
  function UpdatePlayerStatsConnection(s: BingoGameState, persistentId: string, connected: bool): (r: BingoGameState)
    ensures persistentId !in s.playerStats ==> r == s
    ensures persistentId in s.playerStats ==>
      r.playerStats == s.playerStats[persistentId := s.playerStats[persistentId].(connected := connected)]
    ensures r.(playerStats := s.playerStats) == s
  {
    if persistentId !in s.playerStats then s
    else s.(playerStats := s.playerStats[persistentId := s.playerStats[persistentId].(connected := connected)])
  }

  /** incrementPlayerWins. */
  function IncrementPlayerWins(s: BingoGameState, persistentId: string): (r: BingoGameState)
    ensures persistentId !in s.playerStats ==> r == s
    ensures persistentId in s.playerStats ==>
      r.playerStats == s.playerStats[persistentId := s.playerStats[persistentId].(wins := s.playerStats[persistentId].wins + 1)]
    ensures r.(playerStats := s.playerStats) == s
  {
    if persistentId !in s.playerStats then s
    else s.(playerStats := s.playerStats[persistentId := s.playerStats[persistentId].(wins := s.playerStats[persistentId].wins + 1)])
  }

  /** A player counts for a game under key k: its persistent id is k (a
      non-empty string, since the empty string is falsy) and it has cards
      selected. */
  predicate PlaysUnder(p: BingoPlayer, k: string)
  {
    p.persistentId == Some(k) && k != "" && |p.selectedCardIds| > 0
  }

  /** The players among `ids` that count under key k. */
  function PlayersUnder(s: BingoGameState, ids: set<Id>, k: string): set<Id>
  {
    set id | id in ids && id in s.players && PlaysUnder(s.players[id], k)
  }

  /** Stats after incrementGamesPlayed has visited the players in `ids`. */
  function GamesPlayedAfter(s: BingoGameState, ids: set<Id>): map<string, PlayerStats>
  {
    map k | k in s.playerStats ::
      s.playerStats[k].(gamesPlayed := s.playerStats[k].gamesPlayed + |PlayersUnder(s, ids, k)|)
  }

  lemma PlayersUnderStep(s: BingoGameState, ids: set<Id>, id: Id, k: string)
    requires id !in ids && id in s.players
    ensures |PlayersUnder(s, ids + {id}, k)| ==
      |PlayersUnder(s, ids, k)| + (if PlaysUnder(s.players[id], k) then 1 else 0)
  {
    if PlaysUnder(s.players[id], k) {
      assert PlayersUnder(s, ids + {id}, k) == PlayersUnder(s, ids, k) + {id};
    } else {
      assert PlayersUnder(s, ids + {id}, k) == PlayersUnder(s, ids, k);
    }
  }

  /** Before any player is visited the stats are unchanged. */
  lemma GamesPlayedNone(s: BingoGameState)
    ensures GamesPlayedAfter(s, {}) == s.playerStats
  {
    forall k | k in s.playerStats
      ensures GamesPlayedAfter(s, {})[k] == s.playerStats[k]
    {
      assert PlayersUnder(s, {}, k) == {};
    }
  }

  /** One visit of incrementGamesPlayed's loop body. */
  function BumpGames(stats: map<string, PlayerStats>, p: BingoPlayer): map<string, PlayerStats>
  {
    if p.persistentId.Some? && p.persistentId.value != "" && |p.selectedCardIds| > 0 &&
       p.persistentId.value in stats
    then stats[p.persistentId.value := stats[p.persistentId.value].(gamesPlayed := stats[p.persistentId.value].gamesPlayed + 1)]
    else stats
  }

  /** Visiting one more player bumps the record under its key, if it counts. */
  lemma GamesPlayedStep(s: BingoGameState, done: set<Id>, id: Id)
    requires id !in done && id in s.players
    ensures GamesPlayedAfter(s, done + {id}) == BumpGames(GamesPlayedAfter(s, done), s.players[id])
  {
    var after := GamesPlayedAfter(s, done + {id});
    var bumped := BumpGames(GamesPlayedAfter(s, done), s.players[id]);
    assert after.Keys == bumped.Keys;
    forall k | k in after
      ensures after[k] == bumped[k]
    {
      PlayersUnderStep(s, done, id, k);
    }
  }

  /** incrementGamesPlayed: each record gains one game per player counting
      under its key (two players sharing a persistent id count twice); other
      fields and unknown keys are untouched. */
  method IncrementGamesPlayed(s: BingoGameState) returns (r: BingoGameState)
    ensures r.playerStats == GamesPlayedAfter(s, s.players.Keys)
    ensures r.(playerStats := s.playerStats) == s
  {
    var updatedStats := s.playerStats;
    var todo := s.players.Keys;
    GamesPlayedNone(s);
    assert s.players.Keys - todo == {};
    while todo != {}
      invariant todo <= s.players.Keys
      invariant updatedStats == GamesPlayedAfter(s, s.players.Keys - todo)
      decreases |todo|
    {
      var playerId :| playerId in todo;
      var player := s.players[playerId];
      ghost var done := s.players.Keys - todo;
      GamesPlayedStep(s, done, playerId);
      ghost var expected := BumpGames(updatedStats, player);
      todo := todo - {playerId};
      assert s.players.Keys - todo == done + {playerId};
      if player.persistentId.Some? && player.persistentId.value != "" && |player.selectedCardIds| > 0 {
        var key := player.persistentId.value;
        if key in updatedStats {
          var stats := updatedStats[key];
          updatedStats := updatedStats[key := stats.(gamesPlayed := stats.gamesPlayed + 1)];
        }
      }
      assert updatedStats == expected;
    }
    assert s.players.Keys - todo == s.players.Keys;
    r := s.(playerStats := updatedStats);
  }

  // ---------------------------------------------------------------------------
  // What the reducers keep true of a session

  /** A player's selection is at most four cards of its own pool, and it has
      a marked grid for exactly the selected cards. */
  ghost predicate SelectionConsistent(p: BingoPlayer)
  {
    |p.selectedCardIds| <= MaxCards &&
    (forall x :: x in p.selectedCardIds ==> HasCard(p.cards, x)) &&
    (forall x :: x in p.markedCells <==> x in p.selectedCardIds)
  }

  /** Every player is stored under its own id and has a consistent selection. */
  ghost predicate PlayersWellKeyed(s: BingoGameState)
  {
    forall id :: id in s.players ==> s.players[id].id == id && SelectionConsistent(s.players[id])
  }

  ghost predicate StateOk(s: BingoGameState)
  {
    CallOrderKept(s) && WinnersWellFormed(s) && PlayersWellKeyed(s)
  }

  /** Naming the host touches nothing the well-formedness depends on. */
  lemma HostChangeKeepsStateOk(s: BingoGameState, hostId: Id)
    requires StateOk(s)
    ensures StateOk(s.(hostId := hostId))
  {
  }

  /** A session created without a host is still initial once one is named. */
  lemma InitialStateNamesHost(s: BingoGameState, roomId: string, hostId: Id)
    requires InitialState(s, roomId, "")
    ensures InitialState(s.(hostId := hostId), roomId, hostId)
  {
  }

  /** A fresh player has nothing selected and no grids. */
  lemma NewPlayerConsistent(s: BingoGameState, p: BingoPlayer)
    requires StateOk(s) && p.selectedCardIds == [] && p.markedCells == map[]
    ensures StateOk(AddPlayer(s, p))
  {
  }

  /** selectCards keeps the session well formed. */
  lemma SelectionKeepsStateOk(s: BingoGameState, playerId: Id, cardIds: seq<Id>)
    requires StateOk(s) && playerId in s.players
    ensures var p := s.players[playerId];
      var kept := AtMostMaxCards(OwnedIds(p.cards, cardIds));
      StateOk(s.(players := s.players[playerId := p.(selectedCardIds := kept, markedCells := FreshMarks(kept))]))
  {
    SelectionBounds(s.players[playerId], cardIds);
  }

  /** Marking keeps the session well formed: only a grid that exists changes. */
  lemma MarkCellKeepsStateOk(s: BingoGameState, playerId: Id, cardId: Id, row: int, col: int)
    requires StateOk(s)
    ensures StateOk(MarkCell(s, playerId, cardId, row, col))
  {
    var r := MarkCell(s, playerId, cardId, row, col);
    assert r.calledNumbers == s.calledNumbers && r.remainingNumbers == s.remainingNumbers;
    assert r.winners == s.winners && r.settings == s.settings;
    if CanMark(s, playerId, cardId, row, col) {
      var p := s.players[playerId];
      var q := r.players[playerId];
      assert q.markedCells.Keys == p.markedCells.Keys;
      assert SelectionConsistent(q);
    }
  }

  /** Calling a number keeps the session well formed. */
  lemma CallNextKeepsStateOk(s: BingoGameState, now: int)
    requires StateOk(s)
    ensures StateOk(CallNextNumber(s, now))
  {
    CallNextKeepsCallOrder(s, now);
    if s.remainingNumbers != [] {
      var x := s.remainingNumbers[0];
      var t := s.(currentNumber := Some(x), calledNumbers := s.calledNumbers + [x],
                  remainingNumbers := s.remainingNumbers[1..],
                  callHistory := s.callHistory + [NumberCall(x, ColumnForNumber(x), now)], lastCallTime := now);
      AutoMarkEffect(t, x);
      assert CallNextNumber(s, now) == AutoMarked(t, x);
    }
  }

  /** A winner admitted after a valid claim keeps the session well formed. */
  lemma AddWinnerKeepsStateOk(s: BingoGameState, playerId: Id, cardId: Id, m: Marks, now: int)
    requires StateOk(s)
    requires ValidateBingoClaim(s, playerId, cardId, m).Valid?
    ensures StateOk(AddWinner(s, playerId, cardId, m, now))
  {
    ValidClaimThenAddWinner(s, playerId, cardId, m, now);
  }

  /** Resetting a consistent player leaves it consistent, under the same id. */
  lemma ResetPlayerConsistent(p: BingoPlayer, q: BingoPlayer, preserveCardSelections: bool)
    requires SelectionConsistent(p) && ResetPlayer(p, q, preserveCardSelections)
    ensures SelectionConsistent(q) && q.id == p.id
  {
  }
}
