/** The room coordinator (party/bingoServer.ts): one object per room holding
    the session, the open connections and the two timers, with one method per
    inbound command. Outbound messages are appended to `outbox`; a timer is
    a flag saying whether it would be running, and what its callback does is
    not part of this model. */
module PartyServer {
  import opened BingoTypes
  import opened CardGenerator
  import GameEngine

  const NotAuthorized: string := "Not authorized"

  /** A message sent to one connection, or to every connection in `recipients`. */
  datatype Outbound =
    | Direct(to: Id, msg: ServerMessage)
    | ToAll(recipients: set<Id>, msg: ServerMessage)

  /** The commands the dispatch switch has no case for. */
  predicate Unhandled(m: ClientMessage)
  {
    m.ToggleHighlightCalledNumbers? || m.HostToggleAllowHighlight? || m.SendChatMessage? ||
    m.SendReaction? || m.PlayerUnready? || m.Other?
  }

  /** The host commands the dispatch switch handles. */
  predicate IsHostCommand(m: ClientMessage)
  {
    m.HostStartGame? || m.HostCallNext? || m.HostPause? || m.HostResume? || m.HostReset? ||
    m.HostSetPattern? || m.HostSetSpeed? || m.HostToggleAutoCall? || m.HostCreateTimeout? ||
    m.HostEndTimeout? || m.HostKickPlayer?
  }

  /** The host commands that act on the room rather than on the game flow:
      reset, the timeout pair and kicking a player. */
  predicate IsRoomCommand(m: ClientMessage)
  {
    m.HostReset? || m.HostCreateTimeout? || m.HostEndTimeout? || m.HostKickPlayer?
  }

  /** The speed clamp: `Math.max(2000, Math.min(10000, intervalMs))`. */
  function ClampInterval(intervalMs: int): (r: int)
    ensures MinCallInterval <= r <= MaxCallInterval
    ensures MinCallInterval <= intervalMs <= MaxCallInterval ==> r == intervalMs
    ensures intervalMs < MinCallInterval ==> r == MinCallInterval
    ensures intervalMs > MaxCallInterval ==> r == MaxCallInterval
  {
    var upper := if intervalMs < MaxCallInterval then intervalMs else MaxCallInterval;
    if upper > MinCallInterval then upper else MinCallInterval
  }

  /** The isHost flag of the init message: computed before the host is
      assigned, it is true for every connection while nobody has joined. */
  function InitIsHost(s: BingoGameState, connId: Id): bool
  {
    |s.players| == 0 || s.hostId == "" || s.hostId == connId
  }

  /** A second connection arriving before the host has joined is told it is
      the host, although the session's host stays the first connection. */
  lemma InitHostFlagCanDisagree(s: BingoGameState, first: Id, second: Id)
    requires s.players == map[] && first != "" && first != second
    ensures var t := s.(hostId := first);
      InitIsHost(t, second) && t.hostId != second
  {
  }

  /** hostStartGame needs at least one player with a selection. */
  predicate AnyoneSelected(s: BingoGameState)
  {
    exists id :: id in s.players && |s.players[id].selectedCardIds| > 0
  }

  class BingoServer {
    const roomId: string
    var state: Option<BingoGameState>
    var connections: set<Id>
    var autoCallActive: bool
    var timeoutTimerActive: bool
    var outbox: seq<Outbound>
    var entropy: Entropy

    /** No connection before the session exists; the auto-call ticker only
        runs while playing with auto-call on; the break timer runs exactly
        during a timeout; and the session itself is well formed. */
    ghost predicate Valid()
      reads this
    {
      (state.None? ==> connections == {} && !autoCallActive && !timeoutTimerActive) &&
      (state.Some? ==>
        GameEngine.StateOk(state.value) &&
        (autoCallActive ==> state.value.phase == Playing && state.value.settings.autoCall) &&
        (timeoutTimerActive <==> state.value.phase == Timeout))
    }

    constructor (roomId: string, e: Entropy)
      ensures Valid()
      ensures this.roomId == roomId && state == None && connections == {} && outbox == [] && entropy == e
      ensures !autoCallActive && !timeoutTimerActive
    {
      this.roomId := roomId;
      state := None;
      connections := {};
      autoCallActive := false;
      timeoutTimerActive := false;
      outbox := [];
      entropy := e;
    }

    /** isHost: the session exists and the sender is its host. */
    predicate IsHost(senderId: Id)
      reads this
    {
      state.Some? && state.value.hostId == senderId
    }

    /** What sendTo delivers: nothing when the connection is gone. */
    function Reply(to: Id, msg: ServerMessage): seq<Outbound>
      reads this
    {
      if to in connections then [Direct(to, msg)] else []
    }

    /** What broadcast delivers: the message to every open connection but
        the excluded one. */
    function Everyone(msg: ServerMessage, exclude: Option<Id>): Outbound
      reads this
    {
      ToAll(if exclude.Some? then connections - {exclude.value} else connections, msg)
    }

    method SendTo(to: Id, msg: ServerMessage)
      modifies this`outbox
      ensures outbox == old(outbox) + Reply(to, msg)
    {
      if to in connections {
        outbox := outbox + [Direct(to, msg)];
      }
    }

    method Broadcast(msg: ServerMessage, exclude: Option<Id>)
      modifies this`outbox
      ensures outbox == old(outbox) + [Everyone(msg, exclude)]
    {
      outbox := outbox + [Everyone(msg, exclude)];
    }

    /** startAutoCall: (re)starts the ticker only while playing with auto-call on. */
    method StartAutoCall()
      modifies this`autoCallActive
      ensures autoCallActive == (state.Some? && state.value.settings.autoCall && state.value.phase == Playing)
    {
      autoCallActive := false;
      if state.None? || !state.value.settings.autoCall {
        return;
      }
      if state.value.phase != Playing {
        return;
      }
      autoCallActive := true;
    }

    /** ensureState: the first connection creates the session with no host. */
    method EnsureState()
      requires Valid()
      modifies this`state, this`entropy
      ensures Valid() && state.Some?
      ensures old(state).Some? ==> state == old(state) && entropy == old(entropy)
      ensures old(state).None? ==> GameEngine.InitialState(state.value, roomId, "")
    {
      if state.None? {
        var s, e := GameEngine.CreateInitialState(roomId, "", entropy);
        state := Some(s);
        entropy := e;
      }
    }

    /** onConnect: registers the connection, makes it the host when there is
        none yet, and sends it the init message. */
    method OnConnect(connId: Id)
      requires Valid()
      modifies this`state, this`connections, this`outbox, this`entropy
      ensures Valid()
      ensures connections == old(connections) + {connId}
      ensures autoCallActive == old(autoCallActive) && timeoutTimerActive == old(timeoutTimerActive)
      ensures state.Some?
      ensures old(state).None? ==>
        GameEngine.InitialState(state.value, roomId, connId) &&
        outbox == old(outbox) + [Direct(connId, Init(connId, true, state.value))]
      ensures old(state).Some? ==>
        var s := old(state.value);
        state == Some(if s.hostId == "" then s.(hostId := connId) else s) &&
        outbox == old(outbox) + [Direct(connId, Init(connId, InitIsHost(s, connId), state.value))] &&
        entropy == old(entropy)
    {
      ghost var wasOpen := state.Some?;
      EnsureState();
      ghost var s := state.value;
      if !wasOpen {
        GameEngine.InitialStateNamesHost(s, roomId, connId);
      }
      AdmitConnection(connId);
    }

    /** The rest of onConnect once the session exists: the connection is
        registered, made the host when the session has none, and sent the
        init message with the isHost flag computed beforehand. */
    method AdmitConnection(connId: Id)
      requires Valid() && state.Some?
      modifies this`state, this`connections, this`outbox
      ensures Valid()
      ensures connections == old(connections) + {connId}
      ensures var s := old(state.value);
        state == Some(if s.hostId == "" then s.(hostId := connId) else s) &&
        outbox == old(outbox) + [Direct(connId, Init(connId, InitIsHost(s, connId), state.value))]
    {
      var s := state.value;
      connections := connections + {connId};
      var isHost := |s.players| == 0 || s.hostId == "";
      if isHost && s.hostId == "" {
        GameEngine.HostChangeKeepsStateOk(s, connId);
        state := Some(s.(hostId := connId));
      }
      SendTo(connId, Init(connId, isHost || s.hostId == connId, state.value));
    }

    /** onClose: a soft disconnect; the player stays, marked disconnected. */
    method OnClose(connId: Id)
      requires Valid()
      modifies this
      ensures Valid()
      ensures connections == old(connections) - {connId}
      ensures autoCallActive == old(autoCallActive) && timeoutTimerActive == old(timeoutTimerActive)
      ensures entropy == old(entropy)
      ensures old(state).Some? && connId in old(state.value.players) ==>
        state == Some(GameEngine.UpdatePlayerConnection(old(state.value), connId, false)) &&
        connId in state.value.players && !state.value.players[connId].connected &&
        outbox == old(outbox) + [Everyone(PlayerLeft(connId), None)]
      ensures !(old(state).Some? && connId in old(state.value.players)) ==>
        state == old(state) && outbox == old(outbox)
    {
      connections := connections - {connId};
      if state.Some? && connId in state.value.players {
        state := Some(GameEngine.UpdatePlayerConnection(state.value, connId, false));
        Broadcast(PlayerLeft(connId), None);
      }
    }

    /** What the dispatch switch does with a parsed command: a command it has
        a case for has exactly the outcome of that case's handler; any other
        is answered with an error and changes nothing else. */
    twostate predicate CommandEffect(sender: Id, m: ClientMessage, now: int)
      reads this
    {
      match m
      case JoinRoom(playerName, _) => JoinRoomEffect(sender, playerName)
      case SelectCards(cardIds) => SelectCardsEffect(sender, cardIds)
      case RegenerateCards(_) => RegenerateCardsEffect(sender)
      case MarkCell(cardId, row, col) => MarkCellEffect(sender, cardId, row, col)
      case ClaimBingo(cardId, markedGrid) => ClaimBingoEffect(sender, cardId, markedGrid, now)
      case ToggleAutoMark(enabled) => ToggleAutoMarkEffect(sender, enabled)
      case PlayerReady => PlayerReadyEffect(sender)
      case HostStartGame => HostStartGameEffect(sender, now)
      case HostCallNext => HostCallNextEffect(sender, now)
      case HostPause => HostPauseEffect(sender)
      case HostResume => HostResumeEffect(sender, now)
      case HostReset => HostResetEffect(sender)
      case HostSetPattern(pattern) => HostSetPatternEffect(sender, pattern)
      case HostSetSpeed(intervalMs) => HostSetSpeedEffect(sender, intervalMs)
      case HostToggleAutoCall(enabled) => HostToggleAutoCallEffect(sender, enabled)
      case HostCreateTimeout(durationSeconds) => HostCreateTimeoutEffect(sender, durationSeconds, now)
      case HostEndTimeout => HostEndTimeoutEffect(sender, now)
      case HostKickPlayer(playerId) => HostKickPlayerEffect(sender, playerId)
      case _ =>
        state == old(state) && connections == old(connections) && entropy == old(entropy) &&
        autoCallActive == old(autoCallActive) && timeoutTimerActive == old(timeoutTimerActive) &&
        outbox == old(outbox) + Reply(sender, Error("Unknown message type"))
    }

    /** onMessage: ignores everything before the session exists, answers an
        unparsable message and the commands it has no case for with an
        error, and hands every other command to its handler. */
    method OnMessage(sender: Id, data: Option<ClientMessage>, now: int)
      requires Valid()
      modifies this
      ensures Valid()
      ensures old(outbox) <= outbox && connections <= old(connections)
      ensures old(state).None? ==> state == old(state) && outbox == old(outbox) && connections == old(connections)
      ensures old(state).Some? && data.None? ==>
        state == old(state) && outbox == old(outbox) + Reply(sender, Error("Invalid message format"))
      ensures old(state).Some? && data.Some? ==> CommandEffect(sender, data.value, now)
    {
      if state.None? {
        return;
      }
      if data.None? {
        SendTo(sender, Error("Invalid message format"));
        return;
      }
      if Unhandled(data.value) {
        SendTo(sender, Error("Unknown message type"));
      } else if IsHostCommand(data.value) {
        DispatchHostCommand(sender, data.value, now);
      } else {
        DispatchPlayerCommand(sender, data.value, now);
      }
    }

    /** The player cases of the dispatch switch. */
    method DispatchPlayerCommand(sender: Id, m: ClientMessage, now: int)
      requires Valid() && state.Some? && !Unhandled(m) && !IsHostCommand(m)
      modifies this
      ensures Valid()
      ensures old(outbox) <= outbox && connections <= old(connections)
      ensures CommandEffect(sender, m, now)
    {
      match m
      case JoinRoom(playerName, _) => HandleJoinRoom(sender, playerName);
      case SelectCards(cardIds) => HandleSelectCards(sender, cardIds);
      case RegenerateCards(_) => HandleRegenerateCards(sender);
      case MarkCell(cardId, row, col) => HandleMarkCell(sender, cardId, row, col);
      case ClaimBingo(cardId, markedGrid) => HandleClaimBingo(sender, cardId, markedGrid, now);
      case ToggleAutoMark(enabled) => HandleToggleAutoMark(sender, enabled);
      case PlayerReady => HandlePlayerReady(sender);
    }

    /** The host cases of the dispatch switch. */
    method DispatchHostCommand(sender: Id, m: ClientMessage, now: int)
      requires Valid() && state.Some? && IsHostCommand(m)
      modifies this
      ensures Valid()
      ensures old(outbox) <= outbox && connections <= old(connections)
      ensures CommandEffect(sender, m, now)
    {
      if IsRoomCommand(m) {
        DispatchRoomCommand(sender, m, now);
        return;
      }
      match m
      case HostStartGame => HandleHostStartGame(sender, now);
      case HostCallNext => HandleHostCallNext(sender, now);
      case HostPause => HandleHostPause(sender);
      case HostResume => HandleHostResume(sender, now);
      case HostSetPattern(pattern) => HandleHostSetPattern(sender, pattern);
      case HostSetSpeed(intervalMs) => HandleHostSetSpeed(sender, intervalMs);
      case HostToggleAutoCall(enabled) => HandleHostToggleAutoCall(sender, enabled);
    }

    /** The reset, timeout and kick cases of the dispatch switch. */
    method DispatchRoomCommand(sender: Id, m: ClientMessage, now: int)
      requires Valid() && state.Some? && IsRoomCommand(m)
      modifies this
      ensures Valid()
      ensures old(outbox) <= outbox && connections <= old(connections)
      ensures CommandEffect(sender, m, now)
    {
      match m
      case HostReset => HandleHostReset(sender);
      case HostCreateTimeout(durationSeconds) => HandleHostCreateTimeout(sender, durationSeconds, now);
      case HostEndTimeout => HandleHostEndTimeout(sender, now);
      case HostKickPlayer(playerId) => HandleHostKickPlayer(sender, playerId);
    }

    // -------------------------------------------------------------------------
    // Player commands

    /** The outcome of handleJoinRoom, relating the room before and after it. */
    twostate predicate JoinRoomEffect(sender: Id, playerName: string)
      reads this
    {
      connections == old(connections) && old(outbox) <= outbox &&
      autoCallActive == old(autoCallActive) && timeoutTimerActive == old(timeoutTimerActive) &&
      (old(state).None? ==> state == old(state) && outbox == old(outbox)) &&
      (old(state).Some? && sender in old(state.value.players) ==>
        state == Some(GameEngine.UpdatePlayerConnection(old(state.value), sender, true)) &&
        outbox == old(outbox) + [Everyone(GameState(state.value), None)]) &&
      (old(state).Some? && sender !in old(state.value.players) ==>
        var s := old(state.value);
        var wasHost := s.hostId == "" || s.hostId == sender;
        state.Some? && sender in state.value.players &&
        var p := state.value.players[sender];
        p.id == sender && p.name == playerName && p.isHost == wasHost && p.persistentId == None &&
        p.connected && p.selectedCardIds == [] && p.markedCells == map[] &&
        !p.autoMark && !p.readyToPlay && p.highlightCalledNumbers && GameEngine.PoolOk(p.cards) &&
        (|p.cards| < CardPoolSize ==> entropy.draws == []) &&
        state.value == s.(hostId := if wasHost then sender else s.hostId, players := s.players[sender := p]) &&
        outbox == old(outbox) + Reply(sender, CardPool(p.cards)) + [Everyone(PlayerJoined(p), Some(sender))] +
                  Reply(sender, GameState(state.value)))
    }

    /** handleJoinRoom: a known id reconnects; a new one becomes a player
        (the host when there is none or it is the host), gets its pool and
        the state, and everyone else hears of it. The persistent id of the
        command is not passed on. */
    method HandleJoinRoom(sender: Id, playerName: string)
      requires Valid()
      modifies this
      ensures Valid()
      ensures JoinRoomEffect(sender, playerName)
    {
      if state.None? {
        return;
      }
      if sender in state.value.players {
        state := Some(GameEngine.UpdatePlayerConnection(state.value, sender, true));
        Broadcast(GameState(state.value), None);
        return;
      }
      AdmitPlayer(sender, playerName);
    }

    /** The new-player branch of handleJoinRoom. */
    method AdmitPlayer(sender: Id, playerName: string)
      requires Valid() && state.Some? && sender !in state.value.players
      modifies this
      ensures Valid()
      ensures JoinRoomEffect(sender, playerName)
    {
      var isHost := state.value.hostId == "" || state.value.hostId == sender;
      var player, e := GameEngine.CreatePlayer(sender, playerName, isHost, None, entropy);
      entropy := e;
      if isHost {
        state := Some(state.value.(hostId := sender));
      }
      GameEngine.NewPlayerConsistent(state.value, player);
      state := Some(GameEngine.AddPlayer(state.value, player));
      SendTo(sender, CardPool(player.cards));
      Broadcast(PlayerJoined(player), Some(sender));
      SendTo(sender, GameState(state.value));
    }

    /** The outcome of handleSelectCards, relating the room before and after it. */
    twostate predicate SelectCardsEffect(sender: Id, cardIds: seq<Id>)
      reads this
    {
      connections == old(connections) && entropy == old(entropy) && old(outbox) <= outbox &&
      autoCallActive == old(autoCallActive) && timeoutTimerActive == old(timeoutTimerActive) &&
      (old(state).None? ==> state == old(state) && outbox == old(outbox)) &&
      (old(state).Some? && sender !in old(state.value.players) ==>
        state == old(state) && outbox == old(outbox)) &&
      (old(state).Some? && sender in old(state.value.players) ==>
        var s := old(state.value);
        var p := s.players[sender];
        var kept := GameEngine.AtMostMaxCards(GameEngine.OwnedIds(p.cards, cardIds));
        state == Some(s.(players := s.players[sender := p.(selectedCardIds := kept,
                                                            markedCells := GameEngine.FreshMarks(kept))])) &&
        outbox == old(outbox) + [Everyone(PlayerUpdated(state.value.players[sender]), None)])
    }

    /** handleSelectCards: no phase check; the selection is filtered and
        truncated by the reducer and announced. */
    method HandleSelectCards(sender: Id, cardIds: seq<Id>)
      requires Valid()
      modifies this
      ensures Valid()
      ensures SelectCardsEffect(sender, cardIds)
    {
      if state.None? {
        return;
      }
      if sender in state.value.players {
        GameEngine.SelectionKeepsStateOk(state.value, sender, cardIds);
      }
      var s := GameEngine.SelectCards(state.value, sender, cardIds);
      state := Some(s);
      if sender in s.players {
        Broadcast(PlayerUpdated(s.players[sender]), None);
      }
    }

    /** The outcome of handleRegenerateCards, relating the room before and after it. */
    twostate predicate RegenerateCardsEffect(sender: Id)
      reads this
    {
      connections == old(connections) && old(outbox) <= outbox &&
      autoCallActive == old(autoCallActive) && timeoutTimerActive == old(timeoutTimerActive) &&
      (old(state).None? ==> state == old(state) && outbox == old(outbox)) &&
      (old(state).Some? && old(state.value.phase) != Lobby && old(state.value.phase) != Timeout ==>
        state == old(state) && outbox == old(outbox) + Reply(sender, Error("Cannot regenerate cards now"))) &&
      (old(state).Some? && (old(state.value.phase) == Lobby || old(state.value.phase) == Timeout) ==>
        (sender !in old(state.value.players) ==> state == old(state) && outbox == old(outbox)) &&
        (sender in old(state.value.players) ==>
          var s := old(state.value);
          var p := s.players[sender];
          state.Some? && sender in state.value.players &&
          var q := state.value.players[sender];
          state.value == s.(players := s.players[sender := q]) &&
          q == p.(cards := q.cards, selectedCardIds := [], markedCells := map[], readyToPlay := false) &&
          GameEngine.PoolOk(q.cards) && (|q.cards| < CardPoolSize ==> entropy.draws == []) &&
          outbox == old(outbox) + Reply(sender, CardPool(q.cards)) + [Everyone(PlayerUpdated(q), None)]))
    }

    /** handleRegenerateCards: only in the lobby or during a timeout, and
        always a full regeneration (the preserve flag of the command is not
        passed on). */
    method HandleRegenerateCards(sender: Id)
      requires Valid()
      modifies this
      ensures Valid()
      ensures RegenerateCardsEffect(sender)
    {
      if state.None? {
        return;
      }
      if state.value.phase != Lobby && state.value.phase != Timeout {
        SendTo(sender, Error("Cannot regenerate cards now"));
        return;
      }
      var s, e := GameEngine.RegenerateCards(state.value, sender, false, entropy);
      state := Some(s);
      entropy := e;
      if sender in s.players {
        SendTo(sender, CardPool(s.players[sender].cards));
        Broadcast(PlayerUpdated(s.players[sender]), None);
      }
    }

    /** The outcome of handleMarkCell, relating the room before and after it. */
    twostate predicate MarkCellEffect(sender: Id, cardId: Id, row: int, col: int)
      reads this
    {
      connections == old(connections) && entropy == old(entropy) && old(outbox) <= outbox &&
      autoCallActive == old(autoCallActive) && timeoutTimerActive == old(timeoutTimerActive) &&
      (old(state).None? || old(state.value.phase) != Playing ==> state == old(state) && outbox == old(outbox)) &&
      (old(state).Some? && old(state.value.phase) == Playing &&
              GameEngine.MarkCellThrows(old(state.value), sender, cardId, row) ==>
        state == old(state) && outbox == old(outbox)) &&
      (old(state).Some? && old(state.value.phase) == Playing &&
              !GameEngine.MarkCellThrows(old(state.value), sender, cardId, row) ==>
        state == Some(GameEngine.MarkCell(old(state.value), sender, cardId, row, col)) &&
        outbox == old(outbox) +
          (if sender in state.value.players then [Everyone(PlayerUpdated(state.value.players[sender]), None)] else []))
    }

    /** handleMarkCell: silently ignored unless playing; when markCell throws
        on a row off the card, the handler ends there and sends nothing. */
    method HandleMarkCell(sender: Id, cardId: Id, row: int, col: int)
      requires Valid()
      modifies this
      ensures Valid()
      ensures MarkCellEffect(sender, cardId, row, col)
    {
      if state.None? {
        return;
      }
      if state.value.phase != Playing || GameEngine.MarkCellThrows(state.value, sender, cardId, row) {
        return;
      }
      GameEngine.MarkCellKeepsStateOk(state.value, sender, cardId, row, col);
      state := Some(GameEngine.MarkCell(state.value, sender, cardId, row, col));
      if sender in state.value.players {
        Broadcast(PlayerUpdated(state.value.players[sender]), None);
      }
    }

    /** The outcome of handleClaimBingo, relating the room before and after it. */
    twostate predicate ClaimBingoEffect(sender: Id, cardId: Id, markedGrid: Marks, now: int)
      reads this
    {
      connections == old(connections) && entropy == old(entropy) && old(outbox) <= outbox &&
      timeoutTimerActive == old(timeoutTimerActive) &&
      (old(state).None? ==> state == old(state) && outbox == old(outbox) && autoCallActive == old(autoCallActive)) &&
      (old(state).Some? && old(state.value.phase) != Playing ==>
        state == old(state) && autoCallActive == old(autoCallActive) &&
        outbox == old(outbox) + Reply(sender, Error("Game not in progress"))) &&
      (old(state).Some? && old(state.value.phase) == Playing ==>
        var claim := GameEngine.ValidateBingoClaim(old(state.value), sender, cardId, markedGrid);
        (claim.Invalid? ==>
          state == old(state) && autoCallActive == old(autoCallActive) &&
          outbox == old(outbox) + [Everyone(BingoInvalid(sender, claim.reason), None)]) &&
        (claim.Valid? ==>
          state == Some(GameEngine.AddWinner(old(state.value), sender, cardId, markedGrid, now)) &&
          |state.value.winners| == |old(state.value.winners)| + 1 &&
          autoCallActive == (old(autoCallActive) && state.value.phase != Finished) &&
          outbox == old(outbox) + [Everyone(BingoValidated(state.value.winners[|state.value.winners| - 1]), None),
                                   Everyone(GameState(state.value), None)]))
    }

    /** handleClaimBingo: refused outside play; an invalid claim is announced
        with its reason and changes nothing; a valid one records the winner,
        stops the ticker when the game is over, and is announced. */
    method HandleClaimBingo(sender: Id, cardId: Id, markedGrid: Marks, now: int)
      requires Valid()
      modifies this
      ensures Valid()
      ensures ClaimBingoEffect(sender, cardId, markedGrid, now)
    {
      if state.None? {
        return;
      }
      if state.value.phase != Playing {
        SendTo(sender, Error("Game not in progress"));
        return;
      }
      var validation := GameEngine.ValidateBingoClaim(state.value, sender, cardId, markedGrid);
      if validation.Invalid? {
        Broadcast(BingoInvalid(sender, validation.reason), None);
        return;
      }
      RecordWinner(sender, cardId, markedGrid, now);
    }

    /** The accepted branch of handleClaimBingo: the winner is added, the
        automatic calling stops once the game has finished, and everyone
        hears of the winner and then of the new state. */
    method RecordWinner(sender: Id, cardId: Id, markedGrid: Marks, now: int)
      requires Valid() && state.Some? && state.value.phase == Playing
      requires GameEngine.ValidateBingoClaim(state.value, sender, cardId, markedGrid).Valid?
      modifies this
      ensures Valid()
      ensures connections == old(connections) && entropy == old(entropy)
      ensures timeoutTimerActive == old(timeoutTimerActive)
      ensures state == Some(GameEngine.AddWinner(old(state.value), sender, cardId, markedGrid, now))
      ensures |state.value.winners| == |old(state.value.winners)| + 1
      ensures autoCallActive == (old(autoCallActive) && state.value.phase != Finished)
      ensures outbox == old(outbox) + [Everyone(BingoValidated(state.value.winners[|state.value.winners| - 1]), None),
                                       Everyone(GameState(state.value), None)]
    {
      GameEngine.AddWinnerKeepsStateOk(state.value, sender, cardId, markedGrid, now);
      assert GameEngine.ClaimCheck(state.value, sender, cardId, markedGrid, 0);
      state := Some(GameEngine.AddWinner(state.value, sender, cardId, markedGrid, now));
      var winner := state.value.winners[|state.value.winners| - 1];
      Broadcast(BingoValidated(winner), None);
      if state.value.phase == Finished {
        autoCallActive := false;
      }
      Broadcast(GameState(state.value), None);
    }

    /** The outcome of handleToggleAutoMark, relating the room before and after it. */
    twostate predicate ToggleAutoMarkEffect(sender: Id, enabled: bool)
      reads this
    {
      connections == old(connections) && entropy == old(entropy) && old(outbox) <= outbox &&
      autoCallActive == old(autoCallActive) && timeoutTimerActive == old(timeoutTimerActive) &&
      (old(state).None? ==> state == old(state) && outbox == old(outbox)) &&
      (old(state).Some? ==>
        state == Some(GameEngine.ToggleAutoMark(old(state.value), sender, enabled)) &&
        outbox == old(outbox) +
          (if sender in state.value.players then [Everyone(PlayerUpdated(state.value.players[sender]), None)] else []))
    }

    /** handleToggleAutoMark. */
    method HandleToggleAutoMark(sender: Id, enabled: bool)
      requires Valid()
      modifies this
      ensures Valid()
      ensures ToggleAutoMarkEffect(sender, enabled)
    {
      if state.None? {
        return;
      }
      state := Some(GameEngine.ToggleAutoMark(state.value, sender, enabled));
      if sender in state.value.players {
        Broadcast(PlayerUpdated(state.value.players[sender]), None);
      }
    }

    /** The outcome of handlePlayerReady, relating the room before and after it. */
    twostate predicate PlayerReadyEffect(sender: Id)
      reads this
    {
      connections == old(connections) && entropy == old(entropy) && old(outbox) <= outbox &&
      autoCallActive == old(autoCallActive) && timeoutTimerActive == old(timeoutTimerActive) &&
      (!(old(state).Some? && sender in old(state.value.players) &&
                |old(state.value.players[sender].selectedCardIds)| > 0) ==>
        state == old(state) && outbox == old(outbox)) &&
      (old(state).Some? && sender in old(state.value.players) &&
              |old(state.value.players[sender].selectedCardIds)| > 0 ==>
        var s := old(state.value);
        state == Some(s.(players := s.players[sender := s.players[sender].(readyToPlay := true)])) &&
        outbox == old(outbox) + [Everyone(PlayerUpdated(state.value.players[sender]), None)])
    }

    /** handlePlayerReady: only a player with a selection can be ready. */
    method HandlePlayerReady(sender: Id)
      requires Valid()
      modifies this
      ensures Valid()
      ensures PlayerReadyEffect(sender)
    {
      if state.None? {
        return;
      }
      if sender in state.value.players && |state.value.players[sender].selectedCardIds| > 0 {
        var s := state.value;
        state := Some(s.(players := s.players[sender := s.players[sender].(readyToPlay := true)]));
        Broadcast(PlayerUpdated(state.value.players[sender]), None);
      }
    }

    // -------------------------------------------------------------------------
    // Host commands: each first refuses a sender that is not the host

    /** The outcome of handleHostStartGame, relating the room before and after it. */
    twostate predicate HostStartGameEffect(sender: Id, now: int)
      reads this
    {
      connections == old(connections) && entropy == old(entropy) && old(outbox) <= outbox &&
      timeoutTimerActive == old(timeoutTimerActive) &&
      (!old(IsHost(sender)) ==>
        state == old(state) && autoCallActive == old(autoCallActive) &&
        outbox == old(outbox) + Reply(sender, Error(NotAuthorized))) &&
      (old(IsHost(sender)) && old(state.value.phase) != Lobby ==>
        state == old(state) && autoCallActive == old(autoCallActive) &&
        outbox == old(outbox) + Reply(sender, Error("Game already started"))) &&
      (old(IsHost(sender)) && old(state.value.phase) == Lobby && !AnyoneSelected(old(state.value)) ==>
        state == old(state) && autoCallActive == old(autoCallActive) &&
        outbox == old(outbox) + Reply(sender, Error("No players ready"))) &&
      (old(IsHost(sender)) && old(state.value.phase) == Lobby && AnyoneSelected(old(state.value)) ==>
        state == Some(GameEngine.StartGame(old(state.value), now)) &&
        autoCallActive == state.value.settings.autoCall &&
        outbox == old(outbox) + [Everyone(GameStarted(state.value), None)])
    }

    /** handleHostStartGame: only from the lobby and only when some player
        has selected cards. */
    method HandleHostStartGame(sender: Id, now: int)
      requires Valid()
      modifies this
      ensures Valid()
      ensures HostStartGameEffect(sender, now)
    {
      if !IsHost(sender) {
        SendTo(sender, Error(NotAuthorized));
        return;
      }
      if state.None? || state.value.phase != Lobby {
        SendTo(sender, Error("Game already started"));
        return;
      }
      if !AnyoneSelected(state.value) {
        SendTo(sender, Error("No players ready"));
        return;
      }
      state := Some(GameEngine.StartGame(state.value, now));
      Broadcast(GameStarted(state.value), None);
      if state.value.settings.autoCall {
        StartAutoCall();
      }
    }

    /** The outcome of handleHostCallNext, relating the room before and after it. */
    twostate predicate HostCallNextEffect(sender: Id, now: int)
      reads this
    {
      connections == old(connections) && entropy == old(entropy) && old(outbox) <= outbox &&
      autoCallActive == old(autoCallActive) && timeoutTimerActive == old(timeoutTimerActive) &&
      (!old(IsHost(sender)) ==> state == old(state) && outbox == old(outbox) + Reply(sender, Error(NotAuthorized))) &&
      (old(IsHost(sender)) && old(state.value.phase) != Playing ==> state == old(state) && outbox == old(outbox)) &&
      (old(IsHost(sender)) && old(state.value.phase) == Playing && old(state.value.remainingNumbers) == [] ==>
        state == old(state) && outbox == old(outbox) + Reply(sender, Error("No more numbers"))) &&
      (old(IsHost(sender)) && old(state.value.phase) == Playing && old(state.value.remainingNumbers) != [] ==>
        state == Some(GameEngine.CallNextNumber(old(state.value), now)) &&
        state.value.currentNumber == Some(old(state.value.remainingNumbers[0])) &&
        outbox == old(outbox) + [Everyone(NumberCalled(state.value.callHistory[|state.value.callHistory| - 1], state.value), None)])
    }

    /** handleHostCallNext: silently ignored outside play; with nothing left
        the host is told so. */
    method HandleHostCallNext(sender: Id, now: int)
      requires Valid()
      modifies this
      ensures Valid()
      ensures HostCallNextEffect(sender, now)
    {
      if !IsHost(sender) {
        SendTo(sender, Error(NotAuthorized));
        return;
      }
      if state.None? || state.value.phase != Playing {
        return;
      }
      if state.value.remainingNumbers == [] {
        SendTo(sender, Error("No more numbers"));
        return;
      }
      GameEngine.CallNextKeepsStateOk(state.value, now);
      state := Some(GameEngine.CallNextNumber(state.value, now));
      var lastCall := state.value.callHistory[|state.value.callHistory| - 1];
      Broadcast(NumberCalled(lastCall, state.value), None);
    }

    /** The outcome of handleHostPause, relating the room before and after it. */
    twostate predicate HostPauseEffect(sender: Id)
      reads this
    {
      connections == old(connections) && entropy == old(entropy) && old(outbox) <= outbox &&
      timeoutTimerActive == old(timeoutTimerActive) &&
      (!old(IsHost(sender)) ==>
        state == old(state) && autoCallActive == old(autoCallActive) &&
        outbox == old(outbox) + Reply(sender, Error(NotAuthorized))) &&
      (old(IsHost(sender)) && old(state.value.phase) != Playing ==>
        state == old(state) && autoCallActive == old(autoCallActive) && outbox == old(outbox)) &&
      (old(IsHost(sender)) && old(state.value.phase) == Playing ==>
        state == Some(GameEngine.PauseGame(old(state.value))) && !autoCallActive &&
        outbox == old(outbox) + [Everyone(GamePaused, None), Everyone(GameState(state.value), None)])
    }

    /** handleHostPause: only from play; stops the ticker. */
    method HandleHostPause(sender: Id)
      requires Valid()
      modifies this
      ensures Valid()
      ensures HostPauseEffect(sender)
    {
      if !IsHost(sender) {
        SendTo(sender, Error(NotAuthorized));
        return;
      }
      if state.None? || state.value.phase != Playing {
        return;
      }
      autoCallActive := false;
      state := Some(GameEngine.PauseGame(state.value));
      Broadcast(GamePaused, None);
      Broadcast(GameState(state.value), None);
    }

    /** The outcome of handleHostResume, relating the room before and after it. */
    twostate predicate HostResumeEffect(sender: Id, now: int)
      reads this
    {
      connections == old(connections) && entropy == old(entropy) && old(outbox) <= outbox &&
      timeoutTimerActive == old(timeoutTimerActive) &&
      (!old(IsHost(sender)) ==>
        state == old(state) && autoCallActive == old(autoCallActive) &&
        outbox == old(outbox) + Reply(sender, Error(NotAuthorized))) &&
      (old(IsHost(sender)) && old(state.value.phase) != Paused ==>
        state == old(state) && autoCallActive == old(autoCallActive) && outbox == old(outbox)) &&
      (old(IsHost(sender)) && old(state.value.phase) == Paused ==>
        state == Some(GameEngine.ResumeGame(old(state.value), now)) &&
        autoCallActive == state.value.settings.autoCall &&
        outbox == old(outbox) + [Everyone(GameResumed(state.value), None)])
    }

    /** handleHostResume: only from a pause; restarts the ticker when
        auto-call is on. */
    method HandleHostResume(sender: Id, now: int)
      requires Valid()
      modifies this
      ensures Valid()
      ensures HostResumeEffect(sender, now)
    {
      if !IsHost(sender) {
        SendTo(sender, Error(NotAuthorized));
        return;
      }
      if state.None? || state.value.phase != Paused {
        return;
      }
      state := Some(GameEngine.ResumeGame(state.value, now));
      Broadcast(GameResumed(state.value), None);
      if state.value.settings.autoCall {
        StartAutoCall();
      }
    }

    /** Each connected player among `ids` is sent its own pool, nothing but
        pools of connected players among `ids` is sent, and nobody twice. */
    ghost predicate PoolsSent(sends: seq<Outbound>, s: BingoGameState, ids: set<Id>)
      reads this
    {
      (forall k :: 0 <= k < |sends| ==>
        sends[k].Direct? && sends[k].to in ids && sends[k].to in s.players && sends[k].to in connections &&
        sends[k].msg == CardPool(s.players[sends[k].to].cards)) &&
      (forall j, k :: 0 <= j < k < |sends| ==> sends[j].to != sends[k].to) &&
      (forall id :: id in ids && id in s.players && id in connections ==>
        Direct(id, CardPool(s.players[id].cards)) in sends)
    }

    /** Sending one more player, not visited before, its pool. */
    lemma PoolsSentStep(sends: seq<Outbound>, s: BingoGameState, ids: set<Id>, id: Id)
      requires PoolsSent(sends, s, ids) && id !in ids && id in s.players
      ensures PoolsSent(sends + Reply(id, CardPool(s.players[id].cards)), s, ids + {id})
    {
    }

    /** The loop of handleHostReset sending each player its new pool. */
    method SendPools(s: BingoGameState)
      modifies this`outbox
      ensures |old(outbox)| <= |outbox| && outbox[..|old(outbox)|] == old(outbox)
      ensures PoolsSent(outbox[|old(outbox)|..], s, s.players.Keys)
    {
      ghost var start := |outbox|;
      var todo := s.players.Keys;
      while todo != {}
        invariant todo <= s.players.Keys
        invariant start <= |outbox| && outbox[..start] == old(outbox)
        invariant PoolsSent(outbox[start..], s, s.players.Keys - todo)
        decreases |todo|
      {
        var playerId :| playerId in todo;
        ghost var sent := outbox[start..];
        PoolsSentStep(sent, s, s.players.Keys - todo, playerId);
        todo := todo - {playerId};
        SendTo(playerId, CardPool(s.players[playerId].cards));
        assert outbox[start..] == sent + Reply(playerId, CardPool(s.players[playerId].cards));
      }
    }

    /** The outcome of handleHostReset, relating the room before and after it. */
    twostate predicate HostResetEffect(sender: Id)
      reads this
    {
      connections == old(connections) && old(outbox) <= outbox &&
      (!old(IsHost(sender)) ==>
        state == old(state) && autoCallActive == old(autoCallActive) && timeoutTimerActive == old(timeoutTimerActive) &&
        outbox == old(outbox) + Reply(sender, Error(NotAuthorized))) &&
      (old(IsHost(sender)) ==>
        !autoCallActive && !timeoutTimerActive && state.Some? &&
        var s := old(state.value);
        var r := state.value;
        r.phase == Lobby && r.players.Keys == s.players.Keys &&
        (forall id :: id in s.players ==> GameEngine.ResetPlayer(s.players[id], r.players[id], true)) &&
        (forall id ::
          id in s.players && |s.players[id].selectedCardIds| == 0 && |r.players[id].cards| < CardPoolSize ==>
            entropy.draws == []) &&
        r.calledNumbers == [] && IsCallOrder(r.remainingNumbers) && r.currentNumber == None &&
        r.callHistory == [] && r.winners == [] && r.timeoutEndTime == None &&
        r.hostId == s.hostId && r.settings == s.settings && r.currentPattern == s.currentPattern &&
        r.lastCallTime == 0 && r.roomId == s.roomId && r.chatMessages == s.chatMessages &&
        r.playerStats == s.playerStats &&
        |outbox| > |old(outbox)| &&
        outbox[|outbox| - 1] == Everyone(GameReset(r), None) &&
        PoolsSent(outbox[|old(outbox)|..|outbox| - 1], r, r.players.Keys))
    }

    /** handleHostReset: stops both timers, resets the session keeping
        selections, sends every player its pool and announces the reset. */
    method HandleHostReset(sender: Id)
      requires Valid()
      modifies this
      ensures Valid()
      ensures HostResetEffect(sender)
    {
      if !IsHost(sender) {
        SendTo(sender, Error(NotAuthorized));
        return;
      }
      if state.None? {
        return;
      }
      autoCallActive := false;
      timeoutTimerActive := false;
      ghost var s0 := state.value;
      var s, e := GameEngine.ResetGame(state.value, true, entropy);
      forall id | id in s.players
        ensures s.players[id].id == id && GameEngine.SelectionConsistent(s.players[id])
      {
        GameEngine.ResetPlayerConsistent(s0.players[id], s.players[id], true);
      }
      assert GameEngine.StateOk(s);
      state := Some(s);
      entropy := e;
      SendPools(s);
      Broadcast(GameReset(s), None);
    }

    /** The outcome of handleHostSetPattern, relating the room before and after it. */
    twostate predicate HostSetPatternEffect(sender: Id, pattern: Pattern)
      reads this
    {
      connections == old(connections) && entropy == old(entropy) && old(outbox) <= outbox &&
      autoCallActive == old(autoCallActive) && timeoutTimerActive == old(timeoutTimerActive) &&
      (!old(IsHost(sender)) ==> state == old(state) && outbox == old(outbox) + Reply(sender, Error(NotAuthorized))) &&
      (old(IsHost(sender)) ==>
        state == Some(GameEngine.UpdatePattern(old(state.value), pattern)) &&
        outbox == old(outbox) + [Everyone(GameState(state.value), None)])
    }

    /** handleHostSetPattern: no phase check. */
    method HandleHostSetPattern(sender: Id, pattern: Pattern)
      requires Valid()
      modifies this
      ensures Valid()
      ensures HostSetPatternEffect(sender, pattern)
    {
      if !IsHost(sender) {
        SendTo(sender, Error(NotAuthorized));
        return;
      }
      if state.None? {
        return;
      }
      state := Some(GameEngine.UpdatePattern(state.value, pattern));
      Broadcast(GameState(state.value), None);
    }

    /** The outcome of handleHostSetSpeed, relating the room before and after it. */
    twostate predicate HostSetSpeedEffect(sender: Id, intervalMs: int)
      reads this
    {
      connections == old(connections) && entropy == old(entropy) && old(outbox) <= outbox &&
      timeoutTimerActive == old(timeoutTimerActive) &&
      (!old(IsHost(sender)) ==>
        state == old(state) && autoCallActive == old(autoCallActive) &&
        outbox == old(outbox) + Reply(sender, Error(NotAuthorized))) &&
      (old(IsHost(sender)) ==>
        var s := old(state.value);
        state == Some(s.(settings := s.settings.(callInterval := ClampInterval(intervalMs)))) &&
        autoCallActive == (old(autoCallActive) || (s.settings.autoCall && s.phase == Playing)) &&
        outbox == old(outbox) + [Everyone(GameState(state.value), None)])
    }

    /** handleHostSetSpeed: the interval is clamped to 2000..10000 ms and the
        ticker restarted when it should run. */
    method HandleHostSetSpeed(sender: Id, intervalMs: int)
      requires Valid()
      modifies this
      ensures Valid()
      ensures HostSetSpeedEffect(sender, intervalMs)
    {
      if !IsHost(sender) {
        SendTo(sender, Error(NotAuthorized));
        return;
      }
      if state.None? {
        return;
      }
      var clampedInterval := ClampInterval(intervalMs);
      state := Some(GameEngine.UpdateSettings(state.value,
        GameEngine.SettingsPatch(None, Some(clampedInterval), None, None, None, None)));
      Broadcast(GameState(state.value), None);
      if state.value.settings.autoCall && state.value.phase == Playing {
        StartAutoCall();
      }
    }

    /** The outcome of handleHostToggleAutoCall, relating the room before and after it. */
    twostate predicate HostToggleAutoCallEffect(sender: Id, enabled: bool)
      reads this
    {
      connections == old(connections) && entropy == old(entropy) && old(outbox) <= outbox &&
      timeoutTimerActive == old(timeoutTimerActive) &&
      (!old(IsHost(sender)) ==>
        state == old(state) && autoCallActive == old(autoCallActive) &&
        outbox == old(outbox) + Reply(sender, Error(NotAuthorized))) &&
      (old(IsHost(sender)) ==>
        var s := old(state.value);
        state == Some(s.(settings := s.settings.(autoCall := enabled))) &&
        autoCallActive == (enabled && s.phase == Playing) &&
        outbox == old(outbox) + [Everyone(GameState(state.value), None)])
    }

    /** handleHostToggleAutoCall: the ticker runs afterwards exactly when
        auto-call is switched on during play. */
    method HandleHostToggleAutoCall(sender: Id, enabled: bool)
      requires Valid()
      modifies this
      ensures Valid()
      ensures HostToggleAutoCallEffect(sender, enabled)
    {
      if !IsHost(sender) {
        SendTo(sender, Error(NotAuthorized));
        return;
      }
      if state.None? {
        return;
      }
      state := Some(GameEngine.UpdateSettings(state.value,
        GameEngine.SettingsPatch(Some(enabled), None, None, None, None, None)));
      Broadcast(GameState(state.value), None);
      if enabled && state.value.phase == Playing {
        StartAutoCall();
      } else {
        autoCallActive := false;
      }
    }

    /** The outcome of handleHostCreateTimeout, relating the room before and after it. */
    twostate predicate HostCreateTimeoutEffect(sender: Id, durationSeconds: int, now: int)
      reads this
    {
      connections == old(connections) && entropy == old(entropy) && old(outbox) <= outbox &&
      (!old(IsHost(sender)) ==>
        state == old(state) && autoCallActive == old(autoCallActive) && timeoutTimerActive == old(timeoutTimerActive) &&
        outbox == old(outbox) + Reply(sender, Error(NotAuthorized))) &&
      (old(IsHost(sender)) && old(state.value.phase) != Playing ==>
        state == old(state) && autoCallActive == old(autoCallActive) && timeoutTimerActive == old(timeoutTimerActive) &&
        outbox == old(outbox)) &&
      (old(IsHost(sender)) && old(state.value.phase) == Playing ==>
        state == Some(GameEngine.StartTimeout(old(state.value), durationSeconds, now)) &&
        !autoCallActive && timeoutTimerActive &&
        outbox == old(outbox) + [Everyone(TimeoutStarted(now + durationSeconds * 1000), None),
                                 Everyone(GameState(state.value), None)])
    }

    /** handleHostCreateTimeout: only from play; stops the ticker and starts
        the break timer. */
    method HandleHostCreateTimeout(sender: Id, durationSeconds: int, now: int)
      requires Valid()
      modifies this
      ensures Valid()
      ensures HostCreateTimeoutEffect(sender, durationSeconds, now)
    {
      if !IsHost(sender) {
        SendTo(sender, Error(NotAuthorized));
        return;
      }
      if state.None? || state.value.phase != Playing {
        return;
      }
      autoCallActive := false;
      state := Some(GameEngine.StartTimeout(state.value, durationSeconds, now));
      Broadcast(TimeoutStarted(state.value.timeoutEndTime.value), None);
      Broadcast(GameState(state.value), None);
      timeoutTimerActive := true;
    }

    /** The outcome of handleHostEndTimeout, relating the room before and after it. */
    twostate predicate HostEndTimeoutEffect(sender: Id, now: int)
      reads this
    {
      connections == old(connections) && entropy == old(entropy) && old(outbox) <= outbox &&
      (!old(IsHost(sender)) ==>
        state == old(state) && autoCallActive == old(autoCallActive) && timeoutTimerActive == old(timeoutTimerActive) &&
        outbox == old(outbox) + Reply(sender, Error(NotAuthorized))) &&
      (old(IsHost(sender)) && old(state.value.phase) != Timeout ==>
        state == old(state) && autoCallActive == old(autoCallActive) && timeoutTimerActive == old(timeoutTimerActive) &&
        outbox == old(outbox)) &&
      (old(IsHost(sender)) && old(state.value.phase) == Timeout ==>
        state == Some(GameEngine.EndTimeout(old(state.value), now)) &&
        !timeoutTimerActive && autoCallActive == state.value.settings.autoCall &&
        outbox == old(outbox) + [Everyone(TimeoutEnded, None), Everyone(GameState(state.value), None)])
    }

    /** handleHostEndTimeout: only during a timeout; stops the break timer
        and restarts the ticker when auto-call is on. */
    method HandleHostEndTimeout(sender: Id, now: int)
      requires Valid()
      modifies this
      ensures Valid()
      ensures HostEndTimeoutEffect(sender, now)
    {
      if !IsHost(sender) {
        SendTo(sender, Error(NotAuthorized));
        return;
      }
      if state.None? || state.value.phase != Timeout {
        return;
      }
      timeoutTimerActive := false;
      state := Some(GameEngine.EndTimeout(state.value, now));
      Broadcast(TimeoutEnded, None);
      Broadcast(GameState(state.value), None);
      if state.value.settings.autoCall {
        StartAutoCall();
      }
    }

    /** The outcome of handleHostKickPlayer, relating the room before and after it. */
    twostate predicate HostKickPlayerEffect(sender: Id, playerId: Id)
      reads this
    {
      entropy == old(entropy) && old(outbox) <= outbox &&
      autoCallActive == old(autoCallActive) && timeoutTimerActive == old(timeoutTimerActive) &&
      (!old(IsHost(sender)) ==>
        state == old(state) && connections == old(connections) &&
        outbox == old(outbox) + Reply(sender, Error(NotAuthorized))) &&
      (old(IsHost(sender)) && playerId == sender ==>
        state == old(state) && connections == old(connections) &&
        outbox == old(outbox) + Reply(sender, Error("Cannot kick yourself"))) &&
      (old(IsHost(sender)) && playerId != sender ==>
        state == Some(GameEngine.RemovePlayer(old(state.value), playerId)) &&
        playerId !in state.value.players &&
        connections == old(connections) - {playerId} &&
        outbox == old(outbox) + old(Reply(playerId, Kicked)) +
                  [Everyone(PlayerLeft(playerId), None), Everyone(GameState(state.value), None)])
    }

    /** handleHostKickPlayer: the host cannot kick itself; otherwise the
        player is told, its connection dropped and its entry removed. */
    method HandleHostKickPlayer(sender: Id, playerId: Id)
      requires Valid()
      modifies this
      ensures Valid()
      ensures HostKickPlayerEffect(sender, playerId)
    {
      if !IsHost(sender) {
        SendTo(sender, Error(NotAuthorized));
        return;
      }
      if state.None? {
        return;
      }
      if playerId == sender {
        SendTo(sender, Error("Cannot kick yourself"));
        return;
      }
      SendTo(playerId, Kicked);
      state := Some(GameEngine.RemovePlayer(state.value, playerId));
      connections := connections - {playerId};
      Broadcast(PlayerLeft(playerId), None);
      Broadcast(GameState(state.value), None);
    }
  }
}
