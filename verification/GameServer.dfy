/** The server object: managers, handlers, the close callback and the timers, as the code runs them. */
module GameServers {
  import opened Prelude
  import opened MessageCodec
  import opened Framing
  import opened Protocol
  import opened MatchQueues
  import opened PlayerStates
  import opened Repository
  import opened Sessions
  import opened Connections
  import opened Rooms
  import opened Ranking
  import opened ServerModel
  import opened WritePump
  import opened ServerStreams
  import opened Answers

  lemma IdsBound(players: map<int, Session>, p: int, session: Session)
    ensures Ids(players[p := session]) == Ids(players)[p := session.id]
  {
  }

  lemma IdsUnbound(players: map<int, Session>, p: int)
    ensures Ids(players - {p}) == Ids(players) - {p}
  {
  }

  lemma IdSetChanges(sessions: set<Session>, session: Session, all: map<Sid, Session>)
    requires Indexes(all, sessions)
    requires session.id in all && all[session.id] == session
    ensures IdSet(sessions + {session}) == IdSet(sessions) + {session.id}
    ensures IdSet(sessions - {session}) == IdSet(sessions) - {session.id}
  {
    assert forall s :: s in sessions && s.id == session.id ==> s == session;
  }

  lemma LiveAreServed(players: map<int, Session>, expired: set<Session>, all: map<Sid, Session>)
    requires Known(players, all) && Indexes(all, expired)
    ensures Live(players, expired) == Served(Ids(players), IdSet(expired))
  {
    forall p | p in players ensures players[p] in expired <==> Ids(players)[p] in IdSet(expired) {
    }
  }

  class GameServer {
    const proto: Proto
    const queue: MatchQueue
    const playerManager: PlayerManager
    const repository: MemoryPlayerStateRepository
    const rooms: RoomManager
    const connections: ConnectionManager
    const states: PlayerStateManager
    var nextPlayerId: int
    /** Every session ever accepted, by identity. */
    ghost var sessions: map<Sid, Session>
    /** The session objects in that index. */
    ghost var clients: set<Session>
    /** The value this object stands for. */
    ghost var model: Server

    /** The index and the set of session objects are one. */
    ghost predicate Indexed()
      reads this`sessions, this`clients
    {
      && Members(sessions, clients)
      && Indexes(sessions, clients)
    }

    /** Whatever session a table refers to is indexed. */
    ghost predicate Linked()
      reads this`sessions, playerManager, connections
    {
      && Known(playerManager.players, sessions)
      && Indexes(sessions, connections.sessions) && Indexes(sessions, playerManager.expired)
    }

    ghost predicate Wired()
      reads rooms, rooms.rooms.Values, repository
    {
      && rooms.playerManager == playerManager && rooms.repository == repository && rooms.Valid()
      && WellKeyed(repository.states)
    }

    /** The model is what the tables hold. */
    ghost predicate Mirrored()
      reads this, queue, playerManager, connections, states, repository, rooms, rooms.rooms.Values, sessions.Values
    {
      && model.proto == proto && model.nextPlayerId == nextPlayerId
      && model.queue == queue.View() && model.rooms == rooms.View()
      && model.players == Ids(playerManager.players) && model.conns == IdSet(connections.sessions)
      && model.states == states.states && model.repo == repository.states
      && model.sessions == Views(sessions) && model.gone == IdSet(playerManager.expired)
    }

    ghost predicate Valid()
      reads this, queue, playerManager, connections, states, repository, rooms, rooms.rooms.Values, sessions.Values
    {
      Registry(sessions) && Indexed() && Linked() && Wired() && Mirrored()
    }

    /** The room objects the server may change, apart from those it had before, are new. */
    twostate predicate OwnsMore()
      reads rooms
    {
      forall o :: o in rooms.owned && o !in old(rooms.owned) ==> fresh(o)
    }

    /** The sessions the code can still reach are those the model says. */
    lemma Reaching()
      requires Valid()
      ensures playerManager.Reach() == Served(model.players, model.gone)
    {
      LiveAreServed(playerManager.players, playerManager.expired, sessions);
    }

    constructor (proto: Proto)
      ensures Valid() && model == EmptyServer(proto)
    {
      this.proto := proto;
      queue := new MatchQueue();
      var pm := new PlayerManager();
      var repo := new MemoryPlayerStateRepository();
      playerManager, repository := pm, repo;
      rooms := new RoomManager(pm, repo);
      connections := new ConnectionManager();
      states := new PlayerStateManager();
      nextPlayerId := FIRST_PLAYER_ID;
      sessions, clients := map[], {};
      model := EmptyServer(proto);
    }

    // ---- Single steps, seen on the whole server; `hide` keeps the untouched parts out of each proof ----

    method Reply(session: Session, reply: Reply)
      requires Valid() && session in clients
      modifies this`model, session`writeQueue, session`inFlight, session`sent
      ensures Valid() && model == Answer(old(model), session.id, reply)
    {
      hide Registry, Views, Ids, IdSet, RoomManager.View, Indexed, Linked, Wired, SendTo;
      InModel(session);
      SendIn(session, proto.Encode(reply), sessions);
      model := Answer(model, session.id, reply);
      return;
    }

    method Touch(session: Session, now: int)
      requires Valid() && session in clients
      modifies this`model, session`lastActive
      ensures Valid() && session.id in old(model).sessions
      ensures model == Touched(old(model), session.id, now)
    {
      hide Registry, Views, Ids, IdSet, RoomManager.View, Indexed, Linked, Wired;
      InModel(session);
      TouchIn(session, now, sessions);
      model := Touched(model, session.id, now);
      return;
    }

    method SetPlayer(session: Session, p: int, token: string)
      requires Valid() && session in clients
      modifies this`model, session`playerId, session`token
      ensures Valid() && session.id in old(model).sessions
      ensures model == old(model).(sessions := old(model).sessions[session.id :=
                          old(model).sessions[session.id].(playerId := p, token := token)])
    {
      hide Registry, Views, Ids, IdSet, RoomManager.View, Indexed, Linked, Wired;
      InModel(session);
      BindIn(session, p, token, sessions);
      model := model.(sessions := model.sessions[session.id :=
                 model.sessions[session.id].(playerId := p, token := token)]);
      return;
    }

    method AddPlayer(p: int, session: Session)
      requires Valid() && session in clients
      modifies this`model, playerManager
      ensures Valid() && model == old(model).(players := old(model).players[p := session.id])
    {
      hide Registry, Views, Ids, IdSet, RoomManager.View, Indexed, Wired;
      InModel(session);
      IdsBound(playerManager.players, p, session);
      playerManager.AddPlayer(p, session);
      model := model.(players := model.players[p := session.id]);
      return;
    }

    method RemovePlayer(p: int)
      requires Valid()
      modifies this`model, playerManager
      ensures Valid() && model == old(model).(players := old(model).players - {p})
    {
      hide Registry, Views, Ids, IdSet, RoomManager.View, Indexed, Wired;
      IdsUnbound(playerManager.players, p);
      playerManager.RemovePlayer(p);
      model := model.(players := model.players - {p});
      return;
    }

    method AddSession(session: Session)
      requires Valid() && session in clients
      modifies this`model, connections
      ensures Valid() && model == old(model).(conns := old(model).conns + {session.id})
    {
      hide Registry, Views, Ids, IdSet, Known, RoomManager.View, Indexed, Wired;
      InModel(session);
      IdSetChanges(connections.sessions, session, sessions);
      connections.AddSession(session);
      model := model.(conns := model.conns + {session.id});
      return;
    }

    method RemoveSession(session: Session)
      requires Valid() && session in clients
      modifies this`model, connections
      ensures Valid() && model == old(model).(conns := old(model).conns - {session.id})
    {
      hide Registry, Views, Ids, IdSet, Known, RoomManager.View, Indexed, Wired;
      InModel(session);
      IdSetChanges(connections.sessions, session, sessions);
      connections.RemoveSession(session);
      model := model.(conns := model.conns - {session.id});
      return;
    }

    method SavePlayerState(state: PlayerState)
      requires Valid()
      modifies this`model, repository
      ensures Valid() && model == old(model).(repo := old(model).repo[state.playerId := state])
    {
      hide Registry, Views, Ids, IdSet, RoomManager.View, RoomManager.Valid, Indexed, Linked;
      repository.SavePlayerState(state);
      model := model.(repo := repository.states);
      return;
    }

    method Enqueued(p: int) returns (b: bool)
      requires Valid()
      ensures b <==> p in model.queue.members
    {
      b := queue.Contains(p);
    }

    method JoinQueue(p: int)
      requires Valid()
      modifies this`model, queue
      ensures Valid() && model == old(model).(queue := Joined(old(model).queue, p))
    {
      hide Registry, Views, Ids, IdSet, RoomManager.View, Indexed, Linked, Wired;
      queue.Join(p);
      model := model.(queue := queue.View());
      return;
    }

    method LeaveQueue(p: int)
      requires Valid()
      modifies this`model, queue
      ensures Valid() && model == old(model).(queue := Departed(old(model).queue, p))
    {
      hide Registry, Views, Ids, IdSet, RoomManager.View, Indexed, Linked, Wired;
      queue.Leave(p);
      model := model.(queue := queue.View());
      return;
    }

    method PopMatched() returns (players: seq<int>)
      requires Valid()
      modifies this`model, queue
      ensures Valid() && players == Popped(old(model).queue, ROOM_SIZE).0
      ensures model == old(model).(queue := Popped(old(model).queue, ROOM_SIZE).1)
    {
      hide Registry, Views, Ids, IdSet, RoomManager.View, Indexed, Linked, Wired, Popped;
      players := queue.TryPopMatchedPlayers(ROOM_SIZE);
      model := model.(queue := queue.View());
      return;
    }

    method CreateRoom(players: seq<int>) returns (ok: bool)
      requires Valid()
      modifies this`model, rooms, repository
      modifies clients`writeQueue, clients`inFlight, clients`sent
      ensures Valid() && OwnsMore()
      ensures RoomFor(old(model), players) == if ok then Ok(model) else Fault
    {
      hide Registry, Views, Notified, AssignRoom, Opened, WellKeyed, Ids, PlayerManager.Reach, Served, IdSet,
        RoomManager.View, Indexed, Linked, Known, Members;
      Reaching();
      RoomInModel(0);
      var r;
      ok, r := rooms.CreateRoom(players, proto, sessions, clients);
      model := model.(rooms := rooms.View(), repo := repository.states, sessions := Views(sessions));
      return;
    }

    method AddScoreTo(p: int, delta: int)
      requires Valid()
      modifies this`model, repository
      ensures Valid() && model == old(model).(repo := AddScore(old(model).repo, p, delta))
    {
      hide Registry, Views, Ids, IdSet, RoomManager.View, RoomManager.Valid, Indexed, Linked, WellKeyed, WithScore;
      ScoringKeepsKeys(repository.states, p, delta);
      var state := repository.LoadPlayerState(p);
      if state.Some? {
        repository.UpdateScore(p, state.value.score + delta);
      }
      model := model.(repo := repository.states);
      return;
    }

    /** `ok` is false for a room that does not exist or has a member nobody serves. */
    method BroadcastIn(r: int, m: Message) returns (ok: bool)
      requires Valid()
      modifies this`model, clients`writeQueue, clients`inFlight, clients`sent
      ensures Valid()
      ensures ok == (r in old(model).rooms.rooms
        && Notified(Served(old(model).players, old(model).gone), old(model).sessions,
                    old(model).rooms.rooms[r].playerIds, m).Ok?)
      ensures ok ==> model == old(model).(sessions :=
        Notified(Served(old(model).players, old(model).gone), old(model).sessions,
                 old(model).rooms.rooms[r].playerIds, m).value)
    {
      hide Registry, Views, Notified, WellKeyed, Ids, PlayerManager.Reach, Served, IdSet, RoomManager.View,
        RoomManager.Valid, Indexed, Linked, Known, Members;
      Reaching();
      RoomInModel(r);
      if r !in rooms.rooms {
        return false;
      }
      ok := rooms.rooms[r].Broadcast(m, sessions, clients);
      model := model.(sessions := Views(sessions));
      return;
    }

    /** The room table of the model lists the room objects. */
    lemma RoomInModel(r: int)
      requires Valid()
      ensures r in rooms.rooms <==> r in model.rooms.rooms
      ensures r in rooms.rooms ==>
                && rooms.rooms[r].playerIds == model.rooms.rooms[r].playerIds
                && rooms.rooms[r].playerManager == playerManager
      ensures Known(playerManager.players, sessions) && Members(sessions, clients)
    {
      hide Registry, Views, WellKeyed, Ids, IdSet;
    }

    method MarkInRoom(p: int, conn: ConnState) returns (ok: bool)
      requires Valid()
      modifies this`model, rooms.owned
      ensures Valid()
      ensures ok <==> MarkedIn(old(model).rooms, p, conn).Ok?
      ensures ok ==> model == old(model).(rooms := MarkedIn(old(model).rooms, p, conn).value)
    {
      hide Registry, Views, Ids, IdSet, WellKeyed, MarkedIn, RoomManager.View, Indexed, Linked;
      ok := rooms.MarkPlayer(p, conn);
      model := model.(rooms := rooms.View());
      return;
    }

    method RemoveFromRoom(p: int) returns (ok: bool)
      requires Valid()
      modifies this`model, rooms`rooms, rooms`playerRoom, rooms.owned
      ensures Valid()
      ensures ok <==> Removed(old(model).rooms, p).Ok?
      ensures ok ==> model == old(model).(rooms := Removed(old(model).rooms, p).value)
    {
      hide Registry, Views, Ids, IdSet, WellKeyed, Removed, RoomManager.View, Indexed, Linked;
      ok := rooms.RemovePlayer(p);
      model := model.(rooms := rooms.View());
      return;
    }

    method RoomIdByPlayer(p: int) returns (r: int)
      requires Valid()
      ensures r == RoomIdOf(model.rooms, p)
    {
      r := rooms.GetRoomIdByPlayer(p);
    }

    method StateOf(p: int) returns (state: Option<RuntimeState>)
      requires Valid()
      ensures state == if p in model.states then Some(model.states[p]) else None
    {
      state := states.GetState(p);
    }

    method SaveOnline(p: int, roomId: int, token: string)
      requires Valid()
      modifies this`model, states
      ensures Valid() && model == old(model).(states := SavedOnline(old(model).states, p, roomId, token))
    {
      hide Registry, Views, Ids, IdSet, RoomManager.View, Indexed, Linked, Wired, SavedOnline;
      states.SaveOnline(p, roomId, token);
      model := model.(states := states.states);
      return;
    }

    method MarkDisconnected(p: int, now: int)
      requires Valid()
      modifies this`model, states
      ensures Valid() && model == old(model).(states := MarkedDisconnected(old(model).states, p, now))
    {
      hide Registry, Views, Ids, IdSet, RoomManager.View, Indexed, Linked, Wired, MarkedDisconnected;
      states.MarkDisconnected(p, now);
      model := model.(states := states.states);
      return;
    }

    method MarkOnline(p: int)
      requires Valid()
      modifies this`model, states
      ensures Valid() && model == old(model).(states := MarkedOnline(old(model).states, p))
    {
      hide Registry, Views, Ids, IdSet, RoomManager.View, Indexed, Linked, Wired, MarkedOnline;
      states.MarkOnline(p);
      model := model.(states := states.states);
      return;
    }

    method RemoveState(p: int)
      requires Valid()
      modifies this`model, states
      ensures Valid() && model == old(model).(states := old(model).states - {p})
    {
      hide Registry, Views, Ids, IdSet, RoomManager.View, Indexed, Linked, Wired;
      states.RemovePlayer(p);
      model := model.(states := states.states);
      return;
    }

    method MarkClosed(session: Session) returns (first: bool)
      requires Valid() && session in clients
      modifies this`model, session`closed
      ensures Valid() && session.id in old(model).sessions && first == old(model).sessions[session.id].open
      ensures model == old(model).(sessions := old(model).sessions[session.id :=
                          old(model).sessions[session.id].(open := false)])
    {
      hide Registry, Views, Ids, IdSet, RoomManager.View, Indexed, Linked, Wired;
      InModel(session);
      first := CloseIn(session, sessions);
      model := model.(sessions := model.sessions[session.id := model.sessions[session.id].(open := false)]);
      return;
    }

    method PlayerIdOf(session: Session) returns (p: int, token: string)
      requires Valid() && session in clients
      ensures session.id in model.sessions
      ensures p == model.sessions[session.id].playerId && token == model.sessions[session.id].token
    {
      p, token := session.playerId, session.token;
    }

    method Store(session: Session, buffer: Bytes)
      requires Valid() && session in clients
      modifies session`recvBuffer
      ensures Valid() && session.recvBuffer == buffer
    {
      hide Registry, Views, Ids, IdSet, RoomManager.View, Indexed, Linked, Wired;
      InModel(session);
      StoreIn(session, buffer, sessions);
      return;
    }

    lemma InModel(session: Session)
      requires Valid() && session in clients
      ensures session.id in model.sessions && session.id in sessions && sessions[session.id] == session
      ensures model.proto == proto
    {
    }

    /** What a login and a reconnect have in common: the session serves the player from now on. */
    method Bind(session: Session, p: int, token: string)
      requires Valid() && session in clients
      modifies this`model, playerManager, connections, session`playerId, session`token
      ensures Valid() && session.id in old(model).sessions && model == Bound(old(model), session.id, p, token)
    {
      hide Valid;
      SetPlayer(session, p, token);
      AddPlayer(p, session);
      AddSession(session);
      return;
    }

    // ---- Login ----

    method HandleLogin(session: Session, username: string, wallMs: int)
      requires Valid() && session in clients
      modifies this`model, this`nextPlayerId, playerManager, connections, repository
      modifies session`playerId, session`token, session`writeQueue, session`inFlight, session`sent
      ensures Valid() && session.id in old(model).sessions
      ensures model == Login(old(model), session.id, username, wallMs) && session.id in model.sessions
      ensures model.sessions[session.id].sent == old(model).sessions[session.id].sent
           + [Message(1002, proto.serialize(
                if |username| == 0 then LoginFailed
                else LoginSuccess(old(model).nextPlayerId, Token(old(model).nextPlayerId))))]
    {
      hide Valid, Answer, Token;
      InModel(session);
      ghost var reply := LoginAnswers(model, session.id, username, wallMs);
      if |username| == 0 {
        Reply(session, LoginFailed);
        return;
      }
      var p := GeneratePlayerId();
      var token := Token(p);
      Bind(session, p, token);
      SavePlayerState(PlayerState(p, username, 0, true, -1, wallMs, 0));
      Reply(session, LoginSuccess(p, token));
      return;
    }

    method GeneratePlayerId() returns (p: int)
      requires Valid()
      modifies this`model, this`nextPlayerId
      ensures Valid() && p == old(model).nextPlayerId && model == old(model).(nextPlayerId := p + 1)
    {
      hide Registry, Views, Ids, IdSet, RoomManager.View, Indexed, Linked, Wired;
      p := nextPlayerId;
      nextPlayerId := nextPlayerId + 1;
      model := model.(nextPlayerId := nextPlayerId);
      return;
    }

    // ---- Matching ----

    method HandleMatch(session: Session, p: int) returns (ok: bool)
      requires Valid() && session in clients
      modifies this`model, queue, rooms, repository
      modifies clients`writeQueue, clients`inFlight, clients`sent
      ensures Valid() && OwnsMore()
      ensures Match(old(model), session.id, p) == if ok then Ok(model) else Fault
      ensures ok ==>
                && session.id in old(model).sessions && session.id in model.sessions
                && old(model).sessions[session.id].sent + [Message(2002, proto.serialize(MatchReply(old(model), p)))]
                   <= model.sessions[session.id].sent
    {
      hide Valid, RoomFor, Popped, Joined, MatchReply;
      InModel(session);
      MatchAnswers(model, session.id, p);
      ok := true;
      if p <= 0 {
        Reply(session, MatchFailed("player_id must be non-negative"));
        return;
      }
      var waiting := Enqueued(p);
      if waiting {
        Reply(session, MatchFailed("player_id already in match_queue"));
        return;
      }
      JoinQueue(p);
      Reply(session, MatchSuccess);
      var players := PopMatched();
      assert rooms.owned == old(rooms.owned);
      if |players| == 0 {
        return;
      }
      ok := CreateRoom(players);
      return;
    }

    // ---- Chatting ----

    method HandleChat(session: Session, r: int, text: string) returns (ok: bool)
      requires Valid() && session in clients
      modifies this`model, repository, clients`writeQueue, clients`inFlight, clients`sent
      ensures Valid() && session.id in old(model).sessions
      ensures Chat(old(model), session.id, r, text) == if ok then Ok(model) else Fault
    {
      hide Valid, Notified, AddScore, Served;
      InModel(session);
      var p, _ := PlayerIdOf(session);
      AddScoreTo(p, 1);
      ok := BroadcastIn(r, proto.Encode(ChatNotify(r, p, text)));
      return;
    }

    // ---- Heartbeats and reconnection ----

    method HandleHeartbeat(session: Session, clientTimeMs: int, now: int)
      requires Valid() && session in clients
      modifies this`model, session`lastActive, session`writeQueue, session`inFlight, session`sent
      ensures Valid() && session.id in old(model).sessions
      ensures model == Heartbeat(old(model), session.id, clientTimeMs, now)
    {
      hide Valid, Answer, Touched;
      Touch(session, now);
      Reply(session, HeartbeatResp(clientTimeMs, WholeMillis(now)));
    }

    method HandleReconnect(session: Session, p: int, token: string) returns (ok: bool)
      requires Valid() && session in clients
      modifies this`model, playerManager, connections, states, rooms.owned
      modifies session`playerId, session`token, session`writeQueue, session`inFlight, session`sent
      ensures Valid() && session.id in old(model).sessions
      ensures Reconnect(old(model), session.id, p, token) == if ok then Ok(model) else Fault
    {
      hide Valid, MarkedIn, MarkedOnline, Answer;
      InModel(session);
      var mine, _ := PlayerIdOf(session);
      var state := StateOf(p);
      ok := true;
      if state.None? {
        Reply(session, ReconnectFailed(mine, "player state not found"));
      } else if state.value.token != token {
        Reply(session, ReconnectFailed(mine, "token is not match"));
      } else if state.value.conn != Offline {
        Reply(session, ReconnectFailed(mine, "connection state is not offline"));
      } else {
        ok := Restore(session, p, token);
        if ok {
          Reply(session, ReconnectSuccess(p, state.value.roomId));
        }
      }
      return;
    }

    /** The updates of a successful reconnect. */
    method Restore(session: Session, p: int, token: string) returns (ok: bool)
      requires Valid() && session in clients
      modifies this`model, playerManager, connections, states, rooms.owned
      modifies session`playerId, session`token
      ensures Valid() && session.id in old(model).sessions
      ensures ok <==> MarkedIn(old(model).rooms, p, Online).Ok?
      ensures ok ==> model == Bound(old(model), session.id, p, token).(
                       rooms := MarkedIn(old(model).rooms, p, Online).value,
                       states := MarkedOnline(old(model).states, p))
    {
      hide Valid, MarkedIn, MarkedOnline;
      Bind(session, p, token);
      ok := MarkInRoom(p, Online);
      if ok {
        MarkOnline(p);
      }
    }

    // ---- Ranking ----

    method HandleRanking(session: Session, topN: int) returns (ghost items: seq<RankItem>)
      requires Valid() && session in clients
      modifies this`model, session`writeQueue, session`inFlight, session`sent
      ensures Valid() && IsTopN(old(model).repo, topN, items)
      ensures model == Answer(old(model), session.id, RankingResp(items))
    {
      var top := Rank(repository, topN);
      items := top;
      Reply(session, RankingResp(top));
    }

    // ---- Dispatch and the read side ----

    /** The handlers that open no room. */
    method DispatchOther(session: Session, message: Message, now: int, wallMs: int)
      returns (ok: bool, ghost choice: Choice)
      requires Valid() && session in clients && !proto.Request(message).MatchReq?
      modifies this`model, this`nextPlayerId, playerManager, connections, states, repository, rooms.owned
      modifies session`playerId, session`token, session`lastActive
      modifies clients`writeQueue, clients`inFlight, clients`sent
      ensures Valid() && session.id in old(model).sessions && Allowed(old(model), message, choice)
      ensures Routed(old(model), session.id, message, choice, now) == if ok then Ok(model) else Fault
    {
      hide Valid, Login, Chat, Heartbeat, Reconnect, Answer, IsTopN, Proto.Request;
      InModel(session);
      ok, choice := true, Choice(wallMs, []);
      var request := proto.Request(message);
      if request.LoginReq? {
        HandleLogin(session, request.username, wallMs);
      } else if request.ChatReq? {
        ok := HandleChat(session, request.roomId, request.text);
      } else if request.HeartbeatReq? {
        HandleHeartbeat(session, request.clientTimeMs, now);
      } else if request.ReconnectReq? {
        ok := HandleReconnect(session, request.playerId, request.token);
      } else if request.RankingReq? {
        ghost var items := HandleRanking(session, request.topN);
        choice := Choice(wallMs, items);
      }
      return;
    }

    /** The dispatcher's call of the registered handler. */
    method Dispatch(session: Session, message: Message, now: int, wallMs: int) returns (ok: bool, ghost choice: Choice)
      requires Valid() && session in clients
      modifies this`model, this`nextPlayerId, queue, rooms, playerManager, connections, states, repository
      modifies rooms.owned
      modifies session`playerId, session`token, session`lastActive
      modifies clients`writeQueue, clients`inFlight, clients`sent
      ensures Valid() && OwnsMore()
      ensures session.id in old(model).sessions && Allowed(old(model), message, choice)
      ensures Routed(old(model), session.id, message, choice, now) == if ok then Ok(model) else Fault
      ensures message.msgId !in {1001, 2001, 4001, 5001, 9001, 9101} ==> ok && model == old(model)
    {
      hide Valid, Match;
      InModel(session);
      if !proto.Request(message).MatchReq? {
        ok, choice := DispatchOther(session, message, now, wallMs);
        assert rooms.owned == old(rooms.owned);
        return;
      }
      choice := Choice(wallMs, []);
      ok := HandleMatch(session, proto.Request(message).playerId);
      assert Routed(old(model), session.id, message, choice, now)
          == Match(old(model), session.id, proto.Request(message).playerId);
      return;
    }

    /** A decoded message: the session has been heard from, and the handler runs. */
    method Deliver(session: Session, message: Message, now: int, wallMs: int) returns (ok: bool, ghost choice: Choice)
      requires Valid() && session in clients
      modifies this`model, this`nextPlayerId, queue, rooms, playerManager, connections, states, repository
      modifies rooms.owned
      modifies session`playerId, session`token, session`lastActive
      modifies clients`writeQueue, clients`inFlight, clients`sent
      ensures Valid() && OwnsMore()
      ensures session.id in old(model).sessions && Allowed(Touched(old(model), session.id, now), message, choice)
      ensures Handle(old(model), session.id, message, choice, now) == if ok then Ok(model) else Fault
    {
      hide Valid, Routed, Allowed;
      Touch(session, now);
      assert rooms.owned == old(rooms.owned);
      ok, choice := Dispatch(session, message, now, wallMs);
      return;
    }

    /** One turn of the parse loop. */
    method ParseNext(session: Session, now: int, wallMs: int)
      returns (more: bool, ok: bool, ghost message: Message, ghost choice: Choice)
      requires Valid() && session in clients
      modifies this`model, this`nextPlayerId, queue, rooms, playerManager, connections, states, repository
      modifies rooms.owned
      modifies session`playerId, session`token, session`lastActive, session`recvBuffer
      modifies clients`writeQueue, clients`inFlight, clients`sent
      ensures Valid() && OwnsMore() && session.id in old(model).sessions
      ensures more == FrameEnd(old(session.recvBuffer)).Some?
      ensures !more ==> ok && model == old(model) && session.recvBuffer == old(session.recvBuffer)
      ensures more ==> |session.recvBuffer| < |old(session.recvBuffer)|
      ensures more ==>
                && Framable(message) && old(session.recvBuffer) == Frame(message) + session.recvBuffer
                && Allowed(Touched(old(model), session.id, now), message, choice)
                && Handle(old(model), session.id, message, choice, now) == if ok then Ok(model) else Fault
    {
      hide Valid, Handle, FrameEnd, Frame, Allowed;
      InModel(session);
      ghost var before := model;
      var status, decoded, rest := TryDecode(session.recvBuffer);
      ok, more, message, choice := true, status == Success, decoded, Choice(wallMs, []);
      if !more {
        return;
      }
      Store(session, rest);
      assert model == before && rooms.owned == old(rooms.owned);
      ok, choice := Deliver(session, decoded, now, wallMs);
      return;
    }

    /** A read of `chunk`: it is appended, then every complete message is handed to its handler. */
    method OnRead(session: Session, chunk: Bytes, now: int, wallMs: int) returns (ok: bool, ghost choices: seq<Choice>)
      requires Valid() && session in clients
      modifies this`model, this`nextPlayerId, queue, rooms, playerManager, connections, states, repository
      modifies rooms.owned
      modifies session`playerId, session`token, session`lastActive, session`recvBuffer
      modifies clients`writeQueue, clients`inFlight, clients`sent
      ensures Valid() && OwnsMore() && session.id in old(model).sessions
      ensures ReadBy(old(model), session.id, old(session.recvBuffer) + chunk, choices, now,
                     if ok then Ok(Reading(model, session.recvBuffer)) else Fault)
    {
      hide Valid, Midway, ReadBy, Handle, FrameEnd, Frame, Allowed;
      ghost var before, s, all := model, session.id, session.recvBuffer + chunk;
      ghost var done: seq<Message> := [];
      InModel(session);
      Store(session, session.recvBuffer + chunk);
      ok, choices := true, [];
      ReadStarts(before, s, all, now);
      while true
        invariant Valid() && session in clients && clients == old(clients) && OwnsMore()
        invariant s in before.sessions && s in model.sessions
        invariant Midway(before, s, all, done, choices, now, model, session.recvBuffer)
        decreases |session.recvBuffer|
      {
        ghost var here, buffer := model, session.recvBuffer;
        var more;
        ghost var message, choice;
        more, ok, message, choice := ParseNext(session, now, wallMs);
        if !more {
          ReadEnds(before, s, all, done, choices, now, here, buffer);
          return;
        }
        ghost var outcome := if ok then Ok(model) else Fault;
        choices := ReadGoesOn(before, s, all, done, choices, now, here, session.recvBuffer, message, choice, outcome);
        done := done + [message];
        if !ok {
          return;
        }
        InModel(session);
      }
    }

    /** At any time, whatever has been written to a connection and however it arrives, the client has dispatched
        a prefix of the messages the model says were sent to it and that fit; all of them once the queue is
        empty. */
    lemma ClientDispatches(session: Session, chunks: seq<Bytes>)
      requires Valid() && session in clients && Flatten(chunks) == Flatten(session.written)
      ensures session.id in model.sessions
      ensures Feed([], chunks).messages <= Filter(model.sessions[session.id].sent, Fits)
      ensures session.writeQueue == [] ==> Feed([], chunks) == Parsed(Filter(model.sessions[session.id].sent, Fits), [])
    {
      assert session.Valid() && model.sessions[session.id] == session.View();
      hide Valid, Feed, PumpOk;
      PumpOkDelivers(session.Pump(), session.sent, chunks);
      return;
    }

    // ---- Connections coming and going ----

    /** A connection is accepted; `s` is an identity no other session has. */
    method Accept(s: Sid, now: int) returns (session: Session)
      requires Valid() && s !in model.sessions
      modifies this`model, this`sessions, this`clients
      ensures Valid() && fresh(session) && session.id == s && session.recvBuffer == []
      ensures sessions == old(sessions)[s := session] && clients == old(clients) + {session}
      ensures model == Accepted(old(model), s, now)
    {
      hide Registry, Views, Ids, IdSet, Wired, RoomManager.View, Known, Members, Indexes;
      session := OpenIn(s, now, sessions);
      IndexGrows(sessions, session, playerManager.players, clients, clients);
      IndexGrows(sessions, session, playerManager.players, clients, connections.sessions);
      IndexGrows(sessions, session, playerManager.players, clients, playerManager.expired);
      sessions, clients := sessions[s := session], clients + {session};
      model := Accepted(model, s, now);
      return;
    }

    /** The first three lines of the close callback. */
    method Unregister(p: int, session: Session)
      requires Valid() && session in clients
      modifies this`model, queue, playerManager, connections
      ensures Valid()
      ensures model == old(model).(queue := Departed(old(model).queue, p),
                                   players := old(model).players - {p}, conns := old(model).conns - {session.id})
    {
      hide Valid, Departed;
      LeaveQueue(p);
      RemovePlayer(p);
      RemoveSession(session);
      return;
    }

    /** The next two: the player's room and token are remembered for a reconnect. */
    method Remember(p: int, token: string, now: int)
      requires Valid()
      modifies this`model, states
      ensures Valid()
      ensures model == old(model).(states := MarkedDisconnected(
                SavedOnline(old(model).states, p, RoomIdOf(old(model).rooms, p), token), p, now))
    {
      hide Valid, SavedOnline, MarkedDisconnected;
      var r := RoomIdByPlayer(p);
      SaveOnline(p, r, token);
      MarkDisconnected(p, now);
      return;
    }

    /** The close callback. */
    method OnClosed(session: Session, now: int) returns (ok: bool)
      requires Valid() && session in clients
      modifies this`model, queue, playerManager, connections, states, rooms.owned
      ensures Valid() && session.id in old(model).sessions
      ensures Disconnected(old(model), session.id, now) == if ok then Ok(model) else Fault
    {
      hide Valid, Departed, SavedOnline, MarkedDisconnected, MarkedIn;
      var p, token := PlayerIdOf(session);
      Unregister(p, session);
      Remember(p, token, now);
      ok := MarkInRoom(p, Offline);
      return;
    }

    method CloseSession(session: Session, now: int) returns (ok: bool)
      requires Valid() && session in clients
      modifies this`model, session`closed, queue, playerManager, connections, states, rooms.owned
      ensures Valid()
      ensures Closed(old(model), session.id, now) == if ok then Ok(model) else Fault
    {
      hide Valid, Disconnected;
      ok := true;
      var first := MarkClosed(session);
      if !first {
        assert model.sessions == old(model).sessions;
        return;
      }
      ok := OnClosed(session, now);
      return;
    }

    method OnWritten(session: Session)
      requires Valid() && session in clients && session.inFlight > 0
      modifies session`writeQueue, session`inFlight, session`written
      ensures Valid() && Ok(session.Pump()) == Completing(old(session.Pump()))
    {
      hide Registry, Views, Ids, IdSet, RoomManager.View, Indexed, Linked, Wired;
      InModel(session);
      WrittenIn(session, sessions);
      return;
    }

    /** Marks the session closed after a failed write and says whether the close callback is due. */
    method MarkFailed(session: Session) returns (first: bool)
      requires Valid() && session in clients && session.inFlight > 0
      modifies this`model, session`inFlight, session`closed
      ensures Valid() && session.id in old(model).sessions && first == old(model).sessions[session.id].open
      ensures model == old(model).(sessions := old(model).sessions[session.id :=
                          old(model).sessions[session.id].(open := false)])
      ensures session.Pump() == Failing(old(session.Pump()))
    {
      hide Registry, Views, Ids, IdSet, RoomManager.View, Indexed, Linked, Wired;
      InModel(session);
      first := FailIn(session, sessions);
      model := model.(sessions := model.sessions[session.id := model.sessions[session.id].(open := false)]);
      return;
    }

    /** A write that ends in an error closes the connection. */
    method OnWriteError(session: Session, now: int) returns (ok: bool)
      requires Valid() && session in clients && session.inFlight > 0
      modifies this`model, session`inFlight, session`closed, queue, playerManager, connections, states, rooms.owned
      ensures Valid() && session.Pump() == Failing(old(session.Pump()))
      ensures Closed(old(model), session.id, now) == if ok then Ok(model) else Fault
    {
      hide Valid, Disconnected;
      ok := true;
      var first := MarkFailed(session);
      if !first {
        assert model.sessions == old(model).sessions;
        return;
      }
      ok := OnClosed(session, now);
      return;
    }

    /** The last reference to a closed session goes away. */
    method OnDestroyed(session: Session)
      requires Valid() && session in clients && session.closed && session !in connections.sessions
      modifies this`model, playerManager`expired
      ensures Valid() && model == Destroyed(old(model), session.id)
    {
      hide Registry, Views, Ids, IdSet, Known, RoomManager.View, Indexed, Wired;
      InModel(session);
      IdSetChanges(playerManager.expired, session, sessions);
      playerManager.Expire(session);
      model := Destroyed(model, session.id);
      return;
    }

    // ---- The timers ----

    /** The sessions are collected first and closed afterwards. */
    method CheckTimeout(now: int) returns (ok: bool, ghost order: seq<Sid>)
      requires Valid()
      modifies this`model, clients`closed, queue, playerManager, connections, states, rooms.owned
      ensures Valid() && Enumerates(order, Stale(old(model), now))
      ensures forall s :: s in order
                <==> s in old(model).conns && s in old(model).sessions
                     && now - old(model).sessions[s].lastActive >= 16_000_000_000
      ensures ClosedAll(old(model), order, now) == if ok then Ok(model) else Fault
    {
      hide Valid, ClosedAll, Stale;
      StaleMeans(model, now);
      var stale := connections.CollectStale(now, HEARTBEAT_TIMEOUT);
      order := StaleIds(stale, now);
      ok := CloseEach(stale, order, now);
      return;
    }

    method CloseEach(stale: seq<Session>, ghost order: seq<Sid>, now: int) returns (ok: bool)
      requires Valid() && |order| == |stale|
      requires forall i :: 0 <= i < |stale| ==> stale[i] in clients && stale[i].id == order[i]
      modifies this`model, clients`closed, queue, playerManager, connections, states, rooms.owned
      ensures Valid()
      ensures ClosedAll(old(model), order, now) == if ok then Ok(model) else Fault
    {
      hide Valid, Closed;
      ok := true;
      var i := 0;
      while i < |stale|
        invariant 0 <= i <= |stale| && Valid()
        invariant clients == old(clients) && rooms.owned == old(rooms.owned)
        invariant ClosedAll(old(model), order[..i], now) == Ok(model)
      {
        assert order[..i + 1][..i] == order[..i];
        ok := CloseSession(stale[i], now);
        if !ok {
          ClosedAllStops(old(model), order, i + 1, now);
          return;
        }
        i := i + 1;
      }
      assert order[..i] == order;
      return;
    }

    /** The stale sessions by identity. */
    lemma StaleIds(stale: seq<Session>, now: int) returns (order: seq<Sid>)
      requires Valid() && Visits(stale, StaleSessions(connections.sessions, now, HEARTBEAT_TIMEOUT))
      ensures |order| == |stale| && Enumerates(order, Stale(model, now))
      ensures forall i :: 0 <= i < |stale| ==> order[i] == stale[i].id && stale[i] in clients
    {
      order := seq(|stale|, i requires 0 <= i < |stale| => stale[i].id);
      forall i | 0 <= i < |stale|
        ensures stale[i] in connections.sessions && sessions[order[i]] == stale[i] && stale[i] in clients
        ensures order[i] in Stale(model, now)
      {
        assert stale[i] in stale;
        assert model.sessions[order[i]] == stale[i].View();
      }
      forall x ensures x in order <==> x in Stale(model, now) {
        if x in order {
          var i :| 0 <= i < |order| && order[i] == x;
        }
        if x in Stale(model, now) {
          var c :| c in connections.sessions && c.id == x;
          assert model.sessions[x] == c.View();
          assert c in StaleSessions(connections.sessions, now, HEARTBEAT_TIMEOUT);
          assert c in stale;
          var i :| 0 <= i < |stale| && stale[i] == c;
          assert order[i] == x;
        }
      }
    }

    method ExpiredPlayers(now: int) returns (players: seq<int>)
      requires Valid()
      ensures Enumerates(players, Expired(model.states, now, RECONNECT_TIMEOUT))
    {
      players := states.GetReconnectTimeoutPlayers(RECONNECT_TIMEOUT, now);
    }

    method CheckReconnectTimeout(now: int) returns (ok: bool, ghost order: seq<int>)
      requires Valid()
      modifies this`model, states, rooms`rooms, rooms`playerRoom, rooms.owned
      ensures Valid() && Enumerates(order, Expired(old(model).states, now, RECONNECT_TIMEOUT))
      ensures forall p :: p in order
                <==> p in old(model).states && old(model).states[p].conn == Offline
                     && now - old(model).states[p].disconnectedAt >= 31_000_000_000
      ensures Forgotten(old(model), order) == if ok then Ok(model) else Fault
    {
      hide Valid, Removed, Expired;
      ExpiredMeans(model.states, now);
      var players := ExpiredPlayers(now);
      order := players;
      ghost var before := model;
      ok := true;
      var i := 0;
      while i < |players|
        invariant 0 <= i <= |players| && Valid() && rooms.owned == old(rooms.owned)
        invariant Forgotten(before, players[..i]) == Ok(model)
      {
        assert players[..i + 1][..i] == players[..i];
        ok := RemoveFromRoom(players[i]);
        if !ok {
          ForgottenStops(before, players, i + 1);
          return;
        }
        RemoveState(players[i]);
        i := i + 1;
      }
      assert players[..i] == players;
      return;
    }
  }
}
