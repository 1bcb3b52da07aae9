/** What every run keeps, whatever the clients do. */
module Soundness {
  import opened Prelude
  import opened MessageCodec
  import opened Protocol
  import opened MatchQueues
  import opened PlayerStates
  import opened Repository
  import opened Sessions
  import opened Rooms
  import opened ServerModel
  import opened Runs

  ghost predicate RoomOk(r: int, room: RoomView) {
    && room.roomId == r && room.playerIds != [] && NoDup(room.playerIds)
    && forall p :: p in room.playerIds ==> p in room.states && room.states[p].roomId == r
  }

  /** No room is empty or dangling, and every id in use is below the next one. */
  ghost predicate TableOk(t: RoomTable) {
    && t.nextRoomId >= 1
    && (forall r :: r in t.rooms ==> 1 <= r < t.nextRoomId && RoomOk(r, t.rooms[r]))
    && (forall p :: p in t.playerRoom ==> t.playerRoom[p] in t.rooms && p in t.rooms[t.playerRoom[p]].playerIds)
  }

  /** A remembered room id other than -1 is the player's current room. */
  ghost predicate Remembers(states: States, t: RoomTable) {
    forall p :: p in states ==>
      && states[p].playerId == p
      && (states[p].roomId != -1 ==> p in t.playerRoom && t.playerRoom[p] == states[p].roomId)
  }

  ghost predicate Registered(sv: Server) {
    && sv.nextPlayerId >= FIRST_PLAYER_ID
    && (forall p :: p in sv.repo ==> FIRST_PLAYER_ID <= p < sv.nextPlayerId && sv.repo[p].playerId == p)
    && (forall s :: s in sv.sessions ==> sv.sessions[s].playerId == 0 || sv.sessions[s].playerId in sv.repo)
    && (forall p :: p in sv.states ==> p == 0 || p in sv.repo)
  }

  /** Only closed sessions are gone. */
  ghost predicate Closing(sessions: map<Sid, SessionView>, gone: set<Sid>) {
    forall s :: s in gone ==> s in sessions && !sessions[s].open
  }

  ghost predicate Sound(sv: Server) {
    && QueueOk(sv.queue) && |sv.queue.waiting| < ROOM_SIZE
    && TableOk(sv.rooms)
    && Remembers(sv.states, sv.rooms)
    && Registered(sv)
    && Closing(sv.sessions, sv.gone)
  }

  // ---- The room table ----

  lemma OpenedOk(t: RoomTable, players: seq<int>)
    requires TableOk(t) && NoDup(players) && players != []
    ensures TableOk(Opened(t, players))
    ensures Opened(t, players).rooms == t.rooms[t.nextRoomId := NewRoom(t.nextRoomId, players)]
  {
  }

  lemma RemovedOk(t: RoomTable, p: int)
    requires TableOk(t)
    ensures Removed(t, p).Ok? && TableOk(Removed(t, p).value)
  {
    if p in t.playerRoom {
      var r := t.playerRoom[p];
      assert RoomOk(r, t.rooms[r]);
      EraseFirstNoDup(t.rooms[r].playerIds, p);
    }
  }

  lemma MarkedInOk(t: RoomTable, p: int, conn: ConnState)
    requires TableOk(t)
    ensures MarkedIn(t, p, conn).Ok? && TableOk(MarkedIn(t, p, conn).value)
    ensures MarkedIn(t, p, conn).value.playerRoom == t.playerRoom
  {
    if p in t.playerRoom {
      var r := t.playerRoom[p];
      assert RoomOk(r, t.rooms[r]);
      assert RoomOk(r, Marked(t.rooms[r], p, conn));
    }
  }

  // ---- Each operation ----

  lemma AnswerSound(sv: Server, s: Sid, reply: Reply)
    requires Sound(sv)
    ensures Sound(Answer(sv, s, reply))
  {
  }

  lemma NewcomerSound(sv: Server, s: Sid, state: PlayerState)
    requires Sound(sv) && s in sv.sessions && state.playerId == sv.nextPlayerId
    ensures var p := sv.nextPlayerId;
      Sound(Bound(sv.(nextPlayerId := p + 1), s, p, Token(p)).(repo := sv.repo[p := state]))
  {
    hide TableOk, Remembers, Token, QueueOk;
  }

  lemma LoginSound(sv: Server, s: Sid, username: string, wallMs: int)
    requires Sound(sv) && s in sv.sessions
    ensures Sound(Login(sv, s, username, wallMs))
  {
    hide Sound, Answer, Token;
    if username == "" {
      AnswerSound(sv, s, LoginFailed);
      return;
    }
    var p := sv.nextPlayerId;
    var state := PlayerState(p, username, 0, true, -1, wallMs, 0);
    NewcomerSound(sv, s, state);
    AnswerSound(Bound(sv.(nextPlayerId := p + 1), s, p, Token(p)).(repo := sv.repo[p := state]),
                s, LoginSuccess(p, Token(p)));
    return;
  }

  lemma RoomForSound(sv: Server, players: seq<int>)
    requires Sound(sv) && NoDup(players) && players != [] && RoomFor(sv, players).Ok?
    ensures Sound(RoomFor(sv, players).value)
  {
    OpenedOk(sv.rooms, players);
    NotifiedKeepsSessions(Served(sv.players, sv.gone), sv.sessions, players,
      sv.proto.Encode(RoomCreated(sv.rooms.nextRoomId, players)));
    var after := RoomFor(sv, players).value;
    assert Remembers(after.states, after.rooms);
  }

  lemma MatchSound(sv: Server, s: Sid, p: int)
    requires Sound(sv) && Match(sv, s, p).Ok?
    ensures Sound(Match(sv, s, p).value)
  {
    if p > 0 && p !in sv.queue.members {
      JoinOk(sv.queue, p);
      PopOk(Joined(sv.queue, p), ROOM_SIZE);
      var (players, queue) := Popped(Joined(sv.queue, p), ROOM_SIZE);
      AnswerSound(sv.(queue := queue), s, MatchSuccess);
      if players != [] {
        RoomForSound(Answer(sv.(queue := queue), s, MatchSuccess), players);
      }
    }
  }

  lemma ChatSound(sv: Server, s: Sid, r: int, text: string)
    requires Sound(sv) && s in sv.sessions && Chat(sv, s, r, text).Ok?
    ensures Sound(Chat(sv, s, r, text).value)
  {
    NotifiedKeepsSessions(Served(sv.players, sv.gone), sv.sessions, sv.rooms.rooms[r].playerIds,
      sv.proto.Encode(ChatNotify(r, sv.sessions[s].playerId, text)));
  }

  lemma ReturnedSound(sv: Server, s: Sid, p: int, token: string)
    requires Sound(sv) && s in sv.sessions && p in sv.states
    ensures MarkedIn(sv.rooms, p, Online).Ok?
    ensures Sound(Bound(sv, s, p, token).(
              rooms := MarkedIn(sv.rooms, p, Online).value, states := MarkedOnline(sv.states, p)))
  {
    MarkedInOk(sv.rooms, p, Online);
    var bound := Bound(sv, s, p, token);
    assert Registered(bound);
    var back := bound.(rooms := MarkedIn(sv.rooms, p, Online).value, states := MarkedOnline(sv.states, p));
    assert Remembers(back.states, back.rooms);
    assert Registered(back);
  }

  lemma ReconnectSound(sv: Server, s: Sid, p: int, token: string)
    requires Sound(sv) && s in sv.sessions
    ensures Reconnect(sv, s, p, token).Ok? && Sound(Reconnect(sv, s, p, token).value)
  {
    hide Sound, Answer, Bound, MarkedIn, MarkedOnline;
    if p !in sv.states {
      AnswerSound(sv, s, ReconnectFailed(sv.sessions[s].playerId, "player state not found"));
    } else if sv.states[p].token != token {
      AnswerSound(sv, s, ReconnectFailed(sv.sessions[s].playerId, "token is not match"));
    } else if sv.states[p].conn != Offline {
      AnswerSound(sv, s, ReconnectFailed(sv.sessions[s].playerId, "connection state is not offline"));
    } else {
      ReturnedSound(sv, s, p, token);
      var rooms := MarkedIn(sv.rooms, p, Online).value;
      AnswerSound(Bound(sv, s, p, token).(rooms := rooms, states := MarkedOnline(sv.states, p)),
        s, ReconnectSuccess(p, sv.states[p].roomId));
    }
    return;
  }

  lemma HandleSound(sv: Server, s: Sid, message: Message, choice: Choice, now: int)
    requires Sound(sv) && s in sv.sessions && Handle(sv, s, message, choice, now).Ok?
    ensures Sound(Handle(sv, s, message, choice, now).value)
  {
    hide Sound, Login, Match, Chat, Reconnect, Answer;
    var active, request := Touched(sv, s, now), sv.proto.Request(message);
    TouchedSound(sv, s, now);
    if request.LoginReq? {
      LoginSound(active, s, request.username, choice.wallMs);
    } else if request.MatchReq? {
      MatchSound(active, s, request.playerId);
    } else if request.ChatReq? {
      ChatSound(active, s, request.roomId, request.text);
    } else if request.HeartbeatReq? {
      TouchedSound(active, s, now);
      AnswerSound(Touched(active, s, now), s, HeartbeatResp(request.clientTimeMs, WholeMillis(now)));
    } else if request.ReconnectReq? {
      ReconnectSound(active, s, request.playerId, request.token);
    } else if request.RankingReq? {
      AnswerSound(active, s, RankingResp(choice.top));
    }
    return;
  }

  lemma TouchedSound(sv: Server, s: Sid, now: int)
    requires Sound(sv) && s in sv.sessions
    ensures Sound(Touched(sv, s, now))
  {
    hide TableOk, Remembers, QueueOk;
  }

  lemma ClosedSound(sv: Server, s: Sid, now: int)
    requires Sound(sv)
    ensures Closed(sv, s, now).Ok? && Sound(Closed(sv, s, now).value)
  {
    if s in sv.sessions && sv.sessions[s].open {
      var p := sv.sessions[s].playerId;
      hide TableOk, QueueOk, MarkedIn, Departed, Remembers, RoomIdOf;
      MarkedInOk(sv.rooms, p, Offline);
      LeaveOk(sv.queue, p);
      DepartedShrinks(sv.queue, p);
      LostRemembers(sv, p, sv.sessions[s].token, MarkedIn(sv.rooms, p, Offline).value, now);
    }
    return;
  }

  lemma LostRemembers(sv: Server, p: int, token: string, rooms: RoomTable, now: int)
    requires Remembers(sv.states, sv.rooms) && rooms.playerRoom == sv.rooms.playerRoom
    ensures Remembers(MarkedDisconnected(SavedOnline(sv.states, p, RoomIdOf(sv.rooms, p), token), p, now), rooms)
  {
  }

  lemma DepartedShrinks(q: Queue, p: int)
    ensures |Departed(q, p).waiting| <= |q.waiting|
  {
    EraseFirstShrinks(q.waiting, p);
  }

  lemma {:induction false} ClosedAllSound(sv: Server, order: seq<Sid>, now: int)
    requires Sound(sv)
    ensures ClosedAll(sv, order, now).Ok? && Sound(ClosedAll(sv, order, now).value)
  {
    if order != [] {
      var n := |order| - 1;
      ClosedAllSound(sv, order[..n], now);
      ClosedSound(ClosedAll(sv, order[..n], now).value, order[n], now);
    }
  }

  lemma {:induction false} ForgottenSound(sv: Server, order: seq<int>)
    requires Sound(sv)
    ensures Forgotten(sv, order).Ok? && Sound(Forgotten(sv, order).value)
  {
    if order != [] {
      var n := |order| - 1;
      hide Sound, Removed;
      ForgottenSound(sv, order[..n]);
      RemovedSound(Forgotten(sv, order[..n]).value, order[n]);
    }
    return;
  }

  lemma RemovedSound(sv: Server, p: int)
    requires Sound(sv)
    ensures Removed(sv.rooms, p).Ok?
    ensures Sound(sv.(rooms := Removed(sv.rooms, p).value, states := sv.states - {p}))
  {
    RemovedOk(sv.rooms, p);
    hide TableOk, QueueOk, EraseFirst;
  }

  /** Closing and both sweeps never end the process; only a message can. */
  lemma StepSound(w: World, event: Event)
    requires Sound(w.server) && Possible(w, event)
    ensures !event.Receive? ==> Step(w, event).Ok?
    ensures Step(w, event).Ok? ==> Sound(Step(w, event).value.server)
  {
    match event
    case Accept(s) =>
    case Receive(s, message, choice) =>
      if Step(w, event).Ok? { HandleSound(w.server, s, message, choice, w.now); }
    case Destroy(_) =>
    case CloseSession(s) => ClosedSound(w.server, s, w.now);
    case HeartbeatSweep(stale) => ClosedAllSound(w.server, stale, w.now);
    case ReconnectSweep(expired) => ForgottenSound(w.server, expired);
    case Tick(_) =>
  }

  lemma {:induction false} RunSound(start: World, events: seq<Event>)
    requires Fresh(start) && Run(start, events).Some?
    ensures Sound(Run(start, events).value.server)
  {
    if events != [] {
      var n := |events| - 1;
      RunSound(start, events[..n]);
      StepSound(Run(start, events[..n]).value, events[n]);
    }
  }

  lemma ReachedSound(w: World)
    requires Reached(w)
    ensures Sound(w.server)
  {
    var start, events :| Fresh(start) && Run(start, events) == Some(w);
    RunSound(start, events);
  }
}
