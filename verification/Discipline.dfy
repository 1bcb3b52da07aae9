/** What every run of well-behaved clients keeps: the seven tables agree about every player. */
module Discipline {
  import opened Prelude
  import opened MessageCodec
  import opened Protocol
  import opened MatchQueues
  import opened PlayerStates
  import opened Repository
  import opened Sessions
  import opened Rooms
  import opened ServerModel
  import opened Runs
  import opened Soundness

  /** A player is served by a session exactly when that session is open and bound to the player, and
      the watched sessions are the open bound ones. */
  ghost predicate Bindings(players: map<int, Sid>, sessions: map<Sid, SessionView>, conns: set<Sid>) {
    && (forall p :: p in players ==>
          p > 0 && players[p] in sessions && sessions[players[p]].open && sessions[players[p]].playerId == p)
    && (forall s :: s in sessions && sessions[s].open && sessions[s].playerId != 0 ==>
          sessions[s].playerId in players && players[sessions[s].playerId] == s)
    && (forall s :: s in conns <==> s in sessions && sessions[s].open && sessions[s].playerId != 0)
  }

  ghost predicate OfflineIn(states: States, p: int) {
    p in states && states[p].conn == Offline
  }

  /** Of the players with a runtime state, the Online ones are those being served. */
  ghost predicate Presence(states: States, players: map<int, Sid>) {
    && (forall p :: p in states && p != 0 ==> (states[p].conn == Online <==> p in players))
    && (0 in states ==> states[0].conn == Offline)
  }

  /** The player's own room marks the player Offline. */
  ghost predicate MarkedOffline(t: RoomTable, p: int) {
    p in t.playerRoom && t.playerRoom[p] in t.rooms && IsDisconnected(t.rooms[t.playerRoom[p]], p)
  }

  /** Every member of a room is mapped to that room, so nobody sits in two rooms. */
  ghost predicate NoStraySeat(t: RoomTable) {
    forall r, p :: r in t.rooms && p in t.rooms[r].playerIds ==> p in t.playerRoom && t.playerRoom[p] == r
  }

  ghost predicate Seat(t: RoomTable, states: States, players: map<int, Sid>, repo: Repo, p: int)
    requires p in t.playerRoom
  {
    && p in repo && repo[p].roomId == t.playerRoom[p]
    && (MarkedOffline(t, p) <==> OfflineIn(states, p))
    && (p in players || OfflineIn(states, p))
  }

  ghost predicate Seats(t: RoomTable, states: States, players: map<int, Sid>, repo: Repo) {
    NoStraySeat(t) && forall p :: p in t.playerRoom ==> Seat(t, states, players, repo, p)
  }

  /** Whoever waits for a match is being served and is in no room. */
  ghost predicate Waiting(queue: Queue, players: map<int, Sid>, t: RoomTable) {
    forall p :: p in queue.waiting ==> p in players && p !in t.playerRoom
  }

  ghost predicate Tokens(sessions: map<Sid, SessionView>, states: States) {
    && (forall s :: s in sessions && sessions[s].playerId != 0 ==> sessions[s].token == Token(sessions[s].playerId))
    && (forall p :: p in states && p != 0 ==> states[p].token == Token(p))
  }

  ghost predicate Agreed(sv: Server) {
    && Sound(sv)
    && Bindings(sv.players, sv.sessions, sv.conns)
    && Presence(sv.states, sv.players)
    && Seats(sv.rooms, sv.states, sv.players, sv.repo)
    && Waiting(sv.queue, sv.players, sv.rooms)
    && Tokens(sv.sessions, sv.states)
  }

  /** With every player's session open, no weak pointer has expired. */
  lemma EverybodyIsServed(sv: Server)
    requires Agreed(sv)
    ensures Served(sv.players, sv.gone) == sv.players
  {
    assert Bindings(sv.players, sv.sessions, sv.conns) && Closing(sv.sessions, sv.gone);
    assert forall p :: p in sv.players ==> sv.players[p] !in sv.gone;
  }

  // ---- Frames: changes that touch neither bindings nor seats ----

  lemma SameBindingsAgreed(sv: Server, sessions: map<Sid, SessionView>)
    requires Agreed(sv) && SameBindings(sv.sessions, sessions)
    ensures Agreed(sv.(sessions := sessions))
  {
    assert Registered(sv.(sessions := sessions));
  }

  lemma AnswerAgreed(sv: Server, s: Sid, reply: Reply)
    requires Agreed(sv)
    ensures Agreed(Answer(sv, s, reply))
  {
    SameBindingsAgreed(sv, Answer(sv, s, reply).sessions);
  }

  // ---- The room table under the operations ----

  /** Marking a player changes that player's mark and nothing else. */
  lemma MarkedInSeats(t: RoomTable, p: int, conn: ConnState)
    requires TableOk(t) && NoStraySeat(t)
    ensures MarkedIn(t, p, conn).Ok?
    ensures var u := MarkedIn(t, p, conn).value;
            && TableOk(u) && NoStraySeat(u) && u.playerRoom == t.playerRoom
            && forall q :: q in t.playerRoom ==>
                 (MarkedOffline(u, q) <==> if q == p then conn == Offline else MarkedOffline(t, q))
  {
    MarkedInOk(t, p, conn);
    var u := MarkedIn(t, p, conn).value;
    if p in t.playerRoom {
      var r := t.playerRoom[p];
      assert RoomOk(r, t.rooms[r]);
      assert u.rooms[r].playerIds == t.rooms[r].playerIds;
    }
  }

  lemma RemovedSeats(t: RoomTable, p: int)
    requires TableOk(t) && NoStraySeat(t)
    ensures Removed(t, p).Ok?
    ensures var u := Removed(t, p).value;
            && TableOk(u) && NoStraySeat(u) && u.playerRoom == t.playerRoom - {p}
            && forall q :: q in u.playerRoom ==> (MarkedOffline(u, q) <==> MarkedOffline(t, q))
  {
    RemovedOk(t, p);
    if p in t.playerRoom {
      var r := t.playerRoom[p];
      assert RoomOk(r, t.rooms[r]);
      EraseFirstNoDup(t.rooms[r].playerIds, p);
    }
  }

  lemma OpenedSeats(t: RoomTable, players: seq<int>)
    requires TableOk(t) && NoStraySeat(t) && NoDup(players) && players != []
    requires forall p :: p in players ==> p !in t.playerRoom
    ensures var u := Opened(t, players);
            && TableOk(u) && NoStraySeat(u)
            && u.playerRoom.Keys == t.playerRoom.Keys + (set p | p in players)
            && (forall p :: p in players ==> u.playerRoom[p] == t.nextRoomId && !MarkedOffline(u, p))
            && (forall p :: p in t.playerRoom ==> 
                 u.playerRoom[p] == t.playerRoom[p] && (MarkedOffline(u, p) <==> MarkedOffline(t, p)))
  {
    OpenedOk(t, players);
    var u := Opened(t, players);
    assert forall p :: p in t.playerRoom ==> t.playerRoom[p] in t.rooms;
  }

  // ---- Each operation ----

  /** Binding an open, still unbound session to a player nobody serves. */
  lemma BoundBindings(sv: Server, s: Sid, p: int, token: string)
    requires Bindings(sv.players, sv.sessions, sv.conns)
    requires s in sv.sessions && sv.sessions[s].open && sv.sessions[s].playerId == 0
    requires p > 0 && p !in sv.players
    ensures var b := Bound(sv, s, p, token); Bindings(b.players, b.sessions, b.conns)
  {
  }

  lemma RegisteredSeats(sv: Server, p: int, state: PlayerState, players: map<int, Sid>)
    requires Seats(sv.rooms, sv.states, sv.players, sv.repo) && p !in sv.repo
    requires forall q :: q in sv.players ==> q in players
    ensures Seats(sv.rooms, sv.states, players, sv.repo[p := state])
  {
    forall q | q in sv.rooms.playerRoom ensures Seat(sv.rooms, sv.states, players, sv.repo[p := state], q) {
      assert Seat(sv.rooms, sv.states, sv.players, sv.repo, q);
    }
  }

  lemma LoginAgreed(sv: Server, s: Sid, username: string, wallMs: int)
    requires Agreed(sv) && s in sv.sessions && sv.sessions[s].open && sv.sessions[s].playerId == 0
    ensures Agreed(Login(sv, s, username, wallMs))
  {
    hide Agreed, Answer, Token;
    if username == "" {
      AnswerAgreed(sv, s, LoginFailed);
      return;
    }
    var p := sv.nextPlayerId;
    var state := PlayerState(p, username, 0, true, -1, wallMs, 0);
    NewcomerAgreed(sv, s, state);
    AnswerAgreed(Bound(sv.(nextPlayerId := p + 1), s, p, Token(p)).(repo := sv.repo[p := state]),
                 s, LoginSuccess(p, Token(p)));
    return;
  }

  lemma NewcomerAgreed(sv: Server, s: Sid, state: PlayerState)
    requires Agreed(sv) && s in sv.sessions && sv.sessions[s].open && sv.sessions[s].playerId == 0
    requires state.playerId == sv.nextPlayerId
    ensures var p := sv.nextPlayerId;
      Agreed(Bound(sv.(nextPlayerId := p + 1), s, p, Token(p)).(repo := sv.repo[p := state]))
  {
    var p := sv.nextPlayerId;
    var kept := Bound(sv.(nextPlayerId := p + 1), s, p, Token(p)).(repo := sv.repo[p := state]);
    NobodyYet(sv);
    hide Sound, Bindings, Seats, Presence, Waiting, Tokens, Token;
    BoundBindings(sv, s, p, Token(p));
    RegisteredSeats(sv, p, state, kept.players);
    NewcomerSound(sv, s, state);
    NewcomerRest(sv, s, p);
    return;
  }

  lemma NobodyYet(sv: Server)
    requires Agreed(sv)
    ensures var p := sv.nextPlayerId; p > 0 && p !in sv.repo && p !in sv.states && p !in sv.players
  {
    hide Seats, Presence, Waiting, Tokens, TableOk, Remembers;
  }

  /** The rest of the agreement survives binding a player who has no seat and no state. */
  lemma NewcomerRest(sv: Server, s: Sid, p: int)
    requires Presence(sv.states, sv.players) && Waiting(sv.queue, sv.players, sv.rooms)
    requires Tokens(sv.sessions, sv.states) && s in sv.sessions && p !in sv.states
    ensures Presence(sv.states, sv.players[p := s]) && Waiting(sv.queue, sv.players[p := s], sv.rooms)
    ensures Tokens(sv.sessions[s := sv.sessions[s].(playerId := p, token := Token(p))], sv.states)
  {
    hide Token;
  }

  lemma ReturnedSeats(sv: Server, s: Sid, p: int)
    requires TableOk(sv.rooms) && Seats(sv.rooms, sv.states, sv.players, sv.repo)
    ensures MarkedIn(sv.rooms, p, Online).Ok?
    ensures Seats(MarkedIn(sv.rooms, p, Online).value, MarkedOnline(sv.states, p), sv.players[p := s], sv.repo)
  {
    MarkedInSeats(sv.rooms, p, Online);
    var rooms := MarkedIn(sv.rooms, p, Online).value;
    forall q | q in rooms.playerRoom
      ensures Seat(rooms, MarkedOnline(sv.states, p), sv.players[p := s], sv.repo, q)
    {
      assert Seat(sv.rooms, sv.states, sv.players, sv.repo, q);
    }
  }

  lemma ReconnectAgreed(sv: Server, s: Sid, p: int, token: string)
    requires Agreed(sv) && s in sv.sessions && sv.sessions[s].open && sv.sessions[s].playerId == 0 && p > 0
    ensures Reconnect(sv, s, p, token).Ok? && Agreed(Reconnect(sv, s, p, token).value)
  {
    hide Agreed, Answer, Bound, MarkedIn, MarkedOnline;
    if p in sv.states && sv.states[p].token == token && sv.states[p].conn == Offline {
      ReturnedAgreed(sv, s, p, token);
      var rooms, states := MarkedIn(sv.rooms, p, Online).value, MarkedOnline(sv.states, p);
      AnswerAgreed(Bound(sv, s, p, token).(rooms := rooms, states := states),
                   s, ReconnectSuccess(p, sv.states[p].roomId));
    } else {
      ReconnectRefused(sv, s, p, token);
    }
    return;
  }

  lemma ReturnedAgreed(sv: Server, s: Sid, p: int, token: string)
    requires Agreed(sv) && s in sv.sessions && sv.sessions[s].open && sv.sessions[s].playerId == 0 && p > 0
    requires p in sv.states && sv.states[p].token == token && sv.states[p].conn == Offline
    ensures MarkedIn(sv.rooms, p, Online).Ok?
    ensures Agreed(Bound(sv, s, p, token).(
                     rooms := MarkedIn(sv.rooms, p, Online).value, states := MarkedOnline(sv.states, p)))
  {
    assert TableOk(sv.rooms) && token == Token(p) && p !in sv.players by {
      hide Bindings, Seats, Remembers, Registered, Waiting, Token;
    }
    hide Sound, Bindings, Seats, Presence, Waiting, Tokens, TableOk, Token, MarkedIn;
    BoundBindings(sv, s, p, token);
    ReturnedSeats(sv, s, p);
    MarkedInOk(sv.rooms, p, Online);
    ReturnedSound(sv, s, p, token);
    ReturnedRest(sv, s, p, token, MarkedIn(sv.rooms, p, Online).value);
    return;
  }

  lemma ReturnedRest(sv: Server, s: Sid, p: int, token: string, rooms: RoomTable)
    requires Presence(sv.states, sv.players) && Waiting(sv.queue, sv.players, sv.rooms)
    requires Tokens(sv.sessions, sv.states) && s in sv.sessions && p > 0
    requires token == Token(p) && rooms.playerRoom == sv.rooms.playerRoom
    ensures Presence(MarkedOnline(sv.states, p), sv.players[p := s])
    ensures Waiting(sv.queue, sv.players[p := s], rooms)
    ensures Tokens(sv.sessions[s := sv.sessions[s].(playerId := p, token := token)], MarkedOnline(sv.states, p))
  {
    hide Token;
  }

  lemma ReconnectRefused(sv: Server, s: Sid, p: int, token: string)
    requires Agreed(sv) && s in sv.sessions
    requires !(p in sv.states && sv.states[p].token == token && sv.states[p].conn == Offline)
    ensures Reconnect(sv, s, p, token).Ok? && Agreed(Reconnect(sv, s, p, token).value)
  {
    var mine := sv.sessions[s].playerId;
    AnswerAgreed(sv, s, ReconnectFailed(mine, "player state not found"));
    AnswerAgreed(sv, s, ReconnectFailed(mine, "token is not match"));
    AnswerAgreed(sv, s, ReconnectFailed(mine, "connection state is not offline"));
  }

  lemma ServedIsKnown(sv: Server, p: int)
    requires Agreed(sv) && p in sv.players
    ensures p > 0 && p in sv.repo && !OfflineIn(sv.states, p)
  {
    hide Seats, Waiting, Tokens, TableOk, Remembers;
  }

  /** New seats for players who are served and had none. */
  lemma SeatedTogether(t: RoomTable, states: States, served: map<int, Sid>, repo: Repo, players: seq<int>)
    requires TableOk(t) && Seats(t, states, served, repo) && NoDup(players) && players != []
    requires forall p :: p in players ==> p in served && p !in t.playerRoom && p in repo && !OfflineIn(states, p)
    ensures Seats(Opened(t, players), states, served, AssignRoom(repo, players, t.nextRoomId))
  {
    OpenedSeats(t, players);
    hide Opened, TableOk, OfflineIn, MarkedOffline, NoStraySeat;
    var rooms, after := Opened(t, players), AssignRoom(repo, players, t.nextRoomId);
    forall p | p in rooms.playerRoom ensures Seat(rooms, states, served, after, p) {
      if p !in players {
        assert Seat(t, states, served, repo, p);
      }
    }
    return;
  }

  /** What an operation on rooms and repository has to show. */
  lemma TablesAgreed(sv: Server, rooms: RoomTable, repo: Repo)
    requires Agreed(sv) && Sound(sv.(rooms := rooms, repo := repo))
    requires Seats(rooms, sv.states, sv.players, repo) && Waiting(sv.queue, sv.players, rooms)
    ensures Agreed(sv.(rooms := rooms, repo := repo))
  {
    hide Sound, Bindings, Seats, Presence, Waiting, Tokens;
  }

  lemma OpenedWaiting(q: Queue, served: map<int, Sid>, t: RoomTable, players: seq<int>)
    requires Waiting(q, served, t) && forall p :: p in players ==> p !in q.waiting
    ensures Waiting(q, served, Opened(t, players))
  {
  }

  /** A room for waiting players: every session lookup succeeds. */
  lemma RoomForAgreed(sv: Server, players: seq<int>)
    requires Agreed(sv) && NoDup(players) && players != []
    requires forall p :: p in players ==> p in sv.players && p !in sv.rooms.playerRoom && p !in sv.queue.waiting
    ensures RoomFor(sv, players).Ok? && Agreed(RoomFor(sv, players).value)
  {
    var m := sv.proto.Encode(RoomCreated(sv.rooms.nextRoomId, players));
    EverybodyIsServed(sv);
    forall p | p in players ensures p in sv.repo && !OfflineIn(sv.states, p) {
      ServedIsKnown(sv, p);
    }
    assert TableOk(sv.rooms);
    hide Sound, Bindings, Seats, Presence, Waiting, Tokens, TableOk, Notified, Opened, AssignRoom, Served, OfflineIn;
    NotifiedKeepsSessions(sv.players, sv.sessions, players, m);
    RoomForSound(sv, players);
    SeatedTogether(sv.rooms, sv.states, sv.players, sv.repo, players);
    OpenedWaiting(sv.queue, sv.players, sv.rooms, players);
    var sessions := Notified(sv.players, sv.sessions, players, m).value;
    SameBindingsAgreed(sv, sessions);
    TablesAgreed(sv.(sessions := sessions), Opened(sv.rooms, players),
                 AssignRoom(sv.repo, players, sv.rooms.nextRoomId));
    return;
  }

  lemma MatchAgreed(sv: Server, s: Sid, p: int)
    requires Agreed(sv) && s in sv.sessions && sv.sessions[s].open
    requires p == sv.sessions[s].playerId && p !in sv.rooms.playerRoom
    ensures Match(sv, s, p).Ok? && Agreed(Match(sv, s, p).value)
  {
    if p <= 0 {
      AnswerAgreed(sv, s, MatchFailed("player_id must be non-negative"));
    } else if p in sv.queue.members {
      AnswerAgreed(sv, s, MatchFailed("player_id already in match_queue"));
    } else {
      var (players, queue) := Popped(Joined(sv.queue, p), ROOM_SIZE);
      NextInLine(sv.queue, sv.players, sv.rooms, p);
      QueueAgreed(sv, queue);
      AnswerAgreed(sv.(queue := queue), s, MatchSuccess);
      if players != [] {
        hide Agreed, Popped, Joined, RoomFor;
        var queued := Answer(sv.(queue := queue), s, MatchSuccess);
        RoomForAgreed(queued, players);
      }
    }
  }

  lemma QueueAgreed(sv: Server, queue: Queue)
    requires Agreed(sv) && QueueOk(queue) && |queue.waiting| < ROOM_SIZE
    requires Waiting(queue, sv.players, sv.rooms)
    ensures Agreed(sv.(queue := queue))
  {
    assert Registered(sv.(queue := queue));
  }

  /** What joining and popping leave: the popped are served, in no room, and no longer waiting. */
  lemma NextInLine(q: Queue, served: map<int, Sid>, t: RoomTable, p: int)
    requires QueueOk(q) && |q.waiting| < ROOM_SIZE && Waiting(q, served, t)
    requires p in served && p !in t.playerRoom && p !in q.members
    ensures var (players, queue) := Popped(Joined(q, p), ROOM_SIZE);
      && QueueOk(queue) && |queue.waiting| < ROOM_SIZE && Waiting(queue, served, t) && NoDup(players)
      && forall x :: x in players ==> x in served && x !in t.playerRoom && x !in queue.waiting
  {
    var joined := Joined(q, p);
    JoinOk(q, p);
    assert Waiting(joined, served, t);
    PopOk(joined, ROOM_SIZE);
    var (players, queue) := Popped(joined, ROOM_SIZE);
    assert |queue.waiting| < ROOM_SIZE;
    hide Popped, Joined;
    Split(players, queue.waiting);
    return;
  }

  lemma Split(a: seq<int>, b: seq<int>)
    requires NoDup(a + b)
    ensures forall x :: x in a ==> x !in b
    ensures forall x :: x in a || x in b ==> x in a + b
  {
    forall i, j | 0 <= i < |a| && 0 <= j < |b| ensures a[i] != b[j] {
      assert (a + b)[i] == a[i] && (a + b)[|a| + j] == b[j];
    }
  }

  lemma ScoredSeats(t: RoomTable, states: States, served: map<int, Sid>, repo: Repo, p: int)
    requires Seats(t, states, served, repo)
    ensures Seats(t, states, served, AddScore(repo, p, 1))
  {
    hide OfflineIn, MarkedOffline, NoStraySeat;
    forall q | q in t.playerRoom ensures Seat(t, states, served, AddScore(repo, p, 1), q) {
      assert Seat(t, states, served, repo, q);
    }
    return;
  }

  lemma ChatAgreed(sv: Server, s: Sid, r: int, text: string)
    requires Agreed(sv) && s in sv.sessions && Chat(sv, s, r, text).Ok?
    ensures Agreed(Chat(sv, s, r, text).value)
  {
    var p := sv.sessions[s].playerId;
    hide Sound, Bindings, Seats, Presence, Waiting, Tokens, Notified, AddScore, Served;
    var to, m := sv.rooms.rooms[r].playerIds, sv.proto.Encode(ChatNotify(r, p, text));
    NotifiedKeepsSessions(Served(sv.players, sv.gone), sv.sessions, to, m);
    var sessions := Notified(Served(sv.players, sv.gone), sv.sessions, to, m).value;
    ChatSound(sv, s, r, text);
    SameBindingsAgreed(sv, sessions);
    ScoredSeats(sv.rooms, sv.states, sv.players, sv.repo, p);
    TablesAgreed(sv.(sessions := sessions), sv.rooms, AddScore(sv.repo, p, 1));
    return;
  }

  lemma HandleAgreed(w: World, s: Sid, message: Message, choice: Choice)
    requires Agreed(w.server) && Disciplined(w, Receive(s, message, choice))
    ensures Handle(w.server, s, message, choice, w.now).Ok? ==>
              Agreed(Handle(w.server, s, message, choice, w.now).value)
    ensures !w.server.proto.Request(message).ChatReq? ==> Handle(w.server, s, message, choice, w.now).Ok?
  {
    var sv, request := w.server, w.server.proto.Request(message);
    hide Agreed, Login, Match, Chat, Reconnect, Answer;
    var active := Touched(sv, s, w.now);
    SameBindingsAgreed(sv, active.sessions);
    if request.LoginReq? {
      LoginAgreed(active, s, request.username, choice.wallMs);
    } else if request.MatchReq? {
      MatchAgreed(active, s, request.playerId);
    } else if request.ChatReq? {
      if Chat(active, s, request.roomId, request.text).Ok? {
        ChatAgreed(active, s, request.roomId, request.text);
      }
    } else if request.HeartbeatReq? {
      SameBindingsAgreed(active, Touched(active, s, w.now).sessions);
      AnswerAgreed(Touched(active, s, w.now), s, HeartbeatResp(request.clientTimeMs, WholeMillis(w.now)));
    } else if request.ReconnectReq? {
      ReconnectAgreed(active, s, request.playerId, request.token);
    } else if request.RankingReq? {
      AnswerAgreed(active, s, RankingResp(choice.top));
    }
    return;
  }

  lemma LostSeats(sv: Server, p: int, roomId: int, token: string, now: int)
    requires TableOk(sv.rooms) && Seats(sv.rooms, sv.states, sv.players, sv.repo)
    ensures MarkedIn(sv.rooms, p, Offline).Ok?
    ensures Seats(MarkedIn(sv.rooms, p, Offline).value,
                  MarkedDisconnected(SavedOnline(sv.states, p, roomId, token), p, now), sv.players - {p}, sv.repo)
  {
    MarkedInSeats(sv.rooms, p, Offline);
    var rooms := MarkedIn(sv.rooms, p, Offline).value;
    var states := MarkedDisconnected(SavedOnline(sv.states, p, roomId, token), p, now);
    forall q | q in rooms.playerRoom ensures Seat(rooms, states, sv.players - {p}, sv.repo, q) {
      assert Seat(sv.rooms, sv.states, sv.players, sv.repo, q);
    }
  }

  lemma ClosedBindings(sv: Server, s: Sid, now: int)
    requires Agreed(sv) && s in sv.sessions && sv.sessions[s].open && Closed(sv, s, now).Ok?
    ensures var after := Closed(sv, s, now).value;
      && Bindings(after.players, after.sessions, after.conns)
      && Presence(after.states, after.players)
      && Tokens(after.sessions, after.states)
  {
    hide Sound, Seats, Waiting, Token, MarkedIn, Departed, RoomIdOf;
  }

  lemma ClosedSeats(sv: Server, s: Sid, now: int)
    requires Agreed(sv) && s in sv.sessions && sv.sessions[s].open && Closed(sv, s, now).Ok?
    ensures var after := Closed(sv, s, now).value;
      && Seats(after.rooms, after.states, after.players, after.repo)
      && Waiting(after.queue, after.players, after.rooms)
  {
    var p := sv.sessions[s].playerId;
    hide Bindings, Presence, Seats, Tokens, TableOk, Remembers, Registered, Closing, MarkedIn, Departed;
    LeaveOk(sv.queue, p);
    MarkedInOk(sv.rooms, p, Offline);
    LostSeats(sv, p, RoomIdOf(sv.rooms, p), sv.sessions[s].token, now);
    return;
  }

  lemma ClosedAgreed(sv: Server, s: Sid, now: int)
    requires Agreed(sv)
    ensures Closed(sv, s, now).Ok? && Agreed(Closed(sv, s, now).value)
  {
    ClosedSound(sv, s, now);
    if s in sv.sessions && sv.sessions[s].open {
      hide Bindings, Presence, Seats, Waiting, Tokens, Sound, Closed;
      ClosedBindings(sv, s, now);
      ClosedSeats(sv, s, now);
    }
  }

  lemma {:induction false} ClosedAllAgreed(sv: Server, order: seq<Sid>, now: int)
    requires Agreed(sv)
    ensures ClosedAll(sv, order, now).Ok? && Agreed(ClosedAll(sv, order, now).value)
  {
    if order != [] {
      var n := |order| - 1;
      ClosedAllAgreed(sv, order[..n], now);
      ClosedAgreed(ClosedAll(sv, order[..n], now).value, order[n], now);
    }
  }

  lemma {:induction false} ForgottenAgreed(sv: Server, order: seq<int>)
    requires Agreed(sv) && forall p :: p in order ==> p !in sv.players
    ensures Forgotten(sv, order).Ok? && Agreed(Forgotten(sv, order).value)
    ensures Forgotten(sv, order).value.players == sv.players
  {
    hide Agreed, Removed;
    if order != [] {
      var n := |order| - 1;
      ForgottenAgreed(sv, order[..n]);
      assert order[n] in order;
      RemovedAgreed(Forgotten(sv, order[..n]).value, order[n]);
    }
    return;
  }

  lemma RemovedAgreed(sv: Server, p: int)
    requires Agreed(sv) && p !in sv.players
    ensures Removed(sv.rooms, p).Ok?
    ensures Agreed(sv.(rooms := Removed(sv.rooms, p).value, states := sv.states - {p}))
  {
    hide Bindings, Waiting, Presence, Tokens, Removed, Registered, Closing;
    RemovedSound(sv, p);
    RemovedSeats(sv.rooms, p);
    hide TableOk, Remembers, QueueOk;
    var rooms := Removed(sv.rooms, p).value;
    forall q | q in rooms.playerRoom ensures Seat(rooms, sv.states - {p}, sv.players, sv.repo, q) {
      assert Seat(sv.rooms, sv.states, sv.players, sv.repo, q);
    }
    RemovedRest(sv, p, rooms);
    return;
  }

  lemma RemovedRest(sv: Server, p: int, rooms: RoomTable)
    requires Presence(sv.states, sv.players) && Waiting(sv.queue, sv.players, sv.rooms)
    requires Tokens(sv.sessions, sv.states) && p !in sv.players && rooms.playerRoom == sv.rooms.playerRoom - {p}
    ensures Presence(sv.states - {p}, sv.players) && Waiting(sv.queue, sv.players, rooms)
    ensures Tokens(sv.sessions, sv.states - {p})
  {
  }

  /** With disciplined clients only a chat can end the process. */
  lemma StepAgreed(w: World, event: Event)
    requires Agreed(w.server) && Possible(w, event) && Disciplined(w, event)
    ensures Step(w, event).Ok? ==> Agreed(Step(w, event).value.server)
    ensures Step(w, event).Fault? ==> event.Receive? && w.server.proto.Request(event.message).ChatReq?
  {
    hide Handle, Closed, ClosedAll, Forgotten;
    match event
    case Accept(s) => AcceptedAgreed(w.server, s, w.now);
    case Receive(s, message, choice) => HandleAgreed(w, s, message, choice);
    case Destroy(_) =>
    case CloseSession(s) => ClosedAgreed(w.server, s, w.now);
    case HeartbeatSweep(stale) => ClosedAllAgreed(w.server, stale, w.now);
    case ReconnectSweep(expired) =>
      ExpiredAreNotServed(w.server, w.now, expired);
      ForgottenAgreed(w.server, expired);
    case Tick(_) =>
  }

  lemma AcceptedAgreed(sv: Server, s: Sid, now: int)
    requires Agreed(sv) && s !in sv.sessions
    ensures Agreed(Accepted(sv, s, now))
  {
    hide Seats, Presence, Waiting, TableOk, Remembers, QueueOk, Token;
  }

  lemma ExpiredAreNotServed(sv: Server, now: int, expired: seq<int>)
    requires Agreed(sv) && Enumerates(expired, Expired(sv.states, now, RECONNECT_TIMEOUT))
    ensures forall p :: p in expired ==> p !in sv.players
  {
    hide Sound, Seats, Waiting, Tokens;
  }

  lemma {:induction false} RunAgreed(start: World, events: seq<Event>)
    requires Fresh(start) && AllDisciplined(start, events) && Run(start, events).Some?
    ensures Agreed(Run(start, events).value.server)
  {
    if events != [] {
      var n := |events| - 1;
      RunAgreed(start, events[..n]);
      StepAgreed(Run(start, events[..n]).value, events[n]);
    }
  }

  lemma ReachedAgreed(w: World)
    requires ReachedByDiscipline(w)
    ensures Agreed(w.server)
  {
    var start, events :| Fresh(start) && AllDisciplined(start, events) && Run(start, events) == Some(w);
    RunAgreed(start, events);
  }
}
