/** Runs that show where promises fail, one for each condition stated elsewhere. */
module Counterexamples {
  import opened Prelude
  import opened MessageCodec
  import opened Protocol
  import opened PlayerStates
  import opened Sessions
  import opened Rooms
  import opened ServerModel
  import opened Runs
  import opened MatchQueues
  import opened Soundness
  import opened Discipline
  import opened Agreement
  import opened Effects
  import opened RememberedRooms
  import opened WatchedSessions
  import opened RoomHistory
  import opened HeartbeatSweeps
  import opened Crashes
  import opened Identities

  /** A protocol whose one-byte bodies name a player (counted from the first id) or a room. */
  const DEMO: Proto := Proto(
    body => "player",
    body => if |body| == 0 then 0 else FIRST_PLAYER_ID + body[0] as int,
    body => (if |body| == 0 then 0 else body[0] as int, "hello"),
    body => 0,
    body => (FIRST_PLAYER_ID, Token(FIRST_PLAYER_ID)),
    body => 10,
    reply => [])

  const ANY := Choice(0, [])

  function LoginOn(s: Sid): Event {
    Receive(s, Message(LOGIN_REQ, []), ANY)
  }

  function MatchOn(s: Sid, player: Byte): Event {
    Receive(s, Message(MATCH_REQ, [player]), ANY)
  }

  function ChatOn(s: Sid, room: Byte): Event {
    Receive(s, Message(CHAT_REQ, [room]), ANY)
  }

  lemma Extend(start: World, events: seq<Event>, event: Event)
    requires Run(start, events).Some? && Possible(Run(start, events).value, event)
    ensures Run(start, events + [event])
         == match Step(Run(start, events).value, event) case Fault => None case Ok(next) => Some(next)
    ensures AllDisciplined(start, events) && Disciplined(Run(start, events).value, event)
        ==> AllDisciplined(start, events + [event])
  {
    RunOne(start, events, event);
    assert (events + [event])[..|events + [event]| - 1] == events;
  }

  lemma Reach(w: World, event: Event)
    requires ReachedByDiscipline(w) && Possible(w, event) && Disciplined(w, event) && Step(w, event).Ok?
    ensures ReachedByDiscipline(Step(w, event).value)
  {
    var start, events :| Fresh(start) && AllDisciplined(start, events) && Run(start, events) == Some(w);
    Extend(start, events, event);
  }

  const START := World(EmptyServer(DEMO), 0)

  lemma StartReached()
    ensures ReachedByDiscipline(START)
  {
    assert Fresh(START) && AllDisciplined(START, []) && Run(START, []) == Some(START);
  }

  // ---- Disciplined clients ----

  lemma TwoConnections() returns (w: World)
    ensures ReachedByDiscipline(w)
    ensures w.server == START.server.(sessions := map[0 := SessionView(true, 0, "", 0, []),
                                                      1 := SessionView(true, 0, "", 0, [])])
  {
    StartReached();
    w := START;
    Reach(w, Accept(0));
    w := Step(w, Accept(0)).value;
    Reach(w, Accept(1));
    w := Step(w, Accept(1)).value;
  }

  /** A login on a connection nobody has logged in on yet. */
  lemma LogsIn(w: World, s: Sid) returns (next: World)
    requires ReachedByDiscipline(w) && w.server.proto == DEMO && s in w.server.sessions && s !in w.server.gone
    requires w.server.sessions[s].open && w.server.sessions[s].playerId == 0
    ensures ReachedByDiscipline(next) && Ok(next.server) == Handle(w.server, s, LoginOn(s).message, ANY, w.now)
    ensures SameBindings(next.server.sessions,
                         w.server.sessions[s := w.server.sessions[s].(playerId := w.server.nextPlayerId,
                                                                     token := Token(w.server.nextPlayerId))])
    ensures next.server.nextPlayerId == w.server.nextPlayerId + 1 && next.server.proto == DEMO
    ensures next.server.queue == w.server.queue && next.server.rooms == w.server.rooms
    ensures next.server.states == w.server.states && next.server.gone == w.server.gone
  {
    hide Handle, ReachedByDiscipline, Token;
    LoginDoes(w.server, s, LoginOn(s).message, ANY, w.now);
    Reach(w, LoginOn(s));
    next := Step(w, LoginOn(s)).value;
    return;
  }

  /** Two players have logged in on sessions 0 and 1. */
  lemma TwoPlayers() returns (w: World)
    ensures ReachedByDiscipline(w)
    ensures w.server.proto == DEMO && w.server.nextPlayerId == FIRST_PLAYER_ID + 2
    ensures w.server.sessions.Keys == {0, 1} && w.server.gone == {}
    ensures w.server.sessions[0].open && w.server.sessions[0].playerId == FIRST_PLAYER_ID
    ensures w.server.sessions[1].open && w.server.sessions[1].playerId == FIRST_PLAYER_ID + 1
    ensures w.server.queue.waiting == [] && w.server.rooms.playerRoom == map[] && w.server.rooms.nextRoomId == 1
    ensures w.server.states == map[]
  {
    hide Handle, ReachedByDiscipline, Token;
    w := TwoConnections();
    w := LogsIn(w, 0);
    w := LogsIn(w, 1);
    return;
  }

  /** A player who is served and sits in no room asks for a match while nobody waits. */
  lemma FirstJoins(before: World, s: Sid, player: Byte) returns (w: World)
    requires ReachedByDiscipline(before) && before.server.proto == DEMO
    requires s in before.server.sessions && before.server.sessions[s].open && s !in before.server.gone
    requires before.server.sessions[s].playerId == FIRST_PLAYER_ID + player as int
    requires before.server.queue.waiting == [] && FIRST_PLAYER_ID + player as int !in before.server.rooms.playerRoom
    ensures ReachedByDiscipline(w) && Step(before, MatchOn(s, player)) == Ok(w)
    ensures w.server.proto == DEMO && w.server.rooms == before.server.rooms && w.server.players == before.server.players
    ensures SameBindings(w.server.sessions, before.server.sessions) && w.server.gone == before.server.gone
    ensures w.server.nextPlayerId == before.server.nextPlayerId && w.server.states == before.server.states
    ensures w.server.queue.waiting == [FIRST_PLAYER_ID + player as int]
  {
    hide Step, ReachedByDiscipline, Possible, Disciplined;
    CanAsk(before, s, player);
    DisciplinedIsReached(before);
    MatchWithoutPair(before, s, MatchOn(s, player).message, ANY);
    Reach(before, MatchOn(s, player));
    w := Step(before, MatchOn(s, player)).value;
    return;
  }

  lemma CanAsk(w: World, s: Sid, player: Byte)
    requires w.server.proto == DEMO && s in w.server.sessions && w.server.sessions[s].open && s !in w.server.gone
    requires w.server.sessions[s].playerId == FIRST_PLAYER_ID + player as int
    requires FIRST_PLAYER_ID + player as int !in w.server.rooms.playerRoom
    ensures Possible(w, MatchOn(s, player)) && Disciplined(w, MatchOn(s, player))
  {
  }

  /** Another player joins the one who waits, and the two get the next room. */
  lemma SecondJoins(before: World, s: Sid, player: Byte, first: int) returns (w: World)
    requires ReachedByDiscipline(before) && before.server.proto == DEMO
    requires s in before.server.sessions && before.server.sessions[s].open && s !in before.server.gone
    requires before.server.sessions[s].playerId == FIRST_PLAYER_ID + player as int != first
    requires before.server.queue.waiting == [first]
    requires FIRST_PLAYER_ID + player as int !in before.server.rooms.playerRoom
    ensures first !in before.server.rooms.playerRoom
    ensures ReachedByDiscipline(w) && Step(before, MatchOn(s, player)) == Ok(w)
    ensures var r := before.server.rooms.nextRoomId;
      && w.server.rooms.rooms == before.server.rooms.rooms[r := NewRoom(r, [first, FIRST_PLAYER_ID + player as int])]
      && w.server.rooms.playerRoom
         == before.server.rooms.playerRoom[first := r][FIRST_PLAYER_ID + player as int := r]
    ensures w.server.queue.waiting == [] && w.server.players == before.server.players
    ensures SameBindings(before.server.sessions, w.server.sessions) && w.server.gone == before.server.gone
    ensures w.server.states == before.server.states && w.server.proto == DEMO
  {
    var event := MatchOn(s, player);
    hide Handle, ReachedByDiscipline, Possible, Disciplined, SameBindings, NewRoom;
    CanAsk(before, s, player);
    MatchedPairIsReady(before, s, event.message, ANY, first);
    PairRoom(before.server.rooms.nextRoomId, first, FIRST_PLAYER_ID + player as int);
    Reach(before, event);
    w := Step(before, event).value;
    OnlyMailAndActivity(before.server.sessions, w.server.sessions);
    return;
  }

  lemma OnlyMailAndActivity(a: map<Sid, SessionView>, b: map<Sid, SessionView>)
    requires a.Keys == b.Keys
    requires forall t :: t in a ==> b[t] == a[t].(lastActive := b[t].lastActive, sent := b[t].sent)
    ensures SameBindings(a, b)
  {
  }

  /** The two are in room 1 together; the queue is empty again. */
  lemma PairInRoom() returns (w: World)
    ensures ReachedByDiscipline(w) && w.server.proto == DEMO
    ensures w.server.sessions.Keys == {0, 1} && w.server.gone == {}
    ensures w.server.sessions[0].open && w.server.sessions[0].playerId == FIRST_PLAYER_ID
    ensures w.server.sessions[1].open && w.server.sessions[1].playerId == FIRST_PLAYER_ID + 1
    ensures w.server.queue.waiting == []
    ensures w.server.rooms.playerRoom == map[FIRST_PLAYER_ID := 1, FIRST_PLAYER_ID + 1 := 1]
  {
    hide Step, ReachedByDiscipline, NewRoom;
    w := TwoPlayers();
    w := FirstJoins(w, 0, 0);
    w := SecondJoins(w, 1, 1, FIRST_PLAYER_ID);
    return;
  }

  /** A connection closes; what the sweep theorem says of one close. */
  lemma Loses(before: World, s: Sid) returns (w: World)
    requires ReachedByDiscipline(before) && s in before.server.sessions && before.server.sessions[s].open
    requires before.server.sessions[s].playerId != 0
    ensures ReachedByDiscipline(w) && Step(before, CloseSession(s)) == Ok(w) && w.now == before.now
    ensures WentDown(before.server, w.server, {s}, before.now)
  {
    hide Step, ReachedByDiscipline, WentDown;
    CloseIsExact(before, s);
    Reach(before, CloseSession(s));
    w := Step(before, CloseSession(s)).value;
    ClosingTakesNoTime(before, s);
    return;
  }

  lemma ClosingTakesNoTime(w: World, s: Sid)
    requires Possible(w, CloseSession(s)) && Step(w, CloseSession(s)).Ok?
    ensures Step(w, CloseSession(s)).value.now == w.now
  {
  }

  /** A chat in a room whose other member has disconnected ends the process for everybody. */
  lemma ChatToAnAbsentMember() returns (w: World, event: Event)
    ensures ReachedByDiscipline(w) && Possible(w, event) && Disciplined(w, event)
    ensures event.Receive? && w.server.proto.Request(event.message) == ChatReq(1, "hello")
    ensures 1 in w.server.rooms.rooms && Step(w, event).Fault?
  {
    var before := PairInRoom();
    hide Step, ReachedByDiscipline;
    w := Loses(before, 1);
    event := ChatOn(0, 1);
    RoomRecordsAgree(w, FIRST_PLAYER_ID + 1, 1);
    assert OfflineIn(w.server.states, FIRST_PLAYER_ID + 1);
    RoomMarksAgree(w, 1, FIRST_PLAYER_ID + 1);
    assert 0 !in w.server.gone;
    DisciplinedServerEndsIff(w, event);
    return;
  }

  /** The first player has disconnected before any match, and a new connection is open. */
  lemma Lost() returns (w: World)
    ensures ReachedByDiscipline(w) && w.server.proto == DEMO && w.server.gone == {}
    ensures w.server.sessions.Keys == {0, 1, 2}
    ensures w.server.sessions[1].open && w.server.sessions[1].playerId == FIRST_PLAYER_ID + 1
    ensures w.server.sessions[2].open && w.server.sessions[2].playerId == 0
    ensures w.server.queue.waiting == [] && w.server.rooms.playerRoom == map[]
    ensures OfflineIn(w.server.states, FIRST_PLAYER_ID)
  {
    var before := TwoPlayers();
    hide ReachedByDiscipline;
    var alone := Loses(before, 0);
    Reach(alone, Accept(2));
    w := Step(alone, Accept(2)).value;
    return;
  }

  /** The first player has come back on session 2. */
  lemma BackOnSession2() returns (w: World)
    ensures ReachedByDiscipline(w) && w.server.proto == DEMO && w.server.gone == {}
    ensures w.server.sessions.Keys == {0, 1, 2}
    ensures w.server.sessions[1].open && w.server.sessions[1].playerId == FIRST_PLAYER_ID + 1
    ensures w.server.sessions[2].open && w.server.sessions[2].playerId == FIRST_PLAYER_ID
    ensures w.server.queue.waiting == [] && w.server.rooms.playerRoom == map[]
    ensures FIRST_PLAYER_ID in w.server.states
  {
    var before := Lost();
    var back := Receive(2, Message(RECONNECT_REQ, []), ANY);
    hide Handle, ReachedByDiscipline, Token;
    assert Possible(before, back) && Disciplined(before, back);
    RoomMarkOfTheLost(before);
    hide Disciplined, Possible, OfflineIn;
    w := ComesBack(before, back);
    return;
  }

  lemma ComesBack(before: World, back: Event) returns (w: World)
    requires ReachedByDiscipline(before) && Possible(before, back) && Disciplined(before, back)
    requires back.Receive?
    requires back.message.msgId == 9101
    requires before.server.proto.reconnect(back.message.body) == (FIRST_PLAYER_ID, Token(FIRST_PLAYER_ID))
    requires OfflineIn(before.server.states, FIRST_PLAYER_ID) && FIRST_PLAYER_ID !in before.server.players
    ensures ReachedByDiscipline(w) && Step(before, back) == Ok(w) && w.server.proto == before.server.proto
    ensures w.server.sessions.Keys == before.server.sessions.Keys && w.server.gone == before.server.gone
    ensures w.server.sessions[back.s].open && w.server.sessions[back.s].playerId == FIRST_PLAYER_ID
    ensures forall t :: t in before.server.sessions && t != back.s ==> w.server.sessions[t] == before.server.sessions[t]
    ensures w.server.queue == before.server.queue && w.server.rooms.playerRoom == before.server.rooms.playerRoom
    ensures FIRST_PLAYER_ID in w.server.states
  {
    hide Handle, ReachedByDiscipline, Token, MarkedIn, MarkedOffline;
    ReconnectIsAnswered(before, back.s, back.message, back.choice);
    ReconnectRestoresTheSeat(before, back.s, back.message, back.choice);
    Reach(before, back);
    w := Step(before, back).value;
    HandleEffect(before.server, back.s, back.message, back.choice, before.now);
    return;
  }

  lemma RoomMarkOfTheLost(w: World)
    requires ReachedByDiscipline(w) && OfflineIn(w.server.states, FIRST_PLAYER_ID)
    ensures FIRST_PLAYER_ID !in w.server.players
  {
    ReachedAgreed(w);
  }

  /** A player who disconnects and comes back before being matched has a state when the match is made; so after
      the next disconnection no room is remembered for that player, who sits in one. */
  lemma ForgottenRoom() returns (start: World, events: seq<Event>)
    ensures Fresh(start) && AllDisciplined(start, events) && Run(start, events).Some?
    ensures var sv := Run(start, events).value.server;
      && FIRST_PLAYER_ID in sv.rooms.playerRoom && OfflineIn(sv.states, FIRST_PLAYER_ID)
      && sv.states[FIRST_PLAYER_ID].roomId == -1
  {
    var before := BackOnSession2();
    hide Step, ReachedByDiscipline, NewRoom;
    var one := FirstJoins(before, 2, 0);
    start, events := History(one);
    var two := SecondJoins(one, 1, 1, FIRST_PLAYER_ID);
    Extend(start, events, MatchOn(1, 1));
    var three := Loses(two, 2);
    Extend(start, events + [MatchOn(1, 1)], CloseSession(2));
    RoomMarkAfterClose(three, two);
    RememberedRoomIsCurrentIff(start, events, 1, MatchOn(1, 1).message, ANY, [CloseSession(2)], FIRST_PLAYER_ID);
    events := events + [MatchOn(1, 1)] + [CloseSession(2)];
    return;
  }

  lemma RoomMarkAfterClose(w: World, before: World)
    requires 2 in before.server.sessions && before.server.sessions[2].playerId == FIRST_PLAYER_ID
    requires WentDown(before.server, w.server, {2}, before.now)
    ensures OfflineIn(w.server.states, FIRST_PLAYER_ID) && w.server.rooms.playerRoom == before.server.rooms.playerRoom
  {
    assert FIRST_PLAYER_ID in PlayersOf(before.server, {2});
  }

  lemma History(w: World) returns (start: World, events: seq<Event>)
    requires ReachedByDiscipline(w)
    ensures Fresh(start) && AllDisciplined(start, events) && Run(start, events) == Some(w)
  {
    start, events :| Fresh(start) && AllDisciplined(start, events) && Run(start, events) == Some(w);
  }

  /** Without the discipline a player in a room can be matched again: the situation in which a room leaks. */
  lemma RematchHappens() returns (start: World, events: seq<Event>, event: Event)
    ensures Fresh(start) && Run(start, events).Some? && Run(start, events + [event]).Some?
    ensures Rematch(Run(start, events).value, event)
  {
    hide Handle, ReachedByDiscipline, Reached, Agreed, Unreachable;
    var w := PairInRoom();
    start, events := History(w);
    ReachedAgreed(w);
    DisciplinedIsReached(w);
    var one := WaitsAgain(w);
    BothAreServed(w, one);
    Extend(start, events, MatchOn(0, 0));
    events, event := events + [MatchOn(0, 0)], MatchOn(1, 1);
    SecondMatchWorks(one);
    Extend(start, events, event);
    return;
  }

  lemma WaitsAgain(w: World) returns (one: World)
    requires Reached(w) && Agreed(w.server) && w.server.proto == DEMO && w.server.queue.waiting == []
    requires 0 in w.server.sessions && w.server.gone == {}
    ensures Possible(w, MatchOn(0, 0)) && Step(w, MatchOn(0, 0)) == Ok(one) && Reached(one)
    ensures one.server
         == w.server.(sessions := one.server.sessions, queue := Queue([FIRST_PLAYER_ID], {FIRST_PLAYER_ID}))
    ensures one.server.sessions.Keys == w.server.sessions.Keys
  {
    hide Step, Reached, Agreed, Possible;
    Asks(w, 0, 0);
    MatchWithoutPair(w, 0, MatchOn(0, 0).message, ANY);
    ReachAny(w, MatchOn(0, 0));
    one := Step(w, MatchOn(0, 0)).value;
    return;
  }

  lemma Asks(w: World, s: Sid, player: Byte)
    requires w.server.proto == DEMO && s in w.server.sessions && s !in w.server.gone
    ensures Possible(w, MatchOn(s, player))
    ensures DEMO.Request(MatchOn(s, player).message) == MatchReq(FIRST_PLAYER_ID + player as int)
  {
  }

  lemma SecondMatchWorks(one: World)
    requires Reached(one) && one.server.proto == DEMO && 1 in one.server.sessions && 1 !in one.server.gone
    requires one.server.queue.waiting == [FIRST_PLAYER_ID]
    requires !Unreachable(one.server, FIRST_PLAYER_ID) && !Unreachable(one.server, FIRST_PLAYER_ID + 1)
    ensures Possible(one, MatchOn(1, 1)) && Step(one, MatchOn(1, 1)).Ok?
  {
    hide Step, Reached, Unreachable;
    ServerEndsIff(one, MatchOn(1, 1));
    return;
  }

  lemma BothAreServed(w: World, one: World)
    requires Agreed(w.server) && one.server.players == w.server.players && one.server.gone == w.server.gone == {}
    requires w.server.sessions.Keys == {0, 1}
    requires w.server.sessions[0].open && w.server.sessions[0].playerId == FIRST_PLAYER_ID
    requires w.server.sessions[1].open && w.server.sessions[1].playerId == FIRST_PLAYER_ID + 1
    ensures !Unreachable(one.server, FIRST_PLAYER_ID) && !Unreachable(one.server, FIRST_PLAYER_ID + 1)
  {
    hide Seats, Presence, Tokens;
    assert Bindings(w.server.players, w.server.sessions, w.server.conns);
  }

  // ---- Undisciplined clients ----

  lemma ReachAny(w: World, event: Event)
    requires Reached(w) && Possible(w, event) && Step(w, event).Ok?
    ensures Reached(Step(w, event).value)
  {
    var start, events :| Fresh(start) && Run(start, events) == Some(w);
    RunOne(start, events, event);
  }

  /** A connection just accepted by a server in which nothing has happened. */
  lemma Connected() returns (w: World)
    ensures Reached(w) && w.server == Accepted(START.server, 0, 0) && w.now == 0
  {
    StartReached();
    DisciplinedIsReached(START);
    ReachAny(START, Accept(0));
    w := Step(START, Accept(0)).value;
  }

  /** Two match requests on a connection that never logged in, for two players nobody serves, end the
      process. */
  lemma TwoStrangersMatched() returns (w: World, event: Event)
    ensures Reached(w) && Possible(w, event) && Step(w, event).Fault?
    ensures event == MatchOn(0, 1) && w.server.players == map[] && w.server.queue.waiting == [FIRST_PLAYER_ID]
    ensures w.server.sessions.Keys == {0} && w.server.sessions[0].playerId == 0
  {
    var before := Connected();
    hide Handle;
    MatchLeavesWaiting(before.server, 0, MatchOn(0, 0).message, ANY, 0);
    ReachAny(before, MatchOn(0, 0));
    w, event := Step(before, MatchOn(0, 0)).value, MatchOn(0, 1);
    ServerEndsIff(w, event);
  }

  /** A login, as often as the client likes. */
  lemma LogsInAgain(w: World, s: Sid) returns (next: World)
    requires Reached(w) && w.server.proto == DEMO && s in w.server.sessions && s !in w.server.gone
    ensures Reached(next) && next.now == w.now && next.server.proto == DEMO
    ensures next.server.players == w.server.players[w.server.nextPlayerId := s]
    ensures next.server.nextPlayerId == w.server.nextPlayerId + 1
    ensures next.server.sessions.Keys == w.server.sessions.Keys
    ensures next.server.sessions[s].open == w.server.sessions[s].open
    ensures next.server.sessions[s].playerId == w.server.nextPlayerId
    ensures next.server.queue == w.server.queue && next.server.rooms == w.server.rooms
    ensures next.server.gone == w.server.gone && next.server.conns == w.server.conns + {s}
  {
    hide Handle, Reached, Token;
    LoginDoes(w.server, s, LoginOn(s).message, ANY, w.now);
    ReachAny(w, LoginOn(s));
    next := Step(w, LoginOn(s)).value;
    return;
  }

  /** A connection has logged in twice, closed and been destroyed: its first player is still mapped to it. */
  lemma LeftBehind() returns (w: World)
    ensures Reached(w) && w.server.proto == DEMO && w.server.gone == {0}
    ensures w.server.players == map[FIRST_PLAYER_ID := 0] && w.server.nextPlayerId == FIRST_PLAYER_ID + 2
    ensures w.server.queue.waiting == [] && w.server.queue.members == {} && w.server.sessions.Keys == {0}
  {
    var one := Connected();
    hide Handle, Reached;
    var two := LogsInAgain(one, 0);
    var three := LogsInAgain(two, 0);
    w := ClosesForGood(three);
    assert three.server.players - {FIRST_PLAYER_ID + 1} == map[FIRST_PLAYER_ID := 0];
    return;
  }

  lemma ClosesForGood(before: World) returns (w: World)
    requires Reached(before) && 0 in before.server.sessions && before.server.sessions[0].open
    requires before.server.queue == Queue([], {}) && before.server.gone == {}
    ensures Reached(w) && w.server.proto == before.server.proto && w.server.gone == {0}
    ensures w.server.players == before.server.players - {before.server.sessions[0].playerId}
    ensures w.server.nextPlayerId == before.server.nextPlayerId && w.server.queue == before.server.queue
    ensures w.server.sessions.Keys == before.server.sessions.Keys
  {
    hide Reached, SavedOnline, MarkedDisconnected, MarkedIn;
    ReachedSound(before);
    StepSound(before, CloseSession(0));
    ReachAny(before, CloseSession(0));
    var closed := Step(before, CloseSession(0)).value;
    ReachAny(closed, Destroy(0));
    w := Step(closed, Destroy(0)).value;
    return;
  }

  lemma AnotherConnects(gone: World) returns (w: World)
    requires Reached(gone) && 1 !in gone.server.sessions
    ensures Reached(w) && w.server == Accepted(gone.server, 1, gone.now)
  {
    hide Reached;
    ReachAny(gone, Accept(1));
    w := Step(gone, Accept(1)).value;
    return;
  }

  /** Matching with the player left behind ends the process, although the player map still lists them. */
  lemma MatchWithAGonePlayer() returns (w: World, event: Event)
    ensures Reached(w) && Possible(w, event) && Step(w, event).Fault?
    ensures event == MatchOn(1, 2) && w.server.queue.waiting == [FIRST_PLAYER_ID]
    ensures FIRST_PLAYER_ID in w.server.players && FIRST_PLAYER_ID + 2 in w.server.players
  {
    hide Handle, Reached;
    var gone := LeftBehind();
    var one := AnotherConnects(gone);
    var two := LogsInAgain(one, 1);
    MatchLeavesWaiting(two.server, 1, MatchOn(1, 0).message, ANY, two.now);
    ReachAny(two, MatchOn(1, 0));
    w, event := Step(two, MatchOn(1, 0)).value, MatchOn(1, 2);
    ServerEndsIff(w, event);
    return;
  }

  /** A login that is handled after its connection has closed leaves the session watched for ever. */
  lemma LoginAfterClose() returns (w: World)
    ensures Reached(w) && Stuck(w.server, 0)
  {
    var one := Connected();
    hide Handle, Reached, SavedOnline, MarkedDisconnected, MarkedIn;
    ReachedSound(one);
    StepSound(one, CloseSession(0));
    ReachAny(one, CloseSession(0));
    w := LogsInAgain(Step(one, CloseSession(0)).value, 0);
    return;
  }
}
