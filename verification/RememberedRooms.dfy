/** When the room remembered for a reconnect is the right one. */
module RememberedRooms {
  import opened Prelude
  import opened MessageCodec
  import opened PlayerStates
  import opened Repository
  import opened Rooms
  import opened ServerModel
  import opened Runs
  import opened Effects
  import opened Soundness
  import opened ReconnectSweeps

  /** What is remembered of player `p` while `p` sits in room `r`: `known` says whether there was a state of
      `p` already when `p` was seated. Once out of room `r`, `p` never gets back. */
  ghost predicate Remembered(t: RoomTable, states: States, p: int, r: int, known: bool) {
    && r < t.nextRoomId
    && (p in t.playerRoom && t.playerRoom[p] == r ==>
          if known then p in states && states[p].roomId == -1
          else p in states ==> states[p].roomId == r)
  }

  lemma MarkedRemembered(sv: Server, p: int, r: int, known: bool, q: int, conn: ConnState)
    requires TableOk(sv.rooms) && Remembered(sv.rooms, sv.states, p, r, known)
    ensures MarkedIn(sv.rooms, q, conn).Ok?
    ensures Remembered(MarkedIn(sv.rooms, q, conn).value, sv.states, p, r, known)
  {
    hide Remembered;
    MarkedInOk(sv.rooms, q, conn);
    assert MarkedIn(sv.rooms, q, conn).value == sv.rooms.(rooms := MarkedIn(sv.rooms, q, conn).value.rooms);
    OtherRoomsDoNotMatter(sv.rooms, MarkedIn(sv.rooms, q, conn).value.rooms, sv.states, p, r, known);
  }

  lemma OtherRoomsDoNotMatter(
    t: RoomTable, rooms: map<int, RoomView>, states: States, p: int, r: int, known: bool)
    requires Remembered(t, states, p, r, known)
    ensures Remembered(t.(rooms := rooms), states, p, r, known)
  {
  }

  lemma OpenedRemembered(t: RoomTable, states: States, players: seq<int>, p: int, r: int, known: bool)
    requires Remembered(t, states, p, r, known)
    ensures Remembered(Opened(t, players), states, p, r, known)
  {
  }

  lemma MarkedOnlineRemembered(t: RoomTable, states: States, q: int, p: int, r: int, known: bool)
    requires Remembered(t, states, p, r, known)
    ensures Remembered(t, MarkedOnline(states, q), p, r, known)
  {
  }

  lemma HandleRemembered(sv: Server, s: Sid, message: Message, choice: Choice, now: int, p: int, r: int, known: bool)
    requires TableOk(sv.rooms) && Remembered(sv.rooms, sv.states, p, r, known)
    requires s in sv.sessions && Handle(sv, s, message, choice, now).Ok?
    ensures var after := Handle(sv, s, message, choice, now).value; Remembered(after.rooms, after.states, p, r, known)
  {
    hide Handle, Paired, Opened, AssignRoom, AddScore, MarkedIn, MarkedOnline, TableOk, Remembered;
    HandleEffect(sv, s, message, choice, now);
    var request := sv.proto.Request(message);
    if request.MatchReq? {
      OpenedRemembered(sv.rooms, sv.states, Paired(sv.queue, request.playerId), p, r, known);
    } else if request.ReconnectReq? {
      MarkedRemembered(sv, p, r, known, request.playerId, Online);
      MarkedOnlineRemembered(MarkedIn(sv.rooms, request.playerId, Online).value, sv.states, request.playerId,
                             p, r, known);
    }
    return;
  }

  lemma ClosedRemembered(sv: Server, s: Sid, now: int, p: int, r: int, known: bool)
    requires TableOk(sv.rooms) && Remembered(sv.rooms, sv.states, p, r, known)
    ensures Closed(sv, s, now).Ok?
    ensures var after := Closed(sv, s, now).value; Remembered(after.rooms, after.states, p, r, known)
  {
    hide MarkedIn, TableOk;
    if s in sv.sessions && sv.sessions[s].open {
      MarkedRemembered(sv, p, r, known, sv.sessions[s].playerId, Offline);
      MarkedInOk(sv.rooms, sv.sessions[s].playerId, Offline);
    }
  }

  lemma {:induction false} ClosedAllRemembered(sv: Server, order: seq<Sid>, now: int, p: int, r: int, known: bool)
    requires Sound(sv) && Remembered(sv.rooms, sv.states, p, r, known)
    ensures ClosedAll(sv, order, now).Ok?
    ensures var after := ClosedAll(sv, order, now).value; Remembered(after.rooms, after.states, p, r, known)
  {
    hide Remembered, Closed, TableOk;
    if order != [] {
      var n := |order| - 1;
      ClosedAllRemembered(sv, order[..n], now, p, r, known);
      ClosedAllSound(sv, order[..n], now);
      ClosedRemembered(ClosedAll(sv, order[..n], now).value, order[n], now, p, r, known);
    }
  }

  lemma ForgottenRemembered(sv: Server, order: seq<int>, gone: set<int>, p: int, r: int, known: bool)
    requires TableOk(sv.rooms) && Enumerates(order, gone) && Remembered(sv.rooms, sv.states, p, r, known)
    ensures Forgotten(sv, order).Ok?
    ensures var after := Forgotten(sv, order).value; Remembered(after.rooms, after.states, p, r, known)
  {
    hide Staying, TableOk, Forgotten;
    ForgottenExactly(sv, order, gone);
  }

  lemma StepRemembered(w: World, event: Event, p: int, r: int, known: bool)
    requires Sound(w.server) && Remembered(w.server.rooms, w.server.states, p, r, known)
    requires Possible(w, event) && Step(w, event).Ok?
    ensures var after := Step(w, event).value.server; Remembered(after.rooms, after.states, p, r, known)
  {
    hide Remembered, Handle, Closed, ClosedAll, Forgotten, TableOk, Expired;
    match event
    case Accept(_) =>
    case Receive(s, message, choice) => HandleRemembered(w.server, s, message, choice, w.now, p, r, known);
    case CloseSession(s) => ClosedRemembered(w.server, s, w.now, p, r, known);
    case Destroy(_) =>
    case HeartbeatSweep(stale) => ClosedAllRemembered(w.server, stale, w.now, p, r, known);
    case ReconnectSweep(expired) =>
      ForgottenRemembered(w.server, expired, Expired(w.server.states, w.now, RECONNECT_TIMEOUT), p, r, known);
    case Tick(_) =>
  }

  lemma {:induction false} RunRemembered(
    start: World, events: seq<Event>, more: seq<Event>, p: int, r: int, known: bool)
    requires Fresh(start) && Run(start, events + more).Some? && Run(start, events).Some?
    requires var sv := Run(start, events).value.server; Remembered(sv.rooms, sv.states, p, r, known)
    ensures var sv := Run(start, events + more).value.server; Remembered(sv.rooms, sv.states, p, r, known)
  {
    hide Remembered, Step, Possible, Sound;
    if more == [] {
      assert events + more == events;
    } else {
      var n := |more| - 1;
      assert (events + more)[..|events| + n] == events + more[..n];
      RunPrefix(start, events + more[..n], [more[n]]) by {
        assert events + more[..n] + [more[n]] == events + more;
      }
      RunRemembered(start, events, more[..n], p, r, known);
      RunSound(start, events + more[..n]);
      StepRemembered(Run(start, events + more[..n]).value, more[n], p, r, known);
    }
  }

  /** Being seated by a match: the room is a new one, and the states are as they were. */
  lemma SeatedByMatch(sv: Server, s: Sid, message: Message, choice: Choice, now: int, p: int)
    requires Sound(sv) && s in sv.sessions && Handle(sv, s, message, choice, now).Ok?
    requires p !in sv.rooms.playerRoom && p in Handle(sv, s, message, choice, now).value.rooms.playerRoom
    ensures var after := Handle(sv, s, message, choice, now).value;
      && after.states == sv.states && after.rooms.playerRoom[p] == sv.rooms.nextRoomId
      && Remembered(after.rooms, after.states, p, sv.rooms.nextRoomId, p in sv.states)
  {
    assert p in sv.states ==> sv.states[p].roomId == -1;
    hide Sound, Handle, Paired, AssignRoom, AddScore, MarkedOnline;
    HandleEffect(sv, s, message, choice, now);
  }

  /** The room a reconnect reports is the one the player was seated in, however long ago, exactly if the
      reconnect window held no state of the player when the match was made. */
  lemma RememberedRoomIsCurrentIff(
    start: World, events: seq<Event>, s: Sid, message: Message, choice: Choice, more: seq<Event>, p: int)
    requires Fresh(start) && Run(start, events).Some?
    requires Run(start, events + [Receive(s, message, choice)]).Some?
    requires Run(start, events + [Receive(s, message, choice)] + more).Some?
    requires var before := Run(start, events).value.server;
      var seated := Run(start, events + [Receive(s, message, choice)]).value.server;
      var after := Run(start, events + [Receive(s, message, choice)] + more).value.server;
      && p !in before.rooms.playerRoom && p in seated.rooms.playerRoom
      && p in after.rooms.playerRoom && after.rooms.playerRoom[p] == seated.rooms.playerRoom[p]
      && p in after.states
    ensures var before := Run(start, events).value.server;
      var after := Run(start, events + [Receive(s, message, choice)] + more).value.server;
      && (after.states[p].roomId == RoomIdOf(after.rooms, p) <==> p !in before.states)
      && (p in before.states ==> after.states[p].roomId == -1)
  {
    var event, w := Receive(s, message, choice), Run(start, events).value;
    assert (events + [event])[..|events|] == events;
    assert Possible(w, event) && Run(start, events + [event]).value == Step(w, event).value;
    RunSound(start, events);
    SeatedByMatch(w.server, s, message, choice, w.now, p);
    var r := w.server.rooms.nextRoomId;
    assert r >= 1;
    hide Sound, Handle, Possible;
    RunRemembered(start, events + [event], more, p, r, p in w.server.states);
  }

  /** In every reachable world a remembered id other than -1 is the player's current room, which exists and lists
      the player: a reconnect never reports a dead room or a room of others. */
  lemma RememberedRoomExists(w: World, p: int)
    requires Reached(w) && p in w.server.states && w.server.states[p].roomId != -1
    ensures var sv, r := w.server, w.server.states[p].roomId;
      r == RoomIdOf(sv.rooms, p) && r in sv.rooms.rooms && p in sv.rooms.rooms[r].playerIds
  {
    hide Registered, Closing, Reached;
    ReachedSound(w);
    return;
  }
}
