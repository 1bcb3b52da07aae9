/** What becomes of rooms over whole runs, whatever the clients do. */
module RoomHistory {
  import opened Prelude
  import opened MessageCodec
  import opened MatchQueues
  import opened PlayerStates
  import opened Repository
  import opened Rooms
  import opened ServerModel
  import opened Runs
  import opened Effects
  import opened Soundness
  import opened Discipline
  import opened ReconnectSweeps
  import opened Crashes

  /** How the room table may change in one event: ids only grow, a new room takes the next id, and a seat
      its holder is not mapped to is never vacated. */
  ghost predicate Follows(t: RoomTable, u: RoomTable) {
    && t.nextRoomId <= u.nextRoomId
    && (forall r :: r in u.rooms ==> r in t.rooms || r >= t.nextRoomId)
    && (forall r, p :: Stray(t, r, p) ==> Stray(u, r, p))
  }

  /** `p` sits in room `r` while the table maps `p` elsewhere or nowhere. */
  ghost predicate Stray(t: RoomTable, r: int, p: int) {
    && r in t.rooms && r < t.nextRoomId && p in t.rooms[r].playerIds
    && !(p in t.playerRoom && t.playerRoom[p] == r)
  }

  lemma MarkedFollows(t: RoomTable, p: int, conn: ConnState)
    requires TableOk(t)
    ensures MarkedIn(t, p, conn).Ok? && Follows(t, MarkedIn(t, p, conn).value)
  {
  }

  lemma OpenedFollows(t: RoomTable, players: seq<int>)
    requires TableOk(t) && NoDup(players) && players != []
    ensures Follows(t, Opened(t, players))
  {
    OpenedOk(t, players);
  }

  lemma RemovedFollows(t: RoomTable, p: int)
    requires TableOk(t)
    ensures Removed(t, p).Ok? && Follows(t, Removed(t, p).value)
  {
    if p in t.playerRoom {
      var r := t.playerRoom[p];
      assert RoomOk(r, t.rooms[r]);
      EraseFirstNoDup(t.rooms[r].playerIds, p);
    }
  }

  lemma HandleFollows(sv: Server, s: Sid, message: Message, choice: Choice, now: int)
    requires Sound(sv) && s in sv.sessions && Handle(sv, s, message, choice, now).Ok?
    ensures Follows(sv.rooms, Handle(sv, s, message, choice, now).value.rooms)
  {
    hide Handle, Paired, Opened, AssignRoom, AddScore, MarkedIn, MarkedOnline, Follows, TableOk, QueueOk;
    HandleEffect(sv, s, message, choice, now);
    var request := sv.proto.Request(message);
    NothingFollows(sv.rooms);
    if request.MatchReq? {
      var pair := Paired(sv.queue, request.playerId);
      PairedNoDup(sv.queue, request.playerId);
      if pair != [] {
        OpenedFollows(sv.rooms, pair);
      }
    } else if request.ReconnectReq? {
      MarkedFollows(sv.rooms, request.playerId, Online);
    }
    return;
  }

  lemma NothingFollows(t: RoomTable)
    ensures Follows(t, t)
  {
  }

  lemma {:induction false} ClosedAllFollows(sv: Server, order: seq<Sid>, now: int)
    requires Sound(sv)
    ensures ClosedAll(sv, order, now).Ok? && Follows(sv.rooms, ClosedAll(sv, order, now).value.rooms)
  {
    ClosedAllSound(sv, order, now);
    if order != [] {
      var n := |order| - 1;
      ClosedAllFollows(sv, order[..n], now);
      ClosedAllSound(sv, order[..n], now);
      var before, s := ClosedAll(sv, order[..n], now).value, order[n];
      if s in before.sessions && before.sessions[s].open {
        MarkedFollows(before.rooms, before.sessions[s].playerId, Offline);
      }
    }
  }

  lemma {:induction false} ForgottenFollows(sv: Server, order: seq<int>)
    requires Sound(sv)
    ensures Forgotten(sv, order).Ok? && Follows(sv.rooms, Forgotten(sv, order).value.rooms)
  {
    ForgottenSound(sv, order);
    if order != [] {
      var n := |order| - 1;
      ForgottenFollows(sv, order[..n]);
      ForgottenSound(sv, order[..n]);
      RemovedFollows(Forgotten(sv, order[..n]).value.rooms, order[n]);
    }
  }

  lemma StepFollows(w: World, event: Event)
    requires Sound(w.server) && Possible(w, event) && Step(w, event).Ok?
    ensures Follows(w.server.rooms, Step(w, event).value.server.rooms)
  {
    match event
    case Receive(s, message, choice) => HandleFollows(w.server, s, message, choice, w.now);
    case CloseSession(s) =>
      OneIsAll(w.server, s, w.now);
      ClosedAllFollows(w.server, [s], w.now);
    case HeartbeatSweep(stale) => ClosedAllFollows(w.server, stale, w.now);
    case ReconnectSweep(expired) => ForgottenFollows(w.server, expired);
    case _ =>
  }

  lemma {:induction false} RunFollows(start: World, events: seq<Event>, more: seq<Event>)
    requires Fresh(start) && Run(start, events + more).Some?
    ensures Run(start, events).Some?
    ensures Follows(Run(start, events).value.server.rooms, Run(start, events + more).value.server.rooms)
  {
    if more == [] {
      assert events + more == events;
    } else {
      var n := |more| - 1;
      assert (events + more)[..|events + more| - 1] == events + more[..n];
      RunFollows(start, events, more[..n]);
      RunSound(start, events + more[..n]);
      StepFollows(Run(start, events + more[..n]).value, more[n]);
    }
  }

  /** A room id that has been handed out and is gone never names a room again. */
  lemma RoomIdsAreNotReused(start: World, events: seq<Event>, more: seq<Event>, r: int)
    requires Fresh(start) && Run(start, events + more).Some?
    ensures Run(start, events).Some?
    ensures var before := Run(start, events).value.server.rooms;
      r < before.nextRoomId && r !in before.rooms ==> r !in Run(start, events + more).value.server.rooms.rooms
  {
    RunFollows(start, events, more);
  }

  // ---- Rooms that leak ----

  /** The event matches a player who already has a seat: the insertion into the map does nothing, and the new
      room holds a seat the map does not lead to. */
  ghost predicate Rematch(w: World, event: Event) {
    && event.Receive? && w.server.proto.Request(event.message).MatchReq?
    && var p := w.server.proto.Request(event.message).playerId;
       && CompletesPair(w.server, p)
       && (w.server.queue.waiting[0] in w.server.rooms.playerRoom || p in w.server.rooms.playerRoom)
  }

  lemma OpenedStrayIff(t: RoomTable, first: int, second: int)
    requires TableOk(t) && first != second
    ensures NoStraySeat(Opened(t, [first, second]))
       <==> NoStraySeat(t) && first !in t.playerRoom && second !in t.playerRoom
  {
    var u, r := Opened(t, [first, second]), t.nextRoomId;
    OpenedOk(t, [first, second]);
    OpenedFollows(t, [first, second]);
    if NoStraySeat(t) && first !in t.playerRoom && second !in t.playerRoom {
      OpenedSeats(t, [first, second]);
    } else if NoStraySeat(t) {
      var p := if first in t.playerRoom then first else second;
      assert p in [first, second] && u.rooms[r].playerIds == [first, second];
      assert Stray(u, r, p);
    } else {
      StrayIff(t);
      StrayIff(u);
    }
  }

  lemma StrayIff(t: RoomTable)
    requires TableOk(t)
    ensures NoStraySeat(t) <==> forall r, p :: !Stray(t, r, p)
  {
    if !NoStraySeat(t) {
      var r, p :| r in t.rooms && p in t.rooms[r].playerIds && !(p in t.playerRoom && t.playerRoom[p] == r);
      assert Stray(t, r, p);
    }
  }

  lemma HandleStrayIff(w: World, event: Event)
    requires Sound(w.server) && event.Receive? && Possible(w, event) && Step(w, event).Ok?
    ensures NoStraySeat(Step(w, event).value.server.rooms)
       <==> NoStraySeat(w.server.rooms) && !Rematch(w, event)
  {
    hide Handle, Paired, Opened, AssignRoom, AddScore, MarkedIn, MarkedOnline, NoStraySeat, TableOk;
    var sv, request := w.server, w.server.proto.Request(event.message);
    HandleEffect(sv, event.s, event.message, event.choice, w.now);
    if request.MatchReq? {
      PairedIff(sv.queue, request.playerId);
      if Paired(sv.queue, request.playerId) != [] {
        OpenedStrayIff(sv.rooms, sv.queue.waiting[0], request.playerId);
      }
    } else if request.ReconnectReq? {
      MarkedStrayIff(sv.rooms, request.playerId, Online);
    }
    return;
  }

  lemma MarkedStrayIff(t: RoomTable, p: int, conn: ConnState)
    requires TableOk(t)
    ensures MarkedIn(t, p, conn).Ok? && (NoStraySeat(MarkedIn(t, p, conn).value) <==> NoStraySeat(t))
  {
    MarkedInOk(t, p, conn);
    var u := MarkedIn(t, p, conn).value;
    assert forall r :: r in u.rooms <==> r in t.rooms;
    assert forall r :: r in t.rooms ==> u.rooms[r].playerIds == t.rooms[r].playerIds;
    hide MarkedIn, TableOk;
    return;
  }

  /** A close marks rooms at most. */
  lemma {:induction false} ClosedAllStrayIff(sv: Server, order: seq<Sid>, now: int)
    requires Sound(sv)
    ensures ClosedAll(sv, order, now).Ok?
    ensures NoStraySeat(ClosedAll(sv, order, now).value.rooms) <==> NoStraySeat(sv.rooms)
  {
    hide NoStraySeat, MarkedIn;
    ClosedAllSound(sv, order, now);
    if order != [] {
      var n := |order| - 1;
      ClosedAllStrayIff(sv, order[..n], now);
      ClosedAllSound(sv, order[..n], now);
      var before, s := ClosedAll(sv, order[..n], now).value, order[n];
      if s in before.sessions && before.sessions[s].open {
        MarkedStrayIff(before.rooms, before.sessions[s].playerId, Offline);
      }
    }
  }

  lemma SweptStrayIff(t: RoomTable, gone: set<int>)
    requires TableOk(t)
    ensures NoStraySeat(Swept(t, gone)) <==> NoStraySeat(t)
  {
    hide Swept, Leaves, TableOk;
    SweptMeans(t, gone);
    SweptMapping(t, gone);
    var u := Swept(t, gone);
    if !NoStraySeat(t) {
      var r, p :| r in t.rooms && p in t.rooms[r].playerIds && !(p in t.playerRoom && t.playerRoom[p] == r);
      assert p in u.rooms[r].playerIds && !(p in u.playerRoom && u.playerRoom[p] == r);
    }
    return;
  }

  /** Exactly rematches create seats the map does not lead to; no other event of any client creates one, and
      no event at all takes one away. */
  lemma StepStrayIff(w: World, event: Event)
    requires Sound(w.server) && Possible(w, event) && Step(w, event).Ok?
    ensures NoStraySeat(Step(w, event).value.server.rooms)
       <==> NoStraySeat(w.server.rooms) && !Rematch(w, event)
  {
    hide Handle, ClosedAll, Closed, Forgotten, NoStraySeat, Swept, TableOk;
    match event
    case Receive(s, message, choice) => HandleStrayIff(w, event);
    case CloseSession(s) =>
      OneIsAll(w.server, s, w.now);
      ClosedAllStrayIff(w.server, [s], w.now);
    case HeartbeatSweep(stale) => ClosedAllStrayIff(w.server, stale, w.now);
    case ReconnectSweep(expired) =>
      var gone := Expired(w.server.states, w.now, RECONNECT_TIMEOUT);
      ForgottenExactly(w.server, expired, gone);
      SweptStrayIff(w.server.rooms, gone);
    case Accept(_) =>
    case Destroy(_) =>
    case Tick(_) =>
  }

  /** Some event of the run matched a player who already had a seat. */
  ghost predicate Rematches(start: World, events: seq<Event>)
    requires Run(start, events).Some?
  {
    events != []
    && (var n := |events| - 1;
        Rematches(start, events[..n]) || Rematch(Run(start, events[..n]).value, events[n]))
  }

  /** In every run, whatever the clients do, every seat is one the map leads to exactly if no player who
      already had a seat was matched again. */
  lemma {:induction false} NoStraySeatIff(start: World, events: seq<Event>)
    requires Fresh(start) && Run(start, events).Some?
    ensures NoStraySeat(Run(start, events).value.server.rooms) <==> !Rematches(start, events)
  {
    hide Step, Possible, NoStraySeat, Rematch, Sound;
    if events == [] {
      NobodySits(start);
    } else {
      var n := |events| - 1;
      NoStraySeatIff(start, events[..n]);
      RunSound(start, events[..n]);
      StepStrayIff(Run(start, events[..n]).value, events[n]);
    }
  }

  lemma NobodySits(start: World)
    requires Fresh(start)
    ensures NoStraySeat(start.server.rooms)
  {
  }

  /** A sweep after every mapped player's window has passed empties all rooms exactly if the run had no
      rematch: otherwise some room stays, in every continuation of the run. */
  lemma RoomsComeToNothingIff(start: World, events: seq<Event>, expired: seq<int>)
    requires Fresh(start) && Run(start, events).Some? && Possible(Run(start, events).value, ReconnectSweep(expired))
    requires forall p :: p in Run(start, events).value.server.rooms.playerRoom ==> p in expired
    ensures var w := Run(start, events).value;
      && Step(w, ReconnectSweep(expired)).Ok?
      && (Step(w, ReconnectSweep(expired)).value.server.rooms.rooms == map[] <==> !Rematches(start, events))
  {
    hide Step, Possible, NoStraySeat, Rematches;
    NoStraySeatIff(start, events);
    SweepEmptiesRoomsIff(Run(start, events).value, expired);
  }

  /** Without the discipline rooms can leak: once a player who is in a room is matched again, the second
      room stays for ever, whatever happens afterwards. */
  lemma RematchLeaksARoom(start: World, events: seq<Event>, event: Event, more: seq<Event>)
    requires Fresh(start) && Run(start, events + [event] + more).Some?
    requires Run(start, events).Some? && Rematch(Run(start, events).value, event)
    ensures Run(start, events).value.server.rooms.nextRoomId
         in Run(start, events + [event] + more).value.server.rooms.rooms
  {
    RunFollows(start, events + [event], more);
    RunSound(start, events);
    var w := Run(start, events).value;
    var sv := w.server;
    assert (events + [event])[..|events + [event]| - 1] == events;
    assert Step(w, event).Ok? && Run(start, events + [event]).value == Step(w, event).value;
    SecondSeatIsStray(Touched(sv, event.s, w.now), event.s, sv.proto.Request(event.message).playerId);
  }

  lemma SecondSeatIsStray(sv: Server, s: Sid, p: int)
    requires TableOk(sv.rooms) && QueueOk(sv.queue) && |sv.queue.waiting| == 1
    requires p > 0 && p !in sv.queue.waiting && Match(sv, s, p).Ok?
    requires sv.queue.waiting[0] in sv.rooms.playerRoom || p in sv.rooms.playerRoom
    ensures exists q :: Stray(Match(sv, s, p).value.rooms, sv.rooms.nextRoomId, q)
  {
    var first := sv.queue.waiting[0];
    var joined := Joined(sv.queue, p);
    assert joined.waiting == [first, p] && joined.waiting[..ROOM_SIZE] == [first, p];
    OpenedOk(sv.rooms, [first, p]);
    var u := Opened(sv.rooms, [first, p]);
    assert Match(sv, s, p).value.rooms == u;
    var q := if p in sv.rooms.playerRoom then p else first;
    assert q in [first, p];
    assert u.rooms[sv.rooms.nextRoomId].playerIds == [first, p];
    assert Stray(u, sv.rooms.nextRoomId, q);
  }
}
