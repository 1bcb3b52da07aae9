/** Matching over whole runs of the server: first come, first served, whatever the clients do. */
module MatchHistory {
  import opened Prelude
  import opened MatchQueues
  import opened PlayerStates
  import opened Repository
  import opened Sessions
  import opened Rooms
  import opened ServerModel
  import opened Runs
  import opened Effects
  import opened Soundness
  import opened ReconnectSweeps
  import opened HeartbeatSweeps
  import opened WatchedSessions

  // ---- What a run does to the queue ----

  /** Closing the listed sessions: each that is open takes its player out of the line. */
  function Leaves(sessions: map<Sid, SessionView>, order: seq<Sid>): seq<QueueEvent> {
    if order == [] then []
    else
      var n := |order| - 1;
      Leaves(sessions, order[..n])
      + if order[n] in sessions && sessions[order[n]].open then [Leaving(sessions[order[n]].playerId)] else []
  }

  ghost predicate AsksForMatch(w: World, event: Event) {
    event.Receive? && w.server.proto.Request(event.message).MatchReq?
    && w.server.proto.Request(event.message).playerId > 0
  }

  /** The joins, leaves and pops of one event. */
  ghost function QueueEvents(w: World, event: Event): seq<QueueEvent> {
    if AsksForMatch(w, event) then
      [Joining(w.server.proto.Request(event.message).playerId), Popping(ROOM_SIZE)]
    else if event.CloseSession? then Leaves(w.server.sessions, [event.s])
    else if event.HeartbeatSweep? then Leaves(w.server.sessions, event.stale)
    else []
  }

  ghost function QueueHistory(start: World, events: seq<Event>): seq<QueueEvent>
    requires Run(start, events).Some?
  {
    if events == [] then []
    else
      var n := |events| - 1;
      QueueHistory(start, events[..n]) + QueueEvents(Run(start, events[..n]).value, events[n])
  }

  /** The match requests the run has accepted, in order. */
  ghost function Requests(start: World, events: seq<Event>): seq<int>
    requires Run(start, events).Some?
  {
    if events == [] then []
    else
      var n := |events| - 1;
      Requests(start, events[..n]) + NewRequest(Run(start, events[..n]).value, events[n])
  }

  ghost function NewRequest(w: World, event: Event): seq<int> {
    if !AsksForMatch(w, event) then []
    else
      var p := w.server.proto.Request(event.message).playerId;
      if p in w.server.queue.waiting then [] else [p]
  }

  /** The players the run has put into rooms, pair by pair. */
  ghost function Seated(start: World, events: seq<Event>): seq<int>
    requires Run(start, events).Some?
  {
    if events == [] then []
    else
      var n := |events| - 1;
      Seated(start, events[..n]) + NewPair(Run(start, events[..n]).value, events[n])
  }

  ghost function NewPair(w: World, event: Event): seq<int> {
    if !AsksForMatch(w, event) then []
    else Paired(w.server.queue, w.server.proto.Request(event.message).playerId)
  }

  // ---- One event ----

  lemma AskedFor(h: History, p: int)
    requires QueueOk(h.queue) && |h.queue.waiting| < ROOM_SIZE && p > 0
    ensures RememberAll(h, [Joining(p), Popping(ROOM_SIZE)])
         == h.(queue := Lined(h.queue, p), joins := h.joins + (if p in h.queue.waiting then [] else [p]),
               matched := h.matched + Paired(h.queue, p))
  {
    var asked := Remember(h, Joining(p));
    assert RememberAll(h, [Joining(p)]) == asked by {
      assert [Joining(p)] == [] + [Joining(p)];
      RememberOneMore(h, [], Joining(p));
    }
    assert [Joining(p), Popping(ROOM_SIZE)] == [Joining(p)] + [Popping(ROOM_SIZE)];
    RememberOneMore(h, [Joining(p)], Popping(ROOM_SIZE));
    if p in h.queue.members {
      assert h.joins + [] == h.joins && h.matched + [] == h.matched;
    }
  }

  lemma {:induction false} ClosesLeave(h: History, sv: Server, order: seq<Sid>, closed: set<Sid>, now: int)
    requires Sound(sv) && h.queue == sv.queue
    requires Enumerates(order, closed) && forall s :: s in closed ==> s in sv.sessions
    ensures ClosedAll(sv, order, now).Ok?
    ensures var after := RememberAll(h, Leaves(sv.sessions, order));
      after.queue == ClosedAll(sv, order, now).value.queue && after.joins == h.joins && after.matched == h.matched
  {
    hide Sound, Closed, ClosedViews, OpenOnes, Remember;
    ClosingMany(sv, order, closed, now);
    if order != [] {
      var n := |order| - 1;
      var s := order[n];
      EnumeratesPrefix(order, closed);
      ClosesLeave(h, sv, order[..n], closed - {s}, now);
      ClosingMany(sv, order[..n], closed - {s}, now);
      var mid := ClosedAll(sv, order[..n], now).value;
      SameSession(sv.sessions, closed - {s}, s);
      OneLeaves(RememberAll(h, Leaves(sv.sessions, order[..n])), mid, s, now);
      RememberOneMore(h, Leaves(sv.sessions, order[..n]), Leaving(sv.sessions[s].playerId));
      assert Leaves(sv.sessions, order[..n]) + [] == Leaves(sv.sessions, order[..n]);
    }
    return;
  }

  lemma SameSession(sessions: map<Sid, SessionView>, closed: set<Sid>, s: Sid)
    requires s in sessions && s !in closed
    ensures s in ClosedViews(sessions, closed) && ClosedViews(sessions, closed)[s] == sessions[s]
  {
  }

  lemma OneLeaves(h: History, sv: Server, s: Sid, now: int)
    requires h.queue == sv.queue && s in sv.sessions && Closed(sv, s, now).Ok?
    ensures var after := if sv.sessions[s].open then Remember(h, Leaving(sv.sessions[s].playerId)) else h;
      after.queue == Closed(sv, s, now).value.queue && after.joins == h.joins && after.matched == h.matched
  {
    hide MarkedIn, Departed, SavedOnline, MarkedDisconnected, LatestJoin;
  }

  /** One event moves the line as its joins, leaves and pops say. */
  lemma StepQueue(w: World, event: Event, h: History)
    requires Sound(w.server) && h.queue == w.server.queue && Possible(w, event) && Step(w, event).Ok?
    ensures var after := RememberAll(h, QueueEvents(w, event));
      && after.queue == Step(w, event).value.server.queue
      && after.joins == h.joins + NewRequest(w, event) && after.matched == h.matched + NewPair(w, event)
  {
    var sv := w.server;
    assert QueueOk(sv.queue) && |sv.queue.waiting| < ROOM_SIZE;
    hide Sound, QueueOk, Handle, Closed, ClosedAll, Forgotten, Remember, Paired, Lined, Stale;
    assert h.joins + [] == h.joins && h.matched + [] == h.matched;
    if event.Receive? {
      HandleEffect(sv, event.s, event.message, event.choice, w.now);
      if AsksForMatch(w, event) {
        AskedFor(h, sv.proto.Request(event.message).playerId);
      } else if sv.proto.Request(event.message).MatchReq? {
        RefusedLine(sv.queue, sv.proto.Request(event.message).playerId);
      }
    } else if event.CloseSession? {
      assert Enumerates([event.s], {event.s});
      ClosesLeave(h, sv, [event.s], {event.s}, w.now);
      OneIsAll(sv, event.s, w.now);
    } else if event.HeartbeatSweep? {
      StaleAreSessions(sv, w.now);
      ClosesLeave(h, sv, event.stale, Stale(sv, w.now), w.now);
    } else if event.ReconnectSweep? {
      ForgottenKeepsQueue(sv, event.expired);
    }
    return;
  }

  lemma RefusedLine(q: Queue, p: int)
    requires p <= 0
    ensures Lined(q, p) == q
  {
  }

  lemma StaleAreSessions(sv: Server, now: int)
    ensures forall s :: s in Stale(sv, now) ==> s in sv.sessions
  {
  }

  lemma {:induction false} ForgottenKeepsQueue(sv: Server, order: seq<int>)
    requires Forgotten(sv, order).Ok?
    ensures Forgotten(sv, order).value.queue == sv.queue
  {
    hide Removed;
    if order != [] {
      ForgottenKeepsQueue(sv, order[..|order| - 1]);
    }
  }

  // ---- Rooms by id ----

  /** Room `r` was opened for the pair number `r`: a room keeps a state for both even after they have left. */
  ghost predicate OpenedInOrder(t: RoomTable, seated: seq<int>) {
    && t.nextRoomId >= 1 && |seated| == 2 * (t.nextRoomId - 1)
    && forall r :: r in t.rooms ==>
         1 <= r < t.nextRoomId && t.rooms[r].states.Keys == {seated[2 * r - 2], seated[2 * r - 1]}
  }

  lemma OneMoreRoom(t: RoomTable, seated: seq<int>, first: int, second: int)
    requires OpenedInOrder(t, seated)
    ensures OpenedInOrder(Opened(t, [first, second]), seated + [first, second])
  {
    var r := t.nextRoomId;
    assert NewRoom(r, [first, second]).states.Keys == {first, second};
  }

  /** Marks and removals leave the states of the remaining rooms for the same players. */
  lemma FewerRooms(t: RoomTable, u: RoomTable, seated: seq<int>)
    requires OpenedInOrder(t, seated) && u.nextRoomId == t.nextRoomId
    requires forall r :: r in u.rooms ==> r in t.rooms && u.rooms[r].states.Keys == t.rooms[r].states.Keys
    ensures OpenedInOrder(u, seated)
  {
  }

  lemma MarkedInOrder(t: RoomTable, p: int, conn: ConnState, seated: seq<int>)
    requires OpenedInOrder(t, seated) && MarkedIn(t, p, conn).Ok?
    ensures OpenedInOrder(MarkedIn(t, p, conn).value, seated)
  {
    hide OpenedInOrder;
    FewerRooms(t, MarkedIn(t, p, conn).value, seated);
    return;
  }

  lemma {:induction false} ClosedAllInOrder(sv: Server, order: seq<Sid>, now: int, seated: seq<int>)
    requires OpenedInOrder(sv.rooms, seated) && ClosedAll(sv, order, now).Ok?
    ensures OpenedInOrder(ClosedAll(sv, order, now).value.rooms, seated)
  {
    hide OpenedInOrder, MarkedIn, Departed, SavedOnline, MarkedDisconnected;
    if order != [] {
      var n := |order| - 1;
      ClosedAllInOrder(sv, order[..n], now, seated);
      var before, s := ClosedAll(sv, order[..n], now).value, order[n];
      if s in before.sessions && before.sessions[s].open {
        MarkedInOrder(before.rooms, before.sessions[s].playerId, Offline, seated);
      }
    }
    return;
  }

  lemma HandleInOrder(w: World, event: Event, seated: seq<int>)
    requires Sound(w.server) && OpenedInOrder(w.server.rooms, seated)
    requires event.Receive? && Possible(w, event) && Step(w, event).Ok?
    ensures OpenedInOrder(Step(w, event).value.server.rooms, seated + NewPair(w, event))
  {
    var sv, request := w.server, w.server.proto.Request(event.message);
    assert QueueOk(sv.queue) && |sv.queue.waiting| < ROOM_SIZE;
    hide Sound, QueueOk, Handle, OpenedInOrder, Paired, Lined, Opened, MarkedIn, MarkedOnline, AssignRoom, AddScore;
    assert seated + [] == seated;
    HandleEffect(sv, event.s, event.message, event.choice, w.now);
    if request.MatchReq? {
      PairedIff(sv.queue, request.playerId);
      if Paired(sv.queue, request.playerId) != [] {
        OneMoreRoom(sv.rooms, seated, sv.queue.waiting[0], request.playerId);
      }
    } else if request.ReconnectReq? && MarkedIn(sv.rooms, request.playerId, Online).Ok? {
      MarkedInOrder(sv.rooms, request.playerId, Online, seated);
    }
    return;
  }

  lemma StepInOrder(w: World, event: Event, seated: seq<int>)
    requires Sound(w.server) && OpenedInOrder(w.server.rooms, seated)
    requires Possible(w, event) && Step(w, event).Ok?
    ensures OpenedInOrder(Step(w, event).value.server.rooms, seated + NewPair(w, event))
  {
    assert TableOk(w.server.rooms);
    hide Sound, TableOk, Handle, OpenedInOrder, Closed, ClosedAll, Forgotten, Swept, Stale, Expired, Paired;
    assert seated + [] == seated;
    match event
    case Accept(_) =>
    case Receive(_, _, _) => HandleInOrder(w, event, seated);
    case CloseSession(s) =>
      OneIsAll(w.server, s, w.now);
      ClosedAllInOrder(w.server, [s], w.now, seated);
    case Destroy(_) =>
    case HeartbeatSweep(stale) => ClosedAllInOrder(w.server, stale, w.now, seated);
    case ReconnectSweep(expired) =>
      var gone := Expired(w.server.states, w.now, RECONNECT_TIMEOUT);
      ForgottenExactly(w.server, expired, gone);
      SweptRest(w.server.rooms, gone);
      SweptMeans(w.server.rooms, gone);
      FewerRooms(w.server.rooms, Swept(w.server.rooms, gone), seated);
    case Tick(_) =>
  }

  // ---- The whole run ----

  /** In every run, whatever the clients do, the players seated so far, room by room in the order of the room ids,
      followed by whoever waits, are the accepted match requests in order, without those cancelled by a close. */
  lemma {:induction false} MatchesAreFirstComeFirstServed(start: World, events: seq<Event>)
    requires Fresh(start) && Run(start, events).Some?
    ensures var sv, h := Run(start, events).value.server, Replay(QueueHistory(start, events));
      && h.queue == sv.queue && h.joins == Requests(start, events) && h.matched == Seated(start, events)
      && Seated(start, events) + sv.queue.waiting == Survivors(Requests(start, events), h.left)
      && OpenedInOrder(sv.rooms, Seated(start, events))
  {
    QueueIsFifo(QueueHistory(start, events));
    hide Step, Possible, Sound, QueueEvents, NewRequest, NewPair, Remember, Survivors;
    if events != [] {
      var n := |events| - 1;
      var w := Run(start, events[..n]).value;
      MatchesAreFirstComeFirstServed(start, events[..n]);
      RunSound(start, events[..n]);
      ReplayConcat(QueueHistory(start, events[..n]), QueueEvents(w, events[n]));
      StepQueue(w, events[n], Replay(QueueHistory(start, events[..n])));
      StepInOrder(w, events[n], Seated(start, events[..n]));
    }
  }
}
