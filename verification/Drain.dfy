/** When everybody has left and the reconnect window has passed, nothing remains. */
module Drain {
  import opened Prelude
  import opened PlayerStates
  import opened Repository
  import opened Sessions
  import opened Rooms
  import opened ServerModel
  import opened Runs
  import opened Effects
  import opened Discipline
  import opened ReconnectSweeps

  ghost predicate NothingLeft(sv: Server) {
    && sv.players == map[] && sv.conns == {}
    && sv.queue.waiting == [] && sv.queue.members == {}
    && sv.rooms.rooms == map[] && sv.rooms.playerRoom == map[]
    && sv.states == map[]
  }

  /** No disconnection lies in the future. */
  ghost predicate ClocksOk(w: World) {
    forall p :: p in w.server.states ==> w.server.states[p].disconnectedAt <= w.now
  }

  // ---- Clocks ----

  lemma ClosedClocks(sv: Server, s: Sid, now: int)
    requires ClocksOk(World(sv, now)) && Closed(sv, s, now).Ok?
    ensures ClocksOk(World(Closed(sv, s, now).value, now))
  {
  }

  lemma {:induction false} ClosedAllClocks(sv: Server, order: seq<Sid>, now: int)
    requires ClocksOk(World(sv, now)) && ClosedAll(sv, order, now).Ok?
    ensures ClocksOk(World(ClosedAll(sv, order, now).value, now))
  {
    if order != [] {
      var n := |order| - 1;
      ClosedAllClocks(sv, order[..n], now);
      ClosedClocks(ClosedAll(sv, order[..n], now).value, order[n], now);
    }
  }

  lemma {:induction false} ForgottenClocks(sv: Server, order: seq<int>, now: int)
    requires ClocksOk(World(sv, now)) && Forgotten(sv, order).Ok?
    ensures ClocksOk(World(Forgotten(sv, order).value, now))
  {
    if order != [] {
      ForgottenClocks(sv, order[..|order| - 1], now);
    }
  }

  /** Handling a message dates no disconnection. */
  lemma HandleClocks(sv: Server, s: Sid, event: Event, now: int)
    requires event.Receive? && s in sv.sessions && ClocksOk(World(sv, now))
    requires Handle(sv, s, event.message, event.choice, now).Ok?
    ensures ClocksOk(World(Handle(sv, s, event.message, event.choice, now).value, now))
  {
    hide Handle, Paired, Opened, AssignRoom, AddScore, MarkedIn;
    HandleEffect(sv, s, event.message, event.choice, now);
  }

  lemma StepClocks(w: World, event: Event)
    requires ClocksOk(w) && Possible(w, event) && Step(w, event).Ok?
    ensures ClocksOk(Step(w, event).value)
  {
    match event
    case Receive(s, _, _) => HandleClocks(w.server, s, event, w.now);
    case CloseSession(s) => ClosedClocks(w.server, s, w.now);
    case HeartbeatSweep(stale) => ClosedAllClocks(w.server, stale, w.now);
    case ReconnectSweep(expired) => ForgottenClocks(w.server, expired, w.now);
    case _ =>
  }

  lemma {:induction false} RunClocks(start: World, events: seq<Event>)
    requires Fresh(start) && Run(start, events).Some?
    ensures ClocksOk(Run(start, events).value)
  {
    if events != [] {
      var n := |events| - 1;
      RunClocks(start, events[..n]);
      StepClocks(Run(start, events[..n]).value, events[n]);
    }
  }

  // ---- Draining ----

  /** The sweep that comes at least 31 seconds after every disconnection, with no session open, clears all
      tables. */
  lemma QuietSweepClears(w: World, expired: seq<int>)
    requires Agreed(w.server) && Possible(w, ReconnectSweep(expired))
    requires forall s :: s in w.server.sessions ==> !w.server.sessions[s].open
    requires forall p :: p in w.server.states ==>
               w.now - w.server.states[p].disconnectedAt >= 31_000_000_000
    ensures Step(w, ReconnectSweep(expired)).Ok?
    ensures NothingLeft(Step(w, ReconnectSweep(expired)).value.server)
  {
    var sv := w.server;
    var gone := Expired(sv.states, w.now, RECONNECT_TIMEOUT);
    assert forall p :: p !in sv.players;
    assert forall p :: p !in sv.queue.waiting;
    SomeElement(sv.queue.waiting);
    assert forall p :: p in sv.states ==> sv.states[p].conn == Offline;
    forall p | p in sv.rooms.playerRoom ensures p in gone {
      assert Seat(sv.rooms, sv.states, sv.players, sv.repo, p);
    }
    ForgottenExactly(sv, expired, gone);
    SweptEmptyIff(sv.rooms, gone);
    assert forall p :: p !in sv.queue.members && p !in sv.states - gone;
    assert forall s :: s !in sv.conns;
    assert sv.players == map[] && sv.states - gone == map[];
  }

  /** The same, for any world disciplined clients can reach. */
  lemma QuietServerDrains(w: World, expired: seq<int>)
    requires ReachedByDiscipline(w) && Possible(w, ReconnectSweep(expired))
    requires forall s :: s in w.server.sessions ==> !w.server.sessions[s].open
    requires forall p :: p in w.server.states ==>
               w.now - w.server.states[p].disconnectedAt >= 31_000_000_000
    ensures Step(w, ReconnectSweep(expired)).Ok?
    ensures NothingLeft(Step(w, ReconnectSweep(expired)).value.server)
  {
    ReachedAgreed(w);
    QuietSweepClears(w, expired);
  }

  function Closes(order: seq<Sid>): seq<Event> {
    if order == [] then [] else Closes(order[..|order| - 1]) + [CloseSession(order[|order| - 1])]
  }

  lemma ClosedShuts(sv: Server, s: Sid, now: int)
    requires Closed(sv, s, now).Ok? && s in sv.sessions
    ensures var after := Closed(sv, s, now).value;
      && after.sessions.Keys == sv.sessions.Keys
      && forall t :: t in sv.sessions ==> after.sessions[t].open == (sv.sessions[t].open && t != s)
  {
  }

  /** Of the sessions before, exactly the listed ones have been shut. */
  ghost predicate Shut(before: map<Sid, SessionView>, after: map<Sid, SessionView>, order: seq<Sid>) {
    && after.Keys == before.Keys
    && forall s :: s in before ==> after[s].open == (before[s].open && s !in order)
  }

  /** Closing the listed sessions one event at a time closes them and no others. */
  lemma {:induction false} ClosingAll(start: World, events: seq<Event>, order: seq<Sid>)
    requires Run(start, events).Some? && Agreed(Run(start, events).value.server)
    requires ClocksOk(Run(start, events).value)
    requires forall s :: s in order ==> s in Run(start, events).value.server.sessions
    ensures Run(start, events + Closes(order)).Some?
    ensures var before, after := Run(start, events).value, Run(start, events + Closes(order)).value;
      && Agreed(after.server) && ClocksOk(after) && after.now == before.now
      && Shut(before.server.sessions, after.server.sessions, order)
  {
    hide Agreed, Run, ClocksOk, Closed;
    if order == [] {
      assert events + Closes(order) == events;
    } else {
      var n := |order| - 1;
      assert order == order[..n] + [order[n]];
      ClosingAll(start, events, order[..n]);
      var mid := Run(start, events + Closes(order[..n])).value;
      ClosedAgreed(mid.server, order[n], mid.now);
      ClosedShuts(mid.server, order[n], mid.now);
      assert ClocksOk(World(mid.server, mid.now)) by { assert mid == World(mid.server, mid.now); }
      ClosedClocks(mid.server, order[n], mid.now);
      RunOne(start, events + Closes(order[..n]), CloseSession(order[n]));
      assert events + Closes(order) == events + Closes(order[..n]) + [CloseSession(order[n])];
    }
  }

  /** Drain: from anywhere disciplined clients can bring the server, closing every open session, letting at
      least 31 seconds pass and running the reconnect sweep leaves no player, no queue and no room. */
  lemma ServerDrains(start: World, events: seq<Event>, order: seq<Sid>, nanos: nat, expired: seq<int>)
    requires Fresh(start) && AllDisciplined(start, events) && Run(start, events).Some?
    requires var sessions := Run(start, events).value.server.sessions;
      && (forall s :: s in order ==> s in sessions)
      && (forall s :: s in sessions && sessions[s].open ==> s in order)
    requires nanos >= 31_000_000_000
    ensures Run(start, events + Closes(order) + [Tick(nanos)]).Some?
    ensures Possible(Run(start, events + Closes(order) + [Tick(nanos)]).value, ReconnectSweep(expired)) ==>
      && Run(start, events + Closes(order) + [Tick(nanos)] + [ReconnectSweep(expired)]).Some?
      && NothingLeft(Run(start, events + Closes(order) + [Tick(nanos)] + [ReconnectSweep(expired)]).value.server)
  {
    RunAgreed(start, events);
    RunClocks(start, events);
    ClosingAll(start, events, order);
    var closed := events + Closes(order);
    RunOne(start, closed, Tick(nanos));
    var quiet := Run(start, closed + [Tick(nanos)]).value;
    if Possible(quiet, ReconnectSweep(expired)) {
      QuietSweepClears(quiet, expired);
      RunOne(start, closed + [Tick(nanos)], ReconnectSweep(expired));
    }
  }
}
