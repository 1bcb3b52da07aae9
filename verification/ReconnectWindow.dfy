/** A player who has lost the connection can come back for 31 seconds, and finds everything in place. */
module ReconnectWindow {
  import opened Prelude
  import opened MessageCodec
  import opened Protocol
  import opened MatchQueues
  import opened PlayerStates
  import opened Repository
  import opened Rooms
  import opened ServerModel
  import opened Runs
  import opened Effects
  import opened Soundness
  import opened Discipline
  import opened ReconnectSweeps
  import opened HeartbeatSweeps

  /** Player `p` went away at `since` and is expected back in room `seat`, or in none if `seat` is -1. */
  ghost predicate Away(sv: Server, p: int, since: int, seat: int) {
    && p > 0 && p !in sv.players && OfflineIn(sv.states, p) && sv.states[p].disconnectedAt == since
    && RoomIdOf(sv.rooms, p) == seat
  }

  /** The event is a reconnect of `p` with the player's own token. */
  ghost predicate Returns(w: World, event: Event, p: int) {
    event.Receive? && w.server.proto.Request(event.message) == ReconnectReq(p, Token(p))
  }

  lemma PairIsServed(w: World, s: Sid, message: Message, choice: Choice)
    requires Agreed(w.server) && w.server.proto.Request(message).MatchReq?
    requires Disciplined(w, Receive(s, message, choice))
    ensures forall q :: q in Paired(w.server.queue, w.server.proto.Request(message).playerId) ==> q in w.server.players
  {
    var sv, p := w.server, w.server.proto.Request(message).playerId;
    hide Seats, Presence, Tokens, TableOk, Remembers, Registered, Paired;
    assert p > 0 ==> p in sv.players;
    assert sv.queue.waiting != [] ==> sv.queue.waiting[0] in sv.queue.waiting;
    PairedIff(sv.queue, p);
    return;
  }

  lemma OpenedElsewhere(t: RoomTable, players: seq<int>, p: int)
    requires p !in players
    ensures RoomIdOf(Opened(t, players), p) == RoomIdOf(t, p)
  {
  }

  lemma MarkedElsewhere(t: RoomTable, q: int, conn: ConnState, p: int)
    requires MarkedIn(t, q, conn).Ok?
    ensures RoomIdOf(MarkedIn(t, q, conn).value, p) == RoomIdOf(t, p)
  {
  }

  lemma ReceiveKeepsAway(w: World, s: Sid, message: Message, choice: Choice, p: int, since: int, seat: int)
    requires Agreed(w.server) && Disciplined(w, Receive(s, message, choice)) && Away(w.server, p, since, seat)
    requires Handle(w.server, s, message, choice, w.now).Ok? && !Returns(w, Receive(s, message, choice), p)
    ensures Away(Handle(w.server, s, message, choice, w.now).value, p, since, seat)
  {
    var sv, request := w.server, w.server.proto.Request(message);
    assert p != sv.nextPlayerId && sv.states[p].token == Token(p) by {
      hide Bindings, Seats, Presence, TableOk, Remembers, Token;
      assert p in sv.repo;
    }
    hide Handle, Agreed, Paired, Opened, AssignRoom, AddScore, MarkedIn, RoomIdOf, Token;
    HandleEffect(sv, s, message, choice, w.now);
    if request.MatchReq? {
      PairIsServed(w, s, message, choice);
      OpenedElsewhere(sv.rooms, Paired(sv.queue, request.playerId), p);
    } else if request.ReconnectReq? && MarkedIn(sv.rooms, request.playerId, Online).Ok? {
      MarkedElsewhere(sv.rooms, request.playerId, Online, p);
    }
    return;
  }

  lemma ClosedKeepsAway(sv: Server, s: Sid, now: int, p: int, since: int, seat: int)
    requires Agreed(sv) && Away(sv, p, since, seat)
    ensures Closed(sv, s, now).Ok? && Away(Closed(sv, s, now).value, p, since, seat)
  {
    assert s in sv.sessions && sv.sessions[s].open ==> sv.sessions[s].playerId != p by {
      hide Seats, Presence, Tokens, Sound;
      assert Bindings(sv.players, sv.sessions, sv.conns);
    }
    assert TableOk(sv.rooms);
    hide Agreed, TableOk, MarkedIn, Departed;
    if s in sv.sessions && sv.sessions[s].open {
      MarkedInOk(sv.rooms, sv.sessions[s].playerId, Offline);
      MarkedElsewhere(sv.rooms, sv.sessions[s].playerId, Offline, p);
    }
    return;
  }

  lemma {:induction false} ClosedAllKeepsAway(sv: Server, order: seq<Sid>, now: int, p: int, since: int, seat: int)
    requires Agreed(sv) && Away(sv, p, since, seat)
    ensures ClosedAll(sv, order, now).Ok? && Away(ClosedAll(sv, order, now).value, p, since, seat)
  {
    hide Agreed, Away, Closed;
    if order != [] {
      var n := |order| - 1;
      ClosedAllKeepsAway(sv, order[..n], now, p, since, seat);
      ClosedAllAgreed(sv, order[..n], now);
      ClosedKeepsAway(ClosedAll(sv, order[..n], now).value, order[n], now, p, since, seat);
    }
  }

  lemma SweptElsewhere(t: RoomTable, gone: set<int>, p: int)
    requires p !in gone
    ensures RoomIdOf(Swept(t, gone), p) == RoomIdOf(t, p)
  {
    hide Staying;
  }

  /** No event but the player's own return touches what is kept for a player within the window. */
  lemma StepKeepsAway(w: World, event: Event, p: int, since: int, seat: int)
    requires Agreed(w.server) && Away(w.server, p, since, seat)
    requires w.now < since + (RECONNECT_TIMEOUT + 1) * NANOS_PER_SECOND
    requires Possible(w, event) && Disciplined(w, event) && Step(w, event).Ok? && !Returns(w, event, p)
    ensures Away(Step(w, event).value.server, p, since, seat)
  {
    assert TableOk(w.server.rooms);
    hide Agreed, Handle, Closed, ClosedAll, Forgotten, TableOk, Returns, Swept, RoomIdOf, Disciplined;
    match event
    case Accept(_) =>
    case Receive(s, message, choice) => ReceiveKeepsAway(w, s, message, choice, p, since, seat);
    case CloseSession(s) => ClosedKeepsAway(w.server, s, w.now, p, since, seat);
    case Destroy(_) =>
    case HeartbeatSweep(stale) => ClosedAllKeepsAway(w.server, stale, w.now, p, since, seat);
    case ReconnectSweep(expired) =>
      var gone := Expired(w.server.states, w.now, RECONNECT_TIMEOUT);
      ForgottenExactly(w.server, expired, gone);
      SweptElsewhere(w.server.rooms, gone, p);
    case Tick(_) =>
  }

  /** None of the further events is the player's return. */
  ghost predicate StaysOut(start: World, events: seq<Event>, more: seq<Event>, p: int) {
    more == []
    || (var n := |more| - 1;
        && StaysOut(start, events, more[..n], p)
        && (Run(start, events + more[..n]).Some? ==> !Returns(Run(start, events + more[..n]).value, more[n], p)))
  }

  lemma {:induction false} RunKeepsAway(
    start: World, events: seq<Event>, more: seq<Event>, p: int, since: int, seat: int)
    requires Fresh(start) && AllDisciplined(start, events + more) && Run(start, events + more).Some?
    requires Run(start, events).Some? && Away(Run(start, events).value.server, p, since, seat)
    requires StaysOut(start, events, more, p)
    requires Run(start, events + more).value.now < since + (RECONNECT_TIMEOUT + 1) * NANOS_PER_SECOND
    ensures Agreed(Run(start, events + more).value.server)
    ensures Away(Run(start, events + more).value.server, p, since, seat)
  {
    RunAgreed(start, events + more);
    hide Step, Possible, Disciplined, Agreed, Away, Returns;
    if more == [] {
      assert events + more == events;
    } else {
      var n := |more| - 1;
      assert (events + more)[..|events| + n] == events + more[..n];
      var w := Run(start, events + more[..n]).value;
      TimeGoesOn(w, more[n]);
      RunKeepsAway(start, events, more[..n], p, since, seat);
      StepKeepsAway(w, more[n], p, since, seat);
    }
    return;
  }

  /** Coming back in time: the reconnect is accepted, and the seat is the old one. */
  lemma ReturnIsAccepted(sv: Server, p: int, since: int, seat: int, t: Sid, message: Message, choice: Choice, now: int)
    requires Agreed(sv) && Away(sv, p, since, seat) && t in sv.sessions && sv.sessions[t].open
    requires sv.proto.Request(message) == ReconnectReq(p, Token(p))
    ensures Handle(sv, t, message, choice, now).Ok?
    ensures var after := Handle(sv, t, message, choice, now).value;
      && p in after.players && after.players[p] == t && !OfflineIn(after.states, p)
      && RoomIdOf(after.rooms, p) == seat
  {
    assert TableOk(sv.rooms) && sv.states[p].token == Token(p) by {
      hide Bindings, Seats, Presence, Remembers, Registered, Token;
    }
    MarkedInOk(sv.rooms, p, Online);
    MarkedElsewhere(sv.rooms, p, Online, p);
    hide Agreed, TableOk, MarkedIn, Token, RoomIdOf, AssignRoom, AddScore, Paired, Opened;
    assert Handle(sv, t, message, choice, now).Ok?;
    hide Handle;
    HandleEffect(sv, t, message, choice, now);
    return;
  }

  /** A player who is Offline is away, however the connection was lost. */
  lemma OfflineIsAway(sv: Server, p: int)
    requires Agreed(sv) && p > 0 && OfflineIn(sv.states, p)
    ensures Away(sv, p, sv.states[p].disconnectedAt, RoomIdOf(sv.rooms, p))
  {
    hide Sound, Bindings, Seats, Waiting, Tokens, RoomIdOf;
  }

  /** However a player went Offline, in every disciplined run without that player's return the state and the seat
      stay for 31 seconds from the disconnection: a reconnect with the player's own token is accepted and leads
      back to the same room. */
  lemma WindowIsKept(start: World, events: seq<Event>, more: seq<Event>, p: int, t: Sid, message: Message,
                     choice: Choice)
    requires Fresh(start) && AllDisciplined(start, events) && Run(start, events).Some?
    requires AllDisciplined(start, events + more) && Run(start, events + more).Some?
    requires p > 0 && OfflineIn(Run(start, events).value.server.states, p) && StaysOut(start, events, more, p)
    requires Run(start, events + more).value.now
           < Run(start, events).value.server.states[p].disconnectedAt + 31_000_000_000
    ensures var sv, later := Run(start, events).value.server, Run(start, events + more).value;
      var seat := RoomIdOf(sv.rooms, p);
      && Away(later.server, p, sv.states[p].disconnectedAt, seat)
      && (t in later.server.sessions && later.server.sessions[t].open
          && later.server.proto.Request(message) == ReconnectReq(p, Token(p)) ==>
            && Handle(later.server, t, message, choice, later.now).Ok?
            && var back := Handle(later.server, t, message, choice, later.now).value;
               && p in back.players && back.players[p] == t && RoomIdOf(back.rooms, p) == seat)
  {
    RunAgreed(start, events);
    var sv := Run(start, events).value.server;
    var since, seat := sv.states[p].disconnectedAt, RoomIdOf(sv.rooms, p);
    hide Agreed, Away, Handle, StaysOut, RoomIdOf, Token;
    OfflineIsAway(sv, p);
    RunKeepsAway(start, events, more, p, since, seat);
    var later := Run(start, events + more).value;
    if t in later.server.sessions && later.server.sessions[t].open
       && later.server.proto.Request(message) == ReconnectReq(p, Token(p)) {
      ReturnIsAccepted(later.server, p, since, seat, t, message, choice, later.now);
    }
    return;
  }

  /** A close opens the window at that moment, for the seat the player had. */
  lemma CloseOpensTheWindow(w: World, s: Sid)
    requires ReachedByDiscipline(w) && Possible(w, CloseSession(s))
    requires w.server.sessions[s].open && w.server.sessions[s].playerId != 0
    ensures Step(w, CloseSession(s)).Ok?
    ensures var p := w.server.sessions[s].playerId;
      Away(Step(w, CloseSession(s)).value.server, p, w.now, RoomIdOf(w.server.rooms, p))
  {
    hide Step, Agreed, ReachedByDiscipline, WentDown, Away;
    CloseIsExact(w, s);
    ReachedAgreed(w);
    OpenIsWatched(w.server, s);
    DownIsAway(w.server, Step(w, CloseSession(s)).value.server, {s}, s, w.now);
    return;
  }

  /** So does the heartbeat sweep, for every session it finds silent. */
  lemma SweepOpensTheWindow(w: World, stale: seq<Sid>, s: Sid)
    requires ReachedByDiscipline(w) && Possible(w, HeartbeatSweep(stale)) && s in stale
    ensures Step(w, HeartbeatSweep(stale)).Ok? && s in w.server.sessions
    ensures var p := w.server.sessions[s].playerId;
      Away(Step(w, HeartbeatSweep(stale)).value.server, p, w.now, RoomIdOf(w.server.rooms, p))
  {
    assert s in Stale(w.server, w.now) && s in w.server.conns && Stale(w.server, w.now) <= w.server.conns;
    hide ClosedAll, Agreed, ReachedByDiscipline, WentDown, Away, Stale;
    ReachedAgreed(w);
    AllWentDown(w.server, stale, Stale(w.server, w.now), w.now);
    DownIsAway(w.server, ClosedAll(w.server, stale, w.now).value, Stale(w.server, w.now), s, w.now);
    return;
  }

  lemma OpenIsWatched(sv: Server, s: Sid)
    requires Agreed(sv) && s in sv.sessions && sv.sessions[s].open && sv.sessions[s].playerId != 0
    ensures s in sv.conns
  {
    hide Sound, Seats, Presence, Waiting, Tokens;
  }

  lemma DownIsAway(sv: Server, after: Server, closed: set<Sid>, s: Sid, now: int)
    requires Agreed(sv) && WentDown(sv, after, closed, now) && s in closed
    requires s in sv.conns
    ensures s in sv.sessions
    ensures var p := sv.sessions[s].playerId; Away(after, p, now, RoomIdOf(sv.rooms, p))
  {
    assert s in sv.sessions && sv.sessions[s].playerId > 0 by {
      hide Sound, Seats, Presence, Waiting, Tokens;
    }
    hide Agreed;
    assert sv.sessions[s].playerId in PlayersOf(sv, closed);
  }
}
