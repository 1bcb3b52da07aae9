/** Runs of the server: sequences of events, each one atomic on the event loop. */
module Runs {
  import opened Prelude
  import opened MessageCodec
  import opened PlayerStates
  import opened ServerModel

  datatype World = World(server: Server, now: int)

  /** A closed session is destroyed once nothing refers to it: the watched set no longer holds it, and its
      pending callbacks have come to an end, which the environment decides.
      The orders in which the sweeps visit their unordered containers are part of the event. */
  datatype Event =
    | Accept(s: Sid)
    | Receive(s: Sid, message: Message, choice: Choice)
    | CloseSession(s: Sid)
    | Destroy(s: Sid)
    | HeartbeatSweep(stale: seq<Sid>)
    | ReconnectSweep(expired: seq<int>)
    | Tick(nanos: nat)

  ghost predicate Possible(w: World, event: Event) {
    match event
    case Accept(s) => s !in w.server.sessions
    case Receive(s, message, choice) =>
      s in w.server.sessions && s !in w.server.gone && Allowed(w.server, message, choice)
    case CloseSession(s) => s in w.server.sessions
    case Destroy(s) => s in w.server.sessions && !w.server.sessions[s].open && s !in w.server.conns
    case HeartbeatSweep(stale) => Enumerates(stale, Stale(w.server, w.now))
    case ReconnectSweep(expired) => Enumerates(expired, Expired(w.server.states, w.now, RECONNECT_TIMEOUT))
    case Tick(_) => true
  }

  ghost function Step(w: World, event: Event): Outcome<World>
    requires Possible(w, event)
  {
    match event
    case Accept(s) => Ok(w.(server := Accepted(w.server, s, w.now)))
    case Receive(s, message, choice) => In(w, Handle(w.server, s, message, choice, w.now))
    case CloseSession(s) => In(w, Closed(w.server, s, w.now))
    case Destroy(s) => Ok(w.(server := Destroyed(w.server, s)))
    case HeartbeatSweep(stale) => In(w, ClosedAll(w.server, stale, w.now))
    case ReconnectSweep(expired) => In(w, Forgotten(w.server, expired))
    case Tick(nanos) => Ok(w.(now := w.now + nanos))
  }

  ghost function In(w: World, server: Outcome<Server>): Outcome<World> {
    match server
    case Fault => Fault
    case Ok(sv) => Ok(w.(server := sv))
  }

  /** How a server starts. */
  ghost predicate Fresh(w: World) {
    w.server == EmptyServer(w.server.proto)
  }

  /** The world after the events, or `None` if some event was impossible or ended the process. */
  ghost function Run(start: World, events: seq<Event>): Option<World> {
    if events == [] then Some(start)
    else
      var n := |events| - 1;
      match Run(start, events[..n])
      case None => None
      case Some(w) =>
        if !Possible(w, events[n]) then None
        else match Step(w, events[n])
          case Fault => None
          case Ok(next) => Some(next)
  }

  lemma RunOne(start: World, events: seq<Event>, event: Event)
    requires Run(start, events).Some? && Possible(Run(start, events).value, event)
    ensures Run(start, events + [event])
         == match Step(Run(start, events).value, event) case Fault => None case Ok(next) => Some(next)
  {
    assert (events + [event])[..|events + [event]| - 1] == events;
  }

  lemma {:induction false} RunPrefix(start: World, events: seq<Event>, more: seq<Event>)
    requires Run(start, events + more).Some?
    ensures Run(start, events).Some?
  {
    hide Step, Possible;
    if more == [] {
      assert events + more == events;
    } else {
      var n := |more| - 1;
      assert (events + more)[..|events| + n] == events + more[..n];
      RunPrefix(start, events, more[..n]);
    }
  }

  lemma TimeGoesOn(w: World, event: Event)
    requires Possible(w, event) && Step(w, event).Ok?
    ensures w.now <= Step(w, event).value.now
  {
  }

  /** What a well-behaved client keeps to: it logs in or reconnects once per connection, reconnects only
      as a real player, asks to be matched only as itself and only while in no room; and the event loop
      runs no handler on a closed session. */
  ghost predicate Disciplined(w: World, event: Event) {
    match event
    case Receive(s, message, _) =>
      && s in w.server.sessions && w.server.sessions[s].open
      && var mine := w.server.sessions[s].playerId;
         (match w.server.proto.Request(message)
          case LoginReq(_) => mine == 0
          case ReconnectReq(p, _) => mine == 0 && p > 0
          case MatchReq(p) => p == mine && p !in w.server.rooms.playerRoom
          case _ => true)
    case _ => true
  }

  ghost predicate AllDisciplined(start: World, events: seq<Event>) {
    events == []
    || (var n := |events| - 1;
        AllDisciplined(start, events[..n])
        && (Run(start, events[..n]).Some? ==> Disciplined(Run(start, events[..n]).value, events[n])))
  }

  /** Some run of a freshly started server leads here. */
  ghost predicate Reached(w: World) {
    exists start, events :: Fresh(start) && Run(start, events) == Some(w)
  }

  /** Some run of disciplined clients leads here. */
  ghost predicate ReachedByDiscipline(w: World) {
    exists start, events :: Fresh(start) && AllDisciplined(start, events) && Run(start, events) == Some(w)
  }
}
