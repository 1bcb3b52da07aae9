/** Score keeping over whole runs, whatever the clients do. */
module Scores {
  import opened Prelude
  import opened MessageCodec
  import opened PlayerStates
  import opened Repository
  import opened Rooms
  import opened ServerModel
  import opened Runs
  import opened Effects
  import opened Soundness

  /** Whether the event is a chat sent by `p`, the player its session is bound to. */
  ghost predicate ChatFrom(w: World, event: Event, p: int) {
    && event.Receive? && event.s in w.server.sessions
    && event.message.msgId == 4001 && w.server.sessions[event.s].playerId == p
  }

  /** How many of the events were chats by `p`. */
  ghost function ChatsFrom(start: World, events: seq<Event>, p: int): nat
    requires Run(start, events).Some?
  {
    if events == [] then 0
    else
      var n := |events| - 1;
      ChatsFrom(start, events[..n], p) + if ChatFrom(Run(start, events[..n]).value, events[n], p) then 1 else 0
  }

  /** One event moves scores by its chats alone; new players start from zero and nobody is forgotten. */
  ghost predicate ScoresFollow(w: World, event: Event, after: Repo) {
    && (forall p :: p in w.server.repo ==>
          p in after && after[p].score == w.server.repo[p].score + (if ChatFrom(w, event, p) then 1 else 0))
    && (forall p :: p in after && p !in w.server.repo ==> after[p].score == 0)
    && (forall p :: ChatFrom(w, event, p) ==> p == 0 || p in w.server.repo)
  }

  lemma {:induction false} SweepsKeepRepo(sv: Server, order: seq<Sid>, expired: seq<int>, now: int)
    ensures ClosedAll(sv, order, now).Ok? ==>
              var after := ClosedAll(sv, order, now).value;
              after.repo == sv.repo && after.nextPlayerId == sv.nextPlayerId
    ensures Forgotten(sv, expired).Ok? ==>
              var after := Forgotten(sv, expired).value; after.repo == sv.repo && after.nextPlayerId == sv.nextPlayerId
    decreases |order| + |expired|
  {
    if order != [] {
      SweepsKeepRepo(sv, order[..|order| - 1], [], now);
    }
    if expired != [] {
      SweepsKeepRepo(sv, [], expired[..|expired| - 1], now);
    }
  }

  /** Logins add, chats count, and opening a room loads, changes and saves states without touching a score. */
  lemma HandleScores(w: World, s: Sid, message: Message, choice: Choice)
    requires Registered(w.server) && s in w.server.sessions && Handle(w.server, s, message, choice, w.now).Ok?
    ensures ScoresFollow(w, Receive(s, message, choice), Handle(w.server, s, message, choice, w.now).value.repo)
  {
    hide Handle, Paired, Opened, MarkedIn, MarkedOnline;
    HandleEffect(w.server, s, message, choice, w.now);
  }

  lemma NothingScored(w: World, event: Event)
    requires !event.Receive?
    ensures ScoresFollow(w, event, w.server.repo)
  {
  }

  lemma CloseKeepsRepo(sv: Server, s: Sid, now: int)
    ensures Closed(sv, s, now).Ok? ==> Closed(sv, s, now).value.repo == sv.repo
  {
    hide MarkedIn;
  }

  lemma StepScores(w: World, event: Event)
    requires Sound(w.server) && Possible(w, event) && Step(w, event).Ok?
    ensures ScoresFollow(w, event, Step(w, event).value.server.repo)
  {
    assert Registered(w.server);
    hide Handle, Sound, Closed, ClosedAll, Forgotten, ScoresFollow, Registered;
    if !event.Receive? {
      NothingScored(w, event);
    }
    match event
    case Receive(s, message, choice) => HandleScores(w, s, message, choice);
    case CloseSession(s) => CloseKeepsRepo(w.server, s, w.now);
    case HeartbeatSweep(stale) => SweepsKeepRepo(w.server, stale, [], w.now);
    case ReconnectSweep(expired) => SweepsKeepRepo(w.server, [], expired, w.now);
    case _ =>
  }

  /** Over every run, each registered player's score is the number of chats handled from that player. */
  lemma {:induction false} ScoreCountsChats(start: World, events: seq<Event>, p: int)
    requires Fresh(start) && Run(start, events).Some?
    ensures var repo := Run(start, events).value.server.repo;
      && (p in repo ==> repo[p].score == ChatsFrom(start, events, p))
      && (p > 0 && p !in repo ==> ChatsFrom(start, events, p) == 0)
  {
    if events != [] {
      var n := |events| - 1;
      ScoreCountsChats(start, events[..n], p);
      RunSound(start, events[..n]);
      RunSound(start, events);
      var w := Run(start, events[..n]).value;
      StepScores(w, events[n]);
      hide Step, Possible, ChatFrom;
      assert p in Run(start, events).value.server.repo ==> p > 0;
    }
  }
}
