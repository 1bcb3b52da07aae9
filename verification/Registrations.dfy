/** What the repository knows of each player: the history of the run and nothing else. */
module Registrations {
  import opened Protocol
  import opened MatchQueues
  import opened PlayerStates
  import opened Repository
  import opened Rooms
  import opened ServerModel
  import opened Runs
  import opened Effects
  import opened Soundness
  import opened Scores

  /** The event is a login with a name. */
  ghost predicate NamedLogin(w: World, event: Event) {
    event.Receive? && event.message.msgId == 1001 && w.server.proto.loginName(event.message.body) != ""
  }

  /** The event is a match request that joins a player to one who waits, and `q` is one of the two. */
  ghost predicate SeatedBy(w: World, event: Event, q: int) {
    && event.Receive? && event.message.msgId == 2001
    && var p, waiting := w.server.proto.matchPlayer(event.message.body), w.server.queue.waiting;
       p > 0 && waiting != [] && waiting[0] != p && (q == p || q == waiting[0])
  }

  /** The name and the wall-clock time of each named login, in order. */
  ghost function Logins(start: World, events: seq<Event>): seq<(string, int)>
    requires Run(start, events).Some?
  {
    if events == [] then []
    else
      var n := |events| - 1;
      Logins(start, events[..n]) + NewLogins(Run(start, events[..n]).value, events[n])
  }

  ghost function NewLogins(w: World, event: Event): seq<(string, int)> {
    if NamedLogin(w, event) then [(w.server.proto.loginName(event.message.body), event.choice.wallMs)] else []
  }

  /** The latest room a registered player has been put into, -1 if there was none. */
  ghost function LastRoom(start: World, events: seq<Event>, p: int): int
    requires Run(start, events).Some?
  {
    if events == [] then -1
    else
      var n := |events| - 1;
      var w := Run(start, events[..n]).value;
      if SeatedBy(w, events[n], p) && p in w.server.repo then w.server.rooms.nextRoomId
      else LastRoom(start, events[..n], p)
  }

  /** What one event makes of the record of player `q`. */
  ghost predicate Records(w: World, event: Event, after: Server, q: int) {
    var sv, next := w.server, w.server.nextPlayerId;
    && after.nextPlayerId == (if NamedLogin(w, event) then next + 1 else next)
    && (q in after.repo <==> q in sv.repo || (NamedLogin(w, event) && q == next))
    && (q in sv.repo ==>
          after.repo[q] == sv.repo[q].(
            roomId := if SeatedBy(w, event, q) then sv.rooms.nextRoomId else sv.repo[q].roomId,
            score := sv.repo[q].score + if ChatFrom(w, event, q) then 1 else 0))
    && (NamedLogin(w, event) && q == next ==>
          after.repo[q]
          == PlayerState(q, sv.proto.loginName(event.message.body), 0, true, -1, event.choice.wallMs, 0))
  }

  lemma AssignedOne(repo: Repo, pair: seq<int>, r: int, q: int)
    ensures AssignRoom(repo, pair, r).Keys == repo.Keys
    ensures q in repo ==>
              AssignRoom(repo, pair, r)[q] == repo[q].(roomId := if q in pair then r else repo[q].roomId)
  {
  }

  lemma PairIsSeated(w: World, event: Event, q: int)
    requires QueueOk(w.server.queue) && |w.server.queue.waiting| < ROOM_SIZE
    requires event.Receive? && event.message.msgId == 2001
    ensures q in Paired(w.server.queue, w.server.proto.matchPlayer(event.message.body)) <==> SeatedBy(w, event, q)
  {
    var p, waiting := w.server.proto.matchPlayer(event.message.body), w.server.queue.waiting;
    hide QueueOk, Paired;
    PairedIff(w.server.queue, p);
    if waiting != [] {
      assert waiting == [waiting[0]];
      var pair := [waiting[0], p];
      assert pair[0] in pair && pair[1] in pair;
    }
    return;
  }

  lemma ScoredOne(repo: Repo, p: int, q: int)
    ensures AddScore(repo, p, 1).Keys == repo.Keys
    ensures q in repo ==>
              AddScore(repo, p, 1)[q] == repo[q].(score := repo[q].score + if q == p then 1 else 0)
  {
  }

  lemma HandleRecords(w: World, event: Event, q: int)
    requires Sound(w.server) && event.Receive? && event.s in w.server.sessions
    requires Handle(w.server, event.s, event.message, event.choice, w.now).Ok?
    ensures Records(w, event, Handle(w.server, event.s, event.message, event.choice, w.now).value, q)
  {
    var sv := w.server;
    LineAndNextId(sv);
    hide Handle, Sound, QueueOk, Paired, Lined, Opened, AssignRoom, AddScore, MarkedIn, MarkedOnline, Proto.Request,
      SeatedBy;
    HandlersByNumber(sv.proto, event.message);
    HandleEffect(sv, event.s, event.message, event.choice, w.now);
    if event.message.msgId == 2001 {
      PairIsSeated(w, event, q);
      AssignedOne(sv.repo, Paired(sv.queue, sv.proto.matchPlayer(event.message.body)), sv.rooms.nextRoomId, q);
    } else {
      OnlyMatchesSeat(w, event, q);
      ScoredOne(sv.repo, sv.sessions[event.s].playerId, q);
    }
    return;
  }

  lemma LineAndNextId(sv: Server)
    requires Sound(sv)
    ensures QueueOk(sv.queue) && |sv.queue.waiting| < ROOM_SIZE && sv.nextPlayerId !in sv.repo
  {
    hide TableOk, Remembers, QueueOk;
  }

  lemma OnlyMatchesSeat(w: World, event: Event, q: int)
    ensures SeatedBy(w, event, q) ==> event.Receive? && event.message.msgId == 2001
  {
  }

  /** One event changes a player's record by its own match and chat alone: a match sets the room, a chat adds one
      to the score, a named login makes the record, and nothing is ever lost. */
  lemma StepRecords(w: World, event: Event, q: int)
    requires Sound(w.server) && Possible(w, event) && Step(w, event).Ok?
    ensures Records(w, event, Step(w, event).value.server, q)
  {
    hide Handle, Sound, ClosedAll, Forgotten, Expired, Stale;
    match event
    case Accept(_) =>
    case Receive(s, message, choice) => HandleRecords(w, event, q);
    case CloseSession(s) =>
      OneIsAll(w.server, s, w.now);
      SweepsKeepRepo(w.server, [s], [], w.now);
    case Destroy(_) =>
    case HeartbeatSweep(stale) =>
      SweepsKeepRepo(w.server, stale, [], w.now);
    case ReconnectSweep(expired) =>
      SweepsKeepRepo(w.server, [], expired, w.now);
    case Tick(_) =>
  }

  /** The record of `p` after these logins, this many chats, and a latest room. */
  ghost predicate Recorded(sv: Server, logins: seq<(string, int)>, p: int, chats: nat, room: int) {
    && sv.nextPlayerId == 10000 + |logins|
    && (p in sv.repo <==> 10000 <= p < 10000 + |logins|)
    && (p in sv.repo ==>
          sv.repo[p] == PlayerState(p, logins[p - 10000].0, chats, true, room, logins[p - 10000].1, 0))
    && (p !in sv.repo ==> room == -1 && (p > 0 ==> chats == 0))
  }

  lemma RecordedNext(w: World, event: Event, after: Server, logins: seq<(string, int)>, p: int, chats: nat, room: int)
    requires Recorded(w.server, logins, p, chats, room) && Records(w, event, after, p)
    requires ChatFrom(w, event, p) ==> p == 0 || p in w.server.repo
    ensures Recorded(after, logins + NewLogins(w, event), p, chats + (if ChatFrom(w, event, p) then 1 else 0),
                     if SeatedBy(w, event, p) && p in w.server.repo then w.server.rooms.nextRoomId else room)
  {
    hide ChatFrom, SeatedBy;
    assert ChatFrom(w, event, p) ==> !NamedLogin(w, event) by { OnlyChatsCount(w, event, p); }
    return;
  }

  lemma OnlyChatsCount(w: World, event: Event, p: int)
    ensures ChatFrom(w, event, p) ==> event.Receive? && event.message.msgId == 4001
  {
  }

  lemma {:induction false} RunRecorded(start: World, events: seq<Event>, p: int)
    requires Fresh(start) && Run(start, events).Some?
    ensures Recorded(Run(start, events).value.server, Logins(start, events), p,
                     ChatsFrom(start, events, p), LastRoom(start, events, p))
  {
    if events != [] {
      hide Step, Possible, Sound, ChatFrom, SeatedBy, NewLogins, Recorded, Records, ScoresFollow;
      var n := |events| - 1;
      RunRecorded(start, events[..n], p);
      RunSound(start, events[..n]);
      var w, after := Run(start, events[..n]).value, Run(start, events).value.server;
      StepRecords(w, events[n], p);
      StepScores(w, events[n]);
      OnlyPlayersChat(w, events[n], after.repo, p);
      RecordedNext(w, events[n], after, Logins(start, events[..n]), p, ChatsFrom(start, events[..n], p),
                   LastRoom(start, events[..n], p));
    }
    return;
  }

  lemma OnlyPlayersChat(w: World, event: Event, after: Repo, p: int)
    requires ScoresFollow(w, event, after)
    ensures ChatFrom(w, event, p) ==> p == 0 || p in w.server.repo
  {
  }

  /** The whole repository of any run, whatever the clients do: the named logins are numbered from 10000 in order,
      and the record of each is the name and the time it logged in with, the number of its chats, and the
      latest room it was matched into. */
  lemma RepositoryIsTheHistory(start: World, events: seq<Event>, p: int)
    requires Fresh(start) && Run(start, events).Some?
    ensures var sv, logins := Run(start, events).value.server, Logins(start, events);
      && sv.nextPlayerId == 10000 + |logins|
      && (p in sv.repo <==> 10000 <= p < 10000 + |logins|)
      && (p in sv.repo ==>
            sv.repo[p] == PlayerState(p, logins[p - 10000].0, ChatsFrom(start, events, p), true,
                                      LastRoom(start, events, p), logins[p - 10000].1, 0))
  {
    RunRecorded(start, events, p);
  }
}
