/** Consequences of the agreement between the tables, in every world disciplined clients can reach. */
module Agreement {
  import opened Prelude
  import opened MessageCodec
  import opened Framing
  import opened Protocol
  import opened MatchQueues
  import opened PlayerStates
  import opened Repository
  import opened Sessions
  import opened WritePump
  import opened Rooms
  import opened ServerModel
  import opened Runs
  import opened Effects
  import opened Soundness
  import opened Discipline

  /** A player id leads to a session exactly when that session is open and bound to the player; so no two
      open sessions share a player. */
  lemma OneOpenSessionPerPlayer(w: World, p: int, s: Sid)
    requires ReachedByDiscipline(w) && p > 0
    ensures var sv := w.server;
      && (p in sv.players && sv.players[p] == s
          <==> s in sv.sessions && sv.sessions[s].open && sv.sessions[s].playerId == p)
      && (s in sv.sessions && sv.sessions[s].open && sv.sessions[s].playerId == p ==>
            forall t :: t in sv.sessions && sv.sessions[t].open && sv.sessions[t].playerId == p ==> s == t)
  {
    ReachedAgreed(w);
  }

  /** The four records of where a player sits agree. */
  lemma RoomRecordsAgree(w: World, p: int, r: int)
    requires ReachedByDiscipline(w)
    ensures var sv := w.server; var t := sv.rooms;
      && (p in t.playerRoom && t.playerRoom[p] == r <==> r in t.rooms && p in t.rooms[r].playerIds)
      && (p in t.playerRoom ==> p in sv.repo && sv.repo[p].roomId == t.playerRoom[p])
      && (r in t.rooms && p in t.rooms[r].playerIds ==>
            p in t.rooms[r].states && t.rooms[r].states[p].roomId == r)
  {
    ReachedAgreed(w);
    var sv := w.server;
    if r in sv.rooms.rooms { assert RoomOk(r, sv.rooms.rooms[r]); }
    if p in sv.rooms.playerRoom { assert Seat(sv.rooms, sv.states, sv.players, sv.repo, p); }
  }

  /** A room marks a member Offline exactly while the reconnect window holds an Offline state for that
      member, which is exactly while no session serves the member. */
  lemma RoomMarksAgree(w: World, r: int, p: int)
    requires ReachedByDiscipline(w)
    requires r in w.server.rooms.rooms && p in w.server.rooms.rooms[r].playerIds
    ensures IsDisconnected(w.server.rooms.rooms[r], p) <==> OfflineIn(w.server.states, p)
    ensures OfflineIn(w.server.states, p) <==> p !in w.server.players
  {
    ReachedAgreed(w);
    var sv := w.server;
    assert RoomOk(r, sv.rooms.rooms[r]);
    assert Seat(sv.rooms, sv.states, sv.players, sv.repo, p);
  }

  // ---- Messages to a group ----

  ghost predicate ServedApart(players: map<int, Sid>) {
    forall p, q :: p in players && q in players && players[p] == players[q] ==> p == q
  }

  /** The session serves one of the listed players. */
  ghost predicate Serves(players: map<int, Sid>, to: seq<int>, t: Sid) {
    exists p :: p in to && p in players && players[p] == t
  }

  /** When players have sessions of their own, a notice reaches each listed player once and nobody else. */
  lemma {:induction false} NotifiedOnce(
    players: map<int, Sid>, sessions: map<Sid, SessionView>, to: seq<int>, m: Message, t: Sid)
    requires NoDup(to) && ServedApart(players) && t in sessions && Notified(players, sessions, to, m).Ok?
    ensures t in Notified(players, sessions, to, m).value
    ensures Notified(players, sessions, to, m).value[t]
         == sessions[t].(sent := sessions[t].sent + if Serves(players, to, t) then [m] else [])
  {
    if to != [] {
      var n := |to| - 1;
      NotifiedOnce(players, sessions, to[..n], m, t);
      assert forall p :: p in to <==> p in to[..n] || p == to[n];
      assert to[n] !in to[..n];
    }
  }

  // ---- Matching ----

  lemma PairTold(players: map<int, Sid>, sessions: map<Sid, SessionView>, first: int, second: int, m: Message)
    requires ServedApart(players) && first in players && second in players && first != second
    ensures Notified(players, sessions, [first, second], m).Ok?
    ensures var told := Notified(players, sessions, [first, second], m).value;
      && told.Keys == sessions.Keys
      && forall t :: t in sessions ==>
           told[t] == sessions[t].(sent := sessions[t].sent
             + if t == players[first] || t == players[second] then [m] else [])
  {
    var pair := [first, second];
    NotifiedKeepsSessions(players, sessions, pair, m);
    assert pair[0] in pair && pair[1] in pair;
    forall t | t in sessions
      ensures t in Notified(players, sessions, pair, m).value
      ensures Notified(players, sessions, pair, m).value[t] == sessions[t].(sent := sessions[t].sent
             + if t == players[first] || t == players[second] then [m] else [])
    {
      NotifiedOnce(players, sessions, pair, m, t);
    }
  }

  lemma MatchOpensRoom(sv: Server, s: Sid, first: int, second: int)
    requires second > 0 && QueueOk(sv.queue) && second !in sv.queue.members && sv.queue.waiting == [first]
    ensures Match(sv, s, second) == RoomFor(Answer(sv.(queue := Queue([], {})), s, MatchSuccess), [first, second])
  {
    var joined := Joined(sv.queue, second);
    assert joined.waiting == [first, second];
    assert joined.waiting[..ROOM_SIZE] == [first, second] && joined.waiting[ROOM_SIZE..] == [];
    JoinOk(sv.queue, second);
    PopOk(joined, ROOM_SIZE);
    NobodyWaits(Popped(joined, ROOM_SIZE).1);
  }

  lemma NobodyWaits(q: Queue)
    requires QueueOk(q) && q.waiting == []
    ensures q == Queue([], {})
  {
    assert forall p :: p !in q.members;
    assert q.members == {};
  }

  /** A room of two as the code sets it up. */
  lemma PairRoom(r: int, first: int, second: int)
    requires first != second
    ensures NewRoom(r, [first, second])
         == RoomView(r, [first, second], map[first := RuntimeState(first, r, Online, "", 0),
                                             second := RuntimeState(second, r, Online, "", 0)])
  {
    var pair := [first, second];
    assert pair[0] in pair && pair[1] in pair;
  }

  lemma PairAssigned(repo: Repo, first: int, second: int, r: int)
    ensures AssignRoom(repo, [first, second], r)
         == map q | q in repo :: if q == first || q == second then repo[q].(roomId := r) else repo[q]
  {
    var pair := [first, second];
    assert pair[0] in pair && pair[1] in pair;
  }

  lemma PairOpened(t: RoomTable, first: int, second: int)
    requires TableOk(t) && first != second && first !in t.playerRoom && second !in t.playerRoom
    ensures var r := t.nextRoomId;
      Opened(t, [first, second])
      == RoomTable(t.rooms[r := NewRoom(r, [first, second])], t.playerRoom[first := r][second := r], r + 1)
  {
    OpenedOk(t, [first, second]);
    var pair := [first, second];
    assert pair[0] in pair && pair[1] in pair;
    hide NewRoom, TableOk;
  }

  lemma RoomForPair(sv: Server, first: int, second: int)
    requires TableOk(sv.rooms) && ServedApart(sv.players) && first != second
    requires Served(sv.players, sv.gone) == sv.players
    requires first in sv.players && second in sv.players
    requires first !in sv.rooms.playerRoom && second !in sv.rooms.playerRoom
    ensures RoomFor(sv, [first, second]).Ok?
    ensures var t, after := sv.rooms, RoomFor(sv, [first, second]).value; var r := t.nextRoomId;
      && after == sv.(
           rooms := RoomTable(t.rooms[r := NewRoom(r, [first, second])], t.playerRoom[first := r][second := r], r + 1),
           repo := map q | q in sv.repo :: if q == first || q == second then sv.repo[q].(roomId := r) else sv.repo[q],
           sessions := after.sessions)
      && after.sessions.Keys == sv.sessions.Keys
      && forall q :: q in sv.sessions ==>
           after.sessions[q] == sv.sessions[q].(sent := sv.sessions[q].sent
             + if q == sv.players[first] || q == sv.players[second]
               then [sv.proto.Encode(RoomCreated(r, [first, second]))] else [])
  {
    PairOpened(sv.rooms, first, second);
    PairAssigned(sv.repo, first, second, sv.rooms.nextRoomId);
    PairTold(sv.players, sv.sessions, first, second,
             sv.proto.Encode(RoomCreated(sv.rooms.nextRoomId, [first, second])));
    hide NewRoom, Notified, TableOk, Opened, AssignRoom, ServedApart;
    return;
  }

  /** A match that completes a pair, on the tables alone. */
  lemma PairMatched(sv: Server, s: Sid, first: int, second: int)
    requires Agreed(sv) && s in sv.sessions && sv.sessions[s].open && sv.sessions[s].playerId == second > 0
    requires sv.queue.waiting == [first] && second != first && second !in sv.rooms.playerRoom
    ensures first in sv.players && second in sv.players && first !in sv.rooms.playerRoom
    ensures Match(sv, s, second).Ok?
    ensures var t, after := sv.rooms, Match(sv, s, second).value; var r := t.nextRoomId;
      && after == sv.(
           queue := Queue([], {}),
           rooms := RoomTable(t.rooms[r := NewRoom(r, [first, second])], t.playerRoom[first := r][second := r], r + 1),
           repo := map q | q in sv.repo :: if q == first || q == second then sv.repo[q].(roomId := r) else sv.repo[q],
           sessions := after.sessions)
      && after.sessions.Keys == sv.sessions.Keys
      && forall q :: q in sv.sessions ==>
           after.sessions[q] == sv.sessions[q].(sent := sv.sessions[q].sent
             + (if q == s then [sv.proto.Encode(MatchSuccess)] else [])
             + (if q == sv.players[first] || q == s
                then [sv.proto.Encode(RoomCreated(r, [first, second]))] else []))
  {
    hide Agreed, NewRoom, RoomFor, Match, Served, TableOk, ServedApart;
    PairIsNext(sv, s, first, second);
    var told := Answer(sv.(queue := Queue([], {})), s, MatchSuccess);
    RoomForPair(told, first, second);
    return;
  }

  lemma PairIsNext(sv: Server, s: Sid, first: int, second: int)
    requires Agreed(sv) && s in sv.sessions && sv.sessions[s].open && sv.sessions[s].playerId == second > 0
    requires sv.queue.waiting == [first] && second != first
    ensures first in sv.players && second in sv.players && sv.players[second] == s && first !in sv.rooms.playerRoom
    ensures TableOk(sv.rooms) && ServedApart(sv.players) && Served(sv.players, sv.gone) == sv.players
    ensures Match(sv, s, second) == RoomFor(Answer(sv.(queue := Queue([], {})), s, MatchSuccess), [first, second])
  {
    hide Agreed, RoomFor, Match, Served, TableOk, QueueOk, ServedApart, Answer;
    EverybodyIsServed(sv);
    assert first in sv.queue.waiting;
    ServedByOpen(sv, first, second, s);
    NotYetWaiting(sv, second);
    RoomsAreSound(sv);
    MembersOnce(sv, sv.rooms.nextRoomId);
    MatchOpensRoom(sv, s, first, second);
    return;
  }

  lemma NotYetWaiting(sv: Server, p: int)
    requires Agreed(sv) && p !in sv.queue.waiting
    ensures QueueOk(sv.queue) && p !in sv.queue.members
  {
    hide Bindings, Seats, Presence, Waiting, Tokens, TableOk, Remembers, Registered;
  }

  /** The same for the message, with the activity noted and the replies in their wire form. */
  lemma PairHandled(sv: Server, s: Sid, message: Message, choice: Choice, now: int, first: int, second: int)
    requires Agreed(sv) && s in sv.sessions && sv.sessions[s].open && sv.sessions[s].playerId == second > 0
    requires sv.proto.Request(message) == MatchReq(second)
    requires sv.queue.waiting == [first] && second != first && second !in sv.rooms.playerRoom
    ensures first in sv.players && Handle(sv, s, message, choice, now).Ok?
    ensures var t, after := sv.rooms, Handle(sv, s, message, choice, now).value; var r := t.nextRoomId;
      && after == sv.(
           queue := Queue([], {}),
           rooms := RoomTable(t.rooms[r := NewRoom(r, [first, second])], t.playerRoom[first := r][second := r], r + 1),
           repo := map q | q in sv.repo :: if q == first || q == second then sv.repo[q].(roomId := r) else sv.repo[q],
           sessions := after.sessions)
      && after.sessions.Keys == sv.sessions.Keys
      && forall q :: q in sv.sessions ==>
           after.sessions[q] == sv.sessions[q].(
             lastActive := if q == s then now else sv.sessions[q].lastActive,
             sent := sv.sessions[q].sent
               + (if q == s then [Message(2002, sv.proto.serialize(MatchSuccess))] else [])
               + (if q == sv.players[first] || q == s
                  then [Message(3001, sv.proto.serialize(RoomCreated(r, [first, second])))] else []))
  {
    hide Agreed, Match, NewRoom, SameBindings;
    var active := Touched(sv, s, now);
    TouchedBindings(sv, s, now);
    SameBindingsAgreed(sv, active.sessions);
    PairMatched(active, s, first, second);
    return;
  }

  /** A matched pair is ready: each of the two is served by an open session of their own and sits in no
      room, the match cannot fail, and this is all that it does. */
  lemma MatchedPairIsReady(w: World, s: Sid, message: Message, choice: Choice, first: int)
    requires ReachedByDiscipline(w) && message.msgId == 2001
    requires Possible(w, Receive(s, message, choice)) && Disciplined(w, Receive(s, message, choice))
    requires w.server.proto.matchPlayer(message.body) > 0
    requires w.server.queue.waiting == [first] && w.server.proto.matchPlayer(message.body) != first
    ensures var sv := w.server; var second := sv.proto.matchPlayer(message.body);
      && first in sv.players && sv.players[first] in sv.sessions && sv.sessions[sv.players[first]].open
      && sv.sessions[s].open && sv.sessions[s].playerId == second && sv.players[first] != s
      && first !in sv.rooms.playerRoom && second !in sv.rooms.playerRoom
      && Step(w, Receive(s, message, choice)).Ok?
      && var after := Step(w, Receive(s, message, choice)).value.server;
         var t, r := sv.rooms, sv.rooms.nextRoomId;
         var room := RoomView(r, [first, second], map[first := RuntimeState(first, r, Online, "", 0),
                                                      second := RuntimeState(second, r, Online, "", 0)]);
         && after == sv.(
              queue := Queue([], {}),
              rooms := RoomTable(t.rooms[r := room], t.playerRoom[first := r][second := r], r + 1),
              repo := map q | q in sv.repo ::
                        if q == first || q == second then sv.repo[q].(roomId := r) else sv.repo[q],
              sessions := after.sessions)
         && after.sessions.Keys == sv.sessions.Keys
         && forall q :: q in sv.sessions ==>
              after.sessions[q] == sv.sessions[q].(
                lastActive := if q == s then w.now else sv.sessions[q].lastActive,
                sent := sv.sessions[q].sent
                  + (if q == s then [Message(2002, sv.proto.serialize(MatchSuccess))] else [])
                  + (if q == sv.players[first] || q == s
                     then [Message(3001, sv.proto.serialize(RoomCreated(r, [first, second])))] else []))
  {
    hide Agreed, Handle, NewRoom, ReachedByDiscipline, Proto.Request;
    var sv, second := w.server, w.server.proto.matchPlayer(message.body);
    HandlersByNumber(sv.proto, message);
    ReachedAgreed(w);
    ServedByOpen(sv, first, second, s);
    PairHandled(sv, s, message, choice, w.now, first, second);
    PairRoom(sv.rooms.nextRoomId, first, second);
    return;
  }

  lemma TouchedBindings(sv: Server, s: Sid, now: int)
    requires s in sv.sessions
    ensures SameBindings(sv.sessions, Touched(sv, s, now).sessions)
  {
  }

  lemma ServedByOpen(sv: Server, first: int, second: int, s: Sid)
    requires Agreed(sv) && first in sv.queue.waiting && first != second
    requires s in sv.sessions && sv.sessions[s].open && sv.sessions[s].playerId == second > 0
    ensures first in sv.players && sv.players[first] in sv.sessions && sv.sessions[sv.players[first]].open
    ensures sv.players[first] != s && sv.players[second] == s && second in sv.players && first !in sv.rooms.playerRoom
  {
    hide Sound, Seats, Presence, Tokens;
  }

  /** A match request that completes no pair is answered to its sender alone, and puts the sender in line
      exactly if the id is positive and nobody waits. */
  lemma MatchWithoutPair(w: World, s: Sid, message: Message, choice: Choice)
    requires Reached(w) && Possible(w, Receive(s, message, choice)) && message.msgId == 2001
    requires var p := w.server.proto.matchPlayer(message.body);
      p <= 0 || w.server.queue.waiting == [] || w.server.queue.waiting == [p]
    ensures var sv := w.server; var p := sv.proto.matchPlayer(message.body);
      var joins := p > 0 && sv.queue.waiting == [];
      var reply := if joins then MatchSuccess
                   else if p <= 0 then MatchFailed("player_id must be non-negative")
                   else MatchFailed("player_id already in match_queue");
      var heard := sv.sessions[s].(lastActive := w.now,
                                   sent := sv.sessions[s].sent + [Message(2002, sv.proto.serialize(reply))]);
      Step(w, Receive(s, message, choice))
      == Ok(w.(server := sv.(sessions := sv.sessions[s := heard],
                             queue := if joins then Queue([p], {p}) else sv.queue)))
  {
    hide Sound, Handle, Proto.Request, Reached;
    HandlersByNumber(w.server.proto, message);
    ReachedSound(w);
    TheLineIsOk(w.server);
    MatchLeavesWaiting(w.server, s, message, choice, w.now);
    return;
  }

  lemma TheLineIsOk(sv: Server)
    requires Sound(sv)
    ensures QueueOk(sv.queue)
  {
    hide TableOk, Remembers, Registered, QueueOk;
  }

  lemma MatchLeavesWaiting(sv: Server, s: Sid, message: Message, choice: Choice, now: int)
    requires QueueOk(sv.queue) && s in sv.sessions && sv.proto.Request(message).MatchReq?
    requires var p := sv.proto.Request(message).playerId;
      p <= 0 || sv.queue.waiting == [] || sv.queue.waiting == [p]
    ensures var p := sv.proto.Request(message).playerId;
      var joins := p > 0 && sv.queue.waiting == [];
      var reply := if joins then MatchSuccess
                   else if p <= 0 then MatchFailed("player_id must be non-negative")
                   else MatchFailed("player_id already in match_queue");
      Handle(sv, s, message, choice, now)
      == Ok(sv.(sessions := sv.sessions[s := Heard(sv, s, now, reply)],
                queue := if joins then Queue([p], {p}) else sv.queue))
  {
    hide Match, Answer, QueueOk;
    var p, active := sv.proto.Request(message).playerId, Touched(sv, s, now);
    MatchRefusesOrWaits(active, s, p);
    AnswerHeard(sv, s, now, MatchFailed("player_id must be non-negative"));
    AnswerHeard(sv, s, now, MatchFailed("player_id already in match_queue"));
    AnswerHeard(sv.(queue := Queue([p], {p})), s, now, MatchSuccess);
    return;
  }

  lemma MatchRefusesOrWaits(sv: Server, s: Sid, p: int)
    requires QueueOk(sv.queue) && (p <= 0 || sv.queue.waiting == [] || sv.queue.waiting == [p])
    ensures Match(sv, s, p)
         == Ok(if p <= 0 then Answer(sv, s, MatchFailed("player_id must be non-negative"))
               else if sv.queue.waiting != [] then Answer(sv, s, MatchFailed("player_id already in match_queue"))
               else Answer(sv.(queue := Queue([p], {p})), s, MatchSuccess))
  {
    hide RoomFor, Answer;
    assert sv.queue.waiting == [p] ==> p in sv.queue.waiting;
    if p > 0 && sv.queue.waiting == [] {
      assert forall x :: x !in sv.queue.members;
      assert Joined(sv.queue, p) == Queue([p], {p});
      assert Popped(Joined(sv.queue, p), ROOM_SIZE) == ([], Queue([p], {p}));
    }
  }

  // ---- Chatting ----

  /** A chat that goes through is sent once to every member of the room it names, adds one to the sender's
      score, and changes nothing else but the sender's activity. */
  lemma ChatReachesTheRoom(w: World, s: Sid, message: Message, choice: Choice)
    requires ReachedByDiscipline(w) && Possible(w, Receive(s, message, choice)) && message.msgId == 4001
    requires Step(w, Receive(s, message, choice)).Ok?
    ensures var sv := w.server; var (r, text) := sv.proto.chat(message.body);
      var p := sv.sessions[s].playerId;
      var after := Step(w, Receive(s, message, choice)).value.server;
      && r in sv.rooms.rooms
      && after == sv.(sessions := after.sessions, repo := after.repo)
      && after.repo == (map q | q in sv.repo ::
           if q == p then sv.repo[q].(score := sv.repo[q].score + 1) else sv.repo[q])
      && after.sessions.Keys == sv.sessions.Keys
      && forall t :: t in sv.sessions ==>
           after.sessions[t] == sv.sessions[t].(
             lastActive := if t == s then w.now else sv.sessions[t].lastActive,
             sent := sv.sessions[t].sent + if Serves(sv.players, sv.rooms.rooms[r].playerIds, t)
                                           then [Message(4002, sv.proto.serialize(ChatNotify(r, p, text)))] else [])
  {
    hide Agreed, ReachedByDiscipline, Handle, Proto.Request, Serves;
    HandlersByNumber(w.server.proto, message);
    ReachedAgreed(w);
    var (r, text) := w.server.proto.chat(message.body);
    ChatHandled(w.server, s, message, choice, w.now, r, text);
    return;
  }

  lemma ChatHandled(sv: Server, s: Sid, message: Message, choice: Choice, now: int, r: int, text: string)
    requires Agreed(sv) && s in sv.sessions && sv.proto.Request(message) == ChatReq(r, text)
    requires Handle(sv, s, message, choice, now).Ok?
    ensures r in sv.rooms.rooms
    ensures var after, p := Handle(sv, s, message, choice, now).value, sv.sessions[s].playerId;
      && after == sv.(sessions := after.sessions, repo := after.repo)
      && after.repo == (map q | q in sv.repo ::
           if q == p then sv.repo[q].(score := sv.repo[q].score + 1) else sv.repo[q])
      && after.sessions.Keys == sv.sessions.Keys
      && forall t :: t in sv.sessions ==>
           after.sessions[t] == sv.sessions[t].(
             lastActive := if t == s then now else sv.sessions[t].lastActive,
             sent := sv.sessions[t].sent + if Serves(sv.players, sv.rooms.rooms[r].playerIds, t)
                                           then [Message(4002, sv.proto.serialize(ChatNotify(r, p, text)))] else [])
  {
    hide Agreed, Chat, AddScore, Serves, SameBindings, Proto.Request;
    var active := Touched(sv, s, now);
    TouchedBindings(sv, s, now);
    SameBindingsAgreed(sv, active.sessions);
    ChatDoes(active, s, r, text);
    OneMoreChat(sv.repo, sv.sessions[s].playerId);
    return;
  }

  lemma OneMoreChat(repo: Repo, p: int)
    ensures AddScore(repo, p, 1)
         == map q | q in repo :: if q == p then repo[q].(score := repo[q].score + 1) else repo[q]
  {
  }

  /** The same on the tables alone. */
  lemma ChatDoes(sv: Server, s: Sid, r: int, text: string)
    requires Agreed(sv) && s in sv.sessions && Chat(sv, s, r, text).Ok?
    ensures r in sv.rooms.rooms
    ensures var after, p := Chat(sv, s, r, text).value, sv.sessions[s].playerId;
      && after == sv.(sessions := after.sessions, repo := AddScore(sv.repo, p, 1))
      && after.sessions.Keys == sv.sessions.Keys
      && forall t :: t in sv.sessions ==>
           after.sessions[t] == sv.sessions[t].(
             sent := sv.sessions[t].sent + if Serves(sv.players, sv.rooms.rooms[r].playerIds, t)
                                           then [sv.proto.Encode(ChatNotify(r, p, text))] else [])
  {
    MembersOnce(sv, r);
    EverybodyIsServed(sv);
    hide Agreed, Notified, AddScore, Serves, Served, ServedApart;
    var to, m := sv.rooms.rooms[r].playerIds, sv.proto.Encode(ChatNotify(r, sv.sessions[s].playerId, text));
    NotifiedKeepsSessions(sv.players, sv.sessions, to, m);
    forall t | t in sv.sessions
      ensures Notified(sv.players, sv.sessions, to, m).value[t] == sv.sessions[t].(
        sent := sv.sessions[t].sent + if Serves(sv.players, to, t) then [m] else [])
    {
      NotifiedOnce(sv.players, sv.sessions, to, m, t);
    }
    return;
  }

  lemma MembersOnce(sv: Server, r: int)
    requires Agreed(sv)
    ensures ServedApart(sv.players) && (r in sv.rooms.rooms ==> NoDup(sv.rooms.rooms[r].playerIds))
  {
    hide Seats, Presence, Waiting, Tokens, Remembers, Registered;
    if r in sv.rooms.rooms {
      assert RoomOk(r, sv.rooms.rooms[r]);
    }
  }

  /** So the text of a chat reaches the client of each member once, and no other client: once what was sent to
      a client has been written, the client has dispatched what it was sent before and then the notice. */
  lemma ChatReachesTheClients(w: World, s: Sid, message: Message, choice: Choice, t: Sid, pump: Pump,
                              chunks: seq<Bytes>)
    requires ReachedByDiscipline(w) && Possible(w, Receive(s, message, choice)) && message.msgId == 4001
    requires Step(w, Receive(s, message, choice)).Ok?
    requires t in w.server.sessions && t in Step(w, Receive(s, message, choice)).value.server.sessions
    requires PumpOk(pump, Step(w, Receive(s, message, choice)).value.server.sessions[t].sent)
    requires pump.queue == [] && Flatten(chunks) == Flatten(pump.written)
    ensures var sv := w.server; var (r, text) := sv.proto.chat(message.body);
      var notice := Message(4002, sv.proto.serialize(ChatNotify(r, sv.sessions[s].playerId, text)));
      && r in sv.rooms.rooms
      && Feed([], chunks).messages == Filter(sv.sessions[t].sent, Fits)
           + if |notice.body| <= 1_048_576 && Serves(sv.players, sv.rooms.rooms[r].playerIds, t) then [notice] else []
  {
    var before := w.server.sessions[t].sent;
    hide Step, Feed, PumpOk, ReachedByDiscipline;
    ChatReachesTheRoom(w, s, message, choice);
    var after := Step(w, Receive(s, message, choice)).value.server.sessions[t].sent;
    PumpOkDelivers(pump, after, chunks);
    if after != before + [] {
      assert after[..|after| - 1] == before;
    } else {
      assert after == before;
    }
    return;
  }

  // ---- Coming back ----

  lemma TokensAreTheirs(sv: Server, p: int)
    requires Agreed(sv)
    ensures OfflineIn(sv.states, p) <==> p in sv.states && sv.states[p].conn == Offline
    ensures p in sv.states && p != 0 ==> sv.states[p].token == Token(p)
  {
    hide Sound, Bindings, Seats, Presence, Waiting, Token;
  }

  lemma RoomsAreSound(sv: Server)
    requires Agreed(sv)
    ensures TableOk(sv.rooms) && NoStraySeat(sv.rooms)
  {
    hide Bindings, Presence, Waiting, Tokens, TableOk, Remembers, Registered;
  }

  lemma MarkedInKeys(t: RoomTable, p: int, conn: ConnState)
    requires MarkedIn(t, p, conn).Ok?
    ensures MarkedIn(t, p, conn).value.rooms.Keys == t.rooms.Keys
  {
  }

  /** A player comes back exactly by presenting their own token while Offline, and then sits where they sat:
      only their own mark and state change. */
  lemma ReconnectRestoresTheSeat(w: World, s: Sid, message: Message, choice: Choice)
    requires ReachedByDiscipline(w) && message.msgId == 9101
    requires Possible(w, Receive(s, message, choice)) && Disciplined(w, Receive(s, message, choice))
    ensures var sv := w.server; var (p, token) := sv.proto.reconnect(message.body);
      && Step(w, Receive(s, message, choice)).Ok?
      && var after := Step(w, Receive(s, message, choice)).value.server;
         var back := OfflineIn(sv.states, p) && token == Token(p);
         && after.players == (if back then sv.players[p := s] else sv.players)
         && after.states == (if back then sv.states[p := sv.states[p].(conn := Online)] else sv.states)
         && after.rooms.playerRoom == sv.rooms.playerRoom && after.rooms.rooms.Keys == sv.rooms.rooms.Keys
         && (forall q :: q in sv.rooms.playerRoom ==>
               (MarkedOffline(after.rooms, q) <==> MarkedOffline(sv.rooms, q) && !(back && q == p)))
         && after.conns == (if back then sv.conns + {s} else sv.conns)
         && after.queue == sv.queue && after.repo == sv.repo && after.nextPlayerId == sv.nextPlayerId
  {
    hide Handle, MarkedIn, MarkedOffline, OfflineIn, Token, AssignRoom, AddScore, Opened, Paired, ReachedByDiscipline,
      Proto.Request;
    var sv := w.server;
    var (p, token) := sv.proto.reconnect(message.body);
    HandlersByNumber(sv.proto, message);
    ReachedAgreed(w);
    StepAgreed(w, Receive(s, message, choice));
    TokensAreTheirs(sv, p);
    RoomsAreSound(sv);
    hide Agreed, NoStraySeat, TableOk;
    MarkedInSeats(sv.rooms, p, Online);
    MarkedInKeys(sv.rooms, p, Online);
    HandleEffect(sv, s, message, choice, w.now);
    return;
  }
}
