/** Which tables a message can change: what the handlers leave alone. */
module Effects {
  import opened Prelude
  import opened MessageCodec
  import opened Protocol
  import opened MatchQueues
  import opened PlayerStates
  import opened Repository
  import opened Sessions
  import opened Rooms
  import opened ServerModel

  /** The players a match request pairs; none if it is refused or nobody else waits. */
  function Paired(q: Queue, p: int): seq<int> {
    if p <= 0 || p in q.members then [] else Popped(Joined(q, p), ROOM_SIZE).0
  }

  /** The line the request leaves behind. */
  function Lined(q: Queue, p: int): Queue {
    if p <= 0 || p in q.members then q else Popped(Joined(q, p), ROOM_SIZE).1
  }

  lemma PairedNoDup(q: Queue, p: int)
    requires QueueOk(q)
    ensures NoDup(Paired(q, p))
  {
    if p > 0 && p !in q.members {
      JoinOk(q, p);
      PopOk(Joined(q, p), ROOM_SIZE);
    }
  }

  lemma PairOf(q: Queue, p: int)
    requires QueueOk(q) && |q.waiting| < ROOM_SIZE && p !in q.waiting
    ensures var (players, rest) := Popped(Joined(q, p), ROOM_SIZE);
      && players == (if q.waiting == [] then [] else [q.waiting[0], p])
      && rest.waiting == if q.waiting == [] then [p] else []
  {
    var joined := Joined(q, p);
    if q.waiting != [] {
      assert joined.waiting == [q.waiting[0], p];
      assert joined.waiting[..ROOM_SIZE] == [q.waiting[0], p] && joined.waiting[ROOM_SIZE..] == [];
    }
  }

  lemma PairedIff(q: Queue, p: int)
    requires QueueOk(q) && |q.waiting| < ROOM_SIZE
    ensures Paired(q, p) == if p > 0 && p !in q.waiting && q.waiting != [] then [q.waiting[0], p] else []
  {
    if p !in q.waiting {
      PairOf(q, p);
    }
  }

  lemma RoomForEffect(sv: Server, players: seq<int>)
    requires RoomFor(sv, players).Ok?
    ensures var after := RoomFor(sv, players).value;
      && after == sv.(rooms := after.rooms, repo := after.repo, sessions := after.sessions)
      && after.rooms == Opened(sv.rooms, players)
      && after.repo == AssignRoom(sv.repo, players, sv.rooms.nextRoomId)
  {
    hide Notified, Opened, AssignRoom, Served;
    return;
  }

  lemma MatchEffect(sv: Server, s: Sid, p: int)
    requires Match(sv, s, p).Ok?
    ensures var after, pair := Match(sv, s, p).value, Paired(sv.queue, p);
      && after == sv.(queue := after.queue, rooms := after.rooms, repo := after.repo, sessions := after.sessions)
      && after.rooms == (if pair == [] then sv.rooms else Opened(sv.rooms, pair))
      && after.repo == (if pair == [] then sv.repo else AssignRoom(sv.repo, pair, sv.rooms.nextRoomId))
      && after.queue == Lined(sv.queue, p)
  {
    hide RoomFor, Popped, Joined, Opened, AssignRoom, SendTo;
    if p <= 0 || p in sv.queue.members {
      return;
    }
    var (pair, queue) := Popped(Joined(sv.queue, p), ROOM_SIZE);
    if pair != [] {
      RoomForEffect(Answer(sv.(queue := queue), s, MatchSuccess), pair);
    }
    return;
  }

  lemma ReconnectEffect(sv: Server, s: Sid, p: int, token: string)
    requires s in sv.sessions && Reconnect(sv, s, p, token).Ok?
    ensures var after := Reconnect(sv, s, p, token).value;
      var back := p in sv.states && sv.states[p].token == token && sv.states[p].conn == Offline;
      && after == sv.(players := after.players, conns := after.conns, rooms := after.rooms, states := after.states,
                      sessions := after.sessions)
      && (back ==> MarkedIn(sv.rooms, p, Online).Ok?)
      && after.rooms == (if back then MarkedIn(sv.rooms, p, Online).value else sv.rooms)
      && after.states == (if back then MarkedOnline(sv.states, p) else sv.states)
      && after.players == (if back then sv.players[p := s] else sv.players)
      && after.conns == (if back then sv.conns + {s} else sv.conns)
  {
    hide MarkedIn, MarkedOnline, SendTo;
    return;
  }

  lemma LoginEffect(sv: Server, s: Sid, username: string, wallMs: int)
    requires s in sv.sessions
    ensures var after, p := Login(sv, s, username, wallMs), sv.nextPlayerId;
      && after == sv.(players := after.players, conns := after.conns, repo := after.repo,
                      nextPlayerId := after.nextPlayerId, sessions := after.sessions)
      && after.players == (if username == "" then sv.players else sv.players[p := s])
      && after.conns == (if username == "" then sv.conns else sv.conns + {s})
      && after.nextPlayerId == (if username == "" then p else p + 1)
      && after.repo == if username == "" then sv.repo
                       else sv.repo[p := PlayerState(p, username, 0, true, -1, wallMs, 0)]
  {
    hide SendTo, Token;
    return;
  }

  lemma ChatEffect(sv: Server, s: Sid, r: int, text: string)
    requires s in sv.sessions && Chat(sv, s, r, text).Ok?
    ensures var after := Chat(sv, s, r, text).value;
      after == sv.(repo := AddScore(sv.repo, sv.sessions[s].playerId, 1), sessions := after.sessions)
  {
    hide Notified, AddScore, Served;
    return;
  }

  /** The whole of it: who can touch queue, rooms, states, player map and repository, and that the protocol
      and the destroyed sessions never change. */
  lemma HandleEffect(sv: Server, s: Sid, message: Message, choice: Choice, now: int)
    requires s in sv.sessions && Handle(sv, s, message, choice, now).Ok?
    ensures var after, request := Handle(sv, s, message, choice, now).value, sv.proto.Request(message);
      && after.proto == sv.proto && after.gone == sv.gone && sv.conns <= after.conns
      && (request.MatchReq? ==>
            var pair := Paired(sv.queue, request.playerId);
            && after.rooms == (if pair == [] then sv.rooms else Opened(sv.rooms, pair))
            && after.repo == (if pair == [] then sv.repo else AssignRoom(sv.repo, pair, sv.rooms.nextRoomId))
            && after.queue == Lined(sv.queue, request.playerId))
      && (!request.MatchReq? ==> after.queue == sv.queue)
      && (request.ReconnectReq? ==>
            var p := request.playerId;
            var back := p in sv.states && sv.states[p].token == request.token && sv.states[p].conn == Offline;
            && (back ==> MarkedIn(sv.rooms, p, Online).Ok?)
            && after.rooms == (if back then MarkedIn(sv.rooms, p, Online).value else sv.rooms)
            && after.states == (if back then MarkedOnline(sv.states, p) else sv.states)
            && after.players == (if back then sv.players[p := s] else sv.players)
            && after.conns == if back then sv.conns + {s} else sv.conns)
      && (!request.ReconnectReq? ==> after.states == sv.states)
      && (request.LoginReq? ==>
            var p := sv.nextPlayerId;
            && after.players == (if request.username == "" then sv.players else sv.players[p := s])
            && after.conns == (if request.username == "" then sv.conns else sv.conns + {s})
            && after.nextPlayerId == (if request.username == "" then p else p + 1)
            && after.repo == if request.username == "" then sv.repo
                             else sv.repo[p := PlayerState(p, request.username, 0, true, -1, choice.wallMs, 0)])
      && (!request.LoginReq? ==> after.nextPlayerId == sv.nextPlayerId)
      && (request.ChatReq? ==> after.repo == AddScore(sv.repo, sv.sessions[s].playerId, 1))
      && (!request.LoginReq? && !request.ReconnectReq? ==> after.players == sv.players && after.conns == sv.conns)
      && (!request.MatchReq? && !request.ReconnectReq? ==> after.rooms == sv.rooms)
      && (!request.MatchReq? && !request.LoginReq? && !request.ChatReq? ==> after.repo == sv.repo)
  {
    hide Match, Reconnect, Login, Chat, MarkedIn, MarkedOnline, Paired, Lined, Opened, AssignRoom, AddScore, SendTo;
    var active, request := Touched(sv, s, now), sv.proto.Request(message);
    if request.MatchReq? {
      MatchEffect(active, s, request.playerId);
    } else if request.ReconnectReq? {
      ReconnectEffect(active, s, request.playerId, request.token);
    } else if request.LoginReq? {
      LoginEffect(active, s, request.username, choice.wallMs);
    } else if request.ChatReq? {
      ChatEffect(active, s, request.roomId, request.text);
    }
    return;
  }
}
