/** The whole server as a value, and what every handler, callback and timer does to it. */
module ServerModel {
  import opened Prelude
  import opened MessageCodec
  import opened Protocol
  import opened MatchQueues
  import opened PlayerStates
  import opened Repository
  import opened Sessions
  import opened Rooms
  import opened Ranking

  const FIRST_PLAYER_ID: int := 10000
  const ROOM_SIZE: nat := 2
  const HEARTBEAT_TIMEOUT: nat := 15
  const RECONNECT_TIMEOUT: nat := 30

  datatype Server = Server(
    proto: Proto,
    queue: Queue,
    rooms: RoomTable,
    players: map<int, Sid>,
    conns: set<Sid>,
    states: States,
    repo: Repo,
    nextPlayerId: int,
    sessions: map<Sid, SessionView>,
    gone: set<Sid>)

  function EmptyServer(proto: Proto): Server {
    Server(proto, Queue([], {}), RoomTable(map[], map[], 1), map[], {}, map[], map[], FIRST_PLAYER_ID, map[], {})
  }

  /** What the environment decides while a message is handled: the wall clock, and the order in which
      sorting leaves players of equal score. */
  datatype Choice = Choice(wallMs: int, top: seq<RankItem>)

  /** What the environment may decide: a ranking is some right ranking. */
  ghost predicate Allowed(sv: Server, message: Message, choice: Choice) {
    sv.proto.Request(message).RankingReq? ==> IsTopN(sv.repo, sv.proto.Request(message).topN, choice.top)
  }

  function Answer(sv: Server, s: Sid, reply: Reply): Server {
    sv.(sessions := SendTo(sv.sessions, s, sv.proto.Encode(reply)))
  }

  /** The player map holds weak pointers: it leads to a session only while the object exists. */
  function Served(players: map<int, Sid>, gone: set<Sid>): map<int, Sid> {
    map p | p in players && players[p] !in gone :: players[p]
  }

  function Accepted(sv: Server, s: Sid, now: int): Server {
    sv.(sessions := sv.sessions[s := SessionView(true, 0, "", now, [])])
  }

  function Touched(sv: Server, s: Sid, now: int): Server
    requires s in sv.sessions
  {
    sv.(sessions := sv.sessions[s := sv.sessions[s].(lastActive := now)])
  }

  /** The session after its message has been noted and answered. */
  function Heard(sv: Server, s: Sid, now: int, reply: Reply): SessionView
    requires s in sv.sessions
  {
    sv.sessions[s].(lastActive := now, sent := sv.sessions[s].sent + [sv.proto.Encode(reply)])
  }

  function Bound(sv: Server, s: Sid, p: int, token: string): Server
    requires s in sv.sessions
  {
    sv.(sessions := sv.sessions[s := sv.sessions[s].(playerId := p, token := token)],
        players := sv.players[p := s],
        conns := sv.conns + {s})
  }

  // ---- Services ----

  function DigitsOf(n: nat): string {
    if n < 10 then [('0' as int + n) as char] else DigitsOf(n / 10) + [('0' as int + n % 10) as char]
  }

  /** `std::to_string`. */
  function Decimal(n: int): string {
    if n < 0 then "-" + DigitsOf(-n) else DigitsOf(n)
  }

  function Token(p: int): string {
    "token_" + Decimal(p)
  }

  function Login(sv: Server, s: Sid, username: string, wallMs: int): Server
    requires s in sv.sessions
  {
    if username == "" then Answer(sv, s, LoginFailed)
    else
      var p := sv.nextPlayerId;
      var bound := Bound(sv.(nextPlayerId := p + 1), s, p, Token(p));
      Answer(bound.(repo := sv.repo[p := PlayerState(p, username, 0, true, -1, wallMs, 0)]),
             s, LoginSuccess(p, Token(p)))
  }

  /** The new room is notified before the repository learns of it; an absent member throws. */
  function RoomFor(sv: Server, players: seq<int>): Outcome<Server> {
    var r := sv.rooms.nextRoomId;
    match Notified(Served(sv.players, sv.gone), sv.sessions, players, sv.proto.Encode(RoomCreated(r, players)))
    case Fault => Fault
    case Ok(sessions) =>
      Ok(sv.(rooms := Opened(sv.rooms, players), sessions := sessions, repo := AssignRoom(sv.repo, players, r)))
  }

  function Match(sv: Server, s: Sid, p: int): Outcome<Server> {
    if p <= 0 then Ok(Answer(sv, s, MatchFailed("player_id must be non-negative")))
    else if p in sv.queue.members then Ok(Answer(sv, s, MatchFailed("player_id already in match_queue")))
    else
      var (players, queue) := Popped(Joined(sv.queue, p), ROOM_SIZE);
      var queued := Answer(sv.(queue := queue), s, MatchSuccess);
      if players == [] then Ok(queued) else RoomFor(queued, players)
  }

  /** The score is added first; then the named room, which need not be the sender's, hears the text. */
  function Chat(sv: Server, s: Sid, r: int, text: string): Outcome<Server>
    requires s in sv.sessions
  {
    var p := sv.sessions[s].playerId;
    if r !in sv.rooms.rooms then Fault
    else
      match Notified(Served(sv.players, sv.gone), sv.sessions, sv.rooms.rooms[r].playerIds,
                     sv.proto.Encode(ChatNotify(r, p, text)))
      case Fault => Fault
      case Ok(sessions) => Ok(sv.(repo := AddScore(sv.repo, p, 1), sessions := sessions))
  }

  function WholeMillis(nanos: int): int {
    if nanos >= 0 then nanos / 1_000_000 else -((-nanos) / 1_000_000)
  }

  function Heartbeat(sv: Server, s: Sid, clientTimeMs: int, now: int): Server
    requires s in sv.sessions
  {
    Answer(Touched(sv, s, now), s, HeartbeatResp(clientTimeMs, WholeMillis(now)))
  }

  function Reconnect(sv: Server, s: Sid, p: int, token: string): Outcome<Server>
    requires s in sv.sessions
  {
    var mine := sv.sessions[s].playerId;
    if p !in sv.states then Ok(Answer(sv, s, ReconnectFailed(mine, "player state not found")))
    else if sv.states[p].token != token then Ok(Answer(sv, s, ReconnectFailed(mine, "token is not match")))
    else if sv.states[p].conn != Offline then
      Ok(Answer(sv, s, ReconnectFailed(mine, "connection state is not offline")))
    else
      match MarkedIn(sv.rooms, p, Online)
      case Fault => Fault
      case Ok(rooms) =>
        var back := Bound(sv, s, p, token).(rooms := rooms, states := MarkedOnline(sv.states, p));
        Ok(Answer(back, s, ReconnectSuccess(p, sv.states[p].roomId)))
  }

  /** The dispatcher: the handler registered for the message, or nothing. */
  function Routed(sv: Server, s: Sid, message: Message, choice: Choice, now: int): Outcome<Server>
    requires s in sv.sessions
  {
    match sv.proto.Request(message)
    case LoginReq(username) => Ok(Login(sv, s, username, choice.wallMs))
    case MatchReq(p) => Match(sv, s, p)
    case ChatReq(r, text) => Chat(sv, s, r, text)
    case HeartbeatReq(clientTimeMs) => Ok(Heartbeat(sv, s, clientTimeMs, now))
    case ReconnectReq(p, token) => Reconnect(sv, s, p, token)
    case RankingReq(_) => Ok(Answer(sv, s, RankingResp(choice.top)))
    case Unregistered => Ok(sv)
  }

  /** One decoded message on session `s`; a handler that throws is a `Fault`. */
  function Handle(sv: Server, s: Sid, message: Message, choice: Choice, now: int): Outcome<Server>
    requires s in sv.sessions
  {
    Routed(Touched(sv, s, now), s, message, choice, now)
  }

  /** The last reference to a closed session has been dropped. */
  function Destroyed(sv: Server, s: Sid): Server {
    sv.(gone := sv.gone + {s})
  }

  // ---- Closing and the timers ----

  /** The close callback, run on a session that has just been marked closed. */
  function Disconnected(sv: Server, s: Sid, now: int): Outcome<Server>
    requires s in sv.sessions
  {
    var p := sv.sessions[s].playerId;
    var saved := SavedOnline(sv.states, p, RoomIdOf(sv.rooms, p), sv.sessions[s].token);
    match MarkedIn(sv.rooms, p, Offline)
    case Fault => Fault
    case Ok(rooms) =>
      Ok(sv.(queue := Departed(sv.queue, p),
             players := sv.players - {p},
             conns := sv.conns - {s},
             states := MarkedDisconnected(saved, p, now),
             rooms := rooms))
  }

  function Closed(sv: Server, s: Sid, now: int): Outcome<Server> {
    if s !in sv.sessions || !sv.sessions[s].open then Ok(sv)
    else Disconnected(sv.(sessions := sv.sessions[s := sv.sessions[s].(open := false)]), s, now)
  }

  function ClosedAll(sv: Server, order: seq<Sid>, now: int): Outcome<Server> {
    if order == [] then Ok(sv)
    else
      var n := |order| - 1;
      match ClosedAll(sv, order[..n], now)
      case Fault => Fault
      case Ok(before) => Closed(before, order[n], now)
  }

  lemma OneIsAll(sv: Server, s: Sid, now: int)
    ensures ClosedAll(sv, [s], now) == Closed(sv, s, now)
  {
    assert [s][..0] == [];
  }

  lemma {:induction false} ClosedAllStops(sv: Server, order: seq<Sid>, i: nat, now: int)
    requires i <= |order| && ClosedAll(sv, order[..i], now).Fault?
    ensures ClosedAll(sv, order, now).Fault?
  {
    if i < |order| {
      assert order[..|order| - 1][..i] == order[..i];
      ClosedAllStops(sv, order[..|order| - 1], i, now);
    } else {
      assert order[..i] == order;
    }
  }

  /** The registered sessions that have been silent for more than the heartbeat timeout. */
  ghost function Stale(sv: Server, now: int): set<Sid> {
    set s | s in sv.conns && s in sv.sessions
         && now - sv.sessions[s].lastActive >= (HEARTBEAT_TIMEOUT + 1) * NANOS_PER_SECOND
  }

  lemma StaleMeans(sv: Server, now: int)
    ensures forall s :: s in Stale(sv, now)
              <==> s in sv.conns && s in sv.sessions && now - sv.sessions[s].lastActive >= 16_000_000_000
  {
  }

  lemma ExpiredMeans(states: States, now: int)
    ensures forall p :: p in Expired(states, now, RECONNECT_TIMEOUT)
              <==> p in states && states[p].conn == Offline && now - states[p].disconnectedAt >= 31_000_000_000
  {
  }

  function Forgotten(sv: Server, order: seq<int>): Outcome<Server> {
    if order == [] then Ok(sv)
    else
      var n := |order| - 1;
      match Forgotten(sv, order[..n])
      case Fault => Fault
      case Ok(before) =>
        match Removed(before.rooms, order[n])
        case Fault => Fault
        case Ok(rooms) => Ok(before.(rooms := rooms, states := before.states - {order[n]}))
  }

  lemma {:induction false} ForgottenStops(sv: Server, order: seq<int>, i: nat)
    requires i <= |order| && Forgotten(sv, order[..i]).Fault?
    ensures Forgotten(sv, order).Fault?
  {
    if i < |order| {
      assert order[..|order| - 1][..i] == order[..i];
      ForgottenStops(sv, order[..|order| - 1], i);
    } else {
      assert order[..i] == order;
    }
  }

  // ---- Sessions under the handlers ----

  lemma AnswerHeard(sv: Server, s: Sid, now: int, reply: Reply)
    requires s in sv.sessions
    ensures Answer(Touched(sv, s, now), s, reply) == sv.(sessions := sv.sessions[s := Heard(sv, s, now, reply)])
  {
  }

  // ---- The parse loop, one message after another ----

  function HandleAll(sv: Server, s: Sid, messages: seq<Message>, choices: seq<Choice>, now: int): Outcome<Server>
    requires s in sv.sessions && |choices| == |messages|
    ensures HandleAll(sv, s, messages, choices, now).Ok? ==>
              && s in HandleAll(sv, s, messages, choices, now).value.sessions
              && HandleAll(sv, s, messages, choices, now).value.gone == sv.gone
  {
    if messages == [] then Ok(sv)
    else
      var n := |messages| - 1;
      match HandleAll(sv, s, messages[..n], choices[..n], now)
      case Fault => Fault
      case Ok(before) =>
        HandleKeepsSessions(before, s, messages[n], choices[n], now);
        Handle(before, s, messages[n], choices[n], now)
  }

  lemma {:induction false} NotifiedKeepsSessions(
    players: map<int, Sid>, sessions: map<Sid, SessionView>, to: seq<int>, m: Message)
    ensures Notified(players, sessions, to, m).Ok? ==>
              SameBindings(sessions, Notified(players, sessions, to, m).value)
    ensures Notified(players, sessions, to, m).Ok? <==> forall p :: p in to ==> p in players
  {
    if to != [] {
      var n := |to| - 1;
      assert forall p :: p in to <==> p in to[..n] || p == to[n];
      NotifiedKeepsSessions(players, sessions, to[..n], m);
    }
  }

  /** The same sessions, equally open: a message closes nothing. */
  ghost predicate SameOpen(a: map<Sid, SessionView>, b: map<Sid, SessionView>) {
    a.Keys == b.Keys && forall s :: s in a ==> a[s].open == b[s].open
  }

  /** The same sessions, equally open and bound; only their activity and their mail may differ. */
  ghost predicate SameBindings(a: map<Sid, SessionView>, b: map<Sid, SessionView>) {
    && a.Keys == b.Keys
    && forall s :: s in a ==> a[s].open == b[s].open && a[s].playerId == b[s].playerId && a[s].token == b[s].token
  }

  lemma SameOpenChain(a: map<Sid, SessionView>, b: map<Sid, SessionView>, c: map<Sid, SessionView>)
    requires SameOpen(a, b) && SameOpen(b, c)
    ensures SameOpen(a, c)
  {
  }

  lemma AnswerKeepsSessions(sv: Server, s: Sid, reply: Reply)
    ensures SameOpen(sv.sessions, Answer(sv, s, reply).sessions)
  {
  }

  lemma BoundKeepsSessions(sv: Server, s: Sid, p: int, token: string)
    requires s in sv.sessions
    ensures SameOpen(sv.sessions, Bound(sv, s, p, token).sessions)
  {
  }

  lemma TouchedKeepsSessions(sv: Server, s: Sid, now: int)
    requires s in sv.sessions
    ensures SameOpen(sv.sessions, Touched(sv, s, now).sessions)
  {
  }

  lemma MatchKeepsSessions(sv: Server, s: Sid, p: int)
    ensures Match(sv, s, p).Ok? ==>
              SameOpen(sv.sessions, Match(sv, s, p).value.sessions) && Match(sv, s, p).value.gone == sv.gone
  {
    hide Popped, Joined, Notified, AssignRoom, Opened;
    if p <= 0 || p in sv.queue.members {
      return;
    }
    var (players, queue) := Popped(Joined(sv.queue, p), ROOM_SIZE);
    var queued := Answer(sv.(queue := queue), s, MatchSuccess);
    NotifiedKeepsSessions(Served(sv.players, sv.gone), queued.sessions, players,
                          sv.proto.Encode(RoomCreated(sv.rooms.nextRoomId, players)));
    return;
  }

  lemma ChatKeepsSessions(sv: Server, s: Sid, r: int, text: string)
    requires s in sv.sessions
    ensures Chat(sv, s, r, text).Ok? ==>
              && SameOpen(sv.sessions, Chat(sv, s, r, text).value.sessions)
              && Chat(sv, s, r, text).value.gone == sv.gone
  {
    hide Notified, AddScore;
    if r in sv.rooms.rooms {
      NotifiedKeepsSessions(Served(sv.players, sv.gone), sv.sessions, sv.rooms.rooms[r].playerIds,
                            sv.proto.Encode(ChatNotify(r, sv.sessions[s].playerId, text)));
    }
  }

  lemma LoginKeepsSessions(sv: Server, s: Sid, username: string, wallMs: int)
    requires s in sv.sessions
    ensures SameOpen(sv.sessions, Login(sv, s, username, wallMs).sessions)
    ensures Login(sv, s, username, wallMs).gone == sv.gone
  {
    hide SameOpen, SendTo, Token;
    AnswerKeepsSessions(sv, s, LoginFailed);
    var p := sv.nextPlayerId;
    var bound := Bound(sv.(nextPlayerId := p + 1), s, p, Token(p));
    BoundKeepsSessions(sv.(nextPlayerId := p + 1), s, p, Token(p));
    AnswerKeepsSessions(bound, s, LoginSuccess(p, Token(p)));
    SameOpenChain(sv.sessions, bound.sessions, Answer(bound, s, LoginSuccess(p, Token(p))).sessions);
    return;
  }

  lemma ReconnectKeepsSessions(sv: Server, s: Sid, p: int, token: string)
    requires s in sv.sessions
    ensures Reconnect(sv, s, p, token).Ok? ==>
              && SameOpen(sv.sessions, Reconnect(sv, s, p, token).value.sessions)
              && Reconnect(sv, s, p, token).value.gone == sv.gone
  {
    hide SameOpen, SendTo, MarkedIn, MarkedOnline;
    var mine := sv.sessions[s].playerId;
    AnswerKeepsSessions(sv, s, ReconnectFailed(mine, "player state not found"));
    AnswerKeepsSessions(sv, s, ReconnectFailed(mine, "token is not match"));
    AnswerKeepsSessions(sv, s, ReconnectFailed(mine, "connection state is not offline"));
    if p in sv.states {
      var bound, reply := Bound(sv, s, p, token), ReconnectSuccess(p, sv.states[p].roomId);
      BoundKeepsSessions(sv, s, p, token);
      AnswerKeepsSessions(bound, s, reply);
      SameOpenChain(sv.sessions, bound.sessions, Answer(bound, s, reply).sessions);
    }
    return;
  }

  lemma HandleKeepsSessions(sv: Server, s: Sid, message: Message, choice: Choice, now: int)
    requires s in sv.sessions
    ensures Handle(sv, s, message, choice, now).Ok? ==>
              && SameOpen(sv.sessions, Handle(sv, s, message, choice, now).value.sessions)
              && Handle(sv, s, message, choice, now).value.gone == sv.gone
  {
    TouchedKeepsSessions(sv, s, now);
    var mid := Touched(sv, s, now);
    RoutedKeepsSessions(mid, s, message, choice, now);
    if Routed(mid, s, message, choice, now).Ok? {
      hide SameOpen, Routed;
      SameOpenChain(sv.sessions, mid.sessions, Routed(mid, s, message, choice, now).value.sessions);
      return;
    }
  }

  lemma RoutedKeepsSessions(sv: Server, s: Sid, message: Message, choice: Choice, now: int)
    requires s in sv.sessions
    ensures Routed(sv, s, message, choice, now).Ok? ==>
              && SameOpen(sv.sessions, Routed(sv, s, message, choice, now).value.sessions)
              && Routed(sv, s, message, choice, now).value.gone == sv.gone
  {
    hide SameOpen, Match, Chat, Login, Reconnect, SendTo;
    var request := sv.proto.Request(message);
    if request.MatchReq? {
      MatchKeepsSessions(sv, s, request.playerId);
    } else if request.ChatReq? {
      ChatKeepsSessions(sv, s, request.roomId, request.text);
    } else if request.LoginReq? {
      LoginKeepsSessions(sv, s, request.username, choice.wallMs);
    } else if request.ReconnectReq? {
      ReconnectKeepsSessions(sv, s, request.playerId, request.token);
    } else if request.HeartbeatReq? {
      var mid, reply := Touched(sv, s, now), HeartbeatResp(request.clientTimeMs, WholeMillis(now));
      TouchedKeepsSessions(sv, s, now);
      AnswerKeepsSessions(mid, s, reply);
      SameOpenChain(sv.sessions, mid.sessions, Answer(mid, s, reply).sessions);
    } else if request.RankingReq? {
      AnswerKeepsSessions(sv, s, RankingResp(choice.top));
    } else {
      SameAsItself(sv.sessions);
    }
    return;
  }

  lemma SameAsItself(sessions: map<Sid, SessionView>)
    ensures SameOpen(sessions, sessions)
  {
  }
}
