/** The server does not depend on how a client's bytes are cut into reads, nor on when the reads happen. */
module ReadTimes {
  import opened Prelude
  import opened MessageCodec
  import opened Protocol
  import opened Framing
  import opened MatchQueues
  import opened PlayerStates
  import opened Repository
  import opened Sessions
  import opened Rooms
  import opened ServerModel
  import opened ServerStreams

  /** Equal up to the server time in an answer to a heartbeat. */
  ghost predicate SameAnswer(proto: Proto, a: Message, b: Message) {
    a == b || exists c, t, u :: a == proto.Encode(HeartbeatResp(c, t)) && b == proto.Encode(HeartbeatResp(c, u))
  }

  ghost predicate SameMail(proto: Proto, a: seq<Message>, b: seq<Message>) {
    |a| == |b| && forall i :: 0 <= i < |a| ==> SameAnswer(proto, a[i], b[i])
  }

  /** Equal but for when session `s` was last heard from and the times it has been told. */
  ghost predicate Alike(proto: Proto, a: map<Sid, SessionView>, b: map<Sid, SessionView>, s: Sid) {
    && s in a && a.Keys == b.Keys
    && (forall t :: t in a && t != s ==> a[t] == b[t])
    && a[s] == b[s].(lastActive := a[s].lastActive, sent := a[s].sent)
    && SameMail(proto, a[s].sent, b[s].sent)
  }

  ghost predicate SameButClock(a: Server, b: Server, s: Sid) {
    a == b.(sessions := a.sessions) && Alike(b.proto, a.sessions, b.sessions, s)
  }

  /** Both end the process, or neither does and the servers differ in clock readings only. */
  ghost predicate SameOutcome(a: Outcome<Server>, b: Outcome<Server>, s: Sid) {
    match a
    case Fault => b.Fault?
    case Ok(sv) => b.Ok? && SameButClock(sv, b.value, s)
  }

  // ---- Mail ----

  lemma SendAlike(proto: Proto, a: map<Sid, SessionView>, b: map<Sid, SessionView>, s: Sid, t: Sid,
                  m: Message, n: Message)
    requires Alike(proto, a, b, s) && SameAnswer(proto, m, n) && (m == n || t == s)
    ensures Alike(proto, SendTo(a, t, m), SendTo(b, t, n), s)
  {
    hide SameAnswer;
  }

  lemma {:induction false} NotifiedAlike(
    proto: Proto, players: map<int, Sid>, a: map<Sid, SessionView>, b: map<Sid, SessionView>, s: Sid,
    to: seq<int>, m: Message)
    requires Alike(proto, a, b, s)
    ensures Notified(players, a, to, m).Fault? == Notified(players, b, to, m).Fault?
    ensures Notified(players, a, to, m).Ok? ==>
              Alike(proto, Notified(players, a, to, m).value, Notified(players, b, to, m).value, s)
  {
    hide Alike, SendTo;
    if to != [] {
      var n := |to| - 1;
      NotifiedAlike(proto, players, a, b, s, to[..n], m);
      if Notified(players, a, to[..n], m).Ok? && to[n] in players {
        SendAlike(proto, Notified(players, a, to[..n], m).value, Notified(players, b, to[..n], m).value, s,
                  players[to[n]], m, m);
      }
    }
  }

  lemma AnswerAlike(a: Server, b: Server, s: Sid, reply: Reply)
    requires SameButClock(a, b, s)
    ensures SameButClock(Answer(a, s, reply), Answer(b, s, reply), s)
  {
    hide Alike, SendTo;
    SendAlike(b.proto, a.sessions, b.sessions, s, s, b.proto.Encode(reply), b.proto.Encode(reply));
  }

  lemma TouchedAlike(a: Server, b: Server, s: Sid, m: int, n: int)
    requires SameButClock(a, b, s)
    ensures SameButClock(Touched(a, s, m), Touched(b, s, n), s)
  {
    hide SameMail;
  }

  lemma BoundAlike(a: Server, b: Server, s: Sid, p: int, token: string)
    requires SameButClock(a, b, s)
    ensures SameButClock(Bound(a, s, p, token), Bound(b, s, p, token), s)
  {
    hide SameMail;
  }

  // ---- Handlers ----

  lemma LoginAlike(a: Server, b: Server, s: Sid, username: string, wallMs: int)
    requires SameButClock(a, b, s)
    ensures SameButClock(Login(a, s, username, wallMs), Login(b, s, username, wallMs), s)
  {
    SamePlayer(a, b, s);
    hide Alike, Answer, Bound, Token;
    if username == "" {
      AnswerAlike(a, b, s, LoginFailed);
      return;
    }
    var p := b.nextPlayerId;
    var state := PlayerState(p, username, 0, true, -1, wallMs, 0);
    BoundAlike(a.(nextPlayerId := p + 1), b.(nextPlayerId := p + 1), s, p, Token(p));
    AnswerAlike(Bound(a.(nextPlayerId := p + 1), s, p, Token(p)).(repo := b.repo[p := state]),
                Bound(b.(nextPlayerId := p + 1), s, p, Token(p)).(repo := b.repo[p := state]),
                s, LoginSuccess(p, Token(p)));
    return;
  }

  lemma RoomForAlike(a: Server, b: Server, s: Sid, players: seq<int>)
    requires SameButClock(a, b, s)
    ensures SameOutcome(RoomFor(a, players), RoomFor(b, players), s)
  {
    hide Alike, Notified, Served, Opened, AssignRoom;
    NotifiedAlike(b.proto, Served(b.players, b.gone), a.sessions, b.sessions, s, players,
                  b.proto.Encode(RoomCreated(b.rooms.nextRoomId, players)));
    return;
  }

  lemma MatchAlike(a: Server, b: Server, s: Sid, p: int)
    requires SameButClock(a, b, s)
    ensures SameOutcome(Match(a, s, p), Match(b, s, p), s)
  {
    hide Alike, Answer, RoomFor, Popped, Joined;
    if p <= 0 {
      AnswerAlike(a, b, s, MatchFailed("player_id must be non-negative"));
    } else if p in b.queue.members {
      AnswerAlike(a, b, s, MatchFailed("player_id already in match_queue"));
    } else {
      var (players, queue) := Popped(Joined(b.queue, p), ROOM_SIZE);
      var u, v := a.(queue := queue), b.(queue := queue);
      AnswerAlike(u, v, s, MatchSuccess);
      if players != [] {
        RoomForAlike(Answer(u, s, MatchSuccess), Answer(v, s, MatchSuccess), s, players);
      }
    }
    return;
  }

  lemma ChatAlike(a: Server, b: Server, s: Sid, r: int, text: string)
    requires SameButClock(a, b, s)
    ensures SameOutcome(Chat(a, s, r, text), Chat(b, s, r, text), s)
  {
    SamePlayer(a, b, s);
    hide Alike, Notified, Served, AddScore;
    if r in b.rooms.rooms {
      NotifiedAlike(b.proto, Served(b.players, b.gone), a.sessions, b.sessions, s, b.rooms.rooms[r].playerIds,
                    b.proto.Encode(ChatNotify(r, b.sessions[s].playerId, text)));
    }
    return;
  }

  lemma SamePlayer(a: Server, b: Server, s: Sid)
    requires SameButClock(a, b, s)
    ensures s in a.sessions && s in b.sessions && a.sessions[s].playerId == b.sessions[s].playerId
  {
  }

  lemma HeartbeatAlike(a: Server, b: Server, s: Sid, clientTimeMs: int, m: int, n: int)
    requires SameButClock(a, b, s)
    ensures SameButClock(Heartbeat(a, s, clientTimeMs, m), Heartbeat(b, s, clientTimeMs, n), s)
  {
    SamePlayer(a, b, s);
    hide Alike, SendTo;
    TouchedAlike(a, b, s, m, n);
    var u, v := Touched(a, s, m), Touched(b, s, n);
    SendAlike(v.proto, u.sessions, v.sessions, s, s,
              v.proto.Encode(HeartbeatResp(clientTimeMs, WholeMillis(m))),
              v.proto.Encode(HeartbeatResp(clientTimeMs, WholeMillis(n))));
    return;
  }

  lemma ReconnectAlike(a: Server, b: Server, s: Sid, p: int, token: string)
    requires SameButClock(a, b, s)
    ensures SameOutcome(Reconnect(a, s, p, token), Reconnect(b, s, p, token), s)
  {
    SamePlayer(a, b, s);
    hide Alike, Answer, Bound, MarkedIn, MarkedOnline;
    var mine := b.sessions[s].playerId;
    if p !in b.states {
      AnswerAlike(a, b, s, ReconnectFailed(mine, "player state not found"));
    } else if b.states[p].token != token {
      AnswerAlike(a, b, s, ReconnectFailed(mine, "token is not match"));
    } else if b.states[p].conn != Offline {
      AnswerAlike(a, b, s, ReconnectFailed(mine, "connection state is not offline"));
    } else if MarkedIn(b.rooms, p, Online).Ok? {
      var rooms, states := MarkedIn(b.rooms, p, Online).value, MarkedOnline(b.states, p);
      BoundAlike(a, b, s, p, token);
      AnswerAlike(Bound(a, s, p, token).(rooms := rooms, states := states),
                  Bound(b, s, p, token).(rooms := rooms, states := states),
                  s, ReconnectSuccess(p, b.states[p].roomId));
    }
    return;
  }

  lemma HandleAlike(a: Server, b: Server, s: Sid, message: Message, choice: Choice, m: int, n: int)
    requires SameButClock(a, b, s)
    ensures s in a.sessions && s in b.sessions
    ensures SameOutcome(Handle(a, s, message, choice, m), Handle(b, s, message, choice, n), s)
  {
    SamePlayer(a, b, s);
    TouchedAlike(a, b, s, m, n);
    hide Alike, Login, Match, Chat, Reconnect, Heartbeat, Answer, Touched;
    var u, v, request := Touched(a, s, m), Touched(b, s, n), b.proto.Request(message);
    if request.LoginReq? {
      LoginAlike(u, v, s, request.username, choice.wallMs);
    } else if request.MatchReq? {
      MatchAlike(u, v, s, request.playerId);
    } else if request.ChatReq? {
      ChatAlike(u, v, s, request.roomId, request.text);
    } else if request.HeartbeatReq? {
      HeartbeatAlike(u, v, s, request.clientTimeMs, m, n);
    } else if request.ReconnectReq? {
      ReconnectAlike(u, v, s, request.playerId, request.token);
    } else if request.RankingReq? {
      AnswerAlike(u, v, s, RankingResp(choice.top));
    }
    return;
  }

  lemma {:induction false} HandleAllAlike(
    a: Server, b: Server, s: Sid, messages: seq<Message>, choices: seq<Choice>, m: int, n: int)
    requires SameButClock(a, b, s) && |choices| == |messages|
    ensures s in a.sessions && s in b.sessions
    ensures SameOutcome(HandleAll(a, s, messages, choices, m), HandleAll(b, s, messages, choices, n), s)
  {
    SamePlayer(a, b, s);
    hide Handle, SameButClock;
    if messages != [] {
      var k := |messages| - 1;
      HandleAllAlike(a, b, s, messages[..k], choices[..k], m, n);
      if HandleAll(a, s, messages[..k], choices[..k], m).Ok? {
        HandleAlike(HandleAll(a, s, messages[..k], choices[..k], m).value,
                    HandleAll(b, s, messages[..k], choices[..k], n).value, s, messages[k], choices[k], m, n);
      }
    }
    return;
  }

  // ---- Reads ----

  ghost predicate SameReading(a: Outcome<Reading>, b: Outcome<Server>, s: Sid, rest: Bytes) {
    match a
    case Fault => b.Fault?
    case Ok(reading) => b.Ok? && SameButClock(reading.server, b.value, s) && reading.rest == rest
  }

  lemma ItselfButClock(sv: Server, s: Sid)
    requires s in sv.sessions
    ensures SameButClock(sv, sv, s)
  {
  }

  /** The same for two servers that differ in clock readings to begin with. */
  lemma {:induction false} ReadsAlike(
    a: Server, b: Server, s: Sid, buffer: Bytes, chunks: seq<Bytes>, choices: seq<Choice>, times: seq<int>, now: int)
    requires SameButClock(a, b, s) && s in a.sessions && s in b.sessions && FrameEnd(buffer).None?
    requires |times| == |chunks| && |choices| == |Feed(buffer, chunks).messages|
    ensures |choices| == |Parse(buffer + Flatten(chunks)).messages|
    ensures SameReading(ReadAll(a, s, buffer, chunks, choices, times),
                        HandleAll(b, s, Parse(buffer + Flatten(chunks)).messages, choices, now),
                        s, Parse(buffer + Flatten(chunks)).rest)
    decreases |chunks|
  {
    hide SameButClock, HandleAll, FrameEnd, Parse;
    CuttingIsIrrelevant(buffer, chunks);
    var all := Parse(buffer + Flatten(chunks));
    if chunks == [] {
      assert all.messages == [] && choices == [];
      NothingToHandle(b, s, now);
    } else {
      var first := Parse(buffer + chunks[0]);
      var k := |first.messages|;
      ParseLosesNothing(buffer + chunks[0]);
      var later := Feed(first.rest, chunks[1..]).messages;
      assert all.messages == first.messages + later && choices == choices[..k] + choices[k..];
      HandleAllConcat(b, s, first.messages, later, choices[..k], choices[k..], now);
      CuttingIsIrrelevant(first.rest, chunks[1..]);
      HandleAllAlike(a, b, s, first.messages, choices[..k], times[0], now);
      if HandleAll(a, s, first.messages, choices[..k], times[0]).Ok? {
        ReadsAlike(HandleAll(a, s, first.messages, choices[..k], times[0]).value,
                   HandleAll(b, s, first.messages, choices[..k], now).value,
                   s, first.rest, chunks[1..], choices[k..], times[1..], now);
      }
    }
    return;
  }

  /** However a client's bytes are cut into reads, and whenever each read happens, the process ends in both
      cases or in neither, the bytes left over are the same, and so is the whole server, except for when that
      client was last heard from and the server times in the answers to its heartbeats. */
  lemma CuttingLeavesTheSameServer(
    sv: Server, s: Sid, buffer: Bytes, chunks: seq<Bytes>, choices: seq<Choice>, times: seq<int>, now: int)
    requires s in sv.sessions && FrameEnd(buffer).None?
    requires |times| == |chunks| && |choices| == |Feed(buffer, chunks).messages|
    ensures |choices| == |Parse(buffer + Flatten(chunks)).messages|
    ensures SameReading(ReadAll(sv, s, buffer, chunks, choices, times),
                        HandleAll(sv, s, Parse(buffer + Flatten(chunks)).messages, choices, now),
                        s, Parse(buffer + Flatten(chunks)).rest)
  {
    ItselfButClock(sv, s);
    ReadsAlike(sv, sv, s, buffer, chunks, choices, times, now);
  }

  /** Reads at one instant leave exactly the same server. */
  lemma {:induction false} CuttingAtOneInstant(
    sv: Server, s: Sid, buffer: Bytes, chunks: seq<Bytes>, choices: seq<Choice>, times: seq<int>, now: int)
    requires s in sv.sessions && FrameEnd(buffer).None?
    requires |times| == |chunks| && |choices| == |Feed(buffer, chunks).messages|
    requires forall i :: 0 <= i < |times| ==> times[i] == now
    ensures |choices| == |Parse(buffer + Flatten(chunks)).messages|
    ensures ReadAll(sv, s, buffer, chunks, choices, times)
         == match HandleAll(sv, s, Parse(buffer + Flatten(chunks)).messages, choices, now)
            case Fault => Fault
            case Ok(after) => Ok(Reading(after, Parse(buffer + Flatten(chunks)).rest))
    decreases |chunks|
  {
    hide HandleAll, FrameEnd, Parse;
    CuttingIsIrrelevant(buffer, chunks);
    var all := Parse(buffer + Flatten(chunks));
    if chunks == [] {
      assert all.messages == [] && choices == [];
      NothingToHandle(sv, s, now);
    } else {
      var first := Parse(buffer + chunks[0]);
      var k := |first.messages|;
      ParseLosesNothing(buffer + chunks[0]);
      var later := Feed(first.rest, chunks[1..]).messages;
      assert all.messages == first.messages + later && choices == choices[..k] + choices[k..];
      HandleAllConcat(sv, s, first.messages, later, choices[..k], choices[k..], now);
      CuttingIsIrrelevant(first.rest, chunks[1..]);
      match HandleAll(sv, s, first.messages, choices[..k], now)
      case Fault =>
      case Ok(next) => CuttingAtOneInstant(next, s, first.rest, chunks[1..], choices[k..], times[1..], now);
    }
  }
}
