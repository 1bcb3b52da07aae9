/** Ids and answers by number: which reply each request gets, whatever the clients do. */
module Answers {
  import opened Prelude
  import opened MessageCodec
  import opened Protocol
  import opened MatchQueues
  import opened PlayerStates
  import opened Repository
  import opened Sessions
  import opened Rooms
  import opened Ranking
  import opened ServerModel
  import opened Runs

  /** `ms` is `nanos` in whole milliseconds, cut toward zero. */
  ghost predicate InMillis(nanos: int, ms: int) {
    if nanos >= 0 then ms * 1_000_000 <= nanos < (ms + 1) * 1_000_000
    else (ms - 1) * 1_000_000 < nanos <= ms * 1_000_000
  }

  lemma MillisAreWhole(nanos: int)
    ensures InMillis(nanos, WholeMillis(nanos))
  {
  }

  /** A heartbeat is answered once, to its sender alone, with the client's time and the server's in milliseconds;
      nothing else happens. */
  lemma HeartbeatIsEchoed(w: World, s: Sid, message: Message, choice: Choice) returns (serverMs: int)
    requires Possible(w, Receive(s, message, choice)) && message.msgId == 9001
    ensures InMillis(w.now, serverMs)
    ensures var sv, session := w.server, w.server.sessions[s];
      var reply := HeartbeatResp(sv.proto.heartbeatTime(message.body), serverMs);
      Step(w, Receive(s, message, choice))
      == Ok(w.(server := sv.(sessions := sv.sessions[s := session.(
                 lastActive := w.now, sent := session.sent + [Message(9002, sv.proto.serialize(reply))])])))
  {
    hide Proto.Request, WholeMillis, InMillis;
    HandlersByNumber(w.server.proto, message);
    serverMs := WholeMillis(w.now);
    MillisAreWhole(w.now);
    var sv, reply := w.server, HeartbeatResp(w.server.proto.heartbeatTime(message.body), serverMs);
    assert Touched(Touched(sv, s, w.now), s, w.now) == Touched(sv, s, w.now);
    AnswerHeard(sv, s, w.now, reply);
    return;
  }

  /** A ranking request is answered once, to its sender alone, with a right ranking of the repository as it is;
      nothing else happens. */
  lemma RankingIsAnswered(w: World, s: Sid, message: Message, choice: Choice) returns (items: seq<RankItem>)
    requires Possible(w, Receive(s, message, choice)) && message.msgId == 5001
    ensures IsTopN(w.server.repo, w.server.proto.rankingTop(message.body), items)
    ensures var sv, session := w.server, w.server.sessions[s];
      Step(w, Receive(s, message, choice))
      == Ok(w.(server := sv.(sessions := sv.sessions[s := session.(
                 lastActive := w.now,
                 sent := session.sent + [Message(5002, sv.proto.serialize(RankingResp(items)))])])))
  {
    hide Proto.Request, IsTopN;
    HandlersByNumber(w.server.proto, message);
    items := choice.top;
    AnswerHeard(w.server, s, w.now, RankingResp(items));
    return;
  }

  /** A message with any other id only shows that its sender is there. */
  lemma OtherIdsDoNothing(w: World, s: Sid, message: Message, choice: Choice)
    requires Possible(w, Receive(s, message, choice))
    requires message.msgId !in {1001, 2001, 4001, 5001, 9001, 9101}
    ensures Step(w, Receive(s, message, choice))
         == Ok(w.(server := w.server.(sessions := w.server.sessions[s := w.server.sessions[s].(lastActive := w.now)])))
  {
    hide Proto.Request;
    HandlersByNumber(w.server.proto, message);
    return;
  }

  // ---- Every answer, under the next id ----

  lemma {:induction false} NotifiedAppends(
    players: map<int, Sid>, sessions: map<Sid, SessionView>, to: seq<int>, m: Message, s: Sid)
    requires s in sessions && Notified(players, sessions, to, m).Ok?
    ensures s in Notified(players, sessions, to, m).value
    ensures sessions[s].sent <= Notified(players, sessions, to, m).value[s].sent
  {
    if to != [] {
      NotifiedAppends(players, sessions, to[..|to| - 1], m, s);
    }
  }

  /** What a match request is told, by the line it meets. */
  function MatchReply(sv: Server, p: int): Reply {
    if p <= 0 then MatchFailed("player_id must be non-negative")
    else if p in sv.queue.members then MatchFailed("player_id already in match_queue")
    else MatchSuccess
  }

  lemma MatchAnswers(sv: Server, s: Sid, p: int)
    requires s in sv.sessions
    ensures Match(sv, s, p).Ok? ==>
              var after := Match(sv, s, p).value;
              && s in after.sessions
              && sv.sessions[s].sent + [Message(2002, sv.proto.serialize(MatchReply(sv, p)))] <= after.sessions[s].sent
  {
    hide Popped, Joined, Notified, Opened, AssignRoom, Served;
    MatchKeepsSessions(sv, s, p);
    if p > 0 && p !in sv.queue.members && Match(sv, s, p).Ok? {
      var (players, queue) := Popped(Joined(sv.queue, p), ROOM_SIZE);
      var told := Answer(sv.(queue := queue), s, MatchSuccess);
      assert told.sessions[s].sent == sv.sessions[s].sent + [sv.proto.Encode(MatchSuccess)];
      if players != [] {
        NotifiedAppends(Served(sv.players, sv.gone), told.sessions, players,
                        sv.proto.Encode(RoomCreated(sv.rooms.nextRoomId, players)), s);
      }
    }
    return;
  }

  lemma ReconnectAnswers(sv: Server, s: Sid, p: int, token: string) returns (reply: Reply)
    requires s in sv.sessions && Reconnect(sv, s, p, token).Ok? && s in Reconnect(sv, s, p, token).value.sessions
    ensures reply.ReconnectSuccess? || reply.ReconnectFailed?
    ensures sv.sessions[s].sent + [sv.proto.Encode(reply)] <= Reconnect(sv, s, p, token).value.sessions[s].sent
  {
    hide MarkedIn, MarkedOnline, Proto.Encode;
    var mine := sv.sessions[s].playerId;
    reply := if p !in sv.states then ReconnectFailed(mine, "player state not found")
             else if sv.states[p].token != token then ReconnectFailed(mine, "token is not match")
             else if sv.states[p].conn != Offline then ReconnectFailed(mine, "connection state is not offline")
             else ReconnectSuccess(p, sv.states[p].roomId);
    return;
  }

  lemma LoginAnswers(sv: Server, s: Sid, name: string, wallMs: int) returns (reply: Reply)
    requires s in sv.sessions
    ensures reply == if name == "" then LoginFailed else LoginSuccess(sv.nextPlayerId, Token(sv.nextPlayerId))
    ensures s in Login(sv, s, name, wallMs).sessions
    ensures Login(sv, s, name, wallMs).sessions[s].sent == sv.sessions[s].sent + [sv.proto.Encode(reply)]
  {
    hide Token, Proto.Encode;
    reply := if name == "" then LoginFailed else LoginSuccess(sv.nextPlayerId, Token(sv.nextPlayerId));
    return;
  }

  /** The reply is one for requests with this id. */
  ghost predicate RepliesTo(reply: Reply, id: int) {
    && (id == 1001 ==> reply.LoginSuccess? || reply.LoginFailed?)
    && (id == 2001 ==> reply.MatchSuccess? || reply.MatchFailed?)
    && (id == 5001 ==> reply.RankingResp?)
    && (id == 9001 ==> reply.HeartbeatResp?)
    && (id == 9101 ==> reply.ReconnectSuccess? || reply.ReconnectFailed?)
  }

  /** The handler for a request answers first of all, under the next message id; for an unknown id there is none. */
  lemma RoutedAnswers(sv: Server, s: Sid, message: Message, choice: Choice, now: int) returns (reply: Reply)
    requires s in sv.sessions && Routed(sv, s, message, choice, now).Ok?
    ensures message.msgId !in {1001, 2001, 4001, 5001, 9001, 9101} ==> Routed(sv, s, message, choice, now) == Ok(sv)
    ensures var after := Routed(sv, s, message, choice, now).value;
      && s in after.sessions
      && (message.msgId in {1001, 2001, 5001, 9001, 9101} ==>
            && RepliesTo(reply, message.msgId)
            && sv.sessions[s].sent + [Message(message.msgId + 1, sv.proto.serialize(reply))] <= after.sessions[s].sent)
  {
    hide Proto.Request, Login, Match, Chat, Reconnect, WholeMillis;
    var body := message.body;
    HandlersByNumber(sv.proto, message);
    RoutedKeepsSessions(sv, s, message, choice, now);
    if message.msgId == 1001 {
      reply := LoginAnswers(sv, s, sv.proto.loginName(body), choice.wallMs);
    } else if message.msgId == 2001 {
      reply := MatchReply(sv, sv.proto.matchPlayer(body));
      MatchAnswers(sv, s, sv.proto.matchPlayer(body));
    } else if message.msgId == 9101 {
      reply := ReconnectAnswers(sv, s, sv.proto.reconnect(body).0, sv.proto.reconnect(body).1);
    } else if message.msgId == 9001 {
      reply := HeartbeatResp(sv.proto.heartbeatTime(body), WholeMillis(now));
    } else {
      reply := RankingResp(choice.top);
    }
    return;
  }

  /** Whoever sends it: a login, match, ranking, heartbeat or reconnect request that does not end the process is
      answered first of all, to the session it came from, under the next message id. */
  lemma EveryRequestIsAnswered(w: World, s: Sid, message: Message, choice: Choice) returns (reply: Reply)
    requires Possible(w, Receive(s, message, choice)) && Step(w, Receive(s, message, choice)).Ok?
    requires message.msgId in {1001, 2001, 5001, 9001, 9101}
    ensures RepliesTo(reply, message.msgId)
    ensures var after := Step(w, Receive(s, message, choice)).value.server;
      && s in after.sessions
      && w.server.sessions[s].sent + [Message(message.msgId + 1, w.server.proto.serialize(reply))]
         <= after.sessions[s].sent
  {
    hide Routed, IsTopN, RepliesTo;
    reply := RoutedAnswers(Touched(w.server, s, w.now), s, message, choice, w.now);
    return;
  }
}
