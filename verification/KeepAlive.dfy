/** A connection that keeps talking is never taken down by the heartbeat sweep. */
module KeepAlive {
  import opened Prelude
  import opened MessageCodec
  import opened Protocol
  import opened MatchQueues
  import opened PlayerStates
  import opened Repository
  import opened Sessions
  import opened Rooms
  import opened ServerModel
  import opened Runs

  /** Session `s` is open and was heard from at `since` or later. */
  ghost predicate HeardSince(sessions: map<Sid, SessionView>, s: Sid, since: int) {
    s in sessions && sessions[s].open && sessions[s].lastActive >= since
  }

  lemma {:induction false} NotifiedKeepsActivity(
    players: map<int, Sid>, sessions: map<Sid, SessionView>, to: seq<int>, m: Message, s: Sid, since: int)
    requires HeardSince(sessions, s, since) && Notified(players, sessions, to, m).Ok?
    ensures HeardSince(Notified(players, sessions, to, m).value, s, since)
  {
    if to != [] {
      NotifiedKeepsActivity(players, sessions, to[..|to| - 1], m, s, since);
    }
  }

  lemma MatchKeepsActivity(sv: Server, t: Sid, p: int, s: Sid, since: int)
    requires HeardSince(sv.sessions, s, since) && Match(sv, t, p).Ok?
    ensures HeardSince(Match(sv, t, p).value.sessions, s, since)
  {
    hide Popped, Joined, Answer, RoomFor, HeardSince;
    AnswerKeepsActivity(sv, t, MatchFailed("player_id must be non-negative"), s, since);
    AnswerKeepsActivity(sv, t, MatchFailed("player_id already in match_queue"), s, since);
    if p > 0 && p !in sv.queue.members {
      var (players, queue) := Popped(Joined(sv.queue, p), ROOM_SIZE);
      AnswerKeepsActivity(sv.(queue := queue), t, MatchSuccess, s, since);
      if players != [] {
        RoomForKeepsActivity(Answer(sv.(queue := queue), t, MatchSuccess), players, s, since);
      }
    }
    return;
  }

  lemma RoomForKeepsActivity(sv: Server, players: seq<int>, s: Sid, since: int)
    requires HeardSince(sv.sessions, s, since) && RoomFor(sv, players).Ok?
    ensures HeardSince(RoomFor(sv, players).value.sessions, s, since)
  {
    hide Notified, Opened, HeardSince, Served;
    NotifiedKeepsActivity(Served(sv.players, sv.gone), sv.sessions, players,
                          sv.proto.Encode(RoomCreated(sv.rooms.nextRoomId, players)), s, since);
    return;
  }

  lemma AnswerKeepsActivity(sv: Server, t: Sid, reply: Reply, s: Sid, since: int)
    requires HeardSince(sv.sessions, s, since)
    ensures HeardSince(Answer(sv, t, reply).sessions, s, since)
  {
  }

  lemma BoundKeepsActivity(sv: Server, t: Sid, p: int, token: string, s: Sid, since: int)
    requires HeardSince(sv.sessions, s, since) && t in sv.sessions
    ensures HeardSince(Bound(sv, t, p, token).sessions, s, since)
  {
  }

  lemma LoginKeepsActivity(sv: Server, t: Sid, username: string, wallMs: int, s: Sid, since: int)
    requires HeardSince(sv.sessions, s, since) && t in sv.sessions
    ensures HeardSince(Login(sv, t, username, wallMs).sessions, s, since)
  {
    hide HeardSince, Answer, Bound, Token;
    AnswerKeepsActivity(sv, t, LoginFailed, s, since);
    var p := sv.nextPlayerId;
    var bound := Bound(sv.(nextPlayerId := p + 1), t, p, Token(p));
    BoundKeepsActivity(sv.(nextPlayerId := p + 1), t, p, Token(p), s, since);
    AnswerKeepsActivity(bound.(repo := sv.repo[p := PlayerState(p, username, 0, true, -1, wallMs, 0)]), t,
                        LoginSuccess(p, Token(p)), s, since);
    return;
  }

  lemma ReconnectKeepsActivity(sv: Server, t: Sid, p: int, token: string, s: Sid, since: int)
    requires HeardSince(sv.sessions, s, since) && t in sv.sessions && Reconnect(sv, t, p, token).Ok?
    ensures HeardSince(Reconnect(sv, t, p, token).value.sessions, s, since)
  {
    hide HeardSince, Answer, Bound, MarkedIn, MarkedOnline;
    var mine := sv.sessions[t].playerId;
    AnswerKeepsActivity(sv, t, ReconnectFailed(mine, "player state not found"), s, since);
    AnswerKeepsActivity(sv, t, ReconnectFailed(mine, "token is not match"), s, since);
    AnswerKeepsActivity(sv, t, ReconnectFailed(mine, "connection state is not offline"), s, since);
    if p in sv.states && MarkedIn(sv.rooms, p, Online).Ok? {
      BoundKeepsActivity(sv, t, p, token, s, since);
      var rooms := MarkedIn(sv.rooms, p, Online).value;
      AnswerKeepsActivity(Bound(sv, t, p, token).(rooms := rooms, states := MarkedOnline(sv.states, p)), t,
                          ReconnectSuccess(p, sv.states[p].roomId), s, since);
    }
    return;
  }

  lemma ChatKeepsActivity(sv: Server, t: Sid, r: int, text: string, s: Sid, since: int)
    requires HeardSince(sv.sessions, s, since) && t in sv.sessions && Chat(sv, t, r, text).Ok?
    ensures HeardSince(Chat(sv, t, r, text).value.sessions, s, since)
  {
    hide HeardSince, Notified, Served;
    NotifiedKeepsActivity(Served(sv.players, sv.gone), sv.sessions, sv.rooms.rooms[r].playerIds,
      sv.proto.Encode(ChatNotify(r, sv.sessions[t].playerId, text)), s, since);
    return;
  }

  lemma TouchedKeepsActivity(sv: Server, t: Sid, now: int, s: Sid, since: int)
    requires HeardSince(sv.sessions, s, since) && t in sv.sessions && now >= since
    ensures HeardSince(Touched(sv, t, now).sessions, s, since)
  {
  }

  lemma HandleKeepsActivity(sv: Server, t: Sid, message: Message, choice: Choice, now: int, s: Sid, since: int)
    requires HeardSince(sv.sessions, s, since) && now >= since
    requires t in sv.sessions && Handle(sv, t, message, choice, now).Ok?
    ensures HeardSince(Handle(sv, t, message, choice, now).value.sessions, s, since)
  {
    hide HeardSince, Login, Match, Chat, Reconnect, Answer;
    var active, request := Touched(sv, t, now), sv.proto.Request(message);
    TouchedKeepsActivity(sv, t, now, s, since);
    if request.LoginReq? {
      LoginKeepsActivity(active, t, request.username, choice.wallMs, s, since);
    } else if request.MatchReq? {
      MatchKeepsActivity(active, t, request.playerId, s, since);
    } else if request.ChatReq? {
      ChatKeepsActivity(active, t, request.roomId, request.text, s, since);
    } else if request.HeartbeatReq? {
      TouchedKeepsActivity(active, t, now, s, since);
      AnswerKeepsActivity(Touched(active, t, now), t, HeartbeatResp(request.clientTimeMs, WholeMillis(now)), s, since);
    } else if request.ReconnectReq? {
      ReconnectKeepsActivity(active, t, request.playerId, request.token, s, since);
    } else if request.RankingReq? {
      AnswerKeepsActivity(active, t, RankingResp(choice.top), s, since);
    }
    return;
  }

  lemma {:induction false} ClosedAllSpares(sv: Server, order: seq<Sid>, now: int, s: Sid, since: int)
    requires HeardSince(sv.sessions, s, since) && s !in order && ClosedAll(sv, order, now).Ok?
    ensures HeardSince(ClosedAll(sv, order, now).value.sessions, s, since)
  {
    if order != [] {
      ClosedAllSpares(sv, order[..|order| - 1], now, s, since);
    }
  }

  lemma {:induction false} ForgottenKeepsSessions(sv: Server, order: seq<int>)
    requires Forgotten(sv, order).Ok?
    ensures Forgotten(sv, order).value.sessions == sv.sessions
  {
    if order != [] {
      ForgottenKeepsSessions(sv, order[..|order| - 1]);
    }
  }

  /** No event but its own close takes down a session heard from less than 16 seconds ago. */
  lemma StepKeepsActivity(w: World, event: Event, s: Sid, since: int)
    requires HeardSince(w.server.sessions, s, since) && event != CloseSession(s)
    requires since <= w.now < since + (HEARTBEAT_TIMEOUT + 1) * NANOS_PER_SECOND
    requires Possible(w, event) && Step(w, event).Ok?
    ensures HeardSince(Step(w, event).value.server.sessions, s, since)
  {
    hide Handle;
    match event
    case Accept(_) =>
    case Receive(t, message, choice) => HandleKeepsActivity(w.server, t, message, choice, w.now, s, since);
    case CloseSession(t) =>
    case Destroy(_) =>
    case HeartbeatSweep(stale) => ClosedAllSpares(w.server, stale, w.now, s, since);
    case ReconnectSweep(expired) => ForgottenKeepsSessions(w.server, expired);
    case Tick(_) =>
  }

  lemma {:induction false} RunKeepsActivity(start: World, events: seq<Event>, more: seq<Event>, s: Sid)
    requires Run(start, events + more).Some? && CloseSession(s) !in more
    requires Run(start, events).Some?
    requires HeardSince(Run(start, events).value.server.sessions, s, Run(start, events).value.now)
    requires Run(start, events + more).value.now
           < Run(start, events).value.now + (HEARTBEAT_TIMEOUT + 1) * NANOS_PER_SECOND
    ensures Run(start, events).value.now <= Run(start, events + more).value.now
    ensures HeardSince(Run(start, events + more).value.server.sessions, s, Run(start, events).value.now)
  {
    hide Step, Possible;
    if more == [] {
      assert events + more == events;
    } else {
      var n := |more| - 1;
      assert (events + more)[..|events| + n] == events + more[..n];
      var w := Run(start, events + more[..n]).value;
      TimeGoesOn(w, more[n]);
      RunKeepsActivity(start, events, more[..n], s);
      StepKeepsActivity(w, more[n], s, Run(start, events).value.now);
    }
  }

  /** A session that sends a message stays open for the next 16 seconds in every run, whatever the clients
      do, unless it is closed itself: no sweep takes it down. */
  lemma TalkingKeepsAlive(start: World, events: seq<Event>, s: Sid, message: Message, choice: Choice, more: seq<Event>)
    requires Run(start, events).Some? && Run(start, events + [Receive(s, message, choice)] + more).Some?
    requires s in Run(start, events).value.server.sessions && Run(start, events).value.server.sessions[s].open
    requires CloseSession(s) !in more
    requires Run(start, events + [Receive(s, message, choice)] + more).value.now
           < Run(start, events).value.now + 16_000_000_000
    ensures s in Run(start, events + [Receive(s, message, choice)] + more).value.server.sessions
    ensures Run(start, events + [Receive(s, message, choice)] + more).value.server.sessions[s].open
  {
    var event, w := Receive(s, message, choice), Run(start, events).value;
    var longer := events + [event];
    RunPrefix(start, longer, more);
    assert longer[..|events|] == events;
    TouchedTwice(w.server, s, message, choice, w.now);
    HandleKeepsActivity(Touched(w.server, s, w.now), s, message, choice, w.now, s, w.now);
    RunKeepsActivity(start, longer, more, s);
  }

  lemma TouchedTwice(sv: Server, s: Sid, message: Message, choice: Choice, now: int)
    requires s in sv.sessions
    ensures Handle(Touched(sv, s, now), s, message, choice, now) == Handle(sv, s, message, choice, now)
  {
    assert Touched(Touched(sv, s, now), s, now) == Touched(sv, s, now);
  }
}
