/** Player ids and tokens: what a login hands out, and what a reconnect accepts. */
module Identities {
  import opened Prelude
  import opened MessageCodec
  import opened Protocol
  import opened MatchQueues
  import opened PlayerStates
  import opened Repository
  import opened Sessions
  import opened Rooms
  import opened ServerModel
  import opened Runs
  import opened Soundness
  import opened Discipline

  /** What a string of decimal digits means. */
  function ValueOf(digits: string): int {
    if digits == "" then 0
    else
      var n := |digits| - 1;
      10 * ValueOf(digits[..n]) + (digits[n] as int - '0' as int)
  }

  ghost predicate Digits(s: string) {
    s != "" && forall c :: c in s ==> '0' <= c <= '9'
  }

  lemma {:induction false} DigitsRead(n: nat)
    ensures Digits(DigitsOf(n)) && ValueOf(DigitsOf(n)) == n
    ensures n > 0 ==> DigitsOf(n)[0] != '0'
  {
    var s := DigitsOf(n);
    if n >= 10 {
      DigitsRead(n / 10);
      assert s[..|s| - 1] == DigitsOf(n / 10) && s[0] == s[..|s| - 1][0];
    } else {
      assert s[..0] == "";
    }
  }

  /** A token is the word and the id in decimal, without leading zeros: the first one is `token_10000`. */
  lemma TokenSpellsTheId(p: nat)
    ensures |Token(p)| > 6 && Token(p)[..6] == "token_"
    ensures Digits(Token(p)[6..]) && ValueOf(Token(p)[6..]) == p && (p > 0 ==> Token(p)[6] != '0')
    ensures Token(10000) == "token_10000"
  {
    DigitsRead(p);
    TokenEnds(p);
    assert DigitsOf(10000) == DigitsOf(1000) + "0" == DigitsOf(100) + "00" == DigitsOf(10) + "000" == "10000";
  }

  /** A token belongs to one player only. */
  lemma TokenNamesThePlayer(p: int, q: int)
    ensures Token(p) == Token(q) <==> p == q
  {
    TokenEnds(p);
    TokenEnds(q);
    if Token(p) == Token(q) {
      hide Token;
      DecimalDiffers(p, q);
    }
  }

  lemma TokenEnds(p: int)
    ensures |Token(p)| >= 6 && Token(p)[6..] == Decimal(p)
  {
  }

  lemma SignShows(p: int)
    ensures Decimal(p) != "" && (Decimal(p)[0] == '-' <==> p < 0)
  {
    var digits := DigitsOf(if p < 0 then -p else p);
    DigitsRead(if p < 0 then -p else p);
    assert digits[0] in digits;
  }

  lemma DecimalDiffers(p: int, q: int)
    requires Decimal(p) == Decimal(q)
    ensures p == q
  {
    hide DigitsOf, ValueOf;
    DigitsRead(if p < 0 then -p else p);
    DigitsRead(if q < 0 then -q else q);
    SignShows(p);
    SignShows(q);
    if p < 0 && q < 0 {
      assert Decimal(p)[1..] == DigitsOf(-p) && Decimal(q)[1..] == DigitsOf(-q);
    }
    return;
  }

  /** No table, no room, no queue and no session knows `p`. */
  ghost predicate Unknown(sv: Server, p: int) {
    && p !in sv.players && p !in sv.queue.members && p !in sv.queue.waiting
    && p !in sv.rooms.playerRoom && (forall r :: r in sv.rooms.rooms ==> p !in sv.rooms.rooms[r].playerIds)
    && p !in sv.states && p !in sv.repo
    && (forall s :: s in sv.sessions ==> sv.sessions[s].playerId != p)
  }

  lemma NextIdIsUnknown(sv: Server)
    requires Agreed(sv)
    ensures Unknown(sv, sv.nextPlayerId)
  {
    var p := sv.nextPlayerId;
    assert p !in sv.repo;
    forall q | q in sv.rooms.playerRoom ensures q in sv.repo {
      assert Seat(sv.rooms, sv.states, sv.players, sv.repo, q);
    }
  }

  lemma LoginDoes(sv: Server, s: Sid, message: Message, choice: Choice, now: int)
    requires s in sv.sessions && sv.proto.Request(message).LoginReq?
    ensures var name, p := sv.proto.Request(message).username, sv.nextPlayerId;
      Handle(sv, s, message, choice, now)
      == Ok(if name == "" then sv.(sessions := sv.sessions[s := Heard(sv, s, now, LoginFailed)])
            else sv.(sessions := sv.sessions[s :=
                       Heard(sv, s, now, LoginSuccess(p, Token(p))).(playerId := p, token := Token(p))],
                     players := sv.players[p := s], conns := sv.conns + {s}, nextPlayerId := p + 1,
                     repo := sv.repo[p := PlayerState(p, name, 0, true, -1, choice.wallMs, 0)]))
  {
    hide Token, Match, Chat, Reconnect, Heartbeat;
    var name, p, active := sv.proto.Request(message).username, sv.nextPlayerId, Touched(sv, s, now);
    assert Handle(sv, s, message, choice, now) == Ok(Login(active, s, name, choice.wallMs));
    var after := Login(active, s, name, choice.wallMs);
    if name == "" {
      assert after.sessions == sv.sessions[s := Heard(sv, s, now, LoginFailed)];
    } else {
      assert after.sessions
          == sv.sessions[s := Heard(sv, s, now, LoginSuccess(p, Token(p))).(playerId := p, token := Token(p))];
    }
    return;
  }

  /** A named login gives the session a player nobody knows, with a score of zero and no room, and
      tells only that session; an unnamed one only answers. */
  lemma LoginIsFresh(w: World, s: Sid, message: Message, choice: Choice)
    requires ReachedByDiscipline(w) && Possible(w, Receive(s, message, choice)) && message.msgId == 1001
    ensures var sv := w.server; var name, p := sv.proto.loginName(message.body), sv.nextPlayerId;
      var session := sv.sessions[s];
      && Unknown(sv, p) && Step(w, Receive(s, message, choice)).Ok?
      && Step(w, Receive(s, message, choice)).value.server
         == if name == "" then
              sv.(sessions := sv.sessions[s := session.(
                    lastActive := w.now, sent := session.sent + [Message(1002, sv.proto.serialize(LoginFailed))])])
            else
              sv.(sessions := sv.sessions[s := SessionView(session.open, p, Token(p), w.now,
                    session.sent + [Message(1002, sv.proto.serialize(LoginSuccess(p, Token(p))))])],
                  players := sv.players[p := s], conns := sv.conns + {s}, nextPlayerId := p + 1,
                  repo := sv.repo[p := PlayerState(p, name, 0, true, -1, choice.wallMs, 0)])
  {
    hide Agreed, Unknown, Handle, Proto.Request, ReachedByDiscipline, Token;
    HandlersByNumber(w.server.proto, message);
    ReachedAgreed(w);
    NextIdIsUnknown(w.server);
    LoginDoes(w.server, s, message, choice, w.now);
    return;
  }

  /** With disciplined clients every reconnect is answered once, to the asking session alone: with the
      remembered room if the token is the Offline player's own, which also binds the session to that
      player, and otherwise with the first reason that applies. */
  lemma ReconnectIsAnswered(w: World, s: Sid, message: Message, choice: Choice)
    requires ReachedByDiscipline(w) && message.msgId == 9101
    requires Possible(w, Receive(s, message, choice)) && Disciplined(w, Receive(s, message, choice))
    ensures var sv := w.server; var (p, token) := sv.proto.reconnect(message.body);
      && Step(w, Receive(s, message, choice)).Ok?
      && var after := Step(w, Receive(s, message, choice)).value.server;
         var reply := if p !in sv.states then ReconnectFailed(0, "player state not found")
                      else if token != Token(p) then ReconnectFailed(0, "token is not match")
                      else if p in sv.players then ReconnectFailed(0, "connection state is not offline")
                      else ReconnectSuccess(p, sv.states[p].roomId);
         var heard := sv.sessions[s].(
           lastActive := w.now, sent := sv.sessions[s].sent + [Message(9102, sv.proto.serialize(reply))]);
         after.sessions
           == sv.sessions[s := if reply.ReconnectSuccess? then heard.(playerId := p, token := token) else heard]
  {
    hide Agreed, Token, ReachedByDiscipline, Proto.Request, Handle;
    HandlersByNumber(w.server.proto, message);
    ReachedAgreed(w);
    var (p, token) := w.server.proto.reconnect(message.body);
    OwnTokens(w.server, p);
    ReconnectHandled(w.server, s, message, choice, w.now, p, token);
    return;
  }

  lemma ReconnectHandled(sv: Server, s: Sid, message: Message, choice: Choice, now: int, p: int, token: string)
    requires s in sv.sessions && sv.sessions[s].playerId == 0 && MarkedIn(sv.rooms, p, Online).Ok?
    requires sv.proto.Request(message) == ReconnectReq(p, token)
    ensures Handle(sv, s, message, choice, now).Ok?
    ensures var reply := if p !in sv.states then ReconnectFailed(0, "player state not found")
                         else if sv.states[p].token != token then ReconnectFailed(0, "token is not match")
                         else if sv.states[p].conn != Offline then ReconnectFailed(0, "connection state is not offline")
                         else ReconnectSuccess(p, sv.states[p].roomId);
      var heard := sv.sessions[s].(
        lastActive := now, sent := sv.sessions[s].sent + [Message(9102, sv.proto.serialize(reply))]);
      Handle(sv, s, message, choice, now).value.sessions
      == sv.sessions[s := if reply.ReconnectSuccess? then heard.(playerId := p, token := token) else heard]
  {
    hide MarkedIn, Reconnect, Proto.Request;
    ReconnectSays(Touched(sv, s, now), s, p, token);
    return;
  }

  lemma OwnTokens(sv: Server, p: int)
    requires Agreed(sv)
    ensures MarkedIn(sv.rooms, p, Online).Ok?
    ensures p in sv.states && p != 0 ==>
              sv.states[p].token == Token(p) && (sv.states[p].conn == Online <==> p in sv.players)
  {
    hide Bindings, Seats, Waiting, Token, Remembers, Registered, QueueOk;
    MarkedInOk(sv.rooms, p, Online);
  }

  lemma ReconnectSays(sv: Server, s: Sid, p: int, token: string)
    requires s in sv.sessions && MarkedIn(sv.rooms, p, Online).Ok?
    ensures Reconnect(sv, s, p, token).Ok?
    ensures var mine := sv.sessions[s].playerId;
      var reply := if p !in sv.states then ReconnectFailed(mine, "player state not found")
                   else if sv.states[p].token != token then ReconnectFailed(mine, "token is not match")
                   else if sv.states[p].conn != Offline then ReconnectFailed(mine, "connection state is not offline")
                   else ReconnectSuccess(p, sv.states[p].roomId);
      var told := sv.sessions[s].(sent := sv.sessions[s].sent + [sv.proto.Encode(reply)]);
      Reconnect(sv, s, p, token).value.sessions
      == sv.sessions[s := if reply.ReconnectSuccess? then told.(playerId := p, token := token) else told]
  {
    hide MarkedIn, MarkedOnline;
  }
}
