/** Exactly what ends the process. */
module Crashes {
  import opened Prelude
  import opened MessageCodec
  import opened Protocol
  import opened MatchQueues
  import opened Rooms
  import opened ServerModel
  import opened Runs
  import opened Effects
  import opened Soundness
  import opened Discipline

  /** A lookup of the player's session throws, or finds a session that no longer exists. */
  ghost predicate Unreachable(sv: Server, p: int) {
    p !in sv.players || sv.players[p] in sv.gone
  }

  /** The request joins a player to one who waits: the code pairs them at once. */
  ghost predicate CompletesPair(sv: Server, p: int) {
    p > 0 && p !in sv.queue.waiting && sv.queue.waiting != []
  }

  lemma MatchFaultsIff(sv: Server, s: Sid, p: int)
    requires QueueOk(sv.queue) && |sv.queue.waiting| < ROOM_SIZE
    ensures Match(sv, s, p).Fault?
       <==> CompletesPair(sv, p) && (Unreachable(sv, sv.queue.waiting[0]) || Unreachable(sv, p))
  {
    hide Popped, Joined, Notified, Opened, QueueOk;
    if p > 0 && p !in sv.queue.members {
      assert p !in sv.queue.waiting by { InTheSet(sv.queue, p); }
      PairOf(sv.queue, p);
      var (players, queue) := Popped(Joined(sv.queue, p), ROOM_SIZE);
      var told := Answer(sv.(queue := queue), s, MatchSuccess).sessions;
      NotifiedKeepsSessions(Served(sv.players, sv.gone), told, players,
                            sv.proto.Encode(RoomCreated(sv.rooms.nextRoomId, players)));
      if players != [] {
        assert players[0] in players && players[1] in players;
      }
    } else {
      InTheSet(sv.queue, p);
    }
    return;
  }

  lemma InTheSet(q: Queue, p: int)
    requires QueueOk(q)
    ensures p in q.members <==> p in q.waiting
  {
  }

  lemma ChatFaultsIff(sv: Server, s: Sid, r: int, text: string)
    requires s in sv.sessions
    ensures Chat(sv, s, r, text).Fault?
       <==> r !in sv.rooms.rooms || exists p :: p in sv.rooms.rooms[r].playerIds && Unreachable(sv, p)
  {
    hide Notified;
    if r in sv.rooms.rooms {
      NotifiedKeepsSessions(Served(sv.players, sv.gone), sv.sessions, sv.rooms.rooms[r].playerIds,
        sv.proto.Encode(ChatNotify(r, sv.sessions[s].playerId, text)));
    }
    return;
  }

  lemma HandleFaultsIff(sv: Server, s: Sid, message: Message, choice: Choice, now: int)
    requires Sound(sv) && s in sv.sessions
    ensures Handle(sv, s, message, choice, now).Fault?
       <==> match sv.proto.Request(message)
            case ChatReq(r, _) => Chat(Touched(sv, s, now), s, r, sv.proto.Request(message).text).Fault?
            case MatchReq(p) => Match(Touched(sv, s, now), s, p).Fault?
            case _ => false
  {
    hide Match, Chat, Login, Reconnect;
    var request, active := sv.proto.Request(message), Touched(sv, s, now);
    if request.ReconnectReq? {
      assert Sound(active) by { TouchedSound(sv, s, now); }
      ReconnectSound(active, s, request.playerId, request.token);
    }
    return;
  }

  /** Whatever the clients do, an event ends the process exactly in two cases: a chat to a room that does not
      exist or lists a player whose session cannot be found, and a match of two players of whom one has no
      session that can be found. */
  lemma ServerEndsIff(w: World, event: Event)
    requires Reached(w) && Possible(w, event)
    ensures Step(w, event).Fault?
       <==> event.Receive?
            && (match w.server.proto.Request(event.message)
                case ChatReq(r, _) =>
                  || r !in w.server.rooms.rooms
                  || exists p :: p in w.server.rooms.rooms[r].playerIds && Unreachable(w.server, p)
                case MatchReq(p) =>
                  && CompletesPair(w.server, p)
                  && (Unreachable(w.server, w.server.queue.waiting[0]) || Unreachable(w.server, p))
                case _ => false)
  {
    hide Handle, Match, Chat;
    ReachedSound(w);
    StepSound(w, event);
    if event.Receive? {
      var sv, s, message := w.server, event.s, event.message;
      HandleFaultsIff(sv, s, message, event.choice, w.now);
      var request, active := sv.proto.Request(message), Touched(sv, s, w.now);
      if request.ChatReq? {
        ChatFaultsIff(active, s, request.roomId, request.text);
      } else if request.MatchReq? {
        MatchFaultsIff(active, s, request.playerId);
      }
    }
    return;
  }

  /** With disciplined clients only the chat is left, and the room itself shows it: the room does not exist
      or marks a member Offline. */
  lemma DisciplinedServerEndsIff(w: World, event: Event)
    requires ReachedByDiscipline(w) && Possible(w, event) && Disciplined(w, event)
    ensures Step(w, event).Fault?
       <==> event.Receive?
            && (var request := w.server.proto.Request(event.message); var rooms := w.server.rooms.rooms;
                request.ChatReq?
                && (request.roomId !in rooms
                    || exists p :: p in rooms[request.roomId].playerIds && IsDisconnected(rooms[request.roomId], p)))
  {
    hide Step, CompletesPair;
    DisciplinedIsReached(w);
    ReachedAgreed(w);
    ServerEndsIff(w, event);
    StepAgreed(w, event);
    forall r, p | r in w.server.rooms.rooms && p in w.server.rooms.rooms[r].playerIds
      ensures Unreachable(w.server, p) <==> IsDisconnected(w.server.rooms.rooms[r], p)
    {
      UnreachableIsOffline(w.server, r, p);
    }
    hide Agreed, Unreachable, IsDisconnected;
    return;
  }

  lemma DisciplinedIsReached(w: World)
    requires ReachedByDiscipline(w)
    ensures Reached(w)
  {
  }

  lemma UnreachableIsOffline(sv: Server, r: int, p: int)
    requires Agreed(sv) && r in sv.rooms.rooms && p in sv.rooms.rooms[r].playerIds
    ensures Unreachable(sv, p) <==> IsDisconnected(sv.rooms.rooms[r], p)
  {
    assert RoomOk(r, sv.rooms.rooms[r]);
    assert Seat(sv.rooms, sv.states, sv.players, sv.repo, p);
  }
}
