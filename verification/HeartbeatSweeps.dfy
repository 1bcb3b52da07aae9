/** The heartbeat sweep closes exactly the silent connections, although each close shrinks the set it
    sweeps. */
module HeartbeatSweeps {
  import opened Prelude
  import opened PlayerStates
  import opened Sessions
  import opened Rooms
  import opened MatchQueues
  import opened ServerModel
  import opened Runs
  import opened Soundness
  import opened Discipline

  ghost function PlayersOf(sv: Server, closed: set<Sid>): set<int> {
    set s | s in closed && s in sv.sessions :: sv.sessions[s].playerId
  }

  function LostState(sv: Server, p: int, now: int): RuntimeState {
    if p in sv.states then sv.states[p].(conn := Offline, disconnectedAt := now)
    else RuntimeState(p, RoomIdOf(sv.rooms, p), Offline, Token(p), now)
  }

  function LostStates(sv: Server, lost: set<int>, now: int): States {
    map p | p in sv.states.Keys + lost :: if p in lost then LostState(sv, p, now) else sv.states[p]
  }

  /** A room with its own lost members marked Offline. */
  function LostMarks(t: RoomTable, r: int, lost: set<int>): RoomView
    requires r in t.rooms
  {
    t.rooms[r].(states := map p | p in t.rooms[r].states ::
      if p in lost && p in t.playerRoom && t.playerRoom[p] == r then t.rooms[r].states[p].(conn := Offline)
      else t.rooms[r].states[p])
  }

  function LostTable(t: RoomTable, lost: set<int>): RoomTable {
    t.(rooms := map r | r in t.rooms :: LostMarks(t, r, lost))
  }

  function ClosedViews(sessions: map<Sid, SessionView>, closed: set<Sid>): map<Sid, SessionView> {
    map s | s in sessions :: if s in closed then sessions[s].(open := false) else sessions[s]
  }

  ghost predicate QueueWithout(before: Queue, after: Queue, lost: set<int>) {
    && QueueOk(after)
    && after.waiting == if before.waiting != [] && before.waiting[0] in lost then before.waiting[1..]
                        else before.waiting
  }

  /** Everything the server is after exactly the sessions `closed` have gone down at time `now`. */
  ghost predicate WentDown(sv: Server, after: Server, closed: set<Sid>, now: int) {
    var lost := PlayersOf(sv, closed);
    && after == sv.(sessions := ClosedViews(sv.sessions, closed),
                    conns := sv.conns - closed,
                    players := sv.players - lost,
                    states := LostStates(sv, lost, now),
                    rooms := LostTable(sv.rooms, lost),
                    queue := after.queue)
    && QueueWithout(sv.queue, after.queue, lost)
  }

  lemma NothingWentDown(sv: Server, now: int)
    requires Sound(sv)
    ensures WentDown(sv, sv, {}, now)
  {
    assert PlayersOf(sv, {}) == {};
    assert ClosedViews(sv.sessions, {}) == sv.sessions && sv.conns - {} == sv.conns;
    assert sv.players - {} == sv.players && LostStates(sv, {}, now) == sv.states;
    forall r | r in sv.rooms.rooms ensures LostMarks(sv.rooms, r, {}) == sv.rooms.rooms[r] {
      assert LostMarks(sv.rooms, r, {}).states == sv.rooms.rooms[r].states;
    }
    assert LostTable(sv.rooms, {}).rooms == sv.rooms.rooms;
  }

  lemma LostOneState(sv: Server, lost: set<int>, p: int, now: int)
    requires p !in lost
    ensures MarkedDisconnected(SavedOnline(LostStates(sv, lost, now), p, RoomIdOf(sv.rooms, p), Token(p)), p, now)
         == LostStates(sv, lost + {p}, now)
  {
  }

  lemma LostOneMark(t: RoomTable, lost: set<int>, p: int)
    requires TableOk(t)
    ensures MarkedIn(LostTable(t, lost), p, Offline) == Ok(LostTable(t, lost + {p}))
  {
    forall r | r in t.rooms
      ensures LostMarks(t, r, lost + {p})
           == if p in t.playerRoom && t.playerRoom[p] == r then Marked(LostMarks(t, r, lost), p, Offline)
              else LostMarks(t, r, lost)
    {
      var more := LostMarks(t, r, lost + {p});
      if p in t.playerRoom && t.playerRoom[p] == r {
        assert more.states == Marked(LostMarks(t, r, lost), p, Offline).states;
      } else {
        assert more.states == LostMarks(t, r, lost).states;
      }
    }
    hide LostMarks, Marked, TableOk;
    if p in t.playerRoom {
      assert MarkedIn(LostTable(t, lost), p, Offline).value.rooms == LostTable(t, lost + {p}).rooms;
    } else {
      assert LostTable(t, lost).rooms == LostTable(t, lost + {p}).rooms;
    }
  }

  lemma LostOneWaiting(before: Queue, after: Queue, lost: set<int>, p: int)
    requires QueueOk(before) && |before.waiting| < ROOM_SIZE && QueueWithout(before, after, lost)
    ensures QueueWithout(before, Departed(after, p), lost + {p})
  {
    LeaveOk(after, p);
    if after.waiting != [] && after.waiting[0] != p {
      assert p !in after.members;
    }
  }

  lemma ClosingOne(sv: Server, mid: Server, closed: set<Sid>, s: Sid)
    requires Agreed(sv) && s in sv.conns && s !in closed && closed <= sv.conns
    requires mid.sessions == ClosedViews(sv.sessions, closed)
    ensures s in sv.sessions && s in mid.sessions && mid.sessions[s] == sv.sessions[s] && mid.sessions[s].open
    ensures var p := sv.sessions[s].playerId;
      && p !in PlayersOf(sv, closed) && sv.sessions[s].token == Token(p)
      && PlayersOf(sv, closed + {s}) == PlayersOf(sv, closed) + {p}
    ensures TableOk(sv.rooms) && QueueOk(sv.queue) && |sv.queue.waiting| < ROOM_SIZE
  {
    hide Seats, Presence, Waiting, TableOk, Remembers, Registered, QueueOk, Token;
  }

  lemma OneMoreDown(sv: Server, mid: Server, closed: set<Sid>, s: Sid, now: int)
    requires Agreed(sv) && WentDown(sv, mid, closed, now) && s in sv.conns && s !in closed && closed <= sv.conns
    ensures Closed(mid, s, now).Ok? && WentDown(sv, Closed(mid, s, now).value, closed + {s}, now)
  {
    hide Agreed, LostStates, LostTable, MarkedIn, SavedOnline, MarkedDisconnected, QueueWithout, QueueOk, Departed,
      PlayersOf, ClosedViews, Token, TableOk;
    ClosingOne(sv, mid, closed, s);
    var p, lost := sv.sessions[s].playerId, PlayersOf(sv, closed);
    LostOneState(sv, lost, p, now);
    LostOneMark(sv.rooms, lost, p);
    LostOneWaiting(sv.queue, mid.queue, lost, p);
    LostOneSession(sv.sessions, closed, s);
    assert RoomIdOf(LostTable(sv.rooms, lost), p) == RoomIdOf(sv.rooms, p) by { SameMapping(sv.rooms, lost); }
    assert sv.conns - closed - {s} == sv.conns - (closed + {s});
    assert sv.players - lost - {p} == sv.players - (lost + {p});
    return;
  }

  lemma SameMapping(t: RoomTable, lost: set<int>)
    ensures LostTable(t, lost).playerRoom == t.playerRoom
  {
  }

  lemma LostOneSession(sessions: map<Sid, SessionView>, closed: set<Sid>, s: Sid)
    requires s in sessions
    ensures var before := ClosedViews(sessions, closed);
      s in before && before[s := before[s].(open := false)] == ClosedViews(sessions, closed + {s})
  {
  }

  lemma LastWentDown(sv: Server, order: seq<Sid>, closed: set<Sid>, now: int)
    requires Agreed(sv) && order != [] && closed <= sv.conns && order[|order| - 1] in closed
    requires ClosedAll(sv, order[..|order| - 1], now).Ok?
    requires WentDown(sv, ClosedAll(sv, order[..|order| - 1], now).value, closed - {order[|order| - 1]}, now)
    ensures ClosedAll(sv, order, now).Ok? && WentDown(sv, ClosedAll(sv, order, now).value, closed, now)
  {
    hide Agreed, WentDown, Closed;
    var s := order[|order| - 1];
    OneMoreDown(sv, ClosedAll(sv, order[..|order| - 1], now).value, closed - {s}, s, now);
    assert closed - {s} + {s} == closed;
  }

  lemma {:induction false} AllWentDown(sv: Server, order: seq<Sid>, closed: set<Sid>, now: int)
    requires Agreed(sv) && Enumerates(order, closed) && closed <= sv.conns
    ensures ClosedAll(sv, order, now).Ok? && WentDown(sv, ClosedAll(sv, order, now).value, closed, now)
  {
    if order == [] {
      assert Sound(sv) && closed == {};
      hide Agreed, Sound;
      NothingWentDown(sv, now);
    } else {
      hide Agreed, WentDown, Closed, ClosedAll;
      EnumeratesPrefix(order, closed);
      AllWentDown(sv, order[..|order| - 1], closed - {order[|order| - 1]}, now);
      LastWentDown(sv, order, closed, now);
    }
  }

  /** With disciplined clients the sweep takes down exactly the registered sessions silent for at least 16
      seconds: they close, their players are no longer served, wait or count as present, and go Offline in
      their rooms and in the reconnect window; nothing else changes. */
  lemma HeartbeatSweepIsExact(w: World, stale: seq<Sid>)
    requires ReachedByDiscipline(w) && Possible(w, HeartbeatSweep(stale))
    ensures Step(w, HeartbeatSweep(stale)).Ok?
    ensures var sv := w.server;
      var silent := set s | s in sv.conns && s in sv.sessions && w.now - sv.sessions[s].lastActive >= 16_000_000_000;
      var after := Step(w, HeartbeatSweep(stale)).value.server;
      && WentDown(sv, after, silent, w.now)
      && (forall s :: s in after.conns ==>
            s in after.sessions && after.sessions[s].open && w.now - after.sessions[s].lastActive < 16_000_000_000)
      && (forall p :: OfflineIn(after.states, p) <==> OfflineIn(sv.states, p) || p in PlayersOf(sv, silent))
  {
    ReachedAgreed(w);
    var sv := w.server;
    var silent := set s | s in sv.conns && s in sv.sessions && w.now - sv.sessions[s].lastActive >= 16_000_000_000;
    StaleMeans(sv, w.now);
    hide Agreed, ClosedAll, WentDown, ReachedByDiscipline, Stale;
    AllWentDown(sv, stale, silent, w.now);
    WatchedAfter(sv, ClosedAll(sv, stale, w.now).value, silent, w.now);
    return;
  }

  /** Who is still watched, and who is Offline, once `closed` have gone down. */
  lemma WatchedAfter(sv: Server, after: Server, closed: set<Sid>, now: int)
    requires Agreed(sv) && WentDown(sv, after, closed, now)
    ensures forall s :: s in after.conns ==>
              s in after.sessions && after.sessions[s] == sv.sessions[s] && after.sessions[s].open && s !in closed
    ensures forall p :: OfflineIn(after.states, p) <==> OfflineIn(sv.states, p) || p in PlayersOf(sv, closed)
  {
    assert forall s :: s in sv.conns ==> s in sv.sessions && sv.sessions[s].open by {
      hide Sound, Seats, Presence, Waiting, Tokens;
    }
    hide Agreed, PlayersOf, LostTable, QueueWithout;
  }

  /** What closing a session does: nothing if it is closed already; with disciplined clients, the whole way
      down for its player if it is bound to one; and otherwise no more than a state for player 0. */
  lemma CloseIsExact(w: World, s: Sid)
    requires ReachedByDiscipline(w) && Possible(w, CloseSession(s))
    ensures Step(w, CloseSession(s)).Ok?
    ensures var sv := w.server; var after := Step(w, CloseSession(s)).value.server;
      if !sv.sessions[s].open then after == sv
      else if sv.sessions[s].playerId != 0 then WentDown(sv, after, {s}, w.now)
      else
        && after == sv.(sessions := ClosedViews(sv.sessions, {s}), states := after.states)
        && after.states - {0} == sv.states - {0} && OfflineIn(after.states, 0)
  {
    ReachedAgreed(w);
    var sv := w.server;
    if sv.sessions[s].open && sv.sessions[s].playerId != 0 {
      assert s in sv.conns;
      assert [s][..0] == [];
      AllWentDown(sv, [s], {s}, w.now);
      assert ClosedAll(sv, [s], w.now) == Closed(sv, s, w.now);
      return;
    }
    if sv.sessions[s].open {
      NobodyCloses(sv, s, w.now);
    }
  }

  lemma NobodyCloses(sv: Server, s: Sid, now: int)
    requires Agreed(sv) && s in sv.sessions && sv.sessions[s].open && sv.sessions[s].playerId == 0
    ensures Closed(sv, s, now).Ok?
    ensures var after := Closed(sv, s, now).value;
      && after == sv.(sessions := ClosedViews(sv.sessions, {s}), states := after.states)
      && after.states - {0} == sv.states - {0} && OfflineIn(after.states, 0)
  {
    forall q | q in sv.rooms.playerRoom ensures q in sv.repo {
      assert Seat(sv.rooms, sv.states, sv.players, sv.repo, q);
    }
    assert 0 !in sv.rooms.playerRoom && 0 !in sv.queue.members && 0 !in sv.players && s !in sv.conns;
    assert sv.players - {0} == sv.players && sv.conns - {s} == sv.conns;
    hide Agreed;
    assert ClosedViews(sv.sessions, {s}) == sv.sessions[s := sv.sessions[s].(open := false)];
    return;
  }
}
