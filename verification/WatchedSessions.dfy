/** The heartbeat sweep under any clients: which sessions it closes, and which it can never get rid of. */
module WatchedSessions {
  import opened Prelude
  import opened PlayerStates
  import opened Rooms
  import opened Sessions
  import opened MatchQueues
  import opened ServerModel
  import opened Runs
  import opened Effects
  import opened Soundness
  import opened HeartbeatSweeps

  /** Closed, and still in the set the sweep looks at. */
  ghost predicate Stuck(sv: Server, s: Sid) {
    s in sv.sessions && !sv.sessions[s].open && s in sv.conns
  }

  /** The sessions among `closed` that were open. */
  ghost function OpenOnes(sv: Server, closed: set<Sid>): set<Sid> {
    set s | s in closed && s in sv.sessions && sv.sessions[s].open
  }

  lemma ClosingOneMore(sv: Server, mid: Server, closed: set<Sid>, s: Sid, now: int)
    requires Sound(mid) && s in sv.sessions && s !in closed
    requires mid.sessions == ClosedViews(sv.sessions, closed) && mid.conns == sv.conns - OpenOnes(sv, closed)
    ensures Closed(mid, s, now).Ok?
    ensures var after := Closed(mid, s, now).value;
      && after.sessions == ClosedViews(sv.sessions, closed + {s})
      && after.conns == sv.conns - OpenOnes(sv, closed + {s})
  {
    hide Sound, MarkedIn, Departed, SavedOnline, MarkedDisconnected, ClosedViews;
    ClosedSound(mid, s, now);
    LostOneSession(sv.sessions, closed, s);
    SameFlags(sv.sessions, closed, s);
    assert Closed(mid, s, now).value.conns == sv.conns - OpenOnes(sv, closed + {s});
    return;
  }

  lemma SameFlags(sessions: map<Sid, SessionView>, closed: set<Sid>, s: Sid)
    requires s in sessions && s !in closed
    ensures var before := ClosedViews(sessions, closed);
      && s in before && before[s].open == sessions[s].open
      && (!sessions[s].open ==> before == ClosedViews(sessions, closed + {s}))
  {
  }

  /** Whatever else is wrong with the tables, closing the listed sessions closes exactly them, and stops watching
      exactly those that were open. */
  lemma {:induction false} ClosingMany(sv: Server, order: seq<Sid>, closed: set<Sid>, now: int)
    requires Sound(sv) && Enumerates(order, closed) && forall s :: s in closed ==> s in sv.sessions
    ensures ClosedAll(sv, order, now).Ok?
    ensures var after := ClosedAll(sv, order, now).value;
      after.sessions == ClosedViews(sv.sessions, closed) && after.conns == sv.conns - OpenOnes(sv, closed)
  {
    hide Sound, Closed, ClosedViews, OpenOnes;
    if order == [] {
      assert forall s :: s !in closed;
      assert closed == {};
      ClosingNone(sv);
    } else {
      var n := |order| - 1;
      EnumeratesPrefix(order, closed);
      ClosingMany(sv, order[..n], closed - {order[n]}, now);
      ClosedAllSound(sv, order[..n], now);
      ClosingOneMore(sv, ClosedAll(sv, order[..n], now).value, closed - {order[n]}, order[n], now);
      assert closed - {order[n]} + {order[n]} == closed;
    }
    return;
  }

  lemma ClosingNone(sv: Server)
    ensures ClosedViews(sv.sessions, {}) == sv.sessions && sv.conns - OpenOnes(sv, {}) == sv.conns
  {
  }

  lemma SilentAfterwards(sv: Server, after: Server, silent: set<Sid>, now: int)
    requires forall s :: s in silent
               <==> s in sv.conns && s in sv.sessions && now - sv.sessions[s].lastActive >= 16_000_000_000
    requires after.sessions == ClosedViews(sv.sessions, silent) && after.conns == sv.conns - OpenOnes(sv, silent)
    ensures after.sessions.Keys == sv.sessions.Keys
    ensures forall s :: s in sv.sessions ==>
              after.sessions[s] == sv.sessions[s].(open := sv.sessions[s].open && s !in silent)
    ensures forall s :: s in after.conns <==> s in sv.conns && !(s in silent && sv.sessions[s].open)
    ensures (forall s :: s in after.conns && s in after.sessions ==>
               now - after.sessions[s].lastActive < 16_000_000_000)
       <==> forall s :: s in silent ==> !Stuck(sv, s)
  {
    forall s ensures s in after.conns && s in after.sessions && now - after.sessions[s].lastActive >= 16_000_000_000
                <==> s in silent && Stuck(sv, s) {
    }
  }

  /** In every reachable world, whoever the clients are, the sweep cannot fail, and afterwards a session is open
      exactly if it was open and not among the silent watched ones. Those of them that were closed already stay
      watched, so no watched session is silent for too long exactly if none was stuck. */
  lemma SweepOfAnyClients(w: World, stale: seq<Sid>)
    requires Reached(w) && Possible(w, HeartbeatSweep(stale))
    ensures Step(w, HeartbeatSweep(stale)).Ok?
    ensures var sv, after := w.server, Step(w, HeartbeatSweep(stale)).value.server;
      var silent := set s | s in sv.conns && s in sv.sessions && w.now - sv.sessions[s].lastActive >= 16_000_000_000;
      && after.sessions.Keys == sv.sessions.Keys
      && (forall s :: s in sv.sessions ==>
            after.sessions[s] == sv.sessions[s].(open := sv.sessions[s].open && s !in silent))
      && (forall s :: s in after.conns <==> s in sv.conns && !(s in silent && sv.sessions[s].open))
      && ((forall s :: s in after.conns && s in after.sessions ==>
             w.now - after.sessions[s].lastActive < 16_000_000_000)
          <==> forall s :: s in silent ==> !Stuck(sv, s))
  {
    hide Reached, Sound, ClosedAll, Stale, ClosedViews, OpenOnes, Stuck;
    var sv := w.server;
    var silent := Stale(sv, w.now);
    StaleMeans(sv, w.now);
    ReachedSound(w);
    ClosingMany(sv, stale, silent, w.now);
    var after := ClosedAll(sv, stale, w.now).value;
    SilentAfterwards(sv, after, silent, w.now);
    return;
  }

  /** No event ever unsticks a session: nothing destroys it, nothing opens it, nothing stops the watching. */
  lemma StepKeepsStuck(w: World, event: Event, s: Sid)
    requires Sound(w.server) && Stuck(w.server, s) && Possible(w, event) && Step(w, event).Ok?
    ensures Stuck(Step(w, event).value.server, s)
  {
    hide Handle, Closed, ClosedAll, Forgotten, Sound, Expired;
    match event
    case Accept(_) =>
    case Receive(t, message, choice) =>
      HandleEffect(w.server, t, message, choice, w.now);
      HandleKeepsSessions(w.server, t, message, choice, w.now);
    case CloseSession(t) => ClosedKeepsStuck(w.server, t, w.now, s);
    case Destroy(_) =>
    case HeartbeatSweep(stale) => ClosedAllKeepsStuck(w.server, stale, w.now, s);
    case ReconnectSweep(expired) => ForgottenKeepsStuck(w.server, expired, s);
    case Tick(_) =>
  }

  lemma ClosedKeepsStuck(sv: Server, t: Sid, now: int, s: Sid)
    requires Stuck(sv, s) && Closed(sv, t, now).Ok?
    ensures Stuck(Closed(sv, t, now).value, s)
  {
    hide MarkedIn, Departed, SavedOnline, MarkedDisconnected;
  }

  lemma {:induction false} ClosedAllKeepsStuck(sv: Server, order: seq<Sid>, now: int, s: Sid)
    requires Stuck(sv, s) && ClosedAll(sv, order, now).Ok?
    ensures Stuck(ClosedAll(sv, order, now).value, s)
  {
    hide Stuck, Closed;
    if order != [] {
      var n := |order| - 1;
      ClosedAllKeepsStuck(sv, order[..n], now, s);
      ClosedKeepsStuck(ClosedAll(sv, order[..n], now).value, order[n], now, s);
    }
    return;
  }

  lemma {:induction false} ForgottenKeepsStuck(sv: Server, order: seq<int>, s: Sid)
    requires Stuck(sv, s) && Forgotten(sv, order).Ok?
    ensures Stuck(Forgotten(sv, order).value, s)
  {
    hide Removed;
    if order != [] {
      ForgottenKeepsStuck(sv, order[..|order| - 1], s);
    }
  }

  /** A session that is closed and watched is closed and watched in every continuation of the run: every later
      heartbeat sweep finds it again and does nothing. */
  lemma {:induction false} StuckForEver(start: World, events: seq<Event>, more: seq<Event>, s: Sid)
    requires Fresh(start) && Run(start, events + more).Some?
    requires Run(start, events).Some? && Stuck(Run(start, events).value.server, s)
    ensures Stuck(Run(start, events + more).value.server, s)
  {
    hide Stuck, Step, Possible, Sound;
    if more == [] {
      assert events + more == events;
    } else {
      var n := |more| - 1;
      assert (events + more)[..|events| + n] == events + more[..n];
      StuckForEver(start, events, more[..n], s);
      RunSound(start, events + more[..n]);
      StepKeepsStuck(Run(start, events + more[..n]).value, more[n], s);
    }
    return;
  }
}
