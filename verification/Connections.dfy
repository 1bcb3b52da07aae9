/** Which session serves which player, and which sessions the heartbeat check watches. */
module Connections {
  import opened Prelude
  import opened Sessions

  /** The player-to-session map with sessions named by identity. */
  function Ids(players: map<int, Session>): map<int, Sid> {
    map p | p in players :: players[p].id
  }

  /** The same for the weak pointers that can still be locked. */
  function Live(players: map<int, Session>, expired: set<Session>): map<int, Sid> {
    map p | p in players && players[p] !in expired :: players[p].id
  }

  function IdSet(sessions: set<Session>): set<Sid> {
    set s | s in sessions :: s.id
  }

  /** Every player's session is one of `all`. */
  ghost predicate Known(players: map<int, Session>, all: map<Sid, Session>) {
    forall p :: p in players ==> players[p].id in all && all[players[p].id] == players[p]
  }

  /** `clients` holds every session of `all`. */
  ghost predicate Members(all: map<Sid, Session>, clients: set<Session>) {
    forall s :: s in all ==> all[s] in clients
  }

  /** Every session of `some` is the one `all` has under its identity. */
  ghost predicate Indexes(all: map<Sid, Session>, some: set<Session>) {
    forall c :: c in some ==> c.id in all && all[c.id] == c
  }

  /** An identity nobody has yet can be added. */
  lemma IndexGrows(all: map<Sid, Session>, session: Session, players: map<int, Session>, clients: set<Session>,
                   some: set<Session>)
    requires session.id !in all && Known(players, all) && Members(all, clients) && Indexes(all, some)
    ensures var more := all[session.id := session];
      && Known(players, more) && Members(more, clients + {session})
      && Indexes(more, some) && Indexes(more, some + {session})
  {
  }

  /** `order` visits every session of `members` once. */
  ghost predicate Visits(order: seq<Session>, members: set<Session>) {
    && (forall i, j :: 0 <= i < j < |order| ==> order[i] != order[j])
    && (forall s | s in order :: s in members)
    && (forall s | s in members :: s in order)
  }

  ghost function StaleSessions(sessions: set<Session>, now: int, timeout: nat): set<Session>
    reads sessions
  {
    set s | s in sessions && now - s.lastActive >= (timeout + 1) * NANOS_PER_SECOND
  }

  class PlayerManager {
    var players: map<int, Session>
    /** The sessions that have been destroyed: a weak pointer to one of them can no longer be locked. */
    var expired: set<Session>

    /** The sessions `GetSession` can find. */
    ghost function Reach(): map<int, Sid>
      reads this
    {
      Live(players, expired)
    }

    constructor ()
      ensures players == map[] && expired == {}
    {
      players, expired := map[], {};
    }

    method AddPlayer(p: int, session: Session)
      modifies this`players
      ensures players == old(players)[p := session]
    {
      players := players[p := session];
    }

    method RemovePlayer(p: int)
      modifies this`players
      ensures players == old(players) - {p}
    {
      players := players - {p};
    }

    /** The session object is destroyed: what a weak pointer to it will say from now on. */
    method Expire(session: Session)
      modifies this`expired
      ensures expired == old(expired) + {session}
    {
      expired := expired + {session};
    }

    /** `None` stands for both failures: the exception `.at` throws for an absent player, and the null
        pointer `lock` returns for a session that no longer exists. */
    method GetSession(p: int) returns (session: Option<Session>)
      ensures session == if p in players && players[p] !in expired then Some(players[p]) else None
    {
      session := if p in players && players[p] !in expired then Some(players[p]) else None;
    }
  }

  class ConnectionManager {
    var sessions: set<Session>

    constructor ()
      ensures sessions == {}
    {
      sessions := {};
    }

    method AddSession(session: Session)
      modifies this
      ensures sessions == old(sessions) + {session}
    {
      sessions := sessions + {session};
    }

    method RemoveSession(session: Session)
      modifies this
      ensures sessions == old(sessions) - {session}
    {
      sessions := sessions - {session};
    }

    /** The first loop of the heartbeat check: collect the stale sessions, in some order. */
    method CollectStale(now: int, timeout: nat) returns (stale: seq<Session>)
      ensures Visits(stale, StaleSessions(sessions, now, timeout))
    {
      stale := [];
      var todo := sessions;
      while exists s :: s in todo
        invariant todo <= sessions
        invariant Visits(stale, StaleSessions(sessions - todo, now, timeout))
        decreases todo
      {
        var s :| s in todo;
        assert s !in stale;
        todo := todo - {s};
        var isStale := s.IsStale(now, timeout);
        if isStale {
          stale := stale + [s];
        }
      }
    }
  }
}
