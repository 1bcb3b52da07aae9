/** The runtime states kept for players who have disconnected at least once. */
module PlayerStates {
  import opened Prelude

  datatype ConnState = Online | Offline

  datatype RuntimeState =
    RuntimeState(playerId: int, roomId: int, conn: ConnState, token: string, disconnectedAt: int)

  type States = map<int, RuntimeState>

  /** Stores a fresh Online state unless the player already has one: `insert` never overwrites. */
  function SavedOnline(states: States, p: int, roomId: int, token: string): States {
    if p in states then states else states[p := RuntimeState(p, roomId, Online, token, 0)]
  }

  function MarkedDisconnected(states: States, p: int, now: int): States {
    if p in states then states[p := states[p].(conn := Offline, disconnectedAt := now)] else states
  }

  function MarkedOnline(states: States, p: int): States {
    if p in states then states[p := states[p].(conn := Online)] else states
  }

  /** The Offline players whose whole seconds since disconnecting exceed the timeout. */
  ghost function Expired(states: States, now: int, timeout: nat): set<int> {
    set p | p in states && states[p].conn == Offline
         && now - states[p].disconnectedAt >= (timeout + 1) * NANOS_PER_SECOND
  }

  class PlayerStateManager {
    var states: States

    constructor ()
      ensures states == map[]
    {
      states := map[];
    }

    method SaveOnline(p: int, roomId: int, token: string)
      modifies this
      ensures states == SavedOnline(old(states), p, roomId, token)
    {
      var state := RuntimeState(p, roomId, Online, token, 0);
      if p !in states {
        states := states[p := state];
      }
    }

    method MarkDisconnected(p: int, now: int)
      modifies this
      ensures states == MarkedDisconnected(old(states), p, now)
    {
      if p in states {
        states := states[p := states[p].(conn := Offline)];
        states := states[p := states[p].(disconnectedAt := now)];
      }
    }

    method MarkOnline(p: int)
      modifies this
      ensures states == MarkedOnline(old(states), p)
    {
      if p in states {
        states := states[p := states[p].(conn := Online)];
      }
    }

    method RemovePlayer(p: int)
      modifies this
      ensures states == old(states) - {p}
    {
      states := states - {p};
    }

    method GetState(p: int) returns (state: Option<RuntimeState>)
      ensures state == if p in states then Some(states[p]) else None
    {
      state := if p in states then Some(states[p]) else None;
    }

    /** The map is visited in an unspecified order, so the result is some order of the expired players. */
    method GetReconnectTimeoutPlayers(timeout: nat, now: int) returns (players: seq<int>)
      ensures Enumerates(players, Expired(states, now, timeout))
    {
      players := [];
      var todo := states.Keys;
      while exists p :: p in todo
        invariant todo <= states.Keys
        invariant Enumerates(players, Expired(states, now, timeout) - todo)
        decreases todo
      {
        var p :| p in todo;
        TimeoutStartsALater(now - states[p].disconnectedAt, timeout);
        todo := todo - {p};
        if states[p].conn == Offline && WholeSeconds(now - states[p].disconnectedAt) > timeout {
          players := players + [p];
        }
      }
    }
  }
}
