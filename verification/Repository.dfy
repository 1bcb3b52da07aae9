/** The in-memory repository of registered players. */
module Repository {
  import opened Prelude

  datatype PlayerState = PlayerState(
    playerId: int, name: string, score: int, online: bool, roomId: int,
    lastLoginMs: int, lastLogoutMs: int)

  type Repo = map<int, PlayerState>

  /** States are stored under their own player id. */
  ghost predicate WellKeyed(repo: Repo) {
    forall p :: p in repo ==> repo[p].playerId == p
  }

  function WithScore(repo: Repo, p: int, score: int): Repo {
    if p in repo then repo[p := repo[p].(score := score)] else repo
  }

  function AddScore(repo: Repo, p: int, delta: int): Repo {
    if p in repo then WithScore(repo, p, repo[p].score + delta) else repo
  }

  lemma ScoringKeepsKeys(repo: Repo, p: int, delta: int)
    requires WellKeyed(repo)
    ensures WellKeyed(AddScore(repo, p, delta))
  {
  }

  /** Every listed player who is registered is recorded as being in room `r`. */
  function AssignRoom(repo: Repo, players: seq<int>, r: int): Repo {
    map p | p in repo :: if p in players then repo[p].(roomId := r) else repo[p]
  }

  class MemoryPlayerStateRepository {
    var states: Repo

    constructor ()
      ensures states == map[]
    {
      states := map[];
    }

    method SavePlayerState(state: PlayerState)
      modifies this
      ensures states == old(states)[state.playerId := state]
    {
      states := states[state.playerId := state];
    }

    method LoadPlayerState(p: int) returns (state: Option<PlayerState>)
      ensures state == if p in states then Some(states[p]) else None
    {
      state := if p in states then Some(states[p]) else None;
    }

    method UpdateScore(p: int, score: int)
      modifies this
      ensures states == WithScore(old(states), p, score)
    {
      if p in states {
        states := states[p := states[p].(score := score)];
      }
    }

    /** A copy of every state, in an unspecified order of their keys. */
    method GetAllPlayers() returns (result: seq<PlayerState>, ghost keys: seq<int>)
      ensures Enumerates(keys, states.Keys) && |result| == |keys|
      ensures forall i :: 0 <= i < |keys| ==> result[i] == states[keys[i]]
    {
      result, keys := [], [];
      var todo := states.Keys;
      while exists p :: p in todo
        invariant todo <= states.Keys
        invariant Enumerates(keys, states.Keys - todo) && |result| == |keys|
        invariant forall i :: 0 <= i < |keys| ==> keys[i] in states && result[i] == states[keys[i]]
        decreases todo
      {
        var p :| p in todo;
        todo := todo - {p};
        result := result + [states[p]];
        keys := keys + [p];
      }
    }
  }
}
