/** Rooms, and the table that says which player is in which room. */
module Rooms {
  import opened Prelude
  import opened MessageCodec
  import opened Protocol
  import opened PlayerStates
  import opened Repository
  import opened Sessions
  import opened Connections

  /** `states` is `player_states_`: an entry outlives the player's removal from `playerIds`. */
  datatype RoomView = RoomView(roomId: int, playerIds: seq<int>, states: States)

  datatype RoomTable = RoomTable(rooms: map<int, RoomView>, playerRoom: map<int, int>, nextRoomId: int)

  function NewRoom(r: int, players: seq<int>): RoomView {
    RoomView(r, players, map p | p in players :: RuntimeState(p, r, Online, "", 0))
  }

  function Marked(room: RoomView, p: int, conn: ConnState): RoomView {
    if p in room.states then room.(states := room.states[p := room.states[p].(conn := conn)]) else room
  }

  predicate IsDisconnected(room: RoomView, p: int) {
    p in room.states && room.states[p].conn == Offline
  }

  /** The room id a lookup by player reports; -1 is "in no room". */
  function RoomIdOf(table: RoomTable, p: int): int {
    if p in table.playerRoom then table.playerRoom[p] else -1
  }

  function Mapped(playerRoom: map<int, int>, players: seq<int>, r: int): map<int, int> {
    map p | p in playerRoom.Keys + (set x | x in players) :: if p in playerRoom then playerRoom[p] else r
  }

  /** Neither insertion overwrites: a player who is already in a room stays mapped to that room. */
  function Opened(table: RoomTable, players: seq<int>): RoomTable {
    var r := table.nextRoomId;
    RoomTable(
      if r in table.rooms then table.rooms else table.rooms[r := NewRoom(r, players)],
      Mapped(table.playerRoom, players, r),
      r + 1)
  }

  /** Removing a player drops the room with its last member; a dangling room id is a null dereference. */
  function Removed(table: RoomTable, p: int): Outcome<RoomTable> {
    if p !in table.playerRoom then Ok(table)
    else
      var r := table.playerRoom[p];
      if r !in table.rooms then Fault
      else
        var room := table.rooms[r].(playerIds := EraseFirst(table.rooms[r].playerIds, p));
        Ok(table.(rooms := if room.playerIds == [] then table.rooms - {r} else table.rooms[r := room],
                  playerRoom := table.playerRoom - {p}))
  }

  function MarkedIn(table: RoomTable, p: int, conn: ConnState): Outcome<RoomTable> {
    if p !in table.playerRoom then Ok(table)
    else
      var r := table.playerRoom[p];
      if r !in table.rooms then Fault
      else Ok(table.(rooms := table.rooms[r := Marked(table.rooms[r], p, conn)]))
  }

  /** Sending to each listed player's session in turn; the first absent player throws. */
  function Notified(players: map<int, Sid>, sessions: map<Sid, SessionView>, to: seq<int>, m: Message)
    : Outcome<map<Sid, SessionView>>
  {
    if to == [] then Ok(sessions)
    else
      var n := |to| - 1;
      match Notified(players, sessions, to[..n], m)
      case Fault => Fault
      case Ok(before) => if to[n] in players then Ok(SendTo(before, players[to[n]], m)) else Fault
  }

  lemma NotifiedOneMore(
    players: map<int, Sid>, sessions: map<Sid, SessionView>, to: seq<int>, i: nat, m: Message)
    requires i < |to|
    ensures Notified(players, sessions, to[..i + 1], m)
         == match Notified(players, sessions, to[..i], m)
            case Fault => Fault
            case Ok(before) => if to[i] in players then Ok(SendTo(before, players[to[i]], m)) else Fault
  {
    assert to[..i + 1][..i] == to[..i];
  }

  /** A loop that broadcasts to `to` ends as soon as a prefix faults. */
  lemma {:induction false} NotifiedStops(
    players: map<int, Sid>, sessions: map<Sid, SessionView>, to: seq<int>, i: nat, m: Message)
    requires i <= |to| && Notified(players, sessions, to[..i], m).Fault?
    ensures Notified(players, sessions, to, m).Fault?
  {
    if i < |to| {
      assert to[..|to| - 1][..i] == to[..i];
      NotifiedStops(players, sessions, to[..|to| - 1], i, m);
    } else {
      assert to[..i] == to;
    }
  }

  // ---- The code ----

  class Room {
    const roomId: int
    const playerManager: PlayerManager
    var playerIds: seq<int>
    var states: States

    ghost function View(): RoomView
      reads this
    {
      RoomView(roomId, playerIds, states)
    }

    constructor (roomId: int, players: seq<int>, playerManager: PlayerManager)
      ensures View() == NewRoom(roomId, players) && this.playerManager == playerManager
    {
      this.roomId := roomId;
      this.playerManager := playerManager;
      playerIds := players;
      states := map[];
      new;
      var i := 0;
      while i < |players|
        invariant 0 <= i <= |players| && playerIds == players
        invariant states == NewRoom(roomId, players[..i]).states
      {
        var state := RuntimeState(players[i], roomId, Online, "", 0);
        assert players[..i + 1] == players[..i] + [players[i]];
        if players[i] !in states {
          states := states[players[i] := state];
        }
        i := i + 1;
      }
      assert players[..i] == players;
    }

    method RemovePlayer(p: int)
      modifies this
      ensures View() == old(View()).(playerIds := EraseFirst(old(playerIds), p))
    {
      var i := 0;
      while i < |playerIds|
        invariant 0 <= i <= |playerIds| && View() == old(View()) && p !in playerIds[..i]
      {
        if playerIds[i] == p {
          EraseFirstAt(playerIds, i);
          playerIds := playerIds[..i] + playerIds[i + 1..];
          return;
        }
        i := i + 1;
      }
      EraseFirstAbsent(playerIds, p);
    }

    method MarkPlayer(p: int, conn: ConnState)
      modifies this
      ensures View() == Marked(old(View()), p, conn)
    {
      if p in states {
        states := states[p := states[p].(conn := conn)];
      }
    }

    /** `ok` is false when the lookup of some member's session throws. */
    method Broadcast(m: Message, ghost all: map<Sid, Session>, ghost clients: set<Session>) returns (ok: bool)
      requires Registry(all) && Known(playerManager.players, all) && Members(all, clients)
      modifies clients`writeQueue, clients`inFlight, clients`sent
      ensures Registry(all)
      ensures Notified(old(playerManager.Reach()), old(Views(all)), playerIds, m)
           == if ok then Ok(Views(all)) else Fault
    {
      ok := Notify(playerManager, playerIds, m, all, clients);
    }
  }

  /** One turn of the sending loops. */
  method NotifyOne(playerManager: PlayerManager, p: int, m: Message, ghost all: map<Sid, Session>,
                   ghost clients: set<Session>)
    returns (ok: bool)
    requires Registry(all) && Known(playerManager.players, all) && Members(all, clients)
    modifies clients`writeQueue, clients`inFlight, clients`sent
    ensures Registry(all) && playerManager.Reach() == old(playerManager.Reach())
    ensures ok <==> p in old(playerManager.Reach())
    ensures Views(all)
         == if ok then SendTo(old(Views(all)), old(playerManager.Reach())[p], m) else old(Views(all))
  {
    var session := playerManager.GetSession(p);
    ok := session.Some?;
    hide Registry, Views;
    if ok {
      SendIn(session.value, m, all);
    }
    return;
  }

  /** The loop shared by a room's broadcast and the room-created notification. */
  method Notify(playerManager: PlayerManager, to: seq<int>, m: Message, ghost all: map<Sid, Session>,
                ghost clients: set<Session>)
    returns (ok: bool)
    requires Registry(all) && Known(playerManager.players, all) && Members(all, clients)
    modifies clients`writeQueue, clients`inFlight, clients`sent
    ensures Registry(all)
    ensures Notified(old(playerManager.Reach()), old(Views(all)), to, m) == if ok then Ok(Views(all)) else Fault
  {
    ghost var live, before := playerManager.Reach(), Views(all);
    assert Notified(live, before, to[..0], m) == Ok(before);
    hide Registry, Views, PlayerManager.Reach, Known, Members, SendTo, Notified;
    var i := 0;
    while i < |to|
      invariant 0 <= i <= |to| && Registry(all) && live == playerManager.Reach()
      invariant Notified(live, before, to[..i], m) == Ok(Views(all))
    {
      NotifiedOneMore(live, before, to, i, m);
      ok := NotifyOne(playerManager, to[i], m, all, clients);
      if !ok {
        NotifiedStops(live, before, to, i + 1, m);
        return;
      }
      i := i + 1;
    }
    assert to[..i] == to;
    return true;
  }

  class RoomManager {
    const playerManager: PlayerManager
    const repository: MemoryPlayerStateRepository
    var rooms: map<int, Room>
    var playerRoom: map<int, int>
    var nextRoomId: int
    /** The room objects this manager may change. */
    ghost var owned: set<Room>

    /** Rooms are separate objects that share the server's player manager. */
    ghost predicate Valid()
      reads this, rooms.Values
    {
      && (forall r :: r in rooms ==> rooms[r] in owned && rooms[r].playerManager == playerManager)
      && (forall r, q :: r in rooms && q in rooms && r != q ==> rooms[r] != rooms[q])
    }

    ghost function View(): RoomTable
      reads this, rooms.Values
    {
      RoomTable(map r | r in rooms :: rooms[r].View(), playerRoom, nextRoomId)
    }

    constructor (playerManager: PlayerManager, repository: MemoryPlayerStateRepository)
      ensures Valid() && View() == RoomTable(map[], map[], 1) && owned == {}
      ensures this.playerManager == playerManager && this.repository == repository
    {
      this.playerManager := playerManager;
      this.repository := repository;
      rooms, playerRoom, nextRoomId, owned := map[], map[], 1, {};
    }

    method GetRoomIdByPlayer(p: int) returns (r: int)
      ensures r == RoomIdOf(View(), p)
    {
      r := if p in playerRoom then playerRoom[p] else -1;
    }

    /** `ok` is false when the player is mapped to a room that does not exist. */
    method RemovePlayer(p: int) returns (ok: bool)
      requires Valid()
      modifies this`rooms, this`playerRoom, owned
      ensures Valid()
      ensures Removed(old(View()), p) == if ok then Ok(View()) else Fault
    {
      if p !in playerRoom {
        return true;
      }
      var r := playerRoom[p];
      if r !in rooms {
        return false;
      }
      ghost var before := View();
      RemoveMember(r, p);
      ghost var mid := View();
      playerRoom := playerRoom - {p};
      if |rooms[r].playerIds| == 0 {
        rooms := rooms - {r};
      }
      assert View().rooms == if mid.rooms[r].playerIds == [] then mid.rooms - {r} else mid.rooms;
      assert before.rooms - {r} == mid.rooms - {r};
      return true;
    }

    /** The removal from the room object itself. */
    method RemoveMember(r: int, p: int)
      requires Valid() && r in rooms
      modifies owned
      ensures Valid() && View() == old(View()).(rooms := old(View()).rooms[r :=
                           old(View()).rooms[r].(playerIds := EraseFirst(old(View()).rooms[r].playerIds, p))])
    {
      ghost var before := View();
      rooms[r].RemovePlayer(p);
      assert forall q :: q in rooms && q != r ==> rooms[q].View() == before.rooms[q];
    }

    /** Both connection marks; `ok` is false when the player is mapped to a room that does not exist. */
    method MarkPlayer(p: int, conn: ConnState) returns (ok: bool)
      requires Valid()
      modifies owned
      ensures Valid()
      ensures MarkedIn(old(View()), p, conn) == if ok then Ok(View()) else Fault
    {
      if p !in playerRoom {
        return true;
      }
      var r := playerRoom[p];
      if r !in rooms {
        return false;
      }
      ghost var before := View();
      rooms[r].MarkPlayer(p, conn);
      ok := true;
      assert forall q :: q in rooms && q != r ==> rooms[q].View() == before.rooms[q];
      assert View().rooms == MarkedIn(before, p, conn).value.rooms;
    }

    method RemoveRoom(r: int)
      requires Valid()
      modifies this`rooms, this`playerRoom
      ensures Valid() && rooms == old(rooms) - {r}
      ensures playerRoom == map p | p in old(playerRoom) && old(playerRoom)[p] != r :: old(playerRoom)[p]
    {
      rooms := rooms - {r};
      var todo := playerRoom.Keys;
      while exists p :: p in todo
        invariant todo <= old(playerRoom).Keys
        invariant rooms == old(rooms) - {r} && nextRoomId == old(nextRoomId)
        invariant playerRoom
               == map p | p in old(playerRoom) && (p in todo || old(playerRoom)[p] != r) :: old(playerRoom)[p]
        decreases todo
      {
        var p :| p in todo;
        todo := todo - {p};
        if playerRoom[p] == r {
          playerRoom := playerRoom - {p};
        }
      }
    }

    /** The first part of opening a room: its id and the room itself. */
    method AddRoom(players: seq<int>) returns (r: int)
      requires Valid()
      modifies this`rooms, this`nextRoomId, this`owned
      ensures Valid() && fresh(owned - old(owned)) && r == old(nextRoomId)
      ensures View() == Opened(old(View()), players).(playerRoom := old(playerRoom))
    {
      r := nextRoomId;
      nextRoomId := nextRoomId + 1;
      var room := new Room(r, players, playerManager);
      if r !in rooms {
        rooms := rooms[r := room];
        owned := owned + {room};
      }
      assert View().rooms == Opened(old(View()), players).rooms;
    }

    /** The second part: the map entries. */
    method MapPlayers(players: seq<int>, r: int)
      modifies this`playerRoom
      ensures playerRoom == Mapped(old(playerRoom), players, r)
    {
      var i := 0;
      while i < |players|
        invariant 0 <= i <= |players|
        invariant playerRoom == Mapped(old(playerRoom), players[..i], r)
      {
        assert players[..i + 1] == players[..i] + [players[i]];
        if players[i] !in playerRoom {
          playerRoom := playerRoom[players[i] := r];
        }
        i := i + 1;
      }
      assert players[..i] == players;
    }

    method OpenRoom(players: seq<int>) returns (r: int)
      requires Valid()
      modifies this
      ensures Valid() && fresh(owned - old(owned))
      ensures r == old(View()).nextRoomId && View() == Opened(old(View()), players)
    {
      r := AddRoom(players);
      MapPlayers(players, r);
    }

    /** The last part: each registered player's state is loaded, changed and saved. */
    method RecordRoom(players: seq<int>, r: int)
      requires WellKeyed(repository.states)
      modifies repository
      ensures WellKeyed(repository.states) && repository.states == AssignRoom(old(repository.states), players, r)
      ensures repository.states.Keys == old(repository.states).Keys
      ensures forall q :: q in repository.states ==>
                repository.states[q] == old(repository.states)[q].(
                  roomId := if q in players then r else old(repository.states)[q].roomId)
    {
      var i := 0;
      while i < |players|
        invariant 0 <= i <= |players| && WellKeyed(repository.states)
        invariant repository.states == AssignRoom(old(repository.states), players[..i], r)
      {
        assert players[..i + 1] == players[..i] + [players[i]];
        var state := repository.LoadPlayerState(players[i]);
        if state.Some? {
          repository.SavePlayerState(state.value.(roomId := r));
        }
        i := i + 1;
      }
      assert players[..i] == players;
    }

    /** `ok` is false when some player's session lookup throws, which ends the process. */
    method CreateRoom(players: seq<int>, proto: Proto, ghost all: map<Sid, Session>, ghost clients: set<Session>)
      returns (ok: bool, r: int)
      requires Valid() && Registry(all) && WellKeyed(repository.states) && Known(playerManager.players, all)
      requires Members(all, clients)
      modifies this, repository, clients`writeQueue, clients`inFlight, clients`sent
      ensures Valid() && Registry(all) && WellKeyed(repository.states)
      ensures fresh(owned - old(owned)) && r == old(View()).nextRoomId
      ensures View() == Opened(old(View()), players)
      ensures Notified(old(playerManager.Reach()), old(Views(all)), players, proto.Encode(RoomCreated(r, players)))
           == if ok then Ok(Views(all)) else Fault
      ensures repository.states == if ok then AssignRoom(old(repository.states), players, r) else old(repository.states)
      ensures repository.states.Keys == old(repository.states).Keys
      ensures forall q :: q in repository.states ==>
                repository.states[q] == old(repository.states)[q].(
                  roomId := if ok && q in players then r else old(repository.states)[q].roomId)
    {
      hide Opened, Notified, AssignRoom, Views, Registry, Known, WellKeyed, PlayerManager.Reach, Members,
        RoomManager.Valid, RoomManager.View;
      r := OpenRoom(players);
      ok := Notify(playerManager, players, proto.Encode(RoomCreated(r, players)), all, clients);
      if ok {
        RecordRoom(players, r);
      }
      return;
    }
  }
}
