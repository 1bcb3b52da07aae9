/** The reconnect-timeout sweep removes exactly the expired players, in whatever order it visits them. */
module ReconnectSweeps {
  import opened Prelude
  import opened PlayerStates
  import opened Rooms
  import opened ServerModel
  import opened Runs
  import opened Soundness
  import opened Discipline

  /** Removal goes through the player's own room: a member who is mapped to another room stays. */
  predicate Leaves(playerRoom: map<int, int>, gone: set<int>, r: int, p: int) {
    p in gone && p in playerRoom && playerRoom[p] == r
  }

  /** The members of room `r` who stay when `gone` are removed. */
  function Staying(members: seq<int>, playerRoom: map<int, int>, gone: set<int>, r: int): seq<int> {
    if members == [] then []
    else if Leaves(playerRoom, gone, r, members[0]) then Staying(members[1..], playerRoom, gone, r)
    else [members[0]] + Staying(members[1..], playerRoom, gone, r)
  }

  lemma {:induction false} StayingMembers(members: seq<int>, playerRoom: map<int, int>, gone: set<int>, r: int)
    ensures forall p :: p in Staying(members, playerRoom, gone, r)
                   <==> p in members && !Leaves(playerRoom, gone, r, p)
  {
    if members != [] {
      StayingMembers(members[1..], playerRoom, gone, r);
      assert members == [members[0]] + members[1..];
    }
  }

  lemma StayingSome(members: seq<int>, playerRoom: map<int, int>, gone: set<int>, r: int)
    ensures Staying(members, playerRoom, gone, r) != []
       <==> exists p :: p in members && !Leaves(playerRoom, gone, r, p)
  {
    hide Leaves;
    var staying := Staying(members, playerRoom, gone, r);
    StayingMembers(members, playerRoom, gone, r);
    if staying != [] {
      assert staying[0] in staying;
    }
  }

  lemma {:induction false} StayingAll(members: seq<int>, playerRoom: map<int, int>, r: int)
    ensures Staying(members, playerRoom, {}, r) == members
  {
    if members != [] {
      StayingAll(members[1..], playerRoom, r);
    }
  }

  lemma {:induction false} StayingElsewhere(
    members: seq<int>, playerRoom: map<int, int>, gone: set<int>, r: int, p: int)
    requires p in playerRoom ==> playerRoom[p] != r
    ensures Staying(members, playerRoom, gone + {p}, r) == Staying(members, playerRoom, gone, r)
  {
    if members != [] {
      StayingElsewhere(members[1..], playerRoom, gone, r, p);
    }
  }

  lemma {:induction false} StayingOneLess(
    members: seq<int>, playerRoom: map<int, int>, gone: set<int>, r: int, p: int)
    requires NoDup(members) && p !in gone && p in playerRoom && playerRoom[p] == r
    ensures Staying(members, playerRoom, gone + {p}, r) == EraseFirst(Staying(members, playerRoom, gone, r), p)
  {
    if members != [] {
      var rest := members[1..];
      var before := Staying(rest, playerRoom, gone, r);
      assert forall i, j :: 0 <= i < j < |rest| ==> rest[i] == members[i + 1] && rest[j] == members[j + 1];
      StayingOneLess(rest, playerRoom, gone, r, p);
      if members[0] == p {
        assert p !in rest;
        StayingMembers(rest, playerRoom, gone, r);
        EraseFirstAbsent(before, p);
      }
      if !Leaves(playerRoom, gone, r, members[0]) {
        assert ([members[0]] + before)[1..] == before;
      }
    }
  }

  /** The table after `gone` have been removed: rooms keep whoever stays, and vanish with nobody. */
  function Swept(t: RoomTable, gone: set<int>): RoomTable {
    RoomTable(
      (map r | r in t.rooms && Staying(t.rooms[r].playerIds, t.playerRoom, gone, r) != [] ::
         t.rooms[r].(playerIds := Staying(t.rooms[r].playerIds, t.playerRoom, gone, r))),
      t.playerRoom - gone,
      t.nextRoomId)
  }

  lemma RoomOneLess(t: RoomTable, gone: set<int>, p: int, r: int)
    requires TableOk(t) && p !in gone && r in t.rooms
    ensures var before := Staying(t.rooms[r].playerIds, t.playerRoom, gone, r);
      Staying(t.rooms[r].playerIds, t.playerRoom, gone + {p}, r)
      == if p in t.playerRoom && t.playerRoom[p] == r then EraseFirst(before, p) else before
  {
    assert RoomOk(r, t.rooms[r]);
    if p in t.playerRoom && t.playerRoom[p] == r {
      StayingOneLess(t.rooms[r].playerIds, t.playerRoom, gone, r, p);
    } else {
      StayingElsewhere(t.rooms[r].playerIds, t.playerRoom, gone, r, p);
    }
  }

  lemma SweptStranger(t: RoomTable, gone: set<int>, p: int)
    requires TableOk(t) && p !in gone && p !in t.playerRoom
    ensures Removed(Swept(t, gone), p) == Ok(Swept(t, gone + {p}))
  {
    hide Staying, TableOk, EraseFirst;
    forall r | r in t.rooms
      ensures Staying(t.rooms[r].playerIds, t.playerRoom, gone + {p}, r)
           == Staying(t.rooms[r].playerIds, t.playerRoom, gone, r)
    {
      RoomOneLess(t, gone, p, r);
    }
    assert Swept(t, gone).rooms == Swept(t, gone + {p}).rooms;
    assert t.playerRoom - gone == t.playerRoom - (gone + {p});
    return;
  }

  lemma SweptMember(t: RoomTable, gone: set<int>, p: int)
    requires TableOk(t) && p !in gone && p in t.playerRoom
    ensures Removed(Swept(t, gone), p) == Ok(Swept(t, gone + {p}))
  {
    hide Staying, TableOk, EraseFirst;
    var own := t.playerRoom[p];
    SeatedThere(t, p);
    StayingMembers(t.rooms[own].playerIds, t.playerRoom, gone, own);
    forall r | r in t.rooms
      ensures var before := Staying(t.rooms[r].playerIds, t.playerRoom, gone, r);
        Staying(t.rooms[r].playerIds, t.playerRoom, gone + {p}, r) == if r == own then EraseFirst(before, p) else before
    {
      RoomOneLess(t, gone, p, r);
    }
    var mid, after := Swept(t, gone), Swept(t, gone + {p});
    assert p in Staying(t.rooms[own].playerIds, t.playerRoom, gone, own);
    assert own in mid.rooms && own in mid.rooms.Keys;
    var removed := Removed(mid, p).value;
    assert removed.rooms == after.rooms;
    assert removed.playerRoom == after.playerRoom;
    return;
  }

  lemma SeatedThere(t: RoomTable, p: int)
    requires TableOk(t) && p in t.playerRoom
    ensures t.playerRoom[p] in t.rooms && p in t.rooms[t.playerRoom[p]].playerIds
  {
  }

  lemma {:induction false} ForgottenExactly(sv: Server, order: seq<int>, gone: set<int>)
    requires TableOk(sv.rooms) && Enumerates(order, gone)
    ensures Forgotten(sv, order) == Ok(sv.(rooms := Swept(sv.rooms, gone), states := sv.states - gone))
  {
    hide Swept, Removed, TableOk;
    if order == [] {
      assert forall p :: p !in gone;
      SweptNothing(sv.rooms);
      assert gone == {} && sv.states - gone == sv.states;
    } else {
      var n := |order| - 1;
      EnumeratesPrefix(order, gone);
      ForgottenExactly(sv, order[..n], gone - {order[n]});
      if order[n] in sv.rooms.playerRoom {
        SweptMember(sv.rooms, gone - {order[n]}, order[n]);
      } else {
        SweptStranger(sv.rooms, gone - {order[n]}, order[n]);
      }
      assert gone - {order[n]} + {order[n]} == gone;
      assert sv.states - (gone - {order[n]}) - {order[n]} == sv.states - gone;
    }
    return;
  }

  lemma SweptNothing(t: RoomTable)
    requires TableOk(t)
    ensures Swept(t, {}) == t
  {
    forall r | r in t.rooms ensures Staying(t.rooms[r].playerIds, t.playerRoom, {}, r) == t.rooms[r].playerIds != [] {
      StayingAll(t.rooms[r].playerIds, t.playerRoom, r);
      assert RoomOk(r, t.rooms[r]);
    }
    hide Staying, TableOk;
    assert Swept(t, {}).rooms == t.rooms;
    assert t.playerRoom - {} == t.playerRoom;
  }

  lemma SweptMeans(t: RoomTable, gone: set<int>)
    ensures forall r :: (r in Swept(t, gone).rooms
              <==> r in t.rooms && exists p :: p in t.rooms[r].playerIds && !Leaves(t.playerRoom, gone, r, p))
    ensures forall r :: r in Swept(t, gone).rooms ==>
       && Swept(t, gone).rooms[r].states == t.rooms[r].states
       && forall p :: (p in Swept(t, gone).rooms[r].playerIds
            <==> p in t.rooms[r].playerIds && !Leaves(t.playerRoom, gone, r, p))
  {
    forall r | r in t.rooms
      ensures forall p :: (p in Staying(t.rooms[r].playerIds, t.playerRoom, gone, r)
              <==> p in t.rooms[r].playerIds && !Leaves(t.playerRoom, gone, r, p))
      ensures Staying(t.rooms[r].playerIds, t.playerRoom, gone, r) != []
         <==> exists p :: p in t.rooms[r].playerIds && !Leaves(t.playerRoom, gone, r, p)
    {
      StayingMembers(t.rooms[r].playerIds, t.playerRoom, gone, r);
      StayingSome(t.rooms[r].playerIds, t.playerRoom, gone, r);
    }
  }

  /** In every reachable world the sweep removes exactly the players who have been Offline for at least
      31 seconds: their state, their place in their own room, and rooms left empty. Everything else stays. */
  lemma ReconnectSweepIsExact(w: World, expired: seq<int>)
    requires Reached(w) && Possible(w, ReconnectSweep(expired))
    ensures Step(w, ReconnectSweep(expired)).Ok?
    ensures var sv := w.server; var t := sv.rooms;
      var after := Step(w, ReconnectSweep(expired)).value.server;
      var gone := set p | p in sv.states && sv.states[p].conn == Offline
                       && w.now - sv.states[p].disconnectedAt >= 31_000_000_000;
      && after == sv.(rooms := after.rooms, states := sv.states - gone)
      && after.rooms.playerRoom == t.playerRoom - gone && after.rooms.nextRoomId == t.nextRoomId
      && (forall r :: r in after.rooms.rooms
            <==> r in t.rooms && exists p :: p in t.rooms[r].playerIds && !Leaves(t.playerRoom, gone, r, p))
      && (forall r :: r in after.rooms.rooms ==>
            && after.rooms.rooms[r].states == t.rooms[r].states
            && forall p :: p in after.rooms.rooms[r].playerIds
                 <==> p in t.rooms[r].playerIds && !Leaves(t.playerRoom, gone, r, p))
  {
    ReachedSound(w);
    var sv := w.server;
    assert TableOk(sv.rooms);
    hide Swept, Forgotten, Sound, TableOk, Leaves, Reached;
    var gone := Expired(sv.states, w.now, RECONNECT_TIMEOUT);
    ForgottenExactly(sv, expired, gone);
    SweptMeans(sv.rooms, gone);
    SweptRest(sv.rooms, gone);
  }

  lemma SweptRest(t: RoomTable, gone: set<int>)
    ensures Swept(t, gone).playerRoom == t.playerRoom - gone && Swept(t, gone).nextRoomId == t.nextRoomId
  {
  }

  lemma SweptMapping(t: RoomTable, gone: set<int>)
    ensures forall r, p :: Leaves(t.playerRoom, gone, r, p) <==> p in gone && p in t.playerRoom && t.playerRoom[p] == r
    ensures forall p :: p in Swept(t, gone).playerRoom <==> p in t.playerRoom && p !in gone
    ensures forall p :: p in Swept(t, gone).playerRoom ==> Swept(t, gone).playerRoom[p] == t.playerRoom[p]
  {
  }

  lemma SweptEmptyIff(t: RoomTable, gone: set<int>)
    requires forall p :: p in t.playerRoom ==> p in gone
    ensures Swept(t, gone).playerRoom == map[]
    ensures Swept(t, gone).rooms == map[] <==> NoStraySeat(t)
  {
    hide Swept, Leaves;
    SweptMapping(t, gone);
    SweptMeans(t, gone);
    var after := Swept(t, gone);
    assert forall p :: p !in after.playerRoom;
    if NoStraySeat(t) {
      assert forall r :: r !in after.rooms;
    } else {
      var r, p :| r in t.rooms && p in t.rooms[r].playerIds && !(p in t.playerRoom && t.playerRoom[p] == r);
      assert !Leaves(t.playerRoom, gone, r, p);
      assert r in after.rooms;
    }
    return;
  }

  /** If every roomed player has expired, the sweep empties all rooms exactly when nobody holds a seat in a
      room the table does not map them to. */
  lemma SweepEmptiesRoomsIff(w: World, expired: seq<int>)
    requires Reached(w) && Possible(w, ReconnectSweep(expired))
    requires forall p :: p in w.server.rooms.playerRoom ==> p in expired
    ensures Step(w, ReconnectSweep(expired)).Ok?
    ensures Step(w, ReconnectSweep(expired)).value.server.rooms.playerRoom == map[]
    ensures Step(w, ReconnectSweep(expired)).value.server.rooms.rooms == map[] <==> NoStraySeat(w.server.rooms)
  {
    ReachedSound(w);
    var gone := Expired(w.server.states, w.now, RECONNECT_TIMEOUT);
    ForgottenExactly(w.server, expired, gone);
    SweptEmptyIff(w.server.rooms, gone);
  }
}
