/** The matchmaking queue: a deque with a membership set beside it. */
module MatchQueues {
  import opened Prelude

  datatype Queue = Queue(waiting: seq<int>, members: set<int>)

  function Joined(q: Queue, p: int): Queue {
    Queue(q.waiting + [p], q.members + {p})
  }

  function Departed(q: Queue, p: int): Queue {
    if p in q.members then Queue(EraseFirst(q.waiting, p), q.members - {p}) else q
  }

  function Popped(q: Queue, roomSize: nat): (r: (seq<int>, Queue)) {
    if |q.waiting| < roomSize then ([], q)
    else
      var matched := q.waiting[..roomSize];
      (matched, Queue(q.waiting[roomSize..], q.members - set p | p in matched))
  }

  ghost predicate QueueOk(q: Queue) {
    NoDup(q.waiting) && forall p :: p in q.members <==> p in q.waiting
  }

  lemma JoinOk(q: Queue, p: int)
    requires QueueOk(q) && p !in q.members
    ensures QueueOk(Joined(q, p))
  {
  }

  lemma LeaveOk(q: Queue, p: int)
    requires QueueOk(q)
    ensures QueueOk(Departed(q, p))
    ensures forall x :: x in Departed(q, p).waiting <==> x in q.waiting && x != p
  {
    EraseFirstNoDup(q.waiting, p);
    if p !in q.waiting {
      EraseFirstAbsent(q.waiting, p);
    }
  }

  lemma PopOk(q: Queue, roomSize: nat)
    requires QueueOk(q)
    ensures QueueOk(Popped(q, roomSize).1) && NoDup(Popped(q, roomSize).0)
    ensures Popped(q, roomSize).0 + Popped(q, roomSize).1.waiting == q.waiting
  {
    var (matched, rest) := Popped(q, roomSize);
    if |q.waiting| >= roomSize {
      forall p ensures p in rest.members <==> p in rest.waiting {
        if p in rest.waiting {
          var i :| 0 <= i < |rest.waiting| && rest.waiting[i] == p;
          assert q.waiting[roomSize + i] == p;
        }
        if p in q.waiting && p !in matched {
          var i :| 0 <= i < |q.waiting| && q.waiting[i] == p;
          assert forall j :: 0 <= j < roomSize ==> matched[j] == q.waiting[j];
          assert rest.waiting[i - roomSize] == p;
        }
      }
    }
  }

  // ---- Histories: the queue is a first-in first-out line ----

  datatype QueueEvent = Joining(p: int) | Leaving(p: int) | Popping(roomSize: nat)

  /** `joins` is every effective join in order, `left` the positions in it that were cancelled by a
      leave, `matched` the players handed out so far. */
  datatype History = History(queue: Queue, joins: seq<int>, left: set<nat>, matched: seq<int>)

  const EMPTY_HISTORY := History(Queue([], {}), [], {}, [])

  /** The position of the latest join of `p`. */
  function LatestJoin(joins: seq<int>, p: int): (i: nat)
    requires p in joins
    ensures i < |joins| && joins[i] == p && p !in joins[i + 1..]
  {
    var n := |joins| - 1;
    assert joins == joins[..n] + [joins[n]];
    if joins[n] == p then n
    else
      var i := LatestJoin(joins[..n], p);
      assert joins[i + 1..] == joins[..n][i + 1..] + [joins[n]];
      i
  }

  ghost function Remember(h: History, event: QueueEvent): History {
    match event
    case Joining(p) =>
      if p in h.queue.members then h
      else h.(queue := Joined(h.queue, p), joins := h.joins + [p])
    case Leaving(p) =>
      if p in h.queue.members && p in h.joins
      then h.(queue := Departed(h.queue, p), left := h.left + {LatestJoin(h.joins, p)})
      else h.(queue := Departed(h.queue, p))
    case Popping(roomSize) =>
      var (matched, rest) := Popped(h.queue, roomSize);
      h.(queue := rest, matched := h.matched + matched)
  }

  ghost function Replay(events: seq<QueueEvent>): History {
    if events == [] then EMPTY_HISTORY
    else Remember(Replay(events[..|events| - 1]), events[|events| - 1])
  }

  /** The join sequence without the cancelled positions. */
  function Survivors(joins: seq<int>, left: set<nat>): seq<int> {
    if joins == [] then []
    else
      var n := |joins| - 1;
      Survivors(joins[..n], left) + (if n in left then [] else [joins[n]])
  }

  ghost predicate FirstInFirstOut(h: History) {
    && QueueOk(h.queue)
    && (forall i :: i in h.left ==> i < |h.joins|)
    && (forall p :: p in h.queue.waiting ==> p in h.joins && LatestJoin(h.joins, p) !in h.left)
    && h.matched + h.queue.waiting == Survivors(h.joins, h.left)
  }

  lemma {:induction false} SurvivorsAhead(joins: seq<int>, left: set<nat>, i: nat)
    requires |joins| <= i
    ensures Survivors(joins, left + {i}) == Survivors(joins, left)
  {
    if joins != [] {
      SurvivorsAhead(joins[..|joins| - 1], left, i);
    }
  }

  /** Cancelling the latest join of a surviving player removes that player's last surviving place. */
  lemma {:induction false} CancelLatest(joins: seq<int>, left: set<nat>, p: int) returns (k: nat)
    requires p in joins && LatestJoin(joins, p) !in left
    ensures k < |Survivors(joins, left)| && Survivors(joins, left)[k] == p
    ensures p !in Survivors(joins, left)[k + 1..]
    ensures Survivors(joins, left + {LatestJoin(joins, p)}) == Drop(Survivors(joins, left), k)
  {
    var n := |joins| - 1;
    var i := LatestJoin(joins, p);
    var before := Survivors(joins[..n], left);
    assert joins == joins[..n] + [joins[n]];
    if joins[n] == p {
      SurvivorsAhead(joins[..n], left, n);
      k := |before|;
      assert Survivors(joins, left + {n}) == before + [];
    } else {
      k := CancelLatest(joins[..n], left, p);
      CancelBehind(before, if n in left then [] else [joins[n]], k);
      assert n in left <==> n in left + {i};
    }
  }

  /** Elements at the back are not affected by dropping one at the front. */
  lemma CancelBehind(s: seq<int>, back: seq<int>, k: nat)
    requires k < |s|
    ensures (s + back)[k] == s[k] && (s + back)[k + 1..] == s[k + 1..] + back
    ensures Drop(s + back, k) == Drop(s, k) + back
  {
  }

  lemma LastPlace(matched: seq<int>, waiting: seq<int>, i: nat, k: nat)
    requires NoDup(waiting) && i < |waiting| && k < |matched + waiting|
    requires (matched + waiting)[k] == waiting[i] && waiting[i] !in (matched + waiting)[k + 1..]
    ensures k == |matched| + i && Drop(matched + waiting, k) == matched + Drop(waiting, i)
  {
    var all, m := matched + waiting, |matched|;
    assert all[m + i] == waiting[i];
    assert forall j :: k < j < |all| ==> all[j] == all[k + 1..][j - k - 1];
    assert forall j :: 0 <= j < |waiting| ==> all[m + j] == waiting[j];
  }

  lemma LeavingKeepsOrder(h: History, p: int)
    requires FirstInFirstOut(h) && p in h.queue.members
    ensures FirstInFirstOut(Remember(h, Leaving(p)))
  {
    hide LatestJoin, Survivors, EraseFirst;
    var waiting := h.queue.waiting;
    LeaveOk(h.queue, p);
    var k := CancelLatest(h.joins, h.left, p);
    var i :| 0 <= i < |waiting| && waiting[i] == p;
    LastPlace(h.matched, waiting, i, k);
    EraseFirstAt(waiting, i);
    forall x | x in Departed(h.queue, p).waiting
      ensures x in h.joins && LatestJoin(h.joins, x) !in h.left + {LatestJoin(h.joins, p)}
    {
      assert h.joins[LatestJoin(h.joins, x)] == x;
    }
    return;
  }

  lemma RememberKeepsOrder(h: History, event: QueueEvent)
    requires FirstInFirstOut(h)
    ensures FirstInFirstOut(Remember(h, event))
  {
    match event
    case Joining(p) =>
      if p !in h.queue.members {
        JoinOk(h.queue, p);
        var joins, n := h.joins + [p], |h.joins|;
        assert joins[..n] == h.joins && n !in h.left;
        forall x | x in Joined(h.queue, p).waiting ensures x in joins && LatestJoin(joins, x) !in h.left {
        }
        ConcatAssoc(h.matched, h.queue.waiting, [p]);
      }
    case Leaving(p) =>
      if p in h.queue.members { LeavingKeepsOrder(h, p); }
    case Popping(roomSize) =>
      PopOk(h.queue, roomSize);
      var (matched, rest) := Popped(h.queue, roomSize);
      ConcatAssoc(h.matched, matched, rest.waiting);
      assert forall x :: x in rest.waiting ==> x in matched + rest.waiting;
  }

  /** Over every run of guarded joins, leaves and pops of any group size, the players matched so far
      followed by those still waiting are the joins in order without the cancelled ones. */
  lemma {:induction false} QueueIsFifo(events: seq<QueueEvent>)
    ensures FirstInFirstOut(Replay(events))
  {
    if events != [] {
      QueueIsFifo(events[..|events| - 1]);
      RememberKeepsOrder(Replay(events[..|events| - 1]), events[|events| - 1]);
    }
  }

  // ---- Several events at once ----

  ghost function RememberAll(h: History, events: seq<QueueEvent>): History {
    if events == [] then h
    else Remember(RememberAll(h, events[..|events| - 1]), events[|events| - 1])
  }

  lemma {:induction false} ReplayConcat(a: seq<QueueEvent>, b: seq<QueueEvent>)
    ensures Replay(a + b) == RememberAll(Replay(a), b)
  {
    hide Remember;
    if b == [] {
      assert a + b == a;
    } else {
      var n := |b| - 1;
      assert (a + b)[..|a| + n] == a + b[..n];
      ReplayConcat(a, b[..n]);
    }
  }

  lemma RememberOneMore(h: History, events: seq<QueueEvent>, event: QueueEvent)
    ensures RememberAll(h, events + [event]) == Remember(RememberAll(h, events), event)
  {
    assert (events + [event])[..|events|] == events;
  }

  // ---- The code ----

  class MatchQueue {
    var queue: seq<int>
    var inQueue: set<int>

    ghost function View(): Queue
      reads this
    {
      Queue(queue, inQueue)
    }

    constructor ()
      ensures View() == Queue([], {})
    {
      queue, inQueue := [], {};
    }

    method Contains(p: int) returns (b: bool)
      ensures b <==> p in inQueue
    {
      b := p in inQueue;
    }

    method Join(p: int)
      modifies this
      ensures View() == Joined(old(View()), p)
    {
      queue := queue + [p];
      inQueue := inQueue + {p};
    }

    method Leave(p: int)
      modifies this
      ensures View() == Departed(old(View()), p)
    {
      if p !in inQueue {
        return;
      }
      inQueue := inQueue - {p};
      var i := 0;
      while i < |queue|
        invariant 0 <= i <= |queue| && queue == old(queue) && p !in queue[..i]
      {
        if queue[i] == p {
          EraseFirstAt(queue, i);
          queue := queue[..i] + queue[i + 1..];
          return;
        }
        i := i + 1;
      }
      EraseFirstAbsent(queue, p);
    }

    method TryPopMatchedPlayers(roomSize: nat) returns (matched: seq<int>)
      modifies this
      ensures (matched, View()) == Popped(old(View()), roomSize)
    {
      matched := [];
      if |queue| < roomSize {
        return;
      }
      var i := 0;
      while i < roomSize
        invariant 0 <= i <= roomSize
        invariant matched == old(queue)[..i] && queue == old(queue)[i..]
        invariant inQueue == old(inQueue) - set p | p in matched
      {
        var p := queue[0];
        matched := matched + [p];
        queue := queue[1..];
        inQueue := inQueue - {p};
        i := i + 1;
      }
    }
  }
}
