/** The leaderboard: sort a copy of all players by score, keep the first `topN`. */
module Ranking {
  import opened Prelude
  import opened Protocol
  import opened Repository

  /** A right answer to a ranking request; which of several equal scores is listed is left open. */
  ghost predicate IsTopN(repo: Repo, topN: int, items: seq<RankItem>) {
    && |items| == (if topN < 0 then 0 else if topN < |repo| then topN else |repo|)
    && (forall i :: 0 <= i < |items| ==>
          items[i].playerId in repo && items[i].score == repo[items[i].playerId].score)
    && (forall i, j :: 0 <= i < j < |items| ==>
          items[i].playerId != items[j].playerId && items[i].score >= items[j].score)
    && (forall i, p :: 0 <= i < |items| && p in repo && Omitted(items, p) ==> repo[p].score <= items[i].score)
  }

  ghost predicate Omitted(items: seq<RankItem>, p: int) {
    forall i :: 0 <= i < |items| ==> items[i].playerId != p
  }

  ghost predicate Descending(s: seq<PlayerState>) {
    forall i, j :: 0 <= i < j < |s| ==> s[i].score >= s[j].score
  }

  // ---- Sorting in place: one algorithm for the library's `sort`, whose order of ties is left open above ----

  method SwapBack(a: array<PlayerState>, j: nat)
    requires 0 < j < a.Length
    modifies a
    ensures a[j - 1] == old(a[j]) && a[j] == old(a[j - 1])
    ensures forall k :: 0 <= k < a.Length && k != j && k != j - 1 ==> a[k] == old(a[k])
    ensures multiset(a[..]) == old(multiset(a[..]))
  {
    a[j - 1], a[j] := a[j], a[j - 1];
  }

  method SinkLast(a: array<PlayerState>, n: nat)
    requires n < a.Length && Descending(a[..n])
    modifies a
    ensures Descending(a[..n + 1]) && a[n + 1..] == old(a[n + 1..])
    ensures multiset(a[..]) == old(multiset(a[..]))
  {
    var j := n;
    while j > 0 && a[j - 1].score < a[j].score
      invariant 0 <= j <= n
      invariant forall x, y :: 0 <= x < y <= n && y != j ==> a[x].score >= a[y].score
      invariant forall k :: n < k < a.Length ==> a[k] == old(a[k])
      invariant multiset(a[..]) == old(multiset(a[..]))
    {
      SwapBack(a, j);
      j := j - 1;
    }
  }

  method SortByScore(a: array<PlayerState>)
    modifies a
    ensures Descending(a[..]) && multiset(a[..]) == old(multiset(a[..]))
  {
    var n := 0;
    while n < a.Length
      invariant 0 <= n <= a.Length
      invariant Descending(a[..n]) && multiset(a[..]) == old(multiset(a[..]))
    {
      SinkLast(a, n);
      n := n + 1;
    }
    assert a[..n] == a[..];
  }

  lemma {:induction false} OnceEach<T(!new)>(s: seq<T>)
    requires NoDup(s)
    ensures forall x :: multiset(s)[x] <= 1
  {
    if s != [] {
      var n := |s| - 1;
      OnceEach(s[..n]);
      assert s == s[..n] + [s[n]];
      assert multiset(s) == multiset(s[..n]) + multiset{s[n]};
      assert s[n] !in multiset(s[..n]);
    }
  }

  lemma CountedTwice<T>(s: seq<T>, i: nat, j: nat)
    requires i < j < |s| && s[i] == s[j]
    ensures multiset(s)[s[i]] >= 2
  {
    assert s == s[..j] + ([s[j]] + s[j + 1..]);
    assert multiset(s) == multiset(s[..j]) + (multiset{s[j]} + multiset(s[j + 1..]));
    assert s[..j][i] == s[i] && s[i] in multiset(s[..j]);
  }

  lemma RearrangedNoDup<T(!new)>(s: seq<T>, t: seq<T>)
    requires NoDup(s) && multiset(s) == multiset(t)
    ensures NoDup(t) && |s| == |t|
    ensures forall x :: x in s <==> x in t
  {
    OnceEach(s);
    assert |multiset(s)| == |multiset(t)|;
    assert forall x :: x in s <==> x in multiset(s);
    assert forall x :: x in t <==> x in multiset(t);
    forall i, j | 0 <= i < j < |t| ensures t[i] != t[j] {
      if t[i] == t[j] {
        CountedTwice(t, i, j);
      }
    }
  }

  lemma {:induction false} EnumerationLength(order: seq<int>, members: set<int>)
    requires Enumerates(order, members)
    ensures |order| == |members|
  {
    if order == [] {
      assert members == {};
    } else {
      EnumeratesPrefix(order, members);
      EnumerationLength(order[..|order| - 1], members - {order[|order| - 1]});
    }
  }

  /** Any descending arrangement of all the players, cut at `size`, is a right answer. */
  lemma SortedPrefixIsTopN(repo: Repo, topN: int, keys: seq<int>, copy: seq<PlayerState>, sorted: seq<PlayerState>,
                           items: seq<RankItem>)
    requires WellKeyed(repo) && Enumerates(keys, repo.Keys)
    requires |copy| == |keys| && forall i :: 0 <= i < |keys| ==> copy[i] == repo[keys[i]]
    requires multiset(copy) == multiset(sorted) && Descending(sorted)
    requires |items| == if topN < 0 then 0 else if topN < |sorted| then topN else |sorted|
    requires forall i :: 0 <= i < |items| ==> items[i] == RankItem(sorted[i].playerId, sorted[i].score)
    ensures IsTopN(repo, topN, items)
  {
    assert forall i :: 0 <= i < |keys| ==> copy[i].playerId == keys[i];
    RearrangedNoDup(copy, sorted);
    EnumerationLength(keys, repo.Keys);
    forall i | 0 <= i < |sorted| ensures sorted[i].playerId in repo && repo[sorted[i].playerId] == sorted[i] {
      assert sorted[i] in copy;
    }
    forall i, p | 0 <= i < |items| && p in repo && Omitted(items, p)
      ensures repo[p].score <= items[i].score
    {
      var k :| 0 <= k < |keys| && keys[k] == p;
      assert copy[k] in sorted;
      var j :| 0 <= j < |sorted| && sorted[j] == copy[k];
      assert forall k :: 0 <= k < |items| ==> items[k].playerId == sorted[k].playerId;
    }
  }

  /** The body of a ranking request up to the reply. */
  method Rank(repository: MemoryPlayerStateRepository, topN: int) returns (items: seq<RankItem>)
    requires WellKeyed(repository.states)
    ensures IsTopN(repository.states, topN, items)
  {
    var copy, keys := repository.GetAllPlayers();
    var players := new PlayerState[|copy|](i requires 0 <= i < |copy| => copy[i]);
    assert players[..] == copy;
    SortByScore(players);
    assert |multiset(players[..])| == |copy|;
    var size := if topN < players.Length then topN else players.Length;
    items := [];
    var i := 0;
    while i < size
      invariant 0 <= i && |items| == i && (i <= size || i == 0)
      invariant forall j :: 0 <= j < i ==> items[j] == RankItem(players[j].playerId, players[j].score)
    {
      items := items + [RankItem(players[i].playerId, players[i].score)];
      i := i + 1;
    }
    SortedPrefixIsTopN(repository.states, topN, keys, copy, players[..], items);
  }
}
