/** Shared vocabulary: results that may be a crash, optional values, and facts about sequences. */
module Prelude {

  datatype Option<+T> = None | Some(value: T)

  /** `Fault` is a run of the C++ code that ends the process: an uncaught `std::out_of_range`
      thrown by `.at`, or a call through a null `shared_ptr`. */
  datatype Outcome<+T> = Ok(value: T) | Fault

  /** The identity of a connection, standing for the address of its `Session` object. */
  type Sid = nat

  const NANOS_PER_SECOND: int := 1_000_000_000

  /** `duration_cast<seconds>` of a nanosecond count: it truncates toward zero. */
  function WholeSeconds(nanos: int): int {
    if nanos >= 0 then nanos / NANOS_PER_SECOND else -((-nanos) / NANOS_PER_SECOND)
  }

  /** Because of the truncation, "more than `limit` seconds" starts a full second later. */
  lemma TimeoutStartsALater(nanos: int, limit: nat)
    ensures WholeSeconds(nanos) > limit <==> nanos >= (limit + 1) * NANOS_PER_SECOND
  {
  }

  ghost predicate NoDup<T(!new)>(s: seq<T>) {
    forall i, j :: 0 <= i < j < |s| ==> s[i] != s[j]
  }

  lemma SomeElement<T(!new)>(s: seq<T>)
    ensures s == [] || exists x :: x in s
  {
    if s != [] {
      assert s[0] in s;
    }
  }

  /** `order` lists every member of `members` once: what a loop over an unordered container visits. */
  ghost predicate Enumerates<T(!new)>(order: seq<T>, members: set<T>) {
    NoDup(order) && forall x :: x in order <==> x in members
  }

  lemma EnumeratesPrefix<T(!new)>(order: seq<T>, members: set<T>)
    requires Enumerates(order, members) && order != []
    ensures var last := order[|order| - 1];
            last in members && Enumerates(order[..|order| - 1], members - {last})
  {
    var last := order[|order| - 1];
    forall x ensures x in order[..|order| - 1] <==> x in members - {last} {
      if x in order && x != last {
        var i :| 0 <= i < |order| && order[i] == x;
        assert order[..|order| - 1][i] == x;
      }
    }
  }

  /** The elements of `s` that satisfy `keep`, in order. */
  function Filter<T(!new)>(s: seq<T>, keep: T -> bool): (r: seq<T>)
    ensures forall x :: x in r <==> x in s && keep(x)
  {
    if s == [] then []
    else
      var n := |s| - 1;
      assert s == s[..n] + [s[n]];
      Filter(s[..n], keep) + (if keep(s[n]) then [s[n]] else [])
  }

  lemma ConcatAssoc<T>(a: seq<T>, b: seq<T>, c: seq<T>)
    ensures a + (b + c) == (a + b) + c
  {
  }

  /** Concatenation of a sequence of sequences. */
  function Flatten<T>(parts: seq<seq<T>>): seq<T> {
    if parts == [] then [] else parts[0] + Flatten(parts[1..])
  }

  lemma {:induction false} FlattenConcat<T>(a: seq<seq<T>>, b: seq<seq<T>>)
    ensures Flatten(a + b) == Flatten(a) + Flatten(b)
  {
    if a == [] {
      assert a + b == b;
    } else {
      assert (a + b)[1..] == a[1..] + b;
      FlattenConcat(a[1..], b);
    }
  }

  lemma FlattenOne<T>(a: seq<seq<T>>, b: seq<T>)
    ensures Flatten(a + [b]) == Flatten(a) + b
  {
    FlattenConcat(a, [b]);
    assert Flatten([b]) == b;
  }

  /** `s` without the element at `i`. */
  function Drop<T>(s: seq<T>, i: nat): (r: seq<T>)
    requires i < |s|
  {
    s[..i] + s[i + 1..]
  }

  /** `s` without the first occurrence of `x`, as a loop that erases on the first hit leaves it. */
  function EraseFirst<T(==)>(s: seq<T>, x: T): (r: seq<T>) {
    if s == [] then []
    else if s[0] == x then s[1..]
    else [s[0]] + EraseFirst(s[1..], x)
  }

  lemma {:induction false} EraseFirstAt<T>(s: seq<T>, i: nat)
    requires i < |s| && s[i] !in s[..i]
    ensures EraseFirst(s, s[i]) == Drop(s, i)
  {
    if i > 0 {
      assert s[0] == s[..i][0];
      assert s[1..][..i - 1] == s[..i][1..];
      EraseFirstAt(s[1..], i - 1);
    }
  }

  lemma {:induction false} EraseFirstShrinks<T>(s: seq<T>, x: T)
    ensures |EraseFirst(s, x)| <= |s|
  {
    if s != [] {
      EraseFirstShrinks(s[1..], x);
    }
  }

  lemma {:induction false} EraseFirstAbsent<T>(s: seq<T>, x: T)
    requires x !in s
    ensures EraseFirst(s, x) == s
  {
    if s != [] {
      EraseFirstAbsent(s[1..], x);
    }
  }

  /** On a duplicate-free sequence, erasing the first occurrence removes the element altogether. */
  lemma {:induction false} EraseFirstNoDup<T(!new)>(s: seq<T>, x: T)
    requires NoDup(s)
    ensures NoDup(EraseFirst(s, x))
    ensures forall y :: y in EraseFirst(s, x) <==> y in s && y != x
  {
    if s != [] {
      assert forall i, j :: 0 <= i < j < |s[1..]| ==> s[1..][i] == s[i + 1] && s[1..][j] == s[j + 1];
      assert s[0] !in s[1..];
      EraseFirstNoDup(s[1..], x);
      var r := EraseFirst(s[1..], x);
      assert s == [s[0]] + s[1..];
    }
  }
}
