/** The cached sessions, their pins, and eviction. */
module SessionCache {
  import opened Basics

  type SessionId = string

  const MAX_MEMORY_SESSIONS := 200

  /** `order` without its first `n` unpinned sessions. */
  function EvictOldest(order: seq<SessionId>, pinned: set<SessionId>, n: nat): seq<SessionId> {
    if order == [] then []
    else if n > 0 && order[0] !in pinned then EvictOldest(order[1..], pinned, n - 1)
    else [order[0]] + EvictOldest(order[1..], pinned, n)
  }

  function Unpinned(order: seq<SessionId>, pinned: set<SessionId>): nat {
    if order == [] then 0 else (if order[0] in pinned then 0 else 1) + Unpinned(order[1..], pinned)
  }

  function Min(a: nat, b: nat): nat { if a <= b then a else b }

  lemma {:induction false} EvictedMembers(order: seq<SessionId>, pinned: set<SessionId>, n: nat)
    ensures forall id :: id in EvictOldest(order, pinned, n) ==> id in order
    ensures forall id :: id in order && id in pinned ==> id in EvictOldest(order, pinned, n)
  {
    if order != [] {
      EvictedMembers(order[1..], pinned, n);
      if n > 0 {
        EvictedMembers(order[1..], pinned, n - 1);
      }
      assert order == [order[0]] + order[1..];
    }
  }

  lemma {:induction false} EvictedCount(order: seq<SessionId>, pinned: set<SessionId>, n: nat)
    ensures |order| - |EvictOldest(order, pinned, n)| == Min(n, Unpinned(order, pinned))
  {
    if order != [] {
      EvictedCount(order[1..], pinned, n);
      if n > 0 {
        EvictedCount(order[1..], pinned, n - 1);
      }
    }
  }

  lemma {:induction false} EvictNothing(order: seq<SessionId>, pinned: set<SessionId>)
    ensures EvictOldest(order, pinned, 0) == order
  {
    if order != [] {
      EvictNothing(order[1..], pinned);
    }
  }

  lemma {:induction false} EvictedOldestFirst(order: seq<SessionId>, pinned: set<SessionId>, n: nat, i: nat, j: nat)
    requires Distinct(order) && i < j < |order| && order[i] !in pinned && order[j] !in EvictOldest(order, pinned, n)
    ensures order[i] !in EvictOldest(order, pinned, n)
    decreases |order|
  {
    var rest := order[1..];
    assert order[j] == rest[j - 1];
    DistinctSplit([order[0]], rest) by { assert [order[0]] + rest == order; }
    EvictedMembers(rest, pinned, if n > 0 && order[0] !in pinned then n - 1 else n);
    if n == 0 {
      EvictNothing(order, pinned);
    } else if i == 0 {
      assert order[0] !in rest by { assert order[0] in [order[0]]; }
    } else {
      assert order[i] == rest[i - 1] && order[i] in rest && order[0] in [order[0]];
      EvictedOldestFirst(rest, pinned, if order[0] !in pinned then n - 1 else n, i - 1, j - 1);
    }
  }

  /** Eviction keeps every pinned session, removes unpinned ones from the least recently
      used on, and as many as asked for or as there are. */
  lemma EvictionIsFair(order: seq<SessionId>, pinned: set<SessionId>, n: nat)
    requires Distinct(order)
    ensures var left := EvictOldest(order, pinned, n);
            && (forall id :: id in left ==> id in order)
            && (forall id :: id in order && id in pinned ==> id in left)
            && |order| - |left| == Min(n, Unpinned(order, pinned))
            && (forall i, j :: 0 <= i < j < |order| && order[i] !in pinned && order[j] !in left ==> order[i] !in left)
  {
    EvictedMembers(order, pinned, n);
    EvictedCount(order, pinned, n);
    var left := EvictOldest(order, pinned, n);
    forall i, j | 0 <= i < j < |order| && order[i] !in pinned && order[j] !in left ensures order[i] !in left {
      EvictedOldestFirst(order, pinned, n, i, j);
    }
  }

  function WithoutSession(order: seq<SessionId>, id: SessionId): seq<SessionId> {
    if order == [] then []
    else if order[0] == id then WithoutSession(order[1..], id)
    else [order[0]] + WithoutSession(order[1..], id)
  }

  /** `EvictOldest` from an index on. */
  function EvictFrom(keys: seq<SessionId>, pinned: set<SessionId>, i: nat, n: nat): seq<SessionId>
    decreases |keys| - i
  {
    if i >= |keys| then []
    else if n > 0 && keys[i] !in pinned then EvictFrom(keys, pinned, i + 1, n - 1)
    else [keys[i]] + EvictFrom(keys, pinned, i + 1, n)
  }

  lemma {:induction false} EvictFromIs(keys: seq<SessionId>, pinned: set<SessionId>, i: nat, n: nat)
    requires i <= |keys|
    ensures EvictFrom(keys, pinned, i, n) == EvictOldest(keys[i..], pinned, n)
    decreases |keys| - i
  {
    if i < |keys| {
      assert keys[i..][1..] == keys[i + 1..];
      EvictFromIs(keys, pinned, i + 1, n);
      if n > 0 {
        EvictFromIs(keys, pinned, i + 1, n - 1);
      }
    }
  }

  lemma EvictFromNothing(keys: seq<SessionId>, pinned: set<SessionId>, i: nat)
    requires i <= |keys|
    ensures EvictFrom(keys, pinned, i, 0) == keys[i..]
  {
    EvictFromIs(keys, pinned, i, 0);
    EvictNothing(keys[i..], pinned);
  }

  lemma KeepNext(order: seq<SessionId>, left: seq<SessionId>, at: nat, keys: seq<SessionId>, i: nat)
    requires at < |order| && at < |left| && i < |keys|
    requires left[..at] == order[..at] && order[at..] == keys[i..] && left[at..][0] == keys[i]
    ensures left[..at + 1] == order[..at + 1] && order[at + 1..] == keys[i + 1..] && left[at + 1..] == left[at..][1..]
  {
    PrefixSnoc(order, at);
    PrefixSnoc(left, at);
    assert order[at] == order[at..][0] == keys[i] == left[at];
    assert order[at..][1..] == keys[i..][1..];
  }

  lemma RemoveNext(order: seq<SessionId>, at: nat, keys: seq<SessionId>, i: nat)
    requires at < |order| && i < |keys| && order[at..] == keys[i..]
    ensures var r := order[..at] + order[at + 1..];
            |r| == |order| - 1 && r[..at] == order[..at] && r[at..] == keys[i + 1..]
  {
    assert order[at..][1..] == keys[i..][1..];
  }

  class Cache {
    /** The cached sessions, the least recently used first. */
    var order: seq<SessionId>
    var pinned: map<SessionId, nat>

    ghost predicate Valid()
      reads this
    {
      Distinct(order) && forall id :: id in pinned ==> pinned[id] > 0
    }

    function Pins(id: SessionId): nat
      reads this
    {
      if id in pinned then pinned[id] else 0
    }

    constructor ()
      ensures Valid() && order == [] && forall id :: Pins(id) == 0
    {
      order, pinned := [], map[];
    }

    method Pin(id: SessionId)
      requires Valid()
      modifies `pinned
      ensures Valid() && Pins(id) == old(Pins(id)) + 1
      ensures forall other :: other != id ==> Pins(other) == old(Pins(other))
    {
      pinned := pinned[id := (if id in pinned then pinned[id] else 0) + 1];
    }

    method Unpin(id: SessionId)
      requires Valid()
      modifies `pinned
      ensures Valid() && Pins(id) == if old(Pins(id)) > 0 then old(Pins(id)) - 1 else 0
      ensures forall other :: other != id ==> Pins(other) == old(Pins(other))
    {
      var count: int := (if id in pinned then pinned[id] else 0) as int - 1;
      if count > 0 {
        pinned := pinned[id := count];
      } else {
        pinned := pinned - {id};
      }
    }

    /** Removes the `count` least recently used unpinned sessions. */
    method Evict(count: nat)
      modifies `order
      ensures order == EvictOldest(old(order), pinned.Keys, count)
    {
      var evicted := 0;
      var keys := order;
      var i, at := 0, 0;
      ghost var left := EvictFrom(keys, pinned.Keys, 0, count);
      EvictFromIs(keys, pinned.Keys, 0, count);
      assert keys[0..] == keys;
      while i < |keys| && evicted < count
        invariant at <= i <= |keys| && evicted <= count && i - at == evicted
        invariant at <= |left| && at <= |order|
        invariant left[..at] == order[..at] && order[at..] == keys[i..]
        invariant left[at..] == EvictFrom(keys, pinned.Keys, i, count - evicted)
      {
        if keys[i] in pinned {
          KeepNext(order, left, at, keys, i);
          at := at + 1;
        } else {
          RemoveNext(order, at, keys, i);
          order := order[..at] + order[at + 1..];
          evicted := evicted + 1;
        }
        i := i + 1;
      }
      EvictFromNothing(keys, pinned.Keys, i);
      assert left == left[..at] + left[at..];
      assert order == order[..at] + order[at..];
    }

    /** Over the limit, up to half of the cache goes, oldest first, pinned sessions excepted. */
    method EvictIfNeeded()
      requires Valid()
      modifies `order
      ensures Valid()
      ensures order == if |old(order)| <= MAX_MEMORY_SESSIONS then old(order)
                       else EvictOldest(old(order), pinned.Keys, |old(order)| / 2)
    {
      if |order| > MAX_MEMORY_SESSIONS {
        EvictedDistinct(order, pinned.Keys, |order| / 2);
        Evict(|order| / 2);
      }
    }

    /** A cached session becomes the most recently used. */
    method Touch(id: SessionId)
      requires Valid()
      modifies `order
      ensures Valid()
      ensures order == if id in old(order) then WithoutSession(old(order), id) + [id] else old(order)
    {
      if id in order {
        WithoutSessionDistinct(order, id);
        DistinctSnoc(WithoutSession(order, id), id);
        order := WithoutSession(order, id) + [id];
      }
    }

    /** A context for a session that is not cached: room is made first. */
    method Add(id: SessionId)
      requires Valid() && id !in order
      modifies `order
      ensures Valid() && order != [] && order[|order| - 1] == id
      ensures forall other :: other in old(order) && other in pinned ==> other in order
      ensures |order| <= |old(order)| + 1
    {
      EvictIfNeeded();
      EvictedMembers(old(order), pinned.Keys, |old(order)| / 2);
      EvictedCount(old(order), pinned.Keys, |old(order)| / 2);
      DistinctSnoc(order, id);
      order := order + [id];
    }
  }

  lemma {:induction false} EvictedDistinct(order: seq<SessionId>, pinned: set<SessionId>, n: nat)
    requires Distinct(order)
    ensures Distinct(EvictOldest(order, pinned, n))
  {
    if order != [] {
      var rest := order[1..];
      assert [order[0]] + rest == order;
      DistinctSplit([order[0]], rest);
      EvictedDistinct(rest, pinned, n);
      EvictedMembers(rest, pinned, n);
      if n > 0 {
        EvictedDistinct(rest, pinned, n - 1);
      }
      assert order[0] in [order[0]];
    }
  }

  lemma {:induction false} WithoutSessionDistinct(order: seq<SessionId>, id: SessionId)
    requires Distinct(order)
    ensures Distinct(WithoutSession(order, id)) && id !in WithoutSession(order, id)
    ensures forall other :: other in WithoutSession(order, id) ==> other in order
  {
    if order != [] {
      var rest := order[1..];
      assert [order[0]] + rest == order;
      DistinctSplit([order[0]], rest);
      WithoutSessionDistinct(rest, id);
      assert order[0] in [order[0]];
    }
  }
}
