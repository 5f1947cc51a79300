/** The LRU cache and the memory of GBC packets, both proved against the recency list of their accesses. */
module BoundedMemories {
  import opened Recency
  import opened Reversal

  /** A cache that is configured to hold nothing still holds the latest key. */
  function AtLeastOne(c: nat): nat {
    if c < 1 then 1 else c
  }

  // ---- LRU cache ----

  function AfterAccess<K(==)>(capacity: nat, index: seq<K>, k: K): seq<K> {
    if k in index then [k] + Without(index, k)
    else if |index| >= capacity && index != [] then [k] + index[..|index| - 1]
    else [k] + index
  }

  /** The value of a key: the cached one or else a generated one. */
  function ValueOf<K(==), V>(cache: map<K, V>, generator: K -> V, k: K): V {
    if k in cache then cache[k] else generator(k)
  }

  class LruCache<K(==), V> {
    const generator: K -> V
    const capacity: nat
    var index: seq<K>
    var cache: map<K, V>

    /** List and map hold the same keys; callers may change the values through the references they get. */
    ghost predicate Valid()
      reads this
    {
      && Distinct(index) && |index| == |cache|
      && (forall k :: k in index ==> k in cache) && (forall k :: k in cache ==> k in index)
    }

    constructor (generator: K -> V, capacity: nat)
      ensures Valid() && this.generator == generator && this.capacity == capacity && index == []
    {
      this.generator, this.capacity := generator, capacity;
      index, cache := [], map[];
    }

    method Access(k: K) returns (v: V)
      requires Valid()
      modifies this
      ensures Valid() && index == AfterAccess(capacity, old(index), k)
      ensures v == ValueOf(old(cache), generator, k)
      ensures forall j :: j in cache ==> cache[j] == ValueOf(old(cache), generator, j)
    {
      if k !in cache {
        v := Add(k);
      } else {
        v := Refresh(k);
      }
    }

    method Add(k: K) returns (v: V)
      requires Valid() && k !in cache
      modifies this
      ensures Valid() && index == AfterAccess(capacity, old(index), k)
      ensures v == generator(k) && forall j :: j in cache ==> cache[j] == ValueOf(old(cache), generator, j)
    {
      if |cache| >= capacity {
        RemoveOldest();
      }
      v := generator(k);
      index := [k] + index;
      cache := cache[k := v];
    }

    method Refresh(k: K) returns (v: V)
      requires Valid() && k in cache
      modifies this
      ensures Valid() && v == old(cache)[k] && cache == old(cache)
      ensures index == [k] + Without(old(index), k)
    {
      WithoutDistinct(index, k);
      WithoutMembers(index, k);
      ghost var i :| 0 <= i < |index| && index[i] == k;
      WithoutAt(index, i);
      index := [k] + Without(index, k);
      v := cache[k];
    }

    method RemoveOldest()
      requires Valid()
      modifies this
      ensures Valid()
      ensures index == if old(index) == [] then [] else old(index)[..|old(index)| - 1]
      ensures forall k :: k in cache ==> k in old(cache) && cache[k] == old(cache)[k]
    {
      if index != [] {
        var last := index[|index| - 1];
        assert index == index[..|index| - 1] + [last];
        cache := cache - {last};
        index := index[..|index| - 1];
      }
    }
  }

  /** The keys stored after an access trace. */
  function Stored<K(==)>(capacity: nat, trace: seq<K>): seq<K> {
    if trace == [] then []
    else AfterAccess(capacity, Stored(capacity, trace[..|trace| - 1]), trace[|trace| - 1])
  }

  lemma {:induction false} AccessTakes<K>(capacity: nat, r: seq<K>, k: K)
    requires Distinct(r)
    ensures AfterAccess(capacity, Take(AtLeastOne(capacity), r), k)
         == Take(AtLeastOne(capacity), [k] + Without(r, k))
  {
    var c := AtLeastOne(capacity);
    TakeAccessed(r, c, k);
    if k !in Take(c, r) {
      if |r| >= c {
        assert Take(c, r)[..c - 1] == Take(c - 1, r);
      } else {
        assert Take(c - 1, r) == r;
      }
    }
  }

  /** For any capacity and any trace, the cache holds the latest distinct keys in order of recency. */
  lemma {:induction false} StoresMostRecent<K>(capacity: nat, trace: seq<K>)
    ensures Stored(capacity, trace) == Take(AtLeastOne(capacity), Recent(trace))
    decreases |trace|
  {
    if trace != [] {
      StoresMostRecent(capacity, trace[..|trace| - 1]);
      RecentDistinct(trace[..|trace| - 1]);
      AccessTakes(capacity, Recent(trace[..|trace| - 1]), trace[|trace| - 1]);
    }
  }

  /** A key is cached exactly if fewer than capacity distinct keys were accessed since. */
  lemma {:induction false} CachedByDistance<K>(capacity: nat, trace: seq<K>, k: K)
    ensures k in Stored(capacity, trace) <==> k in trace && |Later(trace, k)| < AtLeastOne(capacity)
  {
    StoresMostRecent(capacity, trace);
    TakenByDistance(trace, AtLeastOne(capacity), k);
  }

  /** Inclusion: on the same trace a larger cache holds at least the keys of a smaller one. */
  lemma {:induction false} LargerCacheIncludes<K>(small: nat, large: nat, trace: seq<K>, k: K)
    requires small <= large && k in Stored(small, trace)
    ensures k in Stored(large, trace)
  {
    CachedByDistance(small, trace, k);
    CachedByDistance(large, trace, k);
  }

  // ---- memory of GBC packets ----

  lemma {:induction false} ReverseWithout<K>(s: seq<K>, k: K)
    ensures Without(Reverse(s), k) == Reverse(Without(s, k))
  {
    if s != [] {
      ReverseWithout(s[1..], k);
      WithoutConcat(Reverse(s[1..]), [s[0]], k);
      ReverseConcat([s[0]], Without(s[1..], k));
      assert Reverse([s[0]]) == [s[0]];
    }
  }

  /** How many of the oldest identifiers make room for a new one. */
  function Room(capacity: nat, size: nat): nat {
    if size >= capacity then (if capacity == 0 then size else size - capacity + 1) else 0
  }

  function AfterRemember<K(==)>(capacity: nat, queue: seq<K>, k: K): seq<K> {
    if k in queue then Without(queue, k) + [k] else queue[Room(capacity, |queue|)..] + [k]
  }

  function AfterResize<K>(queue: seq<K>, num: nat): seq<K> {
    var capacity := AtLeastOne(num);
    if |queue| > capacity then queue[|queue| - capacity..] else queue
  }

  class GbcMemory<K(==)> {
    var capacity: nat
    var queue: seq<K>

    ghost predicate Valid()
      reads this
    {
      capacity >= 1 && Distinct(queue)
    }

    constructor ()
      ensures Valid() && capacity == 1 && queue == []
    {
      capacity, queue := 1, [];
    }

    method Resize(num: nat)
      requires Valid()
      modifies this
      ensures Valid() && capacity == AtLeastOne(num)
      ensures queue == AfterResize(old(queue), num)
    {
      capacity := if num < 1 then 1 else num;
      ghost var k := 0;
      while |queue| > capacity
        invariant k <= |old(queue)| && queue == old(queue)[k..]
        invariant capacity == AtLeastOne(num) && (k > 0 ==> |queue| >= capacity)
        decreases |queue|
      {
        queue := queue[1..];
        k := k + 1;
      }
    }

    method Remember(k: K) returns (known: bool)
      requires Valid()
      modifies this
      ensures Valid() && capacity == old(capacity)
      ensures known == (k in old(queue))
      ensures queue == AfterRemember(capacity, old(queue), k)
    {
      known := k in queue;
      if !known {
        ghost var n := 0;
        while queue != [] && |queue| >= capacity
          invariant n <= |old(queue)| && queue == old(queue)[n..]
          invariant capacity == old(capacity) && (n > 0 ==> |queue| >= capacity - 1)
          decreases |queue|
        {
          queue := queue[1..];
          n := n + 1;
        }
        queue := queue + [k];
      } else {
        WithoutDistinct(queue, k);
        queue := Without(queue, k) + [k];
      }
    }
  }

  datatype Event<K> = Remember(k: K) | Resize(num: nat)

  // The queue, oldest first, and the capacity
  datatype Memory<K> = Memory(queue: seq<K>, capacity: nat)

  function Run<K(==)>(es: seq<Event<K>>): Memory<K> {
    if es == [] then Memory([], 1)
    else
      var m := Run(es[..|es| - 1]);
      match es[|es| - 1]
      case Remember(k) => Memory(AfterRemember(m.capacity, m.queue, k), m.capacity)
      case Resize(num) => Memory(AfterResize(m.queue, num), AtLeastOne(num))
  }

  /** The identifiers remembered so far, in order. */
  function Trace<K>(es: seq<Event<K>>): seq<K> {
    if es == [] then []
    else Trace(es[..|es| - 1]) + if es[|es| - 1].Remember? then [es[|es| - 1].k] else []
  }

  /** The queue is the newest part of the recency list, turned around. */
  ghost predicate Mirrors<K>(m: Memory<K>, r: seq<K>) {
    && m.capacity >= 1 && |m.queue| <= m.capacity && |m.queue| <= |r|
    && m.queue == Reverse(Take(|m.queue|, r))
  }

  lemma {:induction false} ReverseTake<K>(r: seq<K>, n: nat, k: nat)
    requires k <= n <= |r|
    ensures |Reverse(Take(n, r))| == n
    ensures Reverse(Take(n, r))[n - k..] == Reverse(Take(k, r))
  {
    ReverseMembers(Take(n, r));
    ReverseMembers(Take(k, r));
    assert Take(n, r) == Take(k, r) + r[k..n];
    ReverseConcat(Take(k, r), r[k..n]);
    ReverseMembers(r[k..n]);
  }

  lemma {:induction false} ReverseCons<K>(k: K, s: seq<K>)
    ensures Reverse([k] + s) == Reverse(s) + [k]
  {
    assert ([k] + s)[1..] == s;
  }

  lemma {:induction false} KnownMirrors<K>(m: Memory<K>, r: seq<K>, k: K)
    requires Mirrors(m, r) && Distinct(r) && k in m.queue
    ensures Mirrors(Memory(AfterRemember(m.capacity, m.queue, k), m.capacity), [k] + Without(r, k))
    ensures |AfterRemember(m.capacity, m.queue, k)| == |m.queue|
  {
    var n := |m.queue|;
    var t := Take(n, r);
    ReverseMembers(t);
    KnownMoves(t, k);
    TakeAccessed(r, n, k);
  }

  /** Moving a known key to the end of the queue moves it to the front of the mirrored keys. */
  lemma {:induction false} KnownMoves<K>(t: seq<K>, k: K)
    requires Distinct(t) && k in t
    ensures Without(Reverse(t), k) + [k] == Reverse([k] + Without(t, k))
    ensures |Without(Reverse(t), k)| == |Without(t, k)| == |t| - 1
  {
    ReverseWithout(t, k);
    ReverseCons(k, Without(t, k));
    var i :| 0 <= i < |t| && t[i] == k;
    WithoutAt(t, i);
    ReverseMembers(Without(t, k));
  }

  lemma {:induction false} NewMirrors<K>(m: Memory<K>, r: seq<K>, k: K)
    requires Mirrors(m, r) && Distinct(r) && k !in m.queue
    ensures Mirrors(Memory(AfterRemember(m.capacity, m.queue, k), m.capacity), [k] + Without(r, k))
    ensures |AfterRemember(m.capacity, m.queue, k)|
         == if |m.queue| == m.capacity then |m.queue| else |m.queue| + 1
  {
    var n := |m.queue|;
    var kept := if n == m.capacity then n - 1 else n;
    ReverseMembers(Take(n, r));
    ReverseTake(r, n, kept);
    ReverseCons(k, Take(kept, r));
    TakenBelow(r, kept, k);
  }

  /** A key that is not among the first n goes to the front of the first n. */
  lemma {:induction false} TakenBelow<K>(r: seq<K>, n: nat, k: K)
    requires Distinct(r) && n <= |r| && k !in Take(n, r)
    ensures Take(n + 1, [k] + Without(r, k)) == [k] + Take(n, r)
    ensures |[k] + Without(r, k)| >= n + 1
  {
    var t := Take(n, r);
    assert r == t + r[n..];
    WithoutConcat(t, r[n..], k);
    WithoutAbsent(t, k);
  }

  lemma {:induction false} ResizeMirrors<K>(m: Memory<K>, r: seq<K>, num: nat)
    requires Mirrors(m, r)
    ensures Mirrors(Memory(AfterResize(m.queue, num), AtLeastOne(num)), r)
  {
    if |m.queue| > AtLeastOne(num) {
      ReverseTake(r, |m.queue|, AtLeastOne(num));
    }
  }

  /** However capacities change, the memory is the newest part of the recency list. */
  lemma {:induction false} MemoryMirrorsRecency<K>(es: seq<Event<K>>)
    ensures Mirrors(Run(es), Recent(Trace(es)))
    decreases |es|
  {
    if es != [] {
      var before, e := es[..|es| - 1], es[|es| - 1];
      MemoryMirrorsRecency(before);
      RecentDistinct(Trace(before));
      match e
      case Remember(k) =>
        RecentAppend(Trace(before), k);
        if k in Run(before).queue {
          KnownMirrors(Run(before), Recent(Trace(before)), k);
        } else {
          NewMirrors(Run(before), Recent(Trace(before)), k);
        }
      case Resize(num) =>
        assert Trace(es) == Trace(before);
        ResizeMirrors(Run(before), Recent(Trace(before)), num);
    }
  }

  /** The memory had room for c identifiers whenever one was remembered, and still has. */
  ghost predicate Roomy<K>(es: seq<Event<K>>, c: nat) {
    es == [] ||
    (Roomy(es[..|es| - 1], c) && (if es[|es| - 1].Resize? then AtLeastOne(es[|es| - 1].num) >= c
                                  else Run(es[..|es| - 1]).capacity >= c))
  }

  /** With room for c identifiers throughout, the c latest ones are known. */
  lemma {:induction false} RoomyKeeps<K>(es: seq<Event<K>>, c: nat)
    requires Roomy(es, c)
    ensures |Run(es).queue| >= |Take(c, Recent(Trace(es)))|
    decreases |es|
  {
    if es != [] {
      var before, e := es[..|es| - 1], es[|es| - 1];
      var m, r := Run(before), Recent(Trace(before));
      RoomyKeeps(before, c);
      MemoryMirrorsRecency(before);
      RecentDistinct(Trace(before));
      match e
      case Remember(k) =>
        RecentAppend(Trace(before), k);
        RememberFills(m, r, k, c);
      case Resize(num) =>
        assert Trace(es) == Trace(before);
    }
  }

  lemma {:induction false} RememberFills<K>(m: Memory<K>, r: seq<K>, k: K, c: nat)
    requires Mirrors(m, r) && Distinct(r) && m.capacity >= c && |m.queue| >= |Take(c, r)|
    ensures |AfterRemember(m.capacity, m.queue, k)| >= |Take(c, [k] + Without(r, k))|
  {
    if k in m.queue {
      KnownMirrors(m, r, k);
      KnownSize(m, r, k);
    } else {
      NewMirrors(m, r, k);
      NewSize(m, r, k, c);
    }
  }

  lemma {:induction false} KnownSize<K>(m: Memory<K>, r: seq<K>, k: K)
    requires Mirrors(m, r) && Distinct(r) && k in m.queue
    ensures |[k] + Without(r, k)| == |r|
  {
    ReverseMembers(Take(|m.queue|, r));
    var i :| 0 <= i < |Take(|m.queue|, r)| && Take(|m.queue|, r)[i] == k;
    assert r[i] == k;
    WithoutAt(r, i);
  }

  lemma {:induction false} NewSize<K>(m: Memory<K>, r: seq<K>, k: K, c: nat)
    requires Mirrors(m, r) && Distinct(r) && k !in m.queue && |m.queue| >= |Take(c, r)|
    ensures |[k] + Without(r, k)| == |r| + 1 || (|[k] + Without(r, k)| == |r| && |m.queue| < |r|)
  {
    if k in r {
      ReverseMembers(Take(|m.queue|, r));
      var i :| 0 <= i < |r| && r[i] == k;
      WithoutAt(r, i);
      assert Take(|r|, r) == r;
    } else {
      WithoutAbsent(r, k);
    }
  }

  /** With a capacity of c throughout, an identifier is known exactly if fewer than c others came after it. */
  lemma {:induction false} KnownByDistance<K>(es: seq<Event<K>>, c: nat, k: K)
    requires Roomy(es, c) && Run(es).capacity == c
    ensures k in Run(es).queue <==> k in Trace(es) && |Later(Trace(es), k)| < c
  {
    var m, r := Run(es), Recent(Trace(es));
    MemoryMirrorsRecency(es);
    RoomyKeeps(es, c);
    assert Take(|m.queue|, r) == Take(c, r);
    ReverseMembers(Take(c, r));
    TakenByDistance(Trace(es), c, k);
  }
}
