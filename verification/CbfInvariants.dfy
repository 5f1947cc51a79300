/**
 What every operation on the CBF buffer keeps, and when its one scheduled callback is on time.
 */
module CbfInvariants {
  import opened DueList
  import opened ManualRuntimes
  import opened CbfBuffers
  import opened CbfViews

  /** The containers agree, the byte count is exact and only a lone packet may exceed the capacity. */
  ghost predicate StoreInv(c: Config, w: World) {
    && Linked(w.packets, w.timers)
    && Ordered(w.timers)
    && w.stored == Bytes(w.packets)
    && (w.stored <= c.capacity || |w.packets| == 1)
  }

  /** At most one callback of the buffer is pending. */
  ghost predicate QueueInv(c: Config, w: World) {
    && c.scope != NO_SCOPE
    && Ordered(w.queue)
    && Pending(w.queue, c.scope) <= 1
  }

  /** A buffer that is not empty has exactly one pending callback. */
  ghost predicate Inv(c: Config, w: World) {
    && StoreInv(c, w)
    && QueueInv(c, w)
    && (w.timers != [] ==> Pending(w.queue, c.scope) == 1)
  }

  /** The pending callback is due no later than the earliest expiry. */
  ghost predicate Timely(c: Config, w: World) {
    forall e, t :: e in w.queue && e.what == c.scope && t in w.timers ==> e.at <= t.at
  }

  /** The callback fires when the clock reaches t. */
  ghost predicate DueBy(c: Config, w: World, t: int) {
    exists e :: e in w.queue && e.what == c.scope && e.at <= t
  }

  // ---- timers and the view ----

  lemma {:induction false} TimerInView(w: World, t: Due<Timer>)
    requires Linked(w.packets, w.timers)
    ensures t in w.timers <==>
              View(w, t.what.id).Some? && View(w, t.what.id).value.expiry == t.at
              && View(w, t.what.id).value.start == t.what.start
  {
    ViewDomain(w, t.what.id);
    if t in w.timers {
      var j :| 0 <= j < |w.timers| && w.timers[j] == t;
      ViewAt(w, j);
    }
  }

  /** The timers before the upper bound of now are those of the expired entries. */
  lemma {:induction false} ExpiredPrefix(w: World, x: Id)
    requires Linked(w.packets, w.timers) && Ordered(w.timers)
    ensures TimerCount(w.timers[..UpperBound(w.timers, w.now)], x) > 0
       <==> View(w, x).Some? && View(w, x).value.expiry <= w.now
  {
    ExpiredTimers(w.timers, w.now, x);
    assert PacketCount(w.packets, x) == TimerCount(w.timers, x);
  }

  lemma {:induction false} ExpiredTimers(ts: seq<Due<Timer>>, now: int, x: Id)
    requires Ordered(ts)
    ensures TimerCount(ts[..UpperBound(ts, now)], x) > 0 <==> TimerOf(ts, x).Some? && TimerOf(ts, x).value.at <= now
  {
    var k := UpperBound(ts, now);
    SplitByTime(ts, now, k);
    EarlyBeforeLate(ts, ts[..k], ts[k..], now, x);
  }

  ghost predicate Splits(ts: seq<Due<Timer>>, a: seq<Due<Timer>>, b: seq<Due<Timer>>, now: int) {
    ts == a + b && (forall t :: t in a ==> t.at <= now) && forall t :: t in b ==> t.at > now
  }

  lemma {:induction false} SplitByTime(ts: seq<Due<Timer>>, now: int, k: nat)
    requires Ordered(ts) && k == UpperBound(ts, now)
    ensures Splits(ts, ts[..k], ts[k..], now)
  {
  }

  lemma {:induction false} EarlyBeforeLate(ts: seq<Due<Timer>>, a: seq<Due<Timer>>, b: seq<Due<Timer>>, now: int, x: Id)
    requires Splits(ts, a, b, now)
    ensures TimerCount(a, x) > 0 <==> TimerOf(ts, x).Some? && TimerOf(ts, x).value.at <= now
  {
    TimerOfConcat(a, b, x);
  }

  // ---- scheduling ----

  lemma {:induction false} RearmedQueue(q: Queue, scope: nat, at: int)
    requires Ordered(q) && scope != NO_SCOPE
    ensures var r := Insert(Cancel(q, scope), Due(at, scope));
            && Ordered(r)
            && Pending(r, scope) == 1
            && (forall e :: e in r && e.what == scope ==> e == Due(at, scope))
            && (forall e: Due<nat> :: e.what != scope ==> (e in r <==> e in q))
  {
    var k := Cancel(q, scope);
    var d := Due(at, scope);
    WithoutKeepsOrder(q, scope);
    InsertKeepsOrder(k, d);
    PendingRearmed(q, scope, at);
    InsertMembers(k, d);
  }

  lemma {:induction false} PendingRearmed(q: Queue, scope: nat, at: int)
    requires scope != NO_SCOPE
    ensures Pending(Insert(Cancel(q, scope), Due(at, scope)), scope) == 1
  {
    PendingWithout(q, scope, scope);
    PendingInsert(Cancel(q, scope), Due(at, scope), scope);
  }

  lemma {:induction false} RemoveMembers<T>(s: seq<T>, i: nat)
    requires i < |s|
    ensures forall e :: e in RemoveAt(s, i) ==> e in s
  {
  }

  /** Rescheduling arms the callback for the earliest expiry. */
  lemma {:induction false} ScheduleArms(c: Config, w: World)
    requires StoreInv(c, w) && c.scope != NO_SCOPE && Ordered(w.queue) && w.timers != []
    ensures Inv(c, AfterSchedule(c, w)) && Timely(c, AfterSchedule(c, w))
    ensures forall e :: e in AfterSchedule(c, w).queue && e.what == c.scope ==> e.at == w.timers[0].at
  {
    RearmedQueue(w.queue, c.scope, w.timers[0].at);
  }

  // ---- removing one packet ----

  lemma {:induction false} UnlinkStore(c: Config, w: World, i: nat, j: nat, fate: Fate)
    requires Linked(w.packets, w.timers) && Ordered(w.timers) && i < |w.packets| && j < |w.timers|
    requires w.packets[i].id == w.timers[j].what.id
    ensures var r := Unlink(c, w, i, j, fate);
            && Ordered(r.timers)
            && r.stored - Bytes(r.packets) == w.stored - Bytes(w.packets)
            && r.stored <= w.stored
            && |r.packets| == |w.packets| - 1
            && (forall t :: t in r.timers ==> t in w.timers)
  {
    BytesRemove(w.packets, i);
    RemoveKeepsOrder(w.timers, j);
    RemoveMembers(w.timers, j);
  }

  /** Removing a packet keeps the invariant and never makes the callback late. */
  lemma {:induction false} TakeKeeps(c: Config, w: World, j: nat, fate: Fate)
    requires Inv(c, w) && j < |w.timers|
    ensures Inv(c, Take(c, w, j, fate))
    ensures Timely(c, w) ==> Timely(c, Take(c, w, j, fate))
  {
    var i := Slot(w, j);
    var r := Unlink(c, w, i, j, fate);
    UnlinkStore(c, w, i, j, fate);
    if j == 0 && r.timers != [] {
      ScheduleArms(c, r);
    }
  }

  // ---- head drop and insertion ----

  lemma {:induction false} DropManyOrder(c: Config, w: World, k: nat)
    requires Linked(w.packets, w.timers) && Ordered(w.timers) && k <= |w.packets|
    ensures Ordered(DropMany(c, w, k).timers)
    ensures forall t :: t in DropMany(c, w, k).timers ==> t in w.timers
    decreases k
  {
    if k > 0 {
      DropManyOrder(c, w, k - 1);
      var d := DropMany(c, w, k - 1);
      DropFrontOrder(c, d);
    }
  }

  lemma {:induction false} DropFrontOrder(c: Config, w: World)
    requires Linked(w.packets, w.timers) && Ordered(w.timers) && w.packets != []
    ensures Ordered(DropFront(c, w).timers)
    ensures forall t :: t in DropFront(c, w).timers ==> t in w.timers
  {
    var p := w.packets[0];
    LinkedIndices(w.packets, w.timers, p.id);
    UnlinkStore(c, w, 0, TimerIndex(w.timers, p.id), Fate(HeadDropped, p, w.now));
  }

  /** After head drop the new length is counted and fits, unless nothing is left to drop. */
  lemma {:induction false} HeadDropStore(c: Config, w: World, extra: nat)
    requires Linked(w.packets, w.timers) && Ordered(w.timers)
    requires w.stored == Bytes(w.packets) + extra
    ensures var r := HeadDrop(c, w, extra);
            && Ordered(r.timers)
            && r.stored == Bytes(r.packets) + extra
            && (r.stored <= c.capacity || r.packets == [])
            && r.queue == w.queue && r.now == w.now
            && (forall t :: t in r.timers ==> t in w.timers)
  {
    var k := DropCount(c.capacity, w.packets, extra);
    DropManyOrder(c, w, k);
    DropManyBytes(c, w, k);
  }

  lemma {:induction false} AppendStore(c: Config, w: World, p: Packet, timeout: int)
    requires Linked(w.packets, w.timers) && Ordered(w.timers) && TimerCount(w.timers, p.id) == 0
    requires w.stored == Bytes(w.packets) + p.length
    requires w.stored <= c.capacity || w.packets == []
    ensures StoreInv(c, Append(c, w, p, timeout))
    ensures forall t :: t in Append(c, w, p, timeout).timers
                   <==> t in w.timers || t == Due(w.now + timeout, Timer(p.id, w.now))
  {
    var d := Due(w.now + timeout, Timer(p.id, w.now));
    BytesAppend(w.packets, p);
    InsertKeepsOrder(w.timers, d);
    InsertMembers(w.timers, d);
    AppendParts(c, w, p, timeout, d, Append(c, w, p, timeout));
  }

  lemma {:induction false} StoreKeeps(c: Config, w: World, p: Packet, timeout: int)
    requires Linked(w.packets, w.timers) && Ordered(w.timers)
    requires w.stored == Bytes(w.packets) + p.length
    requires w.stored <= c.capacity || w.packets == []
    ensures StoreInv(c, AfterStore(c, w, p, timeout))
    ensures AfterStore(c, w, p, timeout).queue == w.queue
    ensures forall t :: t in AfterStore(c, w, p, timeout).timers ==>
                          t in w.timers || (t.what.id == p.id && TimerCount(w.timers, p.id) == 0)
  {
    if TimerIndex(w.timers, p.id) == |w.timers| {
      AppendStore(c, w, p, timeout);
    } else {
      LinkedIndices(w.packets, w.timers, p.id);
    }
  }

  /** If the first timer is said to be unchanged, its expiry is unchanged. */
  lemma {:induction false} SameFirst(c: Config, w: World, kept: World, p: Packet, timeout: int)
    requires Linked(w.packets, w.timers)
    requires Linked(kept.packets, kept.timers) && Ordered(kept.timers)
    requires forall t :: t in kept.timers ==> t in w.timers
    requires kept.stored == Bytes(kept.packets) + p.length
    requires kept.stored <= c.capacity || kept.packets == []
    requires !FirstChanged(w.timers, kept.timers, AfterStore(c, kept, p, timeout).timers)
    ensures w.timers != [] && AfterStore(c, kept, p, timeout).timers[0] == w.timers[0]
  {
    StoreKeeps(c, kept, p, timeout);
    var first := AfterStore(c, kept, p, timeout).timers[0];
    var x := w.timers[0].what.id;
    TimerCounted(kept.timers, 0);
    assert first in kept.timers;
    TimerInView(w, first);
    TimerInView(w, w.timers[0]);
  }

  /** What head drop leaves of w to make room for p, whose length is already counted. */
  ghost predicate RoomFor(c: Config, w: World, kept: World, p: Packet) {
    && Linked(kept.packets, kept.timers) && Ordered(kept.timers)
    && kept.stored == Bytes(kept.packets) + p.length
    && (kept.stored <= c.capacity || kept.packets == [])
    && kept.queue == w.queue && kept.now == w.now
    && (forall t :: t in kept.timers ==> t in w.timers)
  }

  lemma {:induction false} RoomIsMade(c: Config, w: World, p: Packet, counted: World)
    requires StoreInv(c, w) && counted == Counting(w, p)
    ensures RoomFor(c, w, HeadDrop(c, counted, p.length), p)
  {
    HeadDropStore(c, counted, p.length);
  }

  /** The invariant, and a callback that is on time if it was in w. */
  ghost predicate KeepsAll(c: Config, w: World, r: World) {
    Inv(c, r) && (Timely(c, w) ==> Timely(c, r))
  }

  lemma {:induction false} StoredKeeps(c: Config, w: World, kept: World, p: Packet, timeout: int, next: World)
    requires Inv(c, w) && RoomFor(c, w, kept, p) && next == AfterStore(c, kept, p, timeout)
    requires !FirstChanged(w.timers, kept.timers, next.timers)
    ensures KeepsAll(c, w, next)
  {
    StoreKeeps(c, kept, p, timeout);
    SameFirst(c, w, kept, p, timeout);
  }

  lemma {:induction false} RearmedKeeps(c: Config, w: World, kept: World, p: Packet, timeout: int, next: World)
    requires Inv(c, w) && RoomFor(c, w, kept, p) && next == AfterStore(c, kept, p, timeout)
    ensures KeepsAll(c, w, AfterSchedule(c, next))
  {
    StoreKeeps(c, kept, p, timeout);
    ScheduleArms(c, next);
  }

  lemma {:induction false} AfterDropKeeps(c: Config, w: World, kept: World, p: Packet, timeout: int)
    requires Inv(c, w) && RoomFor(c, w, kept, p)
    ensures KeepsAll(c, w, AfterDrop(c, w.timers, kept, p, timeout))
  {
    var next := AfterStore(c, kept, p, timeout);
    if FirstChanged(w.timers, kept.timers, next.timers) {
      RearmedKeeps(c, w, kept, p, timeout, next);
    } else {
      StoredKeeps(c, w, kept, p, timeout, next);
    }
  }

  lemma {:induction false} RefusedKeeps(c: Config, w: World, r: World)
    requires Inv(c, w) && r == w.(log := r.log)
    ensures KeepsAll(c, w, r)
  {
  }

  /** Adding a packet keeps the invariant and never makes the callback late. */
  lemma {:induction false} AddKeeps(c: Config, w: World, p: Packet, timeout: int)
    requires Inv(c, w)
    ensures Inv(c, AfterAdd(c, w, p, timeout))
    ensures Timely(c, w) ==> Timely(c, AfterAdd(c, w, p, timeout))
  {
    if timeout > 0 {
      var counted := Counting(w, p);
      RoomIsMade(c, w, p, counted);
      AddInStages(c, w, p, timeout, counted);
      AfterDropKeeps(c, w, HeadDrop(c, counted, p.length), p, timeout);
    } else {
      RefusedKeeps(c, w, AfterAdd(c, w, p, timeout));
    }
  }

  // ---- update ----

  /** An update keeps the invariant, whatever its timeout. */
  lemma {:induction false} UpdateKeeps(c: Config, w: World, id: Id, timeout: int)
    requires Inv(c, w)
    ensures Inv(c, AfterUpdate(c, w, id, timeout))
  {
    var j := TimerIndex(w.timers, id);
    if j < |w.timers| {
      RestartKeeps(c, w, j, timeout);
    }
  }

  lemma {:induction false} RestartKeeps(c: Config, w: World, j: nat, timeout: int)
    requires StoreInv(c, w) && j < |w.timers|
    ensures StoreInv(c, Restart(w, j, timeout))
    ensures Restart(w, j, timeout).queue == w.queue
  {
    RestartBytes(w, j, timeout);
    RestartOrder(w, j, timeout);
  }

  lemma {:induction false} RestartBytes(w: World, j: nat, timeout: int)
    requires Linked(w.packets, w.timers) && j < |w.timers|
    ensures Bytes(Restart(w, j, timeout).packets) == Bytes(w.packets)
  {
    BytesReplace(w.packets, Slot(w, j), Leaving(w, j));
  }

  lemma {:induction false} RestartedTimers(w: World, j: nat, timeout: int)
    requires Linked(w.packets, w.timers) && j < |w.timers|
    ensures Restart(w, j, timeout).timers
         == Insert(RemoveAt(w.timers, j), Due(w.now + timeout, Timer(w.timers[j].what.id, w.now)))
  {
  }

  lemma {:induction false} RestartOrder(w: World, j: nat, timeout: int)
    requires Linked(w.packets, w.timers) && Ordered(w.timers) && j < |w.timers|
    ensures Ordered(Restart(w, j, timeout).timers)
  {
    RestartedTimers(w, j, timeout);
    Reinserted(w.timers, j, Due(w.now + timeout, Timer(w.timers[j].what.id, w.now)));
  }

  lemma {:induction false} RestartTimers(w: World, j: nat, timeout: int)
    requires Linked(w.packets, w.timers) && Ordered(w.timers) && j < |w.timers|
    ensures forall t :: t in Restart(w, j, timeout).timers
                   <==> t in RemoveAt(w.timers, j) || t == Due(w.now + timeout, Timer(w.timers[j].what.id, w.now))
  {
    RestartedTimers(w, j, timeout);
    Reinserted(w.timers, j, Due(w.now + timeout, Timer(w.timers[j].what.id, w.now)));
  }

  lemma {:induction false} Reinserted(ts: seq<Due<Timer>>, j: nat, d: Due<Timer>)
    requires Ordered(ts) && j < |ts|
    ensures Ordered(Insert(RemoveAt(ts, j), d))
    ensures forall t :: t in Insert(RemoveAt(ts, j), d) <==> t in RemoveAt(ts, j) || t == d
  {
    RemoveKeepsOrder(ts, j);
    InsertKeepsOrder(RemoveAt(ts, j), d);
    InsertMembers(RemoveAt(ts, j), d);
  }

  /** An update leaves the callback on time exactly when it does not expire before the callback. */
  lemma {:induction false} UpdateTimely(c: Config, w: World, id: Id, timeout: int)
    requires Inv(c, w) && Timely(c, w) && View(w, id).Some?
    ensures Timely(c, AfterUpdate(c, w, id, timeout))
       <==> forall e :: e in w.queue && e.what == c.scope ==> e.at <= w.now + timeout
  {
    var j := TimerIndex(w.timers, id);
    RestartTimers(w, j, timeout);
    RemoveMembers(w.timers, j);
    var r := AfterUpdate(c, w, id, timeout);
    var d := Due(w.now + timeout, Timer(id, w.now));
    assert d in r.timers;
    if Timely(c, r) {
      forall e | e in w.queue && e.what == c.scope ensures e.at <= w.now + timeout {
        assert e.at <= d.at;
      }
    }
  }

  // ---- flush and trigger ----

  /** The world without its callback queue. */
  function Core(w: World): World {
    w.(queue := [])
  }

  /** The world after the packets expired by now have been handed out. */
  function Flushed(c: Config, w: World): World
    requires Linked(w.packets, w.timers)
  {
    HandOutMany(c, w, UpperBound(w.timers, w.now))
  }

  lemma {:induction false} FlushedStore(c: Config, w: World)
    requires StoreInv(c, w)
    ensures StoreInv(c, Flushed(c, w))
  {
    HandOutBytes(c, w, UpperBound(w.timers, w.now));
  }

  lemma {:induction false} LaterMembers<T>(s: seq<Due<T>>, t: int)
    requires Ordered(s)
    ensures forall d :: d in s[UpperBound(s, t)..] <==> d in s && d.at > t
  {
    var k := UpperBound(s, t);
    forall d | d in s && d.at > t ensures d in s[k..] {
      var i :| 0 <= i < |s| && s[i] == d;
      assert s[k..][i - k] == d;
    }
    forall d | d in s[k..] ensures d in s && d.at > t {
      var i :| 0 <= i < |s| - k && s[k..][i] == d;
      assert s[k].at <= s[k + i].at;
    }
  }

  /** Exactly the timers that have not expired are left. */
  lemma {:induction false} FlushedTimers(c: Config, w: World)
    requires StoreInv(c, w)
    ensures forall t :: t in Flushed(c, w).timers <==> t in w.timers && t.at > w.now
  {
    LaterMembers(w.timers, w.now);
  }

  /** The callback hands out what has expired and arms itself for the earliest expiry that is left. */
  lemma {:induction false} FlushArms(c: Config, w: World)
    requires StoreInv(c, w) && QueueInv(c, w) && Pending(w.queue, c.scope) == 0
    ensures Inv(c, AfterFlush(c, w)) && Timely(c, AfterFlush(c, w))
    ensures Core(AfterFlush(c, w)) == Flushed(c, Core(w))
    ensures !DueBy(c, AfterFlush(c, w), w.now)
  {
    var r := Flushed(c, w);
    HandOutIgnoresQueue(c, w, UpperBound(w.timers, w.now));
    FlushedStore(c, w);
    FlushedTimers(c, w);
    PendingPositive(w.queue, c.scope);
    if r.timers != [] {
      ScheduleArms(c, r);
      assert r.timers[0] in r.timers;
    }
  }

  lemma {:induction false} PopFront(q: Queue, scope: nat)
    requires Ordered(q) && q != []
    ensures Ordered(q[1..])
    ensures Pending(q[1..], scope) == Pending(q, scope) - if q[0].what == scope then 1 else 0
    ensures forall e :: e in q <==> e == q[0] || e in q[1..]
  {
    assert q == [q[0]] + q[1..];
  }

  lemma {:induction false} HandOutIgnoresQueue(c: Config, w: World, k: nat)
    requires Linked(w.packets, w.timers) && k <= |w.timers|
    ensures HandOutMany(c, Core(w), k) == Core(HandOutMany(c, w, k))
    decreases k
  {
    if k > 0 {
      HandOutIgnoresQueue(c, w, k - 1);
      HandOutFirstCore(c, HandOutMany(c, w, k - 1));
    }
  }

  lemma {:induction false} HandOutFirstCore(c: Config, w: World)
    requires Linked(w.packets, w.timers) && w.timers != []
    ensures HandOut(c, Core(w)) == Core(HandOut(c, w))
  {
    assert Slot(Core(w), 0) == Slot(w, 0);
  }

  /**
   What a run of the trigger loop amounts to: if the callback is due, exactly the expired packets
   are handed out; otherwise no packet moves.  Afterwards nothing in the queue is due.
   */
  lemma {:induction false} FireExact(c: Config, w: World)
    requires Inv(c, w)
    ensures Inv(c, Fire(c, w))
    ensures forall e :: e in Fire(c, w).queue ==> e.at > w.now
    ensures Core(Fire(c, w)) == if DueBy(c, w, w.now) then Flushed(c, Core(w)) else Core(w)
    ensures DueBy(c, w, w.now) || Timely(c, w) ==> Timely(c, Fire(c, w))
    decreases DueCount(w.queue, w.now)
  {
    if w.queue != [] && w.queue[0].at <= w.now {
      if w.queue[0].what == c.scope {
        FireCallback(c, w);
      } else {
        var popped := w.(queue := w.queue[1..]);
        PopForeign(c, w, popped);
        FireExact(c, popped);
      }
    }
  }

  lemma {:induction false} PopForeign(c: Config, w: World, popped: World)
    requires Inv(c, w) && w.queue != [] && w.queue[0].what != c.scope && popped == w.(queue := w.queue[1..])
    ensures Inv(c, popped) && (Timely(c, w) ==> Timely(c, popped))
    ensures DueBy(c, popped, w.now) == DueBy(c, w, w.now) && Core(popped) == Core(w)
  {
    PopFront(w.queue, c.scope);
  }

  lemma {:induction false} FireCallback(c: Config, w: World)
    requires Inv(c, w) && w.queue != [] && w.queue[0].at <= w.now && w.queue[0].what == c.scope
    ensures Inv(c, Fire(c, w)) && Timely(c, Fire(c, w))
    ensures forall e :: e in Fire(c, w).queue ==> e.at > w.now
    ensures Core(Fire(c, w)) == Flushed(c, Core(w))
    decreases DueCount(w.queue, w.now), 0
  {
    var popped := w.(queue := w.queue[1..]);
    PopFront(w.queue, c.scope);
    FlushQueue(c, popped);
    FlushArms(c, popped);
    FireExact(c, AfterFlush(c, popped));
    assert Core(popped) == Core(w);
  }
}
