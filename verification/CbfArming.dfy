/**
 When the one callback of a CBF buffer is due: after removing or fetching the first packet to expire
 it is due exactly when the next one expires, and so it is throughout every run without updates.
 */
module CbfArming {
  import opened Options
  import opened DueList
  import opened ManualRuntimes
  import opened CbfBuffers
  import opened CbfViews
  import opened CbfInvariants
  import opened CbfRuns
  import opened CbfHistory

  /** The smallest expiry of the buffered packets. */
  ghost predicate Earliest(w: World, t: int) {
    && (exists x :: View(w, x).Some? && View(w, x).value.expiry == t)
    && (forall x :: View(w, x).Some? ==> t <= View(w, x).value.expiry)
  }

  /** Exactly one callback of the buffer is pending, and it is due at t. */
  ghost predicate ArmedAt(c: Config, w: World, t: int) {
    Pending(w.queue, c.scope) == 1 && forall e :: e in w.queue && e.what == c.scope ==> e.at == t
  }

  /** The callback of a buffer that is not empty is due exactly at its earliest expiry. */
  ghost predicate Exact(c: Config, w: World) {
    w.timers != [] ==> ArmedAt(c, w, w.timers[0].at)
  }

  /** The callbacks of other components are the same. */
  ghost predicate OthersStay(c: Config, w: World, r: World) {
    forall e: Due<nat> :: e.what != c.scope ==> (e in r.queue <==> e in w.queue)
  }

  lemma {:induction false} FirstIsEarliest(w: World)
    requires Linked(w.packets, w.timers) && Ordered(w.timers) && w.timers != []
    ensures Earliest(w, w.timers[0].at)
  {
    ViewAt(w, 0);
    forall x | View(w, x).Some? ensures w.timers[0].at <= View(w, x).value.expiry {
      ViewDomain(w, x);
      var t :| t in w.timers && t == Due(View(w, x).value.expiry, Timer(x, View(w, x).value.start));
    }
  }

  // ---- removing and fetching ----

  /** The identifier is the first one to expire. */
  predicate IsFirst(w: World, id: Id) {
    w.timers != [] && w.timers[0].what.id == id
  }

  /** The first one has the earliest expiry, and an identifier that expires before all others is the first one. */
  lemma {:induction false} FirstToExpire(w: World, id: Id)
    requires Linked(w.packets, w.timers) && Ordered(w.timers) && View(w, id).Some?
    ensures IsFirst(w, id) ==> Earliest(w, View(w, id).value.expiry)
    ensures (forall x :: x != id && View(w, x).Some? ==> View(w, id).value.expiry < View(w, x).value.expiry)
        ==> IsFirst(w, id)
  {
    ViewDomain(w, id);
    FirstIsEarliest(w);
    ViewAt(w, 0);
  }

  /** What a removal does to the callbacks. */
  ghost predicate Rearms(c: Config, w: World, id: Id, r: World) {
    && OthersStay(c, w, r)
    && (if IsFirst(w, id) && |w.packets| > 1 then exists t :: Earliest(r, t) && ArmedAt(c, r, t)
        else r.queue == w.queue)
  }

  lemma {:induction false} ScheduleRearms(c: Config, w: World)
    requires StoreInv(c, w) && c.scope != NO_SCOPE && Ordered(w.queue) && w.timers != []
    ensures ArmedAt(c, AfterSchedule(c, w), w.timers[0].at) && OthersStay(c, w, AfterSchedule(c, w))
  {
    RearmedQueue(w.queue, c.scope, w.timers[0].at);
  }

  lemma {:induction false} TakenStore(c: Config, w: World, j: nat, fate: Fate, r: World)
    requires Inv(c, w) && j < |w.timers| && r == Unlink(c, w, Slot(w, j), j, fate)
    ensures StoreInv(c, r) && r.queue == w.queue && r.timers == RemoveAt(w.timers, j)
  {
    UnlinkStore(c, w, Slot(w, j), j, fate);
  }

  lemma {:induction false} TakeRearms(c: Config, w: World, j: nat, fate: Fate)
    requires Inv(c, w) && j < |w.timers|
    ensures var r := Take(c, w, j, fate);
      && OthersStay(c, w, r)
      && (j == 0 && |w.timers| > 1 ==> r.timers == w.timers[1..] && ArmedAt(c, r, w.timers[1].at))
      && (j > 0 || |w.timers| == 1 ==> r.queue == w.queue)
  {
    var r := Unlink(c, w, Slot(w, j), j, fate);
    TakenStore(c, w, j, fate, r);
    if j == 0 && r.timers != [] {
      ScheduleRearms(c, r);
    }
  }

  lemma {:induction false} TakenRearms(c: Config, w: World, id: Id, j: nat, fate: Fate)
    requires Inv(c, w) && j == TimerIndex(w.timers, id) < |w.timers|
    ensures Rearms(c, w, id, Take(c, w, j, fate))
  {
    TakeRearms(c, w, j, fate);
    TakeKeeps(c, w, j, fate);
    LinkedSize(w.packets, w.timers);
    FirstIndex(w.timers, id);
    var r := Take(c, w, j, fate);
    if j == 0 && |w.timers| > 1 {
      FirstIsEarliest(r);
    }
  }

  lemma {:induction false} FirstIndex(ts: seq<Due<Timer>>, id: Id)
    requires ts != []
    ensures TimerIndex(ts, id) == 0 <==> ts[0].what.id == id
  {
  }

  /**
   Removing the first packet to expire leaves the callback due exactly when the next one expires,
   on time or not before; every other removal leaves the callbacks alone.
   */
  lemma {:induction false} RemoveRearms(c: Config, w: World, id: Id)
    requires Inv(c, w)
    ensures Rearms(c, w, id, AfterRemove(c, w, id))
  {
    var j := TimerIndex(w.timers, id);
    if j < |w.timers| {
      TakenRearms(c, w, id, j, Fate(Removed, w.packets[Slot(w, j)], w.now));
    } else {
      UnknownIsNotFirst(w, id);
    }
  }

  lemma {:induction false} UnknownIsNotFirst(w: World, id: Id)
    requires TimerIndex(w.timers, id) == |w.timers|
    ensures !IsFirst(w, id)
  {
  }

  /** So does fetching it. */
  lemma {:induction false} FetchRearms(c: Config, w: World, id: Id)
    requires Inv(c, w)
    ensures Rearms(c, w, id, AfterFetch(c, w, id).0)
  {
    var j := TimerIndex(w.timers, id);
    if j < |w.timers| {
      var p := Leaving(w, j);
      TakenRearms(c, w, id, j, Fate(if p.lifetime > 0 then Fetched else Expired, p, w.now));
    } else {
      UnknownIsNotFirst(w, id);
    }
  }

  // ---- adding ----

  /** The first packet to expire is neither dropped to make room for p nor overtaken by it. */
  predicate FirstStays(c: Config, w: World, p: Packet, r: World) {
    w.timers != [] && !MakesRoom(c, w, p, w.timers[0].what.id) && IsFirst(r, w.timers[0].what.id)
  }

  lemma {:induction false} DropFrontFirst(c: Config, w: World)
    requires Linked(w.packets, w.timers) && w.packets != [] && w.timers != []
    ensures w.packets[0].id != w.timers[0].what.id ==>
      DropFront(c, w).timers != [] && DropFront(c, w).timers[0] == w.timers[0]
  {
    var id := w.packets[0].id;
    LinkedIndices(w.packets, w.timers, id);
    FirstIndex(w.timers, id);
  }

  lemma {:induction false} DropManyFirst(c: Config, w: World, k: nat)
    requires Linked(w.packets, w.timers) && k <= |w.packets| && w.timers != []
    requires PacketCount(w.packets[..k], w.timers[0].what.id) == 0
    ensures DropMany(c, w, k).timers != [] && DropMany(c, w, k).timers[0] == w.timers[0]
    decreases k
  {
    if k > 0 {
      PacketCountTake(w.packets, k, w.timers[0].what.id);
      DropManyFirst(c, w, k - 1);
      DropFrontFirst(c, DropMany(c, w, k - 1));
    }
  }

  /** Head drop leaves the first timer in front exactly if its packet is not dropped. */
  lemma {:induction false} RoomKeepsFirst(c: Config, w: World, p: Packet, kept: World)
    requires Linked(w.packets, w.timers) && w.timers != [] && kept == HeadDrop(c, Counting(w, p), p.length)
    ensures MakesRoom(c, w, p, w.timers[0].what.id) <==> !IsFirst(kept, w.timers[0].what.id)
  {
    var id := w.timers[0].what.id;
    if MakesRoom(c, w, p, id) {
      RoomView(c, w, p, id);
      if IsFirst(kept, id) {
        ViewAt(kept, 0);
      }
    } else {
      DropManyFirst(c, Counting(w, p), DropCount(c.capacity, w.packets, p.length));
    }
  }

  lemma {:induction false} AfterDropRearms(c: Config, w: World, kept: World, p: Packet, timeout: int)
    requires Inv(c, w) && RoomFor(c, w, kept, p)
    ensures var r := AfterDrop(c, w.timers, kept, p, timeout);
      && OthersStay(c, w, r)
      && (if w.timers != [] && IsFirst(kept, w.timers[0].what.id) && IsFirst(r, w.timers[0].what.id)
          then r.queue == w.queue
          else r.timers != [] && ArmedAt(c, r, r.timers[0].at))
  {
    var next := AfterStore(c, kept, p, timeout);
    StoreKeeps(c, kept, p, timeout);
    if FirstChanged(w.timers, kept.timers, next.timers) {
      ScheduleRearms(c, next);
    }
  }

  /** What adding a packet that waits for some time does to the callbacks. */
  ghost predicate AddedRearms(c: Config, w: World, p: Packet, r: World) {
    && OthersStay(c, w, r)
    && (if FirstStays(c, w, p, r) then r.queue == w.queue else exists t :: Earliest(r, t) && ArmedAt(c, r, t))
  }

  /**
   Adding a packet leaves the callbacks alone if the first packet to expire stays the first one, and
   otherwise leaves the callback due exactly at the earliest expiry.
   */
  lemma {:induction false} AddRearms(c: Config, w: World, p: Packet, timeout: int)
    requires Inv(c, w)
    ensures if timeout > 0 then AddedRearms(c, w, p, AfterAdd(c, w, p, timeout))
            else AfterAdd(c, w, p, timeout).queue == w.queue
  {
    if timeout > 0 {
      var counted := Counting(w, p);
      var kept := HeadDrop(c, counted, p.length);
      RoomIsMade(c, w, p, counted);
      AddInStages(c, w, p, timeout, counted);
      AfterDropRearms(c, w, kept, p, timeout);
      AddKeeps(c, w, p, timeout);
      if w.timers != [] {
        RoomKeepsFirst(c, w, p, kept);
      }
      StartsWith(c, AfterAdd(c, w, p, timeout));
    }
  }

  lemma {:induction false} StartsWith(c: Config, r: World)
    requires Inv(c, r)
    ensures r.timers != [] ==> Earliest(r, r.timers[0].at)
  {
    if r.timers != [] {
      FirstIsEarliest(r);
    }
  }

  // ---- runs without updates ----

  lemma {:induction false} TakeExact(c: Config, w: World, j: nat, fate: Fate)
    requires Inv(c, w) && Exact(c, w) && j < |w.timers|
    ensures Exact(c, Take(c, w, j, fate))
  {
    TakeRearms(c, w, j, fate);
    TakenStore(c, w, j, fate, Unlink(c, w, Slot(w, j), j, fate));
  }

  lemma {:induction false} TakenExact(c: Config, w: World, id: Id)
    requires Inv(c, w) && Exact(c, w)
    ensures Exact(c, AfterRemove(c, w, id)) && Exact(c, AfterFetch(c, w, id).0)
  {
    var j := TimerIndex(w.timers, id);
    if j < |w.timers| {
      var p := Leaving(w, j);
      TakeExact(c, w, j, Fate(Removed, w.packets[Slot(w, j)], w.now));
      TakeExact(c, w, j, Fate(if p.lifetime > 0 then Fetched else Expired, p, w.now));
    }
  }

  lemma {:induction false} AfterDropExact(c: Config, w: World, kept: World, p: Packet, timeout: int)
    requires Inv(c, w) && Exact(c, w) && RoomFor(c, w, kept, p)
    ensures Exact(c, AfterDrop(c, w.timers, kept, p, timeout))
  {
    var next := AfterStore(c, kept, p, timeout);
    StoreKeeps(c, kept, p, timeout);
    if FirstChanged(w.timers, kept.timers, next.timers) {
      ScheduleRearms(c, next);
    } else {
      SameFirst(c, w, kept, p, timeout);
    }
  }

  lemma {:induction false} AddExact(c: Config, w: World, p: Packet, timeout: int)
    requires Inv(c, w) && Exact(c, w)
    ensures Exact(c, AfterAdd(c, w, p, timeout))
  {
    if timeout > 0 {
      var counted := Counting(w, p);
      RoomIsMade(c, w, p, counted);
      AddInStages(c, w, p, timeout, counted);
      AfterDropExact(c, w, HeadDrop(c, counted, p.length), p, timeout);
    }
  }

  lemma {:induction false} FlushExact(c: Config, w: World)
    requires StoreInv(c, w) && QueueInv(c, w)
    ensures Exact(c, AfterFlush(c, w))
  {
    var r := Flushed(c, w);
    FlushedStore(c, w);
    if r.timers != [] {
      ScheduleRearms(c, r);
    }
  }

  lemma {:induction false} ForeignExact(c: Config, w: World, popped: World)
    requires Inv(c, w) && w.queue != [] && w.queue[0].what != c.scope && popped == w.(queue := w.queue[1..])
    requires Exact(c, w)
    ensures Exact(c, popped)
  {
    PopFront(w.queue, c.scope);
  }

  lemma {:induction false} FiredExact(c: Config, w: World)
    requires Inv(c, w) && Exact(c, w)
    ensures Exact(c, Fire(c, w))
    decreases DueCount(w.queue, w.now)
  {
    if w.queue != [] && w.queue[0].at <= w.now {
      var popped := w.(queue := w.queue[1..]);
      if w.queue[0].what == c.scope {
        CallbackExact(c, w, popped);
      } else {
        PopForeign(c, w, popped);
        ForeignExact(c, w, popped);
        FiredExact(c, popped);
      }
    }
  }

  lemma {:induction false} CallbackExact(c: Config, w: World, popped: World)
    requires Inv(c, w) && w.queue != [] && w.queue[0].at <= w.now && w.queue[0].what == c.scope
    requires popped == w.(queue := w.queue[1..])
    ensures Exact(c, Fire(c, w))
    decreases DueCount(w.queue, w.now), 0
  {
    PopFront(w.queue, c.scope);
    FlushQueue(c, popped);
    FlushArms(c, popped);
    FlushExact(c, popped);
    FiredExact(c, AfterFlush(c, popped));
  }

  lemma {:induction false} TriggerExactly(c: Config, w: World, d: nat)
    requires Inv(c, w) && Exact(c, w)
    ensures Exact(c, AfterTrigger(c, w, d))
  {
    ClockMoves(c, w, w.now + d);
    FiredExact(c, w.(now := w.now + d));
  }

  lemma {:induction false} OtherExact(c: Config, w: World, e: Event)
    requires Inv(c, w) && Exact(c, w) && (e.OtherSchedules? || e.OtherCancels?)
    ensures Exact(c, Step(c, w, e))
  {
    match e
    case OtherSchedules(at, scope) =>
      PendingInsert(w.queue, Due(at, scope), c.scope);
      InsertMembers(w.queue, Due(at, scope));
    case OtherCancels(scope) => PendingWithout(w.queue, scope, c.scope);
  }

  lemma {:induction false} StepExact(c: Config, w: World, e: Event)
    requires Inv(c, w) && Exact(c, w) && !e.Update?
    ensures Exact(c, Step(c, w, e))
  {
    match e
    case Add(p, timeout) => AddExact(c, w, p, timeout);
    case Remove(id) => TakenExact(c, w, id);
    case Fetch(id) => TakenExact(c, w, id);
    case Trigger(d) => TriggerExactly(c, w, d);
    case OtherSchedules(_, _) => OtherExact(c, w, e);
    case OtherCancels(_) => OtherExact(c, w, e);
  }

  lemma {:induction false} RunExact(c: Config, now: int, es: seq<Event>)
    requires c.scope != NO_SCOPE && forall k :: 0 <= k < |es| ==> !es[k].Update?
    ensures Exact(c, Run(c, now, es))
    decreases |es|
  {
    if es != [] {
      RunExact(c, now, es[..|es| - 1]);
      RunKeeps(c, now, es[..|es| - 1]);
      StepExact(c, Run(c, now, es[..|es| - 1]), es[|es| - 1]);
    }
  }

  /** In every run without updates, the callback of a buffer that is not empty is due exactly at its earliest expiry. */
  lemma {:induction false} CallbackIsExact(c: Config, now: int, es: seq<Event>) returns (t: int)
    requires c.scope != NO_SCOPE && (forall k :: 0 <= k < |es| ==> !es[k].Update?)
    requires Run(c, now, es).packets != []
    ensures Earliest(Run(c, now, es), t) && ArmedAt(c, Run(c, now, es), t)
  {
    var w := Run(c, now, es);
    RunKeeps(c, now, es);
    RunExact(c, now, es);
    FirstIsEarliest(w);
    t := w.timers[0].at;
  }
}
