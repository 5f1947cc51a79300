/**
 Runs of a CBF buffer on its runtime: any sequence of calls, clock movements and callbacks that
 other components schedule or cancel on the same runtime.
 */
module CbfRuns {
  import opened Options
  import opened DueList
  import opened ManualRuntimes
  import opened CbfBuffers
  import opened CbfViews
  import opened CbfInvariants

  datatype Event =
    | Add(packet: Packet, timeout: int)
    | Remove(id: Id)
    | Update(id: Id, timeout: int)
    | Fetch(id: Id)
    | Trigger(d: nat)
    | OtherSchedules(at: int, scope: nat)
    | OtherCancels(scope: nat)

  /** Other components use scopes of their own. */
  function Step(c: Config, w: World, e: Event): (r: World)
    requires Linked(w.packets, w.timers)
    ensures Linked(r.packets, r.timers)
  {
    match e
    case Add(p, timeout) => AfterAdd(c, w, p, timeout)
    case Remove(id) => AfterRemove(c, w, id)
    case Update(id, timeout) => AfterUpdate(c, w, id, timeout)
    case Fetch(id) => AfterFetch(c, w, id).0
    case Trigger(d) => AfterTrigger(c, w, d)
    case OtherSchedules(at, scope) =>
      if scope == c.scope then w else w.(queue := Insert(w.queue, Due(at, scope)))
    case OtherCancels(scope) =>
      if scope == c.scope then w else w.(queue := Cancel(w.queue, scope))
  }

  function Start(now: int): World {
    World(now, [], [], [], map[], 0, [])
  }

  function Run(c: Config, now: int, es: seq<Event>): (r: World)
    ensures Linked(r.packets, r.timers)
  {
    if es == [] then Start(now) else Step(c, Run(c, now, es[..|es| - 1]), es[|es| - 1])
  }

  // ---- the representation invariant ----

  lemma {:induction false} OtherKeeps(c: Config, w: World, e: Event)
    requires Inv(c, w) && (e.OtherSchedules? || e.OtherCancels?)
    ensures Inv(c, Step(c, w, e))
    ensures Timely(c, w) ==> Timely(c, Step(c, w, e))
  {
    match e
    case OtherSchedules(at, scope) => ScheduledKeeps(c, w, Due(at, scope));
    case OtherCancels(scope) => CancelledKeeps(c, w, scope);
  }

  lemma {:induction false} ScheduledKeeps(c: Config, w: World, d: Due<nat>)
    requires Inv(c, w)
    ensures d.what != c.scope ==> Inv(c, w.(queue := Insert(w.queue, d)))
    ensures d.what != c.scope && Timely(c, w) ==> Timely(c, w.(queue := Insert(w.queue, d)))
  {
    InsertKeepsOrder(w.queue, d);
    PendingInsert(w.queue, d, c.scope);
    InsertMembers(w.queue, d);
  }

  lemma {:induction false} CancelledKeeps(c: Config, w: World, scope: nat)
    requires Inv(c, w)
    ensures scope != c.scope ==> Inv(c, w.(queue := Cancel(w.queue, scope)))
    ensures scope != c.scope && Timely(c, w) ==> Timely(c, w.(queue := Cancel(w.queue, scope)))
  {
    WithoutKeepsOrder(w.queue, scope);
    PendingWithout(w.queue, scope, c.scope);
  }

  lemma {:induction false} TakenKeeps(c: Config, w: World, id: Id)
    requires Inv(c, w)
    ensures Inv(c, AfterRemove(c, w, id)) && Inv(c, AfterFetch(c, w, id).0)
    ensures Timely(c, w) ==> Timely(c, AfterRemove(c, w, id)) && Timely(c, AfterFetch(c, w, id).0)
  {
    var j := TimerIndex(w.timers, id);
    if j < |w.timers| {
      var p := Leaving(w, j);
      TakeKeeps(c, w, j, Fate(Removed, w.packets[Slot(w, j)], w.now));
      TakeKeeps(c, w, j, Fate(if p.lifetime > 0 then Fetched else Expired, p, w.now));
    }
  }

  lemma {:induction false} StepKeeps(c: Config, w: World, e: Event)
    requires Inv(c, w)
    ensures Inv(c, Step(c, w, e))
  {
    match e
    case Add(p, timeout) => AddKeeps(c, w, p, timeout);
    case Remove(id) => TakenKeeps(c, w, id);
    case Update(id, timeout) => UpdateKeeps(c, w, id, timeout);
    case Fetch(id) => TakenKeeps(c, w, id);
    case Trigger(d) => TriggerKeeps(c, w, d);
    case OtherSchedules(_, _) => OtherKeeps(c, w, e);
    case OtherCancels(_) => OtherKeeps(c, w, e);
  }

  lemma {:induction false} TriggerKeeps(c: Config, w: World, d: nat)
    requires Inv(c, w)
    ensures Inv(c, AfterTrigger(c, w, d))
  {
    FireKeeps(c, w.(now := w.now + d));
  }

  lemma {:induction false} FireKeeps(c: Config, w: World)
    requires Inv(c, w)
    ensures Inv(c, Fire(c, w))
  {
    FireExact(c, w);
  }

  /** Every reachable state satisfies the representation invariant. */
  lemma {:induction false} RunKeeps(c: Config, now: int, es: seq<Event>)
    requires c.scope != NO_SCOPE
    ensures Inv(c, Run(c, now, es))
    ensures |Run(c, now, es).packets| == |Run(c, now, es).timers|
    decreases |es|
  {
    if es != [] {
      RunKeeps(c, now, es[..|es| - 1]);
      StepKeeps(c, Run(c, now, es[..|es| - 1]), es[|es| - 1]);
    }
    LinkedSize(Run(c, now, es).packets, Run(c, now, es).timers);
  }

  // ---- the callback is on time ----

  /** The event is no update that makes a buffered packet expire before the pending callback. */
  ghost predicate Punctual(c: Config, w: World, e: Event) {
    e.Update? && View(w, e.id).Some? ==>
      forall q :: q in w.queue && q.what == c.scope ==> q.at <= w.now + e.timeout
  }

  /** A punctual event keeps the callback on time; an update that is not punctual makes it late. */
  lemma {:induction false} StepTimely(c: Config, w: World, e: Event)
    requires Inv(c, w) && Timely(c, w)
    ensures Timely(c, Step(c, w, e)) <==> Punctual(c, w, e)
  {
    if e.Update? {
      ViewDomain(w, e.id);
      if View(w, e.id).Some? {
        UpdateTimely(c, w, e.id, e.timeout);
      }
    } else {
      OthersTimely(c, w, e);
    }
  }

  lemma {:induction false} OthersTimely(c: Config, w: World, e: Event)
    requires Inv(c, w) && Timely(c, w) && !e.Update?
    ensures Timely(c, Step(c, w, e))
  {
    match e
    case Add(p, timeout) => AddKeeps(c, w, p, timeout);
    case Remove(id) => RemovedTimely(c, w, id);
    case Fetch(id) => TakenKeeps(c, w, id);
    case Trigger(d) => TriggerTimely(c, w, d);
    case OtherSchedules(_, _) => OtherKeeps(c, w, e);
    case OtherCancels(_) => OtherKeeps(c, w, e);
  }

  lemma {:induction false} RemovedTimely(c: Config, w: World, id: Id)
    requires Inv(c, w) && Timely(c, w)
    ensures Timely(c, AfterRemove(c, w, id))
  {
    TakenKeeps(c, w, id);
  }

  lemma {:induction false} TriggerTimely(c: Config, w: World, d: nat)
    requires Inv(c, w) && Timely(c, w)
    ensures Timely(c, AfterTrigger(c, w, d))
  {
    FireTimely(c, w.(now := w.now + d));
  }

  lemma {:induction false} FireTimely(c: Config, w: World)
    requires Inv(c, w) && Timely(c, w)
    ensures Timely(c, Fire(c, w))
  {
    FireExact(c, w);
  }

  lemma {:induction false} RunTimely(c: Config, now: int, es: seq<Event>)
    requires c.scope != NO_SCOPE
    requires forall k :: 0 <= k < |es| ==> Punctual(c, Run(c, now, es[..k]), es[k])
    ensures Timely(c, Run(c, now, es))
    decreases |es|
  {
    if es != [] {
      var before := es[..|es| - 1];
      forall k | 0 <= k < |before| ensures Punctual(c, Run(c, now, before[..k]), before[k]) {
        assert before[..k] == es[..k];
      }
      RunTimely(c, now, before);
      RunKeeps(c, now, before);
      StepTimely(c, Run(c, now, before), es[|es| - 1]);
    }
  }

  lemma {:induction false} FlushedView(c: Config, w: World, x: Id)
    requires StoreInv(c, w)
    ensures View(Flushed(c, w), x)
         == if View(w, x).Some? && View(w, x).value.expiry <= w.now then None else View(w, x)
    ensures Count(Flushed(c, w).counters, x)
         == if View(w, x).Some? && View(w, x).value.expiry <= w.now && c.counter == Contending
            then 0 else Count(w.counters, x)
  {
    var k := UpperBound(w.timers, w.now);
    HandOutView(c, w, k, x);
    HandOutCounts(c, w, k, x);
    ExpiredPrefix(w, x);
  }

  /** The expired packets are handed out if the callback is due, and nothing in the queue is due any more. */
  ghost predicate FiresTo(c: Config, w: World, due: bool, r: World)
    requires Linked(w.packets, w.timers)
  {
    && Core(r) == (if due then Flushed(c, Core(w)) else Core(w))
    && (forall q :: q in r.queue ==> q.at > w.now)
    && r.now == w.now
  }

  lemma {:induction false} TriggerCore(c: Config, w: World, d: nat)
    requires Inv(c, w)
    ensures var t := Core(w.(now := w.now + d));
            Core(AfterTrigger(c, w, d)) == if DueBy(c, w, w.now + d) then Flushed(c, t) else t
    ensures forall q :: q in AfterTrigger(c, w, d).queue ==> q.at > w.now + d
    ensures AfterTrigger(c, w, d).now == w.now + d
  {
    TriggerFires(c, w, d, w.(now := w.now + d));
  }

  lemma {:induction false} TriggerFires(c: Config, w: World, d: nat, t: World)
    requires Inv(c, w) && t == w.(now := w.now + d)
    ensures FiresTo(c, t, DueBy(c, w, w.now + d), AfterTrigger(c, w, d))
  {
    ClockMoves(c, w, w.now + d);
    FireCore(c, t);
  }

  lemma {:induction false} ClockMoves(c: Config, w: World, now: int)
    requires Inv(c, w)
    ensures Inv(c, w.(now := now)) && DueBy(c, w.(now := now), now) == DueBy(c, w, now)
  {
  }

  lemma {:induction false} FireCore(c: Config, w: World)
    requires Inv(c, w)
    ensures FiresTo(c, w, DueBy(c, w, w.now), Fire(c, w))
  {
    FireExact(c, w);
    assert Core(Fire(c, w)).now == w.now;
  }

  lemma {:induction false} CoreView(w: World, x: Id)
    ensures View(Core(w), x) == View(w, x)
    ensures Core(w).counters == w.counters && Core(w).log == w.log && Core(w).packets == w.packets
  {
  }

  /** What a trigger does to every entry. */
  lemma {:induction false} TriggerView(c: Config, w: World, d: nat, x: Id)
    requires Inv(c, w)
    ensures View(AfterTrigger(c, w, d), x)
         == if DueBy(c, w, w.now + d) && View(w, x).Some? && View(w, x).value.expiry <= w.now + d
            then None else View(w, x)
    ensures Count(AfterTrigger(c, w, d).counters, x)
         == if DueBy(c, w, w.now + d) && View(w, x).Some? && View(w, x).value.expiry <= w.now + d
               && c.counter == Contending
            then 0 else Count(w.counters, x)
  {
    var t := Core(w.(now := w.now + d));
    TriggerCore(c, w, d);
    CoreView(AfterTrigger(c, w, d), x);
    FlushedView(c, t, x);
    assert View(t, x) == View(w, x);
  }

  /**
   Exactly when a trigger does its job: no packet whose timer has expired is left in the buffer
   if and only if the callback is due or nothing has expired.
   */
  lemma {:induction false} TriggerExact(c: Config, w: World, d: nat)
    requires Inv(c, w)
    ensures (forall x :: View(AfterTrigger(c, w, d), x).Some? ==>
                           View(AfterTrigger(c, w, d), x).value.expiry > w.now + d)
       <==> DueBy(c, w, w.now + d)
            || forall x :: View(w, x).Some? ==> View(w, x).value.expiry > w.now + d
  {
    forall x {
      TriggerView(c, w, d, x);
    }
  }

  /**
   In every run of punctual events, a trigger leaves no packet behind whose timer has expired,
   and nothing in the runtime's queue is due any more.
   */
  lemma {:induction false} TriggerLeavesNoneExpired(c: Config, now: int, es: seq<Event>, d: nat, x: Id)
    requires c.scope != NO_SCOPE
    requires forall k :: 0 <= k < |es| ==> Punctual(c, Run(c, now, es[..k]), es[k])
    ensures var r := AfterTrigger(c, Run(c, now, es), d);
            && (View(r, x).Some? ==> View(r, x).value.expiry > r.now)
            && (forall q :: q in r.queue ==> q.at > r.now)
  {
    var w := Run(c, now, es);
    RunKeeps(c, now, es);
    RunTimely(c, now, es);
    TriggerView(c, w, d, x);
    TriggerCore(c, w, d);
    TimelyDue(c, w, x);
  }

  lemma {:induction false} TimelyDue(c: Config, w: World, x: Id)
    requires Inv(c, w) && Timely(c, w)
    ensures View(w, x).Some? ==> DueBy(c, w, View(w, x).value.expiry)
  {
    ViewDomain(w, x);
    if View(w, x).Some? {
      var t :| t in w.timers && t == Due(View(w, x).value.expiry, Timer(x, View(w, x).value.start));
      PendingPositive(w.queue, c.scope);
    }
  }
}
