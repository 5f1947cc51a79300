/** A run of the DCC gatekeeper in which rate control strands a packet by delaying it for ever. */
module FlowControlWitness {
  import opened DueList
  import opened ManualRuntimes
  import opened FlowControls
  import opened FlowControlRuns

  /** Only the queue of one category holds packets. */
  function OneQueue(ac: nat, q: seq<Waiting>): (qs: seq<seq<Waiting>>)
    requires ac < CATEGORIES
    ensures |qs| == CATEGORIES
  {
    [[], [], [], []][ac := q]
  }

  function Calm(now: int, queue: Queue, ac: nat, q: seq<Waiting>): State
    requires ac < CATEGORIES
  {
    State(now, queue, OneQueue(ac, q), 0, [], [])
  }

  ghost predicate AllFresh(q: seq<Waiting>, now: int) {
    forall i :: 0 <= i < |q| ==> q[i].expiry >= now
  }

  lemma {:induction false} FreshStays(q: seq<Waiting>, now: int)
    requires AllFresh(q, now)
    ensures Unexpired(q, now) == q && ExpiryDrops(q, now) == []
  {
    if q != [] {
      FreshStays(q[1..], now);
    }
  }

  lemma {:induction false} NothingDropped(s: State, k: nat)
    requires k <= |s.queues| && forall i :: 0 <= i < |s.queues| ==> AllFresh(s.queues[i], s.now)
    ensures DropBelow(s, k) == s
    decreases k
  {
    if k > 0 {
      var q := s.queues[k - 1];
      FreshStays(q, s.now);
      assert s.queues[k - 1 := q] == s.queues && s.dropped + [] == s.dropped;
      NothingDropped(s, k - 1);
    }
  }

  lemma {:induction false} CalmDrops(now: int, queue: Queue, ac: nat, q: seq<Waiting>)
    requires ac < CATEGORIES && AllFresh(q, now)
    ensures DropBelow(Calm(now, queue, ac, q), CATEGORIES) == Calm(now, queue, ac, q)
  {
    NothingDropped(Calm(now, queue, ac, q), CATEGORIES);
  }

  /** The first packet to wait schedules the trigger. */
  lemma {:induction false} FirstRequest(now: int, scope: nat, queue: Queue, p: Packet, q: seq<Waiting>, d: Delays)
    requires d(p) != 0 && q == []
    ensures var ac, w := Category(p.profile), Waiting(p, now, now + p.lifetime);
      AfterRequest(Calm(now, queue, ac, q), scope, p, d)
      == Calm(now, Insert(queue, Due(now + d(p), scope)), ac, q + [w])
  {
    var ac := Category(p.profile);
    CalmDrops(now, queue, ac, q);
    WaitingRequest(Calm(now, queue, ac, q), scope, p, d);
    CalmEnqueue(now, scope, queue, ac, q, p, d);
  }

  lemma {:induction false} WaitingRequest(s: State, scope: nat, p: Packet, d: Delays)
    requires |s.queues| == CATEGORIES && DropBelow(s, CATEGORIES) == s && d(p) != 0
    ensures AfterRequest(s, scope, p, d) == AfterEnqueue(s, scope, p, d)
  {
  }

  lemma {:induction false} CalmEnqueue(now: int, scope: nat, queue: Queue, ac: nat, q: seq<Waiting>, p: Packet,
                                       d: Delays)
    requires ac == Category(p.profile)
    ensures var next := if q == [] then Insert(queue, Due(now + d(p), scope)) else queue;
      AfterEnqueue(Calm(now, queue, ac, q), scope, p, d)
      == Calm(now, next, ac, q + [Waiting(p, now, now + p.lifetime)])
  {
    CalmRoom(now, queue, ac, q, p);
    CalmJoin(now, queue, ac, q, p);
    CalmEmpty(ac, q);
    CalmScheduled(now, scope, queue, ac, q + [Waiting(p, now, now + p.lifetime)], d(p));
  }

  lemma {:induction false} CalmScheduled(now: int, scope: nat, queue: Queue, ac: nat, q: seq<Waiting>, delay: int)
    requires ac < CATEGORIES
    ensures Scheduled(Calm(now, queue, ac, q), scope, delay)
         == Calm(now, Insert(queue, Due(now + delay, scope)), ac, q)
  {
  }

  /** A later one only joins the queue. */
  lemma {:induction false} LaterRequest(now: int, scope: nat, queue: Queue, p: Packet, v: Waiting, d: Delays)
    requires d(p) != 0 && v.expiry >= now
    ensures var ac, w := Category(p.profile), Waiting(p, now, now + p.lifetime);
      AfterRequest(Calm(now, queue, ac, [v]), scope, p, d) == Calm(now, queue, ac, [v, w])
  {
    var ac, w := Category(p.profile), Waiting(p, now, now + p.lifetime);
    CalmDrops(now, queue, ac, [v]);
    WaitingRequest(Calm(now, queue, ac, [v]), scope, p, d);
    CalmEnqueue(now, scope, queue, ac, [v], p, d);
    assert [v] + [w] == [v, w];
  }

  lemma {:induction false} CalmEmpty(ac: nat, q: seq<Waiting>)
    requires ac < CATEGORIES
    ensures AllEmpty(OneQueue(ac, q)) <==> q == []
  {
    assert OneQueue(ac, q)[ac] == q;
  }

  lemma {:induction false} CalmJoin(now: int, queue: Queue, ac: nat, q: seq<Waiting>, p: Packet)
    requires ac < CATEGORIES
    ensures Join(Calm(now, queue, ac, q), ac, p) == Calm(now, queue, ac, q + [Waiting(p, now, now + p.lifetime)])
  {
    var longer := q + [Waiting(p, now, now + p.lifetime)];
    assert OneQueue(ac, q)[ac := longer] == OneQueue(ac, longer);
  }

  lemma {:induction false} CalmRoom(now: int, queue: Queue, ac: nat, q: seq<Waiting>, p: Packet)
    requires ac < CATEGORIES
    ensures MakeRoom(Calm(now, queue, ac, q), ac, p) == Calm(now, queue, ac, q)
  {
    var s := Calm(now, queue, ac, q);
    assert OverflowDrops(q, 0, p) == [];
    assert q[0..] == q && s.queues[ac := q] == s.queues && s.dropped + [] == s.dropped;
  }

  lemma {:induction false} CalmNext(ac: nat, q: seq<Waiting>, d: Delays)
    requires ac < CATEGORIES && q != []
    ensures Next(OneQueue(ac, q), d, 0).None? <==> d(q[0].packet) >= NEVER
    ensures d(q[0].packet) < NEVER ==> Next(OneQueue(ac, q), d, 0).Some? && Next(OneQueue(ac, q), d, 0).value == ac
  {
    NextIsEarliest(OneQueue(ac, q), d, 0);
    assert OneQueue(ac, q)[ac] == q;
  }

  lemma {:induction false} CalmTrigger(now: int, scope: nat, ac: nat, v: Waiting, w: Waiting, d: Delays, later: Delays)
    requires ac < CATEGORIES && AllFresh([v, w], now) && d(v.packet) < NEVER && later(w.packet) >= NEVER
    ensures var r := AfterTrigger(Calm(now, [], ac, [v, w]), scope, d, later);
      r.queue == [] && r.queues[ac] == [w]
  {
    CalmDrops(now, [], ac, [v, w]);
    CalmNext(ac, [v, w], d);
    assert [v, w][1..] == [w] && OneQueue(ac, [v, w])[ac := [w]] == OneQueue(ac, [w]);
    CalmNext(ac, [w], later);
  }

  /** The run is legal and ends in the state. */
  ghost predicate Reaches(now: int, scope: nat, es: seq<Event>, s: State) {
    Legal(now, scope, es) && Run(now, scope, es) == s
  }

  lemma {:induction false} ReachesOn(now: int, scope: nat, es: seq<Event>, s: State, e: Event)
    requires |s.queues| == CATEGORIES && Reaches(now, scope, es, s) && Enabled(s, scope, e)
    ensures Reaches(now, scope, es + [e], Step(s, scope, e))
  {
    assert (es + [e])[..|es|] == es;
  }

  lemma {:induction false} NothingWaits(now: int, scope: nat, ac: nat)
    requires ac < CATEGORIES
    ensures Reaches(now, scope, [], Calm(now, [], ac, []))
  {
    assert OneQueue(ac, []) == [[], [], [], []];
  }

  lemma {:induction false} OneWaits(now: int, scope: nat, p: Packet, d: Delays)
    requires d(p) == 1
    ensures Reaches(now, scope, [] + [Requests(p, d)],
              Calm(now, [Due(now + 1, scope)], Category(p.profile), [Waiting(p, now, now + p.lifetime)]))
  {
    NothingWaits(now, scope, Category(p.profile));
    ReachesOn(now, scope, [], Calm(now, [], Category(p.profile), []), Requests(p, d));
    FirstRequest(now, scope, [], p, [], d);
    assert [] + [Waiting(p, now, now + p.lifetime)] == [Waiting(p, now, now + p.lifetime)];
    assert Insert([], Due(now + 1, scope)) == [Due(now + 1, scope)];
  }

  lemma {:induction false} TwoWait(now: int, scope: nat, es: seq<Event>, queue: Queue, q: Packet, v: Waiting, d: Delays)
    requires d(q) == 1 && v.expiry >= now && Reaches(now, scope, es, Calm(now, queue, Category(q.profile), [v]))
    ensures Reaches(now, scope, es + [Requests(q, d)],
              Calm(now, queue, Category(q.profile), [v, Waiting(q, now, now + q.lifetime)]))
  {
    ReachesOn(now, scope, es, Calm(now, queue, Category(q.profile), [v]), Requests(q, d));
    LaterRequest(now, scope, queue, q, v, d);
  }

  /** The run is legal and leaves a packet queued without a pending trigger. */
  ghost predicate Strands(now: int, scope: nat, es: seq<Event>) {
    Legal(now, scope, es) && !Awake(Run(now, scope, es), scope)
  }

  lemma {:induction false} TriggerOn(now: int, scope: nat, es: seq<Event>, ac: nat, v: Waiting, w: Waiting, d: Delays,
                                     later: Delays)
    requires ac < CATEGORIES && AllFresh([v, w], now + 1) && d(v.packet) < NEVER && later(w.packet) >= NEVER
    requires Reaches(now, scope, es, Calm(now, [Due(now + 1, scope)], ac, [v, w]))
    ensures Strands(now, scope, es + [Passes(1)] + [Fires(d, later)])
  {
    var s := Calm(now + 1, [Due(now + 1, scope)], ac, [v, w]);
    ReachesOn(now, scope, es, Calm(now, [Due(now + 1, scope)], ac, [v, w]), Passes(1));
    ReachesOn(now, scope, es + [Passes(1)], s, Fires(d, later));
    assert [Due(now + 1, scope)][1..] == [];
    CalmTrigger(now + 1, scope, ac, v, w, d, later);
  }

  /**
   A legal run that strands a packet: of two packets of one category the first one is transmitted,
   and rate control answers with the largest duration for the other one.
   */
  lemma {:induction false} StrandedRun(now: int, scope: nat, p: Packet, q: Packet, wait: Delays, none: Delays,
                                       never: Delays)
    requires Category(p.profile) == Category(q.profile) && p.lifetime >= 1 && q.lifetime >= 1
    requires wait(p) == wait(q) == 1 && none(p) == 0 && never(q) == NEVER
    ensures Strands(now, scope, [] + [Requests(p, wait)] + [Requests(q, wait)] + [Passes(1)] + [Fires(none, never)])
  {
    var v, w := Waiting(p, now, now + p.lifetime), Waiting(q, now, now + q.lifetime);
    OneWaits(now, scope, p, wait);
    TwoWait(now, scope, [] + [Requests(p, wait)], [Due(now + 1, scope)], q, v, wait);
    TriggerOn(now, scope, [] + [Requests(p, wait)] + [Requests(q, wait)], Category(p.profile), v, w, none, never);
  }
}
