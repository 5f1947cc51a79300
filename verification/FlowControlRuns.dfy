/**
 Runs of the DCC gatekeeper: requests, triggers fired by the runtime, rescheduling and the passing
 of time, with arbitrary delays imposed by transmit rate control at every step.
 */
module FlowControlRuns {
  import opened DueList
  import opened ManualRuntimes
  import opened FlowControls

  datatype Event =
    | Passes(d: nat)
    | Requests(p: Packet, delays: Delays)
    | Fires(delays: Delays, later: Delays)
    | Reschedules(delays: Delays)
    | Limits(n: nat)
    | OtherSchedules(at: int, scope: nat)
    | OtherFires
    | OtherCancels(scope: nat)

  /** The runtime fires the callback in front of its queue once it is due. */
  predicate Enabled(s: State, scope: nat, e: Event) {
    match e
    case Fires(_, _) => s.queue != [] && s.queue[0].at <= s.now && s.queue[0].what == scope
    case OtherFires => s.queue != [] && s.queue[0].at <= s.now && s.queue[0].what != scope
    case OtherSchedules(_, other) => other != scope
    case OtherCancels(other) => other != scope
    case _ => true
  }

  function Step(s: State, scope: nat, e: Event): (r: State)
    requires |s.queues| == CATEGORIES
    ensures |r.queues| == CATEGORIES
  {
    match e
    case Passes(d) => s.(now := s.now + d)
    case Requests(p, d) => AfterRequest(s, scope, p, d)
    case Fires(d, later) => AfterTrigger(s.(queue := if s.queue == [] then [] else s.queue[1..]), scope, d, later)
    case Reschedules(d) => AfterReschedule(s, scope, d)
    case Limits(n) => s.(limit := n)
    case OtherSchedules(at, other) => s.(queue := Insert(s.queue, Due(at, other)))
    case OtherFires => s.(queue := if s.queue == [] then [] else s.queue[1..])
    case OtherCancels(other) => s.(queue := Cancel(s.queue, other))
  }

  function Start(now: int): State {
    State(now, [], [[], [], [], []], 0, [], [])
  }

  function Run(now: int, scope: nat, es: seq<Event>): (r: State)
    ensures |r.queues| == CATEGORIES
  {
    if es == [] then Start(now) else Step(Run(now, scope, es[..|es| - 1]), scope, es[|es| - 1])
  }

  ghost predicate Legal(now: int, scope: nat, es: seq<Event>) {
    es == [] || (Legal(now, scope, es[..|es| - 1]) && Enabled(Run(now, scope, es[..|es| - 1]), scope, es[|es| - 1]))
  }

  // ---- the next queue ----

  /** The next queue has the smallest delay, and the highest priority among those. */
  lemma {:induction false} NextIsEarliest(qs: seq<seq<Waiting>>, d: Delays, k: nat)
    requires k <= |qs|
    ensures var r := Next(qs, d, k);
            && (r.Some? ==> forall j :: k <= j < |qs| && qs[j] != [] ==>
                  d(qs[r.value][0].packet) <= d(qs[j][0].packet)
                  && (j > r.value ==> d(qs[r.value][0].packet) < d(qs[j][0].packet)))
            && (r.None? <==> forall j :: k <= j < |qs| && qs[j] != [] ==> d(qs[j][0].packet) >= NEVER)
    decreases |qs| - k
  {
    if k < |qs| {
      NextIsEarliest(qs, d, k + 1);
    }
  }

  // ---- what dropping does to each queue ----

  lemma {:induction false} DropBelowQueues(s: State, k: nat, i: nat)
    requires k <= |s.queues| && i < |s.queues|
    ensures DropBelow(s, k).queues[i] == if i < k then Unexpired(s.queues[i], s.now) else s.queues[i]
    ensures DropBelow(s, k) == s.(queues := DropBelow(s, k).queues, dropped := DropBelow(s, k).dropped)
    decreases k
  {
    if k > 0 {
      var q := s.queues[k - 1];
      DropBelowQueues(s.(queues := s.queues[k - 1 := Unexpired(q, s.now)],
                         dropped := s.dropped + ExpiryDrops(q, s.now)), k - 1, i);
    }
  }

  lemma {:induction false} UnexpiredMembers(q: seq<Waiting>, now: int)
    ensures forall w :: w in Unexpired(q, now) <==> w in q && w.expiry >= now
  {
    if q != [] {
      UnexpiredMembers(q[1..], now);
      assert q == [q[0]] + q[1..];
    }
  }

  // ---- no packet is stranded ----

  /** Rate control never answers with an infinite delay. */
  ghost predicate Finite(d: Delays) {
    forall p :: d(p) < NEVER
  }

  ghost predicate FiniteEvent(e: Event) {
    match e
    case Fires(d, later) => Finite(later)
    case _ => true
  }

  /** A queued packet has a trigger pending. */
  ghost predicate Awake(s: State, scope: nat) {
    AllEmpty(s.queues) || Pending(s.queue, scope) > 0
  }

  lemma {:induction false} DropKeepsAwake(s: State, scope: nat)
    requires |s.queues| == CATEGORIES && Awake(s, scope)
    ensures Awake(DropBelow(s, CATEGORIES), scope)
    ensures DropBelow(s, CATEGORIES).queue == s.queue
  {
    var r := DropBelow(s, CATEGORIES);
    forall i | 0 <= i < CATEGORIES && s.queues[i] == [] ensures r.queues[i] == [] {
      DropBelowQueues(s, CATEGORIES, i);
    }
    DropBelowQueues(s, CATEGORIES, 0);
  }

  lemma {:induction false} RequestAwake(s: State, scope: nat, p: Packet, d: Delays)
    requires |s.queues| == CATEGORIES && Awake(s, scope)
    ensures Awake(AfterRequest(s, scope, p, d), scope)
  {
    var t := DropBelow(s, CATEGORIES);
    DropKeepsAwake(s, scope);
    PendingInsert(t.queue, Due(t.now + d(p), scope), scope);
  }

  /** Packets are queued, and the first one of every queue is delayed for ever. */
  ghost predicate Held(qs: seq<seq<Waiting>>, d: Delays) {
    !AllEmpty(qs) && forall j :: 0 <= j < |qs| && qs[j] != [] ==> d(qs[j][0].packet) >= NEVER
  }

  /** The packets of every queue that have not expired. */
  function Unexpireds(qs: seq<seq<Waiting>>, now: int): seq<seq<Waiting>> {
    seq(|qs|, i requires 0 <= i < |qs| => Unexpired(qs[i], now))
  }

  /** What a trigger leaves: the packets that have not expired, without the first one of the next queue. */
  function Left(qs: seq<seq<Waiting>>, now: int, d: Delays): seq<seq<Waiting>> {
    var kept := Unexpireds(qs, now);
    var i := Next(kept, d, 0);
    if i.None? then kept else kept[i.value := kept[i.value][1..]]
  }

  lemma {:induction false} DropLeavesUnexpired(s: State)
    requires |s.queues| == CATEGORIES
    ensures DropBelow(s, CATEGORIES).queues == Unexpireds(s.queues, s.now)
    ensures DropBelow(s, CATEGORIES).queue == s.queue && DropBelow(s, CATEGORIES).now == s.now
  {
    var r := DropBelow(s, CATEGORIES);
    forall i | 0 <= i < CATEGORIES ensures r.queues[i] == Unexpired(s.queues[i], s.now) {
      DropBelowQueues(s, CATEGORIES, i);
    }
    DropBelowQueues(s, CATEGORIES, 0);
  }

  /**
   Exactly when a trigger strands packets: it leaves some queued without a pending trigger if and
   only if no other trigger is pending and, of the packets that have not expired and without the
   one to transmit, rate control delays the first one of every queue for ever.
   */
  lemma {:induction false} TriggerStrands(s: State, scope: nat, d: Delays, later: Delays)
    requires |s.queues| == CATEGORIES
    ensures !Awake(AfterTrigger(s, scope, d, later), scope)
       <==> Pending(s.queue, scope) == 0 && Held(Left(s.queues, s.now, d), later)
  {
    DropLeavesUnexpired(s);
    var t := AfterDequeue(DropBelow(s, CATEGORIES), d);
    assert t.queue == s.queue && t.queues == Left(s.queues, s.now, d);
    ScheduleStrands(t, scope, later);
  }

  lemma {:induction false} ScheduleStrands(t: State, scope: nat, d: Delays)
    ensures !Awake(ScheduleNext(t, scope, d), scope) <==> Pending(t.queue, scope) == 0 && Held(t.queues, d)
  {
    NextIsEarliest(t.queues, d, 0);
    var i := Next(t.queues, d, 0);
    if i.Some? {
      PendingInsert(t.queue, Due(t.now + d(t.queues[i.value][0].packet), scope), scope);
    }
  }

  lemma {:induction false} ScheduleArms(t: State, scope: nat, d: Delays)
    requires Next(t.queues, d, 0).Some?
    ensures Pending(ScheduleNext(t, scope, d).queue, scope) > 0
  {
    var i := Next(t.queues, d, 0).value;
    PendingInsert(t.queue, Due(t.now + d(t.queues[i][0].packet), scope), scope);
  }

  lemma {:induction false} RescheduleAwake(s: State, scope: nat, d: Delays)
    requires |s.queues| == CATEGORIES && Awake(s, scope)
    ensures Awake(AfterReschedule(s, scope, d), scope)
  {
    if Next(s.queues, d, 0).Some? {
      ScheduleArms(s.(queue := Cancel(s.queue, scope)), scope, d);
    }
  }

  lemma {:induction false} OtherAwake(s: State, scope: nat, e: Event)
    requires |s.queues| == CATEGORIES && Awake(s, scope) && Enabled(s, scope, e)
    requires e.OtherSchedules? || e.OtherFires? || e.OtherCancels?
    ensures Awake(Step(s, scope, e), scope)
  {
    match e
    case OtherSchedules(at, other) => PendingInsert(s.queue, Due(at, other), scope);
    case OtherFires =>
    case OtherCancels(other) => PendingWithout(s.queue, other, scope);
  }

  lemma {:induction false} StepAwake(s: State, scope: nat, e: Event)
    requires |s.queues| == CATEGORIES && Awake(s, scope) && Enabled(s, scope, e) && FiniteEvent(e)
    ensures Awake(Step(s, scope, e), scope)
  {
    match e
    case Passes(_) =>
    case Requests(p, d) => RequestAwake(s, scope, p, d);
    case Fires(d, later) => TriggerStrands(s.(queue := s.queue[1..]), scope, d, later);
    case Reschedules(d) => RescheduleAwake(s, scope, d);
    case Limits(_) =>
    case _ => OtherAwake(s, scope, e);
  }

  /** If rate control never answers with an infinite delay, no queued packet is ever stranded. */
  lemma {:induction false} NeverStranded(now: int, scope: nat, es: seq<Event>)
    requires Legal(now, scope, es) && forall i :: 0 <= i < |es| ==> FiniteEvent(es[i])
    ensures Awake(Run(now, scope, es), scope)
    decreases |es|
  {
    if es != [] {
      NeverStranded(now, scope, es[..|es| - 1]);
      StepAwake(Run(now, scope, es[..|es| - 1]), scope, es[|es| - 1]);
    }
  }

  // ---- no packet is sent stale ----

  ghost predicate FreshWaiting(s: State) {
    forall i :: 0 <= i < |s.queues| ==> forall w :: w in s.queues[i] ==>
      w.expiry == w.requested + w.packet.lifetime && w.requested <= s.now && Category(w.packet.profile) == i
  }

  /** Transmitted at once, or before its lifetime was over. */
  predicate InTime(t: Sent) {
    t.requested <= t.at && (t.at == t.requested || t.at <= t.requested + t.packet.lifetime)
  }

  ghost predicate FreshInv(s: State) {
    FreshWaiting(s) && forall t :: t in s.sent ==> InTime(t)
  }

  /** After expired packets are dropped, no queued packet is older than its lifetime. */
  ghost predicate Unstale(s: State) {
    forall i :: 0 <= i < |s.queues| ==> forall w :: w in s.queues[i] ==> s.now <= w.expiry
  }

  lemma {:induction false} DropFresh(s: State)
    requires |s.queues| == CATEGORIES && FreshInv(s)
    ensures FreshInv(DropBelow(s, CATEGORIES)) && Unstale(DropBelow(s, CATEGORIES))
  {
    var r := DropBelow(s, CATEGORIES);
    forall i | 0 <= i < CATEGORIES
      ensures forall w :: w in r.queues[i] ==> w in s.queues[i] && w.expiry >= s.now
    {
      DropBelowQueues(s, CATEGORIES, i);
      UnexpiredMembers(s.queues[i], s.now);
    }
    DropBelowQueues(s, CATEGORIES, 0);
  }

  lemma {:induction false} RequestFresh(s: State, scope: nat, p: Packet, d: Delays)
    requires |s.queues| == CATEGORIES && FreshInv(s)
    ensures FreshInv(AfterRequest(s, scope, p, d))
  {
    DropFresh(s);
    var t := DropBelow(s, CATEGORIES);
    var r := AfterEnqueue(t, scope, p, d);
    var ac := Category(p.profile);
    forall i, w | 0 <= i < CATEGORIES && w in r.queues[i]
      ensures w in t.queues[i] || (i == ac && w == Waiting(p, t.now, t.now + p.lifetime))
    {
    }
  }

  lemma {:induction false} DequeueFresh(s: State, d: Delays)
    requires FreshInv(s) && Unstale(s)
    ensures FreshInv(AfterDequeue(s, d))
  {
    var i := Next(s.queues, d, 0);
    if i.Some? {
      var w := s.queues[i.value][0];
      assert w in s.queues[i.value];
      assert InTime(Sent(w.packet, w.requested, s.now));
      var r := AfterDequeue(s, d);
      forall j, v | 0 <= j < |r.queues| && v in r.queues[j] ensures v in s.queues[j] {
      }
    }
  }

  lemma {:induction false} StepFresh(s: State, scope: nat, e: Event)
    requires |s.queues| == CATEGORIES && FreshInv(s)
    ensures FreshInv(Step(s, scope, e))
  {
    match e
    case Requests(p, d) => RequestFresh(s, scope, p, d);
    case Fires(d, later) =>
      var t := s.(queue := if s.queue == [] then [] else s.queue[1..]);
      DropFresh(t);
      DequeueFresh(DropBelow(t, CATEGORIES), d);
    case _ =>
  }

  /** In every run, no packet is transmitted after its request time plus its lifetime, unless at once. */
  lemma {:induction false} NeverStale(now: int, scope: nat, es: seq<Event>, t: Sent)
    requires t in Run(now, scope, es).sent
    ensures InTime(t)
  {
    RunFresh(now, scope, es);
  }

  lemma {:induction false} RunFresh(now: int, scope: nat, es: seq<Event>)
    ensures FreshInv(Run(now, scope, es))
    decreases |es|
  {
    if es != [] {
      RunFresh(now, scope, es[..|es| - 1]);
      StepFresh(Run(now, scope, es[..|es| - 1]), scope, es[|es| - 1]);
    }
  }
}
