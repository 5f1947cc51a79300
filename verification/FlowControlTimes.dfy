/**
 When the DCC gatekeeper transmits: at once if a packet is free to go, and otherwise by a trigger, no
 earlier than rate control allowed when that trigger was scheduled.
 */
module FlowControlTimes {
  import opened Options
  import opened DueList
  import opened ManualRuntimes
  import opened FlowControls
  import opened FlowControlRuns

  // ---- priorities ----

  function Number(profile: Profile): nat {
    match profile
    case DP0 => 0
    case DP1 => 1
    case DP2 => 2
    case DP3 => 3
  }

  /** The four profiles have the four priorities, DP0 the highest one. */
  lemma {:induction false} PriorityOfProfile(a: Profile, b: Profile)
    ensures Number(a) < Number(b) <==> Category(a) > Category(b)
    ensures Number(a) == Number(b) <==> Category(a) == Category(b)
  {
  }

  // ---- scheduling a trigger ----

  /** The smallest delay of the first packets of all queues. */
  ghost predicate Soonest(qs: seq<seq<Waiting>>, d: Delays, delay: int) {
    && (exists i :: 0 <= i < |qs| && qs[i] != [] && d(qs[i][0].packet) == delay)
    && (forall j :: 0 <= j < |qs| && qs[j] != [] ==> delay <= d(qs[j][0].packet))
  }

  /** Rate control lets the first packet of some queue go eventually. */
  ghost predicate SomeFinite(qs: seq<seq<Waiting>>, d: Delays) {
    exists i :: 0 <= i < |qs| && qs[i] != [] && d(qs[i][0].packet) < NEVER
  }

  /** One trigger is scheduled, after the smallest delay, or none if rate control delays all packets for ever. */
  ghost predicate SchedulesNext(qs: seq<seq<Waiting>>, d: Delays, now: int, scope: nat, before: Queue, after: Queue,
                                delay: int)
  {
    if SomeFinite(qs, d) then Soonest(qs, d, delay) && after == Insert(before, Due(now + delay, scope))
    else after == before
  }

  lemma {:induction false} NextIsSoonest(qs: seq<seq<Waiting>>, d: Delays)
    ensures Next(qs, d, 0).Some? <==> SomeFinite(qs, d)
    ensures Next(qs, d, 0).Some? ==> Soonest(qs, d, d(qs[Next(qs, d, 0).value][0].packet))
  {
    NextIsEarliest(qs, d, 0);
  }

  lemma {:induction false} ScheduledExactly(t: State, scope: nat, d: Delays) returns (delay: int)
    ensures SchedulesNext(t.queues, d, t.now, scope, t.queue, ScheduleNext(t, scope, d).queue, delay)
  {
    NextIsSoonest(t.queues, d);
    var i := Next(t.queues, d, 0);
    delay := if i.Some? then d(t.queues[i.value][0].packet) else 0;
  }

  /**
   A trigger schedules exactly one next trigger, after the smallest delay of the first packets that are left,
   and none if rate control delays all of them for ever.
   */
  lemma {:induction false} TriggerSchedules(s: State, scope: nat, d: Delays, later: Delays) returns (delay: int)
    requires |s.queues| == CATEGORIES
    ensures var r := AfterTrigger(s, scope, d, later);
      && r.queues == Left(s.queues, s.now, d) && r.now == s.now
      && SchedulesNext(r.queues, later, s.now, scope, s.queue, r.queue, delay)
  {
    DropLeavesUnexpired(s);
    var t := AfterDequeue(DropBelow(s, CATEGORIES), d);
    assert t.queue == s.queue && t.now == s.now && t.queues == Left(s.queues, s.now, d);
    delay := ScheduledExactly(t, scope, later);
  }

  /** Exactly one trigger is pending, at the given time, and other callbacks are left alone. */
  ghost predicate Replaced(before: Queue, after: Queue, scope: nat, at: int) {
    && Pending(after, scope) == 1
    && (forall e :: e in after && e.what == scope ==> e.at == at)
    && (forall e: Due<nat> :: e.what != scope ==> (e in after <==> e in before))
  }

  lemma {:induction false} InsertReplaces(q: Queue, scope: nat, at: int)
    requires scope != NO_SCOPE
    ensures Replaced(q, Insert(Cancel(q, scope), Due(at, scope)), scope, at)
  {
    PendingWithout(q, scope, scope);
    PendingInsert(Cancel(q, scope), Due(at, scope), scope);
    InsertMembers(Cancel(q, scope), Due(at, scope));
  }

  /** Rescheduling replaces the pending triggers by one after the smallest delay of the first packets. */
  lemma {:induction false} RescheduleSchedules(s: State, scope: nat, d: Delays) returns (delay: int)
    requires scope != NO_SCOPE
    ensures var r := AfterReschedule(s, scope, d);
      if SomeFinite(s.queues, d) then Soonest(s.queues, d, delay) && Replaced(s.queue, r.queue, scope, s.now + delay)
      else r == s
  {
    NextIsSoonest(s.queues, d);
    delay := ScheduledExactly(s.(queue := Cancel(s.queue, scope)), scope, d);
    InsertReplaces(s.queue, scope, s.now + delay);
  }

  // ---- where a pending trigger comes from ----

  /** In state s the event schedules a trigger for the time at. */
  ghost predicate Arms(s: State, e: Event, at: int) {
    match e
    case Requests(p, d) => AllEmpty(Unexpireds(s.queues, s.now)) && at == s.now + d(p) && d(p) != 0
    case Fires(d, later) => Soonest(Left(s.queues, s.now, d), later, at - s.now)
    case Reschedules(d) => Soonest(s.queues, d, at - s.now)
    case _ => false
  }

  ghost predicate Traced(s: State, e: Event, q: Queue, scope: nat) {
    forall x :: x in q && x.what == scope ==> x in s.queue || Arms(s, e, x.at)
  }

  lemma {:induction false} RequestTraced(s: State, scope: nat, p: Packet, d: Delays)
    requires |s.queues| == CATEGORIES
    ensures Traced(s, Requests(p, d), AfterRequest(s, scope, p, d).queue, scope)
  {
    RequestExactly(s, scope, p, d);
    if AllEmpty(Unexpireds(s.queues, s.now)) {
      EmptyIsFree(s, p);
      InsertMembers(s.queue, Due(s.now + d(p), scope));
    }
  }

  lemma {:induction false} EmptyIsFree(s: State, p: Packet)
    requires AllEmpty(Unexpireds(s.queues, s.now))
    ensures Free(s, p)
  {
    assert forall j :: 0 <= j < |s.queues| ==> Unexpireds(s.queues, s.now)[j] == Unexpired(s.queues[j], s.now);
  }

  lemma {:induction false} TriggerTraced(s: State, scope: nat, d: Delays, later: Delays)
    requires |s.queues| == CATEGORIES
    ensures Traced(s, Fires(d, later), Step(s, scope, Fires(d, later)).queue, scope)
  {
    var t := s.(queue := if s.queue == [] then [] else s.queue[1..]);
    var delay := TriggerSchedules(t, scope, d, later);
    NewIsTraced(s, Fires(d, later), t.queue, AfterTrigger(t, scope, d, later).queue, scope, delay);
  }

  lemma {:induction false} NewIsTraced(s: State, e: Event, before: Queue, after: Queue, scope: nat, delay: int)
    requires e.Fires? && SchedulesNext(Left(s.queues, s.now, e.delays), e.later, s.now, scope, before, after, delay)
    requires forall x :: x in before ==> x in s.queue
    ensures Traced(s, e, after, scope)
  {
    InsertMembers(before, Due(s.now + delay, scope));
  }

  lemma {:induction false} RescheduleTraced(s: State, scope: nat, d: Delays)
    requires |s.queues| == CATEGORIES && scope != NO_SCOPE
    ensures Traced(s, Reschedules(d), AfterReschedule(s, scope, d).queue, scope)
  {
    var delay := RescheduleSchedules(s, scope, d);
    var after := AfterReschedule(s, scope, d).queue;
    if SomeFinite(s.queues, d) {
      ReplacedIsTraced(s, Reschedules(d), after, scope, delay);
    }
  }

  lemma {:induction false} ReplacedIsTraced(s: State, e: Event, after: Queue, scope: nat, delay: int)
    requires e.Reschedules? && Soonest(s.queues, e.delays, delay)
    requires Replaced(s.queue, after, scope, s.now + delay)
    ensures Traced(s, e, after, scope)
  {
  }

  lemma {:induction false} OtherTraced(s: State, scope: nat, e: Event)
    requires |s.queues| == CATEGORIES && Enabled(s, scope, e) && !e.Requests? && !e.Fires? && !e.Reschedules?
    ensures Traced(s, e, Step(s, scope, e).queue, scope)
  {
    if e.OtherSchedules? {
      InsertMembers(s.queue, Due(e.at, e.scope));
    }
  }

  lemma {:induction false} StepTraced(s: State, scope: nat, e: Event)
    requires |s.queues| == CATEGORIES && Enabled(s, scope, e) && scope != NO_SCOPE
    ensures Traced(s, e, Step(s, scope, e).queue, scope)
  {
    match e
    case Requests(p, d) => RequestTraced(s, scope, p, d);
    case Fires(d, later) => TriggerTraced(s, scope, d, later);
    case Reschedules(d) => RescheduleTraced(s, scope, d);
    case Passes(_) => OtherTraced(s, scope, e);
    case Limits(_) => OtherTraced(s, scope, e);
    case OtherSchedules(_, _) => OtherTraced(s, scope, e);
    case OtherFires => OtherTraced(s, scope, e);
    case OtherCancels(_) => OtherTraced(s, scope, e);
  }

  /** In every legal run a pending trigger was scheduled by an event, for the time rate control answered then. */
  lemma {:induction false} PendingWasArmed(now: int, scope: nat, es: seq<Event>, x: Due<nat>) returns (k: nat)
    requires Legal(now, scope, es) && scope != NO_SCOPE && x in Run(now, scope, es).queue && x.what == scope
    ensures k < |es| && Arms(Run(now, scope, es[..k]), es[k], x.at)
    decreases |es|
  {
    var before := es[..|es| - 1];
    StepTraced(Run(now, scope, before), scope, es[|es| - 1]);
    if x in Run(now, scope, before).queue {
      k := PendingWasArmed(now, scope, before, x);
      assert before[..k] == es[..k];
    } else {
      k := |es| - 1;
    }
  }

  lemma {:induction false} LegalPrefix(now: int, scope: nat, es: seq<Event>, m: nat)
    requires Legal(now, scope, es) && m < |es|
    ensures Legal(now, scope, es[..m]) && Enabled(Run(now, scope, es[..m]), scope, es[m])
    decreases |es|
  {
    if m < |es| - 1 {
      LegalPrefix(now, scope, es[..|es| - 1], m);
      assert es[..|es| - 1][..m] == es[..m];
    }
  }

  /**
   In every legal run a trigger fires no earlier than the time it was scheduled for: the time of an
   earlier event plus the smallest delay rate control answered for the packets in front then.
   */
  lemma {:induction false} TriggerWaits(now: int, scope: nat, es: seq<Event>, m: nat) returns (k: nat, at: int)
    requires Legal(now, scope, es) && scope != NO_SCOPE && m < |es| && es[m].Fires?
    ensures k < m && Arms(Run(now, scope, es[..k]), es[k], at) && at <= Run(now, scope, es[..m]).now
  {
    LegalPrefix(now, scope, es, m);
    var x := Run(now, scope, es[..m]).queue[0];
    k := PendingWasArmed(now, scope, es[..m], x);
    assert es[..m][..k] == es[..k];
    at := x.at;
  }

  // ---- what is transmitted ----

  /** Of the packets that have not expired, none of equal or higher priority is queued. */
  ghost predicate Free(s: State, p: Packet) {
    forall j :: Category(p.profile) <= j < |s.queues| ==> Unexpired(s.queues[j], s.now) == []
  }

  lemma {:induction false} FreeIsUncontended(s: State, p: Packet)
    requires |s.queues| == CATEGORIES
    ensures Free(s, p) <==> !Contended(DropBelow(s, CATEGORIES).queues, Category(p.profile))
  {
    DropLeavesUnexpired(s);
    var kept := DropBelow(s, CATEGORIES).queues;
    assert forall j :: 0 <= j < CATEGORIES ==> kept[j] == Unexpired(s.queues[j], s.now);
  }

  /** A limited queue forgets the least number of packets that leaves room for one more, an unlimited one none. */
  lemma {:induction false} RoomIsLeast(limit: nat, length: nat)
    ensures var k := Excess(limit, length);
      && (limit == 0 ==> k == 0)
      && (limit > 0 ==> k <= length && length - k < limit && (k > 0 ==> length - (k - 1) >= limit))
  {
  }

  /** A packet is transmitted at once exactly if it is free to go and its delay is zero, and otherwise queued. */
  lemma {:induction false} RequestExactly(s: State, scope: nat, p: Packet, d: Delays)
    requires |s.queues| == CATEGORIES
    ensures var r := AfterRequest(s, scope, p, d);
      var ac, kept := Category(p.profile), Unexpireds(s.queues, s.now);
      if Free(s, p) && d(p) == 0 then
        r.sent == s.sent + [Sent(p, s.now, s.now)] && r.queues == kept && r.queue == s.queue
      else
        && r.sent == s.sent
        && r.queues == kept[ac := kept[ac][Excess(s.limit, |kept[ac]|)..] + [Waiting(p, s.now, s.now + p.lifetime)]]
        && r.queue == if AllEmpty(kept) then Insert(s.queue, Due(s.now + d(p), scope)) else s.queue
  {
    FreeIsUncontended(s, p);
    DropLeavesUnexpired(s);
    DropBelowQueues(s, CATEGORIES, 0);
  }

  /** Sent at once by a request that is free to go. */
  ghost predicate SentAtOnce(s: State, e: Event, t: Sent) {
    e.Requests? && t == Sent(e.p, s.now, s.now) && Free(s, e.p) && e.delays(e.p) == 0
  }

  /** The first packet of a queue that no other one precedes, neither by its delay nor by its priority. */
  ghost predicate InFront(kept: seq<seq<Waiting>>, d: Delays, i: nat) {
    && i < |kept| && kept[i] != [] && d(kept[i][0].packet) < NEVER
    && forall j :: 0 <= j < |kept| && kept[j] != [] ==>
         d(kept[i][0].packet) <= d(kept[j][0].packet) && (j > i ==> d(kept[i][0].packet) < d(kept[j][0].packet))
  }

  /** Sent by a trigger, in front of all packets that have not expired. */
  ghost predicate SentByTrigger(s: State, e: Event, t: Sent) {
    e.Fires? && exists i: nat :: SentFrom(Unexpireds(s.queues, s.now), e.delays, i, s.now, t)
  }

  ghost predicate SentFrom(kept: seq<seq<Waiting>>, d: Delays, i: nat, now: int, t: Sent) {
    InFront(kept, d, i) && t == Sent(kept[i][0].packet, kept[i][0].requested, now)
  }

  /** At most one packet is sent by an event, for one of the two reasons. */
  ghost predicate SentFor(s: State, e: Event, sent: seq<Sent>) {
    || sent == s.sent
    || (|sent| == |s.sent| + 1 && sent[..|s.sent|] == s.sent
        && (SentAtOnce(s, e, sent[|s.sent|]) || SentByTrigger(s, e, sent[|s.sent|])))
  }

  lemma {:induction false} TriggerSends(s: State, scope: nat, d: Delays, later: Delays)
    requires |s.queues| == CATEGORIES
    ensures SentFor(s, Fires(d, later), AfterTrigger(s, scope, d, later).sent)
  {
    DropLeavesUnexpired(s);
    DropBelowQueues(s, CATEGORIES, 0);
    var kept := Unexpireds(s.queues, s.now);
    NextIsEarliest(kept, d, 0);
    var i := Next(kept, d, 0);
    if i.Some? {
      var w := kept[i.value][0];
      assert SentFrom(kept, d, i.value, s.now, Sent(w.packet, w.requested, s.now));
    }
  }

  lemma {:induction false} RequestSends(s: State, scope: nat, p: Packet, d: Delays)
    requires |s.queues| == CATEGORIES
    ensures SentFor(s, Requests(p, d), AfterRequest(s, scope, p, d).sent)
  {
    RequestExactly(s, scope, p, d);
  }

  lemma {:induction false} StepSends(s: State, scope: nat, e: Event)
    requires |s.queues| == CATEGORIES
    ensures SentFor(s, e, Step(s, scope, e).sent)
  {
    match e
    case Requests(p, d) => RequestSends(s, scope, p, d);
    case Fires(d, later) => TriggerSends(s.(queue := if s.queue == [] then [] else s.queue[1..]), scope, d, later);
    case _ =>
  }

  /**
   In every run, each transmission was made at once for a request that was free to go, or by a trigger for
   the packet in front.
   */
  lemma {:induction false} SentForAReason(now: int, scope: nat, es: seq<Event>, i: nat) returns (m: nat)
    requires i < |Run(now, scope, es).sent|
    ensures m < |es| && Run(now, scope, es[..m]).sent == Run(now, scope, es).sent[..i]
    ensures var s, t := Run(now, scope, es[..m]), Run(now, scope, es).sent[i];
      SentAtOnce(s, es[m], t) || SentByTrigger(s, es[m], t)
    decreases |es|
  {
    var before := es[..|es| - 1];
    var s, sent := Run(now, scope, before), Run(now, scope, es).sent;
    StepSends(s, scope, es[|es| - 1]);
    if i < |s.sent| {
      m := SentForAReason(now, scope, before, i);
      assert before[..m] == es[..m];
      assert sent[..i] == s.sent[..i] && sent[i] == s.sent[i];
    } else {
      m := |es| - 1;
    }
  }
}
