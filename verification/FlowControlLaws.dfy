/**
 Conservation and order in the DCC gatekeeper: every requested packet is transmitted, dropped or
 still queued, and within an access category packets never overtake each other.
 */
module FlowControlLaws {
  import opened FlowControls
  import opened FlowControlRuns
  import opened Subsequences

  function WaitingPackets(q: seq<Waiting>): seq<Packet> {
    seq(|q|, i requires 0 <= i < |q| => q[i].packet)
  }

  // ---- conservation ----

  function SentPackets(sent: seq<Sent>): seq<Packet> {
    seq(|sent|, i requires 0 <= i < |sent| => sent[i].packet)
  }

  function DroppedPackets(dropped: seq<Drop>): seq<Packet> {
    seq(|dropped|, i requires 0 <= i < |dropped| => dropped[i].packet)
  }

  /** The packets in the first k queues. */
  ghost function Queued(qs: seq<seq<Waiting>>, k: nat): multiset<Packet>
    requires k <= |qs|
  {
    if k == 0 then multiset{} else Queued(qs, k - 1) + multiset(WaitingPackets(qs[k - 1]))
  }

  ghost function Accounted(s: State): multiset<Packet> {
    multiset(SentPackets(s.sent)) + multiset(DroppedPackets(s.dropped)) + Queued(s.queues, |s.queues|)
  }

  lemma {:induction false} BagSwap<T>(a: multiset<T>, b: multiset<T>, c: multiset<T>)
    ensures (a + b) + c == (a + c) + b
  {
  }

  lemma {:induction false} BagCancel<T>(a: multiset<T>, b: multiset<T>, c: multiset<T>)
    requires a + c == b + c
    ensures a == b
  {
    assert a == (a + c) - c;
    assert b == (b + c) - c;
  }

  lemma {:induction false} QueuedElsewhere(qs: seq<seq<Waiting>>, i: nat, q: seq<Waiting>, k: nat)
    requires k <= i < |qs|
    ensures Queued(qs[i := q], k) == Queued(qs, k)
    decreases k
  {
    if k > 0 {
      QueuedElsewhere(qs, i, q, k - 1);
    }
  }

  lemma {:induction false} QueuedUpdate(qs: seq<seq<Waiting>>, i: nat, q: seq<Waiting>, k: nat)
    requires i < k <= |qs|
    ensures Queued(qs[i := q], k) + multiset(WaitingPackets(qs[i])) == Queued(qs, k) + multiset(WaitingPackets(q))
    decreases k
  {
    var x, y := multiset(WaitingPackets(qs[i])), multiset(WaitingPackets(q));
    if i == k - 1 {
      QueuedElsewhere(qs, i, q, i);
      BagSwap(Queued(qs, i), y, x);
    } else {
      var z := multiset(WaitingPackets(qs[k - 1]));
      QueuedUpdate(qs, i, q, k - 1);
      BagSwap(Queued(qs[i := q], k - 1), z, x);
      BagSwap(Queued(qs, k - 1), z, y);
    }
  }

  lemma {:induction false} ConcatPackets(a: seq<Waiting>, b: seq<Waiting>)
    ensures WaitingPackets(a + b) == WaitingPackets(a) + WaitingPackets(b)
  {
  }

  lemma {:induction false} ConcatDrops(a: seq<Drop>, b: seq<Drop>)
    ensures DroppedPackets(a + b) == DroppedPackets(a) + DroppedPackets(b)
  {
  }

  lemma {:induction false} AppendSent(sent: seq<Sent>, t: Sent)
    ensures SentPackets(sent + [t]) == SentPackets(sent) + [t.packet]
  {
  }

  lemma {:induction false} ExpirySplits(q: seq<Waiting>, now: int)
    ensures multiset(WaitingPackets(q))
         == multiset(WaitingPackets(Unexpired(q, now))) + multiset(DroppedPackets(ExpiryDrops(q, now)))
  {
    if q != [] {
      ExpirySplits(q[1..], now);
      assert q == [q[0]] + q[1..];
      ConcatPackets([q[0]], q[1..]);
      assert WaitingPackets([q[0]]) == [q[0].packet];
      if q[0].expiry < now {
        ConcatDrops([Drop(q[0].packet, q[0].packet)], ExpiryDrops(q[1..], now));
        assert DroppedPackets([Drop(q[0].packet, q[0].packet)]) == [q[0].packet];
      } else {
        ConcatPackets([q[0]], Unexpired(q[1..], now));
      }
    }
  }

  /** Moving packets from one queue to the drops keeps the account. */
  lemma {:induction false} DropAccounts(s: State, i: nat, q: seq<Waiting>, drops: seq<Drop>)
    requires i < |s.queues|
    requires multiset(WaitingPackets(s.queues[i])) == multiset(WaitingPackets(q)) + multiset(DroppedPackets(drops))
    ensures Accounted(s.(queues := s.queues[i := q], dropped := s.dropped + drops)) == Accounted(s)
  {
    QueuedUpdate(s.queues, i, q, |s.queues|);
    ConcatDrops(s.dropped, drops);
    var x, y, d := multiset(WaitingPackets(s.queues[i])), multiset(WaitingPackets(q)), multiset(DroppedPackets(drops));
    var before, after := Queued(s.queues, |s.queues|), Queued(s.queues[i := q], |s.queues|);
    MovedBag(before, after, x, y, d);
    MovedAccount(multiset(SentPackets(s.sent)), multiset(DroppedPackets(s.dropped)), d, before, after);
  }

  lemma {:induction false} MovedBag<T>(before: multiset<T>, after: multiset<T>, x: multiset<T>, y: multiset<T>,
                                       d: multiset<T>)
    requires after + x == before + y && x == y + d
    ensures after + d == before
  {
    assert (after + d) + y == after + x;
    BagCancel(after + d, before, y);
  }

  lemma {:induction false} MovedAccount<T>(s: multiset<T>, d0: multiset<T>, d: multiset<T>, before: multiset<T>,
                                           after: multiset<T>)
    requires after + d == before
    ensures s + (d0 + d) + after == s + d0 + before
  {
  }

  lemma {:induction false} DropBelowAccounts(s: State, k: nat)
    requires k <= |s.queues|
    ensures Accounted(DropBelow(s, k)) == Accounted(s)
    decreases k
  {
    if k > 0 {
      var q := s.queues[k - 1];
      ExpirySplits(q, s.now);
      DropAccounts(s, k - 1, Unexpired(q, s.now), ExpiryDrops(q, s.now));
      DropBelowAccounts(s.(queues := s.queues[k - 1 := Unexpired(q, s.now)],
                           dropped := s.dropped + ExpiryDrops(q, s.now)), k - 1);
    }
  }

  lemma {:induction false} OverflowSplits(q: seq<Waiting>, k: nat, p: Packet)
    requires k <= |q|
    ensures multiset(WaitingPackets(q))
         == multiset(WaitingPackets(q[k..])) + multiset(DroppedPackets(OverflowDrops(q, k, p)))
  {
    assert q == q[..k] + q[k..];
    ConcatPackets(q[..k], q[k..]);
    assert DroppedPackets(OverflowDrops(q, k, p)) == WaitingPackets(q[..k]);
  }

  lemma {:induction false} JoinedBag<T>(before: multiset<T>, after: multiset<T>, x: multiset<T>, p: T)
    requires after + x == before + (x + multiset{p})
    ensures after == before + multiset{p}
  {
    assert after + x == (before + multiset{p}) + x;
    BagCancel(after, before + multiset{p}, x);
  }

  lemma {:induction false} JoinAccounts(s: State, ac: nat, p: Packet)
    requires ac < |s.queues|
    ensures Accounted(Join(s, ac, p)) == Accounted(s) + multiset{p}
  {
    var w := Waiting(p, s.now, s.now + p.lifetime);
    JoinedQueue(s.queues, ac, w);
    assert Join(s, ac, p) == s.(queues := s.queues[ac := s.queues[ac] + [w]]);
  }

  lemma {:induction false} JoinedQueue(qs: seq<seq<Waiting>>, ac: nat, w: Waiting)
    requires ac < |qs|
    ensures Queued(qs[ac := qs[ac] + [w]], |qs|) == Queued(qs, |qs|) + multiset{w.packet}
  {
    var q := qs[ac];
    QueuedUpdate(qs, ac, q + [w], |qs|);
    ConcatPackets(q, [w]);
    assert WaitingPackets([w]) == [w.packet];
    JoinedBag(Queued(qs, |qs|), Queued(qs[ac := q + [w]], |qs|), multiset(WaitingPackets(q)), w.packet);
  }

  lemma {:induction false} RoomAccounts(s: State, ac: nat, p: Packet)
    requires ac < |s.queues|
    ensures Accounted(MakeRoom(s, ac, p)) == Accounted(s)
  {
    var q := s.queues[ac];
    var k := Excess(s.limit, |q|);
    OverflowSplits(q, k, p);
    DropAccounts(s, ac, q[k..], OverflowDrops(q, k, p));
  }

  lemma {:induction false} EnqueueAccounts(s: State, scope: nat, p: Packet, d: Delays)
    requires |s.queues| == CATEGORIES
    ensures Accounted(AfterEnqueue(s, scope, p, d)) == Accounted(s) + multiset{p}
  {
    var ac := Category(p.profile);
    RoomAccounts(s, ac, p);
    JoinAccounts(MakeRoom(s, ac, p), ac, p);
  }

  lemma {:induction false} RequestAccounts(s: State, scope: nat, p: Packet, d: Delays)
    requires |s.queues| == CATEGORIES
    ensures Accounted(AfterRequest(s, scope, p, d)) == Accounted(s) + multiset{p}
  {
    DropBelowAccounts(s, CATEGORIES);
    var t := DropBelow(s, CATEGORIES);
    EnqueueAccounts(t, scope, p, d);
    AppendSent(t.sent, Sent(p, t.now, t.now));
  }

  lemma {:induction false} DequeueAccounts(s: State, d: Delays)
    ensures Accounted(AfterDequeue(s, d)) == Accounted(s)
  {
    var i := Next(s.queues, d, 0);
    if i.Some? {
      var q := s.queues[i.value];
      HeadAccounts(s, i.value);
      AppendSent(s.sent, Sent(q[0].packet, q[0].requested, s.now));
    }
  }

  lemma {:induction false} HeadAccounts(s: State, i: nat)
    requires i < |s.queues| && s.queues[i] != []
    ensures Queued(s.queues[i := s.queues[i][1..]], |s.queues|) + multiset{s.queues[i][0].packet}
         == Queued(s.queues, |s.queues|)
  {
    var q := s.queues[i];
    QueuedUpdate(s.queues, i, q[1..], |s.queues|);
    assert q == [q[0]] + q[1..];
    ConcatPackets([q[0]], q[1..]);
    assert WaitingPackets([q[0]]) == [q[0].packet];
    MovedBag(Queued(s.queues, |s.queues|), Queued(s.queues[i := q[1..]], |s.queues|),
             multiset(WaitingPackets(q)), multiset(WaitingPackets(q[1..])), multiset{q[0].packet});
  }

  ghost function EventPackets(e: Event): seq<Packet> {
    if e.Requests? then [e.p] else []
  }

  ghost function RequestedPackets(es: seq<Event>): seq<Packet> {
    if es == [] then [] else RequestedPackets(es[..|es| - 1]) + EventPackets(es[|es| - 1])
  }

  lemma {:induction false} TriggerAccounts(t: State, scope: nat, d: Delays, later: Delays)
    requires |t.queues| == CATEGORIES
    ensures Accounted(AfterTrigger(t, scope, d, later)) == Accounted(t)
  {
    DropBelowAccounts(t, CATEGORIES);
    DequeueAccounts(DropBelow(t, CATEGORIES), d);
  }

  lemma {:induction false} StepAccounts(s: State, scope: nat, e: Event)
    requires |s.queues| == CATEGORIES
    ensures Accounted(Step(s, scope, e)) == Accounted(s) + multiset(EventPackets(e))
  {
    match e
    case Requests(p, d) => RequestAccounts(s, scope, p, d);
    case Fires(d, later) => FireAccounts(s, scope, d, later);
    case _ => assert EventPackets(e) == [];
  }

  lemma {:induction false} FireAccounts(s: State, scope: nat, d: Delays, later: Delays)
    requires |s.queues| == CATEGORIES
    ensures Accounted(Step(s, scope, Fires(d, later))) == Accounted(s)
  {
    TriggerAccounts(s.(queue := if s.queue == [] then [] else s.queue[1..]), scope, d, later);
  }

  /** Conservation: every requested packet has been transmitted, has been dropped or is queued. */
  lemma {:induction false} PacketsAreConserved(now: int, scope: nat, es: seq<Event>)
    ensures Accounted(Run(now, scope, es)) == multiset(RequestedPackets(es))
    decreases |es|
  {
    if es != [] {
      PacketsAreConserved(now, scope, es[..|es| - 1]);
      StepAccounts(Run(now, scope, es[..|es| - 1]), scope, es[|es| - 1]);
    }
  }

  function QueuedCount(qs: seq<seq<Waiting>>, k: nat): nat
    requires k <= |qs|
  {
    if k == 0 then 0 else QueuedCount(qs, k - 1) + |qs[k - 1]|
  }

  lemma {:induction false} QueuedSize(qs: seq<seq<Waiting>>, k: nat)
    requires k <= |qs|
    ensures |Queued(qs, k)| == QueuedCount(qs, k)
    decreases k
  {
    if k > 0 {
      QueuedSize(qs, k - 1);
    }
  }

  /** At all times requests = calls of the transmit hook + calls of the drop hook + queued packets. */
  lemma {:induction false} HookCallsAddUp(now: int, scope: nat, es: seq<Event>)
    ensures var s := Run(now, scope, es);
            |RequestedPackets(es)| == |s.sent| + |s.dropped| + QueuedCount(s.queues, CATEGORIES)
  {
    PacketsAreConserved(now, scope, es);
    var s := Run(now, scope, es);
    QueuedSize(s.queues, CATEGORIES);
    assert |multiset(RequestedPackets(es))| == |RequestedPackets(es)|;
  }

  // ---- order within an access category ----

  function Of(ps: seq<Packet>, ac: nat): seq<Packet> {
    if ps == [] then []
    else
      var p := ps[|ps| - 1];
      Of(ps[..|ps| - 1], ac) + if Category(p.profile) == ac then [p] else []
  }

  lemma {:induction false} OfAppend(ps: seq<Packet>, p: Packet, ac: nat)
    ensures Of(ps + [p], ac) == Of(ps, ac) + if Category(p.profile) == ac then [p] else []
  {
    assert (ps + [p])[..|ps|] == ps;
  }

  /** Packets of a category in the order they leave: the transmitted ones, then the queue. */
  function Line(s: State, ac: nat): seq<Packet>
    requires ac < |s.queues|
  {
    Of(SentPackets(s.sent), ac) + WaitingPackets(s.queues[ac])
  }

  lemma {:induction false} UnexpiredSubseq(q: seq<Waiting>, now: int)
    ensures Subseq(WaitingPackets(Unexpired(q, now)), WaitingPackets(q))
  {
    if q != [] {
      UnexpiredSubseq(q[1..], now);
      var rest := WaitingPackets(q[1..]);
      assert q == [q[0]] + q[1..];
      ConcatPackets([q[0]], q[1..]);
      assert WaitingPackets([q[0]]) == [q[0].packet];
      if q[0].expiry < now {
        SuffixIsSubseq([q[0].packet] + rest, 1);
        SubseqTrans(WaitingPackets(Unexpired(q, now)), rest, [q[0].packet] + rest);
      } else {
        ConcatPackets([q[0]], Unexpired(q[1..], now));
        SubseqPrepend([q[0].packet], WaitingPackets(Unexpired(q[1..], now)), rest);
      }
    }
  }

  lemma {:induction false} DropLine(s: State, ac: nat)
    requires |s.queues| == CATEGORIES && ac < CATEGORIES
    ensures Subseq(Line(DropBelow(s, CATEGORIES), ac), Line(s, ac))
  {
    DropBelowQueues(s, CATEGORIES, ac);
    UnexpiredSubseq(s.queues[ac], s.now);
    SubseqPrepend(Of(SentPackets(s.sent), ac), WaitingPackets(Unexpired(s.queues[ac], s.now)),
                  WaitingPackets(s.queues[ac]));
  }

  /** The line of the packet's own category: the oldest are forgotten, the packet joins at the end. */
  lemma {:induction false} EnqueueOwnLine(s: State, p: Packet)
    requires |s.queues| == CATEGORIES
    ensures var ac := Category(p.profile);
      Subseq(Line(Join(MakeRoom(s, ac, p), ac, p), ac), Line(s, ac) + [p])
  {
    var ac := Category(p.profile);
    var q := s.queues[ac];
    AppendLine(Of(SentPackets(s.sent), ac), q, Excess(s.limit, |q|), Waiting(p, s.now, s.now + p.lifetime));
  }

  lemma {:induction false} OfOne(p: Packet, ac: nat)
    ensures Of([p], ac) == if Category(p.profile) == ac then [p] else []
  {
    OfAppend([], p, ac);
    assert [] + [p] == [p];
  }

  lemma {:induction false} EnqueueLine(s: State, scope: nat, p: Packet, d: Delays, ac: nat)
    requires |s.queues| == CATEGORIES && ac < CATEGORIES
    ensures Subseq(Line(AfterEnqueue(s, scope, p, d), ac), Line(s, ac) + Of([p], ac))
  {
    OfOne(p, ac);
    var own := Category(p.profile);
    JoinedLine(s, scope, p, d, ac, Join(MakeRoom(s, own, p), own, p));
    if own == ac {
      EnqueueOwnLine(s, p);
    } else {
      SubseqRefl(Line(s, ac));
      NothingAdded(Line(s, ac));
    }
  }

  lemma {:induction false} NothingAdded(line: seq<Packet>)
    ensures line + [] == line
  {
  }

  /** Scheduling the trigger does not change a line, and a packet joins that of its own category. */
  lemma {:induction false} JoinedLine(s: State, scope: nat, p: Packet, d: Delays, ac: nat, joined: State)
    requires |s.queues| == CATEGORIES && ac < CATEGORIES
    requires var own := Category(p.profile); joined == Join(MakeRoom(s, own, p), own, p)
    ensures Line(AfterEnqueue(s, scope, p, d), ac) == Line(joined, ac)
    ensures Category(p.profile) != ac ==> Line(joined, ac) == Line(s, ac)
  {
  }

  lemma {:induction false} AppendLine(sent: seq<Packet>, q: seq<Waiting>, k: nat, w: Waiting)
    requires k <= |q|
    ensures Subseq(sent + WaitingPackets(q[k..] + [w]), sent + WaitingPackets(q) + [w.packet])
  {
    var all := WaitingPackets(q);
    assert WaitingPackets(q[k..] + [w]) == all[k..] + [w.packet];
    SuffixIsSubseq(all, k);
    SubseqPrepend(sent, all[k..], all);
    SubseqAppend(sent + all[k..], sent + all, w.packet);
    assert sent + (all[k..] + [w.packet]) == sent + all[k..] + [w.packet];
  }

  lemma {:induction false} SendLine(s: State, p: Packet, ac: nat)
    requires |s.queues| == CATEGORIES && ac < CATEGORIES && !Contended(s.queues, Category(p.profile))
    ensures Line(s.(sent := s.sent + [Sent(p, s.now, s.now)]), ac) == Line(s, ac) + Of([p], ac)
  {
    AppendSent(s.sent, Sent(p, s.now, s.now));
    OfAppend(SentPackets(s.sent), p, ac);
    OfOne(p, ac);
    assert Category(p.profile) == ac ==> s.queues[ac] == [];
  }

  /** A request appends its packet to its category, possibly after taking others out. */
  lemma {:induction false} RequestLine(s: State, scope: nat, p: Packet, d: Delays, ac: nat)
    requires |s.queues| == CATEGORIES && ac < CATEGORIES
    ensures Subseq(Line(AfterRequest(s, scope, p, d), ac), Line(s, ac) + Of([p], ac))
  {
    var t := DropBelow(s, CATEGORIES);
    DropLine(s, ac);
    var tail := Of([p], ac);
    SubseqConcat(Line(t, ac), Line(s, ac), tail);
    if !Contended(t.queues, Category(p.profile)) && d(p) == 0 {
      SendLine(t, p, ac);
    } else {
      EnqueueLine(t, scope, p, d, ac);
      SubseqTrans(Line(AfterRequest(s, scope, p, d), ac), Line(t, ac) + tail, Line(s, ac) + tail);
    }
  }

  /** A transmission from a queue moves the packet within its category's line. */
  lemma {:induction false} DequeueLine(s: State, d: Delays, ac: nat)
    requires |s.queues| == CATEGORIES && ac < CATEGORIES && FreshWaiting(s)
    ensures Line(AfterDequeue(s, d), ac) == Line(s, ac)
  {
    var i := Next(s.queues, d, 0);
    if i.Some? {
      var q := s.queues[i.value];
      assert q[0] in q;
      HeadLine(s, i.value, ac);
    }
  }

  lemma {:induction false} HeadLine(s: State, i: nat, ac: nat)
    requires i < |s.queues| && ac < |s.queues| && s.queues[i] != [] && Category(s.queues[i][0].packet.profile) == i
    ensures var w := s.queues[i][0];
      var sent := s.sent + [Sent(w.packet, w.requested, s.now)];
      Line(s.(queues := s.queues[i := s.queues[i][1..]], sent := sent), ac) == Line(s, ac)
  {
    var q := s.queues[i];
    AppendSent(s.sent, Sent(q[0].packet, q[0].requested, s.now));
    OfAppend(SentPackets(s.sent), q[0].packet, ac);
    assert WaitingPackets(q) == [q[0].packet] + WaitingPackets(q[1..]);
  }

  lemma {:induction false} TriggerLine(t: State, scope: nat, d: Delays, later: Delays, ac: nat)
    requires |t.queues| == CATEGORIES && ac < CATEGORIES && FreshInv(t)
    ensures Subseq(Line(AfterTrigger(t, scope, d, later), ac), Line(t, ac))
  {
    DropLine(t, ac);
    DropFresh(t);
    DequeueLine(DropBelow(t, CATEGORIES), d, ac);
  }

  lemma {:induction false} StepLine(s: State, scope: nat, e: Event, ac: nat)
    requires |s.queues| == CATEGORIES && ac < CATEGORIES && FreshInv(s)
    ensures Subseq(Line(Step(s, scope, e), ac), Line(s, ac) + Of(EventPackets(e), ac))
  {
    match e
    case Requests(p, d) => RequestLine(s, scope, p, d, ac);
    case _ =>
      assert Line(s, ac) + [] == Line(s, ac);
      OtherLine(s, scope, e, ac);
  }

  lemma {:induction false} OtherLine(s: State, scope: nat, e: Event, ac: nat)
    requires |s.queues| == CATEGORIES && ac < CATEGORIES && FreshInv(s) && !e.Requests?
    ensures Subseq(Line(Step(s, scope, e), ac), Line(s, ac))
  {
    match e
    case Fires(d, later) => TriggerLine(s.(queue := if s.queue == [] then [] else s.queue[1..]), scope, d, later, ac);
    case Passes(_) => SubseqRefl(Line(s, ac));
    case Reschedules(_) => SubseqRefl(Line(s, ac));
    case Limits(_) => SubseqRefl(Line(s, ac));
    case OtherSchedules(_, _) => SubseqRefl(Line(s, ac));
    case OtherFires => SubseqRefl(Line(s, ac));
    case OtherCancels(_) => SubseqRefl(Line(s, ac));
  }

  /**
   In every run and for every access category, the transmitted packets followed by the queued ones
   are a subsequence of the requested ones: no packet overtakes another of its category, not even
   one that is transmitted at once.
   */
  lemma {:induction false} OrderIsKept(now: int, scope: nat, es: seq<Event>, ac: nat)
    requires ac < CATEGORIES
    ensures Subseq(Line(Run(now, scope, es), ac), Of(RequestedPackets(es), ac))
    decreases |es|
  {
    if es != [] {
      var before := es[..|es| - 1];
      var s, e := Run(now, scope, before), es[|es| - 1];
      OrderIsKept(now, scope, before, ac);
      RunFresh(now, scope, before);
      StepLine(s, scope, e, ac);
      SubseqConcat(Line(s, ac), Of(RequestedPackets(before), ac), Of(EventPackets(e), ac));
      OfConcat(RequestedPackets(before), e, ac);
      SubseqTrans(Line(Run(now, scope, es), ac), Line(s, ac) + Of(EventPackets(e), ac), Of(RequestedPackets(es), ac));
    }
  }

  lemma {:induction false} OfConcat(ps: seq<Packet>, e: Event, ac: nat)
    ensures Of(ps + EventPackets(e), ac) == Of(ps, ac) + Of(EventPackets(e), ac)
  {
    if e.Requests? {
      OfAppend(ps, e.p, ac);
      OfOne(e.p, ac);
    } else {
      assert ps + [] == ps;
    }
  }
}
