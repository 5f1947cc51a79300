/**
 The DCC gatekeeper above the access layer: one queue per access category, expiry, and triggers
 scheduled on the runtime.  The delays imposed by transmit rate control are inputs of every
 operation, since they change with each transmission and with the channel load.
 */
module FlowControls {
  import opened Options
  import opened DueList
  import opened ManualRuntimes

  datatype Profile = DP0 | DP1 | DP2 | DP3

  // Access categories by priority: background, best effort, video, voice
  const CATEGORIES: nat := 4

  function Category(profile: Profile): (ac: nat)
    ensures ac < CATEGORIES
  {
    match profile
    case DP0 => 3
    case DP1 => 2
    case DP2 => 1
    case DP3 => 0
  }

  // tag stands for addresses and payload
  datatype Packet = Packet(profile: Profile, size: nat, lifetime: int, tag: nat)

  datatype Waiting = Waiting(packet: Packet, requested: int, expiry: int)

  datatype Sent = Sent(packet: Packet, requested: int, at: int)

  // The packet that left its queue, and the packet the drop hook was told about
  datatype Drop = Drop(packet: Packet, reported: Packet)

  type Delays = Packet -> int

  // Clock::duration::max() in microseconds
  const NEVER: int := 0x7FFF_FFFF_FFFF_FFFF

  datatype State = State(
    now: int,
    queue: Queue,
    queues: seq<seq<Waiting>>,
    limit: nat,
    sent: seq<Sent>,
    dropped: seq<Drop>)

  // ---- expiry ----

  function Unexpired(q: seq<Waiting>, now: int): seq<Waiting> {
    if q == [] then []
    else if q[0].expiry < now then Unexpired(q[1..], now)
    else [q[0]] + Unexpired(q[1..], now)
  }

  function ExpiryDrops(q: seq<Waiting>, now: int): seq<Drop> {
    if q == [] then []
    else if q[0].expiry < now then [Drop(q[0].packet, q[0].packet)] + ExpiryDrops(q[1..], now)
    else ExpiryDrops(q[1..], now)
  }

  /** Drops expired packets from the categories below k, highest priority first. */
  function DropBelow(s: State, k: nat): (r: State)
    requires k <= |s.queues|
    ensures |r.queues| == |s.queues|
    decreases k
  {
    if k == 0 then s
    else
      var q := s.queues[k - 1];
      DropBelow(s.(queues := s.queues[k - 1 := Unexpired(q, s.now)],
                   dropped := s.dropped + ExpiryDrops(q, s.now)), k - 1)
  }

  // ---- the next queue ----

  /** The non-empty queue from category k upwards whose first packet may be sent earliest; ties go to priority. */
  function Next(qs: seq<seq<Waiting>>, d: Delays, k: nat): (r: Option<nat>)
    requires k <= |qs|
    ensures r.Some? ==> k <= r.value < |qs| && qs[r.value] != [] && d(qs[r.value][0].packet) < NEVER
    decreases |qs| - k
  {
    if k == |qs| then None
    else
      var r := Next(qs, d, k + 1);
      var bound := if r.Some? then d(qs[r.value][0].packet) else NEVER;
      if qs[k] != [] && d(qs[k][0].packet) < bound then Some(k) else r
  }

  predicate AllEmpty(qs: seq<seq<Waiting>>) {
    forall i :: 0 <= i < |qs| ==> qs[i] == []
  }

  // ---- operations ----

  function Scheduled(s: State, scope: nat, delay: int): State {
    s.(queue := Insert(s.queue, Due(s.now + delay, scope)))
  }

  /** How many packets a full queue forgets before the next one is appended. */
  function Excess(limit: nat, length: nat): nat {
    if limit > 0 && length >= limit then length - limit + 1 else 0
  }

  /** The drop hook is told about the new packet, not about the forgotten ones. */
  function OverflowDrops(q: seq<Waiting>, k: nat, p: Packet): seq<Drop>
    requires k <= |q|
  {
    seq(k, i requires 0 <= i < k => Drop(q[i].packet, p))
  }

  /** A full queue forgets its oldest packets. */
  function MakeRoom(s: State, ac: nat, p: Packet): (r: State)
    requires ac < |s.queues|
    ensures |r.queues| == |s.queues|
  {
    var q := s.queues[ac];
    var k := Excess(s.limit, |q|);
    s.(queues := s.queues[ac := q[k..]], dropped := s.dropped + OverflowDrops(q, k, p))
  }

  function Join(s: State, ac: nat, p: Packet): (r: State)
    requires ac < |s.queues|
    ensures |r.queues| == |s.queues|
  {
    s.(queues := s.queues[ac := s.queues[ac] + [Waiting(p, s.now, s.now + p.lifetime)]])
  }

  function AfterEnqueue(s: State, scope: nat, p: Packet, d: Delays): (r: State)
    requires |s.queues| == CATEGORIES
    ensures |r.queues| == CATEGORIES
  {
    var ac := Category(p.profile);
    var r := Join(MakeRoom(s, ac, p), ac, p);
    if AllEmpty(s.queues) then Scheduled(r, scope, d(p)) else r
  }

  predicate Contended(qs: seq<seq<Waiting>>, ac: nat) {
    exists i :: ac <= i < |qs| && qs[i] != []
  }

  function AfterRequest(s: State, scope: nat, p: Packet, d: Delays): (r: State)
    requires |s.queues| == CATEGORIES
    ensures |r.queues| == CATEGORIES
  {
    var t := DropBelow(s, CATEGORIES);
    if !Contended(t.queues, Category(p.profile)) && d(p) == 0
    then t.(sent := t.sent + [Sent(p, t.now, t.now)])
    else AfterEnqueue(t, scope, p, d)
  }

  /** The first packet of the next queue is transmitted. */
  function AfterDequeue(s: State, d: Delays): (r: State)
    ensures |r.queues| == |s.queues|
  {
    var i := Next(s.queues, d, 0);
    if i.None? then s
    else
      var w := s.queues[i.value][0];
      s.(queues := s.queues[i.value := s.queues[i.value][1..]],
         sent := s.sent + [Sent(w.packet, w.requested, s.now)])
  }

  function ScheduleNext(s: State, scope: nat, d: Delays): (r: State)
    ensures r == s.(queue := r.queue)
  {
    var i := Next(s.queues, d, 0);
    if i.None? then s else Scheduled(s, scope, d(s.queues[i.value][0].packet))
  }

  /** d holds before the transmission and later after it. */
  function AfterTrigger(s: State, scope: nat, d: Delays, later: Delays): (r: State)
    requires |s.queues| == CATEGORIES
    ensures |r.queues| == CATEGORIES
  {
    ScheduleNext(AfterDequeue(DropBelow(s, CATEGORIES), d), scope, later)
  }

  function AfterReschedule(s: State, scope: nat, d: Delays): State {
    if Next(s.queues, d, 0).None? then s
    else ScheduleNext(s.(queue := Cancel(s.queue, scope)), scope, d)
  }

  class FlowControl {
    const scope: nat
    const runtime: ManualRuntime
    var queues: seq<seq<Waiting>>
    var limit: nat
    ghost var sent: seq<Sent>
    ghost var dropped: seq<Drop>

    ghost function S(): State
      reads this, runtime
    {
      State(runtime.now, runtime.queue, queues, limit, sent, dropped)
    }

    ghost predicate Valid()
      reads this
    {
      |queues| == CATEGORIES
    }

    constructor (scope: nat, runtime: ManualRuntime)
      ensures this.scope == scope && this.runtime == runtime && Valid()
      ensures S() == State(runtime.now, runtime.queue, [[], [], [], []], 0, [], [])
    {
      this.scope, this.runtime := scope, runtime;
      queues, limit, sent, dropped := [[], [], [], []], 0, [], [];
    }

    method RemoveExpired(ac: nat)
      requires Valid() && ac < CATEGORIES
      modifies this
      ensures Valid()
      ensures S() == old(S()).(queues := old(queues)[ac := Unexpired(old(queues)[ac], runtime.now)],
                               dropped := old(dropped) + ExpiryDrops(old(queues)[ac], runtime.now))
    {
      var q, kept := queues[ac], [];
      ghost var drops := [];
      assert q[0..] == q;
      var i := 0;
      while i < |q|
        invariant i <= |q| && S() == old(S())
        invariant kept + Unexpired(q[i..], runtime.now) == Unexpired(q, runtime.now)
        invariant drops + ExpiryDrops(q[i..], runtime.now) == ExpiryDrops(q, runtime.now)
      {
        assert q[i..][1..] == q[i + 1..];
        if q[i].expiry < runtime.now {
          drops := drops + [Drop(q[i].packet, q[i].packet)];
        } else {
          kept := kept + [q[i]];
        }
        i := i + 1;
      }
      assert q[i..] == [] && kept + [] == kept && drops + [] == drops;
      queues := queues[ac := kept];
      dropped := dropped + drops;
    }

    method DropExpired()
      requires Valid()
      modifies this
      ensures Valid() && S() == DropBelow(old(S()), CATEGORIES)
    {
      var k: nat := CATEGORIES;
      while k > 0
        invariant Valid() && k <= CATEGORIES
        invariant DropBelow(S(), k) == DropBelow(old(S()), CATEGORIES)
      {
        k := k - 1;
        RemoveExpired(k);
      }
    }

    method NextQueue(d: Delays) returns (next: Option<nat>)
      requires Valid()
      ensures next == Next(queues, d, 0)
    {
      next := None;
      var min := NEVER;
      var k: nat := |queues|;
      while k > 0
        invariant k <= |queues|
        invariant next == Next(queues, d, k)
        invariant min == if next.Some? then d(queues[next.value][0].packet) else NEVER
      {
        k := k - 1;
        if queues[k] != [] {
          var delay := d(queues[k][0].packet);
          if delay < min {
            min := delay;
            next := Some(k);
          }
        }
      }
    }

    method ScheduleTrigger(delay: int)
      modifies runtime`queue
      ensures S() == Scheduled(old(S()), scope, delay)
    {
      runtime.Schedule(runtime.now + delay, scope);
    }

    method IsContended(ac: nat) returns (contention: bool)
      ensures contention == Contended(queues, ac)
    {
      contention := false;
      var i: nat := |queues|;
      while i > 0
        invariant i <= |queues|
        invariant contention == exists j :: i <= j < |queues| && ac <= j && queues[j] != []
      {
        i := i - 1;
        if i >= ac && queues[i] != [] {
          contention := true;
        }
      }
    }

    method ForgetOldest(ac: nat, p: Packet)
      requires Valid() && ac < CATEGORIES
      modifies this
      ensures Valid() && S() == MakeRoom(old(S()), ac, p)
    {
      ghost var q := queues[ac];
      ghost var k := 0;
      while limit > 0 && |queues[ac]| >= limit
        invariant Valid() && limit == old(limit) && sent == old(sent)
        invariant k <= |q| && (k > 0 ==> k <= Excess(limit, |q|))
        invariant queues == old(queues)[ac := q[k..]]
        invariant dropped == old(dropped) + OverflowDrops(q, k, p)
        decreases |queues[ac]|
      {
        ghost var w := queues[ac][0];
        queues := queues[ac := queues[ac][1..]];
        dropped := dropped + [Drop(w.packet, p)];
        assert q[k..][1..] == q[k + 1..];
        assert OverflowDrops(q, k + 1, p) == OverflowDrops(q, k, p) + [Drop(w.packet, p)];
        k := k + 1;
      }
    }

    method Enqueue(p: Packet, d: Delays)
      requires Valid()
      modifies this, runtime`queue
      ensures Valid() && S() == AfterEnqueue(old(S()), scope, p, d)
    {
      var first := forall i :: 0 <= i < |queues| ==> queues[i] == [];
      assert first == AllEmpty(old(queues));
      var ac := Category(p.profile);
      ForgetOldest(ac, p);
      queues := queues[ac := queues[ac] + [Waiting(p, runtime.now, runtime.now + p.lifetime)]];
      if first {
        ScheduleTrigger(d(p));
      }
    }

    method Request(p: Packet, d: Delays)
      requires Valid()
      modifies this, runtime`queue
      ensures Valid() && S() == AfterRequest(old(S()), scope, p, d)
    {
      DropExpired();
      var contention := IsContended(Category(p.profile));
      if !contention && d(p) == 0 {
        sent := sent + [Sent(p, runtime.now, runtime.now)];
      } else {
        Enqueue(p, d);
      }
    }

    method Trigger(d: Delays, later: Delays)
      requires Valid()
      modifies this, runtime`queue
      ensures Valid() && S() == AfterTrigger(old(S()), scope, d, later)
    {
      DropExpired();
      ghost var t := S();
      var i := NextQueue(d);
      if i.Some? {
        var w := queues[i.value][0];
        queues := queues[i.value := queues[i.value][1..]];
        sent := sent + [Sent(w.packet, w.requested, runtime.now)];
      }
      assert S() == AfterDequeue(t, d);
      var j := NextQueue(later);
      if j.Some? {
        ScheduleTrigger(later(queues[j.value][0].packet));
      }
    }

    method Reschedule(d: Delays)
      requires Valid()
      modifies runtime`queue
      ensures S() == AfterReschedule(old(S()), scope, d)
    {
      var i := NextQueue(d);
      if i.Some? {
        runtime.CancelScope(scope);
        ScheduleTrigger(d(queues[i.value][0].packet));
      }
    }
  }
}
