/**
 The packet buffer of contention based forwarding (CBF) together with the runtime that drives
 it.  `World` is the joint state of one buffer and its runtime; the step functions below say
 what each operation does to it, and class `CbfPacketBuffer` is the buffer itself.
 */
module CbfBuffers {
  import opened Options
  import opened DueList
  import opened ManualRuntimes

  datatype Id = Id(address: nat, sequence: nat)

  // tag stands for the PDU and its payload
  datatype Packet = Packet(id: Id, length: nat, lifetime: nat, tag: nat)

  datatype Timer = Timer(id: Id, start: int)

  datatype CounterKind = Immortal | Contending

  datatype Config = Config(capacity: nat, counter: CounterKind, scope: nat)

  // What became of a packet that was given to the buffer and is no longer in it
  datatype How = Refused | Duplicate | HeadDropped | Removed | Fetched | Delivered | Expired
  datatype Fate = Fate(how: How, packet: Packet, at: int)

  datatype World = World(
    now: int,
    queue: Queue,
    packets: seq<Packet>,
    timers: seq<Due<Timer>>,
    counters: map<Id, nat>,
    stored: int,
    log: seq<Fate>)

  // ---- the packet list and the timer map refer to the same packets ----

  /** Number of packets with an identifier. */
  function PacketCount(ps: seq<Packet>, id: Id): nat {
    if ps == [] then 0 else (if ps[0].id == id then 1 else 0) + PacketCount(ps[1..], id)
  }

  /** Number of timers with an identifier. */
  function TimerCount(ts: seq<Due<Timer>>, id: Id): nat {
    if ts == [] then 0 else (if ts[0].what.id == id then 1 else 0) + TimerCount(ts[1..], id)
  }

  /** Distinct identifiers, the same ones in the packet list and in the timer map. */
  ghost predicate Linked(ps: seq<Packet>, ts: seq<Due<Timer>>) {
    forall id :: PacketCount(ps, id) == TimerCount(ts, id) <= 1
  }

  /** Index of the packet with an identifier, or the length of the list. */
  function PacketIndex(ps: seq<Packet>, id: Id): (i: nat)
    ensures i <= |ps|
    ensures i < |ps| ==> ps[i].id == id
    ensures i < |ps| <==> PacketCount(ps, id) > 0
  {
    if ps == [] || ps[0].id == id then 0 else 1 + PacketIndex(ps[1..], id)
  }

  /** Index of the timer with an identifier, or the length of the map. */
  function TimerIndex(ts: seq<Due<Timer>>, id: Id): (i: nat)
    ensures i <= |ts|
    ensures i < |ts| ==> ts[i].what.id == id
    ensures i < |ts| <==> TimerCount(ts, id) > 0
  {
    if ts == [] || ts[0].what.id == id then 0 else 1 + TimerIndex(ts[1..], id)
  }

  lemma {:induction false} PacketCountConcat(a: seq<Packet>, b: seq<Packet>, id: Id)
    ensures PacketCount(a + b, id) == PacketCount(a, id) + PacketCount(b, id)
  {
    if a == [] {
      assert a + b == b;
    } else {
      assert (a + b)[1..] == a[1..] + b;
      PacketCountConcat(a[1..], b, id);
    }
  }

  lemma {:induction false} TimerCountConcat(a: seq<Due<Timer>>, b: seq<Due<Timer>>, id: Id)
    ensures TimerCount(a + b, id) == TimerCount(a, id) + TimerCount(b, id)
  {
    if a == [] {
      assert a + b == b;
    } else {
      assert (a + b)[1..] == a[1..] + b;
      TimerCountConcat(a[1..], b, id);
    }
  }

  lemma {:induction false} PacketCountSplit(ps: seq<Packet>, i: nat, id: Id)
    requires i < |ps|
    ensures PacketCount(ps, id)
         == PacketCount(ps[..i], id) + (if ps[i].id == id then 1 else 0) + PacketCount(ps[i + 1..], id)
  {
    assert ps == ps[..i] + ([ps[i]] + ps[i + 1..]);
    PacketCountConcat(ps[..i], [ps[i]] + ps[i + 1..], id);
    assert ([ps[i]] + ps[i + 1..])[1..] == ps[i + 1..];
  }

  lemma {:induction false} TimerCountSplit(ts: seq<Due<Timer>>, i: nat, id: Id)
    requires i < |ts|
    ensures TimerCount(ts, id)
         == TimerCount(ts[..i], id) + (if ts[i].what.id == id then 1 else 0) + TimerCount(ts[i + 1..], id)
  {
    assert ts == ts[..i] + ([ts[i]] + ts[i + 1..]);
    TimerCountConcat(ts[..i], [ts[i]] + ts[i + 1..], id);
    assert ([ts[i]] + ts[i + 1..])[1..] == ts[i + 1..];
  }

  lemma {:induction false} PacketCountRemove(ps: seq<Packet>, i: nat, id: Id)
    requires i < |ps|
    ensures PacketCount(RemoveAt(ps, i), id) == PacketCount(ps, id) - if ps[i].id == id then 1 else 0
  {
    PacketCountSplit(ps, i, id);
    PacketCountConcat(ps[..i], ps[i + 1..], id);
  }

  lemma {:induction false} TimerCountRemove(ts: seq<Due<Timer>>, i: nat, id: Id)
    requires i < |ts|
    ensures TimerCount(RemoveAt(ts, i), id) == TimerCount(ts, id) - if ts[i].what.id == id then 1 else 0
  {
    TimerCountSplit(ts, i, id);
    TimerCountConcat(ts[..i], ts[i + 1..], id);
  }

  lemma {:induction false} TimerCountInsert(ts: seq<Due<Timer>>, d: Due<Timer>, id: Id)
    ensures TimerCount(Insert(ts, d), id) == TimerCount(ts, id) + if d.what.id == id then 1 else 0
  {
    var k := UpperBound(ts, d.at);
    var r := Insert(ts, d);
    TimerCountSplit(r, k, id);
    assert r[..k] == ts[..k] && r[k + 1..] == ts[k..];
    assert ts == ts[..k] + ts[k..];
    TimerCountConcat(ts[..k], ts[k..], id);
  }

  /** Dropping the packet and the timer of one identifier keeps the containers linked. */
  lemma {:induction false} UnlinkBoth(ps: seq<Packet>, i: nat, ts: seq<Due<Timer>>, j: nat)
    requires Linked(ps, ts) && i < |ps| && j < |ts| && ps[i].id == ts[j].what.id
    ensures Linked(RemoveAt(ps, i), RemoveAt(ts, j))
  {
    forall id ensures PacketCount(RemoveAt(ps, i), id) == TimerCount(RemoveAt(ts, j), id) <= 1 {
      PacketCountRemove(ps, i, id);
      TimerCountRemove(ts, j, id);
    }
  }

  /** Replacing a packet and its timer by ones of the same identifier keeps the containers linked. */
  lemma {:induction false} RestartLinked(ps: seq<Packet>, i: nat, p: Packet, ts: seq<Due<Timer>>, j: nat, d: Due<Timer>)
    requires Linked(ps, ts) && i < |ps| && j < |ts|
    requires p.id == ps[i].id && d.what.id == ts[j].what.id
    ensures Linked(ps[i := p], Insert(RemoveAt(ts, j), d))
  {
    forall id ensures PacketCount(ps[i := p], id) == TimerCount(Insert(RemoveAt(ts, j), d), id) <= 1 {
      TimerCountRemove(ts, j, id);
      TimerCountInsert(RemoveAt(ts, j), d, id);
      PacketCountSplit(ps, i, id);
      PacketCountSplit(ps[i := p], i, id);
      assert ps[i := p][..i] == ps[..i] && ps[i := p][i + 1..] == ps[i + 1..];
    }
  }

  /** Storing a packet and its timer under a new identifier keeps the containers linked. */
  lemma {:induction false} AppendLinked(ps: seq<Packet>, p: Packet, ts: seq<Due<Timer>>, d: Due<Timer>)
    requires Linked(ps, ts) && TimerCount(ts, p.id) == 0 && p.id == d.what.id
    ensures Linked(ps + [p], Insert(ts, d))
  {
    forall id ensures PacketCount(ps + [p], id) == TimerCount(Insert(ts, d), id) <= 1 {
      TimerCountInsert(ts, d, id);
      PacketCountConcat(ps, [p], id);
    }
  }

  /** An identifier has a packet exactly when it has a timer. */
  lemma {:induction false} LinkedIndices(ps: seq<Packet>, ts: seq<Due<Timer>>, id: Id)
    requires Linked(ps, ts)
    ensures PacketIndex(ps, id) < |ps| <==> TimerIndex(ts, id) < |ts|
  {
    assert PacketCount(ps, id) == TimerCount(ts, id);
  }

  lemma {:induction false} TimerCounted(ts: seq<Due<Timer>>, j: nat)
    requires j < |ts|
    ensures TimerCount(ts, ts[j].what.id) > 0
  {
    TimerCountSplit(ts, j, ts[j].what.id);
  }

  lemma {:induction false} LinkedSize(ps: seq<Packet>, ts: seq<Due<Timer>>)
    requires Linked(ps, ts)
    ensures |ps| == |ts|
    decreases |ps|
  {
    if ps != [] {
      var id := ps[0].id;
      LinkedIndices(ps, ts, id);
      var j := TimerIndex(ts, id);
      UnlinkBoth(ps, 0, ts, j);
      LinkedSize(RemoveAt(ps, 0), RemoveAt(ts, j));
    } else {
      assert ts != [] ==> PacketCount(ps, ts[0].what.id) == TimerCount(ts, ts[0].what.id);
    }
  }

  // ---- counters ----

  function Count(m: map<Id, nat>, id: Id): nat {
    if id in m then m[id] else 0
  }

  function CounterAdd(kind: CounterKind, m: map<Id, nat>, id: Id): map<Id, nat> {
    match kind
    case Immortal => m[id := Count(m, id) + 1]
    case Contending => m[id := 1]
  }

  function CounterRemove(kind: CounterKind, m: map<Id, nat>, id: Id): map<Id, nat> {
    match kind
    case Immortal => m
    case Contending => m - {id}
  }

  function CounterIncrement(m: map<Id, nat>, id: Id): map<Id, nat> {
    m[id := Count(m, id) + 1]
  }

  // ---- bytes ----

  function Bytes(ps: seq<Packet>): nat {
    if ps == [] then 0 else ps[0].length + Bytes(ps[1..])
  }

  lemma {:induction false} BytesConcat(a: seq<Packet>, b: seq<Packet>)
    ensures Bytes(a + b) == Bytes(a) + Bytes(b)
  {
    if a == [] {
      assert a + b == b;
    } else {
      assert (a + b)[1..] == a[1..] + b;
      BytesConcat(a[1..], b);
    }
  }

  lemma {:induction false} BytesAppend(ps: seq<Packet>, p: Packet)
    ensures Bytes(ps + [p]) == Bytes(ps) + p.length
  {
    BytesConcat(ps, [p]);
  }

  lemma {:induction false} BytesRemove(ps: seq<Packet>, i: nat)
    requires i < |ps|
    ensures Bytes(RemoveAt(ps, i)) == Bytes(ps) - ps[i].length
    ensures ps[i].length <= Bytes(ps)
  {
    assert ps == ps[..i] + ([ps[i]] + ps[i + 1..]);
    BytesConcat(ps[..i], [ps[i]] + ps[i + 1..]);
    BytesConcat([ps[i]], ps[i + 1..]);
    BytesConcat(ps[..i], ps[i + 1..]);
  }

  lemma {:induction false} BytesReplace(ps: seq<Packet>, i: nat, p: Packet)
    requires i < |ps| && p.length == ps[i].length
    ensures Bytes(ps[i := p]) == Bytes(ps)
  {
    assert ps[i := p] == ps[..i] + ([p] + ps[i + 1..]);
    assert ps == ps[..i] + ([ps[i]] + ps[i + 1..]);
    BytesConcat(ps[..i], [p] + ps[i + 1..]);
    BytesConcat(ps[..i], [ps[i]] + ps[i + 1..]);
    BytesConcat([p], ps[i + 1..]);
    BytesConcat([ps[i]], ps[i + 1..]);
  }

  // ---- steps ----

  /** Lifetime reduction by queuing time, saturating at zero; exact arithmetic. */
  function Reduced(p: Packet, queuing: int): Packet {
    if queuing <= 0 then p
    else if queuing < p.lifetime then p.(lifetime := p.lifetime - queuing)
    else p.(lifetime := 0)
  }

  function AfterSchedule(c: Config, w: World): World
    requires w.timers != []
  {
    w.(queue := Insert(Cancel(w.queue, c.scope), Due(w.timers[0].at, c.scope)))
  }

  /** Takes the packet at i and the timer at j out of both containers, the byte count and the counter. */
  function Unlink(c: Config, w: World, i: nat, j: nat, fate: Fate): (r: World)
    requires Linked(w.packets, w.timers) && i < |w.packets| && j < |w.timers|
    requires w.packets[i].id == w.timers[j].what.id
    ensures Linked(r.packets, r.timers)
  {
    UnlinkBoth(w.packets, i, w.timers, j);
    w.(packets := RemoveAt(w.packets, i),
       timers := RemoveAt(w.timers, j),
       counters := CounterRemove(c.counter, w.counters, w.packets[i].id),
       stored := w.stored - w.packets[i].length,
       log := w.log + [fate])
  }

  function DropFront(c: Config, w: World): (r: World)
    requires Linked(w.packets, w.timers) && w.packets != []
    ensures Linked(r.packets, r.timers)
    ensures r.packets == w.packets[1..]
    ensures r.now == w.now && r.queue == w.queue
  {
    var p := w.packets[0];
    LinkedIndices(w.packets, w.timers, p.id);
    Unlink(c, w, 0, TimerIndex(w.timers, p.id), Fate(HeadDropped, p, w.now))
  }

  function DropMany(c: Config, w: World, k: nat): (r: World)
    requires Linked(w.packets, w.timers) && k <= |w.packets|
    ensures Linked(r.packets, r.timers)
    ensures r.packets == w.packets[k..]
    ensures r.now == w.now && r.queue == w.queue
    decreases k
  {
    if k == 0 then w else DropFront(c, DropMany(c, w, k - 1))
  }

  /** The least number of oldest packets to forget until the rest and extra bytes fit. */
  function DropCount(capacity: nat, ps: seq<Packet>, extra: nat): (k: nat)
    ensures k <= |ps|
    ensures k < |ps| ==> Bytes(ps[k..]) + extra <= capacity
    ensures k > 0 ==> Bytes(ps[k - 1..]) + extra > capacity
  {
    if ps == [] || Bytes(ps) + extra <= capacity then 0
    else
      var n := DropCount(capacity, ps[1..], extra);
      assert ps[1..][n..] == ps[n + 1..];
      assert n > 0 ==> ps[1..][n - 1..] == ps[n..];
      1 + n
  }

  lemma {:induction false} BytesSuffix(ps: seq<Packet>, i: nat, j: nat)
    requires i <= j <= |ps|
    ensures Bytes(ps[j..]) <= Bytes(ps[i..])
    decreases j - i
  {
    if i < j {
      assert ps[i..][1..] == ps[i + 1..];
      BytesSuffix(ps, i + 1, j);
    }
  }

  /** The two bounds on the number of forgotten packets determine it. */
  lemma {:induction false} DropCountUnique(capacity: nat, ps: seq<Packet>, extra: nat, k: nat)
    requires k <= |ps|
    requires k < |ps| ==> Bytes(ps[k..]) + extra <= capacity
    requires k > 0 ==> Bytes(ps[k - 1..]) + extra > capacity
    ensures k == DropCount(capacity, ps, extra)
  {
    var n := DropCount(capacity, ps, extra);
    if k < n {
      BytesSuffix(ps, k, n - 1);
    } else if n < k {
      BytesSuffix(ps, n, k - 1);
    }
  }

  /** Head drop to make room for extra bytes. */
  function HeadDrop(c: Config, w: World, extra: nat): (r: World)
    requires Linked(w.packets, w.timers)
    ensures Linked(r.packets, r.timers)
  {
    DropMany(c, w, DropCount(c.capacity, w.packets, extra))
  }

  /** Appends a packet whose identifier is not buffered yet and starts its timer. */
  function Append(c: Config, w: World, p: Packet, timeout: int): (r: World)
    requires Linked(w.packets, w.timers) && TimerCount(w.timers, p.id) == 0
    ensures Linked(r.packets, r.timers)
  {
    var d := Due(w.now + timeout, Timer(p.id, w.now));
    AppendLinked(w.packets, p, w.timers, d);
    w.(packets := w.packets + [p],
       timers := Insert(w.timers, d),
       counters := CounterAdd(c.counter, w.counters, p.id))
  }

  /** Whether the first timer is another one after head drop and insertion. */
  predicate FirstChanged(before: seq<Due<Timer>>, kept: seq<Due<Timer>>, after: seq<Due<Timer>>)
    requires after != []
  {
    || before == [] || kept == []
    || kept[0].what.id != before[0].what.id
    || after[0].what.id != before[0].what.id
  }

  /** Storing a packet whose length is already counted; a known identifier is not stored again. */
  function AfterStore(c: Config, w: World, p: Packet, timeout: int): (r: World)
    requires Linked(w.packets, w.timers)
    ensures Linked(r.packets, r.timers) && r.timers != []
  {
    if TimerIndex(w.timers, p.id) < |w.timers| then
      w.(stored := w.stored - p.length, log := w.log + [Fate(Duplicate, p, w.now)])
    else Append(c, w, p, timeout)
  }

  /** Storing after head drop; a change of the first timer reschedules the callback. */
  function AfterDrop(c: Config, before: seq<Due<Timer>>, w: World, p: Packet, timeout: int): (r: World)
    requires Linked(w.packets, w.timers)
    ensures Linked(r.packets, r.timers)
  {
    var next := AfterStore(c, w, p, timeout);
    if FirstChanged(before, w.timers, next.timers) then AfterSchedule(c, next) else next
  }

  /** The length of a packet is counted before older packets are dropped for it. */
  function Counting(w: World, p: Packet): World {
    w.(stored := w.stored + p.length)
  }

  function AfterAdd(c: Config, w: World, p: Packet, timeout: int): (r: World)
    requires Linked(w.packets, w.timers)
    ensures Linked(r.packets, r.timers)
  {
    if timeout <= 0 then w.(log := w.log + [Fate(Refused, p, w.now)])
    else AfterDrop(c, w.timers, HeadDrop(c, Counting(w, p), p.length), p, timeout)
  }

  lemma {:induction false} AddInStages(c: Config, w: World, p: Packet, timeout: int, counted: World)
    requires Linked(w.packets, w.timers) && timeout > 0
    requires counted == Counting(w, p)
    ensures AfterAdd(c, w, p, timeout) == AfterDrop(c, w.timers, HeadDrop(c, counted, p.length), p, timeout)
  {
  }

  /** Where the packet of a timer is stored. */
  function Slot(w: World, j: nat): (i: nat)
    requires Linked(w.packets, w.timers) && j < |w.timers|
    ensures i < |w.packets| && w.packets[i].id == w.timers[j].what.id
  {
    TimerCounted(w.timers, j);
    LinkedIndices(w.packets, w.timers, w.timers[j].what.id);
    PacketIndex(w.packets, w.timers[j].what.id)
  }

  /** Removal of the packet with the timer at j; erasing the first timer reschedules the callback. */
  function Take(c: Config, w: World, j: nat, fate: Fate): (r: World)
    requires Linked(w.packets, w.timers) && j < |w.timers|
    ensures Linked(r.packets, r.timers)
  {
    var r := Unlink(c, w, Slot(w, j), j, fate);
    if j == 0 && r.timers != [] then AfterSchedule(c, r) else r
  }

  function AfterRemove(c: Config, w: World, id: Id): (r: World)
    requires Linked(w.packets, w.timers)
    ensures Linked(r.packets, r.timers)
  {
    var j := TimerIndex(w.timers, id);
    if j == |w.timers| then w
    else Take(c, w, j, Fate(Removed, w.packets[Slot(w, j)], w.now))
  }

  /** The packet of a timer as it leaves the buffer now. */
  function Leaving(w: World, j: nat): Packet
    requires Linked(w.packets, w.timers) && j < |w.timers|
  {
    Reduced(w.packets[Slot(w, j)], w.now - w.timers[j].what.start)
  }

  function AfterFetch(c: Config, w: World, id: Id): (r: (World, Option<Packet>))
    requires Linked(w.packets, w.timers)
    ensures Linked(r.0.packets, r.0.timers)
  {
    var j := TimerIndex(w.timers, id);
    if j == |w.timers| then (w, None)
    else
      var p := Leaving(w, j);
      if p.lifetime > 0 then (Take(c, w, j, Fate(Fetched, p, w.now)), Some(p))
      else (Take(c, w, j, Fate(Expired, p, w.now)), None)
  }

  /** Restarts the timer at j and charges the queuing time so far to the packet. */
  function Restart(w: World, j: nat, timeout: int): (r: World)
    requires Linked(w.packets, w.timers) && j < |w.timers|
    ensures Linked(r.packets, r.timers)
  {
    var id := w.timers[j].what.id;
    var d := Due(w.now + timeout, Timer(id, w.now));
    RestartLinked(w.packets, Slot(w, j), Leaving(w, j), w.timers, j, d);
    w.(packets := w.packets[Slot(w, j) := Leaving(w, j)],
       timers := Insert(RemoveAt(w.timers, j), d),
       counters := CounterIncrement(w.counters, id))
  }

  lemma {:induction false} RestartParts(w: World, j: nat, timeout: int, i: nat, p: Packet, due: Due<Timer>)
    requires Linked(w.packets, w.timers) && j < |w.timers|
    requires i == PacketIndex(w.packets, w.timers[j].what.id) < |w.packets|
    requires p == Reduced(w.packets[i], w.now - w.timers[j].what.start)
    requires due == Due(w.now + timeout, Timer(w.timers[j].what.id, w.now))
    ensures Restart(w, j, timeout)
         == World(w.now, w.queue, w.packets[i := p], Insert(RemoveAt(w.timers, j), due),
                  CounterIncrement(w.counters, w.timers[j].what.id), w.stored, w.log)
    ensures Linked(w.packets[i := p], Insert(RemoveAt(w.timers, j), due))
    ensures Bytes(w.packets[i := p]) == Bytes(w.packets)
  {
    BytesReplace(w.packets, i, p);
    RestartLinked(w.packets, i, p, w.timers, j, due);
  }

  /** Restarts the timer of a buffered packet; the pending callback is left alone. */
  function AfterUpdate(c: Config, w: World, id: Id, timeout: int): (r: World)
    requires Linked(w.packets, w.timers)
    ensures Linked(r.packets, r.timers)
  {
    var j := TimerIndex(w.timers, id);
    if j == |w.timers| then w else Restart(w, j, timeout)
  }

  /** One turn of the flush loop: the packet of the first timer leaves the buffer. */
  function HandOut(c: Config, w: World): (r: World)
    requires Linked(w.packets, w.timers) && w.timers != []
    ensures Linked(r.packets, r.timers)
    ensures r.timers == w.timers[1..]
  {
    var p := Leaving(w, 0);
    Unlink(c, w, Slot(w, 0), 0, Fate(if p.lifetime > 0 then Delivered else Expired, p, w.now))
  }

  function HandOutMany(c: Config, w: World, k: nat): (r: World)
    requires Linked(w.packets, w.timers) && k <= |w.timers|
    ensures Linked(r.packets, r.timers)
    ensures r.timers == w.timers[k..]
    ensures r.now == w.now && r.queue == w.queue
    decreases k
  {
    if k == 0 then w else HandOut(c, HandOutMany(c, w, k - 1))
  }

  function AfterFlush(c: Config, w: World): (r: World)
    requires Linked(w.packets, w.timers)
    ensures Linked(r.packets, r.timers)
  {
    var r := HandOutMany(c, w, UpperBound(w.timers, w.now));
    if r.timers != [] then AfterSchedule(c, r) else r
  }

  lemma {:induction false} FlushQueue(c: Config, w: World)
    requires Linked(w.packets, w.timers)
    ensures AfterFlush(c, w).now == w.now
    ensures DueCount(AfterFlush(c, w).queue, w.now) <= DueCount(w.queue, w.now)
  {
    var r := HandOutMany(c, w, UpperBound(w.timers, w.now));
    if r.timers != [] {
      var q := Cancel(w.queue, c.scope);
      DueCountWithout(w.queue, c.scope, w.now);
      DueCountInsert(q, Due(r.timers[0].at, c.scope), w.now);
    }
  }

  /** The runtime's trigger loop: due callbacks fire one after the other. */
  function Fire(c: Config, w: World): (r: World)
    requires Linked(w.packets, w.timers)
    ensures Linked(r.packets, r.timers)
    decreases DueCount(w.queue, w.now)
  {
    if w.queue == [] || w.now < w.queue[0].at then w
    else
      var popped := w.(queue := w.queue[1..]);
      if w.queue[0].what == c.scope then
        FlushQueue(c, popped);
        Fire(c, AfterFlush(c, popped))
      else Fire(c, popped)
  }

  function AfterTrigger(c: Config, w: World, d: nat): (r: World)
    requires Linked(w.packets, w.timers)
    ensures Linked(r.packets, r.timers)
  {
    Fire(c, w.(now := w.now + d))
  }

  class CbfPacketBuffer {
    const config: Config
    const runtime: ManualRuntime
    var packets: seq<Packet>
    var timers: seq<Due<Timer>>
    var counters: map<Id, nat>
    var stored: nat
    ghost var log: seq<Fate>

    ghost function W(): World
      reads this, runtime
    {
      World(runtime.now, runtime.queue, packets, timers, counters, stored, log)
    }

    /** The containers are linked and the byte count is the sum of the buffered lengths. */
    ghost predicate Valid()
      reads this
    {
      Linked(packets, timers) && stored == Bytes(packets)
    }

    constructor (config: Config, runtime: ManualRuntime)
      ensures this.config == config && this.runtime == runtime
      ensures W() == World(runtime.now, runtime.queue, [], [], map[], 0, [])
    {
      this.config, this.runtime := config, runtime;
      packets, timers, counters, stored, log := [], [], map[], 0, [];
    }

    method ScheduleTimer()
      requires timers != []
      modifies runtime`queue
      ensures W() == AfterSchedule(config, old(W()))
    {
      runtime.CancelScope(config.scope);
      runtime.Schedule(timers[0].at, config.scope);
    }

    /** Erases the packet at i and the timer at j; the byte count cannot underflow. */
    method Erase(i: nat, j: nat, ghost fate: Fate)
      requires Linked(packets, timers) && i < |packets| && j < |timers|
      requires packets[i].id == timers[j].what.id
      requires Bytes(packets) <= stored
      modifies this
      ensures W() == Unlink(config, old(W()), i, j, fate)
      ensures stored - Bytes(packets) == old(stored - Bytes(packets))
    {
      BytesRemove(packets, i);
      var id := packets[i].id;
      stored := stored - packets[i].length;
      counters := CounterRemove(config.counter, counters, id);
      packets := RemoveAt(packets, i);
      timers := RemoveAt(timers, j);
      log := log + [fate];
    }

    /** The head drop loop, run while the length of the packet to be stored is already counted. */
    method DropHead(ghost extra: nat)
      requires Linked(packets, timers) && stored == Bytes(packets) + extra
      modifies this
      ensures Linked(packets, timers) && stored == Bytes(packets) + extra
      ensures W() == HeadDrop(config, old(W()), extra)
    {
      ghost var k := 0;
      while stored > config.capacity && packets != []
        invariant k <= |old(packets)| && packets == old(packets)[k..]
        invariant Linked(packets, timers) && stored == Bytes(packets) + extra
        invariant W() == DropMany(config, old(W()), k)
        invariant k > 0 ==> Bytes(old(packets)[k - 1..]) + extra > config.capacity
        decreases |packets|
      {
        LinkedIndices(packets, timers, packets[0].id);
        Erase(0, TimerIndex(timers, packets[0].id), Fate(HeadDropped, packets[0], runtime.now));
        k := k + 1;
      }
      DropCountUnique(config.capacity, old(packets), extra, k);
    }

    /** The attempt to store a packet whose length is already counted. */
    method Store(p: Packet, timeout: int)
      requires Linked(packets, timers) && stored == Bytes(packets) + p.length
      modifies this
      ensures Valid() && timers != []
      ensures W() == AfterStore(config, old(W()), p, timeout)
    {
      ghost var next := AfterStore(config, W(), p, timeout);
      if TimerIndex(timers, p.id) < |timers| {
        stored := stored - p.length;
        log := log + [Fate(Duplicate, p, runtime.now)];
      } else {
        BytesAppend(packets, p);
        packets := packets + [p];
        timers := Insert(timers, Due(runtime.now + timeout, Timer(p.id, runtime.now)));
        counters := CounterAdd(config.counter, counters, p.id);
      }
      assert W() == next;
    }

    /** Stores a packet after head drop and reschedules if the first timer changed. */
    method Settle(before: seq<Due<Timer>>, p: Packet, timeout: int)
      requires Linked(packets, timers) && stored == Bytes(packets) + p.length
      modifies this, runtime`queue
      ensures Valid()
      ensures W() == AfterDrop(config, before, old(W()), p, timeout)
    {
      var kept := timers;
      Store(p, timeout);
      ghost var next := W();
      if FirstChanged(before, kept, timers) {
        ScheduleTimer();
        assert W() == AfterSchedule(config, next);
      }
    }

    method Add(p: Packet, timeout: int)
      requires Valid()
      modifies this, runtime`queue
      ensures Valid()
      ensures W() == AfterAdd(config, old(W()), p, timeout)
    {
      if timeout <= 0 {
        log := log + [Fate(Refused, p, runtime.now)];
      } else {
        ghost var w := W();
        var before := timers;
        stored := stored + p.length;
        AddInStages(config, w, p, timeout, W());
        DropHead(p.length);
        Settle(before, p, timeout);
      }
    }

    /** Erases the packet with the timer at j and reschedules if that timer was the first one. */
    method Extract(j: nat, ghost fate: Fate)
      requires Valid() && j < |timers|
      modifies this, runtime`queue
      ensures Valid()
      ensures W() == Take(config, old(W()), j, fate)
    {
      Erase(PacketIndex(packets, timers[j].what.id), j, fate) by {
        assert PacketIndex(packets, timers[j].what.id) == Slot(W(), j);
      }
      if j == 0 && timers != [] {
        ScheduleTimer();
      }
    }

    method Remove(id: Id) returns (dropped: bool)
      requires Valid()
      modifies this, runtime`queue
      ensures Valid()
      ensures dropped == (TimerIndex(old(timers), id) < |old(timers)|)
      ensures W() == AfterRemove(config, old(W()), id)
    {
      var j := TimerIndex(timers, id);
      dropped := j < |timers|;
      if dropped {
        ghost var i := Slot(W(), j);
        Extract(j, Fate(Removed, packets[i], runtime.now));
      }
    }

    method RestartAt(j: nat, timeout: int)
      requires Valid() && j < |timers|
      modifies this
      ensures Valid()
      ensures W() == Restart(old(W()), j, timeout)
    {
      var id := timers[j].what.id;
      TimerCounted(timers, j);
      LinkedIndices(packets, timers, id);
      var i := PacketIndex(packets, id);
      var p := Reduced(packets[i], runtime.now - timers[j].what.start);
      var due := Due(runtime.now + timeout, Timer(id, runtime.now));
      RestartParts(W(), j, timeout, i, p, due);
      packets := packets[i := p];
      timers := Insert(RemoveAt(timers, j), due);
      counters := CounterIncrement(counters, id);
    }

    method Update(id: Id, timeout: int)
      requires Valid()
      modifies this
      ensures Valid()
      ensures W() == AfterUpdate(config, old(W()), id, timeout)
    {
      var j := TimerIndex(timers, id);
      if j < |timers| {
        RestartAt(j, timeout);
      }
    }

    method Fetch(id: Id) returns (packet: Option<Packet>)
      requires Valid()
      modifies this, runtime`queue
      ensures Valid()
      ensures (W(), packet) == AfterFetch(config, old(W()), id)
    {
      packet := None;
      var j := TimerIndex(timers, id);
      if j < |timers| {
        ghost var slot := Slot(W(), j);
        var i := PacketIndex(packets, timers[j].what.id);
        var p := Reduced(packets[i], runtime.now - timers[j].what.start);
        if p.lifetime > 0 {
          packet := Some(p);
        }
        Extract(j, Fate(if p.lifetime > 0 then Fetched else Expired, p, runtime.now));
      }
    }

    /** One turn of the flush loop. */
    method HandOutFirst()
      requires Valid() && timers != []
      modifies this
      ensures Valid()
      ensures W() == HandOut(config, old(W()))
    {
      ghost var slot := Slot(W(), 0);
      var i := PacketIndex(packets, timers[0].what.id);
      var p := Reduced(packets[i], runtime.now - timers[0].what.start);
      Erase(i, 0, Fate(if p.lifetime > 0 then Delivered else Expired, p, runtime.now));
    }

    method HandOutExpired()
      requires Valid()
      modifies this
      ensures Valid()
      ensures W() == HandOutMany(config, old(W()), UpperBound(old(timers), runtime.now))
    {
      ghost var w := W();
      var end := UpperBound(timers, runtime.now);
      var turn: nat := 0;
      while turn < end
        invariant Valid() && turn <= end
        invariant W() == HandOutMany(config, w, turn)
      {
        assert timers == w.timers[turn..];
        HandOutFirst();
        turn := turn + 1;
      }
    }

    method Flush()
      requires Valid()
      modifies this, runtime`queue
      ensures Valid()
      ensures W() == AfterFlush(config, old(W()))
    {
      HandOutExpired();
      if timers != [] {
        ScheduleTimer();
      }
    }

    /** Moves the clock and runs the runtime's trigger loop; callbacks of other scopes do nothing here. */
    method Trigger(d: nat)
      requires Valid()
      modifies this, runtime
      ensures Valid()
      ensures W() == AfterTrigger(config, old(W()), d)
    {
      runtime.now := runtime.now + d;
      ghost var target := Fire(config, W());
      while runtime.queue != [] && runtime.queue[0].at <= runtime.now
        invariant Valid()
        invariant Fire(config, W()) == target
        decreases DueCount(runtime.queue, runtime.now)
      {
        var top := runtime.queue[0];
        runtime.queue := runtime.queue[1..];
        if top.what == config.scope {
          FlushQueue(config, W());
          Flush();
        }
      }
    }
  }
}
