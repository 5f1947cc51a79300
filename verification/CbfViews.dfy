/**
 The CBF buffer seen as a partial function from identifiers to entries, and what every
 operation does to it.  The view hides how packet list and timer map store an entry.
 */
module CbfViews {
  import opened Options
  import opened DueList
  import opened CbfBuffers

  datatype Entry = Entry(packet: Packet, expiry: int, start: int)

  function PacketOf(ps: seq<Packet>, x: Id): Option<Packet> {
    var i := PacketIndex(ps, x);
    if i < |ps| then Some(ps[i]) else None
  }

  function TimerOf(ts: seq<Due<Timer>>, x: Id): Option<Due<Timer>> {
    var i := TimerIndex(ts, x);
    if i < |ts| then Some(ts[i]) else None
  }

  function View(w: World, x: Id): Option<Entry> {
    match (PacketOf(w.packets, x), TimerOf(w.timers, x))
    case (Some(p), Some(t)) => Some(Entry(p, t.at, t.what.start))
    case _ => None
  }

  // ---- looking up in the two containers ----

  lemma {:induction false} PacketOfConcat(a: seq<Packet>, b: seq<Packet>, x: Id)
    ensures PacketOf(a + b, x) == if PacketOf(a, x).Some? then PacketOf(a, x) else PacketOf(b, x)
  {
    if a == [] {
      assert a + b == b;
    } else {
      assert (a + b)[1..] == a[1..] + b;
      PacketOfConcat(a[1..], b, x);
    }
  }

  lemma {:induction false} TimerOfConcat(a: seq<Due<Timer>>, b: seq<Due<Timer>>, x: Id)
    ensures TimerOf(a + b, x) == if TimerOf(a, x).Some? then TimerOf(a, x) else TimerOf(b, x)
  {
    if a == [] {
      assert a + b == b;
    } else {
      assert (a + b)[1..] == a[1..] + b;
      TimerOfConcat(a[1..], b, x);
    }
  }

  lemma {:induction false} PacketOfSplit(a: seq<Packet>, p: Packet, b: seq<Packet>, x: Id)
    ensures PacketOf(a + [p] + b, x)
         == if PacketOf(a, x).Some? then PacketOf(a, x)
            else if p.id == x then Some(p)
            else PacketOf(b, x)
  {
    assert a + [p] + b == a + ([p] + b);
    PacketOfConcat(a, [p] + b, x);
    PacketOfConcat([p], b, x);
  }

  lemma {:induction false} TimerOfSplit(a: seq<Due<Timer>>, t: Due<Timer>, b: seq<Due<Timer>>, x: Id)
    ensures TimerOf(a + [t] + b, x)
         == if TimerOf(a, x).Some? then TimerOf(a, x)
            else if t.what.id == x then Some(t)
            else TimerOf(b, x)
  {
    assert a + [t] + b == a + ([t] + b);
    TimerOfConcat(a, [t] + b, x);
    TimerOfConcat([t], b, x);
  }

  lemma {:induction false} PacketOfRemove(ps: seq<Packet>, i: nat, x: Id)
    requires i < |ps| && PacketCount(ps, x) <= 1
    ensures PacketOf(RemoveAt(ps, i), x) == if ps[i].id == x then None else PacketOf(ps, x)
  {
    assert ps == ps[..i] + [ps[i]] + ps[i + 1..];
    PacketOfSplit(ps[..i], ps[i], ps[i + 1..], x);
    PacketOfConcat(ps[..i], ps[i + 1..], x);
    PacketCountSplit(ps, i, x);
  }

  lemma {:induction false} TimerOfRemove(ts: seq<Due<Timer>>, i: nat, x: Id)
    requires i < |ts| && TimerCount(ts, x) <= 1
    ensures TimerOf(RemoveAt(ts, i), x) == if ts[i].what.id == x then None else TimerOf(ts, x)
  {
    assert ts == ts[..i] + [ts[i]] + ts[i + 1..];
    TimerOfSplit(ts[..i], ts[i], ts[i + 1..], x);
    TimerOfConcat(ts[..i], ts[i + 1..], x);
    TimerCountSplit(ts, i, x);
  }

  lemma {:induction false} TimerOfInsert(ts: seq<Due<Timer>>, d: Due<Timer>, x: Id)
    requires TimerCount(ts, d.what.id) == 0
    ensures TimerOf(Insert(ts, d), x) == if d.what.id == x then Some(d) else TimerOf(ts, x)
  {
    var k := UpperBound(ts, d.at);
    TimerOfSplit(ts[..k], d, ts[k..], x);
    TimerOfConcat(ts[..k], ts[k..], x);
    assert ts == ts[..k] + ts[k..];
    TimerCountConcat(ts[..k], ts[k..], d.what.id);
  }

  lemma {:induction false} PacketOfReplace(ps: seq<Packet>, i: nat, p: Packet, x: Id)
    requires i < |ps| && p.id == ps[i].id && PacketCount(ps, p.id) <= 1
    ensures PacketOf(ps[i := p], x) == if p.id == x then Some(p) else PacketOf(ps, x)
  {
    assert ps[i := p] == ps[..i] + [p] + ps[i + 1..];
    assert ps == ps[..i] + [ps[i]] + ps[i + 1..];
    PacketOfSplit(ps[..i], p, ps[i + 1..], x);
    PacketOfSplit(ps[..i], ps[i], ps[i + 1..], x);
    PacketCountSplit(ps, i, p.id);
  }

  lemma {:induction false} PacketOfAt(ps: seq<Packet>, i: nat)
    requires i < |ps| && PacketCount(ps, ps[i].id) <= 1
    ensures PacketOf(ps, ps[i].id) == Some(ps[i])
  {
    PacketOfReplace(ps, i, ps[i], ps[i].id);
    assert ps[i := ps[i]] == ps;
  }

  lemma {:induction false} TimerOfAt(ts: seq<Due<Timer>>, j: nat)
    requires j < |ts| && TimerCount(ts, ts[j].what.id) <= 1
    ensures TimerOf(ts, ts[j].what.id) == Some(ts[j])
  {
    var x := ts[j].what.id;
    assert ts == ts[..j] + [ts[j]] + ts[j + 1..];
    TimerOfSplit(ts[..j], ts[j], ts[j + 1..], x);
    TimerCountSplit(ts, j, x);
  }

  /** The entry of a timer, read through the view. */
  lemma {:induction false} ViewAt(w: World, j: nat)
    requires Linked(w.packets, w.timers) && j < |w.timers|
    ensures View(w, w.timers[j].what.id)
         == Some(Entry(w.packets[Slot(w, j)], w.timers[j].at, w.timers[j].what.start))
  {
    var x := w.timers[j].what.id;
    assert PacketCount(w.packets, x) == TimerCount(w.timers, x) <= 1;
    TimerOfAt(w.timers, j);
    PacketOfAt(w.packets, Slot(w, j));
  }

  /** An identifier is buffered exactly when it has a timer. */
  lemma {:induction false} ViewDomain(w: World, x: Id)
    requires Linked(w.packets, w.timers)
    ensures View(w, x).Some? <==> TimerCount(w.timers, x) == 1
    ensures View(w, x).Some? ==> View(w, x).value.packet.id == x
    ensures View(w, x).Some? ==>
              exists t :: t in w.timers && t == Due(View(w, x).value.expiry, Timer(x, View(w, x).value.start))
  {
    assert PacketCount(w.packets, x) == TimerCount(w.timers, x) <= 1;
    if View(w, x).Some? {
      var t := w.timers[TimerIndex(w.timers, x)];
      assert t in w.timers;
    }
  }

  // ---- what each operation does to the view ----

  lemma {:induction false} UnlinkView(c: Config, w: World, i: nat, j: nat, fate: Fate, x: Id)
    requires Linked(w.packets, w.timers) && i < |w.packets| && j < |w.timers|
    requires w.packets[i].id == w.timers[j].what.id
    ensures View(Unlink(c, w, i, j, fate), x) == if x == w.packets[i].id then None else View(w, x)
    ensures Count(Unlink(c, w, i, j, fate).counters, x)
         == if x == w.packets[i].id && c.counter == Contending then 0 else Count(w.counters, x)
  {
    assert PacketCount(w.packets, x) == TimerCount(w.timers, x) <= 1;
    PacketOfRemove(w.packets, i, x);
    TimerOfRemove(w.timers, j, x);
  }

  lemma {:induction false} TakeView(c: Config, w: World, j: nat, fate: Fate, x: Id)
    requires Linked(w.packets, w.timers) && j < |w.timers|
    ensures View(Take(c, w, j, fate), x) == if x == w.timers[j].what.id then None else View(w, x)
    ensures Count(Take(c, w, j, fate).counters, x)
         == if x == w.timers[j].what.id && c.counter == Contending then 0 else Count(w.counters, x)
  {
    UnlinkView(c, w, Slot(w, j), j, fate, x);
    TakenParts(c, w, j, fate, x, Unlink(c, w, Slot(w, j), j, fate));
  }

  /** Rescheduling does not touch entries and counters. */
  lemma {:induction false} TakenParts(c: Config, w: World, j: nat, fate: Fate, x: Id, r: World)
    requires Linked(w.packets, w.timers) && j < |w.timers| && r == Unlink(c, w, Slot(w, j), j, fate)
    ensures View(Take(c, w, j, fate), x) == View(r, x) && Take(c, w, j, fate).counters == r.counters
  {
  }

  /** Removal and fetching take exactly the named entry out. */
  lemma {:induction false} RemoveView(c: Config, w: World, id: Id, x: Id)
    requires Linked(w.packets, w.timers)
    ensures View(AfterRemove(c, w, id), x) == if x == id then None else View(w, x)
  {
    var j := TimerIndex(w.timers, id);
    ViewDomain(w, id);
    if j < |w.timers| {
      TakeView(c, w, j, Fate(Removed, w.packets[Slot(w, j)], w.now), x);
    }
  }

  /** A fetched packet is the buffered one, charged with the time since its timer was started. */
  lemma {:induction false} FetchView(c: Config, w: World, id: Id, x: Id)
    requires Linked(w.packets, w.timers)
    ensures View(AfterFetch(c, w, id).0, x) == if x == id then None else View(w, x)
    ensures AfterFetch(c, w, id).1
         == match View(w, id)
            case None => None
            case Some(e) =>
              var p := Reduced(e.packet, w.now - e.start);
              if p.lifetime > 0 then Some(p) else None
  {
    var j := TimerIndex(w.timers, id);
    ViewDomain(w, id);
    if j < |w.timers| {
      ViewAt(w, j);
      var p := Leaving(w, j);
      TakeView(c, w, j, Fate(if p.lifetime > 0 then Fetched else Expired, p, w.now), x);
    }
  }

  /** An update restarts the timer of the named entry and charges the elapsed time to its packet. */
  lemma {:induction false} UpdateView(c: Config, w: World, id: Id, timeout: int, x: Id)
    requires Linked(w.packets, w.timers)
    ensures View(AfterUpdate(c, w, id, timeout), x)
         == if x == id && View(w, id).Some?
            then var e := View(w, id).value;
                 Some(Entry(Reduced(e.packet, w.now - e.start), w.now + timeout, w.now))
            else View(w, x)
  {
    var j := TimerIndex(w.timers, id);
    assert PacketCount(w.packets, id) == TimerCount(w.timers, id) <= 1;
    if j < |w.timers| {
      ViewAt(w, j);
      RestartView(w, j, timeout, x);
    }
  }

  lemma {:induction false} RestartView(w: World, j: nat, timeout: int, x: Id)
    requires Linked(w.packets, w.timers) && j < |w.timers|
    ensures View(Restart(w, j, timeout), x)
         == if x == w.timers[j].what.id then Some(Entry(Leaving(w, j), w.now + timeout, w.now)) else View(w, x)
  {
    RestartPacketView(w, j, timeout, x);
    var id := w.timers[j].what.id;
    assert PacketCount(w.packets, x) == TimerCount(w.timers, x) <= 1;
    assert PacketCount(w.packets, id) == TimerCount(w.timers, id) <= 1;
    RestartTimerView(w.timers, j, Due(w.now + timeout, Timer(id, w.now)), x);
  }

  lemma {:induction false} RestartPacketView(w: World, j: nat, timeout: int, x: Id)
    requires Linked(w.packets, w.timers) && j < |w.timers|
    ensures PacketOf(Restart(w, j, timeout).packets, x)
         == if x == w.timers[j].what.id then Some(Leaving(w, j)) else PacketOf(w.packets, x)
  {
    var id := w.timers[j].what.id;
    assert PacketCount(w.packets, id) == TimerCount(w.timers, id) <= 1;
    PacketOfReplace(w.packets, Slot(w, j), Leaving(w, j), x);
  }

  lemma {:induction false} RestartTimerView(ts: seq<Due<Timer>>, j: nat, d: Due<Timer>, x: Id)
    requires j < |ts| && d.what.id == ts[j].what.id
    requires TimerCount(ts, x) <= 1 && TimerCount(ts, d.what.id) <= 1
    ensures TimerOf(Insert(RemoveAt(ts, j), d), x) == if x == d.what.id then Some(d) else TimerOf(ts, x)
  {
    TimerCountRemove(ts, j, d.what.id);
    TimerCounted(ts, j);
    TimerOfInsert(RemoveAt(ts, j), d, x);
    TimerOfRemove(ts, j, x);
  }

  /** Storing a packet under a new identifier adds its entry and leaves the others alone. */
  lemma {:induction false} AppendView(c: Config, w: World, p: Packet, timeout: int, x: Id)
    requires Linked(w.packets, w.timers) && TimerCount(w.timers, p.id) == 0
    ensures View(Append(c, w, p, timeout), x)
         == if x == p.id then Some(Entry(p, w.now + timeout, w.now)) else View(w, x)
  {
    var d := Due(w.now + timeout, Timer(p.id, w.now));
    assert PacketCount(w.packets, p.id) == 0;
    PacketOfAppend(w.packets, p, x);
    TimerOfInsert(w.timers, d, x);
    AppendParts(c, w, p, timeout, d, Append(c, w, p, timeout));
  }

  lemma {:induction false} AppendParts(c: Config, w: World, p: Packet, timeout: int, d: Due<Timer>, r: World)
    requires Linked(w.packets, w.timers) && TimerCount(w.timers, p.id) == 0
    requires d == Due(w.now + timeout, Timer(p.id, w.now)) && r == Append(c, w, p, timeout)
    ensures r.packets == w.packets + [p] && r.timers == Insert(w.timers, d)
  {
  }

  lemma {:induction false} PacketOfAppend(ps: seq<Packet>, p: Packet, x: Id)
    requires PacketCount(ps, p.id) == 0
    ensures PacketOf(ps + [p], x) == if x == p.id then Some(p) else PacketOf(ps, x)
  {
    PacketOfConcat(ps, [p], x);
  }

  lemma {:induction false} DropFrontView(c: Config, w: World, x: Id)
    requires Linked(w.packets, w.timers) && w.packets != []
    ensures View(DropFront(c, w), x) == if x == w.packets[0].id then None else View(w, x)
    ensures Count(DropFront(c, w).counters, x)
         == if x == w.packets[0].id && c.counter == Contending then 0 else Count(w.counters, x)
  {
    var p := w.packets[0];
    LinkedIndices(w.packets, w.timers, p.id);
    UnlinkView(c, w, 0, TimerIndex(w.timers, p.id), Fate(HeadDropped, p, w.now), x);
  }

  lemma {:induction false} PacketCountTake(ps: seq<Packet>, k: nat, x: Id)
    requires 0 < k <= |ps|
    ensures PacketCount(ps[..k], x) == PacketCount(ps[..k - 1], x) + if ps[k - 1].id == x then 1 else 0
  {
    assert ps[..k] == ps[..k - 1] + [ps[k - 1]];
    PacketCountConcat(ps[..k - 1], [ps[k - 1]], x);
  }

  lemma {:induction false} TimerCountTake(ts: seq<Due<Timer>>, k: nat, x: Id)
    requires 0 < k <= |ts|
    ensures TimerCount(ts[..k], x) == TimerCount(ts[..k - 1], x) + if ts[k - 1].what.id == x then 1 else 0
  {
    assert ts[..k] == ts[..k - 1] + [ts[k - 1]];
    TimerCountConcat(ts[..k - 1], [ts[k - 1]], x);
  }

  /** The log entries for packets forgotten by head drop. */
  function DropFates(ps: seq<Packet>, now: int): seq<Fate> {
    seq(|ps|, i requires 0 <= i < |ps| => Fate(HeadDropped, ps[i], now))
  }

  lemma {:induction false} DropFatesTake(ps: seq<Packet>, k: nat, now: int, log: seq<Fate>)
    requires 0 < k <= |ps|
    ensures log + DropFates(ps[..k], now)
         == log + DropFates(ps[..k - 1], now) + [Fate(HeadDropped, ps[k - 1], now)]
  {
  }

  /** Head drop forgets the oldest packets, in arrival order, and records them. */
  lemma {:induction false} DropManyLog(c: Config, w: World, k: nat)
    requires Linked(w.packets, w.timers) && k <= |w.packets|
    ensures DropMany(c, w, k).log == w.log + DropFates(w.packets[..k], w.now)
    decreases k
  {
    if k > 0 {
      DropManyLog(c, w, k - 1);
      DropFatesTake(w.packets, k, w.now, w.log);
    }
  }

  lemma {:induction false} DropManyBytes(c: Config, w: World, k: nat)
    requires Linked(w.packets, w.timers) && k <= |w.packets|
    ensures DropMany(c, w, k).stored == w.stored - Bytes(w.packets) + Bytes(w.packets[k..])
    decreases k
  {
    if k > 0 {
      DropManyBytes(c, w, k - 1);
      assert w.packets[k - 1..][1..] == w.packets[k..];
    }
  }

  /** Head drop changes no entry other than those of the forgotten packets. */
  lemma {:induction false} DropManyView(c: Config, w: World, k: nat, x: Id)
    requires Linked(w.packets, w.timers) && k <= |w.packets|
    ensures View(DropMany(c, w, k), x) == if PacketCount(w.packets[..k], x) > 0 then None else View(w, x)
    ensures Count(DropMany(c, w, k).counters, x)
         == if PacketCount(w.packets[..k], x) > 0 && c.counter == Contending then 0 else Count(w.counters, x)
    decreases k
  {
    if k > 0 {
      DropManyView(c, w, k - 1, x);
      DropFrontView(c, DropMany(c, w, k - 1), x);
      PacketCountTake(w.packets, k, x);
    }
  }

  /** The log entry for the packet of a timer that the flush loop hands out. */
  function FlushFate(w: World, j: nat): Fate
    requires Linked(w.packets, w.timers) && j < |w.timers|
  {
    var p := Leaving(w, j);
    Fate(if p.lifetime > 0 then Delivered else Expired, p, w.now)
  }

  lemma {:induction false} HandOutFirstView(c: Config, w: World, x: Id)
    requires Linked(w.packets, w.timers) && w.timers != []
    ensures View(HandOut(c, w), x) == if x == w.timers[0].what.id then None else View(w, x)
    ensures Count(HandOut(c, w).counters, x)
         == if x == w.timers[0].what.id && c.counter == Contending then 0 else Count(w.counters, x)
  {
    UnlinkView(c, w, Slot(w, 0), 0, FlushFate(w, 0), x);
  }

  /** The flush loop changes no entry other than those of the packets it hands out. */
  lemma {:induction false} HandOutView(c: Config, w: World, k: nat, x: Id)
    requires Linked(w.packets, w.timers) && k <= |w.timers|
    ensures View(HandOutMany(c, w, k), x) == if TimerCount(w.timers[..k], x) > 0 then None else View(w, x)
    decreases k
  {
    if k > 0 {
      HandOutView(c, w, k - 1, x);
      HandOutFirstView(c, HandOutMany(c, w, k - 1), x);
      TimerCountTake(w.timers, k, x);
    }
  }

  lemma {:induction false} HandOutCounts(c: Config, w: World, k: nat, x: Id)
    requires Linked(w.packets, w.timers) && k <= |w.timers|
    ensures Count(HandOutMany(c, w, k).counters, x)
         == if TimerCount(w.timers[..k], x) > 0 && c.counter == Contending then 0 else Count(w.counters, x)
    decreases k
  {
    if k > 0 {
      HandOutCounts(c, w, k - 1, x);
      HandOutFirstView(c, HandOutMany(c, w, k - 1), x);
      TimerCountTake(w.timers, k, x);
    }
  }

  /** A packet is charged the same whether or not others were handed out before it. */
  lemma {:induction false} LaterFate(c: Config, w: World, k: nat)
    requires Linked(w.packets, w.timers) && k < |w.timers|
    ensures FlushFate(HandOutMany(c, w, k), 0) == FlushFate(w, k)
  {
    var x := w.timers[k].what.id;
    FateOfView(HandOutMany(c, w, k), 0);
    FateOfView(w, k);
    HandOutView(c, w, k, x);
    NotBefore(w, k);
  }

  /** The log entry for a packet that leaves at some time. */
  function FateOf(e: Entry, now: int): Fate {
    var p := Reduced(e.packet, now - e.start);
    Fate(if p.lifetime > 0 then Delivered else Expired, p, now)
  }

  lemma {:induction false} FateOfView(w: World, j: nat)
    requires Linked(w.packets, w.timers) && j < |w.timers|
    ensures var v := View(w, w.timers[j].what.id); v.Some? && FlushFate(w, j) == FateOf(v.value, w.now)
  {
    ViewAt(w, j);
  }

  /** No earlier timer belongs to the same packet. */
  lemma {:induction false} NotBefore(w: World, k: nat)
    requires Linked(w.packets, w.timers) && k < |w.timers|
    ensures TimerCount(w.timers[..k], w.timers[k].what.id) == 0
  {
    var x := w.timers[k].what.id;
    TimerCountSplit(w.timers, k, x);
    assert TimerCount(w.timers, x) <= 1;
  }

  /** The log entries for the packets of the first k timers. */
  function FlushFates(w: World, k: nat): seq<Fate>
    requires Linked(w.packets, w.timers) && k <= |w.timers|
  {
    seq(k, j requires 0 <= j < k => FlushFate(w, j))
  }

  lemma {:induction false} FlushFatesTake(w: World, k: nat)
    requires Linked(w.packets, w.timers) && 0 < k <= |w.timers|
    ensures w.log + FlushFates(w, k) == w.log + FlushFates(w, k - 1) + [FlushFate(w, k - 1)]
  {
  }

  lemma {:induction false} HandOutFirstLog(c: Config, w: World)
    requires Linked(w.packets, w.timers) && w.timers != []
    ensures HandOut(c, w).log == w.log + [FlushFate(w, 0)]
  {
  }

  /**
   The flush loop hands out the packets of the first k timers, in timer order, each charged with
   the time since its own timer was started.
   */
  lemma {:induction false} HandOutLog(c: Config, w: World, k: nat)
    requires Linked(w.packets, w.timers) && k <= |w.timers|
    ensures HandOutMany(c, w, k).log == w.log + FlushFates(w, k)
    decreases k
  {
    if k > 0 {
      HandOutLog(c, w, k - 1);
      NextLog(c, w, k - 1, HandOutMany(c, w, k - 1));
      FlushFatesTake(w, k);
    }
  }

  lemma {:induction false} NextLog(c: Config, w: World, k: nat, d: World)
    requires Linked(w.packets, w.timers) && k < |w.timers| && d == HandOutMany(c, w, k)
    ensures HandOutMany(c, w, k + 1).log == d.log + [FlushFate(w, k)]
  {
    HandOutFirstLog(c, d);
    LaterFate(c, w, k);
  }

  lemma {:induction false} HandOutBytes(c: Config, w: World, k: nat)
    requires Linked(w.packets, w.timers) && k <= |w.timers| && w.stored == Bytes(w.packets)
    ensures HandOutMany(c, w, k).stored == Bytes(HandOutMany(c, w, k).packets) <= w.stored
    ensures |HandOutMany(c, w, k).packets| <= |w.packets|
    decreases k
  {
    if k > 0 {
      HandOutBytes(c, w, k - 1);
      HandOutFirstBytes(c, HandOutMany(c, w, k - 1));
    }
  }

  lemma {:induction false} HandOutFirstBytes(c: Config, w: World)
    requires Linked(w.packets, w.timers) && w.timers != [] && w.stored == Bytes(w.packets)
    ensures var r := HandOut(c, w); r.stored == Bytes(r.packets) <= w.stored && |r.packets| <= |w.packets|
  {
    BytesRemove(w.packets, Slot(w, 0));
  }
}
