/**
 What whole runs of the CBF buffer add up to: every packet given to the buffer has exactly one
 fate, the lifetime taken from a packet is the time it spent in the buffer, and the duplicate
 counters count updates.
 */
module CbfHistory {
  import opened Options
  import opened DueList
  import opened ManualRuntimes
  import opened CbfBuffers
  import opened CbfViews
  import opened CbfInvariants
  import opened CbfRuns

  // ---- every packet has exactly one fate ----

  ghost function PacketTags(ps: seq<Packet>): multiset<nat> {
    if ps == [] then multiset{} else multiset{ps[0].tag} + PacketTags(ps[1..])
  }

  ghost function FateTags(fs: seq<Fate>): multiset<nat> {
    if fs == [] then multiset{} else FateTags(fs[..|fs| - 1]) + multiset{fs[|fs| - 1].packet.tag}
  }

  lemma {:induction false} FateTagsAppend(fs: seq<Fate>, f: Fate)
    ensures FateTags(fs + [f]) == FateTags(fs) + multiset{f.packet.tag}
  {
    assert (fs + [f])[..|fs|] == fs;
  }

  lemma {:induction false} PacketTagsConcat(a: seq<Packet>, b: seq<Packet>)
    ensures PacketTags(a + b) == PacketTags(a) + PacketTags(b)
  {
    if a == [] {
      assert a + b == b;
    } else {
      assert (a + b)[1..] == a[1..] + b;
      PacketTagsConcat(a[1..], b);
    }
  }

  lemma {:induction false} PacketTagsSplit(ps: seq<Packet>, i: nat)
    requires i < |ps|
    ensures PacketTags(ps) == PacketTags(ps[..i]) + multiset{ps[i].tag} + PacketTags(ps[i + 1..])
  {
    assert ps == ps[..i] + ([ps[i]] + ps[i + 1..]);
    PacketTagsConcat(ps[..i], [ps[i]] + ps[i + 1..]);
    assert ([ps[i]] + ps[i + 1..])[1..] == ps[i + 1..];
  }

  lemma {:induction false} PacketTagsReplace(ps: seq<Packet>, i: nat, p: Packet)
    requires i < |ps| && p.tag == ps[i].tag
    ensures PacketTags(ps[i := p]) == PacketTags(ps)
  {
    PacketTagsSplit(ps, i);
    PacketTagsSplit(ps[i := p], i);
    assert ps[i := p][..i] == ps[..i] && ps[i := p][i + 1..] == ps[i + 1..];
  }

  /** The packets in the buffer and those that have left it. */
  ghost function Accounted(w: World): multiset<nat> {
    PacketTags(w.packets) + FateTags(w.log)
  }

  ghost predicate Tagged(w: World, tags: multiset<nat>) {
    Accounted(w) == tags
  }

  lemma {:induction false} SameAccounts(w: World, r: World)
    requires r.packets == w.packets && r.log == w.log
    ensures Tagged(r, Accounted(w))
  {
  }

  lemma {:induction false} UnlinkAccounts(c: Config, w: World, i: nat, j: nat, fate: Fate)
    requires Linked(w.packets, w.timers) && i < |w.packets| && j < |w.timers|
    requires w.packets[i].id == w.timers[j].what.id && fate.packet.tag == w.packets[i].tag
    ensures Accounted(Unlink(c, w, i, j, fate)) == Accounted(w)
  {
    PacketTagsSplit(w.packets, i);
    PacketTagsConcat(w.packets[..i], w.packets[i + 1..]);
    FateTagsAppend(w.log, fate);
  }

  lemma {:induction false} DropManyAccounts(c: Config, w: World, k: nat, tags: multiset<nat>)
    requires Linked(w.packets, w.timers) && k <= |w.packets| && Tagged(w, tags)
    ensures Tagged(DropMany(c, w, k), tags)
    decreases k
  {
    if k > 0 {
      DropManyAccounts(c, w, k - 1, tags);
      DropFrontAccounts(c, DropMany(c, w, k - 1), tags);
    }
  }

  lemma {:induction false} DropFrontAccounts(c: Config, w: World, tags: multiset<nat>)
    requires Linked(w.packets, w.timers) && w.packets != [] && Tagged(w, tags)
    ensures Tagged(DropFront(c, w), tags)
  {
    var p := w.packets[0];
    LinkedIndices(w.packets, w.timers, p.id);
    UnlinkAccounts(c, w, 0, TimerIndex(w.timers, p.id), Fate(HeadDropped, p, w.now));
  }

  lemma {:induction false} HandOutAccounts(c: Config, w: World, k: nat, tags: multiset<nat>)
    requires Linked(w.packets, w.timers) && k <= |w.timers| && Tagged(w, tags)
    ensures Tagged(HandOutMany(c, w, k), tags)
    decreases k
  {
    if k > 0 {
      HandOutAccounts(c, w, k - 1, tags);
      HandOutFirstAccounts(c, HandOutMany(c, w, k - 1), tags);
    }
  }

  lemma {:induction false} HandOutFirstAccounts(c: Config, w: World, tags: multiset<nat>)
    requires Linked(w.packets, w.timers) && w.timers != [] && Tagged(w, tags)
    ensures Tagged(HandOut(c, w), tags)
  {
    UnlinkAccounts(c, w, Slot(w, 0), 0, FlushFate(w, 0));
  }

  lemma {:induction false} StoreAccounts(c: Config, w: World, p: Packet, timeout: int)
    requires Linked(w.packets, w.timers)
    ensures Accounted(AfterStore(c, w, p, timeout)) == Accounted(w) + multiset{p.tag}
  {
    PacketTagsConcat(w.packets, [p]);
    FateTagsAppend(w.log, Fate(Duplicate, p, w.now));
  }

  lemma {:induction false} AddAccounts(c: Config, w: World, p: Packet, timeout: int)
    requires Linked(w.packets, w.timers)
    ensures Accounted(AfterAdd(c, w, p, timeout)) == Accounted(w) + multiset{p.tag}
  {
    if timeout <= 0 {
      FateTagsAppend(w.log, Fate(Refused, p, w.now));
    } else {
      var counted := Counting(w, p);
      AddInStages(c, w, p, timeout, counted);
      DropManyAccounts(c, counted, DropCount(c.capacity, counted.packets, p.length), Accounted(w));
      StoreAccounts(c, HeadDrop(c, counted, p.length), p, timeout);
    }
  }

  lemma {:induction false} UpdateAccounts(c: Config, w: World, id: Id, timeout: int)
    requires Linked(w.packets, w.timers)
    ensures Tagged(AfterUpdate(c, w, id, timeout), Accounted(w))
  {
    var j := TimerIndex(w.timers, id);
    if j < |w.timers| {
      PacketTagsReplace(w.packets, Slot(w, j), Leaving(w, j));
    }
  }

  lemma {:induction false} TakeAccounts(c: Config, w: World, j: nat, fate: Fate)
    requires Linked(w.packets, w.timers) && j < |w.timers| && fate.packet.tag == w.packets[Slot(w, j)].tag
    ensures Accounted(Take(c, w, j, fate)) == Accounted(w)
  {
    UnlinkAccounts(c, w, Slot(w, j), j, fate);
    SameAccounts(Unlink(c, w, Slot(w, j), j, fate), Take(c, w, j, fate));
  }

  lemma {:induction false} RemoveAccounts(c: Config, w: World, id: Id)
    requires Linked(w.packets, w.timers)
    ensures Tagged(AfterRemove(c, w, id), Accounted(w))
  {
    var j := TimerIndex(w.timers, id);
    if j < |w.timers| {
      TakeAccounts(c, w, j, Fate(Removed, w.packets[Slot(w, j)], w.now));
    }
  }

  lemma {:induction false} FetchAccounts(c: Config, w: World, id: Id)
    requires Linked(w.packets, w.timers)
    ensures Tagged(AfterFetch(c, w, id).0, Accounted(w))
  {
    var j := TimerIndex(w.timers, id);
    if j < |w.timers| {
      var p := Leaving(w, j);
      TakeAccounts(c, w, j, Fate(if p.lifetime > 0 then Fetched else Expired, p, w.now));
    }
  }

  lemma {:induction false} TriggerAccounts(c: Config, w: World, d: nat)
    requires Inv(c, w)
    ensures Accounted(AfterTrigger(c, w, d)) == Accounted(w)
  {
    var t := Core(w.(now := w.now + d));
    TriggerCore(c, w, d);
    HandOutAccounts(c, t, UpperBound(t.timers, t.now), Accounted(t));
    assert Accounted(Core(AfterTrigger(c, w, d))) == Accounted(AfterTrigger(c, w, d));
    assert Accounted(t) == Accounted(w);
  }

  ghost function AddedTags(es: seq<Event>): multiset<nat> {
    if es == [] then multiset{} else AddedTags(es[..|es| - 1]) + EventTags(es[|es| - 1])
  }

  ghost function EventTags(e: Event): multiset<nat> {
    if e.Add? then multiset{e.packet.tag} else multiset{}
  }

  lemma {:induction false} StepAccounts(c: Config, w: World, e: Event)
    requires Inv(c, w)
    ensures Accounted(Step(c, w, e)) == Accounted(w) + EventTags(e)
  {
    match e
    case Add(p, timeout) => AddAccounts(c, w, p, timeout);
    case Trigger(d) => TriggerAccounts(c, w, d);
    case _ => CallAccounts(c, w, e);
  }

  lemma {:induction false} CallAccounts(c: Config, w: World, e: Event)
    requires Linked(w.packets, w.timers) && !e.Add? && !e.Trigger?
    ensures Tagged(Step(c, w, e), Accounted(w))
  {
    match e
    case Remove(id) => RemoveAccounts(c, w, id);
    case Update(id, timeout) => UpdateAccounts(c, w, id, timeout);
    case Fetch(id) => FetchAccounts(c, w, id);
    case OtherSchedules(_, _) => OtherAccounts(c, w, e);
    case OtherCancels(_) => OtherAccounts(c, w, e);
  }

  lemma {:induction false} OtherAccounts(c: Config, w: World, e: Event)
    requires Linked(w.packets, w.timers) && (e.OtherSchedules? || e.OtherCancels?)
    ensures Tagged(Step(c, w, e), Accounted(w))
  {
    SameAccounts(w, Step(c, w, e));
  }

  /**
   Conservation: every packet ever given to the buffer is either still in it or has left it
   in exactly one way.
   */
  lemma {:induction false} EveryPacketHasOneFate(c: Config, now: int, es: seq<Event>)
    requires c.scope != NO_SCOPE
    ensures Accounted(Run(c, now, es)) == AddedTags(es)
    decreases |es|
  {
    if es != [] {
      EveryPacketHasOneFate(c, now, es[..|es| - 1]);
      RunKeeps(c, now, es[..|es| - 1]);
      StepAccounts(c, Run(c, now, es[..|es| - 1]), es[|es| - 1]);
    }
  }

  /** If no packet is given to the buffer twice, none leaves it twice. */
  lemma {:induction false} HandedOutAtMostOnce(c: Config, now: int, es: seq<Event>, i: nat, j: nat)
    requires c.scope != NO_SCOPE
    requires forall tag :: AddedTags(es)[tag] <= 1
    requires i < j < |Run(c, now, es).log|
    ensures Run(c, now, es).log[i].packet.tag != Run(c, now, es).log[j].packet.tag
  {
    var w := Run(c, now, es);
    EveryPacketHasOneFate(c, now, es);
    FateTagsTwice(w.log, i, j);
    var tag := w.log[i].packet.tag;
    assert AddedTags(es)[tag] == PacketTags(w.packets)[tag] + FateTags(w.log)[tag];
  }

  /** If no packet is given to the buffer twice, none that has left it, the latest one included, is still in it. */
  lemma {:induction false} HandedOutIsNotBuffered(c: Config, now: int, es: seq<Event>, i: nat)
    requires c.scope != NO_SCOPE
    requires forall tag :: AddedTags(es)[tag] <= 1
    requires i < |Run(c, now, es).log|
    ensures PacketTags(Run(c, now, es).packets)[Run(c, now, es).log[i].packet.tag] == 0
  {
    var w := Run(c, now, es);
    EveryPacketHasOneFate(c, now, es);
    FateTagsOnce(w.log, i);
    var tag := w.log[i].packet.tag;
    assert AddedTags(es)[tag] == PacketTags(w.packets)[tag] + FateTags(w.log)[tag];
  }

  lemma {:induction false} FateTagsTwice(fs: seq<Fate>, i: nat, j: nat)
    requires i < j < |fs|
    ensures FateTags(fs)[fs[i].packet.tag] >= if fs[i].packet.tag == fs[j].packet.tag then 2 else 1
    decreases |fs|
  {
    var rest := fs[..|fs| - 1];
    if j < |fs| - 1 {
      FateTagsTwice(rest, i, j);
    } else {
      FateTagsOnce(rest, i);
    }
  }

  lemma {:induction false} FateTagsOnce(fs: seq<Fate>, i: nat)
    requires i < |fs|
    ensures FateTags(fs)[fs[i].packet.tag] >= 1
    decreases |fs|
  {
    if i < |fs| - 1 {
      FateTagsOnce(fs[..|fs| - 1], i);
    }
  }

  // ---- adding, seen through the view ----

  /** The identifier belongs to a packet that head drop forgets to make room for p. */
  predicate MakesRoom(c: Config, w: World, p: Packet, x: Id) {
    PacketCount(w.packets[..DropCount(c.capacity, w.packets, p.length)], x) > 0
  }

  /** The packet is stored: it waits for some time and its identifier is not buffered after head drop. */
  predicate Admits(c: Config, w: World, p: Packet, timeout: int) {
    timeout > 0 && (View(w, p.id).None? || MakesRoom(c, w, p, p.id))
  }

  /** The event stores a packet under the identifier. */
  predicate Stores(c: Config, w: World, e: Event, x: Id) {
    e.Add? && e.packet.id == x && Admits(c, w, e.packet, e.timeout)
  }

  /** Which events of a run store a packet under the identifier. */
  ghost function Storing(c: Config, now: int, es: seq<Event>, x: Id): (bs: seq<bool>)
    ensures |bs| == |es|
  {
    if es == [] then []
    else
      var before := es[..|es| - 1];
      Storing(c, now, before, x) + [Stores(c, Run(c, now, before), es[|es| - 1], x)]
  }

  lemma {:induction false} StoringAt(c: Config, now: int, es: seq<Event>, x: Id, k: nat)
    requires k < |es|
    ensures Storing(c, now, es, x)[k] == Stores(c, Run(c, now, es[..k]), es[k], x)
    decreases |es|
  {
    var before := es[..|es| - 1];
    if k < |before| {
      StoringAt(c, now, before, x, k);
      assert before[..k] == es[..k];
    }
  }

  /** The k-th event of the run is the latest one that stores a packet under the identifier. */
  ghost predicate LastStore(c: Config, now: int, es: seq<Event>, x: Id, k: nat) {
    LastTrue(Storing(c, now, es, x), k)
  }

  predicate LastTrue(bs: seq<bool>, k: nat) {
    k < |bs| && bs[k] && forall j :: k < j < |bs| ==> !bs[j]
  }

  function Trues(bs: seq<bool>): nat {
    if bs == [] then 0 else Trues(bs[..|bs| - 1]) + if bs[|bs| - 1] then 1 else 0
  }

  lemma {:induction false} StoreView(c: Config, w: World, p: Packet, timeout: int, x: Id)
    requires Linked(w.packets, w.timers)
    ensures View(AfterStore(c, w, p, timeout), x)
         == if x == p.id && View(w, x).None? then Some(Entry(p, w.now + timeout, w.now)) else View(w, x)
    ensures Count(AfterStore(c, w, p, timeout).counters, x)
         == if x == p.id && View(w, x).None? then (if c.counter == Contending then 1 else Count(w.counters, x) + 1)
            else Count(w.counters, x)
  {
    ViewDomain(w, p.id);
    if TimerIndex(w.timers, p.id) == |w.timers| {
      AppendView(c, w, p, timeout, x);
    }
  }

  lemma {:induction false} DropStoreView(c: Config, before: seq<Due<Timer>>, w: World, p: Packet, timeout: int, x: Id)
    requires Linked(w.packets, w.timers)
    ensures View(AfterDrop(c, before, w, p, timeout), x) == View(AfterStore(c, w, p, timeout), x)
    ensures AfterDrop(c, before, w, p, timeout).counters == AfterStore(c, w, p, timeout).counters
    ensures AfterDrop(c, before, w, p, timeout).log == AfterStore(c, w, p, timeout).log
    ensures AfterDrop(c, before, w, p, timeout).now == w.now
  {
  }

  /** What adding a packet does to every entry and every counter. */
  lemma {:induction false} AddView(c: Config, w: World, p: Packet, timeout: int, x: Id)
    requires Linked(w.packets, w.timers)
    ensures View(AfterAdd(c, w, p, timeout), x)
         == if x == p.id && Admits(c, w, p, timeout) then Some(Entry(p, w.now + timeout, w.now))
            else if timeout > 0 && MakesRoom(c, w, p, x) then None
            else View(w, x)
    ensures Count(AfterAdd(c, w, p, timeout).counters, x)
         == if x == p.id && Admits(c, w, p, timeout)
              then (if c.counter == Contending then 1 else Count(w.counters, x) + 1)
            else if timeout > 0 && MakesRoom(c, w, p, x) && c.counter == Contending then 0
            else Count(w.counters, x)
  {
    if timeout > 0 {
      var kept := AddEntry(c, w, p, timeout, x);
      var count := AddCount(c, w, p, timeout, x);
    }
  }

  lemma {:induction false} AddEntry(c: Config, w: World, p: Packet, timeout: int, x: Id) returns (kept: Option<Entry>)
    requires Linked(w.packets, w.timers) && timeout > 0
    ensures kept == if MakesRoom(c, w, p, x) then None else View(w, x)
    ensures View(AfterAdd(c, w, p, timeout), x)
         == if x == p.id && kept.None? then Some(Entry(p, w.now + timeout, w.now)) else kept
  {
    var room := HeadDrop(c, Counting(w, p), p.length);
    kept := View(room, x);
    RoomView(c, w, p, x);
    AddAfterRoom(c, w, p, timeout, room, x);
  }

  lemma {:induction false} AddCount(c: Config, w: World, p: Packet, timeout: int, x: Id) returns (count: nat)
    requires Linked(w.packets, w.timers) && timeout > 0
    ensures count == if MakesRoom(c, w, p, x) && c.counter == Contending then 0 else Count(w.counters, x)
    ensures Count(AfterAdd(c, w, p, timeout).counters, x)
         == if x == p.id && (MakesRoom(c, w, p, x) || View(w, x).None?)
              then (if c.counter == Contending then 1 else count + 1) else count
  {
    var room := HeadDrop(c, Counting(w, p), p.length);
    count := Count(room.counters, x);
    RoomView(c, w, p, x);
    AddAfterRoom(c, w, p, timeout, room, x);
  }

  lemma {:induction false} AddAfterRoom(c: Config, w: World, p: Packet, timeout: int, room: World, x: Id)
    requires Linked(w.packets, w.timers) && timeout > 0 && room == HeadDrop(c, Counting(w, p), p.length)
    ensures View(AfterAdd(c, w, p, timeout), x)
         == if x == p.id && View(room, x).None? then Some(Entry(p, w.now + timeout, w.now)) else View(room, x)
    ensures Count(AfterAdd(c, w, p, timeout).counters, x)
         == if x == p.id && View(room, x).None?
              then (if c.counter == Contending then 1 else Count(room.counters, x) + 1)
            else Count(room.counters, x)
  {
    AddStored(c, w, p, timeout, room, x);
    StoreView(c, room, p, timeout, x);
  }

  lemma {:induction false} RoomClock(c: Config, w: World, p: Packet)
    requires Linked(w.packets, w.timers)
    ensures HeadDrop(c, Counting(w, p), p.length).now == w.now
  {
    RoomView(c, w, p, p.id);
  }

  lemma {:induction false} AddStored(c: Config, w: World, p: Packet, timeout: int, kept: World, x: Id)
    requires Linked(w.packets, w.timers) && timeout > 0 && kept == HeadDrop(c, Counting(w, p), p.length)
    ensures View(AfterAdd(c, w, p, timeout), x) == View(AfterStore(c, kept, p, timeout), x)
    ensures AfterAdd(c, w, p, timeout).counters == AfterStore(c, kept, p, timeout).counters
    ensures AfterAdd(c, w, p, timeout).log == AfterStore(c, kept, p, timeout).log
    ensures AfterAdd(c, w, p, timeout).now == kept.now == w.now
  {
    var counted := Counting(w, p);
    AddInStages(c, w, p, timeout, counted);
    DropStoreView(c, w.timers, kept, p, timeout, x);
    RoomClock(c, w, p);
  }

  lemma {:induction false} RoomView(c: Config, w: World, p: Packet, x: Id)
    requires Linked(w.packets, w.timers)
    ensures var r := HeadDrop(c, Counting(w, p), p.length);
            && r.now == w.now
            && View(r, x) == (if MakesRoom(c, w, p, x) then None else View(w, x))
            && Count(r.counters, x)
               == if MakesRoom(c, w, p, x) && c.counter == Contending then 0 else Count(w.counters, x)
  {
    var counted := Counting(w, p);
    DropManyView(c, counted, DropCount(c.capacity, w.packets, p.length), x);
    assert View(counted, x) == View(w, x);
  }

  // ---- the duplicate counters ----

  lemma {:induction false} TakenView(c: Config, w: World, id: Id, x: Id)
    requires Linked(w.packets, w.timers)
    ensures View(AfterRemove(c, w, id), x) == View(AfterFetch(c, w, id).0, x) == if x == id then None else View(w, x)
    ensures Count(AfterRemove(c, w, id).counters, x) == Count(AfterFetch(c, w, id).0.counters, x)
         == if x == id && View(w, x).Some? && c.counter == Contending then 0 else Count(w.counters, x)
  {
    ViewDomain(w, id);
    var j := TimerIndex(w.timers, id);
    if j < |w.timers| {
      var p := Leaving(w, j);
      TakeView(c, w, j, Fate(Removed, w.packets[Slot(w, j)], w.now), x);
      TakeView(c, w, j, Fate(if p.lifetime > 0 then Fetched else Expired, p, w.now), x);
    }
  }

  lemma {:induction false} UpdateCount(c: Config, w: World, id: Id, timeout: int, x: Id)
    requires Linked(w.packets, w.timers)
    ensures Count(AfterUpdate(c, w, id, timeout).counters, x)
         == Count(w.counters, x) + if x == id && View(w, x).Some? then 1 else 0
  {
    ViewDomain(w, id);
  }

  /** The counter after an event, given whether the identifier is buffered before and after it. */
  ghost function Counted(c: Config, w: World, e: Event, r: World, x: Id): nat {
    if Stores(c, w, e, x) then (if c.counter == Contending then 1 else Count(w.counters, x) + 1)
    else if c.counter == Contending && View(r, x).None? then 0
    else if e.Update? && e.id == x && View(w, x).Some? then Count(w.counters, x) + 1
    else Count(w.counters, x)
  }

  lemma {:induction false} StepCounts(c: Config, w: World, e: Event, x: Id)
    requires Inv(c, w)
    requires c.counter == Contending && View(w, x).None? ==> Count(w.counters, x) == 0
    ensures Count(Step(c, w, e).counters, x) == Counted(c, w, e, Step(c, w, e), x)
  {
    match e
    case Add(p, timeout) => AddView(c, w, p, timeout, x);
    case Trigger(d) => TriggerView(c, w, d, x);
    case _ => CallCounts(c, w, e, x);
  }

  lemma {:induction false} CallCounts(c: Config, w: World, e: Event, x: Id)
    requires Inv(c, w) && !e.Add? && !e.Trigger?
    requires c.counter == Contending && View(w, x).None? ==> Count(w.counters, x) == 0
    ensures Count(Step(c, w, e).counters, x) == Counted(c, w, e, Step(c, w, e), x)
  {
    match e
    case Remove(id) => TakenView(c, w, id, x);
    case Update(id, timeout) => UpdateView(c, w, id, timeout, x); UpdateCount(c, w, id, timeout, x);
    case Fetch(id) => TakenView(c, w, id, x);
    case _ => OtherView(c, w, e, x);
  }

  lemma {:induction false} OtherView(c: Config, w: World, e: Event, x: Id)
    requires Linked(w.packets, w.timers) && (e.OtherSchedules? || e.OtherCancels?)
    ensures View(Step(c, w, e), x) == View(w, x) && Step(c, w, e).counters == w.counters
  {
    CoreView(w, x);
    CoreView(Step(c, w, e), x);
  }

  /** In every run a contending counter is zero exactly for the identifiers that are not buffered. */
  lemma {:induction false} CountedExactlyIfBuffered(c: Config, now: int, es: seq<Event>, x: Id)
    requires c.scope != NO_SCOPE && c.counter == Contending
    ensures Count(Run(c, now, es).counters, x) == 0 <==> View(Run(c, now, es), x).None?
    decreases |es|
  {
    if es != [] {
      var before := es[..|es| - 1];
      CountedExactlyIfBuffered(c, now, before, x);
      RunKeeps(c, now, before);
      StepCounts(c, Run(c, now, before), es[|es| - 1], x);
      StepDomain(c, Run(c, now, before), es[|es| - 1], x);
    }
  }

  // ---- a run as a table: per event whether it stores, per state whether x is buffered and its counter ----

  ghost function Buffered(c: Config, now: int, es: seq<Event>, x: Id): (bs: seq<bool>)
    ensures |bs| == |es| + 1 && bs[|es|] == View(Run(c, now, es), x).Some?
  {
    if es == [] then [View(Start(now), x).Some?]
    else Buffered(c, now, es[..|es| - 1], x) + [View(Run(c, now, es), x).Some?]
  }

  ghost function Counters(c: Config, now: int, es: seq<Event>, x: Id): (ns: seq<nat>)
    ensures |ns| == |es| + 1 && ns[|es|] == Count(Run(c, now, es).counters, x)
  {
    if es == [] then [Count(Start(now).counters, x)]
    else Counters(c, now, es[..|es| - 1], x) + [Count(Run(c, now, es).counters, x)]
  }

  predicate IsUpdate(e: Event, x: Id) {
    e.Update? && e.id == x
  }

  /** Which events update the identifier. */
  function Updating(es: seq<Event>, x: Id): (bs: seq<bool>)
    ensures |bs| == |es|
  {
    if es == [] then [] else Updating(es[..|es| - 1], x) + [IsUpdate(es[|es| - 1], x)]
  }

  /** How a stored, kept or updated entry is counted, given the entry and the counter before. */
  predicate CountsOn(stored: bool, updated: bool, buffered: bool, before: nat, counter: nat) {
    if stored then counter == 1 else buffered && counter == before + if updated then 1 else 0
  }

  /** What each event does to the contending counter of an identifier that is buffered after it. */
  ghost predicate Tallied(stored: seq<bool>, updates: seq<bool>, buffered: seq<bool>, counters: seq<nat>) {
    && |stored| == |updates| && |buffered| == |counters| == |stored| + 1 && !buffered[0]
    && forall i, j :: 0 <= i < |stored| && j == i + 1 && buffered[j] ==>
         CountsOn(stored[i], updates[i], buffered[i], counters[i], counters[j])
  }

  lemma {:induction false} TalliedAppend(stored: seq<bool>, updates: seq<bool>, buffered: seq<bool>, counters: seq<nat>,
                                         s: bool, u: bool, b: bool, n: nat)
    requires Tallied(stored, updates, buffered, counters)
    requires b ==> CountsOn(s, u, buffered[|stored|], counters[|stored|], n)
    ensures Tallied(stored + [s], updates + [u], buffered + [b], counters + [n])
  {
  }

  lemma {:induction false} RunTallied(c: Config, now: int, es: seq<Event>, x: Id)
    requires c.scope != NO_SCOPE && c.counter == Contending
    ensures Tallied(Storing(c, now, es, x), Updating(es, x), Buffered(c, now, es, x), Counters(c, now, es, x))
    decreases |es|
  {
    if es == [] {
      ViewDomain(Start(now), x);
    } else {
      var before := es[..|es| - 1];
      RunTallied(c, now, before, x);
      CounterAfterEvent(c, now, es, x);
      TalliedAppend(Storing(c, now, before, x), Updating(before, x),
                    Buffered(c, now, before, x), Counters(c, now, before, x),
                    Stores(c, Run(c, now, before), es[|es| - 1], x), IsUpdate(es[|es| - 1], x),
                    View(Run(c, now, es), x).Some?, Count(Run(c, now, es).counters, x));
    }
  }

  lemma {:induction false} CounterAfterEvent(c: Config, now: int, es: seq<Event>, x: Id)
    requires c.scope != NO_SCOPE && c.counter == Contending && es != []
    ensures var w, e, r := Run(c, now, es[..|es| - 1]), es[|es| - 1], Run(c, now, es);
      View(r, x).Some? ==>
        CountsOn(Stores(c, w, e, x), IsUpdate(e, x), View(w, x).Some?, Count(w.counters, x), Count(r.counters, x))
  {
    var before := es[..|es| - 1];
    RunKeeps(c, now, before);
    CountedExactlyIfBuffered(c, now, before, x);
    CounterStep(c, Run(c, now, before), es[|es| - 1], x);
  }

  /** What an event does to the contending counter of an identifier that is buffered afterwards. */
  lemma {:induction false} CounterStep(c: Config, w: World, e: Event, x: Id)
    requires Inv(c, w) && c.counter == Contending && (View(w, x).None? ==> Count(w.counters, x) == 0)
    ensures var r := Step(c, w, e);
      View(r, x).Some? ==>
        CountsOn(Stores(c, w, e, x), IsUpdate(e, x), View(w, x).Some?, Count(w.counters, x), Count(r.counters, x))
  {
    StepCounts(c, w, e, x);
    StepDomain(c, w, e, x);
  }

  lemma {:induction false} TallyCounts(stored: seq<bool>, updates: seq<bool>, buffered: seq<bool>, counters: seq<nat>,
                                       n: nat, k: nat)
    requires Tallied(stored, updates, buffered, counters)
    requires n <= |stored| && buffered[n] && LastTrue(stored[..n], k)
    ensures counters[n] == 1 + Trues(updates[..n][k + 1..])
    decreases n
  {
    var m := n - 1;
    if stored[m] {
      assert stored[..n][m];
      assert k == m && updates[..n][n..] == [];
    } else {
      assert !stored[..n][m];
      forall j | 0 <= j < m ensures stored[..m][j] == stored[..n][j] {
      }
      TallyCounts(stored, updates, buffered, counters, m, k);
      assert updates[..n][k + 1..] == updates[..m][k + 1..] + [updates[m]];
      TruesAppend(updates[..m][k + 1..], updates[m]);
    }
  }

  lemma {:induction false} TruesAppend(bs: seq<bool>, b: bool)
    ensures Trues(bs + [b]) == Trues(bs) + if b then 1 else 0
  {
    assert (bs + [b])[..|bs|] == bs;
  }

  /** In every run the contending counter of a buffered identifier is one more than the updates since it was stored. */
  lemma {:induction false} CounterCountsUpdates(c: Config, now: int, es: seq<Event>, x: Id, k: nat)
    requires c.scope != NO_SCOPE && c.counter == Contending
    requires View(Run(c, now, es), x).Some? && LastStore(c, now, es, x, k)
    ensures Count(Run(c, now, es).counters, x) == 1 + Trues(Updating(es, x)[k + 1..])
  {
    var stored, updates := Storing(c, now, es, x), Updating(es, x);
    RunTallied(c, now, es, x);
    assert stored[..|es|] == stored && updates[..|es|] == updates;
    TallyCounts(stored, updates, Buffered(c, now, es, x), Counters(c, now, es, x), |es|, k);
  }

  /** The event stores a packet under the identifier or updates the buffered one. */
  predicate Sees(c: Config, w: World, e: Event, x: Id) {
    Stores(c, w, e, x) || (IsUpdate(e, x) && View(w, x).Some?)
  }

  ghost function Seen(c: Config, now: int, es: seq<Event>, x: Id): (bs: seq<bool>)
    ensures |bs| == |es|
  {
    if es == [] then []
    else
      var before := es[..|es| - 1];
      Seen(c, now, before, x) + [Sees(c, Run(c, now, before), es[|es| - 1], x)]
  }

  /** In every run an immortal counter is the number of times a packet of the identifier was stored or updated. */
  lemma {:induction false} ImmortalCounterCountsAll(c: Config, now: int, es: seq<Event>, x: Id)
    requires c.scope != NO_SCOPE && c.counter == Immortal
    ensures Count(Run(c, now, es).counters, x) == Trues(Seen(c, now, es, x))
    decreases |es|
  {
    if es != [] {
      var before, e := es[..|es| - 1], es[|es| - 1];
      ImmortalCounterCountsAll(c, now, before, x);
      RunKeeps(c, now, before);
      StepCounts(c, Run(c, now, before), e, x);
      TruesAppend(Seen(c, now, before, x), Sees(c, Run(c, now, before), e, x));
    }
  }

  /** Only a stored packet makes an identifier buffered. */
  lemma {:induction false} StepDomain(c: Config, w: World, e: Event, x: Id)
    requires Inv(c, w)
    ensures View(Step(c, w, e), x).Some? ==> View(w, x).Some? || Stores(c, w, e, x)
    ensures Stores(c, w, e, x) ==> View(Step(c, w, e), x).Some?
  {
    match e
    case Add(p, timeout) => AddView(c, w, p, timeout, x);
    case Remove(id) => TakenView(c, w, id, x);
    case Update(id, timeout) => UpdateView(c, w, id, timeout, x);
    case Fetch(id) => TakenView(c, w, id, x);
    case Trigger(d) => TriggerView(c, w, d, x);
    case _ => OtherView(c, w, e, x);
  }
}
