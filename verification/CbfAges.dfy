/**
 Lifetimes in the CBF buffer: whatever happens to a packet, the lifetime it has lost when it is
 handed out is the time it has spent in the buffer.
 */
module CbfAges {
  import opened DueList
  import opened ManualRuntimes
  import opened CbfBuffers
  import opened CbfViews
  import opened CbfInvariants
  import opened CbfRuns
  import opened CbfHistory

  // A packet as it was given to the buffer, and when
  datatype Birth = Birth(packet: Packet, at: int)

  /** The packet that an event of a run gave to the buffer, and when. */
  function BirthAt(c: Config, now: int, es: seq<Event>, k: nat): Birth
    requires k < |es| && es[k].Add?
  {
    Birth(es[k].packet, Run(c, now, es[..k]).now)
  }

  /** The packet leaves the buffer towards the link or a caller, or is found to be expired. */
  predicate HandedOut(f: Fate) {
    f.how == Fetched || f.how == Delivered || f.how == Expired
  }

  /** The fate of a packet that was charged with the time since its timer was started. */
  predicate Charged(f: Fate, e: Entry) {
    f.packet == Reduced(e.packet, f.at - e.start) && (f.how == Expired <==> f.packet.lifetime == 0)
  }

  ghost predicate ChargedInView(w: World, f: Fate) {
    View(w, f.packet.id).Some? && Charged(f, View(w, f.packet.id).value)
  }

  /** The packet after some time of its lifetime has passed, and nothing else has changed. */
  predicate LivedFor(before: Packet, after: Packet, time: int) {
    && after == before.(lifetime := after.lifetime)
    && after.lifetime == (if time < before.lifetime then before.lifetime - time else 0)
  }

  lemma {:induction false} ReducedLives(p: Packet, time: int)
    requires time >= 0
    ensures LivedFor(p, Reduced(p, time), time)
  {
  }

  predicate Aged(b: Birth, e: Entry) {
    b.at <= e.start && LivedFor(b.packet, e.packet, e.start - b.at)
  }

  predicate Spent(b: Birth, f: Fate) {
    && b.at <= f.at
    && LivedFor(b.packet, f.packet, f.at - b.at)
    && (f.how == Expired <==> f.packet.lifetime == 0)
  }

  // ---- what the log gains ----

  /** The log only grows; what is added is dated now, and what is handed out was charged from its timer. */
  ghost predicate Gains(w: World, now: int, log: seq<Fate>) {
    w.log <= log && forall i :: |w.log| <= i < |log| ==>
      log[i].at == now && (HandedOut(log[i]) ==> ChargedInView(w, log[i]))
  }

  /** A step takes time forward and adds to the log what it dates by its end. */
  ghost predicate GainsTo(w: World, r: World) {
    w.now <= r.now && Gains(w, r.now, r.log)
  }

  /** Log entries for packets that are dropped, refused or found to be duplicates. */
  ghost predicate Quiet(fs: seq<Fate>, now: int) {
    forall f :: f in fs ==> f.at == now && !HandedOut(f)
  }

  lemma {:induction false} QuietGains(w: World, more: seq<Fate>)
    requires Quiet(more, w.now)
    ensures Gains(w, w.now, w.log + more)
  {
  }

  lemma {:induction false} AddGains(c: Config, w: World, p: Packet, timeout: int)
    requires Linked(w.packets, w.timers)
    ensures GainsTo(w, AfterAdd(c, w, p, timeout))
  {
    AddClock(c, w, p, timeout);
    if timeout > 0 {
      var more := AddLog(c, w, p, timeout);
      QuietGains(w, more);
    } else {
      QuietGains(w, [Fate(Refused, p, w.now)]);
    }
  }

  lemma {:induction false} AddLog(c: Config, w: World, p: Packet, timeout: int) returns (more: seq<Fate>)
    requires Linked(w.packets, w.timers) && timeout > 0
    ensures AfterAdd(c, w, p, timeout).log == w.log + more && Quiet(more, w.now)
  {
    var drops, kept := RoomLog(c, w, p);
    var last := StoreLog(c, kept, p, timeout);
    AddStored(c, w, p, timeout, kept, p.id);
    more := drops + last;
    QuietConcat(w.log, drops, last, w.now);
  }

  lemma {:induction false} QuietConcat(log: seq<Fate>, a: seq<Fate>, b: seq<Fate>, now: int)
    requires Quiet(a, now) && Quiet(b, now)
    ensures Quiet(a + b, now) && log + a + b == log + (a + b)
  {
  }

  lemma {:induction false} RoomLog(c: Config, w: World, p: Packet) returns (drops: seq<Fate>, kept: World)
    requires Linked(w.packets, w.timers)
    ensures kept == HeadDrop(c, Counting(w, p), p.length) && Linked(kept.packets, kept.timers)
    ensures kept.log == w.log + drops && kept.now == w.now && Quiet(drops, w.now)
  {
    var counted := Counting(w, p);
    var k := DropCount(c.capacity, w.packets, p.length);
    kept := HeadDrop(c, counted, p.length);
    drops := DropFates(w.packets[..k], w.now);
    DropManyLog(c, counted, k);
    DropFatesMembers(w.packets[..k], w.now);
    RoomClock(c, w, p);
  }

  lemma {:induction false} DropFatesMembers(ps: seq<Packet>, now: int)
    ensures forall f :: f in DropFates(ps, now) ==> f.at == now && !HandedOut(f)
  {
  }

  lemma {:induction false} StoreLog(c: Config, w: World, p: Packet, timeout: int) returns (last: seq<Fate>)
    requires Linked(w.packets, w.timers)
    ensures AfterStore(c, w, p, timeout).log == w.log + last && Quiet(last, w.now)
  {
    last := if TimerIndex(w.timers, p.id) < |w.timers| then [Fate(Duplicate, p, w.now)] else [];
    assert w.log + [] == w.log;
  }

  lemma {:induction false} LeavingCharged(w: World, j: nat, f: Fate)
    requires Linked(w.packets, w.timers) && j < |w.timers|
    requires f.packet == Leaving(w, j) && f.at == w.now && (f.how == Expired <==> f.packet.lifetime == 0)
    ensures ChargedInView(w, f)
  {
    ViewAt(w, j);
    assert f.packet.id == w.timers[j].what.id;
  }

  lemma {:induction false} OneGain(w: World, now: int, f: Fate)
    requires f.at == now && (HandedOut(f) ==> ChargedInView(w, f))
    ensures Gains(w, now, w.log + [f])
  {
  }

  lemma {:induction false} RemoveGains(c: Config, w: World, id: Id)
    requires Linked(w.packets, w.timers)
    ensures GainsTo(w, AfterRemove(c, w, id))
  {
    var j := TimerIndex(w.timers, id);
    if j < |w.timers| {
      OneGain(w, w.now, Fate(Removed, w.packets[Slot(w, j)], w.now));
    }
  }

  lemma {:induction false} FetchGains(c: Config, w: World, id: Id)
    requires Linked(w.packets, w.timers)
    ensures GainsTo(w, AfterFetch(c, w, id).0)
  {
    var j := TimerIndex(w.timers, id);
    if j < |w.timers| {
      var p := Leaving(w, j);
      var f := Fate(if p.lifetime > 0 then Fetched else Expired, p, w.now);
      LeavingCharged(w, j, f);
      OneGain(w, w.now, f);
    }
  }

  /** The flush loop charges every packet it hands out from its timer. */
  lemma {:induction false} FlushCharges(w: World, t: World, k: nat, i: nat)
    requires Linked(w.packets, w.timers) && t.packets == w.packets && t.timers == w.timers
    requires i < k <= |w.timers|
    ensures FlushFates(t, k)[i].at == t.now && ChargedInView(w, FlushFates(t, k)[i])
  {
    LeavingCharged(t, i, FlushFates(t, k)[i]);
    SameView(w, t, FlushFates(t, k)[i].packet.id);
  }

  lemma {:induction false} SameView(w: World, t: World, x: Id)
    requires t.packets == w.packets && t.timers == w.timers
    ensures View(t, x) == View(w, x)
  {
  }

  lemma {:induction false} TriggerGains(c: Config, w: World, d: nat)
    requires Inv(c, w)
    ensures GainsTo(w, AfterTrigger(c, w, d))
  {
    TriggerCore(c, w, d);
    var t := Core(w.(now := w.now + d));
    var k := UpperBound(t.timers, t.now);
    TriggerLog(c, w, d, t, k);
    FlushedCharged(w, t, k);
    AllGains(w, t.now, if DueBy(c, w, w.now + d) then FlushFates(t, k) else []);
  }

  ghost predicate AllCharged(w: World, now: int, fates: seq<Fate>) {
    forall i :: 0 <= i < |fates| ==> fates[i].at == now && ChargedInView(w, fates[i])
  }

  lemma {:induction false} FlushedCharged(w: World, t: World, k: nat)
    requires Linked(w.packets, w.timers) && t.packets == w.packets && t.timers == w.timers && k <= |w.timers|
    ensures AllCharged(w, t.now, FlushFates(t, k))
  {
    forall i | 0 <= i < k ensures FlushFates(t, k)[i].at == t.now && ChargedInView(w, FlushFates(t, k)[i]) {
      FlushCharges(w, t, k, i);
    }
  }

  lemma {:induction false} AllGains(w: World, now: int, more: seq<Fate>)
    requires AllCharged(w, now, more)
    ensures Gains(w, now, w.log + more)
  {
  }

  lemma {:induction false} StepGains(c: Config, w: World, e: Event)
    requires Inv(c, w)
    ensures GainsTo(w, Step(c, w, e))
  {
    match e
    case Add(p, timeout) => AddGains(c, w, p, timeout);
    case Remove(id) => RemoveGains(c, w, id);
    case Update(id, timeout) => UpdateGains(c, w, id, timeout);
    case Fetch(id) => FetchGains(c, w, id);
    case Trigger(d) => TriggerGains(c, w, d);
    case OtherSchedules(_, _) => NoGain(w, Step(c, w, e));
    case OtherCancels(_) => NoGain(w, Step(c, w, e));
  }

  lemma {:induction false} NoGain(w: World, r: World)
    requires r.now == w.now && r.log == w.log
    ensures GainsTo(w, r)
  {
  }

  lemma {:induction false} UpdateGains(c: Config, w: World, id: Id, timeout: int)
    requires Linked(w.packets, w.timers)
    ensures GainsTo(w, AfterUpdate(c, w, id, timeout))
  {
    NoGain(w, AfterUpdate(c, w, id, timeout));
  }

  lemma {:induction false} AddClock(c: Config, w: World, p: Packet, timeout: int)
    requires Linked(w.packets, w.timers)
    ensures AfterAdd(c, w, p, timeout).now == w.now
  {
    if timeout > 0 {
      AddStored(c, w, p, timeout, HeadDrop(c, Counting(w, p), p.length), p.id);
    }
  }

  // ---- entries age with their timers ----

  /** The timer of an entry is restarted, its packet charged with the time since the last start. */
  predicate Restarted(before: Entry, now: int, n: Entry) {
    n.start == now && n.packet == Reduced(before.packet, now - before.start)
  }

  /** An entry is the one of a packet just stored, or stays, or is restarted. */
  lemma {:induction false} StepEntry(c: Config, w: World, e: Event, x: Id)
    requires Inv(c, w) && View(Step(c, w, e), x).Some?
    ensures var n := View(Step(c, w, e), x).value;
      if Stores(c, w, e, x) then n.packet == e.packet && n.start == w.now
      else View(w, x).Some? && (n == View(w, x).value || Restarted(View(w, x).value, w.now, n))
  {
    match e
    case Add(p, timeout) => AddView(c, w, p, timeout, x);
    case Remove(id) => TakenView(c, w, id, x);
    case Update(id, timeout) => UpdateView(c, w, id, timeout, x);
    case Fetch(id) => TakenView(c, w, id, x);
    case Trigger(d) => TriggerView(c, w, d, x);
    case _ => OtherView(c, w, e, x);
  }

  lemma {:induction false} AgedOn(b: Birth, e: Entry, now: int)
    requires Aged(b, e) && e.start <= now
    ensures b.at <= now && LivedFor(b.packet, Reduced(e.packet, now - e.start), now - b.at)
  {
    ReducedLives(e.packet, now - e.start);
  }

  /** The entry is that of a packet given to the buffer at its birth. */
  predicate Grown(b: Birth, e: Entry, now: int) {
    e.start <= now && Aged(b, e)
  }

  lemma {:induction false} EntryGrows(b: Birth, before: Entry, now: int, n: Entry, later: int)
    requires Grown(b, before, now) && (n == before || Restarted(before, now, n)) && now <= later
    ensures Grown(b, n, later)
  {
    AgedOn(b, before, now);
  }

  /** The latest store stays the latest one until the identifier is stored again. */
  lemma {:induction false} LastStoreStays(c: Config, now: int, es: seq<Event>, x: Id, k: nat)
    requires es != [] && LastStore(c, now, es[..|es| - 1], x, k)
    requires !Stores(c, Run(c, now, es[..|es| - 1]), es[|es| - 1], x)
    ensures LastStore(c, now, es, x, k)
  {
    LastTrueStays(Storing(c, now, es[..|es| - 1], x), k);
  }

  lemma {:induction false} LastTrueStays(bs: seq<bool>, k: nat)
    requires LastTrue(bs, k)
    ensures LastTrue(bs + [false], k)
  {
  }

  lemma {:induction false} StoreIsLast(c: Config, now: int, es: seq<Event>, x: Id)
    requires es != [] && Stores(c, Run(c, now, es[..|es| - 1]), es[|es| - 1], x)
    ensures LastStore(c, now, es, x, |es| - 1)
  {
  }

  /** The entry of the identifier is that of the packet the k-th event gave to the buffer. */
  ghost predicate GrownFrom(c: Config, now: int, es: seq<Event>, x: Id, k: nat) {
    k < |es| && es[k].Add? && GrownIn(Run(c, now, es), x, BirthAt(c, now, es, k))
  }

  ghost predicate GrownIn(w: World, x: Id, b: Birth) {
    View(w, x).Some? && Grown(b, View(w, x).value, w.now)
  }

  lemma {:induction false} EntryIsBorn(c: Config, now: int, es: seq<Event>, x: Id)
    requires c.scope != NO_SCOPE && es != [] && View(Run(c, now, es), x).Some?
    requires Stores(c, Run(c, now, es[..|es| - 1]), es[|es| - 1], x)
    ensures GrownFrom(c, now, es, x, |es| - 1)
  {
    var before := es[..|es| - 1];
    RunKeeps(c, now, before);
    StepGains(c, Run(c, now, before), es[|es| - 1]);
    StepEntry(c, Run(c, now, before), es[|es| - 1], x);
  }

  lemma {:induction false} StaysBuffered(c: Config, now: int, es: seq<Event>, x: Id)
    requires c.scope != NO_SCOPE && es != [] && View(Run(c, now, es), x).Some?
    requires !Stores(c, Run(c, now, es[..|es| - 1]), es[|es| - 1], x)
    ensures View(Run(c, now, es[..|es| - 1]), x).Some?
  {
    var before := es[..|es| - 1];
    RunKeeps(c, now, before);
    StepDomain(c, Run(c, now, before), es[|es| - 1], x);
  }

  lemma {:induction false} EntryAges(c: Config, now: int, es: seq<Event>, x: Id, k: nat)
    requires c.scope != NO_SCOPE && es != [] && View(Run(c, now, es), x).Some?
    requires !Stores(c, Run(c, now, es[..|es| - 1]), es[|es| - 1], x)
    requires GrownFrom(c, now, es[..|es| - 1], x, k)
    ensures GrownFrom(c, now, es, x, k)
  {
    var before := es[..|es| - 1];
    var b := BirthAt(c, now, before, k);
    RunKeeps(c, now, before);
    BirthOfBefore(c, now, es, k, b);
    StepGrows(c, Run(c, now, before), es[|es| - 1], x, b);
  }

  lemma {:induction false} StepGrows(c: Config, w: World, e: Event, x: Id, b: Birth)
    requires Inv(c, w) && View(Step(c, w, e), x).Some? && !Stores(c, w, e, x)
    requires GrownIn(w, x, b)
    ensures GrownIn(Step(c, w, e), x, b)
  {
    StepGains(c, w, e);
    StepEntry(c, w, e, x);
    EntryGrows(b, View(w, x).value, w.now, View(Step(c, w, e), x).value, Step(c, w, e).now);
  }

  /**
   For every buffered packet the durations subtracted so far sum up to the time from the event that
   stored it to the start of its current timer.
   */
  lemma {:induction false} EntriesAge(c: Config, now: int, es: seq<Event>, x: Id) returns (k: nat)
    requires c.scope != NO_SCOPE && View(Run(c, now, es), x).Some?
    ensures LastStore(c, now, es, x, k) && GrownFrom(c, now, es, x, k)
    decreases |es|
  {
    if es == [] {
      ViewDomain(Start(now), x);
    } else {
      var before := es[..|es| - 1];
      if Stores(c, Run(c, now, before), es[|es| - 1], x) {
        k := |es| - 1;
        StoreIsLast(c, now, es, x);
        EntryIsBorn(c, now, es, x);
      } else {
        StaysBuffered(c, now, es, x);
        k := EntriesAge(c, now, before, x);
        LastStoreStays(c, now, es, x, k);
        EntryAges(c, now, es, x, k);
      }
    }
  }

  /** The m-th event of the run made the i-th entry of the log. */
  ghost predicate LoggedBy(c: Config, now: int, es: seq<Event>, i: nat, m: nat) {
    m < |es| && |Run(c, now, es[..m]).log| <= i < |Run(c, now, es[..m + 1]).log|
  }

  lemma {:induction false} ChargedSpent(b: Birth, e: Entry, now: int, f: Fate)
    requires Grown(b, e, now) && now <= f.at && Charged(f, e)
    ensures Spent(b, f)
  {
    AgedOn(b, e, f.at);
  }

  /** The m-th event made the i-th entry f of the log, for a packet that the k-th event stored at its birth b. */
  ghost predicate StoredUntil(c: Config, now: int, es: seq<Event>, i: nat, m: nat, k: nat, b: Birth, f: Fate) {
    && LoggedBy(c, now, es, i, m) && LastStore(c, now, es[..m], f.packet.id, k)
    && k < m && es[k].Add? && b == BirthAt(c, now, es, k)
  }

  /**
   For every packet that is fetched, delivered or found expired, the durations subtracted by all
   updates and by the final hand-out sum up to exactly the time since the event that stored it,
   the latest one that stored its identifier; it counts as expired exactly when that leaves no lifetime.
   */
  lemma {:induction false} LifetimeSpentIsTimeInBuffer(c: Config, now: int, es: seq<Event>, i: nat)
    returns (m: nat, k: nat, b: Birth)
    requires c.scope != NO_SCOPE && i < |Run(c, now, es).log| && HandedOut(Run(c, now, es).log[i])
    ensures StoredUntil(c, now, es, i, m, k, b, Run(c, now, es).log[i]) && Spent(b, Run(c, now, es).log[i])
    decreases |es|
  {
    m, k, b := LoggedIsSpent(c, now, es, i, Run(c, now, es).log[i]);
  }

  /** The i-th entry of the log is f. */
  ghost predicate LoggedAs(c: Config, now: int, es: seq<Event>, i: nat, f: Fate) {
    i < |Run(c, now, es).log| && Run(c, now, es).log[i] == f
  }

  lemma {:induction false} LoggedIsSpent(c: Config, now: int, es: seq<Event>, i: nat, f: Fate)
    returns (m: nat, k: nat, b: Birth)
    requires c.scope != NO_SCOPE && LoggedAs(c, now, es, i, f) && HandedOut(f)
    ensures StoredUntil(c, now, es, i, m, k, b, f) && Spent(b, f)
    decreases |es|
  {
    NothingLoggedAtFirst(c, now, es, i, f);
    if LoggedAs(c, now, es[..|es| - 1], i, f) {
      m, k, b := LoggedIsSpent(c, now, es[..|es| - 1], i, f);
      StoredBefore(c, now, es, i, m, k, b, f);
    } else {
      m, k, b := NewFateSpent(c, now, es, i, f);
    }
  }

  lemma {:induction false} NothingLoggedAtFirst(c: Config, now: int, es: seq<Event>, i: nat, f: Fate)
    requires LoggedAs(c, now, es, i, f)
    ensures es != []
  {
  }

  lemma {:induction false} LoggedBefore(c: Config, now: int, es: seq<Event>, i: nat, m: nat)
    requires es != [] && LoggedBy(c, now, es[..|es| - 1], i, m)
    ensures LoggedBy(c, now, es, i, m)
  {
    var before := es[..|es| - 1];
    assert before[..m] == es[..m];
    assert before[..m + 1] == es[..m + 1];
  }

  lemma {:induction false} PrefixOfBefore(es: seq<Event>, m: nat)
    requires m < |es|
    ensures es[..|es| - 1][..m] == es[..m]
  {
  }

  lemma {:induction false} BirthOfBefore(c: Config, now: int, es: seq<Event>, k: nat, b: Birth)
    requires k < |es| - 1 && es[..|es| - 1][k].Add? && b == BirthAt(c, now, es[..|es| - 1], k)
    ensures es[k].Add? && b == BirthAt(c, now, es, k)
  {
    PrefixOfBefore(es, k);
  }

  lemma {:induction false} StoredBefore(c: Config, now: int, es: seq<Event>, i: nat, m: nat, k: nat, b: Birth, f: Fate)
    requires es != [] && StoredUntil(c, now, es[..|es| - 1], i, m, k, b, f)
    ensures StoredUntil(c, now, es, i, m, k, b, f)
  {
    LoggedBefore(c, now, es, i, m);
    BirthOfBefore(c, now, es, k, b);
    PrefixOfBefore(es, m);
  }

  lemma {:induction false} LogGrows(c: Config, now: int, es: seq<Event>)
    requires c.scope != NO_SCOPE && es != []
    ensures Run(c, now, es[..|es| - 1]).log <= Run(c, now, es).log
  {
    var before := es[..|es| - 1];
    RunKeeps(c, now, before);
    StepGains(c, Run(c, now, before), es[|es| - 1]);
  }

  lemma {:induction false} LoggedLast(c: Config, now: int, es: seq<Event>, i: nat, f: Fate)
    requires c.scope != NO_SCOPE && es != []
    requires LoggedAs(c, now, es, i, f) && !LoggedAs(c, now, es[..|es| - 1], i, f)
    ensures |Run(c, now, es[..|es| - 1]).log| <= i && LoggedBy(c, now, es, i, |es| - 1)
  {
    LogGrows(c, now, es);
    assert es[..|es|] == es;
  }

  lemma {:induction false} NewFateSpent(c: Config, now: int, es: seq<Event>, i: nat, f: Fate)
    returns (m: nat, k: nat, b: Birth)
    requires c.scope != NO_SCOPE && es != [] && HandedOut(f)
    requires LoggedAs(c, now, es, i, f) && !LoggedAs(c, now, es[..|es| - 1], i, f)
    ensures StoredUntil(c, now, es, i, m, k, b, f) && Spent(b, f)
  {
    m := |es| - 1;
    LoggedLast(c, now, es, i, f);
    k, b := NewFateAged(c, now, es, i, f);
  }

  lemma {:induction false} NewFateAged(c: Config, now: int, es: seq<Event>, i: nat, f: Fate) returns (k: nat, b: Birth)
    requires c.scope != NO_SCOPE && es != [] && HandedOut(f)
    requires LoggedAs(c, now, es, i, f) && |Run(c, now, es[..|es| - 1]).log| <= i
    ensures LastStore(c, now, es[..|es| - 1], f.packet.id, k) && k < |es| - 1
    ensures es[k].Add? && b == BirthAt(c, now, es, k) && Spent(b, f)
  {
    var before := es[..|es| - 1];
    var w := Run(c, now, before);
    RunKeeps(c, now, before);
    StepGains(c, w, es[|es| - 1]);
    k := EntriesAge(c, now, before, f.packet.id);
    b := BirthAt(c, now, before, k);
    ChargedSpent(b, View(w, f.packet.id).value, w.now, f);
    BirthOfBefore(c, now, es, k, b);
  }

  // ---- order ----

  /** The packets of both fates were buffered, the first one expiring no later than the second one. */
  ghost predicate NoLater(w: World, f: Fate, g: Fate) {
    var x, y := View(w, f.packet.id), View(w, g.packet.id);
    x.Some? && y.Some? && x.value.expiry <= y.value.expiry
  }

  /** Each trigger hands packets out in the order of their expiry. */
  lemma {:induction false} HandedOutInExpiryOrder(c: Config, w: World, d: nat) returns (fates: seq<Fate>)
    requires Inv(c, w)
    ensures AfterTrigger(c, w, d).log == w.log + fates
    ensures forall i, j :: 0 <= i < j < |fates| ==> NoLater(w, fates[i], fates[j])
  {
    var t := Core(w.(now := w.now + d));
    var k := UpperBound(t.timers, t.now);
    TriggerLog(c, w, d, t, k);
    fates := if DueBy(c, w, w.now + d) then FlushFates(t, k) else [];
    forall i, j | 0 <= i < j < |fates| ensures NoLater(w, fates[i], fates[j]) {
      FatesInExpiryOrder(w, t, k, i, j);
    }
  }

  lemma {:induction false} FatesInExpiryOrder(w: World, t: World, k: nat, i: nat, j: nat)
    requires Linked(w.packets, w.timers) && Ordered(w.timers) && t.packets == w.packets && t.timers == w.timers
    requires i < j < k <= |w.timers|
    ensures NoLater(w, FlushFates(t, k)[i], FlushFates(t, k)[j])
  {
    FateExpiry(w, t, k, i);
    FateExpiry(w, t, k, j);
  }

  lemma {:induction false} TriggerLog(c: Config, w: World, d: nat, t: World, k: nat)
    requires Inv(c, w) && t == Core(w.(now := w.now + d)) && k == UpperBound(t.timers, t.now)
    ensures AfterTrigger(c, w, d).log == w.log + if DueBy(c, w, w.now + d) then FlushFates(t, k) else []
  {
    TriggerCore(c, w, d);
    var r := AfterTrigger(c, w, d);
    assert Core(r).log == r.log;
    HandOutLog(c, t, k);
  }

  lemma {:induction false} FateExpiry(w: World, t: World, k: nat, i: nat)
    requires Linked(w.packets, w.timers) && t.packets == w.packets && t.timers == w.timers
    requires i < k <= |w.timers|
    ensures FlushFates(t, k)[i].packet.id == w.timers[i].what.id
    ensures View(w, w.timers[i].what.id).Some? && View(w, w.timers[i].what.id).value.expiry == w.timers[i].at
  {
    ViewAt(w, i);
  }

  // ---- an update can make the callback late ----

  /** A packet whose timer is shortened to expire before the callback is missed by every trigger in between. */
  lemma {:induction false} ShortenedTimerIsMissed(c: Config, w: World, id: Id, timeout: int, d: nat)
    requires Inv(c, w) && View(w, id).Some? && timeout <= d && !DueBy(c, w, w.now + d)
    ensures var r := AfterTrigger(c, AfterUpdate(c, w, id, timeout), d);
            View(r, id).Some? && View(r, id).value.expiry == w.now + timeout && r.now == w.now + d
  {
    var u := AfterUpdate(c, w, id, timeout);
    UpdateKeeps(c, w, id, timeout);
    UpdateView(c, w, id, timeout, id);
    assert u.queue == w.queue && u.now == w.now;
    assert !DueBy(c, u, u.now + d);
    TriggerView(c, u, d, id);
    TriggerCore(c, u, d);
  }

  /**
   Such a state is reachable: a packet added for a long time and updated to a short one is still
   buffered after it has expired, because the callback stays scheduled for the long time.
   */
  lemma {:induction false} MissedPacket(c: Config, now: int, p: Packet, long: int, short: int, d: nat, w: World)
    requires c.scope != NO_SCOPE && 0 < long && short <= d < long && w == Run(c, now, [Add(p, long)])
    ensures var r := AfterTrigger(c, AfterUpdate(c, w, p.id, short), d);
      View(r, p.id).Some? && View(r, p.id).value.expiry == now + short <= r.now
  {
    FirstAdd(c, now, p, long);
    RunKeeps(c, now, [Add(p, long)]);
    ShortenedTimerIsMissed(c, w, p.id, short, d);
  }

  lemma {:induction false} RunStep(c: Config, now: int, es: seq<Event>, e: Event)
    ensures Run(c, now, es + [e]) == Step(c, Run(c, now, es), e)
  {
    assert (es + [e])[..|es|] == es;
  }

  /** After a first packet is added its callback is due when the packet expires. */
  lemma {:induction false} FirstAdd(c: Config, now: int, p: Packet, long: int)
    requires long > 0
    ensures var w := Run(c, now, [Add(p, long)]);
      View(w, p.id).Some? && w.now == now && w.queue == [Due(now + long, c.scope)]
  {
    var w := Start(now);
    RunStep(c, now, [], Add(p, long));
    assert [] + [Add(p, long)] == [Add(p, long)];
    AddView(c, w, p, long, p.id);
    AddClock(c, w, p, long);
    FirstTimer(c, w, p, long);
  }

  lemma {:induction false} FirstTimer(c: Config, w: World, p: Packet, timeout: int)
    requires w == Start(w.now) && timeout > 0
    ensures AfterAdd(c, w, p, timeout).queue == [Due(w.now + timeout, c.scope)]
  {
    var counted := Counting(w, p);
    AddInStages(c, w, p, timeout, counted);
    assert HeadDrop(c, counted, p.length) == counted;
    var next := AfterStore(c, counted, p, timeout);
    assert next.timers == [Due(w.now + timeout, Timer(p.id, w.now))];
    assert AfterSchedule(c, next).queue == [Due(w.now + timeout, c.scope)];
  }
}
