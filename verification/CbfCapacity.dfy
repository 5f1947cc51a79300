/** The byte capacity of the CBF buffer: when it is exceeded, and by whom. */
module CbfCapacity {
  import opened ManualRuntimes
  import opened CbfBuffers
  import opened CbfViews
  import opened CbfInvariants
  import opened CbfRuns
  import opened CbfHistory
  import opened CbfAges

  /** In every run the capacity is exceeded exactly if one packet is buffered that is longer than the capacity. */
  lemma {:induction false} ExceededByOne(c: Config, now: int, es: seq<Event>)
    requires c.scope != NO_SCOPE
    ensures var w := Run(c, now, es);
      w.stored > c.capacity <==> |w.packets| == 1 && w.packets[0].length > c.capacity
  {
    var w := Run(c, now, es);
    RunKeeps(c, now, es);
    if |w.packets| == 1 {
      BytesOfOne(w.packets);
    }
  }

  lemma {:induction false} BytesOfOne(ps: seq<Packet>)
    requires |ps| == 1
    ensures Bytes(ps) == ps[0].length
  {
    assert ps[1..] == [];
    assert Bytes(ps[1..]) == 0;
  }

  /** Adding a packet exceeds the capacity exactly if the packet alone does; a refused packet changes nothing. */
  lemma {:induction false} AddExceeds(c: Config, w: World, p: Packet, timeout: int)
    requires StoreInv(c, w)
    ensures AfterAdd(c, w, p, timeout).stored > c.capacity
       <==> if timeout > 0 then p.length > c.capacity else w.stored > c.capacity
  {
    if timeout > 0 {
      var counted := Counting(w, p);
      var kept := HeadDrop(c, counted, p.length);
      HeadDropStore(c, counted, p.length);
      AddInStages(c, w, p, timeout, counted);
      StoredBytes(c, w, kept, p, timeout);
    }
  }

  lemma {:induction false} StoredBytes(c: Config, w: World, kept: World, p: Packet, timeout: int)
    requires Linked(kept.packets, kept.timers)
    requires kept.stored == Bytes(kept.packets) + p.length && (kept.stored <= c.capacity || kept.packets == [])
    ensures AfterDrop(c, w.timers, kept, p, timeout).stored > c.capacity <==> p.length > c.capacity
  {
    LinkedSize(kept.packets, kept.timers);
  }

  /** One long packet is enough. */
  lemma {:induction false} LongPacketExceeds(c: Config, now: int, p: Packet, timeout: int)
    requires timeout > 0 && p.length > c.capacity
    ensures Run(c, now, [Add(p, timeout)]).stored > c.capacity
  {
    RunStep(c, now, [], Add(p, timeout));
    assert [] + [Add(p, timeout)] == [Add(p, timeout)];
    AddExceeds(c, Start(now), p, timeout);
  }

  /** In every run the capacity is only exceeded by a packet that was longer than it when it was stored. */
  lemma {:induction false} ExceededByLongAdd(c: Config, now: int, es: seq<Event>) returns (k: nat)
    requires c.scope != NO_SCOPE && Run(c, now, es).stored > c.capacity
    ensures k < |es| && es[k].Add? && es[k].timeout > 0 && es[k].packet.length > c.capacity
  {
    var w := Run(c, now, es);
    RunKeeps(c, now, es);
    ExceededByOne(c, now, es);
    LonePacket(w);
    k := EntriesAge(c, now, es, w.packets[0].id);
    StoringAt(c, now, es, w.packets[0].id, k);
  }

  lemma {:induction false} LonePacket(w: World)
    requires Linked(w.packets, w.timers) && |w.packets| == 1
    ensures View(w, w.packets[0].id).Some? && View(w, w.packets[0].id).value.packet == w.packets[0]
  {
    LinkedSize(w.packets, w.timers);
    ViewAt(w, 0);
  }

  /** In every run the documented limit holds if all packets that wait for some time fit on their own. */
  lemma {:induction false} FittingPacketsFit(c: Config, now: int, es: seq<Event>)
    requires c.scope != NO_SCOPE
    requires forall i :: 0 <= i < |es| && es[i].Add? && es[i].timeout > 0 ==> es[i].packet.length <= c.capacity
    ensures Run(c, now, es).stored <= c.capacity
  {
    if Run(c, now, es).stored > c.capacity {
      var k := ExceededByLongAdd(c, now, es);
    }
  }
}
