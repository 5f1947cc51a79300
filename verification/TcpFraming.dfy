/**
 The framing of packets on TCP links: a two byte length in front of every packet, and a receiver
 that collects bytes in whatever chunks they arrive.
 */
module TcpFraming {
  import opened Bytes

  const ETHERNET_HEADER: nat := 14

  /** The frame delimiter holds the size as an unsigned 16 bit number. */
  function Delimiter(size: nat): (d: seq<byte>)
    ensures |d| == 2
  {
    var n := size % 65536;
    [(n / 256) as byte, (n % 256) as byte]
  }

  function Frame(packet: seq<byte>): seq<byte> {
    Delimiter(|packet|) + packet
  }

  function Frames(packets: seq<seq<byte>>): seq<byte> {
    if packets == [] then [] else Frame(packets[0]) + Frames(packets[1..])
  }

  function NextSize(store: seq<byte>): (n: nat)
    ensures n < 65536
  {
    if |store| >= 2 then store[0] as int * 256 + store[1] as int else 0
  }

  // The packets passed up and the bytes kept for later
  datatype Received = Received(packets: seq<seq<byte>>, store: seq<byte>)

  function Drain(store: seq<byte>): Received
    decreases |store|
  {
    var n := NextSize(store) + 2;
    if |store| < n then Received([], store)
    else
      var rest := Drain(store[n..]);
      Received([store[2..n]] + rest.packets, rest.store)
  }

  lemma {:induction false} DrainStep(store: seq<byte>, packet: seq<byte>, rest: seq<byte>)
    requires |store| == |packet| + |rest| + 2 && NextSize(store) == |packet|
    requires store[2..|packet| + 2] == packet && store[|packet| + 2..] == rest
    ensures Drain(store) == Received([packet] + Drain(rest).packets, Drain(rest).store)
  {
  }

  lemma {:induction false} Regroup<T>(a: seq<T>, b: seq<T>, c: seq<T>)
    ensures a + (b + c) == (a + b) + c
  {
  }

  /** Some packets have been passed up and the rest of the result is still to be drained. */
  ghost predicate Draining(all: Received, done: seq<seq<byte>>, store: seq<byte>) {
    all == Received(done + Drain(store).packets, Drain(store).store)
  }

  lemma {:induction false} DrainingGoesOn(all: Received, done: seq<seq<byte>>, store: seq<byte>, n: nat)
    requires Draining(all, done, store) && n == NextSize(store) + 2 <= |store|
    ensures Draining(all, done + [store[2..n]], store[n..])
  {
    var packet, rest := store[2..n], store[n..];
    DrainStep(store, packet, rest);
    Regroup(done, [packet], Drain(rest).packets);
  }

  lemma {:induction false} DrainingEnds(all: Received, done: seq<seq<byte>>, store: seq<byte>)
    requires Draining(all, done, store) && |store| < NextSize(store) + 2
    ensures all == Received(done, store)
  {
    assert done + [] == done;
  }

  function Feed(r: Received, chunk: seq<byte>): Received {
    var d := Drain(r.store + chunk);
    Received(r.packets + d.packets, d.store)
  }

  function FeedAll(r: Received, chunks: seq<seq<byte>>): Received {
    if chunks == [] then r else Feed(FeedAll(r, chunks[..|chunks| - 1]), chunks[|chunks| - 1])
  }

  class TcpSocket {
    var store: seq<byte>
    ghost var passed: seq<seq<byte>>
    var indicated: seq<seq<byte>>

    /** What was indicated are the packets passed up that hold an Ethernet header. */
    ghost predicate Valid()
      reads this
    {
      indicated == Indications(passed)
    }

    constructor ()
      ensures store == [] && passed == [] && indicated == [] && Valid()
    {
      store, passed, indicated := [], [], [];
    }

    /** Packets too short for an Ethernet header are not indicated. */
    method PassUp(packet: seq<byte>)
      modifies this`passed, this`indicated
      ensures passed == old(passed) + [packet]
      ensures indicated == old(indicated) + Indications([packet])
    {
      passed := passed + [packet];
      assert [packet][1..] == [];
      if |packet| >= ETHERNET_HEADER {
        indicated := indicated + [packet];
      }
    }

    method ReceiveHandler(chunk: seq<byte>)
      requires Valid()
      modifies this
      ensures Valid()
      ensures Received(passed, store) == Feed(Received(old(passed), old(store)), chunk)
      ensures indicated == old(indicated) + Indications(Drain(old(store) + chunk).packets)
    {
      store := store + chunk;
      ghost var all := Drain(store);
      ghost var done: seq<seq<byte>> := [];
      while |store| >= NextSize(store) + 2
        invariant Draining(all, done, store)
        invariant passed == old(passed) + done
        invariant indicated == old(indicated) + Indications(done)
        decreases |store|
      {
        var n := NextSize(store) + 2;
        var packet := store[2..n];
        DrainingGoesOn(all, done, store, n);
        IndicationsConcat(done, [packet]);
        Regroup(old(passed), done, [packet]);
        Regroup(old(indicated), Indications(done), Indications([packet]));
        PassUp(packet);
        store := store[n..];
        done := done + [packet];
      }
      DrainingEnds(all, done, store);
      IndicationsConcat(old(passed), done);
    }
  }

  function Indications(packets: seq<seq<byte>>): seq<seq<byte>> {
    if packets == [] then []
    else (if |packets[0]| >= ETHERNET_HEADER then [packets[0]] else []) + Indications(packets[1..])
  }

  lemma {:induction false} IndicationsConcat(a: seq<seq<byte>>, b: seq<seq<byte>>)
    ensures Indications(a + b) == Indications(a) + Indications(b)
  {
    if a == [] {
      assert a + b == b;
    } else {
      var first := if |a[0]| >= ETHERNET_HEADER then [a[0]] else [];
      assert (a + b)[0] == a[0] && (a + b)[1..] == a[1..] + b;
      IndicationsConcat(a[1..], b);
      Regroup(first, Indications(a[1..]), Indications(b));
    }
  }

  // ---- chunks do not matter ----

  /** Bytes that arrive later do not change what was decided before. */
  lemma {:induction false} DrainAppend(store: seq<byte>, more: seq<byte>)
    ensures var d := Drain(store);
            var e := Drain(d.store + more);
            Drain(store + more) == Received(d.packets + e.packets, e.store)
    decreases |store|
  {
    var n := NextSize(store) + 2;
    if |store| >= n {
      var all := store + more;
      var p, rest := store[2..n], store[n..];
      assert all[2..n] == p && all[n..] == rest + more;
      DrainStep(all, p, rest + more);
      DrainStep(store, p, rest);
      DrainAppend(rest, more);
      Regroup([p], Drain(rest).packets, Drain(Drain(rest).store + more).packets);
    }
  }

  function Concat(chunks: seq<seq<byte>>): seq<byte> {
    if chunks == [] then [] else Concat(chunks[..|chunks| - 1]) + chunks[|chunks| - 1]
  }

  /** However the bytes are cut into chunks, the receiver ends up as if they had come at once. */
  lemma {:induction false} ChunkingIsIrrelevant(chunks: seq<seq<byte>>)
    ensures FeedAll(Received([], []), chunks) == Drain(Concat(chunks))
    decreases |chunks|
  {
    if chunks != [] {
      var before, c := chunks[..|chunks| - 1], chunks[|chunks| - 1];
      ChunkingIsIrrelevant(before);
      DrainAppend(Concat(before), c);
    }
  }

  // ---- the receiver undoes the framing ----

  lemma {:induction false} DelimiterSize(size: nat, rest: seq<byte>)
    requires size < 65536
    ensures NextSize(Delimiter(size) + rest) == size
  {
  }

  lemma {:induction false} DrainFrame(p: seq<byte>, rest: seq<byte>)
    requires |p| < 65536
    ensures Drain(Frame(p) + rest) == Received([p] + Drain(rest).packets, Drain(rest).store)
  {
    var all := Frame(p) + rest;
    assert all == Delimiter(|p|) + (p + rest);
    DelimiterSize(|p|, p + rest);
    DrainStep(all, p, rest);
  }

  lemma {:induction false} DrainFrames(packets: seq<seq<byte>>, tail: seq<byte>)
    requires forall i :: 0 <= i < |packets| ==> |packets[i]| < 65536
    ensures Drain(Frames(packets) + tail) == Received(packets + Drain(tail).packets, Drain(tail).store)
  {
    if packets == [] {
      assert Frames(packets) + tail == tail;
      assert packets + Drain(tail).packets == Drain(tail).packets;
    } else {
      var p, rest := packets[0], packets[1..];
      assert packets == [p] + rest;
      DrainFrames(rest, tail);
      Regroup(Frame(p), Frames(rest), tail);
      DrainFirst(p, Frames(rest) + tail, rest, Drain(tail));
    }
  }

  lemma {:induction false} DrainFirst(p: seq<byte>, stream: seq<byte>, rest: seq<seq<byte>>, last: Received)
    requires |p| < 65536 && Drain(stream) == Received(rest + last.packets, last.store)
    ensures Drain(Frame(p) + stream) == Received([p] + rest + last.packets, last.store)
  {
    DrainFrame(p, stream);
    Regroup([p], rest, last.packets);
  }

  /** The bytes kept are never a complete frame: they are a proper prefix of the frame to come. */
  ghost predicate Incomplete(store: seq<byte>) {
    |store| < NextSize(store) + 2
  }

  lemma {:induction false} DrainLeavesIncomplete(store: seq<byte>)
    ensures Incomplete(Drain(store).store)
    ensures forall i :: 0 <= i < |Drain(store).packets| ==> |Drain(store).packets[i]| < 65536
    decreases |store|
  {
    var n := NextSize(store) + 2;
    if |store| >= n {
      DrainLeavesIncomplete(store[n..]);
    }
  }

  lemma {:induction false} SizeBytes(a: byte, b: byte)
    ensures Delimiter(a as int * 256 + b as int) == [a, b]
  {
    var n := a as int * 256 + b as int;
    assert n % 65536 == n && n / 256 == a as int && n % 256 == b as int;
  }

  /** On any bytes at all nothing is lost: the frames of what was passed up and the kept bytes are the input. */
  lemma {:induction false} NothingIsLost(store: seq<byte>)
    ensures Frames(Drain(store).packets) + Drain(store).store == store
    decreases |store|
  {
    var n := NextSize(store) + 2;
    if |store| >= n {
      var p, rest := store[2..n], store[n..];
      NothingIsLost(rest);
      DrainStep(store, p, rest);
      FramesFirst(p, Drain(rest).packets);
      Regroup(Frame(p), Frames(Drain(rest).packets), Drain(rest).store);
      FirstFrame(store, n);
    }
  }

  lemma {:induction false} FramesFirst(p: seq<byte>, packets: seq<seq<byte>>)
    ensures Frames([p] + packets) == Frame(p) + Frames(packets)
  {
    assert ([p] + packets)[1..] == packets;
  }

  lemma {:induction false} FirstFrame(store: seq<byte>, n: nat)
    requires 2 <= n <= |store| && n == NextSize(store) + 2
    ensures Frame(store[2..n]) + store[n..] == store
  {
    SizeBytes(store[0], store[1]);
    assert Delimiter(n - 2) == store[..2];
    assert store[..2] + store[2..n] + store[n..] == store;
  }

  /**
   The receiver passes up exactly the packets sent, in order, for every way of cutting the bytes
   into chunks, if and only if all of them are shorter than 65536 bytes.
   */
  lemma {:induction false} RoundTrip(packets: seq<seq<byte>>, chunks: seq<seq<byte>>)
    requires Concat(chunks) == Frames(packets)
    ensures FeedAll(Received([], []), chunks) == Received(packets, [])
       <==> forall i :: 0 <= i < |packets| ==> |packets[i]| < 65536
  {
    ChunkingIsIrrelevant(chunks);
    if forall i :: 0 <= i < |packets| ==> |packets[i]| < 65536 {
      DrainFrames(packets, []);
      assert Frames(packets) + [] == Frames(packets);
      assert packets + [] == packets;
    } else {
      DrainLeavesIncomplete(Frames(packets));
    }
  }

  lemma {:induction false} LongAreIndicated(packets: seq<seq<byte>>)
    requires forall i :: 0 <= i < |packets| ==> |packets[i]| >= ETHERNET_HEADER
    ensures Indications(packets) == packets
  {
    if packets != [] {
      LongAreIndicated(packets[1..]);
      assert [packets[0]] + packets[1..] == packets;
    }
  }

  /** A frame starts with the size of its packet, most significant byte first. */
  lemma {:induction false} FrameLayout(packet: seq<byte>)
    requires |packet| < 65536
    ensures var f := Frame(packet);
      |f| == |packet| + 2 && f[0] as int * 256 + f[1] as int == |packet| && f[2..] == packet
  {
  }

  /** Exactly the packets of at least 14 bytes are indicated, each as often as it comes. */
  lemma {:induction false} IndicatedExactly(packets: seq<seq<byte>>, p: seq<byte>)
    ensures multiset(Indications(packets))[p] == if |p| >= 14 then multiset(packets)[p] else 0
  {
    if packets != [] {
      IndicatedExactly(packets[1..], p);
      assert packets == [packets[0]] + packets[1..];
    }
  }

  /**
   What a receiver indicates, for every way of cutting the bytes into chunks: the packets sent that
   hold an Ethernet header, and so all of them if, as the sender makes sure, all do.
   */
  lemma {:induction false} IndicatedRoundTrip(packets: seq<seq<byte>>, chunks: seq<seq<byte>>)
    requires Concat(chunks) == Frames(packets) && forall i :: 0 <= i < |packets| ==> |packets[i]| < 65536
    ensures var indicated := Indications(FeedAll(Received([], []), chunks).packets);
      indicated == Indications(packets)
      && ((forall i :: 0 <= i < |packets| ==> |packets[i]| >= ETHERNET_HEADER) ==> indicated == packets)
  {
    RoundTrip(packets, chunks);
    if forall i :: 0 <= i < |packets| ==> |packets[i]| >= ETHERNET_HEADER {
      LongAreIndicated(packets);
    }
  }

  /** The first packets are passed up, and a proper prefix of the frame of the next one is kept. */
  ghost predicate Underway(packets: seq<seq<byte>>, r: Received) {
    && r.packets <= packets
    && (r.packets == packets ==> r.store == [])
    && (r.packets < packets ==> r.store < Frame(packets[|r.packets|]))
  }

  /** At any moment the receiver has passed up the first packets and keeps a proper prefix of the next frame. */
  lemma {:induction false} PrefixOfStream(packets: seq<seq<byte>>, chunks: seq<seq<byte>>)
    requires forall i :: 0 <= i < |packets| ==> |packets[i]| < 65536
    requires Concat(chunks) <= Frames(packets)
    ensures Underway(packets, FeedAll(Received([], []), chunks))
  {
    ChunkingIsIrrelevant(chunks);
    DrainPrefix(packets, Concat(chunks));
  }

  lemma {:induction false} DrainPrefix(packets: seq<seq<byte>>, bytes: seq<byte>)
    requires forall i :: 0 <= i < |packets| ==> |packets[i]| < 65536
    requires bytes <= Frames(packets)
    ensures Underway(packets, Drain(bytes))
    decreases |packets|
  {
    if packets != [] {
      var p, later := packets[0], packets[1..];
      assert packets == [p] + later;
      if |bytes| < |Frame(p)| {
        assert bytes <= Frame(p);
        FrameUnderway(p, bytes);
      } else {
        var rest := bytes[|Frame(p)|..];
        assert bytes == Frame(p) + rest && rest <= Frames(later);
        DrainFrame(p, rest);
        DrainPrefix(later, rest);
        PacketDone(p, later, Drain(rest));
      }
    }
  }

  lemma {:induction false} FrameUnderway(p: seq<byte>, bytes: seq<byte>)
    requires |p| < 65536 && bytes < Frame(p)
    ensures Drain(bytes) == Received([], bytes)
  {
    if |bytes| >= 2 {
      DelimiterSize(|p|, p);
      assert bytes[0] == Frame(p)[0] && bytes[1] == Frame(p)[1];
    }
  }

  lemma {:induction false} PacketDone(p: seq<byte>, later: seq<seq<byte>>, r: Received)
    requires Underway(later, r)
    ensures Underway([p] + later, Received([p] + r.packets, r.store))
  {
    if r.packets != later {
      assert ([p] + later)[|r.packets| + 1] == later[|r.packets|];
    }
  }
}
