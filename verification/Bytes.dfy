/** Bytes, and fixed-width numbers in both byte orders. */
module Bytes {
  import opened Reversal

  newtype byte = b: int | 0 <= b < 256

  /** The number of values of k bytes. */
  function Values(k: nat): nat {
    if k == 0 then 1 else 256 * Values(k - 1)
  }

  function FromLittle(s: seq<byte>): nat {
    if s == [] then 0 else s[0] as int + 256 * FromLittle(s[1..])
  }

  function ToLittle(n: nat, k: nat): (s: seq<byte>)
    ensures |s| == k
  {
    if k == 0 then [] else [(n % 256) as byte] + ToLittle(n / 256, k - 1)
  }

  function Decode(s: seq<byte>, little: bool): nat {
    FromLittle(if little then s else Reverse(s))
  }

  function Encode(n: nat, k: nat, little: bool): (s: seq<byte>)
    ensures |s| == k
  {
    if little then ToLittle(n, k) else Reverse(ToLittle(n, k))
  }

  /** Little endian numbers start with their least significant byte, big endian ones end with it. */
  lemma {:induction false} ByteOrders(s: seq<byte>)
    requires s != []
    ensures Decode(s, true) == s[0] as int + 256 * Decode(s[1..], true)
    ensures Decode(s, false) == s[|s| - 1] as int + 256 * Decode(s[..|s| - 1], false)
  {
    var front, last := s[..|s| - 1], s[|s| - 1];
    assert s == front + [last];
    ReverseConcat(front, [last]);
    assert Reverse([last]) == [last];
    assert Reverse(s)[1..] == Reverse(front);
  }

  lemma {:induction false} LittleRoundTrip(n: nat, k: nat)
    requires n < Values(k)
    ensures FromLittle(ToLittle(n, k)) == n
    decreases k
  {
    if k > 0 {
      LittleRoundTrip(n / 256, k - 1);
      assert ToLittle(n, k)[1..] == ToLittle(n / 256, k - 1);
    }
  }

  /** A number that fits is read back in either byte order. */
  lemma {:induction false} NumberRoundTrip(n: nat, k: nat, little: bool)
    requires n < Values(k)
    ensures Decode(Encode(n, k, little), little) == n
  {
    LittleRoundTrip(n, k);
    ReverseTwice(ToLittle(n, k));
  }

  lemma {:induction false} FromLittleFits(s: seq<byte>)
    ensures FromLittle(s) < Values(|s|)
  {
    if s != [] {
      FromLittleFits(s[1..]);
    }
  }

  lemma {:induction false} LittleReadBack(s: seq<byte>)
    ensures ToLittle(FromLittle(s), |s|) == s
  {
    if s != [] {
      var rest := FromLittle(s[1..]);
      LittleReadBack(s[1..]);
      Digits(s[0], rest);
      assert ToLittle(FromLittle(s), |s|) == [s[0]] + ToLittle(rest, |s| - 1);
    }
  }

  lemma {:induction false} Digits(b: byte, rest: nat)
    ensures (b as int + 256 * rest) % 256 == b as int && (b as int + 256 * rest) / 256 == rest
  {
  }

  lemma {:induction false} ReadBack(s: seq<byte>, little: bool)
    ensures Decode(s, little) < Values(|s|) && Encode(Decode(s, little), |s|, little) == s
  {
    var t := if little then s else Reverse(s);
    FromLittleFits(t);
    LittleReadBack(t);
    ReverseTwice(s);
  }

  /** The bytes found at an offset. */
  ghost predicate At(data: seq<byte>, offset: nat, s: seq<byte>) {
    offset + |s| <= |data| && data[offset..offset + |s|] == s
  }

  lemma {:induction false} AtConcat(data: seq<byte>, offset: nat, a: seq<byte>, b: seq<byte>)
    ensures At(data, offset, a + b) <==> At(data, offset, a) && At(data, offset + |a|, b)
  {
    if offset + |a + b| <= |data| {
      var s := data[offset..offset + |a + b|];
      assert data[offset..offset + |a|] == s[..|a|];
      assert data[offset + |a|..offset + |a| + |b|] == s[|a|..];
      assert s == s[..|a|] + s[|a|..];
      assert (a + b)[..|a|] == a && (a + b)[|a|..] == b;
    }
  }

  lemma {:induction false} AtSplit(data: seq<byte>, offset: nat, s: seq<byte>, a: seq<byte>, b: seq<byte>, next: nat)
    requires s == a + b && next == offset + |a|
    ensures At(data, offset, s) <==> At(data, offset, a) && At(data, next, b)
    ensures offset + |s| == next + |b|
  {
    AtConcat(data, offset, a, b);
  }

  /** What is found at an offset and where it ends, piece by piece. */
  lemma {:induction false} AtGrow(data: seq<byte>, start: nat, a: seq<byte>, b: seq<byte>, both: seq<byte>,
                                  middle: nat, next: nat)
    requires both == a + b && middle == start + |a|
    ensures At(data, start, both) && next == start + |both| <==>
      At(data, start, a) && At(data, middle, b) && next == middle + |b|
  {
    AtConcat(data, start, a, b);
  }

  lemma {:induction false} AtThree(data: seq<byte>, a: seq<byte>, b: seq<byte>, c: seq<byte>)
    ensures At(data, 0, a + b + c) <==> At(data, 0, a) && At(data, |a|, b) && At(data, |a| + |b|, c)
  {
    AtConcat(data, 0, a + b, c);
    AtConcat(data, 0, a, b);
  }

  lemma {:induction false} AtWhole(data: seq<byte>, s: seq<byte>)
    requires |s| == |data|
    ensures At(data, 0, s) <==> data == s
  {
    assert data[0..|data|] == data;
  }

  lemma {:induction false} AtSuffix(data: seq<byte>, from: nat, offset: nat, s: seq<byte>)
    requires from <= |data|
    ensures At(data[from..], offset, s) <==> At(data, from + offset, s)
  {
    if from + offset + |s| <= |data| {
      assert data[from..][offset..offset + |s|] == data[from + offset..from + offset + |s|];
    }
  }

  /** A field holds a number exactly if the number's bytes are found there and the number fits. */
  lemma {:induction false} NumberAt(data: seq<byte>, offset: nat, k: nat, little: bool, n: nat)
    requires offset + k <= |data|
    ensures Decode(data[offset..offset + k], little) == n <==> n < Values(k) && At(data, offset, Encode(n, k, little))
  {
    var s := data[offset..offset + k];
    if n < Values(k) {
      NumberRoundTrip(n, k, little);
    }
    ReadBack(s, little);
  }
}
