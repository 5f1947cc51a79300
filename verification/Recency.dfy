/**
 Recency lists: the distinct keys of an access trace, most recently accessed first.  This is the
 reference for the two bounded memories of the repository, the LRU cache and the memory of GBC
 packets.
 */
module Recency {

  function Without<K(==)>(s: seq<K>, k: K): (r: seq<K>)
    ensures |r| <= |s|
  {
    if s == [] then []
    else if s[0] == k then Without(s[1..], k)
    else [s[0]] + Without(s[1..], k)
  }

  function Recent<K(==)>(trace: seq<K>): seq<K> {
    if trace == [] then []
    else [trace[|trace| - 1]] + Without(Recent(trace[..|trace| - 1]), trace[|trace| - 1])
  }

  function Take<K>(c: nat, s: seq<K>): seq<K> {
    if |s| <= c then s else s[..c]
  }

  ghost predicate Distinct<K>(s: seq<K>) {
    forall i, j :: 0 <= i < j < |s| ==> s[i] != s[j]
  }

  lemma {:induction false} WithoutMembers<K>(s: seq<K>, k: K)
    ensures forall x :: x in Without(s, k) <==> x in s && x != k
  {
    if s != [] {
      WithoutMembers(s[1..], k);
      assert s == [s[0]] + s[1..];
    }
  }

  lemma {:induction false} WithoutAbsent<K>(s: seq<K>, k: K)
    requires k !in s
    ensures Without(s, k) == s
  {
    if s != [] {
      WithoutAbsent(s[1..], k);
    }
  }

  lemma {:induction false} WithoutConcat<K>(a: seq<K>, b: seq<K>, k: K)
    ensures Without(a + b, k) == Without(a, k) + Without(b, k)
  {
    if a == [] {
      assert a + b == b;
    } else {
      assert (a + b)[1..] == a[1..] + b;
      WithoutConcat(a[1..], b, k);
    }
  }

  /** Taking out the element at i of a sequence of distinct elements. */
  lemma {:induction false} WithoutAt<K>(s: seq<K>, i: nat)
    requires Distinct(s) && i < |s|
    ensures Without(s, s[i]) == s[..i] + s[i + 1..]
  {
    var k := s[i];
    assert s == s[..i] + ([k] + s[i + 1..]);
    WithoutConcat(s[..i], [k] + s[i + 1..], k);
    WithoutConcat([k], s[i + 1..], k);
    WithoutAbsent(s[..i], k);
    WithoutAbsent(s[i + 1..], k);
  }

  lemma {:induction false} WithoutDistinct<K>(s: seq<K>, k: K)
    requires Distinct(s)
    ensures Distinct(Without(s, k)) && k !in Without(s, k)
  {
    WithoutMembers(s, k);
    if k in s {
      var i :| 0 <= i < |s| && s[i] == k;
      WithoutAt(s, i);
    } else {
      WithoutAbsent(s, k);
    }
  }

  lemma {:induction false} RecentDistinct<K>(trace: seq<K>)
    ensures Distinct(Recent(trace))
    ensures forall x :: x in Recent(trace) <==> x in trace
    decreases |trace|
  {
    if trace != [] {
      var before, k := trace[..|trace| - 1], trace[|trace| - 1];
      RecentDistinct(before);
      WithoutDistinct(Recent(before), k);
      WithoutMembers(Recent(before), k);
      assert trace == before + [k];
    }
  }

  lemma {:induction false} RecentAppend<K>(trace: seq<K>, k: K)
    ensures Recent(trace + [k]) == [k] + Without(Recent(trace), k)
  {
    assert (trace + [k])[..|trace|] == trace;
  }

  // ---- the stack distance of a key ----

  /** The keys accessed after the last access of k. */
  ghost function Later<K>(trace: seq<K>, k: K): set<K> {
    if trace == [] || trace[|trace| - 1] == k then {}
    else Later(trace[..|trace| - 1], k) + {trace[|trace| - 1]}
  }

  ghost function Elements<K>(s: seq<K>): set<K> {
    set x | x in s
  }

  /** A key is as many places down the recency list as there are distinct keys accessed after it. */
  lemma {:induction false} Position<K>(trace: seq<K>, k: K)
    requires k in trace
    ensures var d := |Later(trace, k)|;
            d < |Recent(trace)| && Recent(trace)[d] == k && Elements(Recent(trace)[..d]) == Later(trace, k)
    decreases |trace|
  {
    var before, x := trace[..|trace| - 1], trace[|trace| - 1];
    if x == k {
      assert Recent(trace)[..0] == [];
    } else {
      assert trace == before + [x];
      Position(before, k);
      RecentDistinct(before);
      Moved(Recent(before), |Later(before, k)|, Later(before, k), x);
    }
  }

  /** Where an element ends up when another one moves to the front. */
  lemma {:induction false} Moved<K>(r: seq<K>, d: nat, above: set<K>, x: K)
    requires Distinct(r) && d < |r| && r[d] != x && Elements(r[..d]) == above && |above| == d
    ensures var r' := [x] + Without(r, x);
            var d' := |above + {x}|;
            d' < |r'| && r'[d'] == r[d] && Elements(r'[..d']) == above + {x}
  {
    if x in r[..d] {
      var i :| 0 <= i < d && r[..d][i] == x;
      assert r[i] == x;
      WithoutAt(r, i);
      assert above + {x} == above;
      MovedFromAbove(r, d, i);
    } else {
      MovedFromBelow(r, d, x);
      assert |above + {x}| == d + 1;
    }
  }

  lemma {:induction false} MovedFromAbove<K>(r: seq<K>, d: nat, i: nat)
    requires i < d < |r|
    ensures var r' := [r[i]] + (r[..i] + r[i + 1..]);
            r'[d] == r[d] && Elements(r'[..d]) == Elements(r[..d])
  {
    var r' := [r[i]] + (r[..i] + r[i + 1..]);
    assert r'[..d] == [r[i]] + r[..i] + r[i + 1..d];
    assert r[..d] == r[..i] + [r[i]] + r[i + 1..d];
    assert forall x :: x in r'[..d] <==> x in r[..d];
  }

  lemma {:induction false} MovedFromBelow<K>(r: seq<K>, d: nat, x: K)
    requires d < |r| && r[d] != x && x !in r[..d]
    ensures var r' := [x] + Without(r, x);
            d + 1 < |r'| && r'[d + 1] == r[d] && Elements(r'[..d + 1]) == Elements(r[..d]) + {x}
  {
    assert r == r[..d + 1] + r[d + 1..];
    WithoutConcat(r[..d + 1], r[d + 1..], x);
    WithoutAbsent(r[..d + 1], x);
    var r' := [x] + Without(r, x);
    assert r'[..d + 1] == [x] + r[..d];
  }

  /** The c most recent keys are those after whose last access fewer than c distinct keys came. */
  lemma {:induction false} TakenByDistance<K>(trace: seq<K>, c: nat, k: K)
    ensures k in Take(c, Recent(trace)) <==> k in trace && |Later(trace, k)| < c
  {
    RecentDistinct(trace);
    var r := Recent(trace);
    if k in trace {
      Position(trace, k);
      var d := |Later(trace, k)|;
      if k in Take(c, r) {
        var i :| 0 <= i < |Take(c, r)| && Take(c, r)[i] == k;
        assert r[i] == k;
      }
      if d < c {
        assert Take(c, r)[d] == k;
      }
    }
  }

  // ---- one access to a memory of c keys ----

  /** The c most recent keys after one more access, from the c most recent ones before it. */
  lemma {:induction false} TakeAccessed<K>(r: seq<K>, c: nat, k: K)
    requires Distinct(r) && c >= 1
    ensures Take(c, [k] + Without(r, k))
         == if k in Take(c, r) then [k] + Without(Take(c, r), k)
            else [k] + Take(c - 1, r)
  {
    var t := Take(c, r);
    var rest := r[|t|..];
    assert r == t + rest;
    WithoutConcat(t, rest, k);
    if k in t {
      var i :| 0 <= i < |t| && t[i] == k;
      assert k !in rest;
      WithoutAbsent(rest, k);
      WithoutAt(t, i);
    } else {
      WithoutAbsent(t, k);
    }
  }
}
