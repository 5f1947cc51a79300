/**
 Sequences ordered by due time, equal times in insertion order.  Both ordered containers of
 the repository that matter for time have this shape: the callback queue of the manual
 runtime (ordered by deadline) and the timer view of the CBF packet buffer (ordered by
 expiry).
 */
module DueList {

  datatype Due<+T> = Due(at: int, what: T)

  ghost predicate Ordered<T>(s: seq<Due<T>>) {
    forall i, j :: 0 <= i < j < |s| ==> s[i].at <= s[j].at
  }

  lemma {:induction false} OrderedFirst<T>(d: Due<T>, s: seq<Due<T>>)
    requires Ordered(s) && forall j :: 0 <= j < |s| ==> d.at <= s[j].at
    ensures Ordered([d] + s)
  {
  }

  /** Index of the first element due after t. */
  function UpperBound<T>(s: seq<Due<T>>, t: int): (k: nat)
    ensures k <= |s|
    ensures forall i :: 0 <= i < k ==> s[i].at <= t
    ensures k < |s| ==> t < s[k].at
  {
    if s == [] || t < s[0].at then 0 else 1 + UpperBound(s[1..], t)
  }

  /** Inserts after every element that is due no later. */
  function Insert<T>(s: seq<Due<T>>, d: Due<T>): (r: seq<Due<T>>)
    ensures |r| == |s| + 1
  {
    var k := UpperBound(s, d.at);
    s[..k] + [d] + s[k..]
  }

  function RemoveAt<T>(s: seq<T>, i: nat): (r: seq<T>)
    requires i < |s|
    ensures |r| == |s| - 1
  {
    s[..i] + s[i + 1..]
  }

  lemma {:induction false} InsertBag<T>(s: seq<Due<T>>, d: Due<T>)
    ensures multiset(Insert(s, d)) == multiset(s) + multiset{d}
  {
    var k := UpperBound(s, d.at);
    assert s == s[..k] + s[k..];
  }

  lemma {:induction false} InsertMembers<T>(s: seq<Due<T>>, d: Due<T>)
    ensures forall e :: e in Insert(s, d) <==> e in s || e == d
  {
    InsertBag(s, d);
    forall e ensures e in Insert(s, d) <==> e in s || e == d {
      assert e in Insert(s, d) <==> e in multiset(Insert(s, d));
      assert e in s <==> e in multiset(s);
    }
  }

  lemma {:induction false} InsertKeepsOrder<T>(s: seq<Due<T>>, d: Due<T>)
    requires Ordered(s)
    ensures Ordered(Insert(s, d))
    ensures Insert(s, d)[0] == if s != [] && s[0].at <= d.at then s[0] else d
  {
  }

  lemma {:induction false} RemoveKeepsOrder<T>(s: seq<Due<T>>, i: nat)
    requires Ordered(s) && i < |s|
    ensures Ordered(RemoveAt(s, i))
  {
  }

  /** Number of elements due at or before t. */
  ghost function DueCount<T>(s: seq<Due<T>>, t: int): nat {
    if s == [] then 0 else (if s[0].at <= t then 1 else 0) + DueCount(s[1..], t)
  }

  lemma {:induction false} DueCountConcat<T>(a: seq<Due<T>>, b: seq<Due<T>>, t: int)
    ensures DueCount(a + b, t) == DueCount(a, t) + DueCount(b, t)
  {
    if a == [] {
      assert a + b == b;
    } else {
      assert (a + b)[1..] == a[1..] + b;
      DueCountConcat(a[1..], b, t);
    }
  }

  lemma {:induction false} DueCountInsert<T>(s: seq<Due<T>>, d: Due<T>, t: int)
    ensures DueCount(Insert(s, d), t) == DueCount(s, t) + if d.at <= t then 1 else 0
  {
    var k := UpperBound(s, d.at);
    DueCountConcat(s[..k], [d] + s[k..], t);
    DueCountConcat([d], s[k..], t);
    DueCountConcat(s[..k], s[k..], t);
    assert s == s[..k] + s[k..];
    assert Insert(s, d) == s[..k] + ([d] + s[k..]);
  }
}
