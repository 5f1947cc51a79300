/**
 The manually driven runtime: a clock and a queue of callbacks ordered by deadline.  A callback
 is represented by the scope it was scheduled under; scope 0 stands for a null scope pointer.
 */
module ManualRuntimes {
  import opened DueList

  const NO_SCOPE: nat := 0

  type Queue = seq<Due<nat>>

  function Without(q: Queue, scope: nat): (r: Queue)
    ensures forall e :: e in r <==> e in q && e.what != scope
  {
    if q == [] then []
    else if q[0].what == scope then Without(q[1..], scope)
    else
      assert q == [q[0]] + q[1..];
      [q[0]] + Without(q[1..], scope)
  }

  /** Cancelling a null scope has no effect. */
  function Cancel(q: Queue, scope: nat): (r: Queue) {
    if scope == NO_SCOPE then q else Without(q, scope)
  }

  /** Number of callbacks pending under a scope. */
  ghost function Pending(q: Queue, scope: nat): nat {
    if q == [] then 0 else (if q[0].what == scope then 1 else 0) + Pending(q[1..], scope)
  }

  lemma {:induction false} PendingConcat(a: Queue, b: Queue, scope: nat)
    ensures Pending(a + b, scope) == Pending(a, scope) + Pending(b, scope)
  {
    if a == [] {
      assert a + b == b;
    } else {
      assert (a + b)[1..] == a[1..] + b;
      PendingConcat(a[1..], b, scope);
    }
  }

  lemma {:induction false} PendingInsert(q: Queue, e: Due<nat>, scope: nat)
    ensures Pending(Insert(q, e), scope) == Pending(q, scope) + if e.what == scope then 1 else 0
  {
    var k := UpperBound(q, e.at);
    PendingConcat(q[..k], [e] + q[k..], scope);
    PendingConcat([e], q[k..], scope);
    PendingConcat(q[..k], q[k..], scope);
    assert q == q[..k] + q[k..];
    assert Insert(q, e) == q[..k] + ([e] + q[k..]);
  }

  lemma {:induction false} PendingWithout(q: Queue, gone: nat, scope: nat)
    ensures Pending(Without(q, gone), scope) == if gone == scope then 0 else Pending(q, scope)
  {
    if q != [] {
      PendingWithout(q[1..], gone, scope);
    }
  }

  /** A scope has pending callbacks exactly when one of its entries is queued. */
  lemma {:induction false} PendingPositive(q: Queue, scope: nat)
    ensures Pending(q, scope) > 0 <==> exists e :: e in q && e.what == scope
  {
    if q != [] {
      PendingPositive(q[1..], scope);
      assert q == [q[0]] + q[1..];
    }
  }

  lemma {:induction false} WithoutKeepsBound(q: Queue, scope: nat, t: int)
    requires forall j :: 0 <= j < |q| ==> t <= q[j].at
    ensures forall j :: 0 <= j < |Without(q, scope)| ==> t <= Without(q, scope)[j].at
  {
    if q != [] {
      WithoutKeepsBound(q[1..], scope, t);
    }
  }

  lemma {:induction false} WithoutKeepsOrder(q: Queue, scope: nat)
    requires Ordered(q)
    ensures Ordered(Without(q, scope))
  {
    if q != [] {
      WithoutKeepsOrder(q[1..], scope);
      if q[0].what != scope {
        WithoutKeepsBound(q[1..], scope, q[0].at);
        OrderedFirst(q[0], Without(q[1..], scope));
      }
    }
  }

  lemma {:induction false} DueCountWithout(q: Queue, scope: nat, t: int)
    ensures DueCount(Without(q, scope), t) <= DueCount(q, t)
  {
    if q != [] {
      DueCountWithout(q[1..], scope, t);
      assert Without(q, scope) != [] && Without(q, scope) == [q[0]] + Without(q[1..], scope)
             ==> Without(q, scope)[1..] == Without(q[1..], scope);
    }
  }

  class ManualRuntime {
    var now: int
    var queue: Queue

    constructor (init: int)
      ensures now == init && queue == []
    {
      now, queue := init, [];
    }

    /** The entry is added to the others, keeping the queue ordered. */
    method Schedule(at: int, scope: nat)
      modifies this`queue
      ensures queue == Insert(old(queue), Due(at, scope))
      ensures multiset(queue) == multiset(old(queue)) + multiset{Due(at, scope)}
      ensures Ordered(old(queue)) ==> Ordered(queue)
    {
      InsertBag(queue, Due(at, scope));
      if Ordered(queue) {
        InsertKeepsOrder(queue, Due(at, scope));
      }
      queue := Insert(queue, Due(at, scope));
    }

    /** All entries of the scope are gone, those of other scopes keep their number and order. */
    method CancelScope(scope: nat)
      modifies this`queue
      ensures queue == Cancel(old(queue), scope)
      ensures scope == NO_SCOPE ==> queue == old(queue)
      ensures scope != NO_SCOPE ==> Pending(queue, scope) == 0
      ensures forall other :: other != scope ==> Pending(queue, other) == Pending(old(queue), other)
      ensures Ordered(old(queue)) ==> Ordered(queue)
    {
      if scope != NO_SCOPE {
        PendingWithout(queue, scope, scope);
        forall other | other != scope ensures Pending(Without(queue, scope), other) == Pending(queue, other) {
          PendingWithout(queue, scope, other);
        }
        if Ordered(queue) {
          WithoutKeepsOrder(queue, scope);
        }
        queue := Without(queue, scope);
      }
    }
  }
}
