/** What the drop hook of the DCC gatekeeper is told about. */
module FlowControlDrops {
  import opened FlowControls
  import opened FlowControlRuns

  /** A queued packet had expired and is reported itself. */
  predicate ByExpiry(now: int, w: Waiting, d: Drop) {
    w.packet == d.packet && w.expiry < now && d.reported == d.packet
  }

  /** A queued packet made room for a requested one of its category, which is reported instead. */
  predicate ByOverflow(now: int, w: Waiting, i: nat, e: Event, d: Drop) {
    w.packet == d.packet && w.expiry >= now && e.Requests? && i == Category(e.p.profile) && d.reported == e.p
  }

  ghost predicate Caused(s: State, e: Event, d: Drop) {
    exists i, w :: 0 <= i < |s.queues| && w in s.queues[i] && (ByExpiry(s.now, w, d) || ByOverflow(s.now, w, i, e, d))
  }

  ghost predicate AllCaused(s: State, e: Event, ds: seq<Drop>) {
    forall i :: 0 <= i < |ds| ==> Caused(s, e, ds[i])
  }

  lemma {:induction false} ExpiryCauses(q: seq<Waiting>, now: int, i: nat) returns (w: Waiting)
    requires i < |ExpiryDrops(q, now)|
    ensures w in q && ByExpiry(now, w, ExpiryDrops(q, now)[i])
  {
    if q[0].expiry < now {
      if i == 0 {
        w := q[0];
      } else {
        w := ExpiryCauses(q[1..], now, i - 1);
      }
    } else {
      w := ExpiryCauses(q[1..], now, i);
    }
  }

  lemma {:induction false} QueueExpires(s: State, e: Event, k: nat)
    requires k < |s.queues|
    ensures AllCaused(s, e, ExpiryDrops(s.queues[k], s.now))
  {
    var ds := ExpiryDrops(s.queues[k], s.now);
    forall i | 0 <= i < |ds| ensures Caused(s, e, ds[i]) {
      var w := ExpiryCauses(s.queues[k], s.now, i);
    }
  }

  /** The drops of expired packets, queue by queue. */
  lemma {:induction false} DropsExpired(s: State, t: State, e: Event, k: nat) returns (more: seq<Drop>)
    requires k <= |s.queues| == |t.queues| && t.now == s.now
    requires forall i :: 0 <= i < k ==> t.queues[i] == s.queues[i]
    ensures DropBelow(t, k).dropped == t.dropped + more && AllCaused(s, e, more)
    decreases k
  {
    if k == 0 {
      more := [];
    } else {
      var q := t.queues[k - 1];
      var first := ExpiryDrops(q, t.now);
      QueueExpires(s, e, k - 1);
      var u := t.(queues := t.queues[k - 1 := Unexpired(q, t.now)], dropped := t.dropped + first);
      var rest := DropsExpired(s, u, e, k - 1);
      more := first + rest;
      assert t.dropped + first + rest == t.dropped + more;
    }
  }

  lemma {:induction false} OverflowCauses(s: State, e: Event, k: nat)
    requires e.Requests? && |s.queues| == CATEGORIES
    requires k <= |Unexpired(s.queues[Category(e.p.profile)], s.now)|
    ensures AllCaused(s, e, OverflowDrops(Unexpired(s.queues[Category(e.p.profile)], s.now), k, e.p))
  {
    var ac := Category(e.p.profile);
    var q := Unexpired(s.queues[ac], s.now);
    var ds := OverflowDrops(q, k, e.p);
    UnexpiredMembers(s.queues[ac], s.now);
    forall i | 0 <= i < |ds| ensures Caused(s, e, ds[i]) {
      assert q[i] in q && ByOverflow(s.now, q[i], ac, e, ds[i]);
    }
  }

  lemma {:induction false} RequestDrops(s: State, scope: nat, e: Event) returns (more: seq<Drop>)
    requires |s.queues| == CATEGORIES && e.Requests?
    ensures AfterRequest(s, scope, e.p, e.delays).dropped == s.dropped + more && AllCaused(s, e, more)
  {
    more := DropsExpired(s, s, e, CATEGORIES);
    var t := DropBelow(s, CATEGORIES);
    var ac := Category(e.p.profile);
    DropLeavesUnexpired(s);
    if Contended(t.queues, ac) || e.delays(e.p) != 0 {
      var k := Excess(t.limit, |t.queues[ac]|);
      var last := OverflowDrops(t.queues[ac], k, e.p);
      OverflowCauses(s, e, k);
      assert s.dropped + more + last == s.dropped + (more + last);
      more := more + last;
    }
  }

  lemma {:induction false} StepDrops(s: State, scope: nat, e: Event) returns (more: seq<Drop>)
    requires |s.queues| == CATEGORIES
    ensures Step(s, scope, e).dropped == s.dropped + more && AllCaused(s, e, more)
  {
    match e
    case Requests(_, _) =>
      more := RequestDrops(s, scope, e);
    case Fires(_, _) =>
      more := DropsExpired(s, s.(queue := if s.queue == [] then [] else s.queue[1..]), e, CATEGORIES);
    case _ =>
      more := [];
  }

  /** The k-th event of the run made the i-th drop. */
  ghost predicate DroppedBy(now: int, scope: nat, es: seq<Event>, i: nat, k: nat) {
    k < |es| && |Run(now, scope, es[..k]).dropped| <= i < |Run(now, scope, es[..k + 1]).dropped|
  }

  /**
   In every run the drop hook is told about an expired packet itself, but about the requested packet
   when a queued one has to make room for it.
   */
  lemma {:induction false} DropsAreReported(now: int, scope: nat, es: seq<Event>, i: nat) returns (k: nat)
    requires i < |Run(now, scope, es).dropped|
    ensures DroppedBy(now, scope, es, i, k)
    ensures Caused(Run(now, scope, es[..k]), es[k], Run(now, scope, es).dropped[i])
    decreases |es|
  {
    var before, e := es[..|es| - 1], es[|es| - 1];
    var more := StepDrops(Run(now, scope, before), scope, e);
    assert es[..|es|] == es;
    if i < |Run(now, scope, before).dropped| {
      k := DropsAreReported(now, scope, before, i);
      assert before[..k] == es[..k] && before[..k + 1] == es[..k + 1];
    } else {
      k := |before|;
    }
  }
}
