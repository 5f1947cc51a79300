/** How every interleaving of the Happy Eyeballs race ends, told by the events that happened in it. */
module HappyVerdicts {
  import opened HappyEyeballs

  predicate V6HasFailed(es: seq<Event>) {
    V6Resolved(false) in es || V6Connected(false) in es
  }

  predicate V4HasFailed(es: seq<Event>) {
    V4Resolved(false) in es || V4Connected(false) in es
  }

  predicate SomeConnection(es: seq<Event>) {
    V6Connected(true) in es || V4Connected(true) in es
  }

  /** The state of IPv6 is what its events made it. */
  ghost predicate V6Seen(s: Race, es: seq<Event>) {
    && (s.v6.resolved <==> V6Resolved(true) in es)
    && (s.v6.Connected() <==> V6Connected(true) in es)
    && (s.v6.Failed() <==> V6HasFailed(es))
  }

  ghost predicate V4Seen(s: Race, es: seq<Event>) {
    && (s.v4.resolved <==> V4Resolved(true) in es)
    && (s.v4.Connected() <==> V4Connected(true) in es)
    && (s.v4.Failed() <==> V4HasFailed(es))
  }

  ghost predicate Seen(s: Race, es: seq<Event>) {
    && V6Seen(s, es) && V4Seen(s, es)
    && (s.timedOut <==> Deadline in es)
    && !(s.v6.Connected() && s.v4.Connected())
  }

  lemma {:induction false} InLonger(es: seq<Event>, e: Event, x: Event)
    ensures x in es + [e] <==> x in es || x == e
  {
  }

  lemma {:induction false} V6StepSeen(s: Race, es: seq<Event>, e: Event)
    requires ProgressInv(s) && V6Seen(s, es) && Enabled(s, e)
    ensures V6Seen(Step(s, e), es + [e])
  {
    InLonger(es, e, V6Resolved(true));
    InLonger(es, e, V6Resolved(false));
    InLonger(es, e, V6Connected(true));
    InLonger(es, e, V6Connected(false));
  }

  lemma {:induction false} V4StepSeen(s: Race, es: seq<Event>, e: Event)
    requires ProgressInv(s) && V4Seen(s, es) && Enabled(s, e)
    ensures V4Seen(Step(s, e), es + [e])
  {
    InLonger(es, e, V4Resolved(true));
    InLonger(es, e, V4Resolved(false));
    InLonger(es, e, V4Connected(true));
    InLonger(es, e, V4Connected(false));
  }

  lemma {:induction false} StepSeen(s: Race, es: seq<Event>, e: Event)
    requires ProgressInv(s) && Seen(s, es) && Enabled(s, e)
    ensures Seen(Step(s, e), es + [e])
  {
    V6StepSeen(s, es, e);
    V4StepSeen(s, es, e);
    InLonger(es, e, Deadline);
  }

  /** In every interleaving, a family is resolved, connected or failed exactly if an event said so. */
  lemma {:induction false} OutcomesAreSeen(now: int, es: seq<Event>)
    requires Legal(now, es)
    ensures Seen(Run(now, es), es)
    decreases |es|
  {
    if es != [] {
      var before, e := es[..|es| - 1], es[|es| - 1];
      OutcomesAreSeen(now, before);
      RunProgress(now, before);
      StepSeen(Run(now, before), before, e);
      assert before + [e] == es;
    }
  }

  /** In every interleaving the race has stopped exactly after a connection, two failures or the deadline. */
  lemma {:induction false} StoppedBy(now: int, es: seq<Event>)
    requires Legal(now, es)
    ensures Run(now, es).stopped <==> SomeConnection(es) || (V6HasFailed(es) && V4HasFailed(es)) || Deadline in es
  {
    OutcomesAreSeen(now, es);
    RunProgress(now, es);
  }

  /** In every interleaving the verdict names the family that connected, or what both families failed in. */
  lemma {:induction false} VerdictIsRight(now: int, es: seq<Event>)
    requires Legal(now, es)
    ensures var verdict := Decide(Run(now, es));
      && (verdict == V6Wins <==> V6Connected(true) in es)
      && (verdict == V4Wins <==> V4Connected(true) in es)
      && (verdict == ResolveFailed <==> V6Resolved(false) in es && V4Resolved(false) in es)
      && (verdict == ConnectFailed
          <==> V6HasFailed(es) && V4HasFailed(es) && (V6Connected(false) in es || V4Connected(false) in es))
      && (verdict == TimedOut <==> !SomeConnection(es) && !(V6HasFailed(es) && V4HasFailed(es)))
  {
    OutcomesAreSeen(now, es);
    RunProgress(now, es);
    AnsweredOnce(now, es);
  }

  /** A family whose lookup failed was neither resolved nor lost in connecting. */
  ghost predicate Once(es: seq<Event>) {
    && !(V6Resolved(false) in es && (V6Resolved(true) in es || V6Connected(false) in es))
    && !(V4Resolved(false) in es && (V4Resolved(true) in es || V4Connected(false) in es))
    && (V6Connected(false) in es ==> V6Resolved(true) in es)
    && (V4Connected(false) in es ==> V4Resolved(true) in es)
  }

  lemma {:induction false} AnsweredOnce(now: int, es: seq<Event>)
    requires Legal(now, es)
    ensures Once(es)
    decreases |es|
  {
    if es != [] {
      var before, e := es[..|es| - 1], es[|es| - 1];
      AnsweredOnce(now, before);
      OutcomesAreSeen(now, before);
      RunProgress(now, before);
      OnceMore(Run(now, before), before, e);
      assert before + [e] == es;
    }
  }

  lemma {:induction false} OnceMore(s: Race, es: seq<Event>, e: Event)
    requires ProgressInv(s) && Seen(s, es) && Enabled(s, e) && Once(es)
    ensures Once(es + [e])
  {
    InLonger(es, e, V6Resolved(true));
    InLonger(es, e, V6Resolved(false));
    InLonger(es, e, V6Connected(false));
    InLonger(es, e, V4Resolved(true));
    InLonger(es, e, V4Resolved(false));
    InLonger(es, e, V4Connected(false));
  }
}
