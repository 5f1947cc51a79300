/**
 The Happy Eyeballs race (RFC 8305, sections 3 and 5) between an IPv6 and an IPv4 connection:
 the state of the two address families, the gate that delays IPv4, and the completion handlers.
 Sockets, name resolution and clocks are represented by their completion events, in any order.
 */
module HappyEyeballs {
  import opened Options

  const RESOLUTION_DELAY: int := 50
  const STAGGER_DELAY: int := 200

  // The optional error code: a connection, or a failed lookup or connect attempt
  datatype Outcome = Undecided | Success | Failure

  datatype Family = Family(resolved: bool, connecting: bool, outcome: Outcome) {
    predicate Connected() { outcome == Success }
    predicate Failed() { outcome == Failure }
    predicate MayConnect() { resolved && !connecting && outcome == Undecided }
  }

  const FRESH := Family(false, false, Undecided)

  // The gate timer: armed while a wait is outstanding; fired counts expired waits whose handler
  // is queued but has not run
  datatype Gate = Gate(expiry: Option<int>, armed: bool, fired: nat)

  // How often and when the gate was armed and IPv4 started, and when the lookups succeeded
  datatype Arming = Arming(at: int, delay: int)
  datatype V4Start = V4Start(at: int, v6Failed: bool)
  datatype History = History(
    armings: seq<Arming>,
    starts: seq<V4Start>,
    v6Resolved: Option<int>,
    v4Resolved: Option<int>)

  datatype Race = Race(
    now: int,
    v6: Family,
    v4: Family,
    v6Pending: bool,
    v4Pending: bool,
    gate: Gate,
    stopped: bool,
    timedOut: bool,
    h: History)

  // ---- handlers ----

  predicate Settled(s: Race) {
    s.v6.Connected() || s.v4.Connected() || (s.v6.Failed() && s.v4.Failed())
  }

  function Settle(s: Race): Race {
    if Settled(s) then s.(stopped := true) else s
  }

  /** Re-arming cancels an outstanding wait; a handler that is already queued still runs. */
  function OpenGate(s: Race, delay: int): Race {
    s.(gate := Gate(Some(s.now + delay), true, s.gate.fired),
       h := s.h.(armings := s.h.armings + [Arming(s.now, delay)]))
  }

  predicate GateOpen(s: Race) {
    s.gate.expiry.Some? && s.gate.expiry.value <= s.now
  }

  function ConnectV6(s: Race): Race {
    if s.v6.MayConnect() then s.(v6 := s.v6.(connecting := true)) else s
  }

  function ConnectV4(s: Race): Race {
    if s.v4.MayConnect()
    then s.(v4 := s.v4.(connecting := true),
            h := s.h.(starts := s.h.starts + [V4Start(s.now, s.v6.Failed())]))
    else s
  }

  /** The IPv6 lookup completes. */
  function V6Answer(s: Race, ok: bool): Race {
    if ok then s.(v6Pending := false, v6 := s.v6.(resolved := true), h := s.h.(v6Resolved := Some(s.now)))
    else s.(v6Pending := false, v6 := s.v6.(outcome := Failure))
  }

  function OnV6Resolved(s: Race, ok: bool): Race {
    var t := V6Answer(s, ok);
    Settle(if t.v6.resolved then OpenGate(ConnectV6(t), STAGGER_DELAY) else OpenGate(t, 0))
  }

  /** The IPv4 lookup completes. */
  function V4Answer(s: Race, ok: bool): Race {
    if ok then s.(v4Pending := false, v4 := s.v4.(resolved := true), h := s.h.(v4Resolved := Some(s.now)))
    else s.(v4Pending := false, v4 := s.v4.(outcome := Failure))
  }

  function OnV4Resolved(s: Race, ok: bool): Race {
    var t := V4Answer(s, ok);
    Settle(
      if GateOpen(t) then ConnectV4(t)
      else if t.v4.resolved && !t.v6.resolved then OpenGate(t, RESOLUTION_DELAY)
      else t)
  }

  function OnV6Connected(s: Race, ok: bool): Race {
    var t := s.(v6 := s.v6.(connecting := false, outcome := if ok then Success else Failure));
    Settle(if t.v6.Failed() then OpenGate(t, 0) else t)
  }

  function OnV4Connected(s: Race, ok: bool): Race {
    Settle(s.(v4 := s.v4.(connecting := false, outcome := if ok then Success else Failure)))
  }

  // ---- every interleaving ----

  datatype Event =
    | Passes(d: nat)
    | V6Resolved(ok: bool)
    | V4Resolved(ok: bool)
    | V6Connected(ok: bool)
    | V4Connected(ok: bool)
    | GateExpires
    | GateHandler
    | Deadline

  /** Handlers run only until the race is stopped, and only for operations that are outstanding. */
  predicate Enabled(s: Race, e: Event) {
    match e
    case Passes(_) => true
    case V6Resolved(_) => !s.stopped && s.v6Pending
    case V4Resolved(_) => !s.stopped && s.v4Pending
    case V6Connected(_) => !s.stopped && s.v6.connecting
    case V4Connected(_) => !s.stopped && s.v4.connecting
    case GateExpires => !s.stopped && s.gate.armed && GateOpen(s)
    case GateHandler => !s.stopped && s.gate.fired > 0
    case Deadline => !s.stopped
  }

  function Step(s: Race, e: Event): Race {
    match e
    case Passes(d) => s.(now := s.now + d)
    case V6Resolved(ok) => OnV6Resolved(s, ok)
    case V4Resolved(ok) => OnV4Resolved(s, ok)
    case V6Connected(ok) => OnV6Connected(s, ok)
    case V4Connected(ok) => OnV4Connected(s, ok)
    case GateExpires => s.(gate := s.gate.(armed := false, fired := s.gate.fired + 1))
    case GateHandler =>
      ConnectV4(s.(gate := s.gate.(fired := if s.gate.fired > 0 then s.gate.fired - 1 else 0)))
    case Deadline => s.(stopped := true, timedOut := true)
  }

  function Start(now: int): Race {
    Race(now, FRESH, FRESH, true, true, Gate(None, false, 0), false, false, History([], [], None, None))
  }

  function Run(now: int, es: seq<Event>): Race {
    if es == [] then Start(now) else Step(Run(now, es[..|es| - 1]), es[|es| - 1])
  }

  ghost predicate Legal(now: int, es: seq<Event>) {
    es == [] || (Legal(now, es[..|es| - 1]) && Enabled(Run(now, es[..|es| - 1]), es[|es| - 1]))
  }

  // ---- what the handlers are for ----

  /** An answer starts IPv6 and gives it a head start; without one IPv4 may go at once.  Progress is kept. */
  ghost predicate V6Answers(s: Race, ok: bool, r: Race) {
    && r.v4 == s.v4
    && (s.v6 == FRESH && ok ==> r.v6.connecting && r.gate == Gate(Some(s.now + STAGGER_DELAY), true, s.gate.fired))
    && (s.v6 == FRESH && !ok ==> r.v6.Failed() && r.gate == Gate(Some(s.now), true, s.gate.fired))
    && (ProgressInv(s) && Enabled(s, V6Resolved(ok)) ==> ProgressInv(r))
  }

  lemma {:induction false} V6AnswerIsTaken(s: Race, ok: bool)
    ensures V6Answers(s, ok, OnV6Resolved(s, ok))
  {
    if ProgressInv(s) && Enabled(s, V6Resolved(ok)) {
      StepProgress(s, V6Resolved(ok));
    }
  }

  /** An answer starts IPv4 exactly if the gate is open and otherwise leaves it to an armed gate.  Progress is kept. */
  ghost predicate V4Answers(s: Race, ok: bool, r: Race) {
    && r.v6 == s.v6
    && (s.v4 == FRESH && !ok ==> r.v4.Failed())
    && (s.v4 == FRESH && ok ==> (r.v4.connecting <==> GateOpen(s)))
    && (s.v4 == FRESH && ok && ProgressInv(s) ==> r.v4.connecting || r.gate.armed)
    && (ok && !GateOpen(s) && !s.v6.resolved ==> r.gate == Gate(Some(s.now + RESOLUTION_DELAY), true, s.gate.fired))
    && (GateOpen(s) || s.v6.resolved ==> r.gate == s.gate)
    && (ProgressInv(s) && Enabled(s, V4Resolved(ok)) ==> ProgressInv(r))
  }

  lemma {:induction false} V4AnswerIsTaken(s: Race, ok: bool)
    ensures V4Answers(s, ok, OnV4Resolved(s, ok))
  {
    if ProgressInv(s) && Enabled(s, V4Resolved(ok)) {
      StepProgress(s, V4Resolved(ok));
    }
  }

  /** A connection ends the race; a lost attempt opens the gate, ending it only if IPv4 is decided.  Progress stays. */
  ghost predicate V6Ends(s: Race, ok: bool, r: Race) {
    && r.v4 == s.v4
    && (ok ==> r.stopped && r.v6.Connected() && r.gate == s.gate)
    && (!ok ==> r.v6.Failed() && r.gate == Gate(Some(s.now), true, s.gate.fired))
    && (!ok && !s.stopped ==> (r.stopped <==> s.v4.Connected() || s.v4.Failed()))
    && (ProgressInv(s) && Enabled(s, V6Connected(ok)) ==> ProgressInv(r))
  }

  lemma {:induction false} V6EndIsTaken(s: Race, ok: bool)
    ensures V6Ends(s, ok, OnV6Connected(s, ok))
  {
    if ProgressInv(s) && Enabled(s, V6Connected(ok)) {
      StepProgress(s, V6Connected(ok));
    }
  }

  /** A connection ends the race; a lost attempt ends it only if IPv6 is decided.  Progress stays. */
  ghost predicate V4Ends(s: Race, ok: bool, r: Race) {
    && r.v6 == s.v6 && r.gate == s.gate
    && (ok ==> r.stopped && r.v4.Connected())
    && (!ok ==> r.v4.Failed())
    && (!ok && !s.stopped ==> (r.stopped <==> s.v6.Connected() || s.v6.Failed()))
    && (ProgressInv(s) && Enabled(s, V4Connected(ok)) ==> ProgressInv(r))
  }

  lemma {:induction false} V4EndIsTaken(s: Race, ok: bool)
    ensures V4Ends(s, ok, OnV4Connected(s, ok))
  {
    if ProgressInv(s) && Enabled(s, V4Connected(ok)) {
      StepProgress(s, V4Connected(ok));
    }
  }

  // ---- the race itself ----

  class HappyEyeballsRace {
    var now: int
    var v6: Family
    var v4: Family
    var v6Pending: bool
    var v4Pending: bool
    var gate: Gate
    var stopped: bool
    var timedOut: bool
    ghost var h: History

    ghost function S(): Race
      reads this
    {
      Race(now, v6, v4, v6Pending, v4Pending, gate, stopped, timedOut, h)
    }

    constructor (now: int)
      ensures S() == Start(now)
    {
      this.now := now;
      v6, v4 := FRESH, FRESH;
      v6Pending, v4Pending := true, true;
      gate := Gate(None, false, 0);
      stopped, timedOut := false, false;
      h := History([], [], None, None);
    }

    method SettleRace()
      modifies this
      ensures S() == Settle(old(S()))
    {
      if v6.Connected() || v4.Connected() || (v6.Failed() && v4.Failed()) {
        stopped := true;
      }
    }

    method OpenV4Gate(delay: int)
      modifies this
      ensures S() == OpenGate(old(S()), delay)
    {
      gate := Gate(Some(now + delay), true, gate.fired);
      h := h.(armings := h.armings + [Arming(now, delay)]);
    }

    method StartV6()
      modifies this
      ensures S() == ConnectV6(old(S()))
    {
      if v6.resolved && !v6.connecting && v6.outcome == Undecided {
        v6 := v6.(connecting := true);
      }
    }

    method StartV4()
      modifies this
      ensures S() == ConnectV4(old(S()))
    {
      if v4.resolved && !v4.connecting && v4.outcome == Undecided {
        v4 := v4.(connecting := true);
        h := h.(starts := h.starts + [V4Start(now, v6.Failed())]);
      }
    }

    method V6ResolveDone(ok: bool)
      modifies this
      ensures S() == OnV6Resolved(old(S()), ok)
      ensures V6Answers(old(S()), ok, S())
    {
      V6AnswerIsTaken(S(), ok);
      v6Pending := false;
      if ok {
        v6 := v6.(resolved := true);
        h := h.(v6Resolved := Some(now));
      } else {
        v6 := v6.(outcome := Failure);
      }
      if v6.resolved {
        StartV6();
        OpenV4Gate(STAGGER_DELAY);
      } else {
        OpenV4Gate(0);
      }
      SettleRace();
    }

    method V4ResolveDone(ok: bool)
      modifies this
      ensures S() == OnV4Resolved(old(S()), ok)
      ensures V4Answers(old(S()), ok, S())
    {
      V4AnswerIsTaken(S(), ok);
      v4Pending := false;
      if ok {
        v4 := v4.(resolved := true);
        h := h.(v4Resolved := Some(now));
      } else {
        v4 := v4.(outcome := Failure);
      }
      if gate.expiry.Some? && gate.expiry.value <= now {
        StartV4();
      } else if v4.resolved && !v6.resolved {
        OpenV4Gate(RESOLUTION_DELAY);
      }
      SettleRace();
    }

    method V6ConnectDone(ok: bool)
      modifies this
      ensures S() == OnV6Connected(old(S()), ok)
      ensures V6Ends(old(S()), ok, S())
    {
      V6EndIsTaken(S(), ok);
      v6 := v6.(connecting := false, outcome := if ok then Success else Failure);
      if v6.Failed() {
        OpenV4Gate(0);
      }
      SettleRace();
    }

    method V4ConnectDone(ok: bool)
      modifies this
      ensures S() == OnV4Connected(old(S()), ok)
      ensures V4Ends(old(S()), ok, S())
    {
      V4EndIsTaken(S(), ok);
      v4 := v4.(connecting := false, outcome := if ok then Success else Failure);
      SettleRace();
    }
  }

  // ---- what every interleaving keeps ----

  /** A family goes from its lookup to a connect attempt to an outcome, never back. */
  predicate FamilyInv(f: Family, pending: bool) {
    && (pending ==> f == FRESH)
    && (!pending ==> f.resolved || f.Failed())
    && (f.connecting ==> f.resolved && f.outcome == Undecided)
    && (!f.resolved ==> !f.Connected())
  }

  /** An armed or open gate leads to IPv4 eventually. */
  ghost predicate ProgressInv(s: Race) {
    && FamilyInv(s.v6, s.v6Pending) && FamilyInv(s.v4, s.v4Pending)
    && !s.v6.MayConnect()
    && (!s.v6Pending ==> s.gate.expiry.Some?)
    && (s.v6.Failed() && !s.v6.resolved ==> s.gate.expiry.Some? && s.gate.expiry.value <= s.now)
    && (s.gate.expiry.Some? && s.gate.expiry.value > s.now ==> s.gate.armed)
    && (s.v4.MayConnect() ==> s.gate.armed || s.gate.fired > 0)
    && (Settled(s) ==> s.stopped && !s.timedOut)
    && (s.stopped && !s.timedOut ==> Settled(s))
    && (s.timedOut ==> s.stopped)
  }

  lemma {:induction false} LookupProgress(s: Race, e: Event)
    requires ProgressInv(s) && Enabled(s, e) && (e.V6Resolved? || e.V4Resolved?)
    ensures ProgressInv(Step(s, e))
  {
    match e
    case V6Resolved(ok) =>
    case V4Resolved(ok) =>
  }

  lemma {:induction false} ConnectProgress(s: Race, e: Event)
    requires ProgressInv(s) && Enabled(s, e) && (e.V6Connected? || e.V4Connected?)
    ensures ProgressInv(Step(s, e))
  {
    match e
    case V6Connected(ok) =>
    case V4Connected(ok) =>
  }

  lemma {:induction false} StepProgress(s: Race, e: Event)
    requires ProgressInv(s) && Enabled(s, e)
    ensures ProgressInv(Step(s, e))
  {
    match e
    case V6Resolved(ok) => LookupProgress(s, e);
    case V4Resolved(ok) => LookupProgress(s, e);
    case V6Connected(ok) => ConnectProgress(s, e);
    case V4Connected(ok) => ConnectProgress(s, e);
    case Passes(d) =>
    case GateExpires =>
    case GateHandler =>
    case Deadline =>
  }

  lemma {:induction false} RunProgress(now: int, es: seq<Event>)
    requires Legal(now, es)
    ensures ProgressInv(Run(now, es))
    decreases |es|
  {
    if es != [] {
      RunProgress(now, es[..|es| - 1]);
      StepProgress(Run(now, es[..|es| - 1]), es[|es| - 1]);
    }
  }

  /** Nothing is outstanding except the deadline timer. */
  predicate Quiet(s: Race) {
    && !s.v6Pending && !s.v4Pending && !s.v6.connecting && !s.v4.connecting
    && !s.gate.armed && s.gate.fired == 0
  }

  /**
   In every interleaving, once nothing but the deadline is outstanding, the race has already been
   stopped with a connected family or with both families failed: it never waits for its deadline
   in vain.
   */
  lemma {:induction false} NeverStuck(now: int, es: seq<Event>)
    requires Legal(now, es) && Quiet(Run(now, es))
    ensures Run(now, es).stopped && Settled(Run(now, es))
  {
    RunProgress(now, es);
    QuietIsSettled(Run(now, es));
  }

  lemma {:induction false} QuietIsSettled(s: Race)
    requires ProgressInv(s) && Quiet(s)
    ensures s.stopped && Settled(s)
  {
    assert s.v6.outcome != Undecided && s.v4.outcome != Undecided;
  }

  // ---- the verdict ----

  datatype Verdict = V6Wins | V4Wins | TimedOut | ConnectFailed | ResolveFailed

  function Decide(s: Race): Verdict {
    if s.v6.Connected() || s.v4.Connected() then (if s.v6.Connected() then V6Wins else V4Wins)
    else if !s.v6.Failed() || !s.v4.Failed() then TimedOut
    else if s.v6.resolved || s.v4.resolved then ConnectFailed
    else ResolveFailed
  }

  /** The race is reported as timed out exactly when the deadline stopped it. */
  lemma {:induction false} TimedOutMeansDeadline(now: int, es: seq<Event>)
    requires Legal(now, es) && Run(now, es).stopped
    ensures Decide(Run(now, es)) == TimedOut <==> Run(now, es).timedOut
  {
    RunProgress(now, es);
  }

  // ---- when IPv4 starts ----

  ghost predicate Elapsed(s: Race, t: int) {
    exists a :: a in s.h.armings && a.at + a.delay <= t
  }

  /** IPv6 was answered before the resolution delay of IPv4 was over. */
  predicate V6InTime(h: History) {
    h.v6Resolved.Some? && (h.v4Resolved.Some? ==> h.v6Resolved.value < h.v4Resolved.value + RESOLUTION_DELAY)
  }

  /**
   The head start of IPv6 is over: the attempt delay after its answer, if that came in time, and the
   resolution delay after the answer for IPv4 otherwise.
   */
  predicate Waited(h: History, t: int) {
    if V6InTime(h) then h.v6Resolved.value + STAGGER_DELAY <= t
    else h.v4Resolved.Some? && h.v4Resolved.value + RESOLUTION_DELAY <= t
  }

  /** IPv6 has failed, or it has had its head start. */
  predicate HeadStart(h: History, start: V4Start) {
    start.v6Failed || Waited(h, start.at)
  }

  /** An arming of the gate has elapsed by a time, which leaves IPv6 its head start unless it has failed. */
  ghost predicate MayStart(s: Race, t: int) {
    Elapsed(s, t) && (s.v6.Failed() || Waited(s.h, t))
  }

  predicate NotAfter(o: Option<int>, t: int) {
    o.Some? ==> o.value <= t
  }

  /** Nothing recorded lies in the future. */
  predicate PastInv(s: Race) {
    && NotAfter(s.h.v6Resolved, s.now) && NotAfter(s.h.v4Resolved, s.now)
    && (forall i :: 0 <= i < |s.h.starts| ==> s.h.starts[i].at <= s.now)
  }

  /** What is recorded, however the gate is armed. */
  ghost predicate RecordInv(s: Race) {
    && PastInv(s)
    && (s.gate.fired > 0 ==> MayStart(s, s.now))
    && |s.h.starts| == (if s.v4.resolved && (s.v4.connecting || s.v4.outcome != Undecided) then 1 else 0)
    && (forall i :: 0 <= i < |s.h.starts| ==> HeadStart(s.h, s.h.starts[i]) && Elapsed(s, s.h.starts[i].at))
    && (s.v6.resolved <==> s.h.v6Resolved.Some?) && (s.v4.resolved <==> s.h.v4Resolved.Some?)
  }

  ghost predicate HistoryInv(s: Race) {
    RecordInv(s) && (s.gate.expiry.Some? ==> MayStart(s, s.gate.expiry.value))
  }

  lemma {:induction false} OpenGateHistory(s: Race, delay: int)
    requires RecordInv(s) && (s.v6.Failed() || Waited(s.h, s.now + delay))
    ensures HistoryInv(OpenGate(s, delay))
  {
    var a := Arming(s.now, delay);
    var r := OpenGate(s, delay);
    assert a in r.h.armings;
    forall t | Elapsed(s, t) ensures Elapsed(r, t) {
      var b :| b in s.h.armings && b.at + b.delay <= t;
      assert b in r.h.armings;
    }
  }

  lemma {:induction false} ConnectV4History(s: Race)
    requires HistoryInv(s) && MayStart(s, s.now)
    ensures HistoryInv(ConnectV4(s))
  {
    if s.v4.MayConnect() {
      var r := ConnectV4(s);
      forall t | Elapsed(s, t) ensures Elapsed(r, t) {
        var b :| b in s.h.armings && b.at + b.delay <= t;
        assert b in r.h.armings;
      }
    }
  }

  /** A change of outcomes that does not undo a failure of IPv6 keeps the history consistent. */
  lemma {:induction false} SameHistory(s: Race, r: Race)
    requires HistoryInv(s) && r.h == s.h && r.gate.expiry == s.gate.expiry
    requires s.v6.Failed() ==> r.v6.Failed()
    requires s.now <= r.now && (r.gate.fired <= s.gate.fired || GateOpen(r))
    requires r.v4.resolved == s.v4.resolved && r.v6.resolved == s.v6.resolved
    requires s.v4.resolved ==>
               (r.v4.connecting || r.v4.outcome != Undecided <==> s.v4.connecting || s.v4.outcome != Undecided)
    ensures HistoryInv(r)
  {
    forall t, u | Elapsed(s, t) && t <= u ensures Elapsed(r, u) {
      var b :| b in s.h.armings && b.at + b.delay <= t;
      assert b in r.h.armings;
    }
  }

  lemma {:induction false} V6ResolvedHistory(s: Race, ok: bool)
    requires HistoryInv(s) && ProgressInv(s) && s.v6Pending
    ensures HistoryInv(OnV6Resolved(s, ok))
  {
    var t := ConnectV6(V6Answer(s, ok));
    KeepElapsed(s, t);
    assert RecordInv(t);
    OpenGateHistory(t, if ok then STAGGER_DELAY else 0);
  }

  lemma {:induction false} KeepElapsed(s: Race, t: Race)
    requires t.h.armings == s.h.armings
    ensures forall u :: Elapsed(s, u) ==> Elapsed(t, u)
  {
  }

  lemma {:induction false} V4ResolvedHistory(s: Race, ok: bool)
    requires HistoryInv(s) && ProgressInv(s) && s.v4Pending
    ensures HistoryInv(OnV4Resolved(s, ok))
  {
    var t := V4Answer(s, ok);
    assert HistoryInv(t) by {
      KeepElapsed(s, t);
    }
    if GateOpen(t) {
      var a :| a in t.h.armings && a.at + a.delay <= t.gate.expiry.value;
      assert a.at + a.delay <= t.now;
      ConnectV4History(t);
    } else if t.v4.resolved && !t.v6.resolved {
      OpenGateHistory(t, RESOLUTION_DELAY);
    }
  }

  lemma {:induction false} V6ConnectedHistory(s: Race, ok: bool)
    requires HistoryInv(s) && ProgressInv(s) && s.v6.connecting
    ensures HistoryInv(OnV6Connected(s, ok))
  {
    var t := s.(v6 := s.v6.(connecting := false, outcome := if ok then Success else Failure));
    SameHistory(s, t);
    if !ok {
      OpenGateHistory(t, 0);
    }
  }

  lemma {:induction false} GateHistory(s: Race)
    requires HistoryInv(s) && s.gate.fired > 0
    ensures HistoryInv(Step(s, GateHandler))
  {
    var t := s.(gate := s.gate.(fired := s.gate.fired - 1));
    SameHistory(s, t);
    KeepElapsed(s, t);
    ConnectV4History(t);
  }

  lemma {:induction false} StepHistory(s: Race, e: Event)
    requires HistoryInv(s) && ProgressInv(s) && Enabled(s, e)
    ensures HistoryInv(Step(s, e))
  {
    match e
    case V6Resolved(ok) => V6ResolvedHistory(s, ok);
    case V4Resolved(ok) => V4ResolvedHistory(s, ok);
    case V6Connected(ok) => V6ConnectedHistory(s, ok);
    case GateHandler => GateHistory(s);
    case Passes(d) => SameHistory(s, Step(s, e));
    case V4Connected(ok) => SameHistory(s, Step(s, e));
    case GateExpires => SameHistory(s, Step(s, e));
    case Deadline => SameHistory(s, Step(s, e));
  }

  lemma {:induction false} RunHistory(now: int, es: seq<Event>)
    requires Legal(now, es)
    ensures HistoryInv(Run(now, es))
    decreases |es|
  {
    if es != [] {
      RunHistory(now, es[..|es| - 1]);
      RunProgress(now, es[..|es| - 1]);
      StepHistory(Run(now, es[..|es| - 1]), es[|es| - 1]);
    }
  }

  /**
   In every interleaving IPv4 starts connecting at most once, only after a delay the gate was armed
   with has elapsed, and, unless IPv6 has failed by then, no earlier than the attempt delay after the
   IPv6 answer, if that came before the resolution delay was over, and the resolution delay after the
   IPv4 answer otherwise.
   */
  lemma {:induction false} V4StartsOnceAndAfterHeadStart(now: int, es: seq<Event>)
    requires Legal(now, es)
    ensures var s := Run(now, es);
            && |s.h.starts| <= 1
            && (forall i :: 0 <= i < |s.h.starts| ==> HeadStart(s.h, s.h.starts[i]) && Elapsed(s, s.h.starts[i].at))
            && (s.v4.Connected() ==> |s.h.starts| == 1)
  {
    RunHistory(now, es);
    RunProgress(now, es);
  }
}
