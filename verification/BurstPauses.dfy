/** When a sender that obeys the burst budget transmits: during a burst, and otherwise only after the period. */
module BurstPauses {
  import opened BurstBudgets

  /** How many of the messages since the last clear still count: the latest n of them. */
  function Counted(p: Params, s: State): nat {
    var k := |s.sent| - s.since;
    if k < 0 then 0 else if k < p.n then k else p.n
  }

  /** The first of the messages that count. */
  function Oldest(p: Params, s: State): int
    requires 0 < Counted(p, s) <= |s.sent|
  {
    s.sent[|s.sent| - Counted(p, s)]
  }

  /** A burst with fewer than n messages is still going on at t. */
  predicate InBurst(p: Params, s: State, t: int) {
    var k := Counted(p, s);
    0 < k <= |s.sent| && k < p.n && t < Oldest(p, s) + p.duration
  }

  /** The burst is over and the next one may not start yet. */
  predicate InPause(p: Params, s: State, t: int) {
    0 < Counted(p, s) <= |s.sent| && Oldest(p, s) + p.duration <= t < Oldest(p, s) + p.period
  }

  /** At least a period has passed since the first message that counts. */
  predicate PeriodElapsed(p: Params, s: State, t: int) {
    0 < Counted(p, s) <= |s.sent| && Oldest(p, s) + p.period <= t
  }

  /** More than a period has passed since then. */
  predicate PeriodIsOver(p: Params, s: State, t: int) {
    0 < Counted(p, s) <= |s.sent| && Oldest(p, s) + p.period < t
  }

  /** A message may go if none counts, during a burst that is not full, or once the period has elapsed. */
  predicate MayTransmit(p: Params, s: State, t: int) {
    Counted(p, s) == 0 || InBurst(p, s, t) || PeriodElapsed(p, s, t)
  }

  /** Exactly what a poll does. */
  ghost predicate Polled(p: Params, s: State, e: Poll, r: State) {
    && r.sent == (if e.wants && MayTransmit(p, s, e.at) then s.sent + [e.at] else s.sent)
    && r.since == (if PeriodIsOver(p, s, e.at) && !InBurst(p, s, e.at) then |s.sent| else s.since)
  }

  lemma {:induction false} RingCounts(p: Params, s: State)
    requires RingInv(p, s)
    ensures |s.ring| == Counted(p, s) <= |s.sent|
    ensures s.ring != [] ==> s.ring[0] == Oldest(p, s)
  {
  }

  lemma {:induction false} AskOpens(p: Params, s: State, t: int)
    requires ValidParams(p) && RingInv(p, s)
    ensures Ask(p, s.ring, t).delay == 0 <==> MayTransmit(p, s, t)
    ensures Ask(p, s.ring, t).clears <==> PeriodIsOver(p, s, t) && !InBurst(p, s, t)
  {
    RingCounts(p, s);
  }

  lemma {:induction false} PollExactly(p: Params, s: State, e: Poll)
    requires ValidParams(p) && RingInv(p, s)
    ensures Polled(p, s, e, Step(p, s, e))
  {
    AskOpens(p, s, e.at);
  }

  /** In every run, a poll transmits exactly if it is wanted and allowed, and clears exactly after the period. */
  lemma {:induction false} TransmitsExactly(p: Params, es: seq<Poll>, m: nat)
    requires ValidParams(p) && Monotone(es) && m < |es|
    ensures Polled(p, Run(p, es[..m]), es[m], Run(p, es[..m + 1]))
  {
    RingBefore(p, es, m);
    NextState(p, es, m);
    PollExactly(p, Run(p, es[..m]), es[m]);
  }

  lemma {:induction false} RingBefore(p: Params, es: seq<Poll>, m: nat)
    requires ValidParams(p) && Monotone(es) && m < |es|
    ensures RingInv(p, Run(p, es[..m]))
  {
    RunInv(p, es[..m], es[m].at);
  }

  lemma {:induction false} NextState(p: Params, es: seq<Poll>, m: nat)
    requires m < |es|
    ensures Run(p, es[..m + 1]) == Step(p, Run(p, es[..m]), es[m])
  {
    assert es[..m + 1] == es[..m] + [es[m]];
    RunOnLast(p, State([], [], 0), es[..m], es[m]);
  }

  /** In every run, no message is sent after the duration of a burst and before the period since its start is over. */
  lemma {:induction false} NoMessageInPause(p: Params, es: seq<Poll>, m: nat)
    requires ValidParams(p) && Monotone(es) && m < |es| && InPause(p, Run(p, es[..m]), es[m].at)
    ensures Run(p, es[..m + 1]).sent == Run(p, es[..m]).sent
  {
    TransmitsExactly(p, es, m);
  }

  /** In every run, a burst with fewer than n messages takes another one as long as its duration lasts. */
  lemma {:induction false} BurstGoesOn(p: Params, es: seq<Poll>, m: nat)
    requires ValidParams(p) && Monotone(es) && m < |es| && es[m].wants && InBurst(p, Run(p, es[..m]), es[m].at)
    ensures Run(p, es[..m + 1]).sent == Run(p, es[..m]).sent + [es[m].at]
  {
    TransmitsExactly(p, es, m);
  }

  /** Every message of a run was allowed when it was sent. */
  lemma {:induction false} MessageWasAllowed(p: Params, es: seq<Poll>, i: nat) returns (m: nat)
    requires ValidParams(p) && Monotone(es) && i < |Run(p, es).sent|
    ensures m < |es| && es[m].wants && Run(p, es).sent[i] == es[m].at
    ensures Run(p, es[..m]).sent == Run(p, es).sent[..i] && MayTransmit(p, Run(p, es[..m]), es[m].at)
    decreases |es|
  {
    var before := es[..|es| - 1];
    TransmitsExactly(p, es, |es| - 1);
    assert es[..|es|] == es;
    if i < |Run(p, before).sent| {
      m := MessageWasAllowed(p, before, i);
      assert before[..m] == es[..m];
      assert Run(p, before).sent[..i] == Run(p, es).sent[..i];
    } else {
      m := |es| - 1;
    }
  }
}
