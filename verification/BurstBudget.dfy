/**
 The burst budget for DP0 messages: a ring of the latest transmission times.  A burst may last for
 `duration`; once it is over, or the ring is full, the next one starts after `period`.
 */
module BurstBudgets {

  datatype Params = Params(n: nat, duration: int, period: int)

  ghost predicate ValidParams(p: Params) {
    1 <= p.n && 0 < p.duration < p.period
  }

  /** Result of asking for the delay: the answer, and whether the ring is cleared by asking. */
  datatype Answer = Answer(delay: int, clears: bool)

  function Ask(p: Params, ring: seq<int>, now: int): Answer {
    if ring == [] then Answer(0, false)
    else if ring[0] + p.duration > now && |ring| < p.n then Answer(0, false)
    else if ring[0] + p.period < now then Answer(0, true)
    else Answer(ring[0] + p.period - now, false)
  }

  /** The ring after a message at t. */
  function Push(p: Params, ring: seq<int>, t: int): seq<int> {
    Latest(ring + [t], p.n)
  }

  class BurstBudget {
    const params: Params
    var messages: seq<int>

    ghost predicate Valid()
      reads this
    {
      ValidParams(params) && |messages| <= params.n
    }

    constructor (params: Params)
      requires ValidParams(params)
      ensures this.params == params && messages == [] && Valid()
    {
      this.params := params;
      messages := [];
    }

    /** The time until the budget opens, and not longer; at most a period if no message is from the future. */
    method Delay(now: int) returns (delay: int)
      requires Valid()
      modifies this
      ensures Valid()
      ensures delay == Ask(params, old(messages), now).delay
      ensures messages == if Ask(params, old(messages), now).clears then [] else old(messages)
      ensures delay > 0 ==> messages == old(messages)
      ensures delay > 0 ==> forall t :: now <= t <= now + delay ==>
                                          (Ask(params, messages, t).delay == 0 <==> t == now + delay)
      ensures (forall i :: 0 <= i < |old(messages)| ==> old(messages)[i] <= now) ==> 0 <= delay <= params.period
      ensures 0 < |old(messages)| < params.n && now < old(messages)[0] + params.duration ==> delay == 0
      ensures old(messages) != [] && old(messages)[0] + params.duration <= now < old(messages)[0] + params.period
          ==> delay > 0
    {
      if messages == [] {
        delay := 0;
      } else if messages[0] + params.duration > now && |messages| < params.n {
        delay := 0;
      } else if messages[0] + params.period < now {
        messages := [];
        delay := 0;
      } else {
        delay := messages[0] + params.period - now;
      }
    }

    /** The ring holds the latest n messages. */
    method Notify(now: int)
      requires Valid()
      modifies this
      ensures Valid()
      ensures messages == Latest(old(messages) + [now], params.n)
    {
      if messages != [] && |messages| >= params.n {
        messages := messages[1..];
      }
      messages := messages + [now];
    }
  }

  function Latest(s: seq<int>, n: nat): seq<int> {
    if |s| <= n then s else s[|s| - n..]
  }

  /** The answered delay is the shortest one: the budget opens after it and not before. */
  lemma {:induction false} DelayIsShortest(p: Params, ring: seq<int>, now: int, t: int)
    requires ValidParams(p) && Ask(p, ring, now).delay > 0
    requires now <= t <= now + Ask(p, ring, now).delay
    ensures !Ask(p, ring, now).clears
    ensures Ask(p, ring, t).delay == 0 <==> t == now + Ask(p, ring, now).delay
  {
  }

  // ---- runs of a sender that transmits only when the answer is zero ----

  // The sender asks at some time, and would like to transmit or not
  datatype Poll = Poll(at: int, wants: bool)

  // since: number of messages sent before the ring was last cleared
  datatype State = State(ring: seq<int>, sent: seq<int>, since: nat)

  /** The state after asking at t. */
  function Asked(p: Params, s: State, t: int): State {
    if Ask(p, s.ring, t).clears then State([], s.sent, |s.sent|) else s
  }

  /** The state after transmitting at t. */
  function Sent(p: Params, q: State, t: int): State {
    State(Push(p, q.ring, t), q.sent + [t], q.since)
  }

  function Step(p: Params, s: State, e: Poll): State {
    var q := Asked(p, s, e.at);
    if Ask(p, s.ring, e.at).delay == 0 && e.wants then Sent(p, q, e.at) else q
  }

  function RunOn(p: Params, s: State, es: seq<Poll>): State {
    if es == [] then s else Step(p, RunOn(p, s, es[..|es| - 1]), es[|es| - 1])
  }

  function Run(p: Params, es: seq<Poll>): State {
    RunOn(p, State([], [], 0), es)
  }

  ghost predicate Monotone(es: seq<Poll>) {
    forall i, j :: 0 <= i < j < |es| ==> es[i].at <= es[j].at
  }

  ghost predicate Sorted(s: seq<int>) {
    forall i, j :: 0 <= i < j < |s| ==> s[i] <= s[j]
  }

  /** Any k + 1 consecutive messages span at least the period. */
  ghost predicate Spread(p: Params, s: seq<int>, k: nat) {
    forall i, j :: 0 <= i && j == i + k && j < |s| ==> s[i] + p.period <= s[j]
  }

  /** The ring holds the latest messages since it was last cleared. */
  ghost predicate RingInv(p: Params, s: State) {
    && 1 <= p.n && s.since <= |s.sent|
    && |s.ring| == (if |s.sent| - s.since <= p.n then |s.sent| - s.since else p.n)
    && s.ring == s.sent[|s.sent| - |s.ring|..]
  }

  /** The messages sent up to `now`; n messages before the last clear, time was a period behind. */
  ghost predicate SentInv(p: Params, s: State, now: int) {
    && Sorted(s.sent)
    && (forall i :: 0 <= i < |s.sent| ==> s.sent[i] <= now)
    && (p.n <= s.since <= |s.sent| && 1 <= p.n ==> s.sent[s.since - p.n] + p.period < now)
    && (1 <= p.n ==> Spread(p, s.sent, 2 * p.n - 1))
  }

  /** When asking clears the ring, the message n places back is older than a period. */
  lemma {:induction false} ClearedIsOld(p: Params, s: State, now: int, t: int)
    requires ValidParams(p) && RingInv(p, s) && SentInv(p, s, now) && Ask(p, s.ring, t).clears && |s.sent| >= p.n
    ensures s.sent[|s.sent| - p.n] + p.period < t
  {
    assert s.ring[0] == s.sent[|s.sent| - |s.ring|];
    assert s.sent[|s.sent| - p.n] <= s.ring[0];
  }

  lemma {:induction false} AskKeeps(p: Params, s: State, now: int, t: int)
    requires ValidParams(p) && RingInv(p, s) && SentInv(p, s, now) && now <= t
    ensures RingInv(p, Asked(p, s, t)) && SentInv(p, Asked(p, s, t), t)
  {
    TimePasses(p, s, now, t);
    if Ask(p, s.ring, t).clears {
      if |s.sent| >= p.n {
        ClearedIsOld(p, s, now, t);
      }
      ClearedKeeps(p, s, t);
    }
  }

  lemma {:induction false} ClearedKeeps(p: Params, s: State, t: int)
    requires ValidParams(p) && SentInv(p, s, t) && (|s.sent| >= p.n ==> s.sent[|s.sent| - p.n] + p.period < t)
    ensures RingInv(p, State([], s.sent, |s.sent|)) && SentInv(p, State([], s.sent, |s.sent|), t)
  {
  }

  lemma {:induction false} SpreadAppend(p: Params, s: seq<int>, t: int, k: nat)
    requires Spread(p, s, k) && 0 < k && (|s| >= k ==> s[|s| - k] + p.period <= t)
    ensures Spread(p, s + [t], k)
  {
  }

  /** When the answer is zero, the message 2n - 1 places back is a period old. */
  lemma {:induction false} ZeroMeansSpread(p: Params, s: State, t: int)
    requires ValidParams(p) && RingInv(p, Asked(p, s, t)) && SentInv(p, Asked(p, s, t), t)
    requires Ask(p, s.ring, t).delay == 0 && |s.sent| >= 2 * p.n - 1
    ensures s.sent[|s.sent| - (2 * p.n - 1)] + p.period <= t
  {
    var q := Asked(p, s, t);
    var m := |s.sent|;
    if |q.ring| == p.n {
      assert q.ring[0] == q.sent[m - p.n];
      InOrder(s.sent, m - (2 * p.n - 1), m - p.n);
    } else {
      assert q.since >= p.n;
      InOrder(s.sent, m - (2 * p.n - 1), q.since - p.n);
    }
  }

  lemma {:induction false} InOrder(s: seq<int>, i: nat, j: nat)
    requires Sorted(s) && i <= j < |s|
    ensures s[i] <= s[j]
  {
  }

  lemma {:induction false} SentSorted(s: seq<int>, t: int)
    requires Sorted(s) && forall i :: 0 <= i < |s| ==> s[i] <= t
    ensures Sorted(s + [t]) && forall i :: 0 <= i < |s + [t]| ==> (s + [t])[i] <= t
  {
  }

  lemma {:induction false} PushedRing(p: Params, q: State, t: int)
    requires RingInv(p, q)
    ensures RingInv(p, Sent(p, q, t))
  {
    var sent := q.sent + [t];
    if |q.ring| >= p.n {
      assert q.ring[1..] + [t] == sent[|sent| - p.n..];
    } else {
      assert q.ring + [t] == sent[|sent| - |q.ring| - 1..];
    }
  }

  /** Transmitting at a time the answer is zero keeps any 2n consecutive messages a period apart. */
  lemma {:induction false} SendKeeps(p: Params, s: State, now: int, t: int)
    requires ValidParams(p) && RingInv(p, s) && SentInv(p, s, now) && now <= t
    requires Ask(p, s.ring, t).delay == 0
    ensures RingInv(p, Sent(p, Asked(p, s, t), t)) && SentInv(p, Sent(p, Asked(p, s, t), t), t)
  {
    AskKeeps(p, s, now, t);
    PushedRing(p, Asked(p, s, t), t);
    SentSpreads(p, s, Asked(p, s, t), t);
  }

  lemma {:induction false} SentSpreads(p: Params, s: State, q: State, t: int)
    requires ValidParams(p) && q == Asked(p, s, t) && RingInv(p, q) && SentInv(p, q, t) && Ask(p, s.ring, t).delay == 0
    ensures SentInv(p, Sent(p, q, t), t)
  {
    if |s.sent| >= 2 * p.n - 1 {
      ZeroMeansSpread(p, s, t);
    }
    SentAppend(p, q, Push(p, q.ring, t), t);
  }

  lemma {:induction false} SentAppend(p: Params, q: State, ring: seq<int>, t: int)
    requires 1 <= p.n && SentInv(p, q, t) && q.since <= |q.sent|
    requires |q.sent| >= 2 * p.n - 1 ==> q.sent[|q.sent| - (2 * p.n - 1)] + p.period <= t
    ensures SentInv(p, State(ring, q.sent + [t], q.since), t)
  {
    SpreadAppend(p, q.sent, t, 2 * p.n - 1);
    SentSorted(q.sent, t);
    if p.n <= q.since {
      SinceStays(p, q, t);
    }
  }

  lemma {:induction false} SinceStays(p: Params, q: State, t: int)
    requires SentInv(p, q, t) && 1 <= p.n <= q.since <= |q.sent|
    ensures (q.sent + [t])[q.since - p.n] + p.period < t
  {
  }

  lemma {:induction false} StepKeeps(p: Params, s: State, now: int, e: Poll)
    requires ValidParams(p) && RingInv(p, s) && SentInv(p, s, now) && now <= e.at
    ensures RingInv(p, Step(p, s, e)) && SentInv(p, Step(p, s, e), e.at)
  {
    if e.wants && Ask(p, s.ring, e.at).delay == 0 {
      SendKeeps(p, s, now, e.at);
    } else {
      AskKeeps(p, s, now, e.at);
    }
  }

  lemma {:induction false} TimePasses(p: Params, s: State, now: int, later: int)
    requires SentInv(p, s, now) && now <= later
    ensures SentInv(p, s, later)
  {
  }

  lemma {:induction false} RunLast(p: Params, es: seq<Poll>)
    requires es != []
    ensures Run(p, es) == Step(p, Run(p, es[..|es| - 1]), es[|es| - 1])
  {
  }

  lemma {:induction false} StartInv(p: Params, now: int)
    requires ValidParams(p)
    ensures RingInv(p, State([], [], 0)) && SentInv(p, State([], [], 0), now)
  {
  }

  lemma {:induction false} MonotoneBefore(es: seq<Poll>)
    requires es != [] && Monotone(es)
    ensures Monotone(es[..|es| - 1])
    ensures |es| > 1 ==> es[..|es| - 1][|es| - 2].at <= es[|es| - 1].at
  {
  }

  lemma {:induction false} RunInv(p: Params, es: seq<Poll>, now: int)
    requires ValidParams(p) && Monotone(es) && (es != [] ==> es[|es| - 1].at <= now)
    ensures RingInv(p, Run(p, es)) && SentInv(p, Run(p, es), now)
    decreases |es|
  {
    if es == [] {
      StartInv(p, now);
    } else {
      var before, e := es[..|es| - 1], es[|es| - 1];
      MonotoneBefore(es);
      RunInv(p, before, e.at);
      StepInv(p, Run(p, before), e, now);
      RunLast(p, es);
    }
  }

  lemma {:induction false} StepInv(p: Params, s: State, e: Poll, now: int)
    requires ValidParams(p) && RingInv(p, s) && SentInv(p, s, e.at) && e.at <= now
    ensures RingInv(p, Step(p, s, e)) && SentInv(p, Step(p, s, e), now)
  {
    StepKeeps(p, s, e.at, e);
    TimePasses(p, Step(p, s, e), e.at, now);
  }

  /** In every run the answer is never longer than the period. */
  lemma {:induction false} DelayIsBounded(p: Params, es: seq<Poll>, now: int)
    requires ValidParams(p) && Monotone(es) && (es != [] ==> es[|es| - 1].at <= now)
    ensures 0 <= Ask(p, Run(p, es).ring, now).delay <= p.period
  {
    var s := Run(p, es);
    RunInv(p, es, now);
    if s.ring != [] {
      assert s.ring[0] == s.sent[|s.sent| - |s.ring|];
    }
  }

  // ---- messages in a window ----

  function InWindow(s: seq<int>, from: int, to: int): nat {
    if s == [] then 0
    else InWindow(s[..|s| - 1], from, to) + if from <= s[|s| - 1] < to then 1 else 0
  }

  lemma {:induction false} InWindowLength(s: seq<int>, from: int, to: int)
    ensures InWindow(s, from, to) <= |s|
  {
    if s != [] {
      InWindowLength(s[..|s| - 1], from, to);
    }
  }

  lemma {:induction false} InWindowTail(s: seq<int>, k: nat, from: int, to: int)
    requires k <= |s| && forall i :: 0 <= i < |s| - k ==> s[i] < from
    ensures InWindow(s, from, to) <= k
    decreases |s|
  {
    if s != [] {
      InWindowTail(s[..|s| - 1], if k > 0 then k - 1 else 0, from, to);
    }
  }

  lemma {:induction false} SpreadBoundsWindow(p: Params, s: seq<int>, k: nat, from: int)
    requires Sorted(s) && Spread(p, s, k)
    ensures InWindow(s, from, from + p.period) <= k
    decreases |s|
  {
    if s != [] {
      var last := |s| - 1;
      if from <= s[last] < from + p.period {
        if last < k {
          InWindowLength(s, from, from + p.period);
        } else {
          assert s[last - k] + p.period <= s[last];
          InWindowTail(s, k, from, from + p.period);
        }
      } else {
        SpreadBoundsWindow(p, s[..last], k, from);
      }
    }
  }

  /**
   A sender that transmits only right after the answer zero never has more than 2n - 1 messages
   in a half-open window as long as the period.
   */
  lemma {:induction false} WindowHoldsFewerThanTwoBursts(p: Params, es: seq<Poll>, from: int)
    requires ValidParams(p) && Monotone(es)
    ensures InWindow(Run(p, es).sent, from, from + p.period) <= 2 * p.n - 1
  {
    RunInv(p, es, if es == [] then 0 else es[|es| - 1].at);
    SpreadBoundsWindow(p, Run(p, es).sent, 2 * p.n - 1, from);
  }

  // ---- the bound is reached ----

  function Repeat(t: int, k: nat): seq<Poll> {
    if k == 0 then [] else Repeat(t, k - 1) + [Poll(t, true)]
  }

  function Times(t: int, k: nat): seq<int> {
    if k == 0 then [] else Times(t, k - 1) + [t]
  }

  lemma {:induction false} RunOnConcat(p: Params, s: State, a: seq<Poll>, b: seq<Poll>)
    ensures RunOn(p, s, a + b) == RunOn(p, RunOn(p, s, a), b)
    decreases |b|
  {
    if b == [] {
      assert a + b == a;
    } else {
      assert (a + b)[..|a + b| - 1] == a + b[..|b| - 1];
      RunOnConcat(p, s, a, b[..|b| - 1]);
    }
  }

  lemma {:induction false} RunOnLast(p: Params, s: State, es: seq<Poll>, e: Poll)
    ensures RunOn(p, s, es + [e]) == Step(p, RunOn(p, s, es), e)
  {
    assert (es + [e])[..|es|] == es;
  }

  lemma {:induction false} OnePoll(p: Params, s: State, e: Poll)
    ensures RunOn(p, s, [e]) == Step(p, s, e)
  {
    assert [e][..0] == [];
  }

  /** While the burst lasts, and exactly a period after its start, a poll transmits and clears nothing. */
  predicate IsOpen(p: Params, ring: seq<int>, t: int) {
    ring != [] && (ring[0] + p.duration > t || ring[0] + p.period == t)
  }

  lemma {:induction false} PollSends(p: Params, s: State, t: int)
    requires IsOpen(p, s.ring, t) && |s.ring| < p.n
    ensures Step(p, s, Poll(t, true)) == State(s.ring + [t], s.sent + [t], s.since)
  {
  }

  lemma {:induction false} TimesLast(s: seq<int>, t: int, k: nat)
    ensures |Times(t, k)| == k && s + Times(t, k + 1) == s + Times(t, k) + [t]
    decreases k
  {
    if k > 0 {
      TimesLast(s, t, k - 1);
    }
  }

  /** The state after k more messages at t. */
  function SentMore(s: State, t: int, k: nat): State {
    State(s.ring + Times(t, k), s.sent + Times(t, k), s.since)
  }

  lemma {:induction false} SentNoMore(s: State, t: int)
    ensures SentMore(s, t, 0) == s
  {
  }

  lemma {:induction false} OneMoreSent(p: Params, s: State, t: int, k: nat)
    requires IsOpen(p, s.ring, t) && |s.ring| + k < p.n
    ensures Step(p, SentMore(s, t, k), Poll(t, true)) == SentMore(s, t, k + 1)
  {
    TimesLast(s.ring, t, k);
    TimesLast(s.sent, t, k);
    PollSends(p, SentMore(s, t, k), t);
  }

  /** The state after the same poll k times. */
  function Again(p: Params, s: State, e: Poll, k: nat): State {
    if k == 0 then s else Step(p, Again(p, s, e, k - 1), e)
  }

  lemma {:induction false} RepeatIsAgain(p: Params, s: State, t: int, k: nat)
    ensures RunOn(p, s, Repeat(t, k)) == Again(p, s, Poll(t, true), k)
    decreases k
  {
    if k > 0 {
      RepeatIsAgain(p, s, t, k - 1);
      RunOnLast(p, s, Repeat(t, k - 1), Poll(t, true));
    }
  }

  lemma {:induction false} AgainNext(p: Params, s: State, e: Poll, k: nat, r: State, next: State)
    requires Again(p, s, e, k) == r && Step(p, r, e) == next
    ensures Again(p, s, e, k + 1) == next
  {
  }

  lemma {:induction false} AgainSends(p: Params, s: State, t: int, k: nat)
    requires IsOpen(p, s.ring, t) && |s.ring| + k <= p.n
    ensures Again(p, s, Poll(t, true), k) == SentMore(s, t, k)
    decreases k
  {
    if k == 0 {
      SentNoMore(s, t);
    } else {
      AgainSends(p, s, t, k - 1);
      OneMoreSent(p, s, t, k - 1);
      AgainNext(p, s, Poll(t, true), k - 1, SentMore(s, t, k - 1), SentMore(s, t, k));
    }
  }

  lemma {:induction false} BurstSends(p: Params, s: State, t: int, k: nat)
    requires IsOpen(p, s.ring, t) && |s.ring| + k <= p.n
    ensures RunOn(p, s, Repeat(t, k)) == SentMore(s, t, k)
  {
    RepeatIsAgain(p, s, t, k);
    AgainSends(p, s, t, k);
  }

  lemma {:induction false} InWindowConcat(a: seq<int>, b: seq<int>, from: int, to: int)
    ensures InWindow(a + b, from, to) == InWindow(a, from, to) + InWindow(b, from, to)
    decreases |b|
  {
    if b == [] {
      assert a + b == a;
    } else {
      assert (a + b)[..|a + b| - 1] == a + b[..|b| - 1];
      InWindowConcat(a, b[..|b| - 1], from, to);
    }
  }

  lemma {:induction false} InWindowTimes(t: int, k: nat, from: int, to: int)
    requires from <= t < to
    ensures InWindow(Times(t, k), from, to) == k
  {
    if k > 0 {
      InWindowTimes(t, k - 1, from, to);
      assert Times(t, k)[..|Times(t, k)| - 1] == Times(t, k - 1);
    }
  }

  /** One message at 0 and all but one of a burst exactly a period later, which does not clear the ring. */
  function Opening(p: Params): seq<Poll>
    requires p.n >= 1
  {
    [Poll(0, true)] + Repeat(p.period, p.n - 1)
  }

  /** A full burst more than a period after the first message, which clears the ring. */
  function Closing(p: Params): seq<Poll>
    requires p.n >= 1
  {
    [Poll(p.period + 1, true)] + Repeat(p.period + 1, p.n - 1)
  }

  /** A run with as many messages in a window of one period as there can be. */
  function Worst(p: Params): seq<Poll>
    requires p.n >= 1
  {
    Opening(p) + Closing(p)
  }

  /** More than a period after the first message of a full ring a poll clears the ring and transmits. */
  lemma {:induction false} PollRestarts(p: Params, s: State, t: int)
    requires ValidParams(p) && |s.ring| == p.n && s.ring[0] + p.period < t
    ensures Step(p, s, Poll(t, true)) == State([t], s.sent + [t], |s.sent|)
  {
    assert [] + [t] == [t];
  }

  /** A poll that starts a ring and then a burst. */
  lemma {:induction false} PollAndBurst(p: Params, s: State, e: Poll, r: State, t: int, k: nat, es: seq<Poll>)
    requires Step(p, s, e) == r && IsOpen(p, r.ring, t) && |r.ring| + k <= p.n && es == [e] + Repeat(t, k)
    ensures RunOn(p, s, es) == SentMore(r, t, k)
  {
    OnePoll(p, s, e);
    RunOnConcat(p, s, [e], Repeat(t, k));
    BurstSends(p, r, t, k);
  }

  lemma {:induction false} FirstPoll(p: Params)
    requires ValidParams(p)
    ensures Step(p, State([], [], 0), Poll(0, true)) == State([0], [0], 0)
  {
    assert [] + [0] == [0];
  }

  lemma {:induction false} TwoBursts(p: Params, s: State, first: seq<Poll>, r: State)
    requires ValidParams(p) && RunOn(p, s, first) == r && |r.ring| == p.n && r.ring[0] == 0
    ensures RunOn(p, s, first + Closing(p)).sent == r.sent + ([p.period + 1] + Times(p.period + 1, p.n - 1))
  {
    RunOnConcat(p, s, first, Closing(p));
    SecondBurst(p, r);
    Regroup(r.sent, [p.period + 1], Times(p.period + 1, p.n - 1));
  }

  lemma {:induction false} WorstFrom(p: Params, s: State, r: State)
    requires ValidParams(p) && Step(p, s, Poll(0, true)) == r && |r.ring| == 1 && r.ring[0] == 0
    ensures RunOn(p, s, Opening(p) + Closing(p)).sent
         == r.sent + Times(p.period, p.n - 1) + ([p.period + 1] + Times(p.period + 1, p.n - 1))
  {
    var full := FirstBurst(p, s, r);
    TwoBursts(p, s, Opening(p), full);
  }

  lemma {:induction false} FirstBurst(p: Params, s: State, r: State) returns (full: State)
    requires ValidParams(p) && Step(p, s, Poll(0, true)) == r && |r.ring| == 1 && r.ring[0] == 0
    ensures RunOn(p, s, Opening(p)) == full && full.sent == r.sent + Times(p.period, p.n - 1)
    ensures |full.ring| == p.n && full.ring[0] == 0
  {
    full := FullRing(p, s, r, p.period, p.n - 1, Opening(p));
  }

  lemma {:induction false} FullRing(p: Params, s: State, r: State, t: int, k: nat, es: seq<Poll>) returns (full: State)
    requires Step(p, s, Poll(0, true)) == r && |r.ring| == 1 && r.ring[0] == 0 && t == p.period && k + 1 == p.n
    requires es == [Poll(0, true)] + Repeat(t, k)
    ensures RunOn(p, s, es) == full && full.sent == r.sent + Times(t, k) && |full.ring| == p.n && full.ring[0] == 0
  {
    full := SentMore(r, t, k);
    PollAndBurst(p, s, Poll(0, true), r, t, k, es);
    TimesLast(r.ring, t, k);
  }

  lemma {:induction false} WorstSent(p: Params)
    requires ValidParams(p)
    ensures Run(p, Worst(p)).sent
         == [0] + Times(p.period, p.n - 1) + ([p.period + 1] + Times(p.period + 1, p.n - 1))
  {
    FirstPoll(p);
    WorstFrom(p, State([], [], 0), State([0], [0], 0));
  }

  lemma {:induction false} Regroup(a: seq<int>, b: seq<int>, c: seq<int>)
    ensures a + b + c == a + (b + c)
  {
  }

  lemma {:induction false} SecondBurst(p: Params, s: State)
    requires ValidParams(p) && |s.ring| == p.n && s.ring[0] == 0
    ensures RunOn(p, s, Closing(p)).sent == s.sent + [p.period + 1] + Times(p.period + 1, p.n - 1)
  {
    var next := p.period + 1;
    PollRestarts(p, s, next);
    PollAndBurst(p, s, Poll(next, true), State([next], s.sent + [next], |s.sent|), next, p.n - 1, Closing(p));
  }

  lemma {:induction false} RepeatMonotone(t: int, k: nat)
    ensures |Repeat(t, k)| == k && forall i :: 0 <= i < k ==> Repeat(t, k)[i].at == t
  {
    if k > 0 {
      RepeatMonotone(t, k - 1);
    }
  }

  lemma {:induction false} WorstIsMonotone(p: Params)
    requires ValidParams(p)
    ensures Monotone(Worst(p))
  {
    RepeatMonotone(p.period, p.n - 1);
    RepeatMonotone(p.period + 1, p.n - 1);
  }

  /** The bound is exact for all parameters: a monotone run reaches it. */
  lemma {:induction false} WindowBoundIsReached(p: Params)
    requires ValidParams(p)
    ensures Monotone(Worst(p))
    ensures InWindow(Run(p, Worst(p)).sent, p.period, p.period + p.period) == 2 * p.n - 1
  {
    WorstIsMonotone(p);
    WorstSent(p);
    WorstWindow(p.period, p.period + 1, p.period + p.period, p.n - 1);
  }

  lemma {:induction false} WorstWindow(late: int, next: int, to: int, k: nat)
    requires 0 < late < next < to
    ensures InWindow([0] + Times(late, k) + ([next] + Times(next, k)), late, to) == 2 * k + 1
  {
    InWindowConcat([0] + Times(late, k), [next] + Times(next, k), late, to);
    InWindowConcat([next], Times(next, k), late, to);
    InWindowConcat([0], Times(late, k), late, to);
    InWindowTimes(late, k, late, to);
    InWindowTimes(next, k, late, to);
    InWindowOne(0, late, to);
    InWindowOne(next, late, to);
  }

  lemma {:induction false} InWindowOne(t: int, from: int, to: int)
    ensures InWindow([t], from, to) == if from <= t < to then 1 else 0
  {
    assert [t][..0] == [];
  }
}
