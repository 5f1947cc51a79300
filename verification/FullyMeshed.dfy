/**
 The fully meshed state machine of TS 102 687 v1.1.1: relaxed, five active substates and
 restrictive, driven by the minimum load of the last second and the maximum of the last five.
 */
module FullyMeshed {

  const SAMPLES_UP: nat := 10
  const SAMPLES_DOWN: nat := 50
  const MIN_LOAD: real := 0.19
  const MAX_LOAD: real := 0.59
  const THRESHOLDS: seq<real> := [0.27, 0.35, 0.43, 0.51, 0.59]

  datatype Mode = Relaxed | Active | Restrictive

  // loads: the ring of the latest measurements, newest first
  datatype Machine = Machine(mode: Mode, substate: nat, loads: seq<real>)

  predicate IsLoad(x: real) { 0.0 <= x <= 1.0 }

  function Window(loads: seq<real>, n: nat): seq<real> {
    if |loads| <= n then loads else loads[..n]
  }

  function MinOf(xs: seq<real>): (m: real)
    ensures xs != [] ==> m in xs
    ensures forall i :: 0 <= i < |xs| ==> m <= xs[i]
  {
    if xs == [] then 0.0
    else if |xs| == 1 then xs[0]
    else
      var m := MinOf(xs[..|xs| - 1]);
      assert xs[..|xs| - 1] + [xs[|xs| - 1]] == xs;
      if xs[|xs| - 1] < m then xs[|xs| - 1] else m
  }

  function MaxOf(xs: seq<real>): (m: real)
    ensures m == 0.0 || m in xs
    ensures 0.0 <= m && forall i :: 0 <= i < |xs| ==> xs[i] <= m
  {
    if xs == [] then 0.0
    else
      var m := MaxOf(xs[..|xs| - 1]);
      assert xs[..|xs| - 1] + [xs[|xs| - 1]] == xs;
      if xs[|xs| - 1] > m then xs[|xs| - 1] else m
  }

  function LowLoad(loads: seq<real>): real { MinOf(Window(loads, SAMPLES_UP)) }
  function HighLoad(loads: seq<real>): real { MaxOf(Window(loads, SAMPLES_DOWN)) }

  /** Number of thresholds that a load has reached. */
  function Reached(ts: seq<real>, x: real): (k: nat)
    ensures k <= |ts|
    ensures forall i :: 0 <= i < k ==> ts[i] <= x
    ensures k < |ts| ==> x < ts[k]
  {
    if ts == [] || x < ts[0] then 0 else 1 + Reached(ts[1..], x)
  }

  function Substate(low: real, high: real): nat {
    var up, down := Reached(THRESHOLDS, low), Reached(THRESHOLDS, high);
    var k := if up < down then down else up;
    if k < |THRESHOLDS| - 1 then k else |THRESHOLDS| - 1
  }

  function Push(loads: seq<real>, x: real): seq<real> {
    Window([x] + loads, SAMPLES_DOWN)
  }

  function After(m: Machine, x: real): Machine {
    var loads := Push(m.loads, x);
    var low, high := LowLoad(loads), HighLoad(loads);
    var active := Machine(Active, Substate(low, high), loads);
    match m.mode
    case Relaxed => if low >= MIN_LOAD then active else m.(loads := loads)
    case Restrictive => if high < MAX_LOAD then active else m.(loads := loads)
    case Active =>
      if high < MIN_LOAD then m.(mode := Relaxed, loads := loads)
      else if low >= MAX_LOAD then m.(mode := Restrictive, loads := loads)
      else active
  }

  class FullyMeshedStateMachine {
    var mode: Mode
    var substate: nat
    var loads: seq<real>

    function S(): Machine
      reads this
    {
      Machine(mode, substate, loads)
    }

    constructor ()
      ensures S() == Machine(Relaxed, 0, [])
    {
      mode, substate, loads := Relaxed, 0, [];
    }

    /** The smallest of the newest samples, zero if there are none. */
    method MinChannelLoad() returns (low: real)
      ensures low == LowLoad(loads)
    {
      low := 0.0;
      var count := 0;
      var w := Window(loads, SAMPLES_UP);
      while count < |loads| && count < SAMPLES_UP
        invariant count <= |w| && (count < |loads| && count < SAMPLES_UP <==> count < |w|)
        invariant low == MinOf(w[..count])
      {
        assert w[..count + 1][..count] == w[..count];
        assert loads[count] == w[..count + 1][count];
        if count == 0 || loads[count] < low {
          low := loads[count];
        }
        count := count + 1;
      }
      assert w[..count] == w;
    }

    method MaxChannelLoad() returns (high: real)
      ensures high == HighLoad(loads)
    {
      high := 0.0;
      var count := 0;
      var w := Window(loads, SAMPLES_DOWN);
      while count < |loads| && count < SAMPLES_DOWN
        invariant count <= |w| && (count < |loads| && count < SAMPLES_DOWN <==> count < |w|)
        invariant high == MaxOf(w[..count])
      {
        assert w[..count + 1][..count] == w[..count];
        assert loads[count] == w[..count + 1][count];
        if loads[count] > high {
          high := loads[count];
        }
        count := count + 1;
      }
      assert w[..count] == w;
    }

    method ActiveUpdate(low: real, high: real)
      requires low <= high
      modifies this
      ensures S() == Machine(Active, Substate(low, high), old(loads))
    {
      mode := Active;
      substate := Substate(low, high);
    }

    method Update(x: real)
      requires IsLoad(x) && forall i :: 0 <= i < |loads| ==> IsLoad(loads[i])
      modifies this
      ensures S() == After(old(S()), x)
      ensures mode == old(mode) || mode == Active || old(mode) == Active
    {
      loads := Push(loads, x);
      var low := MinChannelLoad();
      var high := MaxChannelLoad();
      LowIsBelowHigh(loads);
      match mode
      case Relaxed =>
        if low >= MIN_LOAD {
          ActiveUpdate(low, high);
        }
      case Restrictive =>
        if high < MAX_LOAD {
          ActiveUpdate(low, high);
        }
      case Active =>
        if high < MIN_LOAD {
          mode := Relaxed;
        } else if low >= MAX_LOAD {
          mode := Restrictive;
        } else {
          ActiveUpdate(low, high);
        }
    }
  }

  /** The minimum of the short window never exceeds the maximum of the long one. */
  lemma {:induction false} LowIsBelowHigh(loads: seq<real>)
    requires forall i :: 0 <= i < |loads| ==> IsLoad(loads[i])
    ensures LowLoad(loads) <= HighLoad(loads)
  {
    if loads != [] {
      var a, b := Window(loads, SAMPLES_UP), Window(loads, SAMPLES_DOWN);
      assert MinOf(a) <= a[0] && b[0] <= MaxOf(b);
    }
  }

  lemma {:induction false} ReachedMonotone(ts: seq<real>, x: real, y: real)
    requires x <= y
    ensures Reached(ts, x) <= Reached(ts, y)
  {
    if ts != [] && ts[0] <= x {
      ReachedMonotone(ts[1..], x, y);
    }
  }

  /** The active substate depends on the five second maximum only. */
  lemma {:induction false} SubstateFollowsHigh(low: real, high: real)
    requires low <= high
    ensures Substate(low, high) == if high < 0.27 then 0 else if high < 0.35 then 1 else if high < 0.43 then 2
                                   else if high < 0.51 then 3 else 4
  {
    ReachedMonotone(THRESHOLDS, low, high);
    var k := Reached(THRESHOLDS, high);
    assert k < 5 ==> high < THRESHOLDS[k];
    assert k > 0 ==> THRESHOLDS[k - 1] <= high;
  }

  // ---- runs ----

  function Run(xs: seq<real>): Machine {
    if xs == [] then Machine(Relaxed, 0, []) else After(Run(xs[..|xs| - 1]), xs[|xs| - 1])
  }

  ghost predicate Loads(xs: seq<real>) {
    forall i :: 0 <= i < |xs| ==> IsLoad(xs[i])
  }

  lemma {:induction false} AfterLoads(m: Machine, x: real)
    ensures After(m, x).loads == Push(m.loads, x)
    ensures After(m, x).mode == Restrictive ==> m.mode == Restrictive || LowLoad(Push(m.loads, x)) >= MAX_LOAD
  {
  }

  /** The latest measurements, newest first. */
  ghost predicate IsRing(loads: seq<real>, xs: seq<real>) {
    && |loads| == (if |xs| < SAMPLES_DOWN then |xs| else SAMPLES_DOWN)
    && forall i :: 0 <= i < |loads| ==> loads[i] == xs[|xs| - 1 - i]
  }

  lemma {:induction false} PushRing(loads: seq<real>, xs: seq<real>, x: real)
    requires IsRing(loads, xs)
    ensures IsRing(Push(loads, x), xs + [x])
  {
  }

  function Ring(xs: seq<real>): seq<real> {
    if xs == [] then [] else Push(Ring(xs[..|xs| - 1]), xs[|xs| - 1])
  }

  lemma {:induction false} RingIsLatest(xs: seq<real>)
    ensures IsRing(Ring(xs), xs)
    decreases |xs|
  {
    if xs != [] {
      var before, x := xs[..|xs| - 1], xs[|xs| - 1];
      RingIsLatest(before);
      PushRing(Ring(before), before, x);
      assert before + [x] == xs;
    }
  }

  lemma {:induction false} LoadsAreRing(xs: seq<real>)
    ensures Run(xs).loads == Ring(xs)
    decreases |xs|
  {
    if xs != [] {
      LoadsAreRing(xs[..|xs| - 1]);
      AfterLoads(Run(xs[..|xs| - 1]), xs[|xs| - 1]);
    }
  }

  lemma {:induction false} RunRing(xs: seq<real>)
    ensures IsRing(Run(xs).loads, xs)
  {
    LoadsAreRing(xs);
    RingIsLatest(xs);
  }

  /** A restrictive state has seen a high load. */
  lemma {:induction false} RestrictiveSawHigh(xs: seq<real>)
    requires Run(xs).mode == Restrictive
    ensures exists i :: 0 <= i < |xs| && xs[i] >= MAX_LOAD
    decreases |xs|
  {
    if xs != [] {
      var before, x := xs[..|xs| - 1], xs[|xs| - 1];
      var m := Run(before);
      AfterLoads(m, x);
      if m.mode == Restrictive {
        RestrictiveSawHigh(before);
        var i :| 0 <= i < |before| && before[i] >= MAX_LOAD;
        assert xs[i] == before[i];
      } else {
        assert Window(Push(m.loads, x), SAMPLES_UP)[0] == x;
      }
    }
  }

  /** The last n loads all satisfy a bound. */
  ghost predicate LastAtLeast(xs: seq<real>, n: nat, t: real) {
    forall i :: 0 <= i < |xs| && i >= |xs| - n ==> xs[i] >= t
  }

  ghost predicate LastBelow(xs: seq<real>, n: nat, t: real) {
    forall i :: 0 <= i < |xs| && i >= |xs| - n ==> xs[i] < t
  }

  lemma {:induction false} HighWindows(xs: seq<real>, t: real)
    requires Loads(xs) && xs != []
    ensures LowLoad(Run(xs).loads) >= t <==> LastAtLeast(xs, SAMPLES_UP, t)
    ensures xs[|xs| - 1] >= t ==> HighLoad(Run(xs).loads) >= t
  {
    RunRing(xs);
    var loads := Run(xs).loads;
    var w := Window(loads, SAMPLES_UP);
    if LastAtLeast(xs, SAMPLES_UP, t) {
      var k :| 0 <= k < |w| && w[k] == MinOf(w);
      assert w[k] == loads[k] == xs[|xs| - 1 - k];
    }
    if LowLoad(loads) >= t {
      forall i | 0 <= i < |xs| && i >= |xs| - SAMPLES_UP ensures xs[i] >= t {
        assert w[|xs| - 1 - i] == loads[|xs| - 1 - i] == xs[i];
      }
    }
    assert Window(loads, SAMPLES_DOWN)[0] == xs[|xs| - 1];
  }

  lemma {:induction false} LowWindows(xs: seq<real>, t: real)
    requires Loads(xs) && xs != [] && t > 0.0
    ensures HighLoad(Run(xs).loads) < t <==> LastBelow(xs, SAMPLES_DOWN, t)
  {
    RunRing(xs);
    var loads := Run(xs).loads;
    var w := Window(loads, SAMPLES_DOWN);
    if LastBelow(xs, SAMPLES_DOWN, t) {
      if MaxOf(w) != 0.0 {
        var k :| 0 <= k < |w| && w[k] == MaxOf(w);
        assert w[k] == loads[k] == xs[|xs| - 1 - k];
      }
    }
    if HighLoad(loads) < t {
      forall i | 0 <= i < |xs| && i >= |xs| - SAMPLES_DOWN ensures xs[i] < t {
        assert w[|xs| - 1 - i] == loads[|xs| - 1 - i] == xs[i];
      }
    }
  }

  /** From any reachable state, 11 consecutive loads of at least 0.59 force the restrictive state. */
  lemma {:induction false} ElevenHighLoadsRestrict(xs: seq<real>)
    requires Loads(xs) && |xs| >= SAMPLES_UP + 1 && LastAtLeast(xs, SAMPLES_UP + 1, MAX_LOAD)
    ensures Run(xs).mode == Restrictive
  {
    var before := xs[..|xs| - 1];
    TenHighLoadsActivate(before);
    HighWindows(xs, MAX_LOAD);
  }

  lemma {:induction false} TenHighLoadsActivate(xs: seq<real>)
    requires Loads(xs) && xs != [] && LastAtLeast(xs, SAMPLES_UP, MIN_LOAD)
    ensures Run(xs).mode != Relaxed
  {
    HighWindows(xs, MIN_LOAD);
    AfterLoads(Run(xs[..|xs| - 1]), xs[|xs| - 1]);
  }

  /** From any reachable state, 51 consecutive loads below 0.19 force the relaxed state. */
  lemma {:induction false} FiftyOneLowLoadsRelax(xs: seq<real>)
    requires Loads(xs) && |xs| >= SAMPLES_DOWN + 1 && LastBelow(xs, SAMPLES_DOWN + 1, MIN_LOAD)
    ensures Run(xs).mode == Relaxed
  {
    var before := xs[..|xs| - 1];
    assert LastBelow(before, SAMPLES_DOWN, MAX_LOAD);
    FiftyLowLoadsLeaveRestrictive(before);
    LowWindows(xs, MIN_LOAD);
    RunRing(xs);
    LowIsBelowHigh(Run(xs).loads);
  }

  lemma {:induction false} FiftyLowLoadsLeaveRestrictive(xs: seq<real>)
    requires Loads(xs) && |xs| >= SAMPLES_DOWN && LastBelow(xs, SAMPLES_DOWN, MAX_LOAD)
    ensures Run(xs).mode != Restrictive
  {
    LowWindows(xs, MAX_LOAD);
  }

  /** The restrictive state is left exactly when the last 50 loads are all below 0.59, and there are 50. */
  lemma {:induction false} RestrictiveIsLeftAfterFifty(xs: seq<real>, x: real)
    requires Loads(xs + [x]) && Run(xs).mode == Restrictive
    ensures Run(xs + [x]).mode != Restrictive
       <==> |xs + [x]| >= SAMPLES_DOWN && LastBelow(xs + [x], SAMPLES_DOWN, MAX_LOAD)
    ensures Run(xs + [x]).mode != Relaxed
  {
    var ys := xs + [x];
    assert ys[..|ys| - 1] == xs;
    LowWindows(ys, MAX_LOAD);
    assert Loads(xs) by {
      forall i | 0 <= i < |xs| ensures IsLoad(xs[i]) {
        assert ys[i] == xs[i];
      }
    }
    RestrictiveSawHigh(xs);
    if |ys| < SAMPLES_DOWN {
      var i :| 0 <= i < |xs| && xs[i] >= MAX_LOAD;
      assert ys[i] == xs[i];
    }
  }

  // ---- the machine, told by its measurements ----

  /** The mode after one more measurement, by the last ten and the last fifty of them. */
  ghost function NextMode(mode: Mode, xs: seq<real>): Mode {
    match mode
    case Relaxed => if LastAtLeast(xs, 10, 0.19) then Active else Relaxed
    case Restrictive => if LastBelow(xs, 50, 0.59) then Active else Restrictive
    case Active =>
      if LastBelow(xs, 50, 0.19) then Relaxed
      else if LastAtLeast(xs, 10, 0.59) then Restrictive
      else Active
  }

  /** In every run each mode is left exactly by the measurements that the standard names, for the mode it names. */
  lemma {:induction false} ModeFollowsLoads(xs: seq<real>)
    requires Loads(xs) && xs != []
    ensures Run(xs).mode == NextMode(Run(xs[..|xs| - 1]).mode, xs)
  {
    HighWindows(xs, 0.19);
    HighWindows(xs, 0.59);
    LowWindows(xs, 0.19);
    LowWindows(xs, 0.59);
    AfterLoads(Run(xs[..|xs| - 1]), xs[|xs| - 1]);
  }

  /** The number of thresholds below the highest one that one of the last fifty loads has reached. */
  ghost predicate IsLevel(xs: seq<real>, k: nat) {
    && k <= 4
    && (k > 0 <==> !LastBelow(xs, 50, 0.27)) && (k > 1 <==> !LastBelow(xs, 50, 0.35))
    && (k > 2 <==> !LastBelow(xs, 50, 0.43)) && (k > 3 <==> !LastBelow(xs, 50, 0.51))
  }

  /** In every run the substate of the active state is given by the highest of the last fifty loads. */
  lemma {:induction false} SubstateFollowsLoads(xs: seq<real>)
    requires Loads(xs) && Run(xs).mode == Active
    ensures IsLevel(xs, Run(xs).substate)
  {
    if xs != [] {
      var loads := Run(xs).loads;
      RunRing(xs);
      LowIsBelowHigh(loads);
      SubstateFollowsHigh(LowLoad(loads), HighLoad(loads));
      ActiveSubstate(Run(xs[..|xs| - 1]), xs[|xs| - 1]);
      LowWindows(xs, 0.27);
      LowWindows(xs, 0.35);
      LowWindows(xs, 0.43);
      LowWindows(xs, 0.51);
    }
  }

  lemma {:induction false} ActiveSubstate(m: Machine, x: real)
    requires After(m, x).mode == Active
    ensures var r := After(m, x); r.substate == Substate(LowLoad(r.loads), HighLoad(r.loads))
  {
  }
}
