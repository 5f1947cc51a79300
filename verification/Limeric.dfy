/**
 LIMERIC, the adaptive rate control of TS 102 687 v1.2.1, section 5.4, over exact reals: a moving
 average of the channel load drives the permitted duty cycle, on a fixed grid of update times.
 */
module Limerics {
  import opened Options
  import opened DueList
  import opened ManualRuntimes
  import opened UnitIntervals

  datatype Params = Params(
    alpha: real, beta: real, deltaMax: real, deltaMin: real,
    gPlusMax: real, gMinusMax: real, target: real, interval: int)

  datatype DualAlpha = DualAlpha(alternate: real, threshold: real)

  ghost predicate ValidParams(p: Params) {
    && IsUnit(p.alpha) && IsUnit(p.beta) && IsUnit(p.target)
    && 0.0 <= p.deltaMin <= p.deltaMax <= 1.0
    && p.gMinusMax <= 0.0 <= p.gPlusMax
    && p.interval > 0
  }

  function Mean(xs: seq<real>): real {
    Limit(if |xs| > 1 then Sum(xs) / |xs| as real else Sum(xs))
  }

  // cbr: the ring of the latest two measurements
  datatype State = State(load: real, duty: real, cbr: seq<real>)

  function Initial(p: Params): State {
    State(0.0, Limit(0.5 * (p.deltaMax + p.deltaMin)), [])
  }

  /** The ring with one more measurement. */
  function Pushed(cbr: seq<real>, x: real): seq<real> {
    if |cbr| >= 2 then cbr[1..] + [x] else cbr + [x]
  }

  function AfterSample(s: State, x: real): State {
    var cbr := Pushed(s.cbr, x);
    State(if |s.cbr| >= 2 then s.load else Mean(cbr), s.duty, cbr)
  }

  function AverageCbr(s: State): real {
    if |s.cbr| >= 2 then Limit(Limit(0.5 * Mean(s.cbr)) + Limit(0.5 * s.load)) else s.load
  }

  /** An upper limit for positive distances, a lower limit for the others. */
  function Cut(lo: real, hi: real, d: real, u: real): real {
    if d > 0.0 then Min(u, hi) else Max(u, lo)
  }

  /** The offset for a distance from the target load: beta times the distance, within the gain limits. */
  function Gain(p: Params, d: real): real {
    Cut(p.gMinusMax, p.gPlusMax, d, p.beta * d)
  }

  function Offset(p: Params, load: real): real {
    Gain(p, p.target - load)
  }

  function Complement(x: real): real {
    1.0 - x
  }

  function Limited(p: Params, x: real, offset: real): real {
    Clamp(p.deltaMin, p.deltaMax, Limit(x + offset))
  }

  /** The duty cycle that keeps a share of the previous one and follows the load. */
  function DutyWith(p: Params, kept: real, duty: real, load: real): real {
    Limited(p, kept * duty, Offset(p, load))
  }

  function NextDuty(p: Params, dual: Option<DualAlpha>, duty: real, load: real): real {
    var delta := DutyWith(p, Complement(p.alpha), duty, load);
    if dual.Some? && Limit(duty - delta) > dual.value.threshold
    then DutyWith(p, Complement(dual.value.alternate), duty, load)
    else delta
  }

  function AfterUpdate(p: Params, dual: Option<DualAlpha>, s: State): State {
    var load := AverageCbr(s);
    State(load, NextDuty(p, dual, s.duty, load), s.cbr)
  }

  /** Load and duty cycle are within their bounds. */
  ghost predicate Inv(p: Params, s: State) {
    && IsUnit(s.load) && p.deltaMin <= s.duty <= p.deltaMax
    && |s.cbr| <= 2 && (forall i :: 0 <= i < |s.cbr| ==> IsUnit(s.cbr[i]))
  }

  /** The mean of the first measurements. */
  lemma {:induction false} FirstLoads(cbr: seq<real>, x: real)
    ensures cbr == [] && IsUnit(x) ==> Mean(cbr + [x]) == x
    ensures |cbr| == 1 && IsUnit(cbr[0]) && IsUnit(x) ==> Mean(cbr + [x]) == (cbr[0] + x) / 2.0
  {
    if cbr == [] {
      SumOfOne(x);
      assert cbr + [x] == [x];
    } else if |cbr| == 1 {
      SumOfTwo(cbr[0], x);
      assert cbr + [x] == [cbr[0], x];
      HalfIsUnit(cbr[0] + x);
    }
  }

  lemma {:induction false} SumOfOne(x: real)
    ensures Sum([x]) == x
  {
    assert [x][..0] == [];
  }

  lemma {:induction false} SumOfTwo(x: real, y: real)
    ensures Sum([x, y]) == x + y
  {
    SumOfOne(x);
    assert [x, y][..1] == [x];
  }

  lemma {:induction false} HalfIsUnit(s: real)
    ensures 0.0 <= s <= 2.0 ==> Limit(s / 2.0) == s / 2.0
  {
  }

  lemma {:induction false} DutyInRange(p: Params, kept: real, duty: real, load: real)
    requires ValidParams(p)
    ensures p.deltaMin <= DutyWith(p, kept, duty, load) <= p.deltaMax
  {
  }

  /** Halfway between the bounds of the duty cycle. */
  lemma {:induction false} InitialInv(p: Params)
    requires ValidParams(p)
    ensures Inv(p, Initial(p))
    ensures Initial(p).duty - p.deltaMin == p.deltaMax - Initial(p).duty
  {
  }

  /** One measurement or update, with or without dual alpha, keeps load and duty cycle within their bounds. */
  lemma {:induction false} StepInv(p: Params, dual: Option<DualAlpha>, s: State, x: real)
    requires ValidParams(p) && Inv(p, s) && IsUnit(x)
    ensures Inv(p, AfterSample(s, x)) && Inv(p, AfterUpdate(p, dual, s))
  {
    var load := AverageCbr(s);
    DutyInRange(p, Complement(p.alpha), s.duty, load);
    if dual.Some? {
      DutyInRange(p, Complement(dual.value.alternate), s.duty, load);
    }
  }

  // ---- the update grid ----

  /** Remainder that takes the sign of the dividend. */
  function Rem(a: int, b: int): int
    requires b > 0
  {
    if a >= 0 then a % b else -((-a) % b)
  }

  function NextUpdate(interval: int, now: int): int
    requires interval > 0
  {
    var tp := now + 2 * interval;
    var bias := Rem(tp, 2 * interval);
    if bias > interval then tp + (2 * interval - bias)
    else if bias > 0 then tp - bias
    else tp
  }

  class Limeric {
    const params: Params
    const runtime: ManualRuntime
    var dual: Option<DualAlpha>
    var load: real
    var duty: real
    var cbr: seq<real>

    function S(): State
      reads this
    {
      State(load, duty, cbr)
    }

    constructor (params: Params, runtime: ManualRuntime)
      requires ValidParams(params)
      modifies runtime`queue
      ensures this.params == params && this.runtime == runtime
      ensures S() == Initial(params) && dual == None
      ensures runtime.queue == Insert(old(runtime.queue), Due(NextUpdate(params.interval, runtime.now), NO_SCOPE))
    {
      this.params, this.runtime := params, runtime;
      dual, load, cbr := None, 0.0, [];
      duty := Limit(0.5 * (params.deltaMax + params.deltaMin));
      new;
      Schedule();
    }

    /** The latest two measurements are kept; the load follows them only until there are two. */
    method UpdateCbr(x: real)
      modifies this
      ensures S() == AfterSample(old(S()), x) && dual == old(dual) && duty == old(duty)
      ensures |old(cbr)| < 2 ==> cbr == old(cbr) + [x]
      ensures |old(cbr)| == 2 ==> cbr == [old(cbr)[1], x]
      ensures |old(cbr)| == 2 ==> load == old(load)
      ensures IsUnit(x) && |old(cbr)| == 0 ==> load == x
      ensures IsUnit(x) && |old(cbr)| == 1 && IsUnit(old(cbr)[0]) ==> load == (old(cbr)[0] + x) / 2.0
      ensures ValidParams(params) && Inv(params, old(S())) && IsUnit(x) ==> Inv(params, S())
    {
      if ValidParams(params) && Inv(params, S()) && IsUnit(x) {
        StepInv(params, dual, S(), x);
      }
      FirstLoads(cbr, x);
      var full := |cbr| >= 2;
      if full {
        cbr := cbr[1..];
      }
      cbr := cbr + [x];
      if !full {
        load := Mean(cbr);
      }
    }

    /** Load and duty cycle stay within their bounds, and the next update is scheduled on the grid. */
    method Calculate()
      requires ValidParams(params)
      modifies this, runtime`queue
      ensures S() == AfterUpdate(params, dual, old(S())) && dual == old(dual)
      ensures Inv(params, old(S())) ==> Inv(params, S())
      ensures runtime.now >= -2 * params.interval ==>
                NextUpdate(params.interval, runtime.now) % (2 * params.interval) == 0
      ensures runtime.queue == Insert(old(runtime.queue), Due(NextUpdate(params.interval, runtime.now), NO_SCOPE))
    {
      if Inv(params, S()) {
        StepInv(params, dual, S(), 0.0);
      }
      if runtime.now >= -2 * params.interval {
        NextUpdateOnGrid(params.interval, runtime.now);
      }
      load := AverageCbr(S());
      duty := NextDuty(params, dual, duty, load);
      Schedule();
    }

    method Schedule()
      requires ValidParams(params)
      modifies runtime`queue
      ensures runtime.queue == Insert(old(runtime.queue), Due(NextUpdate(params.interval, runtime.now), NO_SCOPE))
    {
      var slot := 2 * params.interval;
      var tp := runtime.now + slot;
      var bias := Rem(tp, slot);
      if bias > params.interval {
        tp := tp + (slot - bias);
      } else if bias > 0 {
        tp := tp - bias;
      }
      assert tp == NextUpdate(params.interval, runtime.now);
      runtime.Schedule(tp, NO_SCOPE);
    }
  }

  lemma {:induction false} SmallMultiple(b: int, k: int)
    requires b > 0 && -b < b * k < b
    ensures k == 0
  {
  }

  lemma {:induction false} Multiple(a: int, b: int, q: int)
    requires b > 0 && a == b * q
    ensures a % b == 0
  {
    var k, r := a / b, a % b;
    assert a == b * k + r;
    assert b * (q - k) == b * q - b * k;
    SmallMultiple(b, q - k);
  }

  lemma {:induction false} RemainderRange(a: int, b: int)
    requires b > 0
    ensures 0 <= a % b < b
    ensures (a - a % b) % b == 0
  {
    Multiple(a - a % b, b, a / b);
  }

  lemma {:induction false} MultiplePlus(a: int, b: int)
    requires b > 0 && a % b == 0
    ensures (a + b) % b == 0
  {
    var q := a / b;
    assert a == b * q;
    assert b * (q + 1) == b * q + b;
    Multiple(a + b, b, q + 1);
  }

  /** Two multiples of b that are less than two apart either way but not equal differ by b. */
  lemma {:induction false} NextMultiple(a: int, n: int, b: int)
    requires b > 0 && a % b == 0 && n % b == 0 && a < n < a + 2 * b
    ensures n == a + b
  {
    var q, k := a / b, n / b;
    assert a == b * q && n == b * k;
    assert b * (k - q - 1) == b * k - b * q - b;
    SmallMultiple(b, k - q - 1);
  }

  /** Updates are scheduled on multiples of two measurement intervals, one to three intervals ahead. */
  lemma {:induction false} NextUpdateOnGrid(interval: int, now: int)
    requires interval > 0 && now >= -2 * interval
    ensures NextUpdate(interval, now) % (2 * interval) == 0
    ensures now + interval <= NextUpdate(interval, now) < now + 3 * interval
  {
    var slot := 2 * interval;
    var tp := now + slot;
    RemainderRange(tp, slot);
    MultiplePlus(tp - tp % slot, slot);
  }

  /** A late update for grid point g hits the next grid point if and only if it is at most one interval late. */
  lemma {:induction false} NextUpdateIsConsecutive(interval: int, g: int, late: nat)
    requires interval > 0 && g >= 0 && g % (2 * interval) == 0
    ensures NextUpdate(interval, g + late) == g + 2 * interval <==> late <= interval
  {
    NextUpdateOnGrid(interval, g + late);
    if late <= interval {
      NextMultiple(g, NextUpdate(interval, g + late), 2 * interval);
    }
  }

  /** The deadlines of successive updates, each running `late[i]` after its deadline. */
  function Deadline(interval: int, first: int, late: seq<nat>): int
    requires interval > 0
  {
    if late == [] then first
    else NextUpdate(interval, Deadline(interval, first, late[..|late| - 1]) + late[|late| - 1])
  }

  lemma {:induction false} OneMore(k: int, slot: int)
    ensures (k + 1) * slot == k * slot + slot
  {
  }

  /** While no update runs more than one interval late, the updates hit consecutive grid points. */
  lemma {:induction false} GridHasNoSkips(interval: int, first: int, late: seq<nat>)
    requires interval > 0 && first >= 0 && first % (2 * interval) == 0
    requires forall i :: 0 <= i < |late| ==> late[i] <= interval
    ensures Deadline(interval, first, late) == first + |late| * (2 * interval)
    ensures Deadline(interval, first, late) % (2 * interval) == 0
    decreases |late|
  {
    if late != [] {
      var before := late[..|late| - 1];
      GridHasNoSkips(interval, first, before);
      var g := Deadline(interval, first, before);
      NextUpdateIsConsecutive(interval, g, late[|late| - 1]);
      MultiplePlus(g, 2 * interval);
      OneMore(|before|, 2 * interval);
    }
  }
}
