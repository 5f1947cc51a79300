/**
 The control law of LIMERIC: more load never permits a higher duty cycle, and under a constant load
 every instance settles at the same duty cycle.
 */
module LimericControl {
  import opened Options
  import opened Limerics
  import opened LimericConvergence
  import opened UnitIntervals

  // ---- the offset ----

  lemma {:induction false} Sign(c: real, d: real, u: real)
    requires c >= 0.0 && u == c * d
    ensures (d > 0.0 ==> u >= 0.0) && (d <= 0.0 ==> u <= 0.0)
  {
    SignOfProduct(c, d);
  }

  /** The offset is beta times the distance of the load below its target, within the gain limits. */
  lemma {:induction false} OffsetIsClamped(p: Params, load: real)
    requires ValidParams(p)
    ensures Offset(p, load) == Clamp(p.gMinusMax, p.gPlusMax, p.beta * (p.target - load))
  {
    OffsetFrom(p, load, p.target - load, p.beta * (p.target - load));
  }

  lemma {:induction false} OffsetFrom(p: Params, load: real, d: real, u: real)
    requires ValidParams(p) && d == p.target - load && u == p.beta * d
    ensures Offset(p, load) == Clamp(p.gMinusMax, p.gPlusMax, u)
  {
    Sign(p.beta, d, u);
  }

  lemma {:induction false} ClampGrows(lo: real, hi: real, x: real, y: real)
    requires x <= y
    ensures Clamp(lo, hi, x) <= Clamp(lo, hi, y)
  {
  }

  lemma {:induction false} OffsetFalls(p: Params, low: real, high: real)
    requires ValidParams(p) && low <= high
    ensures Offset(p, high) <= Offset(p, low)
  {
    OffsetsFall(p, low, high, p.target - high, p.target - low);
  }

  lemma {:induction false} OffsetsFall(p: Params, low: real, high: real, d: real, e: real)
    requires ValidParams(p) && d == p.target - high && e == p.target - low && d <= e
    ensures Offset(p, high) <= Offset(p, low)
  {
    var u, v := InProportion(p.beta, d, e);
    OffsetFrom(p, high, d, u);
    OffsetFrom(p, low, e, v);
    ClampGrows(p.gMinusMax, p.gPlusMax, u, v);
  }

  lemma {:induction false} InProportion(c: real, x: real, y: real) returns (u: real, v: real)
    requires c >= 0.0 && x <= y
    ensures u == c * x && v == c * y && u <= v
  {
    u, v := c * x, c * y;
    MulMono(c, x, y);
  }

  lemma {:induction false} NoOffsetAtTarget(p: Params)
    requires ValidParams(p)
    ensures Offset(p, p.target) == 0.0
  {
    OffsetIsClamped(p, p.target);
    assert p.target - p.target == 0.0 && p.beta * 0.0 == 0.0;
  }

  // ---- one update ----

  /** The duty cycle that remains without any offset. */
  function Decayed(p: Params, kept: real, duty: real): real {
    Clamp(p.deltaMin, p.deltaMax, Limit(kept * duty))
  }

  lemma {:induction false} LimitedGrows(p: Params, x: real, y: real, a: real, b: real)
    requires x <= y && a <= b
    ensures Limited(p, x, a) <= Limited(p, y, b)
  {
  }

  lemma {:induction false} DutyFalls(p: Params, kept: real, duty: real, low: real, high: real)
    requires ValidParams(p) && low <= high
    ensures DutyWith(p, kept, duty, high) <= DutyWith(p, kept, duty, low)
  {
    OffsetFalls(p, low, high);
    LimitedGrows(p, kept * duty, kept * duty, Offset(p, high), Offset(p, low));
  }

  /** A load above the target pushes the duty cycle down, one below it pushes it up. */
  lemma {:induction false} DutyFollowsTarget(p: Params, kept: real, duty: real, load: real)
    requires ValidParams(p)
    ensures load >= p.target ==> DutyWith(p, kept, duty, load) <= Decayed(p, kept, duty)
    ensures load <= p.target ==> DutyWith(p, kept, duty, load) >= Decayed(p, kept, duty)
  {
    NoOffsetAtTarget(p);
    if load >= p.target {
      DutyFalls(p, kept, duty, p.target, load);
    }
    if load <= p.target {
      DutyFalls(p, kept, duty, load, p.target);
    }
  }

  lemma {:induction false} LessIsKept(p: Params, a: real, b: real, duty: real, load: real)
    requires a <= b && duty >= 0.0
    ensures DutyWith(p, a, duty, load) <= DutyWith(p, b, duty, load)
  {
    MulMono(duty, a, b);
    LimitedGrows(p, a * duty, b * duty, Offset(p, load), Offset(p, load));
  }

  ghost predicate ValidDual(dual: Option<DualAlpha>) {
    dual.Some? ==> IsUnit(dual.value.alternate) && IsUnit(dual.value.threshold)
  }

  /** The parameters that decide the next duty cycle: alternate alpha, if alpha lowers it by more than the threshold. */
  function Deciding(p: Params, dual: Option<DualAlpha>, duty: real, load: real): Params {
    if dual.Some? && duty - NextDuty(p, None, duty, load) > dual.value.threshold
    then p.(alpha := dual.value.alternate)
    else p
  }

  /** Dual alpha means running with one of two alphas. */
  lemma {:induction false} DualIsSingle(p: Params, dual: Option<DualAlpha>, duty: real, load: real)
    requires ValidParams(p) && ValidDual(dual) && IsUnit(duty)
    ensures ValidParams(Deciding(p, dual, duty, load))
    ensures NextDuty(p, dual, duty, load) == NextDuty(Deciding(p, dual, duty, load), None, duty, load)
  {
    DutyInRange(p, Complement(p.alpha), duty, load);
    if dual.Some? {
      SameOffset(p, p.(alpha := dual.value.alternate), load);
    }
  }

  lemma {:induction false} SameOffset(p: Params, q: Params, load: real)
    requires ValidParams(p) && ValidParams(q) && q == p.(alpha := q.alpha)
    ensures Offset(p, load) == Offset(q, load)
  {
    var d := p.target - load;
    OffsetFrom(p, load, d, p.beta * d);
    OffsetFrom(q, load, d, p.beta * d);
  }

  /** With either alpha, a load above the target lowers the duty cycle at least as it decays, one below at most so. */
  lemma {:induction false} NextDutyFollowsTarget(p: Params, dual: Option<DualAlpha>, duty: real, load: real)
    requires ValidParams(p) && ValidDual(dual) && IsUnit(duty)
    ensures var decayed := Decayed(p, Complement(Deciding(p, dual, duty, load).alpha), duty);
      && (load >= p.target ==> NextDuty(p, dual, duty, load) <= decayed)
      && (load <= p.target ==> NextDuty(p, dual, duty, load) >= decayed)
  {
    DualIsSingle(p, dual, duty, load);
    var q := Deciding(p, dual, duty, load);
    DutyFollowsTarget(q, Complement(q.alpha), duty, load);
  }

  /** More load never permits a higher duty cycle, if the alternate alpha is not the smaller one. */
  lemma {:induction false} NextDutyFalls(p: Params, dual: Option<DualAlpha>, duty: real, low: real, high: real)
    requires ValidParams(p) && duty >= 0.0 && low <= high && (dual.Some? ==> dual.value.alternate >= p.alpha)
    ensures NextDuty(p, dual, duty, high) <= NextDuty(p, dual, duty, low)
  {
    DutyFalls(p, Complement(p.alpha), duty, low, high);
    if dual.Some? {
      DutyFalls(p, Complement(dual.value.alternate), duty, low, high);
      LessIsKept(p, Complement(dual.value.alternate), Complement(p.alpha), duty, high);
    }
  }

  /** A smaller alternate alpha may permit a higher duty cycle for more load. */
  lemma {:induction false} SmallerAlternateRises()
    ensures var p := Params(0.5, 1.0, 1.0, 0.0, 1.0, -1.0, 0.5, 100);
      var dual := Some(DualAlpha(0.0, 0.3));
      && ValidParams(p) && ValidDual(dual)
      && NextDuty(p, dual, 0.5, 0.6) > NextDuty(p, dual, 0.5, 0.5)
  {
    var p := Params(0.5, 1.0, 1.0, 0.0, 1.0, -1.0, 0.5, 100);
    OffsetIsClamped(p, 0.5);
    OffsetIsClamped(p, 0.6);
    assert Offset(p, 0.5) == 0.0 && Offset(p, 0.6) == -0.1;
  }

  // ---- constant load ----

  /** The duty cycle that a constant load leads to. */
  function Equilibrium(p: Params, load: real): real
    requires p.alpha != 0.0
  {
    Clamp(p.deltaMin, p.deltaMax, Offset(p, load) / p.alpha)
  }

  function Rest(p: Params, load: real): State
    requires p.alpha != 0.0
  {
    State(load, Equilibrium(p, load), [load, load])
  }

  lemma {:induction false} Quotient(alpha: real, offset: real, x: real)
    requires 0.0 < alpha && x == offset / alpha
    ensures alpha * x == offset
  {
  }

  /** A clamped fixed point of x + alpha * (y - x) is a clamped y. */
  lemma {:induction false} ClampedFixedPoint(lo: real, hi: real, alpha: real, offset: real, y: real, x: real)
    requires 0.0 < alpha <= 1.0 && 0.0 <= lo <= hi <= 1.0 && alpha * y == offset && x == Clamp(lo, hi, y)
    ensures Clamp(lo, hi, Limit((1.0 - alpha) * x + offset)) == x
  {
    var next := (1.0 - alpha) * x + offset;
    assert next == x + alpha * (y - x);
    SignOfProduct(alpha, y - x);
  }

  lemma {:induction false} DutyRests(p: Params, load: real)
    requires ValidParams(p) && p.alpha > 0.0
    ensures DutyWith(p, Complement(p.alpha), Equilibrium(p, load), load) == Equilibrium(p, load)
  {
    var offset := Offset(p, load);
    var y := offset / p.alpha;
    Quotient(p.alpha, offset, y);
    ClampedFixedPoint(p.deltaMin, p.deltaMax, p.alpha, offset, y, Equilibrium(p, load));
  }

  lemma {:induction false} LoadRests(load: real, duty: real)
    requires IsUnit(load)
    ensures AverageCbr(State(load, duty, [load, load])) == load
  {
    SumOfTwo(load, load);
  }

  /** Nothing but measurements of one load. */
  ghost predicate Constant(es: seq<Event>, load: real) {
    forall i :: 0 <= i < |es| ==> es[i].Sample? ==> es[i].cbr == load
  }

  lemma {:induction false} StepRests(p: Params, load: real, e: Event)
    requires ValidParams(p) && p.alpha > 0.0 && IsUnit(load) && (e.Sample? ==> e.cbr == load)
    ensures Step(p, Rest(p, load), e) == Rest(p, load)
  {
    match e
    case Sample(x) => assert [load, load][1..] + [load] == [load, load];
    case Update =>
      LoadRests(load, Equilibrium(p, load));
      DutyRests(p, load);
  }

  lemma {:induction false} RunRests(p: Params, load: real, es: seq<Event>)
    requires ValidParams(p) && p.alpha > 0.0 && IsUnit(load) && Constant(es, load)
    ensures Run(p, Rest(p, load), es) == Rest(p, load)
    decreases |es|
  {
    if es != [] {
      StepRests(p, load, es[0]);
      RunRests(p, load, es[1..]);
    }
  }

  lemma {:induction false} RestInv(p: Params, load: real)
    requires ValidParams(p) && p.alpha > 0.0 && IsUnit(load)
    ensures Inv(p, Rest(p, load))
  {
  }

  /** Any past, then a constant load with two measurements before n updates. */
  ghost predicate Settling(past: seq<Action>, start: seq<Event>, es: seq<Event>, load: real, n: nat) {
    && ValidActions(past) && IsUnit(load)
    && ValidEvents(start) && Constant(start, load) && Samples(start) >= 2
    && ValidEvents(es) && Constant(es, load) && Updates(es) >= n
  }

  /** Load and duty cycle are as close to their equilibrium as desired. */
  ghost predicate IsSettled(p: Params, s: State, load: real, eps: real)
    requires p.alpha != 0.0
  {
    Abs(s.load - load) <= eps && Abs(s.duty - Equilibrium(p, load)) <= eps
  }

  /**
   Under a constant load every instance settles: for every tolerance there is a number of updates after
   which the duty cycle is that of the equilibrium up to the tolerance, whatever happened before.
   */
  lemma {:induction false} DutySettles(p: Params, eps: real) returns (n: nat)
    requires ValidParams(p) && p.alpha > 0.0 && eps > 0.0
    ensures forall past, start, es, load :: Settling(past, start, es, load, n) ==>
                                              IsSettled(p, End(p, past, start, es), load, eps)
  {
    var m := PowSmall(0.5, 0.5 * eps);
    var k := PowSmall(Complement(p.alpha), 0.5 * eps);
    n := m + k;
    LimericContracts(p);
    forall past, start, es, load | Settling(past, start, es, load, n)
      ensures IsSettled(p, End(p, past, start, es), load, eps)
    {
      ReachedInRange(p, past);
      SettlesFrom(p, eps, m, k, Reach(p, past).state, start, es, load);
    }
  }

  lemma {:induction false} SettlesFrom(p: Params, eps: real, m: nat, k: nat, s: State, start: seq<Event>,
                                       es: seq<Event>, load: real)
    requires ValidParams(p) && p.alpha > 0.0 && eps > 0.0 && Contracting(p, Steps(p)) && Inv(p, s)
    requires Pow(0.5, m) <= 0.5 * eps && Pow(Complement(p.alpha), k) <= 0.5 * eps
    requires Settling([], start, es, load, m + k)
    ensures IsSettled(p, Run(p, Run(p, s, start), es), load, eps)
  {
    var a, b := Run(p, s, start), Rest(p, load);
    RestInv(p, load);
    BecomeComparable(p, s, b, start);
    RunRests(p, load, start);
    RunRests(p, load, es);
    Agree(p, Steps(p), eps, m, k, a, b, es);
    LoadsFade(p, Steps(p), a, b, es, LoadGap(a, b));
    LoadSettles(m, Updates(es), LoadGap(a, b), LoadGap(Run(p, a, es), b), eps);
  }

  lemma {:induction false} LoadSettles(m: nat, n: nat, l: real, gap: real, eps: real)
    requires IsUnit(l) && m <= n && Halved(n, l, gap) && Pow(0.5, m) <= 0.5 * eps && eps > 0.0
    ensures gap <= eps
  {
    PowDecreases(0.5, m, n);
    RestSmall(n, l, gap, eps);
  }

  /** More load leads to a lower duty cycle, and a load at or above the target to the smallest one. */
  lemma {:induction false} EquilibriumFalls(p: Params, low: real, high: real)
    requires ValidParams(p) && p.alpha > 0.0 && low <= high
    ensures Equilibrium(p, high) <= Equilibrium(p, low)
    ensures high >= p.target ==> Equilibrium(p, high) == p.deltaMin
  {
    OffsetFalls(p, low, high);
    Divided(p.alpha, Offset(p, high), Offset(p, low));
    if high >= p.target {
      NoOffsetAtTarget(p);
      OffsetFalls(p, p.target, high);
      Divided(p.alpha, Offset(p, high), 0.0);
    }
  }

  lemma {:induction false} Divided(c: real, x: real, y: real)
    requires c > 0.0 && x <= y
    ensures x / c <= y / c
  {
    Cancel(c, x / c, y / c);
  }
}
