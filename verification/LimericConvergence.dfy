/**
 LIMERIC forgets its past: two instances that see the same measurements end up with the same duty
 cycle, however different their histories were.
 */
module LimericConvergence {
  import opened Options
  import opened Limerics
  import opened UnitIntervals

  datatype Event = Sample(cbr: real) | Update

  function Step(p: Params, s: State, e: Event): State {
    match e
    case Sample(x) => AfterSample(s, x)
    case Update => AfterUpdate(p, None, s)
  }

  function Steps(p: Params): (State, Event) -> State {
    (s, e) => Step(p, s, e)
  }

  function RunWith(step: (State, Event) -> State, s: State, es: seq<Event>): State
    decreases |es|
  {
    if es == [] then s else RunWith(step, step(s, es[0]), es[1..])
  }

  function Run(p: Params, s: State, es: seq<Event>): State {
    RunWith(Steps(p), s, es)
  }

  function Updates(es: seq<Event>): nat {
    if es == [] then 0 else (if es[0].Update? then 1 else 0) + Updates(es[1..])
  }

  predicate ValidEvent(e: Event) {
    e.Sample? ==> IsUnit(e.cbr)
  }

  ghost predicate ValidEvents(es: seq<Event>) {
    forall i :: 0 <= i < |es| ==> ValidEvent(es[i])
  }

  function Pow(q: real, n: nat): real {
    if n == 0 then 1.0 else q * Pow(q, n - 1)
  }

  // ---- every past ----

  // What happens to an instance, including changes of its dual alpha setting
  datatype Action = Measures(cbr: real) | Calculates | Configures(dual: Option<DualAlpha>)

  datatype Instance = Instance(state: State, dual: Option<DualAlpha>)

  predicate ValidAction(a: Action) {
    a.Measures? ==> IsUnit(a.cbr)
  }

  ghost predicate ValidActions(past: seq<Action>) {
    forall i :: 0 <= i < |past| ==> ValidAction(past[i])
  }

  function Act(p: Params, i: Instance, a: Action): Instance {
    match a
    case Measures(x) => i.(state := AfterSample(i.state, x))
    case Calculates => i.(state := AfterUpdate(p, i.dual, i.state))
    case Configures(dual) => i.(dual := dual)
  }

  function Reach(p: Params, past: seq<Action>): Instance {
    if past == [] then Instance(Initial(p), None) else Act(p, Reach(p, past[..|past| - 1]), past[|past| - 1])
  }

  /** In every run, with any changes of the dual alpha setting, load and duty cycle stay within their bounds. */
  lemma {:induction false} ReachedInRange(p: Params, past: seq<Action>)
    requires ValidParams(p) && ValidActions(past)
    ensures Inv(p, Reach(p, past).state)
    decreases |past|
  {
    if past == [] {
      InitialInv(p);
    } else {
      var before := Reach(p, past[..|past| - 1]);
      ReachedInRange(p, past[..|past| - 1]);
      ActInRange(p, before, past[|past| - 1]);
    }
  }

  lemma {:induction false} ActInRange(p: Params, i: Instance, a: Action)
    requires ValidParams(p) && Inv(p, i.state) && ValidAction(a)
    ensures Inv(p, Act(p, i, a).state)
  {
    StepInv(p, i.dual, i.state, if a.Measures? then a.cbr else 0.0);
  }

  // ---- one step brings two instances closer ----

  /** Two instances with the same full window of measurements. */
  ghost predicate SameWindow(a: State, b: State) {
    a.cbr == b.cbr && |a.cbr| == 2
  }

  function Samples(es: seq<Event>): nat {
    if es == [] then 0 else (if es[0].Sample? then 1 else 0) + Samples(es[1..])
  }

  /** The latest k measurements are the same. */
  ghost predicate SameTail(a: seq<real>, b: seq<real>, k: nat) {
    && k <= 2 && k <= |a| <= 2 && k <= |b| <= 2
    && (k >= 1 ==> a[|a| - 1] == b[|b| - 1])
    && (k == 2 ==> a[0] == b[0])
  }

  function AtMostTwo(k: nat): nat {
    if k > 2 then 2 else k
  }

  lemma {:induction false} PushedTail(a: seq<real>, b: seq<real>, x: real, k: nat)
    requires SameTail(a, b, k)
    ensures SameTail(Pushed(a, x), Pushed(b, x), AtMostTwo(k + 1))
  {
  }

  lemma {:induction false} FullTail(a: seq<real>, b: seq<real>)
    requires SameTail(a, b, 2)
    ensures a == b && |a| == 2
  {
  }

  ghost predicate Agrees(p: Params, a: State, b: State, k: nat) {
    Inv(p, a) && Inv(p, b) && k <= 2 && SameTail(a.cbr, b.cbr, k)
  }

  /** How many common measurements are known after an event. */
  function Common(e: Event, k: nat): nat {
    if e.Sample? then AtMostTwo(k + 1) else k
  }

  lemma {:induction false} StepAgrees(p: Params, a: State, b: State, e: Event, k: nat)
    requires ValidParams(p) && ValidEvent(e) && Agrees(p, a, b, k)
    ensures Agrees(p, Step(p, a, e), Step(p, b, e), Common(e, k))
  {
    var x := if e.Sample? then e.cbr else 0.0;
    StepInv(p, None, a, x);
    StepInv(p, None, b, x);
    PushedTail(a.cbr, b.cbr, x, k);
  }

  ghost predicate Aligning(p: Params, step: (State, Event) -> State) {
    forall a, b, e, k: nat {:trigger Agrees(p, step(a, e), step(b, e), Common(e, k))} ::
      ValidEvent(e) && Agrees(p, a, b, k) ==> Agrees(p, step(a, e), step(b, e), Common(e, k))
  }

  lemma {:induction false} LimericAligns(p: Params)
    requires ValidParams(p)
    ensures Aligning(p, Steps(p))
  {
    forall a, b, e, k: nat | ValidEvent(e) && Agrees(p, a, b, k)
      ensures Agrees(p, Steps(p)(a, e), Steps(p)(b, e), Common(e, k))
    {
      StepAgrees(p, a, b, e, k);
    }
  }

  /** Two common measurements make any two instances comparable. */
  lemma {:induction false} CommonWindow(p: Params, step: (State, Event) -> State, a: State, b: State, es: seq<Event>,
                                        k: nat)
    requires Aligning(p, step) && ValidEvents(es) && Agrees(p, a, b, k)
    ensures Agrees(p, RunWith(step, a, es), RunWith(step, b, es), AtMostTwo(k + Samples(es)))
    decreases |es|
  {
    if es != [] {
      assert ValidEvent(es[0]);
      assert Agrees(p, step(a, es[0]), step(b, es[0]), Common(es[0], k));
      CommonWindow(p, step, step(a, es[0]), step(b, es[0]), es[1..], Common(es[0], k));
    }
  }

  lemma {:induction false} BecomeComparable(p: Params, a: State, b: State, es: seq<Event>)
    requires ValidParams(p) && Inv(p, a) && Inv(p, b) && ValidEvents(es) && Samples(es) >= 2
    ensures Comparable(p, Run(p, a, es), Run(p, b, es))
  {
    LimericAligns(p);
    CommonWindow(p, Steps(p), a, b, es, 0);
    FullTail(Run(p, a, es).cbr, Run(p, b, es).cbr);
  }

  lemma {:induction false} ClampLipschitz(lo: real, hi: real, x: real, y: real)
    requires lo <= hi
    ensures Abs(Clamp(lo, hi, x) - Clamp(lo, hi, y)) <= Abs(x - y)
  {
  }

  lemma {:induction false} MulMono(c: real, x: real, y: real)
    requires c >= 0.0 && x <= y
    ensures c * x <= c * y
  {
  }

  lemma {:induction false} SignOfProduct(c: real, x: real)
    requires c >= 0.0
    ensures x >= 0.0 ==> c * x >= 0.0
    ensures x <= 0.0 ==> c * x <= 0.0
  {
  }

  lemma {:induction false} Distribute(c: real, x: real, y: real)
    ensures c * x - c * y == c * (x - y)
  {
  }

  /** Scaling two numbers scales their distance. */
  lemma {:induction false} Scaled(c: real, x: real, y: real, gap: real, u: real, v: real, w: real)
    requires c >= 0.0 && gap == Abs(x - y) && u == c * x && v == c * y && w == c * gap
    ensures Abs(u - v) == w
  {
    if x <= y {
      MulMono(c, x, y);
      Distribute(c, y, x);
      assert gap == y - x;
    } else {
      MulMono(c, y, x);
      Distribute(c, x, y);
      assert gap == x - y;
    }
  }

  predicate SameSign(d: real, u: real) {
    (d >= 0.0 ==> u >= 0.0) && (d <= 0.0 ==> u <= 0.0)
  }

  lemma {:induction false} ProductSign(c: real, d: real, u: real)
    requires c >= 0.0 && u == c * d
    ensures SameSign(d, u)
  {
    SignOfProduct(c, d);
  }

  /** The gain limits cut the offset like a single interval. */
  lemma {:induction false} CutLipschitz(lo: real, hi: real, d: real, u: real, e: real, v: real, w: real, f: real,
                                        g: real)
    requires lo <= 0.0 <= hi && SameSign(d, u) && SameSign(e, v) && Abs(u - v) == w
    requires f == Cut(lo, hi, d, u) && g == Cut(lo, hi, e, v)
    ensures Abs(f - g) <= w
  {
    assert f == Clamp(lo, hi, u) && g == Clamp(lo, hi, v);
    ClampLipschitz(lo, hi, u, v);
  }

  lemma {:induction false} ScaledCutLipschitz(c: real, lo: real, hi: real, d: real, e: real, gap: real,
                                              u: real, v: real, w: real, f: real, g: real)
    requires c >= 0.0 && lo <= 0.0 <= hi && gap == Abs(d - e) && u == c * d && v == c * e && w == c * gap
    requires f == Cut(lo, hi, d, u) && g == Cut(lo, hi, e, v)
    ensures Abs(f - g) <= w
  {
    ProductSign(c, d, u);
    ProductSign(c, e, v);
    Scaled(c, d, e, gap, u, v, w);
    CutLipschitz(lo, hi, d, u, e, v, w, f, g);
  }

  lemma {:induction false} GainLipschitz(p: Params, d: real, e: real, gap: real, w: real, f: real, g: real)
    requires ValidParams(p) && gap == Abs(d - e) && w == p.beta * gap && f == Gain(p, d) && g == Gain(p, e)
    ensures Abs(f - g) <= w
  {
    ScaledCutLipschitz(p.beta, p.gMinusMax, p.gPlusMax, d, e, gap, p.beta * d, p.beta * e, w, f, g);
  }

  /** The offset follows the load with slope at most beta. */
  lemma {:induction false} OffsetLipschitz(p: Params, x: real, y: real, gap: real, w: real, f: real, g: real)
    requires ValidParams(p) && gap == Abs(x - y) && w == p.beta * gap && f == Offset(p, x) && g == Offset(p, y)
    ensures Abs(f - g) <= w
  {
    GainLipschitz(p, p.target - x, p.target - y, gap, w, f, g);
  }

  lemma {:induction false} LoadGapHalves(p: Params, a: State, b: State)
    requires Inv(p, a) && Inv(p, b) && SameWindow(a, b)
    ensures Abs(AverageCbr(a) - AverageCbr(b)) == 0.5 * Abs(a.load - b.load)
  {
    var m := Mean(a.cbr);
    assert AverageCbr(a) == 0.5 * m + 0.5 * a.load;
    assert AverageCbr(b) == 0.5 * m + 0.5 * b.load;
  }

  lemma {:induction false} DutyContracts(p: Params, kept: real, d1: real, l1: real, d2: real, l2: real, u: real,
                                         v: real)
    requires ValidParams(p) && kept >= 0.0 && u == DutyWith(p, kept, d1, l1) && v == DutyWith(p, kept, d2, l2)
    ensures Shrinks(kept, p.beta, Abs(l1 - l2), Abs(d1 - d2), Abs(u - v))
  {
    var x1, x2, o1, o2 := kept * d1, kept * d2, Offset(p, l1), Offset(p, l2);
    var xgap, ogap := kept * Abs(d1 - d2), p.beta * Abs(l1 - l2);
    Scaled(kept, d1, d2, Abs(d1 - d2), x1, x2, xgap);
    OffsetLipschitz(p, l1, l2, Abs(l1 - l2), ogap, o1, o2);
    LimitedSum(p, x1, o1, x2, o2, xgap, ogap, u, v);
  }

  lemma {:induction false} LimitedSum(p: Params, x1: real, o1: real, x2: real, o2: real, xgap: real, ogap: real,
                                      u: real, v: real)
    requires p.deltaMin <= p.deltaMax && Abs(x1 - x2) <= xgap && Abs(o1 - o2) <= ogap
    requires u == Limited(p, x1, o1) && v == Limited(p, x2, o2)
    ensures Abs(u - v) <= xgap + ogap
  {
    var a, b := x1 + o1, x2 + o2;
    ClampLipschitz(0.0, 1.0, a, b);
    assert Limit(a) == Clamp(0.0, 1.0, a) && Limit(b) == Clamp(0.0, 1.0, b);
    ClampLipschitz(p.deltaMin, p.deltaMax, Limit(a), Limit(b));
  }

  ghost predicate Comparable(p: Params, a: State, b: State) {
    Inv(p, a) && Inv(p, b) && SameWindow(a, b)
  }

  function LoadGap(a: State, b: State): real {
    Abs(a.load - b.load)
  }

  function DutyGap(a: State, b: State): real {
    Abs(a.duty - b.duty)
  }

  /** A bound d on a difference of duty cycles becomes d1 when the loads still differ by half. */
  predicate Shrinks(kept: real, beta: real, half: real, d: real, d1: real) {
    d1 <= kept * d + beta * half
  }

  /** What an event does to two comparable instances. */
  ghost predicate Closer(p: Params, a: State, b: State, e: Event, a1: State, b1: State) {
    Comparable(p, a1, b1) &&
    if e.Sample? then LoadGap(a1, b1) == LoadGap(a, b) && DutyGap(a1, b1) == DutyGap(a, b)
    else
      && LoadGap(a1, b1) == 0.5 * LoadGap(a, b)
      && Shrinks(Complement(p.alpha), p.beta, LoadGap(a1, b1), DutyGap(a, b), DutyGap(a1, b1))
  }

  ghost predicate Contracting(p: Params, step: (State, Event) -> State) {
    forall a, b, e {:trigger Closer(p, a, b, e, step(a, e), step(b, e))} ::
      Comparable(p, a, b) && ValidEvent(e) ==> Closer(p, a, b, e, step(a, e), step(b, e))
  }

  /** Same measurements keep the windows equal and leave loads and duty cycles alone. */
  lemma {:induction false} SampleCloser(p: Params, a: State, b: State, x: real)
    requires ValidParams(p) && Comparable(p, a, b) && IsUnit(x)
    ensures Closer(p, a, b, Sample(x), AfterSample(a, x), AfterSample(b, x))
  {
    StepInv(p, None, a, x);
    StepInv(p, None, b, x);
  }

  lemma {:induction false} UpdateDuty(p: Params, s: State)
    ensures AfterUpdate(p, None, s)
         == State(AverageCbr(s), DutyWith(p, Complement(p.alpha), s.duty, AverageCbr(s)), s.cbr)
  {
  }

  /** An update halves the difference of loads and shrinks that of duty cycles up to the influence of the loads. */
  lemma {:induction false} UpdateCloser(p: Params, a: State, b: State)
    requires ValidParams(p) && Comparable(p, a, b)
    ensures Closer(p, a, b, Update, AfterUpdate(p, None, a), AfterUpdate(p, None, b))
  {
    StepInv(p, None, a, 0.0);
    StepInv(p, None, b, 0.0);
    LoadGapHalves(p, a, b);
    UpdateDuty(p, a);
    UpdateDuty(p, b);
    DutyContracts(p, Complement(p.alpha), a.duty, AverageCbr(a), b.duty, AverageCbr(b),
                  AfterUpdate(p, None, a).duty, AfterUpdate(p, None, b).duty);
  }

  lemma {:induction false} LimericContracts(p: Params)
    requires ValidParams(p)
    ensures Contracting(p, Steps(p))
  {
    forall a, b, e | Comparable(p, a, b) && ValidEvent(e)
      ensures Closer(p, a, b, e, Steps(p)(a, e), Steps(p)(b, e))
    {
      match e
      case Sample(x) => SampleCloser(p, a, b, x);
      case Update => UpdateCloser(p, a, b);
    }
  }

  // ---- whole runs ----

  lemma {:induction false} Share(w: real, h: real)
    requires IsUnit(w) && h >= 0.0
    ensures 0.0 <= w * h <= h
  {
    SignOfProduct(w, h);
    MulMono(h, w, 1.0);
  }

  lemma {:induction false} PowInUnit(q: real, n: nat)
    requires IsUnit(q)
    ensures IsUnit(Pow(q, n))
  {
    if n > 0 {
      PowInUnit(q, n - 1);
      Share(q, Pow(q, n - 1));
    }
  }

  lemma {:induction false} Weighted(w: real, x: real, t: real, half: real)
    requires IsUnit(w) && half >= 0.0 && x <= t + half
    ensures w * x <= w * t + half
  {
    calc {
      w * x;
    <= { MulMono(w, x, t + half); }
      w * (t + half);
    ==
      w * t + w * half;
    <= { Share(w, half); }
      w * t + half;
    }
  }

  /** The bound on the difference of duty cycles after n updates. */
  predicate GapBound(kept: real, beta: real, n: nat, g: real, l: real, gap: real) {
    gap <= Pow(kept, n) * g + beta * l
  }

  lemma {:induction false} BoundStep(kept: real, beta: real, n: nat, g: real, g1: real, l: real, half: real, gap: real)
    requires IsUnit(kept) && beta >= 0.0 && n > 0 && l >= 0.0 && half == 0.5 * l
    requires Shrinks(kept, beta, half, g, g1)
    requires GapBound(kept, beta, n - 1, g1, half, gap)
    ensures GapBound(kept, beta, n, g, l, gap)
  {
    var w := Pow(kept, n - 1);
    PowInUnit(kept, n - 1);
    SignOfProduct(beta, half);
    calc {
      gap;
    <=
      w * g1 + beta * half;
    <= { Weighted(w, g1, kept * g, beta * half); }
      w * (kept * g) + beta * half + beta * half;
    == { Regroup(w, kept, g); }
      Pow(kept, n) * g + beta * half + beta * half;
    ==
      Pow(kept, n) * g + beta * l;
    }
  }

  lemma {:induction false} Regroup(c: real, x: real, y: real)
    ensures c * (x * y) == (x * c) * y
  {
  }

  /** What is left of a difference of loads after n updates. */
  predicate Halved(n: nat, l: real, gap: real) {
    gap == Pow(0.5, n) * l
  }

  lemma {:induction false} HalvedStep(n: nat, l: real, half: real, gap: real)
    requires n > 0 && half == 0.5 * l && Halved(n - 1, half, gap)
    ensures Halved(n, l, gap)
  {
    Regroup(Pow(0.5, n - 1), 0.5, l);
  }

  lemma {:induction false} NotHalved(l: real)
    ensures Halved(0, l, l)
  {
  }

  lemma {:induction false} LoadsFade(p: Params, step: (State, Event) -> State, a: State, b: State, es: seq<Event>,
                                     l: real)
    requires Contracting(p, step) && Comparable(p, a, b) && ValidEvents(es) && l == LoadGap(a, b)
    ensures var x, y := RunWith(step, a, es), RunWith(step, b, es);
      Comparable(p, x, y) && Halved(Updates(es), l, LoadGap(x, y))
    decreases |es|
  {
    if es == [] {
      NotHalved(l);
    } else {
      var a1, b1 := step(a, es[0]), step(b, es[0]);
      assert ValidEvent(es[0]) && Closer(p, a, b, es[0], a1, b1);
      LoadsFade(p, step, a1, b1, es[1..], LoadGap(a1, b1));
      if es[0].Update? {
        HalvedStep(Updates(es), l, LoadGap(a1, b1), LoadGap(RunWith(step, a, es), RunWith(step, b, es)));
      }
    }
  }

  lemma {:induction false} DutiesFade(p: Params, step: (State, Event) -> State, a: State, b: State, es: seq<Event>,
                                      g: real, l: real)
    requires ValidParams(p) && Contracting(p, step) && Comparable(p, a, b) && ValidEvents(es)
    requires DutyGap(a, b) <= g && l == LoadGap(a, b)
    ensures GapBound(Complement(p.alpha), p.beta, Updates(es), g, l,
                     DutyGap(RunWith(step, a, es), RunWith(step, b, es)))
    decreases |es|
  {
    var kept := Complement(p.alpha);
    if es == [] {
      NoUpdates(kept, p.beta, g, l, DutyGap(a, b));
    } else {
      var a1, b1 := step(a, es[0]), step(b, es[0]);
      assert ValidEvent(es[0]) && Closer(p, a, b, es[0], a1, b1);
      if es[0].Sample? {
        DutiesFade(p, step, a1, b1, es[1..], g, l);
      } else {
        var half := LoadGap(a1, b1);
        var g1 := Enlarge(kept, p.beta, half, DutyGap(a, b), g, DutyGap(a1, b1));
        DutiesFade(p, step, a1, b1, es[1..], g1, half);
        BoundStep(kept, p.beta, Updates(es), g, g1, l, half, DutyGap(RunWith(step, a, es), RunWith(step, b, es)));
      }
    }
  }

  lemma {:induction false} Enlarge(kept: real, beta: real, half: real, d: real, g: real, d1: real) returns (g1: real)
    requires kept >= 0.0 && d <= g && Shrinks(kept, beta, half, d, d1)
    ensures d1 <= g1 && Shrinks(kept, beta, half, g, g1)
  {
    g1 := kept * g + beta * half;
    MulMono(kept, d, g);
  }

  lemma {:induction false} NoUpdates(kept: real, beta: real, g: real, l: real, gap: real)
    requires beta >= 0.0 && l >= 0.0 && gap <= g
    ensures GapBound(kept, beta, 0, g, l, gap)
  {
    SignOfProduct(beta, l);
  }

  /**
   After n updates the duty cycles of two instances differ by at most (1 - alpha)^n times their
   first difference plus beta times the first difference of their loads, whose own difference
   halves with every update; both duty cycles stay in range.
   */
  lemma {:induction false} PastFades(p: Params, a: State, b: State, es: seq<Event>)
    requires ValidParams(p) && Comparable(p, a, b) && ValidEvents(es)
    ensures Comparable(p, Run(p, a, es), Run(p, b, es))
    ensures GapBound(Complement(p.alpha), p.beta, Updates(es), DutyGap(a, b), LoadGap(a, b),
                     DutyGap(Run(p, a, es), Run(p, b, es)))
    ensures Halved(Updates(es), LoadGap(a, b), LoadGap(Run(p, a, es), Run(p, b, es)))
  {
    LimericContracts(p);
    DutiesFade(p, Steps(p), a, b, es, DutyGap(a, b), LoadGap(a, b));
    LoadsFade(p, Steps(p), a, b, es, LoadGap(a, b));
  }

  // ---- the difference becomes as small as desired ----

  /** Bernoulli's inequality, turned around. */
  lemma {:induction false} PowUnderHyperbola(q: real, k: nat)
    requires IsUnit(q)
    ensures Pow(q, k) * (1.0 + k as real * (1.0 - q)) <= 1.0
    ensures IsUnit(Pow(q, k))
  {
    PowInUnit(q, k);
    if k > 0 {
      PowUnderHyperbola(q, k - 1);
      PowInUnit(q, k - 1);
      HyperbolaStep(q, 1.0 - q, Pow(q, k - 1), (k - 1) as real * (1.0 - q));
      assert k as real * (1.0 - q) == (k - 1) as real * (1.0 - q) + (1.0 - q);
    }
  }

  lemma {:induction false} HyperbolaStep(q: real, r: real, w: real, x: real)
    requires IsUnit(q) && r == 1.0 - q && IsUnit(w) && x >= 0.0 && w * (1.0 + x) <= 1.0
    ensures (q * w) * (1.0 + (x + r)) <= 1.0
  {
    BelowLine(q, r, x);
    calc {
      (q * w) * (1.0 + (x + r));
    == { Regroup(w, q, 1.0 + (x + r)); }
      w * (q * (1.0 + (x + r)));
    <= { MulMono(w, q * (1.0 + (x + r)), 1.0 + x); }
      w * (1.0 + x);
    <=
      1.0;
    }
  }

  lemma {:induction false} BelowLine(q: real, r: real, x: real)
    requires IsUnit(q) && r == 1.0 - q && x >= 0.0
    ensures q * (1.0 + (x + r)) <= 1.0 + x
  {
    calc {
      q * (1.0 + (x + r));
    == { ThreeTerms(q, x, r); }
      q + q * r + q * x;
    == { SquareApart(q, r); }
      1.0 - r * r + q * x;
    <= { Share(q, x); SignOfProduct(r, r); }
      1.0 + x;
    }
  }

  lemma {:induction false} ThreeTerms(q: real, x: real, r: real)
    ensures q * (1.0 + (x + r)) == q + q * r + q * x
  {
  }

  lemma {:induction false} SquareApart(q: real, r: real)
    requires r == 1.0 - q
    ensures q + q * r == 1.0 - r * r
  {
  }

  lemma {:induction false} PowSmall(q: real, eps: real) returns (k: nat)
    requires 0.0 <= q < 1.0 && eps > 0.0
    ensures Pow(q, k) <= eps
  {
    var r := 1.0 - q;
    k := ManyTurns(eps, r);
    PowUnderHyperbola(q, k);
    UnderHyperbola(Pow(q, k), k as real * r, eps);
  }

  lemma {:induction false} ManyTurns(eps: real, r: real) returns (k: nat)
    requires eps > 0.0 && r > 0.0
    ensures k as real * r * eps >= 1.0
  {
    SignOfProduct(r, eps);
    var c := r * eps;
    assert c > 0.0;
    var want := 1.0 / c;
    k := if want < 0.0 then 0 else want.Floor + 1;
    MulMono(c, want, k as real);
    assert c * want == 1.0;
    assert k as real * r * eps == c * k as real;
  }

  lemma {:induction false} UnderHyperbola(w: real, x: real, eps: real)
    requires w >= 0.0 && x >= 0.0 && eps > 0.0 && w * (1.0 + x) <= 1.0 && x * eps >= 1.0
    ensures w <= eps
  {
    assert w * (1.0 + x) == w + w * x;
    assert x * w <= x * eps;
    Cancel(x, w, eps);
  }

  lemma {:induction false} Cancel(c: real, x: real, y: real)
    requires c > 0.0 && c * x <= c * y
    ensures x <= y
  {
  }

  lemma {:induction false} PowDecreases(q: real, m: nat, n: nat)
    requires IsUnit(q) && m <= n
    ensures Pow(q, n) <= Pow(q, m)
    decreases n
  {
    if m < n {
      PowDecreases(q, m, n - 1);
      PowInUnit(q, n - 1);
      Share(q, Pow(q, n - 1));
    }
  }

  lemma {:induction false} RunConcat(step: (State, Event) -> State, s: State, xs: seq<Event>, ys: seq<Event>)
    ensures RunWith(step, s, xs + ys) == RunWith(step, RunWith(step, s, xs), ys)
    ensures Updates(xs + ys) == Updates(xs) + Updates(ys)
    decreases |xs|
  {
    if xs == [] {
      assert xs + ys == ys;
    } else {
      assert (xs + ys)[1..] == xs[1..] + ys;
      RunConcat(step, step(s, xs[0]), xs[1..], ys);
    }
  }

  /** Where the first m updates are done. */
  function Prefix(es: seq<Event>, m: nat): (i: nat)
    requires m <= Updates(es)
    ensures i <= |es| && Updates(es[..i]) == m
  {
    if m == 0 then 0
    else
      var i := Prefix(es[1..], if es[0].Update? then m - 1 else m);
      assert es[..i + 1][1..] == es[1..][..i];
      i + 1
  }

  /** The state of an instance with a past, after the common events before and after. */
  function End(p: Params, past: seq<Action>, start: seq<Event>, es: seq<Event>): State {
    Run(p, Run(p, Reach(p, past).state, start), es)
  }

  /** Two pasts, common events with two measurements, and common events with n updates. */
  ghost predicate Forgetting(past: seq<Action>, other: seq<Action>, start: seq<Event>, es: seq<Event>, n: nat) {
    && ValidActions(past) && ValidActions(other)
    && ValidEvents(start) && Samples(start) >= 2
    && ValidEvents(es) && Updates(es) >= n
  }

  /** However different their pasts, after two common measurements the differences of two instances fade. */
  lemma {:induction false} PastsFade(p: Params, past: seq<Action>, other: seq<Action>, start: seq<Event>,
                                     es: seq<Event>)
    requires ValidParams(p) && Forgetting(past, other, start, es, 0)
    ensures var a, b := End(p, past, start, []), End(p, other, start, []);
      GapBound(Complement(p.alpha), p.beta, Updates(es), DutyGap(a, b), LoadGap(a, b),
               DutyGap(End(p, past, start, es), End(p, other, start, es)))
  {
    ReachedInRange(p, past);
    ReachedInRange(p, other);
    BecomeComparable(p, Reach(p, past).state, Reach(p, other).state, start);
    PastFades(p, End(p, past, start, []), End(p, other, start, []), es);
  }

  /**
   LIMERIC forgets its past: for every tolerance there is a number of updates after which any two
   instances agree up to that tolerance, whatever happened to them before, as soon as they have
   seen two common measurements before those updates.
   */
  lemma {:induction false} PastIsForgotten(p: Params, eps: real) returns (n: nat)
    requires ValidParams(p) && p.alpha > 0.0 && eps > 0.0
    ensures forall past, other, start, es :: Forgetting(past, other, start, es, n) ==>
                                               DutyGap(End(p, past, start, es), End(p, other, start, es)) <= eps
  {
    var m := PowSmall(0.5, 0.5 * eps);
    var k := PowSmall(Complement(p.alpha), 0.5 * eps);
    n := m + k;
    LimericContracts(p);
    forall past, other, start, es | Forgetting(past, other, start, es, n)
      ensures DutyGap(End(p, past, start, es), End(p, other, start, es)) <= eps
    {
      ReachedInRange(p, past);
      ReachedInRange(p, other);
      BecomeComparable(p, Reach(p, past).state, Reach(p, other).state, start);
      Agree(p, Steps(p), eps, m, k, Run(p, Reach(p, past).state, start), Run(p, Reach(p, other).state, start), es);
    }
  }

  lemma {:induction false} Agree(p: Params, step: (State, Event) -> State, eps: real, m: nat, k: nat, a: State,
                                 b: State, es: seq<Event>)
    requires ValidParams(p) && Contracting(p, step) && eps > 0.0
    requires Pow(0.5, m) <= 0.5 * eps && Pow(Complement(p.alpha), k) <= 0.5 * eps
    requires Comparable(p, a, b) && ValidEvents(es) && Updates(es) >= m + k
    ensures DutyGap(RunWith(step, a, es), RunWith(step, b, es)) <= eps
  {
    var i := Prefix(es, m);
    var xs, ys := es[..i], es[i..];
    assert es == xs + ys;
    RunConcat(step, a, xs, ys);
    RunConcat(step, b, xs, ys);
    LoadsFade(p, step, a, b, xs, LoadGap(a, b));
    Tolerance(p, step, eps, m, k, LoadGap(a, b), RunWith(step, a, xs), RunWith(step, b, xs), ys);
  }

  lemma {:induction false} Tolerance(p: Params, step: (State, Event) -> State, eps: real, m: nat, k: nat, l: real,
                                     c: State, d: State, ys: seq<Event>)
    requires ValidParams(p) && Contracting(p, step) && eps > 0.0 && IsUnit(l) && Updates(ys) >= k
    requires Pow(0.5, m) <= 0.5 * eps && Pow(Complement(p.alpha), k) <= 0.5 * eps
    requires Comparable(p, c, d) && ValidEvents(ys) && Halved(m, l, LoadGap(c, d))
    ensures DutyGap(RunWith(step, c, ys), RunWith(step, d, ys)) <= eps
  {
    var kept, n, rest := Complement(p.alpha), Updates(ys), LoadGap(c, d);
    DutiesFade(p, step, c, d, ys, 1.0, rest);
    PowDecreases(kept, k, n);
    RestSmall(m, l, rest, eps);
    SumOfHalves(kept, p.beta, n, rest, DutyGap(RunWith(step, c, ys), RunWith(step, d, ys)), eps);
  }

  lemma {:induction false} RestSmall(m: nat, l: real, rest: real, eps: real)
    requires IsUnit(l) && Halved(m, l, rest) && Pow(0.5, m) <= 0.5 * eps
    ensures rest <= 0.5 * eps
  {
    PowInUnit(0.5, m);
    calc {
      rest;
    ==
      l * Pow(0.5, m);
    <= { Share(l, Pow(0.5, m)); }
      Pow(0.5, m);
    }
  }

  lemma {:induction false} SumOfHalves(kept: real, beta: real, n: nat, rest: real, gap: real, eps: real)
    requires IsUnit(beta) && 0.0 <= rest <= 0.5 * eps && Pow(kept, n) <= 0.5 * eps
    requires GapBound(kept, beta, n, 1.0, rest, gap)
    ensures gap <= eps
  {
    calc {
      gap;
    <=
      Pow(kept, n) * 1.0 + beta * rest;
    <= { Share(beta, rest); }
      Pow(kept, n) + rest;
    <=
      eps;
    }
  }
}
