/**
 Aggregation of channel busy ratios reported by neighbours (TS 102 636-4-2 V1.1.1, section 5.2.2),
 over exact reals: the mean and the two largest of the fresh reports decide.
 */
module CbrAggregation {
  import opened Options
  import opened UnitIntervals

  // The running mean, the number of values and the two largest values so far
  datatype Unit = Unit(average: real, n: nat, first: real, second: real)

  const EMPTY := Unit(0.0, 0, 0.0, 0.0)

  /** The mean of one more value. */
  function NextMean(average: real, n: real, x: real): real
    requires n >= 0.0
  {
    Limit((average * n + x) / (n + 1.0))
  }

  function Include(u: Unit, x: real): Unit {
    var average := NextMean(u.average, u.n as real, x);
    if x >= u.first then Unit(average, u.n + 1, x, u.first)
    else if x > u.second then Unit(average, u.n + 1, u.first, x)
    else Unit(average, u.n + 1, u.first, u.second)
  }

  function Fold(xs: seq<real>): Unit {
    if xs == [] then EMPTY else Include(Fold(xs[..|xs| - 1]), xs[|xs| - 1])
  }

  function Select(u: Unit, target: real): real {
    if u.average > target then u.first else u.second
  }

  ghost predicate Ratios(xs: seq<real>) {
    forall i :: 0 <= i < |xs| ==> IsUnit(xs[i])
  }

  // ---- mean and maxima ----

  lemma {:induction false} SumRange(xs: seq<real>)
    requires Ratios(xs)
    ensures 0.0 <= Sum(xs) <= |xs| as real
    decreases |xs|
  {
    if xs != [] {
      SumRange(xs[..|xs| - 1]);
    }
  }

  lemma {:induction false} LimitQuotient(s: real, m: real)
    requires 0.0 <= s <= m && m > 0.0
    ensures Limit(s / m) * m == s
  {
    var q := s / m;
    assert q * m == s;
    assert 0.0 <= q <= 1.0;
  }

  predicate IsMean(average: real, n: real, sum: real) {
    average * n == sum
  }

  lemma {:induction false} MeanStep(a: real, n: real, x: real, s: real)
    requires IsMean(a, n, s) && 0.0 <= s <= n && IsUnit(x)
    ensures IsMean(NextMean(a, n, x), n + 1.0, s + x)
  {
    LimitQuotient(s + x, n + 1.0);
  }

  lemma {:induction false} MeanUnique(a: real, b: real, n: real, s: real)
    requires n > 0.0 && IsMean(a, n, s) && IsMean(b, n, s)
    ensures a == b
  {
  }

  /** The average is the arithmetic mean. */
  lemma {:induction false} AverageIsMean(xs: seq<real>)
    requires Ratios(xs)
    ensures Fold(xs).n == |xs|
    ensures IsMean(Fold(xs).average, |xs| as real, Sum(xs))
    decreases |xs|
  {
    if xs != [] {
      var before, x := xs[..|xs| - 1], xs[|xs| - 1];
      AverageIsMean(before);
      SumRange(before);
      MeanStep(Fold(before).average, |before| as real, x, Sum(before));
    }
  }

  /** The two largest values of a bag that is padded with zeros. */
  ghost predicate Tops(bag: multiset<real>, a: real, b: real) {
    TopTwo(bag + multiset{0.0, 0.0}, a, b)
  }

  ghost predicate TopTwo(bag: multiset<real>, a: real, b: real) {
    && a in bag && (forall x :: x in bag ==> x <= a)
    && b in bag - multiset{a} && (forall x :: x in bag - multiset{a} ==> x <= b)
  }

  lemma {:induction false} TopsUnique(bag: multiset<real>, a: real, b: real, c: real, d: real)
    requires Tops(bag, a, b) && Tops(bag, c, d)
    ensures a == c && b == d
  {
  }

  lemma {:induction false} IncludeTops(bag: multiset<real>, u: Unit, x: real)
    requires Tops(bag, u.first, u.second)
    ensures Tops(bag + multiset{x}, Include(u, x).first, Include(u, x).second)
  {
    var padded := bag + multiset{0.0, 0.0};
    assert bag + multiset{x} + multiset{0.0, 0.0} == padded + multiset{x};
    IncludeTopTwo(padded, u, x);
  }

  lemma {:induction false} IncludeTopTwo(bag: multiset<real>, u: Unit, x: real)
    requires TopTwo(bag, u.first, u.second)
    ensures TopTwo(bag + multiset{x}, Include(u, x).first, Include(u, x).second)
  {
    if x >= u.first {
      NewFirst(bag, u.first, u.second, x);
    } else if x >= u.second {
      NewSecond(bag, u.first, u.second, x);
    } else {
      NeitherFirstNorSecond(bag, u.first, u.second, x);
    }
  }

  lemma {:induction false} NewFirst(bag: multiset<real>, a: real, b: real, x: real)
    requires TopTwo(bag, a, b) && x >= a
    ensures TopTwo(bag + multiset{x}, x, a)
  {
    assert (bag + multiset{x}) - multiset{x} == bag;
  }

  lemma {:induction false} NewSecond(bag: multiset<real>, a: real, b: real, x: real)
    requires TopTwo(bag, a, b) && b <= x <= a
    ensures TopTwo(bag + multiset{x}, a, x)
  {
    assert (bag + multiset{x}) - multiset{a} == (bag - multiset{a}) + multiset{x};
  }

  lemma {:induction false} NeitherFirstNorSecond(bag: multiset<real>, a: real, b: real, x: real)
    requires TopTwo(bag, a, b) && x <= b
    ensures TopTwo(bag + multiset{x}, a, b)
  {
    assert (bag + multiset{x}) - multiset{a} == (bag - multiset{a}) + multiset{x};
  }

  /** The fold holds the two largest values. */
  lemma {:induction false} MaximaAreLargest(xs: seq<real>)
    ensures Tops(multiset(xs), Fold(xs).first, Fold(xs).second)
    decreases |xs|
  {
    if xs != [] {
      var before, x := xs[..|xs| - 1], xs[|xs| - 1];
      MaximaAreLargest(before);
      IncludeTops(multiset(before), Fold(before), x);
      assert xs == before + [x];
    }
  }

  // ---- order does not matter ----

  lemma {:induction false} SumConcat(a: seq<real>, b: seq<real>)
    ensures Sum(a + b) == Sum(a) + Sum(b)
    decreases |b|
  {
    if b == [] {
      assert a + b == a;
    } else {
      assert (a + b)[..|a + b| - 1] == a + b[..|b| - 1];
      SumConcat(a, b[..|b| - 1]);
    }
  }

  lemma {:induction false} SumWithout(ys: seq<real>, i: nat)
    requires i < |ys|
    ensures Sum(ys) == Sum(ys[..i] + ys[i + 1..]) + ys[i]
  {
    var tail := [ys[i]] + ys[i + 1..];
    assert ys == ys[..i] + tail;
    SumConcat(ys[..i], tail);
    SumConcat([ys[i]], ys[i + 1..]);
    SumConcat(ys[..i], ys[i + 1..]);
    SumOfOne(ys[i]);
  }

  lemma {:induction false} SumOfOne(x: real)
    ensures Sum([x]) == x
  {
    assert [x][..0] == [];
  }

  lemma {:induction false} BagWithout<T>(ys: seq<T>, i: nat)
    requires i < |ys|
    ensures multiset(ys) == multiset(ys[..i] + ys[i + 1..]) + multiset{ys[i]}
  {
    assert ys == ys[..i] + [ys[i]] + ys[i + 1..];
  }

  lemma {:induction false} SumOfPermutation(xs: seq<real>, ys: seq<real>)
    requires multiset(xs) == multiset(ys)
    ensures Sum(xs) == Sum(ys)
    decreases |xs|
  {
    if xs == [] {
      assert |multiset(ys)| == 0;
    } else {
      var n := |xs| - 1;
      var i := Occurrence(ys, xs[n]);
      var rest := ys[..i] + ys[i + 1..];
      BagWithout(xs, n);
      BagWithout(ys, i);
      SameRest(multiset(xs[..n] + xs[n + 1..]), multiset(rest), xs[n]);
      SumOfPermutation(xs[..n] + xs[n + 1..], rest);
      SumWithout(xs, n);
      SumWithout(ys, i);
    }
  }

  lemma {:induction false} Occurrence<T>(s: seq<T>, x: T) returns (i: nat)
    requires x in multiset(s)
    ensures i < |s| && s[i] == x
  {
    i :| 0 <= i < |s| && s[i] == x;
  }

  lemma {:induction false} SameRest<T>(a: multiset<T>, b: multiset<T>, x: T)
    requires a + multiset{x} == b + multiset{x}
    ensures a == b
  {
    assert a == (a + multiset{x}) - multiset{x};
    assert b == (b + multiset{x}) - multiset{x};
  }

  lemma {:induction false} AverageIgnoresOrder(xs: seq<real>, ys: seq<real>)
    requires Ratios(xs) && Ratios(ys) && multiset(xs) == multiset(ys)
    ensures Fold(xs).n == Fold(ys).n && Fold(xs).average == Fold(ys).average
  {
    assert |xs| == |multiset(xs)| == |ys|;
    AverageIsMean(xs);
    AverageIsMean(ys);
    SumOfPermutation(xs, ys);
    if xs != [] {
      MeanUnique(Fold(xs).average, Fold(ys).average, |xs| as real, Sum(xs));
    }
  }

  /** The fold depends on the bag of values only. */
  lemma {:induction false} FoldIgnoresOrder(xs: seq<real>, ys: seq<real>)
    requires Ratios(xs) && Ratios(ys) && multiset(xs) == multiset(ys)
    ensures Fold(xs) == Fold(ys)
  {
    AverageIgnoresOrder(xs, ys);
    MaximaAreLargest(xs);
    MaximaAreLargest(ys);
    TopsUnique(multiset(xs), Fold(xs).first, Fold(xs).second, Fold(ys).first, Fold(ys).second);
  }

  // ---- the location table ----

  // Time stamps are 32 bit and wrap around
  const STAMP_MAX: nat := 0xFFFF_FFFF

  type Stamp = t: nat | t <= STAMP_MAX

  datatype Report = Report(updated: Stamp, local: real, neighbour: real)

  predicate IsGreater(a: Stamp, b: Stamp) {
    (a > b && a - b <= STAMP_MAX / 2) || (b > a && b - a > STAMP_MAX / 2)
  }

  /** The report is not older than the given time stamp. */
  predicate IsFresh(r: Report, oldest: Stamp) {
    IsGreater(r.updated, oldest) || r.updated == oldest
  }

  /**
   Fresh by the distance that the report is ahead of the time stamp, modulo 2^32: less than half the range,
   or exactly half of it if the number is the smaller one.
   */
  lemma {:induction false} FreshByDistance(r: Report, oldest: Stamp)
    ensures var ahead := (r.updated - oldest) % 0x1_0000_0000;
      IsFresh(r, oldest) <==> ahead < 0x8000_0000 || (ahead == 0x8000_0000 && r.updated < oldest)
  {
    var gap := r.updated - oldest;
    if gap >= 0 {
      assert gap % 0x1_0000_0000 == gap;
    } else {
      assert gap % 0x1_0000_0000 == gap + 0x1_0000_0000;
    }
  }

  // A table entry without an extension for this medium has no report
  type Table = seq<Option<Report>>

  ghost predicate ValidTable(t: Table) {
    forall i :: 0 <= i < |t| && t[i].Some? ==> IsUnit(t[i].value.local) && IsUnit(t[i].value.neighbour)
  }

  function FreshReports(t: Table, oldest: Stamp): seq<Report> {
    if t == [] then []
    else
      var e := t[|t| - 1];
      var before := FreshReports(t[..|t| - 1], oldest);
      if e.Some? && IsFresh(e.value, oldest) then before + [e.value] else before
  }

  function Locals(rs: seq<Report>): seq<real> {
    seq(|rs|, i requires 0 <= i < |rs| => rs[i].local)
  }

  function Neighbours(rs: seq<Report>): seq<real> {
    seq(|rs|, i requires 0 <= i < |rs| => rs[i].neighbour)
  }

  datatype Ratio = Ratio(local: real, previous: real, oneHop: real, twoHop: real, global: real)

  // The aggregation of one hop and of two hop ratios
  datatype Hops = Hops(one: Unit, two: Unit)

  function Visit(h: Hops, e: Option<Report>, oldest: Stamp): Hops {
    if e.Some? && IsFresh(e.value, oldest)
    then Hops(Include(h.one, e.value.local), Include(h.two, e.value.neighbour))
    else h
  }

  function VisitAll(t: Table, oldest: Stamp): Hops {
    if t == [] then Hops(EMPTY, EMPTY) else Visit(VisitAll(t[..|t| - 1], oldest), t[|t| - 1], oldest)
  }

  function AfterAggregate(s: Ratio, local: real, t: Table, oldest: Stamp, target: real): Ratio {
    var h := VisitAll(t, oldest);
    var one, two := Select(h.one, target), Select(h.two, target);
    Ratio(local, s.local, one, two, Max(s.local, Max(one, two)))
  }

  class CbrAggregator {
    var local: real
    var previous: real
    var oneHop: real
    var twoHop: real
    var global: real

    function S(): Ratio
      reads this
    {
      Ratio(local, previous, oneHop, twoHop, global)
    }

    constructor ()
      ensures S() == Ratio(0.0, 0.0, 0.0, 0.0, 0.0)
    {
      local, previous, oneHop, twoHop, global := 0.0, 0.0, 0.0, 0.0, 0.0;
    }

    method Aggregate(value: real, t: Table, oldest: Stamp, target: real)
      modifies this
      ensures S() == AfterAggregate(old(S()), value, t, oldest, target)
    {
      previous := local;
      local := value;
      var one, two := EMPTY, EMPTY;
      var i := 0;
      while i < |t|
        invariant i <= |t| && local == value && previous == old(local)
        invariant Hops(one, two) == VisitAll(t[..i], oldest)
      {
        VisitNext(t, i, oldest);
        if t[i].Some? && IsFresh(t[i].value, oldest) {
          one := Include(one, t[i].value.local);
          two := Include(two, t[i].value.neighbour);
        }
        i := i + 1;
      }
      assert t[..i] == t;
      oneHop := Select(one, target);
      twoHop := Select(two, target);
      global := Max(previous, Max(oneHop, twoHop));
    }
  }

  lemma {:induction false} VisitNext(t: Table, i: nat, oldest: Stamp)
    requires i < |t|
    ensures VisitAll(t[..i + 1], oldest) == Visit(VisitAll(t[..i], oldest), t[i], oldest)
  {
    assert t[..i + 1][..i] == t[..i];
  }

  /** Visiting the table folds the values of its fresh reports. */
  lemma {:induction false} VisitFoldsFresh(t: Table, oldest: Stamp)
    ensures VisitAll(t, oldest)
         == Hops(Fold(Locals(FreshReports(t, oldest))), Fold(Neighbours(FreshReports(t, oldest))))
    decreases |t|
  {
    if t != [] {
      var before, e := t[..|t| - 1], t[|t| - 1];
      VisitFoldsFresh(before, oldest);
      if e.Some? {
        AppendReport(FreshReports(before, oldest), e.value);
      }
    }
  }

  lemma {:induction false} AppendReport(rs: seq<Report>, r: Report)
    ensures Fold(Locals(rs + [r])) == Include(Fold(Locals(rs)), r.local)
    ensures Fold(Neighbours(rs + [r])) == Include(Fold(Neighbours(rs)), r.neighbour)
  {
    assert Locals(rs + [r])[..|rs|] == Locals(rs);
    assert Neighbours(rs + [r])[..|rs|] == Neighbours(rs);
  }

  lemma {:induction false} FreshConcat(a: Table, b: Table, oldest: Stamp)
    ensures FreshReports(a + b, oldest) == FreshReports(a, oldest) + FreshReports(b, oldest)
    decreases |b|
  {
    if b == [] {
      assert a + b == a;
    } else {
      assert (a + b)[..|a + b| - 1] == a + b[..|b| - 1];
      FreshConcat(a, b[..|b| - 1], oldest);
    }
  }

  lemma {:induction false} FreshOfPermutation(a: Table, b: Table, oldest: Stamp)
    requires multiset(a) == multiset(b)
    ensures multiset(FreshReports(a, oldest)) == multiset(FreshReports(b, oldest))
    decreases |a|
  {
    if a == [] {
      assert |multiset(b)| == 0;
    } else {
      var before, e := a[..|a| - 1], a[|a| - 1];
      assert a == before + [e];
      assert e in multiset(b);
      var i :| 0 <= i < |b| && b[i] == e;
      var rest := FreshWithout(b, i, oldest);
      assert multiset(before) == multiset(a) - multiset{e};
      FreshOfPermutation(before, rest, oldest);
      FreshConcat(before, [e], oldest);
    }
  }

  lemma {:induction false} FreshWithout(b: Table, i: nat, oldest: Stamp) returns (rest: Table)
    requires i < |b|
    ensures multiset(rest) == multiset(b) - multiset{b[i]}
    ensures multiset(FreshReports(b, oldest))
         == multiset(FreshReports(rest, oldest)) + multiset(FreshReports([b[i]], oldest))
  {
    var e := b[i];
    rest := b[..i] + b[i + 1..];
    assert b == b[..i] + ([e] + b[i + 1..]);
    FreshConcat(b[..i], [e] + b[i + 1..], oldest);
    FreshConcat([e], b[i + 1..], oldest);
    FreshConcat(b[..i], b[i + 1..], oldest);
  }

  lemma {:induction false} ValuesOfPermutation(a: seq<Report>, b: seq<Report>)
    requires multiset(a) == multiset(b)
    ensures multiset(Locals(a)) == multiset(Locals(b)) && multiset(Neighbours(a)) == multiset(Neighbours(b))
    decreases |a|
  {
    if a == [] {
      assert |multiset(b)| == 0;
    } else {
      var before, r := a[..|a| - 1], a[|a| - 1];
      assert a == before + [r];
      assert r in multiset(b);
      var i :| 0 <= i < |b| && b[i] == r;
      var rest := b[..i] + b[i + 1..];
      assert b == b[..i] + [r] + b[i + 1..];
      assert multiset(rest) == multiset(b) - multiset{r};
      assert multiset(before) == multiset(a) - multiset{r};
      ValuesOfPermutation(before, rest);
      ValuesSplit(before, [], r);
      assert before + [] == before && before + [r] + [] == a;
      ValuesSplit(b[..i], b[i + 1..], r);
    }
  }

  lemma {:induction false} ValuesSplit(a: seq<Report>, b: seq<Report>, r: Report)
    ensures multiset(Locals(a + [r] + b)) == multiset(Locals(a + b)) + multiset{r.local}
    ensures multiset(Neighbours(a + [r] + b)) == multiset(Neighbours(a + b)) + multiset{r.neighbour}
  {
    assert Locals(a + [r] + b) == Locals(a) + [r.local] + Locals(b) && Locals(a + b) == Locals(a) + Locals(b);
    assert Neighbours(a + [r] + b) == Neighbours(a) + [r.neighbour] + Neighbours(b);
    assert Neighbours(a + b) == Neighbours(a) + Neighbours(b);
  }

  lemma {:induction false} RatiosAppend(rs: seq<Report>, r: Report)
    requires Ratios(Locals(rs)) && Ratios(Neighbours(rs)) && IsUnit(r.local) && IsUnit(r.neighbour)
    ensures Ratios(Locals(rs + [r])) && Ratios(Neighbours(rs + [r]))
  {
    assert Locals(rs + [r]) == Locals(rs) + [r.local] && Neighbours(rs + [r]) == Neighbours(rs) + [r.neighbour];
  }

  lemma {:induction false} FreshRatios(t: Table, oldest: Stamp)
    requires ValidTable(t)
    ensures Ratios(Locals(FreshReports(t, oldest))) && Ratios(Neighbours(FreshReports(t, oldest)))
    decreases |t|
  {
    if t != [] {
      var before, e := t[..|t| - 1], t[|t| - 1];
      FreshRatios(before, oldest);
      if e.Some? && IsFresh(e.value, oldest) {
        RatiosAppend(FreshReports(before, oldest), e.value);
      }
    }
  }

  /**
   The aggregated ratios do not depend on the order in which the location table is visited: they
   are determined by the bag of its entries and the previous local value.
   */
  lemma {:induction false} AggregateIgnoresOrder(s: Ratio, local: real, a: Table, b: Table, oldest: Stamp, target: real)
    requires ValidTable(a) && ValidTable(b) && multiset(a) == multiset(b)
    ensures AfterAggregate(s, local, a, oldest, target) == AfterAggregate(s, local, b, oldest, target)
  {
    VisitFoldsFresh(a, oldest);
    VisitFoldsFresh(b, oldest);
    FreshOfPermutation(a, b, oldest);
    ValuesOfPermutation(FreshReports(a, oldest), FreshReports(b, oldest));
    FreshRatios(a, oldest);
    FreshRatios(b, oldest);
    FoldIgnoresOrder(Locals(FreshReports(a, oldest)), Locals(FreshReports(b, oldest)));
    FoldIgnoresOrder(Neighbours(FreshReports(a, oldest)), Neighbours(FreshReports(b, oldest)));
  }

  // ---- what is chosen ----

  /** The largest value if the mean exceeds the target, and otherwise the second largest one; zeros fill up. */
  ghost predicate Chosen(xs: seq<real>, target: real, v: real) {
    exists a, b :: Tops(multiset(xs), a, b) && v == if MeanAbove(xs, target) then a else b
  }

  predicate MeanAbove(xs: seq<real>, target: real) {
    SumAbove(Sum(xs), |xs| as real, target)
  }

  predicate SumAbove(sum: real, n: real, target: real) {
    sum > target * n
  }

  lemma {:induction false} AverageAbove(xs: seq<real>, target: real)
    requires Ratios(xs) && xs != []
    ensures Fold(xs).average > target <==> MeanAbove(xs, target)
  {
    AverageIsMean(xs);
    MeanExceeds(Fold(xs).average, |xs| as real, Sum(xs), target);
  }

  lemma {:induction false} MeanExceeds(average: real, n: real, sum: real, target: real)
    requires n > 0.0 && IsMean(average, n, sum)
    ensures average > target <==> SumAbove(sum, n, target)
  {
    Distributed(average, target, n);
    SignTimes(average - target, n);
  }

  lemma {:induction false} Distributed(x: real, y: real, n: real)
    ensures x * n - y * n == (x - y) * n
  {
  }

  lemma {:induction false} SignTimes(gap: real, n: real)
    requires n > 0.0
    ensures gap > 0.0 <==> gap * n > 0.0
  {
  }

  lemma {:induction false} SelectChooses(xs: seq<real>, target: real)
    requires Ratios(xs)
    ensures Chosen(xs, target, Select(Fold(xs), target))
  {
    MaximaAreLargest(xs);
    if xs != [] {
      AverageAbove(xs, target);
    }
  }

  /**
   One-hop and two-hop ratio are chosen from the fresh reports by their mean, and the global ratio is the
   largest of both and of the local ratio before this aggregation.
   */
  lemma {:induction false} AggregateChooses(s: Ratio, local: real, t: Table, oldest: Stamp, target: real)
    requires ValidTable(t)
    ensures var r, reports := AfterAggregate(s, local, t, oldest, target), FreshReports(t, oldest);
      && Chosen(Locals(reports), target, r.oneHop) && Chosen(Neighbours(reports), target, r.twoHop)
      && r.local == local && r.previous == s.local
      && r.global in {s.local, r.oneHop, r.twoHop}
      && r.global >= s.local && r.global >= r.oneHop && r.global >= r.twoHop
  {
    var reports := FreshReports(t, oldest);
    VisitFoldsFresh(t, oldest);
    FreshRatios(t, oldest);
    SelectChooses(Locals(reports), target);
    SelectChooses(Neighbours(reports), target);
  }
}
