/**
 Path history (Method One of the VSC-A final report, appendix B-2): from all samples of a
 trajectory a concise list of points is kept.  Distances on the globe and the error of a chord
 are abstract functions.
 */
module PathHistories {
  import opened UnitIntervals

  datatype Point = Point(place: nat, heading: real, time: int)

  // chord: distance of two points; bulge: error of a chord for a change of heading
  datatype Geometry = Geometry(chord: (Point, Point) -> real, bulge: (real, real) -> real)

  datatype Params = Params(allowableError: real, chordThreshold: real, smallPhi: real, retention: real)

  ghost predicate Valid(g: Geometry, p: Params) {
    p.retention > 0.0 && forall a, b :: g.chord(a, b) >= 0.0
  }

  // Both newest first; samples is a ring of three
  datatype History = History(samples: seq<Point>, concise: seq<Point>)

  const EMPTY := History([], [])

  /** Length of the path through the first k points. */
  function Length(g: Geometry, cs: seq<Point>, k: nat): real
    requires k <= |cs|
  {
    if k <= 1 then 0.0 else Length(g, cs, k - 1) + g.chord(cs[k - 2], cs[k - 1])
  }

  function ChordError(g: Geometry, p: Params, start: Point, next: Point): real {
    var c := g.chord(start, next);
    if c > p.chordThreshold then p.allowableError + 1.0
    else
      var phi := next.heading - start.heading;
      if Abs(phi) < p.smallPhi then 0.0 else g.bulge(c, phi)
  }

  /** From k points on, the number of points up to the first one that reaches the retention distance. */
  function Retained(g: Geometry, p: Params, cs: seq<Point>, k: nat): (n: nat)
    requires k <= |cs|
    ensures k <= n <= |cs|
    ensures n < |cs| ==> Length(g, cs, n) >= p.retention
    ensures forall j :: k <= j < n ==> Length(g, cs, j) < p.retention
    decreases |cs| - k
  {
    if k == |cs| || Length(g, cs, k) >= p.retention then k else Retained(g, p, cs, k + 1)
  }

  function Truncated(g: Geometry, p: Params, cs: seq<Point>): seq<Point> {
    if |cs| > 2 then cs[..Retained(g, p, cs, 2)] else cs
  }

  function Sampled(samples: seq<Point>, x: Point): seq<Point> {
    if |samples| >= 3 then [x] + samples[..2] else [x] + samples
  }

  /** A full ring and a chord that is off by too much keep the sample before the newest one. */
  function Extended(g: Geometry, p: Params, samples: seq<Point>, cs: seq<Point>): seq<Point>
    requires cs != []
  {
    if |samples| >= 3 && ChordError(g, p, cs[0], samples[0]) > p.allowableError then [samples[1]] + cs else cs
  }

  function After(g: Geometry, p: Params, h: History, x: Point): History {
    var samples := Sampled(h.samples, x);
    var cs := if h.concise == [] then [x] else h.concise;
    History(samples, Truncated(g, p, Extended(g, p, samples, cs)))
  }

  class PathHistory {
    const geometry: Geometry
    const params: Params
    var samples: seq<Point>
    var concise: seq<Point>

    ghost function H(): History
      reads this
    {
      History(samples, concise)
    }

    constructor (geometry: Geometry, params: Params)
      ensures this.geometry == geometry && this.params == params && H() == EMPTY
    {
      this.geometry, this.params := geometry, params;
      samples, concise := [], [];
    }

    method Clear()
      modifies this
      ensures H() == EMPTY
    {
      samples, concise := [], [];
    }

    method AddSample(x: Point)
      modifies this
      ensures H() == After(geometry, params, old(H()), x)
    {
      samples := if |samples| >= 3 then [x] + samples[..2] else [x] + samples;
      if concise == [] {
        concise := [samples[0]];
      }
      UpdateConcisePoints();
      TruncateConcisePoints();
    }

    /** Afterwards the newest point describes the way to the latest sample accurately or is the one before. */
    method UpdateConcisePoints()
      requires concise != []
      modifies this
      ensures samples == old(samples)
      ensures concise == Extended(geometry, params, samples, old(concise))
      ensures |samples| >= 3 ==> concise[0] == samples[1] || Fits(geometry, params, concise[0], samples[0])
      ensures |concise| >= |old(concise)| && concise[|concise| - |old(concise)|..] == old(concise)
    {
      if |samples| >= 3 {
        var error := ChordError(geometry, params, concise[0], samples[0]);
        if error > params.allowableError {
          concise := [samples[1]] + concise;
        }
      }
    }

    method TruncateConcisePoints()
      modifies this
      ensures samples == old(samples)
      ensures concise == Truncated(geometry, params, old(concise))
    {
      var distance := 0.0;
      if |concise| > 2 {
        var current := 1;
        while current < |concise|
          invariant 1 <= current <= |concise| && concise == old(concise) && samples == old(samples)
          invariant distance == Length(geometry, concise, current)
          invariant current >= 2 ==> distance < params.retention
          invariant Retained(geometry, params, concise, 2)
                 == Retained(geometry, params, concise, if current < 2 then 2 else current)
        {
          distance := distance + geometry.chord(concise[current - 1], concise[current]);
          current := current + 1;
          if distance >= params.retention {
            concise := concise[..current];
            return;
          }
        }
        assert concise[..|concise|] == concise;
      }
    }

    /** The newest points covering at least a distance, at most max points. */
    method MinLength(distance: real, max: nat) returns (cut: nat)
      ensures IsMinCut(geometry, concise, distance, max, cut)
    {
      var covered := 0.0;
      cut := 0;
      while cut < |concise| && cut < max
        invariant cut <= Cap(max, concise)
        invariant covered == Length(geometry, concise, cut)
        invariant forall j :: 1 <= j <= cut ==> Length(geometry, concise, j) < distance
      {
        if cut > 0 {
          covered := covered + geometry.chord(concise[cut - 1], concise[cut]);
        }
        if covered >= distance {
          cut := cut + 1;
          break;
        }
        cut := cut + 1;
      }
    }

    /** The newest points covering at most a distance, at most max points. */
    method MaxLength(distance: real, max: nat) returns (cut: nat)
      ensures IsMaxCut(geometry, concise, distance, max, cut)
    {
      var covered := 0.0;
      cut := 0;
      while cut < |concise| && cut < max
        invariant cut <= Cap(max, concise)
        invariant covered == Length(geometry, concise, cut)
        invariant cut >= 2 ==> covered <= distance
      {
        if cut > 0 {
          covered := covered + geometry.chord(concise[cut - 1], concise[cut]);
          if covered > distance {
            break;
          }
        }
        cut := cut + 1;
      }
    }
  }

  /** The number of points a query may return. */
  function Cap(max: nat, cs: seq<Point>): nat {
    if max < |cs| then max else |cs|
  }

  lemma {:induction false} LengthGrows(g: Geometry, p: Params, cs: seq<Point>, i: nat, j: nat)
    requires Valid(g, p) && i <= j <= |cs|
    ensures 0.0 <= Length(g, cs, i) <= Length(g, cs, j)
    decreases j
  {
    if i < j {
      LengthGrows(g, p, cs, i, j - 1);
    } else if j > 0 {
      LengthGrows(g, p, cs, j - 1, j - 1);
    }
  }

  // ---- the prefix queries ----

  /** What the Max query ensures of its result. */
  ghost predicate IsMaxCut(g: Geometry, cs: seq<Point>, distance: real, max: nat, cut: nat) {
    && cut <= Cap(max, cs)
    && (cut >= 2 ==> Length(g, cs, cut) <= distance)
    && (cut < Cap(max, cs) ==> cut >= 1 && Length(g, cs, cut + 1) > distance)
  }

  /**
   The Max query returns the longest prefix of at most the distance, within the cap, if and only
   if the distance is not negative or there is nothing to return.
   */
  lemma {:induction false} MaxCutIsLongest(g: Geometry, p: Params, cs: seq<Point>, distance: real, max: nat, cut: nat)
    requires Valid(g, p) && IsMaxCut(g, cs, distance, max, cut)
    ensures (cut == 0 || Length(g, cs, cut) <= distance) <==> distance >= 0.0 || Cap(max, cs) == 0
    ensures forall k :: 1 <= k <= Cap(max, cs) && Length(g, cs, k) <= distance ==> k <= cut
  {
    LengthGrows(g, p, cs, cut, cut);
    forall k | 1 <= k <= Cap(max, cs) && Length(g, cs, k) <= distance ensures k <= cut {
      if k > cut {
        LengthGrows(g, p, cs, cut + 1, k);
      }
    }
  }

  /** What the Min query ensures of its result. */
  ghost predicate IsMinCut(g: Geometry, cs: seq<Point>, distance: real, max: nat, cut: nat) {
    && cut <= Cap(max, cs)
    && (forall j :: 1 <= j < cut ==> Length(g, cs, j) < distance)
    && (cut < Cap(max, cs) ==> cut >= 1 && Length(g, cs, cut) >= distance)
  }

  /** The Min query returns the shortest prefix that reaches the distance, or all it may return if none does. */
  lemma {:induction false} MinCutIsShortest(g: Geometry, p: Params, cs: seq<Point>, distance: real, max: nat, cut: nat)
    requires Valid(g, p) && IsMinCut(g, cs, distance, max, cut)
    ensures (exists k :: 1 <= k <= Cap(max, cs) && Length(g, cs, k) >= distance) ==>
              cut >= 1 && Length(g, cs, cut) >= distance
    ensures forall k :: 1 <= k <= Cap(max, cs) && Length(g, cs, k) >= distance ==> cut <= k
    ensures (forall k :: 1 <= k <= Cap(max, cs) ==> Length(g, cs, k) < distance) ==> cut == Cap(max, cs)
  {
    if exists k :: 1 <= k <= Cap(max, cs) && Length(g, cs, k) >= distance {
      var k :| 1 <= k <= Cap(max, cs) && Length(g, cs, k) >= distance;
      if cut == Cap(max, cs) {
        LengthGrows(g, p, cs, k, cut);
      }
    }
  }

  // ---- runs ----

  function Run(g: Geometry, p: Params, xs: seq<Point>): History {
    if xs == [] then EMPTY else After(g, p, Run(g, p, xs[..|xs| - 1]), xs[|xs| - 1])
  }

  /** cs are samples of xs, newest first: at[k] is the position of the k-th point. */
  ghost predicate Selects(cs: seq<Point>, xs: seq<Point>, at: seq<nat>) {
    && |at| == |cs|
    && (forall k :: 0 <= k < |at| ==> at[k] < |xs| && cs[k] == xs[at[k]])
    && (forall j, k :: 0 <= j < k < |at| ==> at[j] > at[k])
  }

  lemma {:induction false} SelectsFrom(cs: seq<Point>, xs: seq<Point>, at: seq<nat>)
    requires Selects(cs, xs, at)
    ensures cs != [] ==> xs != []
  {
    assert cs != [] ==> at[0] < |xs|;
  }

  lemma {:induction false} SelectsAppend(cs: seq<Point>, xs: seq<Point>, x: Point, at: seq<nat>)
    requires Selects(cs, xs, at)
    ensures Selects(cs, xs + [x], at)
  {
  }

  lemma {:induction false} SelectsPush(cs: seq<Point>, xs: seq<Point>, at: seq<nat>, i: nat)
    requires Selects(cs, xs, at) && i < |xs| && (at != [] ==> at[0] < i)
    ensures Selects([xs[i]] + cs, xs, [i] + at)
  {
  }

  lemma {:induction false} SelectsCut(cs: seq<Point>, xs: seq<Point>, at: seq<nat>, n: nat)
    requires Selects(cs, xs, at) && n <= |cs|
    ensures Selects(cs[..n], xs, at[..n])
  {
  }

  /** The chord between two points of the path is accurate enough. */
  predicate Fits(g: Geometry, p: Params, start: Point, next: Point) {
    && !IsLong(g, p, start, next)
    && (if IsStraight(p, start, next) then 0.0 else g.bulge(g.chord(start, next), next.heading - start.heading))
       <= p.allowableError
  }

  /** The two points are too far apart to be joined by a chord. */
  predicate IsLong(g: Geometry, p: Params, start: Point, next: Point) {
    g.chord(start, next) > p.chordThreshold
  }

  /** The heading hardly changes. */
  predicate IsStraight(p: Params, start: Point, next: Point) {
    -p.smallPhi < next.heading - start.heading < p.smallPhi
  }

  /** A chord is off by too much exactly if it is too long, or bends too much on its way. */
  lemma {:induction false} ErrorMeansMisfit(g: Geometry, p: Params, start: Point, next: Point)
    ensures ChordError(g, p, start, next) > p.allowableError <==> !Fits(g, p, start, next)
  {
  }

  /** Every segment joins neighbouring samples or is accurate enough. */
  ghost predicate Accurate(g: Geometry, p: Params, cs: seq<Point>, at: seq<nat>) {
    |at| == |cs| && forall j, k :: 0 <= j < |cs| && k == j + 1 && k < |cs| ==>
                                     at[j] == at[k] + 1 || Fits(g, p, cs[k], cs[j])
  }

  /** The newest concise point is one of the latest two samples or describes the way to the latest one accurately. */
  ghost predicate Covers(g: Geometry, p: Params, cs: seq<Point>, at: seq<nat>, xs: seq<Point>) {
    xs != [] && cs != [] && |at| == |cs| && (at[0] + 2 >= |xs| || Fits(g, p, cs[0], xs[|xs| - 1]))
  }

  lemma {:induction false} AccuratePush(g: Geometry, p: Params, cs: seq<Point>, at: seq<nat>, x: Point, i: nat)
    requires Accurate(g, p, cs, at) && cs != [] && (i == at[0] + 1 || Fits(g, p, cs[0], x))
    ensures Accurate(g, p, [x] + cs, [i] + at)
  {
  }

  lemma {:induction false} AccurateCut(g: Geometry, p: Params, cs: seq<Point>, at: seq<nat>, n: nat)
    requires Accurate(g, p, cs, at) && n <= |cs|
    ensures Accurate(g, p, cs[..n], at[..n])
  {
  }

  /** What is known of the concise points while samples come in. */
  ghost predicate Concise(g: Geometry, p: Params, cs: seq<Point>, xs: seq<Point>, at: seq<nat>) {
    && Selects(cs, xs, at) && Accurate(g, p, cs, at)
    && (xs != [] ==> cs != [] && (at[0] == 0 || at[0] + 2 <= |xs|) && Covers(g, p, cs, at, xs))
  }

  lemma {:induction false} ExtendedConcise(g: Geometry, p: Params, samples: seq<Point>, cs: seq<Point>,
                                           xs: seq<Point>, x: Point, at: seq<nat>)
    returns (next: seq<nat>)
    requires xs != [] && Concise(g, p, cs, xs, at) && Newest(samples, xs + [x])
    ensures Concise(g, p, Extended(g, p, samples, cs), xs + [x], next)
  {
    var all := xs + [x];
    SelectsAppend(cs, xs, x, at);
    next := at;
    if |samples| >= 3 && !Fits(g, p, cs[0], samples[0]) {
      var i := |xs| - 1;
      assert samples[0] == x && samples[1] == all[i] == xs[i];
      AccuratePush(g, p, cs, at, all[i], i);
      SelectsPush(cs, all, at, i);
      next := [i] + at;
    } else if |samples| >= 3 {
      assert samples[0] == all[|xs|];
    }
  }

  lemma {:induction false} TruncatedConcise(g: Geometry, p: Params, cs: seq<Point>, xs: seq<Point>, at: seq<nat>)
    returns (next: seq<nat>)
    requires Concise(g, p, cs, xs, at)
    ensures Concise(g, p, Truncated(g, p, cs), xs, next)
  {
    next := at;
    if |cs| > 2 {
      var n := Retained(g, p, cs, 2);
      SelectsCut(cs, xs, at, n);
      AccurateCut(g, p, cs, at, n);
      next := at[..n];
    }
  }

  ghost predicate Newest(samples: seq<Point>, xs: seq<Point>) {
    && |samples| == (if |xs| < 3 then |xs| else 3)
    && forall k :: 0 <= k < |samples| ==> samples[k] == xs[|xs| - 1 - k]
  }

  lemma {:induction false} SamplesAreNewest(g: Geometry, p: Params, xs: seq<Point>)
    ensures Newest(Run(g, p, xs).samples, xs)
    decreases |xs|
  {
    if xs != [] {
      var before, x := xs[..|xs| - 1], xs[|xs| - 1];
      SamplesAreNewest(g, p, before);
      SampledNewest(Run(g, p, before).samples, before, x);
      assert before + [x] == xs;
    }
  }

  lemma {:induction false} SampledNewest(samples: seq<Point>, xs: seq<Point>, x: Point)
    requires Newest(samples, xs)
    ensures Newest(Sampled(samples, x), xs + [x])
  {
  }

  lemma {:induction false} FirstConcise(g: Geometry, p: Params, samples: seq<Point>, x: Point)
    requires samples == []
    ensures Concise(g, p, Extended(g, p, Sampled(samples, x), [x]), [x], [0])
  {
  }

  lemma {:induction false} ConciseStep(g: Geometry, p: Params, h: History, xs: seq<Point>, x: Point, at: seq<nat>)
    returns (next: seq<nat>)
    requires Newest(h.samples, xs) && Concise(g, p, h.concise, xs, at)
    ensures Concise(g, p, After(g, p, h, x).concise, xs + [x], next)
  {
    var samples := Sampled(h.samples, x);
    SampledNewest(h.samples, xs, x);
    if xs == [] {
      SelectsFrom(h.concise, xs, at);
      FirstConcise(g, p, h.samples, x);
      assert xs + [x] == [x];
      next := TruncatedConcise(g, p, Extended(g, p, samples, [x]), xs + [x], [0]);
    } else {
      next := ExtendedConcise(g, p, samples, h.concise, xs, x, at);
      next := TruncatedConcise(g, p, Extended(g, p, samples, h.concise), xs + [x], next);
    }
  }

  /**
   In every run the concise points are distinct samples, newest first; every segment between them
   joins neighbouring samples or has a chord that is accurate enough, and so has the way from the
   newest of them to the latest sample, unless it is among the latest two.
   */
  lemma {:induction false} ConciseSelectsSamples(g: Geometry, p: Params, xs: seq<Point>) returns (at: seq<nat>)
    ensures Concise(g, p, Run(g, p, xs).concise, xs, at)
    decreases |xs|
  {
    at := [];
    if xs != [] {
      at := ConciseSelectsSamples(g, p, xs[..|xs| - 1]);
      at := ConciseAfter(g, p, xs, at);
    }
  }

  lemma {:induction false} ConciseAfter(g: Geometry, p: Params, xs: seq<Point>, at: seq<nat>) returns (next: seq<nat>)
    requires xs != [] && Concise(g, p, Run(g, p, xs[..|xs| - 1]).concise, xs[..|xs| - 1], at)
    ensures Concise(g, p, Run(g, p, xs).concise, xs, next)
  {
    var before, x := xs[..|xs| - 1], xs[|xs| - 1];
    SamplesAreNewest(g, p, before);
    next := ConciseStep(g, p, Run(g, p, before), before, x, at);
    assert before + [x] == xs;
  }

  /** The path without its oldest segment is shorter than the retention distance. */
  lemma {:induction false} PathIsBounded(g: Geometry, p: Params, xs: seq<Point>)
    requires Valid(g, p) && xs != []
    ensures var cs := Run(g, p, xs).concise;
            cs != [] && Length(g, cs, |cs| - 1) < p.retention
  {
    var at := ConciseSelectsSamples(g, p, xs);
    var before, x := xs[..|xs| - 1], xs[|xs| - 1];
    var h := Run(g, p, before);
    var cs := Extended(g, p, Sampled(h.samples, x), if h.concise == [] then [x] else h.concise);
    TruncatedIsBounded(g, p, cs);
  }

  lemma {:induction false} TruncatedIsBounded(g: Geometry, p: Params, cs: seq<Point>)
    requires Valid(g, p) && cs != []
    ensures var t := Truncated(g, p, cs); t != [] && Length(g, t, |t| - 1) < p.retention
  {
    var t := Truncated(g, p, cs);
    if |cs| > 2 {
      var n := Retained(g, p, cs, 2);
      PrefixLength(g, cs, n, n - 1);
    }
  }

  lemma {:induction false} PrefixLength(g: Geometry, cs: seq<Point>, n: nat, k: nat)
    requires k <= n <= |cs|
    ensures Length(g, cs[..n], k) == Length(g, cs, k)
    decreases k
  {
    if k > 1 {
      PrefixLength(g, cs, n, k - 1);
    }
  }

  // ---- which samples are kept ----

  /** The concise points with the sample before the latest one, if the chord from them to the latest one misfits. */
  ghost function Grown(g: Geometry, p: Params, cs: seq<Point>, xs: seq<Point>): seq<Point>
    requires cs != [] && xs != []
  {
    if |xs| >= 3 && !Fits(g, p, cs[0], xs[|xs| - 1]) then [xs[|xs| - 2]] + cs else cs
  }

  /** The newest points of a path; older ones are cut off only if the rest reaches the retention distance. */
  ghost predicate CutFrom(g: Geometry, p: Params, cs: seq<Point>, all: seq<Point>) {
    cs != [] && cs <= all && (|cs| < |all| ==> Length(g, cs, |cs|) >= p.retention)
  }

  lemma {:induction false} TruncatedIsCut(g: Geometry, p: Params, cs: seq<Point>)
    requires cs != []
    ensures CutFrom(g, p, Truncated(g, p, cs), cs)
  {
    if |cs| > 2 {
      var n := Retained(g, p, cs, 2);
      PrefixLength(g, cs, n, n);
    }
  }

  /**
   In every run a sample is kept exactly if the chord from the newest point kept so far to the sample after
   it misfits, and the oldest points are forgotten only if the rest is long enough.
   */
  lemma {:induction false} KeptExactly(g: Geometry, p: Params, xs: seq<Point>)
    requires |xs| > 1
    ensures var before := Run(g, p, xs[..|xs| - 1]).concise;
      before != [] && CutFrom(g, p, Run(g, p, xs).concise, Grown(g, p, before, xs))
  {
    var before, x := xs[..|xs| - 1], xs[|xs| - 1];
    var h := Run(g, p, before);
    var at := ConciseSelectsSamples(g, p, before);
    SamplesAreNewest(g, p, before);
    SampledNewest(h.samples, before, x);
    assert before + [x] == xs;
    GrownIsExtended(g, p, Sampled(h.samples, x), h.concise, xs);
    TruncatedIsCut(g, p, Grown(g, p, h.concise, xs));
  }

  lemma {:induction false} GrownIsExtended(g: Geometry, p: Params, samples: seq<Point>, cs: seq<Point>, xs: seq<Point>)
    requires cs != [] && xs != [] && Newest(samples, xs)
    ensures Extended(g, p, samples, cs) == Grown(g, p, cs, xs)
  {
    ErrorMeansMisfit(g, p, cs[0], xs[|xs| - 1]);
  }
}
