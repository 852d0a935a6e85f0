/** The general-degree Bézier evaluators of lab5/casteljau.js: the De
    Casteljau stage pyramid, the Pascal-row binomial generator, the
    Bernstein-form evaluator with incremental powers, the sampling loop of
    `drawBezierCurve` and the tangent drawn by `render`. */
module Bezier {
  import opened Num

  datatype Point = Point(x: real, y: real)

  const Origin: Point := Point(0.0, 0.0)

  function Plus(a: Point, b: Point): Point { Point(a.x + b.x, a.y + b.y) }
  function Minus(a: Point, b: Point): Point { Point(a.x - b.x, a.y - b.y) }
  function Times(k: real, a: Point): Point { Point(k * a.x, k * a.y) }

  /** `lerp`: p0 + (p1 - p0) t, which is the convex combination
      (1 - t) p0 + t p1 and interpolates the two points. */
  function Lerp(p0: Point, p1: Point, t: real): (r: Point)
    ensures t == 0.0 ==> r == p0
    ensures t == 1.0 ==> r == p1
    ensures r == Plus(Times(1.0 - t, p0), Times(t, p1))
  {
    MixSplit(p0.x, p1.x, t);
    MixSplit(p0.y, p1.y, t);
    Point(p0.x + (p1.x - p0.x) * t, p0.y + (p1.y - p0.y) * t)
  }

  lemma MixSplit(a: real, b: real, t: real)
    ensures a + (b - a) * t == (1.0 - t) * a + t * b
    ensures t == 0.0 ==> a + (b - a) * t == a
    ensures t == 1.0 ==> a + (b - a) * t == b
  {
    assert (b - a) * t == b * t - a * t;
    assert (1.0 - t) * a == a - t * a;
  }

  // ------------------------------------------------------ De Casteljau

  /** One pass of the inner loop of `deCasteljau`. */
  function NextStage(s: seq<Point>, t: real): (r: seq<Point>)
    requires |s| >= 1
    ensures |r| == |s| - 1
    ensures forall i :: 0 <= i < |r| ==> r[i] == Lerp(s[i], s[i + 1], t)
  {
    seq(|s| - 1, i requires 0 <= i < |s| - 1 => Lerp(s[i], s[i + 1], t))
  }

  /** The value `deCasteljau` returns: the input, then one stage per pass
      while the current stage has more than one point. */
  function Stages(points: seq<Point>, t: real): (st: seq<seq<Point>>)
    ensures |st| >= 1 && st[0] == points
    ensures |points| >= 1 ==> |st| == |points|
    decreases |points|
  {
    if |points| <= 1 then [points] else [points] + Stages(NextStage(points, t), t)
  }

  /** The inner loop of `deCasteljau`: one interpolated point per
      adjacent pair of the current stage. */
  method InterpolateStage(current: seq<Point>, t: real) returns (next: seq<Point>)
    requires |current| >= 1
    ensures next == NextStage(current, t)
  {
    next := [];
    for i := 0 to |current| - 1
      invariant |next| == i
      invariant forall j :: 0 <= j < i ==> next[j] == Lerp(current[j], current[j + 1], t)
    {
      next := next + [Lerp(current[i], current[i + 1], t)];
    }
  }

  /** Appending the next stage keeps the pyramid built so far a prefix of
      `Stages`. */
  lemma StagesStep(done: seq<seq<Point>>, current: seq<Point>, t: real)
    requires |current| > 1
    ensures done + Stages(current, t) == (done + [current]) + Stages(NextStage(current, t), t)
  {
  }

  /** Stage k has n + 1 - k points and each stage is the interpolation of
      the one before. */
  lemma {:induction false} StagesShape(points: seq<Point>, t: real)
    ensures |points| >= 1 ==> forall k :: 0 <= k < |Stages(points, t)| ==> |Stages(points, t)[k]| == |points| - k
    ensures forall k :: 0 <= k < |Stages(points, t)| - 1 ==>
              |Stages(points, t)[k]| >= 1 && Stages(points, t)[k + 1] == NextStage(Stages(points, t)[k], t)
    decreases |points|
  {
    if |points| > 1 {
      StagesShape(NextStage(points, t), t);
    }
  }

  /** `deCasteljau` as written: a while loop over the current stage with
      an inner loop building the next one. */
  method DeCasteljau(points: seq<Point>, t: real) returns (stages: seq<seq<Point>>)
    ensures stages == Stages(points, t)
  {
    var done: seq<seq<Point>> := [];
    var current := points;
    while |current| > 1
      invariant Stages(points, t) == done + Stages(current, t)
      decreases |current|
    {
      var next := InterpolateStage(current, t);
      StagesStep(done, current, t);
      done := done + [current];
      current := next;
    }
    stages := done + [current];
  }

  /** The point on the curve: the single point of the last stage. */
  function Final(points: seq<Point>, t: real): Point
    requires |points| >= 1
    decreases |points|
  {
    if |points| == 1 then points[0] else Final(NextStage(points, t), t)
  }

  /** `stages[stages.length - 1][0]` is `Final`. */
  lemma {:induction false} LastStageIsFinal(points: seq<Point>, t: real)
    requires |points| >= 1
    ensures Stages(points, t)[|points| - 1] == [Final(points, t)]
    decreases |points|
  {
    if |points| > 1 {
      LastStageIsFinal(NextStage(points, t), t);
    }
  }

  /** Dropping the last (first) control point commutes with a stage. */
  lemma NextStageEnds(points: seq<Point>, t: real)
    requires |points| >= 2
    ensures NextStage(points[..|points| - 1], t) == NextStage(points, t)[..|points| - 2]
    ensures NextStage(points[1..], t) == NextStage(points, t)[1..]
  {
  }

  /** The curve of n+1 points interpolates the curves of the first n and
      of the last n points. */
  lemma {:induction false} FinalRecurrence(points: seq<Point>, t: real)
    requires |points| >= 2
    ensures Final(points, t) == Lerp(Final(points[..|points| - 1], t), Final(points[1..], t), t)
    decreases |points|
  {
    var q := NextStage(points, t);
    NextStageEnds(points, t);
    if |points| > 2 {
      FinalRecurrence(q, t);
    }
  }

  /** The curve starts at the first control point and ends at the last. */
  lemma {:induction false} FinalEndpoints(points: seq<Point>)
    requires |points| >= 1
    ensures Final(points, 0.0) == points[0]
    ensures Final(points, 1.0) == points[|points| - 1]
    decreases |points|
  {
    if |points| > 1 {
      FinalEndpoints(NextStage(points, 0.0));
      FinalEndpoints(NextStage(points, 1.0));
    }
  }

  /** The second-to-last stage is the pair of points of the two curves of
      degree n - 1. */
  lemma {:induction false} PenultimateStage(points: seq<Point>, t: real)
    requires |points| >= 2
    ensures Stages(points, t)[|points| - 2] == [Final(points[..|points| - 1], t), Final(points[1..], t)]
    decreases |points|
  {
    if |points| > 2 {
      var q := NextStage(points, t);
      NextStageEnds(points, t);
      PenultimateStage(q, t);
      assert Stages(points, t)[|points| - 2] == Stages(q, t)[|q| - 2];
    } else {
      assert points == [points[0], points[1]];
    }
  }

  // ---------------------------------------------------------- Bernstein

  /** `binomialCoeffs(n)`: Pascal's rule applied downwards in place, one
      row per pass. */
  method BinomialCoeffs(n: nat) returns (c: seq<int>)
    ensures |c| == n + 1
    ensures forall k :: 0 <= k <= n ==> c[k] == Choose(n, k)
  {
    c := seq(n + 1, _ => 0);
    c := c[0 := 1];
    for i := 1 to n + 1
      invariant |c| == n + 1
      invariant forall j :: 0 <= j <= n ==> c[j] == Choose(i - 1, j)
    {
      var k := i;
      while k > 0
        invariant 0 <= k <= i
        invariant |c| == n + 1
        invariant forall j :: 0 <= j <= n ==> c[j] == (if j > k then Choose(i, j) else Choose(i - 1, j))
      {
        PascalRule(i, k);
        c := c[k := c[k] + c[k - 1]];
        k := k - 1;
      }
    }
  }

  /** Sum of w_j p_j. */
  function WSum(ws: seq<real>, ps: seq<Point>): Point
    requires |ws| == |ps|
    decreases |ws|
  {
    if |ws| == 0 then Origin else Plus(Times(ws[0], ps[0]), WSum(ws[1..], ps[1..]))
  }

  lemma {:induction false} WSumSnoc(ws: seq<real>, ps: seq<Point>, w: real, p: Point)
    requires |ws| == |ps|
    ensures WSum(ws + [w], ps + [p]) == Plus(WSum(ws, ps), Times(w, p))
    decreases |ws|
  {
    if |ws| > 0 {
      assert (ws + [w])[1..] == ws[1..] + [w];
      assert (ps + [p])[1..] == ps[1..] + [p];
      WSumSnoc(ws[1..], ps[1..], w, p);
    }
  }

  lemma {:induction false} WSumAddWeights(a: seq<real>, b: seq<real>, c: seq<real>, ps: seq<Point>)
    requires |a| == |b| == |c| == |ps|
    requires forall i :: 0 <= i < |c| ==> c[i] == a[i] + b[i]
    ensures WSum(c, ps) == Plus(WSum(a, ps), WSum(b, ps))
    decreases |c|
  {
    if |c| > 0 {
      WSumAddWeights(a[1..], b[1..], c[1..], ps[1..]);
      var p := ps[0];
      var sa, sb := WSum(a[1..], ps[1..]), WSum(b[1..], ps[1..]);
      assert WSum(c, ps) == Plus(Times(c[0], p), Plus(sa, sb));
      assert WSum(a, ps) == Plus(Times(a[0], p), sa);
      assert WSum(b, ps) == Plus(Times(b[0], p), sb);
      PlusTimesSplit(c[0], a[0], b[0], p, sa, sb);
    }
  }

  lemma PlusTimesSplit(c: real, a: real, b: real, p: Point, sa: Point, sb: Point)
    requires c == a + b
    ensures Plus(Times(c, p), Plus(sa, sb)) == Plus(Plus(Times(a, p), sa), Plus(Times(b, p), sb))
  {
    assert c * p.x == a * p.x + b * p.x;
    assert c * p.y == a * p.y + b * p.y;
  }

  lemma {:induction false} WSumScaleWeights(k: real, a: seq<real>, c: seq<real>, ps: seq<Point>)
    requires |a| == |c| == |ps|
    requires forall i :: 0 <= i < |c| ==> c[i] == Scaled(k, a[i])
    ensures WSum(c, ps) == Times(k, WSum(a, ps))
    decreases |c|
  {
    if |c| > 0 {
      WSumScaleWeights(k, a[1..], c[1..], ps[1..]);
      assert c[0] * ps[0].x == k * (a[0] * ps[0].x);
      assert c[0] * ps[0].y == k * (a[0] * ps[0].y);
    }
  }

  lemma {:induction false} WSumSubPoints(ws: seq<real>, ps: seq<Point>, qs: seq<Point>, ds: seq<Point>)
    requires |ws| == |ps| == |qs| == |ds|
    requires forall i :: 0 <= i < |ds| ==> ds[i] == Minus(ps[i], qs[i])
    ensures WSum(ws, ds) == Minus(WSum(ws, ps), WSum(ws, qs))
    decreases |ws|
  {
    if |ws| > 0 {
      WSumSubPoints(ws[1..], ps[1..], qs[1..], ds[1..]);
      ScaleDifference(ws[0], ps[0], qs[0]);
    }
  }

  lemma ScaleDifference(w: real, p: Point, q: Point)
    ensures Times(w, Minus(p, q)) == Minus(Times(w, p), Times(w, q))
  {
    assert w * (p.x - q.x) == w * p.x - w * q.x;
    assert w * (p.y - q.y) == w * p.y - w * q.y;
  }

  /** One weight c u^a t^b, kept behind a name so that reading an element
      of a weight sequence does not expose the product to the solver. */
  function Term(c: real, u: real, t: real, a: nat, b: nat): real
  {
    Prod3(c, Pow(u, a), Pow(t, b))
  }

  function Prod3(c: real, a: real, b: real): real { c * a * b }

  /** u l + t r: the combination De Casteljau's recurrence takes. */
  function Mix(u: real, l: real, t: real, r: real): real { Scaled(u, l) + Scaled(t, r) }

  function Scaled(k: real, x: real): real { k * x }

  /** The Bernstein weights C(n, m) (1 - t)^(n - m) t^m, m = 0..n. */
  function Weights(n: nat, t: real): (ws: seq<real>)
    ensures |ws| == n + 1
  {
    seq(n + 1, m requires 0 <= m <= n => Term(Choose(n, m) as real, 1.0 - t, t, n - m, m))
  }

  /** The weights a `binom` row gives, in the loop's multiplication order. */
  function RowWeights(binom: seq<int>, t: real): (ws: seq<real>)
    requires |binom| >= 1
    ensures |ws| == |binom|
  {
    var n := |binom| - 1;
    seq(|binom|, m requires 0 <= m < |binom| => Term(binom[m] as real, 1.0 - t, t, n - m, m))
  }

  /** The Bernstein form of the curve. */
  function Bernstein(points: seq<Point>, t: real): Point
    requires |points| >= 1
  {
    WSum(Weights(|points| - 1, t), points)
  }

  /** Pascal's rule on a single term: C(n, m) u^(n-m) t^m is u times the
      degree n - 1 term at m plus t times the one at m - 1. */
  lemma TermSplit(a: real, b: real, u: real, t: real, n: nat, m: nat)
    requires 1 <= n && m <= n
    requires m == n ==> a == 0.0
    requires m == 0 ==> b == 0.0
    ensures Term(a + b, u, t, n - m, m) ==
            Mix(u, if m < n then Term(a, u, t, n - 1 - m, m) else 0.0,
                t, if m > 0 then Term(b, u, t, n - m, m - 1) else 0.0)
  {
    var um := Pow(u, n - m);
    var tm := Pow(t, m);
    if m < n {
      assert um == u * Pow(u, n - 1 - m);
      assert u * (a * Pow(u, n - 1 - m) * tm) == a * um * tm;
    }
    if m > 0 {
      assert tm == t * Pow(t, m - 1);
      assert t * (b * um * Pow(t, m - 1)) == b * um * tm;
    }
    assert (a + b) * um * tm == a * um * tm + b * um * tm;
  }

  /** The m-th weight, or zero outside the sequence. */
  function At(w: seq<real>, m: int): real
  {
    if 0 <= m < |w| then w[m] else 0.0
  }

  /** One weight of degree n splits by Pascal's rule into the weight of
      degree n - 1 at m times (1 - t) and the one at m - 1 times t. */
  lemma WeightSplit(n: nat, t: real, m: nat)
    requires 1 <= n && m <= n
    ensures Weights(n, t)[m] == Mix(1.0 - t, At(Weights(n - 1, t), m), t, At(Weights(n - 1, t), m - 1))
  {
    var u := 1.0 - t;
    PascalRule(n, m);
    var a := Choose(n - 1, m) as real;
    var b := Choose(n - 1, m - 1) as real;
    assert Weights(n, t)[m] == Term(a + b, u, t, n - m, m);
    TermSplit(a, b, u, t, n, m);
    if m > 0 {
      assert n - 1 - (m - 1) == n - m;
    }
  }

  /** The Bernstein form satisfies the same recurrence as De Casteljau. */
  lemma BernsteinRecurrence(points: seq<Point>, t: real)
    requires |points| >= 2
    ensures Bernstein(points, t) ==
            Plus(Times(1.0 - t, Bernstein(points[..|points| - 1], t)), Times(t, Bernstein(points[1..], t)))
  {
    var n := |points| - 1;
    var w := Weights(n, t);
    var w' := Weights(n - 1, t);
    forall m | 0 <= m < |w|
      ensures w[m] == Mix(1.0 - t, At(w', m), t, At(w', m - 1))
    {
      WeightSplit(n, t, m);
    }
    SplitSum(points, 1.0 - t, t, w, w');
  }

  /** Weights that split as u w' shifted left plus t w' shifted right
      split the sum the same way. */
  lemma SplitSum(points: seq<Point>, u: real, t: real, w: seq<real>, w': seq<real>)
    requires |points| >= 2 && |w| == |points| && |w'| == |points| - 1
    requires forall m :: 0 <= m < |w| ==> w[m] == Mix(u, At(w', m), t, At(w', m - 1))
    ensures WSum(w, points) ==
            Plus(Times(u, WSum(w', points[..|points| - 1])), Times(t, WSum(w', points[1..])))
  {
    var n := |points| - 1;
    var a := seq(n + 1, m => Scaled(u, At(w', m)));
    var b := seq(n + 1, m => Scaled(t, At(w', m - 1)));
    WSumAddWeights(a, b, w, points);
    ShiftedSumLeft(points, u, w', a);
    ShiftedSumRight(points, t, w', b);
  }

  /** Weights u w'_m, padded with a zero at the end, sum over all points
      as u times the sum of w' over all but the last point. */
  lemma ShiftedSumLeft(points: seq<Point>, u: real, w': seq<real>, a: seq<real>)
    requires |points| >= 2 && |a| == |points| && |w'| == |points| - 1
    requires forall m :: 0 <= m < |a| ==> a[m] == Scaled(u, At(w', m))
    ensures WSum(a, points) == Times(u, WSum(w', points[..|points| - 1]))
  {
    var n := |points| - 1;
    assert a[n] == 0.0;
    WSumDropLastZero(a, points);
    WSumScaleWeights(u, w', a[..n], points[..n]);
  }

  /** Weights t w'_(m-1), padded with a zero at the front, sum over all
      points as t times the sum of w' over all but the first point. */
  lemma ShiftedSumRight(points: seq<Point>, t: real, w': seq<real>, b: seq<real>)
    requires |points| >= 2 && |b| == |points| && |w'| == |points| - 1
    requires forall m :: 0 <= m < |b| ==> b[m] == Scaled(t, At(w', m - 1))
    ensures WSum(b, points) == Times(t, WSum(w', points[1..]))
  {
    assert b[0] == 0.0;
    WSumScaleWeights(t, w', b[1..], points[1..]);
  }

  /** A zero last weight drops out of the sum. */
  lemma WSumDropLastZero(ws: seq<real>, ps: seq<Point>)
    requires |ws| == |ps| >= 1 && ws[|ws| - 1] == 0.0
    ensures WSum(ws, ps) == WSum(ws[..|ws| - 1], ps[..|ps| - 1])
  {
    var k := |ws| - 1;
    assert ws == ws[..k] + [0.0];
    assert ps == ps[..k] + [ps[k]];
    WSumSnoc(ws[..k], ps[..k], 0.0, ps[k]);
  }

  /** The two algorithms compute the same point for every t. */
  lemma {:induction false} BernsteinIsDeCasteljau(points: seq<Point>, t: real)
    requires |points| >= 1
    ensures Bernstein(points, t) == Final(points, t)
    decreases |points|
  {
    if |points| == 1 {
      assert Pow(1.0 - t, 0) == 1.0 && Pow(t, 0) == 1.0 && Choose(0, 0) == 1;
      assert Weights(0, t) == [1.0];
      assert WSum([1.0], points) == Plus(Times(1.0, points[0]), Origin);
    } else {
      BernsteinIsDeCasteljau(points[..|points| - 1], t);
      BernsteinIsDeCasteljau(points[1..], t);
      BernsteinRecurrence(points, t);
      FinalRecurrence(points, t);
    }
  }

  /** With the Pascal row as `binom` the loop's weights are the Bernstein
      weights. */
  lemma RowWeightsOfChoose(binom: seq<int>, t: real)
    requires |binom| >= 1
    requires forall k :: 0 <= k < |binom| ==> binom[k] == Choose(|binom| - 1, k)
    ensures RowWeights(binom, t) == Weights(|binom| - 1, t)
  {
  }

  lemma PowDivide(u: real, m: nat)
    requires u != 0.0 && m >= 1
    ensures Pow(u, m) / u == Pow(u, m - 1)
  {
    var p := Pow(u, m - 1);
    assert Pow(u, m) == u * p;
    assert (u * p) / u == p;
  }

  /** One step of the accumulation loop extends the partial sum by one term. */
  lemma AccumulateStep(ws: seq<real>, ps: seq<Point>, k: nat, w: real, x: real, y: real)
    requires |ws| == |ps| && k < |ws| && w == ws[k]
    requires Point(x, y) == WSum(ws[..k], ps[..k])
    ensures Point(x + w * ps[k].x, y + w * ps[k].y) == WSum(ws[..k + 1], ps[..k + 1])
  {
    assert ws[..k + 1] == ws[..k] + [ws[k]];
    assert ps[..k + 1] == ps[..k] + [ps[k]];
    WSumSnoc(ws[..k], ps[..k], ws[k], ps[k]);
  }

  /** `bezierBernsteinPoint`: exact endpoints at t = 0 and t = 1, otherwise
      the weighted sum with t^k kept incrementally and (1 - t)^(n - k)
      obtained by dividing by 1 - t; with the row of `BinomialCoeffs` the
      result is the De Casteljau point for every t. */
  method BernsteinPoint(points: seq<Point>, t: real, binom: seq<int>) returns (r: Point)
    requires |points| >= 1 && |binom| == |points|
    ensures t == 0.0 ==> r == points[0]
    ensures t == 1.0 ==> r == points[|points| - 1]
    ensures t != 0.0 && t != 1.0 ==> r == WSum(RowWeights(binom, t), points)
    ensures (forall k :: 0 <= k < |binom| ==> binom[k] == Choose(|points| - 1, k)) ==> r == Final(points, t)
  {
    var n := |points| - 1;
    var u := 1.0 - t;
    if t == 0.0 {
      FinalEndpoints(points);
      return points[0];
    }
    if t == 1.0 {
      FinalEndpoints(points);
      return points[n];
    }
    var ws := RowWeights(binom, t);
    var x, y := 0.0, 0.0;
    var tPow := 1.0;
    var uPow := Pow(u, n);
    for k := 0 to n + 1
      invariant tPow == Pow(t, k)
      invariant k <= n ==> uPow == Pow(u, n - k)
      invariant Point(x, y) == WSum(ws[..k], points[..k])
    {
      var w := binom[k] as real * uPow * tPow;
      assert w == Prod3(binom[k] as real, uPow, tPow) == ws[k];
      AccumulateStep(ws, points, k, w, x, y);
      x := x + w * points[k].x;
      y := y + w * points[k].y;
      tPow := tPow * t;
      if k < n {
        PowDivide(u, n - k);
      }
      uPow := if u == 0.0 then 0.0 else uPow / u;
    }
    assert ws[..n + 1] == ws && points[..n + 1] == points;
    r := Point(x, y);
    if forall k :: 0 <= k < |binom| ==> binom[k] == Choose(n, k) {
      RowWeightsOfChoose(binom, t);
      BernsteinIsDeCasteljau(points, t);
    }
  }

  // ------------------------------------------------------------ drawing

  /** The parameter of sample i: t = i / segments. */
  function SampleParameter(i: nat, segments: nat): real
    requires segments >= 1
  {
    i as real / segments as real
  }

  /** The first and last sample parameters are 0 and 1. */
  lemma SampleParameterEnds(segments: nat)
    requires segments >= 1
    ensures SampleParameter(0, segments) == 0.0
    ensures SampleParameter(segments, segments) == 1.0
  {
  }

  /** One sample, by whichever algorithm the mode selects; with the Pascal
      row both give the point on the curve. */
  method EvaluateSample(controlPoints: seq<Point>, t: real, binom: seq<int>, casteljau: bool) returns (p: Point)
    requires |controlPoints| >= 1 && |binom| == |controlPoints|
    requires forall k :: 0 <= k < |binom| ==> binom[k] == Choose(|controlPoints| - 1, k)
    ensures p == Final(controlPoints, t)
  {
    if casteljau {
      var stages := DeCasteljau(controlPoints, t);
      LastStageIsFinal(controlPoints, t);
      p := stages[|stages| - 1][0];
    } else {
      p := BernsteinPoint(controlPoints, t, binom);
    }
  }

  /** The sampling loop of `drawBezierCurve`: `segments + 1` points at
      t = i / segments, stored as [x0, y0, x1, y1, ...]; both evaluation
      modes give the same samples. */
  method SampleCurve(controlPoints: seq<Point>, segments: nat, casteljau: bool) returns (samples: seq<real>)
    requires |controlPoints| >= 1 && segments >= 1
    ensures |samples| == 2 * (segments + 1)
    ensures forall i :: 0 <= i <= segments ==>
              Point(samples[2 * i], samples[2 * i + 1]) == Final(controlPoints, SampleParameter(i, segments))
    ensures samples[0] == controlPoints[0].x && samples[1] == controlPoints[0].y
    ensures samples[2 * segments] == controlPoints[|controlPoints| - 1].x
    ensures samples[2 * segments + 1] == controlPoints[|controlPoints| - 1].y
  {
    var binom := BinomialCoeffs(|controlPoints| - 1);
    samples := [];
    for i := 0 to segments + 1
      invariant |samples| == 2 * i
      invariant forall j :: 0 <= j < i ==>
                  Point(samples[2 * j], samples[2 * j + 1]) == Final(controlPoints, SampleParameter(j, segments))
    {
      var p := EvaluateSample(controlPoints, SampleParameter(i, segments), binom, casteljau);
      samples := samples + [p.x, p.y];
    }
    SamplesEndAtControlPoints(controlPoints, segments, samples);
  }

  /** Samples on the curve at i / segments begin at the first control point
      and finish at the last. */
  lemma SamplesEndAtControlPoints(controlPoints: seq<Point>, segments: nat, samples: seq<real>)
    requires |controlPoints| >= 1 && segments >= 1 && |samples| == 2 * (segments + 1)
    requires forall i :: 0 <= i <= segments ==>
               Point(samples[2 * i], samples[2 * i + 1]) == Final(controlPoints, SampleParameter(i, segments))
    ensures samples[0] == controlPoints[0].x && samples[1] == controlPoints[0].y
    ensures samples[2 * segments] == controlPoints[|controlPoints| - 1].x
    ensures samples[2 * segments + 1] == controlPoints[|controlPoints| - 1].y
  {
    FinalEndpoints(controlPoints);
    SampleParameterEnds(segments);
    assert Point(samples[0], samples[1]) == Final(controlPoints, 0.0);
    assert Point(samples[2 * segments], samples[2 * segments + 1]) == Final(controlPoints, 1.0);
  }

  /** The tangent `render` draws at the current point: n times the
      difference of the two points of the second-to-last stage, when there
      is such a stage of two points. */
  function Tangent(points: seq<Point>, t: real): (r: Option<Point>)
    ensures r.Some? <==> |points| >= 2
  {
    StagesShape(points, t);
    var stages := Stages(points, t);
    if |stages| >= 2 && |stages[|stages| - 2]| >= 2 then
      var s := stages[|stages| - 2];
      Some(Times((|points| - 1) as real, Minus(s[1], s[0])))
    else
      None
  }

  /** The differences P_{j+1} - P_j of the control polygon. */
  function Differences(points: seq<Point>): (ds: seq<Point>)
    requires |points| >= 1
    ensures |ds| == |points| - 1
  {
    seq(|points| - 1, j requires 0 <= j < |points| - 1 => Minus(points[j + 1], points[j]))
  }

  /** The drawn tangent is the hodograph: n times the Bézier curve of
      degree n - 1 through the differences of the control points. */
  lemma TangentIsHodograph(points: seq<Point>, t: real)
    requires |points| >= 2
    ensures Tangent(points, t) == Some(Times((|points| - 1) as real, Bernstein(Differences(points), t)))
  {
    var n := |points| - 1;
    PenultimateStage(points, t);
    BernsteinIsDeCasteljau(points[..n], t);
    BernsteinIsDeCasteljau(points[1..], t);
    WSumSubPoints(Weights(n - 1, t), points[1..], points[..n], Differences(points));
  }
}
