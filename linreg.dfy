/** The linear-regression demo: 20 roughly linear points and batch gradient
    descent on the mean squared error of the line y = slope * x + intercept,
    one step per call, with learning rate 0.0001. */
module LinearRegression {

  const LearningRate: real := 0.0001
  const PointCount: nat := 20

  datatype Point = Point(x: real, y: real)

  /** The component's state, as kept by its five setters. */
  datatype State = State(points: seq<Point>, slope: real, intercept: real, epoch: int, isTraining: bool)

  /** Every value drawn from Math.random lies in [0, 1). */
  predicate UnitDraws(r: seq<real>) {
    forall i :: 0 <= i < |r| ==> 0.0 <= r[i] < 1.0
  }

  // ---------------------------------------------------------------------------
  // Data generation

  /** One generated point: an integer x in [0, 99] and y within 20 of 0.8 x + 10. */
  function SamplePoint(a: real, b: real): (p: Point)
    requires 0.0 <= a < 1.0 && 0.0 <= b < 1.0
    ensures p.x == p.x.Floor as real && 0.0 <= p.x <= 99.0
    ensures -20.0 <= p.y - (0.8 * p.x + 10.0) < 20.0
  {
    var x := (a * 100.0).Floor as real;
    var noise := (b - 0.5) * 40.0;
    Point(x, 0.8 * x + 10.0 + noise)
  }

  /** The loop of `generateData`: point `i` is made from draws 2i and 2i+1. */
  method GeneratePoints(draws: seq<real>) returns (ps: seq<Point>)
    requires |draws| == 2 * PointCount && UnitDraws(draws)
    ensures |ps| == PointCount
    ensures forall i :: 0 <= i < PointCount ==> ps[i] == SamplePoint(draws[2 * i], draws[2 * i + 1])
    ensures forall i :: 0 <= i < |ps| ==> 0.0 <= ps[i].x <= 99.0
  {
    ps := [];
    for i := 0 to PointCount
      invariant |ps| == i
      invariant forall k :: 0 <= k < i ==> ps[k] == SamplePoint(draws[2 * k], draws[2 * k + 1])
    {
      var x := (draws[2 * i] * 100.0).Floor as real;
      var noise := (draws[2 * i + 1] - 0.5) * 40.0;
      ps := ps + [Point(x, 0.8 * x + 10.0 + noise)];
    }
  }

  // ---------------------------------------------------------------------------
  // Gradient step

  /** Prediction minus observation: the `error` of the source's loop. */
  function Residual(p: Point, slope: real, intercept: real): real {
    slope * p.x + intercept - p.y
  }

  /** `dm` after the loop has visited `ps`, where `n` is the size of the whole set. */
  function SlopeGradSum(ps: seq<Point>, n: real, slope: real, intercept: real): real
    requires ps == [] || n != 0.0
  {
    if ps == [] then 0.0
    else
      var p := ps[|ps| - 1];
      SlopeGradSum(ps[..|ps| - 1], n, slope, intercept) + (2.0 / n) * Residual(p, slope, intercept) * p.x
  }

  /** `dc` after the loop has visited `ps`, where `n` is the size of the whole set. */
  function InterceptGradSum(ps: seq<Point>, n: real, slope: real, intercept: real): real
    requires ps == [] || n != 0.0
  {
    if ps == [] then 0.0
    else
      var p := ps[|ps| - 1];
      InterceptGradSum(ps[..|ps| - 1], n, slope, intercept) + (2.0 / n) * Residual(p, slope, intercept)
  }

  /** Derivative of the mean squared error with respect to the slope. */
  function SlopeGrad(ps: seq<Point>, slope: real, intercept: real): real {
    SlopeGradSum(ps, |ps| as real, slope, intercept)
  }

  /** Derivative of the mean squared error with respect to the intercept. */
  function InterceptGrad(ps: seq<Point>, slope: real, intercept: real): real {
    InterceptGradSum(ps, |ps| as real, slope, intercept)
  }

  /** The `forEach` of `step`: both partial derivatives, accumulated point by point. */
  method Gradient(ps: seq<Point>, slope: real, intercept: real) returns (dm: real, dc: real)
    ensures dm == SlopeGrad(ps, slope, intercept) && dc == InterceptGrad(ps, slope, intercept)
    ensures ps == [] ==> dm == 0.0 && dc == 0.0
  {
    dm, dc := 0.0, 0.0;
    var n := |ps| as real;
    for i := 0 to |ps|
      invariant dm == SlopeGradSum(ps[..i], n, slope, intercept)
      invariant dc == InterceptGradSum(ps[..i], n, slope, intercept)
    {
      var p := ps[i];
      var error := slope * p.x + intercept - p.y;
      dm := dm + (2.0 / n) * error * p.x;
      dc := dc + (2.0 / n) * error;
      assert ps[..i + 1][..i] == ps[..i];
    }
    assert ps[..|ps|] == ps;
  }

  /** `step`: move slope and intercept against the gradient, count one epoch. */
  function StepOf(s: State): (r: State)
    ensures r.points == s.points && r.isTraining == s.isTraining
    ensures r.epoch == s.epoch + 1
    ensures s.points == [] ==> r.slope == s.slope && r.intercept == s.intercept
  {
    var dm := SlopeGrad(s.points, s.slope, s.intercept);
    var dc := InterceptGrad(s.points, s.slope, s.intercept);
    s.(slope := s.slope - LearningRate * dm, intercept := s.intercept - LearningRate * dc,
       epoch := s.epoch + 1)
  }

  /** `lineData`: the two endpoints drawn for the current line. */
  function LineData(slope: real, intercept: real): (r: seq<Point>)
    ensures |r| == 2 && r[0].x == 0.0 && r[1].x == 100.0
    ensures forall k :: 0 <= k < |r| ==> r[k].y == slope * r[k].x + intercept
  {
    [Point(0.0, intercept), Point(100.0, slope * 100.0 + intercept)]
  }

  // ---------------------------------------------------------------------------
  // What a step does to the error

  function SumResX(ps: seq<Point>, slope: real, intercept: real): real {
    if ps == [] then 0.0
    else SumResX(ps[..|ps| - 1], slope, intercept) + Residual(ps[|ps| - 1], slope, intercept) * ps[|ps| - 1].x
  }

  function SumRes(ps: seq<Point>, slope: real, intercept: real): real {
    if ps == [] then 0.0
    else SumRes(ps[..|ps| - 1], slope, intercept) + Residual(ps[|ps| - 1], slope, intercept)
  }

  /** Sum of squared residuals. */
  function SqErr(ps: seq<Point>, slope: real, intercept: real): real {
    if ps == [] then 0.0
    else
      var r := Residual(ps[|ps| - 1], slope, intercept);
      SqErr(ps[..|ps| - 1], slope, intercept) + r * r
  }

  /** Sum over the points of (a x + b)^2: how far a step of (a, b) moves the predictions. */
  function SumShift(ps: seq<Point>, a: real, b: real): real {
    if ps == [] then 0.0
    else
      var d := a * ps[|ps| - 1].x + b;
      SumShift(ps[..|ps| - 1], a, b) + d * d
  }

  /** Mean squared error of the line over the points (0 for no points). */
  function Mse(ps: seq<Point>, slope: real, intercept: real): real {
    if ps == [] then 0.0 else SqErr(ps, slope, intercept) / |ps| as real
  }

  /** The loop's gradients are 2/n times the plain sums of residual * x and residual. */
  lemma {:induction false} GradientIsScaledSum(ps: seq<Point>, n: real, slope: real, intercept: real)
    requires n != 0.0
    ensures SlopeGradSum(ps, n, slope, intercept) == (2.0 / n) * SumResX(ps, slope, intercept)
    ensures InterceptGradSum(ps, n, slope, intercept) == (2.0 / n) * SumRes(ps, slope, intercept)
  {
    if ps != [] {
      GradientIsScaledSum(ps[..|ps| - 1], n, slope, intercept);
      var p := ps[|ps| - 1];
      var k, r := 2.0 / n, Residual(p, slope, intercept);
      assert k * r * p.x == k * (r * p.x);
      assert k * SumResX(ps[..|ps| - 1], slope, intercept) + k * (r * p.x)
          == k * (SumResX(ps[..|ps| - 1], slope, intercept) + r * p.x);
      assert k * SumRes(ps[..|ps| - 1], slope, intercept) + k * r
          == k * (SumRes(ps[..|ps| - 1], slope, intercept) + r);
    }
  }

  /** A line through every point is a fixed point: both gradients vanish. */
  lemma {:induction false} PerfectFitHasZeroGradient(ps: seq<Point>, n: real, slope: real, intercept: real)
    requires ps == [] || n != 0.0
    requires forall i :: 0 <= i < |ps| ==> ps[i].y == slope * ps[i].x + intercept
    ensures SlopeGradSum(ps, n, slope, intercept) == 0.0
    ensures InterceptGradSum(ps, n, slope, intercept) == 0.0
  {
    if ps != [] {
      PerfectFitHasZeroGradient(ps[..|ps| - 1], n, slope, intercept);
      assert Residual(ps[|ps| - 1], slope, intercept) == 0.0;
    }
  }

  lemma PerfectFitIsFixedPoint(s: State)
    requires forall i :: 0 <= i < |s.points| ==> s.points[i].y == s.slope * s.points[i].x + s.intercept
    ensures StepOf(s) == s.(epoch := s.epoch + 1)
  {
    PerfectFitHasZeroGradient(s.points, |s.points| as real, s.slope, s.intercept);
  }

  /** One point's squared residual after moving (slope, intercept) by -eta (a, b). */
  lemma SquareAfterMove(r: real, x: real, eta: real, a: real, b: real)
    ensures (r - eta * (a * x + b)) * (r - eta * (a * x + b))
         == r * r - 2.0 * eta * (a * (r * x) + b * r) + eta * eta * ((a * x + b) * (a * x + b))
  {
  }

  /** The squared error after a move of -eta (a, b), from the four sums before it. */
  function Expanded(sq: real, sx: real, sr: real, h: real, eta: real, a: real, b: real): real {
    sq - 2.0 * eta * (a * sx + b * sr) + eta * eta * h
  }

  /** Moving the line by -eta (a, b) shifts a point's residual by -eta (a x + b). */
  lemma ResidualAfterMove(p: Point, slope: real, intercept: real, eta: real, a: real, b: real)
    ensures Residual(p, slope - eta * a, intercept - eta * b) == Residual(p, slope, intercept) - eta * (a * p.x + b)
  {
  }

  /** One induction step of SqErrAfterMove, on plain numbers: s0, sx0, sr0, h0 and
      moved0 are the sums over the earlier points, r and r' the last point's
      residual before and after the move, x its abscissa, and s, sx, sr, h,
      moved the sums over all points. */
  lemma ExtendExpansion(s0: real, sx0: real, sr0: real, h0: real, moved0: real,
                        r: real, r': real, x: real, eta: real, a: real, b: real,
                        s: real, sx: real, sr: real, h: real, moved: real)
    requires moved0 == Expanded(s0, sx0, sr0, h0, eta, a, b)
    requires r' == r - eta * (a * x + b)
    requires s == s0 + r * r && sx == sx0 + r * x && sr == sr0 + r
    requires h == h0 + (a * x + b) * (a * x + b)
    requires moved == moved0 + r' * r'
    ensures moved == Expanded(s, sx, sr, h, eta, a, b)
  {
    SquareAfterMove(r, x, eta, a, b);
    var d := (a * x + b) * (a * x + b);
    var u := a * (r * x) + b * r;
    var before := a * sx0 + b * sr0;
    Distribute(a, sx0, r * x);
    Distribute(b, sr0, r);
    assert a * sx + b * sr == before + u;
    Distribute(2.0 * eta, before, u);
    Distribute(eta * eta, h0, d);
  }

  /** k (u + v) = k u + k v, kept apart so that callers reason linearly. */
  lemma Distribute(k: real, u: real, v: real)
    ensures k * (u + v) == k * u + k * v
  {
  }

  /** The sum of squared residuals after a move of -eta (a, b), expanded. */
  lemma {:induction false} SqErrAfterMove(ps: seq<Point>, slope: real, intercept: real, eta: real, a: real, b: real)
    ensures SqErr(ps, slope - eta * a, intercept - eta * b)
         == Expanded(SqErr(ps, slope, intercept), SumResX(ps, slope, intercept),
                     SumRes(ps, slope, intercept), SumShift(ps, a, b), eta, a, b)
  {
    if ps == [] {
      assert SumResX(ps, slope, intercept) == 0.0 && SumRes(ps, slope, intercept) == 0.0;
      assert SumShift(ps, a, b) == 0.0;
    } else {
      var init := ps[..|ps| - 1];
      var p := ps[|ps| - 1];
      SqErrAfterMove(init, slope, intercept, eta, a, b);
      ResidualAfterMove(p, slope, intercept, eta, a, b);
      ExtendExpansion(SqErr(init, slope, intercept), SumResX(init, slope, intercept),
                      SumRes(init, slope, intercept), SumShift(init, a, b),
                      SqErr(init, slope - eta * a, intercept - eta * b),
                      Residual(p, slope, intercept), Residual(p, slope - eta * a, intercept - eta * b),
                      p.x, eta, a, b,
                      SqErr(ps, slope, intercept), SumResX(ps, slope, intercept),
                      SumRes(ps, slope, intercept), SumShift(ps, a, b),
                      SqErr(ps, slope - eta * a, intercept - eta * b));
    }
  }

  lemma MulNonneg(p: real, q: real)
    requires p >= 0.0 && q >= 0.0
    ensures p * q >= 0.0
  {
  }

  lemma SquareNonneg(p: real)
    ensures p * p >= 0.0
  {
    if p < 0.0 { MulNonneg(-p, -p); } else { MulNonneg(p, p); }
  }

  /** (a x + b)^2 <= (a^2 + b^2)(x^2 + 1) <= (a^2 + b^2) * 9802 for |x| <= 99. */
  lemma ShiftBound(x: real, a: real, b: real)
    requires -99.0 <= x <= 99.0
    ensures (a * x + b) * (a * x + b) <= (a * a + b * b) * 9802.0
  {
    var g := a * a + b * b;
    assert g * (x * x + 1.0) - (a * x + b) * (a * x + b) == (a - b * x) * (a - b * x);
    SquareNonneg(a - b * x);
    SquareNonneg(a);
    SquareNonneg(b);
    MulNonneg(99.0 - x, 99.0 + x);
    assert 9801.0 - x * x == (99.0 - x) * (99.0 + x);
    MulNonneg(g, 9802.0 - (x * x + 1.0));
    assert g * 9802.0 == g * (x * x + 1.0) + g * (9802.0 - (x * x + 1.0));
  }

  lemma SumShiftBound(ps: seq<Point>, a: real, b: real)
    requires forall i :: 0 <= i < |ps| ==> -99.0 <= ps[i].x <= 99.0
    ensures SumShift(ps, a, b) <= |ps| as real * ((a * a + b * b) * 9802.0)
  {
    SumShiftWithinRepeat(ps, a, b);
    RepeatIsProduct(|ps|, (a * a + b * b) * 9802.0);
  }

  /** k added to itself n times. */
  function Repeat(n: nat, k: real): real {
    if n == 0 then 0.0 else Repeat(n - 1, k) + k
  }

  lemma {:induction false} RepeatIsProduct(n: nat, k: real)
    ensures Repeat(n, k) == n as real * k
  {
    if n > 0 {
      RepeatIsProduct(n - 1, k);
      Distribute(k, (n - 1) as real, 1.0);
      assert (n - 1) as real * k == k * (n - 1) as real && n as real * k == k * n as real;
    }
  }

  /** Each point adds at most (a^2 + b^2) * 9802 to the sum. */
  lemma {:induction false} SumShiftWithinRepeat(ps: seq<Point>, a: real, b: real)
    requires forall i :: 0 <= i < |ps| ==> -99.0 <= ps[i].x <= 99.0
    ensures SumShift(ps, a, b) <= Repeat(|ps|, (a * a + b * b) * 9802.0)
  {
    if ps != [] {
      var init, x := ps[..|ps| - 1], ps[|ps| - 1].x;
      var k := (a * a + b * b) * 9802.0;
      assert SumShift(ps, a, b) == SumShift(init, a, b) + (a * x + b) * (a * x + b);
      assert Repeat(|ps|, k) == Repeat(|init|, k) + k;
      SumShiftWithinRepeat(init, a, b);
      ShiftBound(x, a, b);
    }
  }

  /** The gradient pair, weighted by the sums it was made from, is n/2 times its squared length. */
  lemma GradientAgainstSums(n: real, sx: real, sr: real)
    requires n > 0.0
    ensures var dm, dc := (2.0 / n) * sx, (2.0 / n) * sr;
      dm * sx + dc * sr == (n / 2.0) * (dm * dm + dc * dc)
  {
    var dm, dc := (2.0 / n) * sx, (2.0 / n) * sr;
    assert (n / 2.0) * dm == sx;
    assert (n / 2.0) * dc == sr;
    assert (n / 2.0) * (dm * dm + dc * dc) == ((n / 2.0) * dm) * dm + ((n / 2.0) * dc) * dc;
  }

  /** The closing arithmetic of StepLowersError, on plain numbers. */
  lemma DescentArithmetic(n: real, sx: real, sr: real, dm: real, dc: real, h: real, before: real, after: real)
    requires n > 0.0 && dm == (2.0 / n) * sx && dc == (2.0 / n) * sr
    requires after == Expanded(before, sx, sr, h, LearningRate, dm, dc)
    requires h <= n * ((dm * dm + dc * dc) * 9802.0)
    ensures after / n <= before / n - 0.0198 * LearningRate * (dm * dm + dc * dc)
  {
    var eta, g := LearningRate, dm * dm + dc * dc;
    GradientAgainstSums(n, sx, sr);
    assert after == before - 2.0 * eta * ((n / 2.0) * g) + eta * eta * h;
    assert after <= before - n * (0.0198 * eta * g);
    assert after / n - (before / n - 0.0198 * eta * g) == (after - (before - n * (0.0198 * eta * g))) / n;
  }

  /** With every x in [-99, 99] (the generated data has x in [0, 99]), one step
      lowers the mean squared error by at least 0.0198 * 0.0001 * (dm^2 + dc^2):
      it never rises, and it strictly falls unless the gradient is zero. */
  lemma StepLowersError(s: State)
    requires s.points != []
    requires forall i :: 0 <= i < |s.points| ==> -99.0 <= s.points[i].x <= 99.0
    ensures var dm, dc := SlopeGrad(s.points, s.slope, s.intercept), InterceptGrad(s.points, s.slope, s.intercept);
      var t := StepOf(s);
      Mse(t.points, t.slope, t.intercept)
        <= Mse(s.points, s.slope, s.intercept) - 0.0198 * LearningRate * (dm * dm + dc * dc)
  {
    var ps, m, c := s.points, s.slope, s.intercept;
    var n := |ps| as real;
    var dm, dc := SlopeGrad(ps, m, c), InterceptGrad(ps, m, c);
    var before, after := SqErr(ps, m, c), SqErr(ps, m - LearningRate * dm, c - LearningRate * dc);
    assert after / n <= before / n - 0.0198 * LearningRate * (dm * dm + dc * dc) by {
      GradientIsScaledSum(ps, n, m, c);
      SqErrAfterMove(ps, m, c, LearningRate, dm, dc);
      SumShiftBound(ps, dm, dc);
      DescentArithmetic(n, SumResX(ps, m, c), SumRes(ps, m, c), dm, dc, SumShift(ps, dm, dc), before, after);
    }
    assert StepOf(s).slope == m - LearningRate * dm && StepOf(s).intercept == c - LearningRate * dc;
  }

  /** The component. */
  class LinearRegressionViz {
    var points: seq<Point>
    var slope: real
    var intercept: real
    var epoch: int
    var isTraining: bool

    function Current(): State
      reads this
    {
      State(points, slope, intercept, epoch, isTraining)
    }

    /** Mounting runs `generateData`. */
    constructor (draws: seq<real>)
      requires |draws| == 2 * PointCount && UnitDraws(draws)
      ensures |points| == PointCount
      ensures forall i :: 0 <= i < PointCount ==> points[i] == SamplePoint(draws[2 * i], draws[2 * i + 1])
      ensures slope == 0.0 && intercept == 0.0 && epoch == 0 && !isTraining
    {
      var ps := GeneratePoints(draws);
      points := ps;
      slope, intercept, epoch, isTraining := 0.0, 0.0, 0, false;
    }

    /** `generateData`: 20 fresh points, the line reset to y = 0, training off. */
    method GenerateData(draws: seq<real>)
      requires |draws| == 2 * PointCount && UnitDraws(draws)
      modifies this
      ensures |points| == PointCount
      ensures forall i :: 0 <= i < PointCount ==> points[i] == SamplePoint(draws[2 * i], draws[2 * i + 1])
      ensures slope == 0.0 && intercept == 0.0 && epoch == 0 && !isTraining
    {
      var ps := GeneratePoints(draws);
      points := ps;
      slope, intercept, epoch, isTraining := 0.0, 0.0, 0, false;
    }

    /** The Start/Stop button. */
    method ToggleTraining()
      modifies this
      ensures Current() == old(Current()).(isTraining := !old(isTraining))
    {
      isTraining := !isTraining;
    }

    /** `step`: one gradient-descent update of slope and intercept. */
    method Step()
      modifies this
      ensures Current() == StepOf(old(Current()))
    {
      var dm, dc := Gradient(points, slope, intercept);
      slope := slope - LearningRate * dm;
      intercept := intercept - LearningRate * dc;
      epoch := epoch + 1;
    }
  }
}
