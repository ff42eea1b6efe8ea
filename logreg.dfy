/** The logistic-regression demo: two labelled blobs of 20 points and batch
    gradient descent on the cross-entropy loss of the classifier
    sigmoid(w1 x + w2 y + b), learning rate 0.05, plus the two endpoints of
    the decision boundary w1 x + w2 y + b = 0 drawn on a 0..100 plot.
    Math.exp and Math.log are not modelled: they are parameters, and the
    facts proved here hold for any exponential with positive values and,
    for the loss, any logarithm that is not positive on (0, 1]. */
module LogisticRegression {

  const LearningRate: real := 0.05
  const ClassSize: nat := 20
  const PointCount: nat := 40
  /** Probabilities are clamped to [MinProb, MaxProb] before their logarithm is taken. */
  const MinProb: real := 0.0001
  const MaxProb: real := 0.9999
  /** Below this |w2| the boundary is treated as vertical and not drawn. */
  const VerticalTolerance: real := 0.001
  /** Random draws consumed by one `generateData`: 2 per point, then w1, w2 and b. */
  const GenerateDrawCount: nat := 83

  type Label = l: int | 0 <= l <= 1

  datatype Point = Point(x: real, y: real, classLabel: Label)

  datatype Weights = Weights(w1: real, w2: real, b: real)

  /** A point of the plotted boundary segment. */
  datatype Endpoint = Endpoint(x: real, y: real)

  /** The component's state, as kept by its five setters. */
  datatype State = State(data: seq<Point>, weights: Weights, isTraining: bool, epoch: int, cost: real)

  type Positive = r: real | r > 0.0 witness 1.0

  /** What the model assumes of Math.exp: every value it returns is positive. */
  type Exp = real -> Positive

  /** What the loss lemmas assume of Math.log: it is not positive on (0, 1]. */
  ghost predicate LogNonPositiveBelowOne(log: real -> real) {
    forall t :: 0.0 < t <= 1.0 ==> log(t) <= 0.0
  }

  /** Every value drawn from Math.random lies in [0, 1). */
  predicate UnitDraws(r: seq<real>) {
    forall i :: 0 <= i < |r| ==> 0.0 <= r[i] < 1.0
  }

  function Abs(v: real): real {
    if v < 0.0 then -v else v
  }

  // ---------------------------------------------------------------------------
  // Data generation

  /** One generated point: class 0 in [10, 50)^2, class 1 in [50, 90)^2. */
  function SamplePoint(a: real, c: real, classLabel: Label): (p: Point)
    requires 0.0 <= a < 1.0 && 0.0 <= c < 1.0
    ensures p.classLabel == classLabel
    ensures var lo := if classLabel == 0 then 10.0 else 50.0;
      lo <= p.x < lo + 40.0 && lo <= p.y < lo + 40.0
  {
    var lo := if classLabel == 0 then 10.0 else 50.0;
    Point(a * 40.0 + lo, c * 40.0 + lo, classLabel)
  }

  /** The two loops of `generateData`: point `i` is made from draws 2i and 2i+1,
      the first 20 labelled 0, the last 20 labelled 1. */
  method GeneratePoints(draws: seq<real>) returns (ps: seq<Point>)
    requires |draws| == GenerateDrawCount && UnitDraws(draws)
    ensures |ps| == PointCount
    ensures forall i :: 0 <= i < ClassSize ==> ps[i] == SamplePoint(draws[2 * i], draws[2 * i + 1], 0)
    ensures forall i :: ClassSize <= i < PointCount ==> ps[i] == SamplePoint(draws[2 * i], draws[2 * i + 1], 1)
    ensures forall i :: 0 <= i < |ps| ==> ps[i].classLabel == (if i < ClassSize then 0 else 1)
  {
    ps := [];
    for i := 0 to ClassSize
      invariant |ps| == i
      invariant forall k :: 0 <= k < i ==> ps[k] == SamplePoint(draws[2 * k], draws[2 * k + 1], 0)
    {
      ps := ps + [Point(draws[2 * i] * 40.0 + 10.0, draws[2 * i + 1] * 40.0 + 10.0, 0)];
    }
    for i := 0 to ClassSize
      invariant |ps| == ClassSize + i
      invariant forall k :: 0 <= k < ClassSize ==> ps[k] == SamplePoint(draws[2 * k], draws[2 * k + 1], 0)
      invariant forall k :: ClassSize <= k < ClassSize + i ==> ps[k] == SamplePoint(draws[2 * k], draws[2 * k + 1], 1)
    {
      var j := ClassSize + i;
      ps := ps + [Point(draws[2 * j] * 40.0 + 50.0, draws[2 * j + 1] * 40.0 + 50.0, 1)];
    }
  }

  /** The random starting boundary: w1, w2 in [-0.5, 0.5), b in [0, 10). */
  function InitialWeights(draws: seq<real>): (w: Weights)
    requires |draws| == GenerateDrawCount && UnitDraws(draws)
    ensures -0.5 <= w.w1 < 0.5 && -0.5 <= w.w2 < 0.5 && 0.0 <= w.b < 10.0
  {
    Weights(draws[80] - 0.5, draws[81] - 0.5, draws[82] * 10.0)
  }

  // ---------------------------------------------------------------------------
  // Training step

  function Sigmoid(exp: Exp, z: real): (h: real)
    ensures 0.0 < h < 1.0
  {
    var e := exp(-z);
    assert 1.0 + e > 1.0;
    1.0 / (1.0 + e)
  }

  /** `Math.max(0.0001, Math.min(0.9999, h))`. */
  function Clamp(h: real): (r: real)
    ensures MinProb <= r <= MaxProb
    ensures MinProb <= h <= MaxProb ==> r == h
    ensures h < MinProb ==> r == MinProb
    ensures h > MaxProb ==> r == MaxProb
  {
    var upper := if MaxProb < h then MaxProb else h;
    if MinProb > upper then MinProb else upper
  }

  /** The classifier's probability that `p` is labelled 1. */
  function Predict(exp: Exp, w: Weights, p: Point): (h: real)
    ensures 0.0 < h < 1.0
  {
    Sigmoid(exp, w.w1 * p.x + w.w2 * p.y + w.b)
  }

  /** The cross-entropy of one point, computed on the clamped probability. */
  function PointLoss(log: real -> real, classLabel: Label, h: real): real {
    var safeH := Clamp(h);
    -(classLabel as real * log(safeH) + (1.0 - classLabel as real) * log(1.0 - safeH))
  }

  /** `h - label` of one point. */
  function Error(exp: Exp, w: Weights, p: Point): real {
    Predict(exp, w, p) - p.classLabel as real
  }

  /** `dw1` after the loop has visited `ps`. */
  function SumDw1(exp: Exp, w: Weights, ps: seq<Point>): real {
    if ps == [] then 0.0
    else SumDw1(exp, w, ps[..|ps| - 1]) + Error(exp, w, ps[|ps| - 1]) * ps[|ps| - 1].x
  }

  /** `dw2` after the loop has visited `ps`. */
  function SumDw2(exp: Exp, w: Weights, ps: seq<Point>): real {
    if ps == [] then 0.0
    else SumDw2(exp, w, ps[..|ps| - 1]) + Error(exp, w, ps[|ps| - 1]) * ps[|ps| - 1].y
  }

  /** `db` after the loop has visited `ps`. */
  function SumDb(exp: Exp, w: Weights, ps: seq<Point>): real {
    if ps == [] then 0.0
    else SumDb(exp, w, ps[..|ps| - 1]) + Error(exp, w, ps[|ps| - 1])
  }

  /** `totalLoss` after the loop has visited `ps`. */
  function SumLoss(exp: Exp, log: real -> real, w: Weights, ps: seq<Point>): real {
    if ps == [] then 0.0
    else
      var p := ps[|ps| - 1];
      SumLoss(exp, log, w, ps[..|ps| - 1]) + PointLoss(log, p.classLabel, Predict(exp, w, p))
  }

  /** The four accumulators of the loop hold the sums over `ps`. */
  predicate Accumulated(exp: Exp, log: real -> real, w: Weights, ps: seq<Point>,
                        dw1: real, dw2: real, db: real, totalLoss: real) {
    dw1 == SumDw1(exp, w, ps) && dw2 == SumDw2(exp, w, ps) && db == SumDb(exp, w, ps)
    && totalLoss == SumLoss(exp, log, w, ps)
  }

  /** The `forEach` of `trainStep`: every prediction uses the weights as they
      were before the step, so this is one batch gradient. */
  method Gradients(exp: Exp, log: real -> real, w: Weights, data: seq<Point>)
    returns (dw1: real, dw2: real, db: real, totalLoss: real)
    ensures dw1 == SumDw1(exp, w, data) && dw2 == SumDw2(exp, w, data) && db == SumDb(exp, w, data)
    ensures totalLoss == SumLoss(exp, log, w, data)
  {
    dw1, dw2, db, totalLoss := 0.0, 0.0, 0.0, 0.0;
    for i := 0 to |data|
      invariant Accumulated(exp, log, w, data[..i], dw1, dw2, db, totalLoss)
    {
      var p := data[i];
      var h := Predict(exp, w, p);
      var error := h - p.classLabel as real;
      var loss := PointLoss(log, p.classLabel, h);
      var ex, ey := error * p.x, error * p.y;
      AccumulateStep(exp, log, w, data, i, dw1, dw2, db, totalLoss, p, h, error, ex, ey, loss);
      totalLoss := totalLoss + loss;
      dw1 := dw1 + ex;
      dw2 := dw2 + ey;
      db := db + error;
    }
    assert data[..|data|] == data;
  }

  /** One pass of the loop body: the accumulators, extended by the terms of the
      next point, hold the sums over one more point. */
  lemma AccumulateStep(exp: Exp, log: real -> real, w: Weights, data: seq<Point>, i: int,
                       dw1: real, dw2: real, db: real, totalLoss: real,
                       p: Point, h: real, error: real, ex: real, ey: real, loss: real)
    requires 0 <= i < |data| && p == data[i]
    requires Accumulated(exp, log, w, data[..i], dw1, dw2, db, totalLoss)
    requires h == Predict(exp, w, p) && error == h - p.classLabel as real
    requires ex == error * p.x && ey == error * p.y && loss == PointLoss(log, p.classLabel, h)
    ensures Accumulated(exp, log, w, data[..i + 1], dw1 + ex, dw2 + ey, db + error, totalLoss + loss)
  {
    var prefix := data[..i + 1];
    assert prefix[..i] == data[..i] && prefix[i] == data[i];
  }

  /** `trainStep` on the whole state; the source divides by the number of points. */
  function TrainStepOf(s: State, exp: Exp, log: real -> real): (r: State)
    requires |s.data| > 0
    ensures r.data == s.data && r.isTraining == s.isTraining
    ensures r.epoch == s.epoch + 1
  {
    var m := |s.data| as real;
    var w := s.weights;
    var k := LearningRate / m;
    State(s.data,
          Weights(w.w1 - k * SumDw1(exp, w, s.data), w.w2 - k * SumDw2(exp, w, s.data), w.b - k * SumDb(exp, w, s.data)),
          s.isTraining, s.epoch + 1, SumLoss(exp, log, w, s.data) / m)
  }

  /** `getLinePoints`: nothing when the boundary is (nearly) vertical, otherwise
      its points above x = 0 and x = 100. */
  function LinePoints(w: Weights): (r: seq<Endpoint>)
    ensures r == [] <==> Abs(w.w2) < VerticalTolerance
    ensures r != [] ==> |r| == 2 && r[0].x == 0.0 && r[1].x == 100.0
    ensures forall k :: 0 <= k < |r| ==> w.w1 * r[k].x + w.w2 * r[k].y + w.b == 0.0
  {
    if Abs(w.w2) < VerticalTolerance then []
    else
      var m := -w.w1 / w.w2;
      var c := -w.b / w.w2;
      assert w.w2 * c == -w.b;
      assert w.w2 * (m * 100.0 + c) == -w.w1 * 100.0 - w.b;
      [Endpoint(0.0, c), Endpoint(100.0, m * 100.0 + c)]
  }

  // ---------------------------------------------------------------------------
  // Properties of the step

  /** Whatever the probability, the logarithm is only ever taken of a number in
      [0.0001, 0.9999], so it never sees 0. */
  lemma LogArgumentsInRange(h: real)
    ensures MinProb <= Clamp(h) <= MaxProb && MinProb <= 1.0 - Clamp(h) <= MaxProb
  {
  }

  lemma PointLossNonNegative(log: real -> real, classLabel: Label, h: real)
    requires LogNonPositiveBelowOne(log)
    ensures PointLoss(log, classLabel, h) >= 0.0
  {
    var safeH := Clamp(h);
    assert log(safeH) <= 0.0 && log(1.0 - safeH) <= 0.0;
  }

  lemma {:induction false} SumLossNonNegative(exp: Exp, log: real -> real, w: Weights, ps: seq<Point>)
    requires LogNonPositiveBelowOne(log)
    ensures SumLoss(exp, log, w, ps) >= 0.0
  {
    if ps != [] {
      var p := ps[|ps| - 1];
      SumLossNonNegative(exp, log, w, ps[..|ps| - 1]);
      PointLossNonNegative(log, p.classLabel, Predict(exp, w, p));
    }
  }

  /** The reported cost, the mean clamped cross-entropy, is never negative. */
  lemma CostNonNegative(s: State, exp: Exp, log: real -> real)
    requires |s.data| > 0 && LogNonPositiveBelowOne(log)
    ensures TrainStepOf(s, exp, log).cost >= 0.0
  {
    var total := SumLoss(exp, log, s.weights, s.data);
    assert TrainStepOf(s, exp, log).cost == total / |s.data| as real;
    SumLossNonNegative(exp, log, s.weights, s.data);
    QuotientNonNegative(total, |s.data| as real);
  }

  lemma QuotientNonNegative(a: real, m: real)
    requires a >= 0.0 && m > 0.0
    ensures a / m >= 0.0
  {
  }

  function CountOnes(ps: seq<Point>): nat {
    if ps == [] then 0 else CountOnes(ps[..|ps| - 1]) + ps[|ps| - 1].classLabel
  }

  /** The bias gradient lies strictly between minus the number of points labelled 1
      and the number of points labelled 0: each point contributes h - label, which
      is in (-1, 0) for label 1 and in (0, 1) for label 0. */
  lemma {:induction false} BiasGradientBounds(exp: Exp, w: Weights, ps: seq<Point>)
    ensures ps == [] ==> SumDb(exp, w, ps) == 0.0
    ensures ps != [] ==>
      -(CountOnes(ps) as real) < SumDb(exp, w, ps) < (|ps| - CountOnes(ps)) as real
  {
    if ps != [] {
      var init := ps[..|ps| - 1];
      BiasGradientBounds(exp, w, init);
      assert 0.0 < Predict(exp, w, ps[|ps| - 1]) < 1.0;
    }
  }

  /** Hence on data where every label is 1 the step raises b, and where every
      label is 0 it lowers b. */
  lemma BiasMovesTowardTheLabels(s: State, exp: Exp, log: real -> real)
    requires |s.data| > 0
    ensures CountOnes(s.data) == |s.data| ==> TrainStepOf(s, exp, log).weights.b > s.weights.b
    ensures CountOnes(s.data) == 0 ==> TrainStepOf(s, exp, log).weights.b < s.weights.b
  {
    BiasGradientBounds(exp, s.weights, s.data);
    var k := LearningRate / |s.data| as real;
    var db := SumDb(exp, s.weights, s.data);
    assert k > 0.0;
    if CountOnes(s.data) == |s.data| {
      assert db < 0.0;
      assert k * db < 0.0;
    }
    if CountOnes(s.data) == 0 {
      assert db > 0.0;
      assert k * db > 0.0;
    }
  }

  /** The component. */
  class LogisticRegressionViz {
    var data: seq<Point>
    var weights: Weights
    var isTraining: bool
    var epoch: int
    var cost: real

    function Current(): State
      reads this
    {
      State(data, weights, isTraining, epoch, cost)
    }

    /** Every reachable state holds the 40 generated points, so a step never divides by zero. */
    ghost predicate Valid()
      reads this
    {
      |data| == PointCount
    }

    /** Mounting sets the initial weights (1, 1, 0) and then runs `generateData`,
        which replaces them. */
    constructor (draws: seq<real>)
      requires |draws| == GenerateDrawCount && UnitDraws(draws)
      ensures Valid()
      ensures weights == InitialWeights(draws) && !isTraining && epoch == 0 && cost == 0.0
      ensures forall i :: 0 <= i < PointCount ==>
        data[i] == SamplePoint(draws[2 * i], draws[2 * i + 1], if i < ClassSize then 0 else 1)
    {
      data, weights, isTraining, epoch, cost := [], Weights(1.0, 1.0, 0.0), false, 0, 0.0;
      var ps := GeneratePoints(draws);
      data := ps;
      weights := InitialWeights(draws);
      epoch, cost, isTraining := 0, 0.0, false;
    }

    /** `generateData`: fresh blobs, a random boundary, counters reset, training off. */
    method GenerateData(draws: seq<real>)
      requires |draws| == GenerateDrawCount && UnitDraws(draws)
      modifies this
      ensures Valid()
      ensures weights == InitialWeights(draws) && !isTraining && epoch == 0 && cost == 0.0
      ensures forall i :: 0 <= i < PointCount ==>
        data[i] == SamplePoint(draws[2 * i], draws[2 * i + 1], if i < ClassSize then 0 else 1)
    {
      var ps := GeneratePoints(draws);
      data := ps;
      weights := InitialWeights(draws);
      epoch, cost, isTraining := 0, 0.0, false;
    }

    /** The Start/Stop button. */
    method ToggleTraining()
      modifies this
      ensures Current() == old(Current()).(isTraining := !old(isTraining))
    {
      isTraining := !isTraining;
    }

    /** `trainStep`: one batch update of (w1, w2, b), the mean loss as the cost, one more epoch. */
    method TrainStep(exp: Exp, log: real -> real)
      requires Valid()
      modifies this
      ensures Valid()
      ensures Current() == TrainStepOf(old(Current()), exp, log)
    {
      var w1, w2, b := weights.w1, weights.w2, weights.b;
      var m := |data| as real;
      var dw1, dw2, db, totalLoss := Gradients(exp, log, weights, data);
      w1 := w1 - (LearningRate / m) * dw1;
      w2 := w2 - (LearningRate / m) * dw2;
      b := b - (LearningRate / m) * db;
      weights := Weights(w1, w2, b);
      cost := totalLoss / m;
      epoch := epoch + 1;
    }
  }
}
