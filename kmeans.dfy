/** The k-means demo: Lloyd's algorithm with K = 3 coloured centroids over
    90 points drawn as three blobs of 30 on a 400 x 300 canvas.  Coordinates
    are JavaScript numbers, modelled as exact reals; Euclidean distance is
    compared through its square, which orders centroids the same way. */
module KMeans {

  const Width: real := 400.0
  const Height: real := 300.0
  /** Centroid colours, in the order the centroids are created. */
  const Palette: seq<string> := ["#f472b6", "#34d399", "#60a5fa"]
  const BlobCount: nat := 3
  const BlobSize: nat := 30
  /** Random draws consumed by one `init`: per blob a centre (2) and 30 offsets (60), then 3 centroids (6). */
  const InitDrawCount: nat := 192

  /** A data point; `cluster` is -1 until the first step assigns it. */
  datatype Point = Point(x: real, y: real, cluster: int)

  datatype Centroid = Centroid(x: real, y: real, color: string)

  /** The state the component keeps through its three setters. */
  datatype State = State(points: seq<Point>, centroids: seq<Centroid>, iteration: int)

  /** Every value drawn from Math.random lies in [0, 1). */
  predicate UnitDraws(r: seq<real>) {
    forall i :: 0 <= i < |r| ==> 0.0 <= r[i] < 1.0
  }

  function SqDist(x: real, y: real, c: Centroid): real {
    (x - c.x) * (x - c.x) + (y - c.y) * (y - c.y)
  }

  // ---------------------------------------------------------------------------
  // Initialisation

  /** Centre of blob `i`: a draw scaled into [50, 350) x [50, 250). */
  function BlobCentre(draws: seq<real>, i: nat): (r: (real, real))
    requires |draws| == InitDrawCount && UnitDraws(draws) && i < BlobCount
    ensures 50.0 <= r.0 < Width - 50.0 && 50.0 <= r.1 < Height - 50.0
  {
    var b := i * 62;
    (draws[b] * (Width - 100.0) + 50.0, draws[b + 1] * (Height - 100.0) + 50.0)
  }

  /** Point `j` of blob `i`: its blob centre shifted by up to 30 in each direction. */
  function BlobPoint(draws: seq<real>, i: nat, j: nat): (p: Point)
    requires |draws| == InitDrawCount && UnitDraws(draws) && i < BlobCount && j < BlobSize
    ensures p.cluster == -1
    ensures var c := BlobCentre(draws, i);
      c.0 - 30.0 <= p.x < c.0 + 30.0 && c.1 - 30.0 <= p.y < c.1 + 30.0
    ensures 20.0 <= p.x < Width - 20.0 && 20.0 <= p.y < Height - 20.0
  {
    var c := BlobCentre(draws, i);
    var b := i * 62 + 2 + 2 * j;
    Point(c.0 + (draws[b] - 0.5) * 60.0, c.1 + (draws[b + 1] - 0.5) * 60.0, -1)
  }

  /** The three blobs, generated by the nested loops of `init`. */
  method GenerateBlobs(draws: seq<real>) returns (points: seq<Point>)
    requires |draws| == InitDrawCount && UnitDraws(draws)
    ensures |points| == BlobCount * BlobSize
    ensures forall i, j :: 0 <= i < BlobCount && 0 <= j < BlobSize ==>
      points[BlobSize * i + j] == BlobPoint(draws, i, j)
    ensures forall k :: 0 <= k < |points| ==> points[k].cluster == -1
  {
    points := [];
    for i := 0 to BlobCount
      invariant |points| == BlobSize * i
      invariant forall bi, bj :: 0 <= bi < i && 0 <= bj < BlobSize ==>
        points[BlobSize * bi + bj] == BlobPoint(draws, bi, bj)
      invariant forall k :: 0 <= k < |points| ==> points[k].cluster == -1
    {
      var centre := BlobCentre(draws, i);
      for j := 0 to BlobSize
        invariant |points| == BlobSize * i + j
        invariant forall bi, bj :: 0 <= bi < i && 0 <= bj < BlobSize ==>
          points[BlobSize * bi + bj] == BlobPoint(draws, bi, bj)
        invariant forall bj :: 0 <= bj < j ==> points[BlobSize * i + bj] == BlobPoint(draws, i, bj)
        invariant forall k :: 0 <= k < |points| ==> points[k].cluster == -1
      {
        var b := i * 62 + 2 + 2 * j;
        points := points + [Point(centre.0 + (draws[b] - 0.5) * 60.0, centre.1 + (draws[b + 1] - 0.5) * 60.0, -1)];
      }
    }
  }

  /** The three starting centroids: anywhere on the canvas, coloured in palette order. */
  function InitialCentroids(draws: seq<real>): (cs: seq<Centroid>)
    requires |draws| == InitDrawCount && UnitDraws(draws)
    ensures |cs| == |Palette|
    ensures forall k :: 0 <= k < |cs| ==> cs[k].color == Palette[k]
    ensures forall k :: 0 <= k < |cs| ==> 0.0 <= cs[k].x < Width && 0.0 <= cs[k].y < Height
  {
    seq(|Palette|, k requires 0 <= k < |Palette| =>
      Centroid(draws[186 + 2 * k] * Width, draws[187 + 2 * k] * Height, Palette[k]))
  }

  // ---------------------------------------------------------------------------
  // Assignment step

  /** The index the source's scan over `cs[..n]` settles on: -1 when nothing was
      scanned (the `Infinity` seed), otherwise the first centroid at minimal distance. */
  function NearestAmong(x: real, y: real, cs: seq<Centroid>, n: nat): (r: int)
    requires n <= |cs|
    ensures n == 0 ==> r == -1
    ensures n > 0 ==> 0 <= r < n
    ensures n > 0 ==> forall j :: 0 <= j < n ==> SqDist(x, y, cs[r]) <= SqDist(x, y, cs[j])
    ensures n > 0 ==> forall j :: 0 <= j < r ==> SqDist(x, y, cs[r]) < SqDist(x, y, cs[j])
  {
    if n == 0 then -1
    else
      var k := NearestAmong(x, y, cs, n - 1);
      if k == -1 || SqDist(x, y, cs[n - 1]) < SqDist(x, y, cs[k]) then n - 1 else k
  }

  /** The nearest centroid of (x, y), ties going to the lowest index. */
  function Nearest(x: real, y: real, cs: seq<Centroid>): int {
    NearestAmong(x, y, cs, |cs|)
  }

  /** Every point, re-labelled with its nearest centroid. */
  function Reassign(ps: seq<Point>, cs: seq<Centroid>): seq<Point> {
    seq(|ps|, i requires 0 <= i < |ps| => ps[i].(cluster := Nearest(ps[i].x, ps[i].y, cs)))
  }

  /** The inner `forEach` of the assignment: `clusterIndex == -1` stands for the
      moment when `minDist` still holds `Infinity`. */
  method NearestCentroid(x: real, y: real, cs: seq<Centroid>) returns (clusterIndex: int)
    ensures clusterIndex == Nearest(x, y, cs)
    ensures cs == [] <==> clusterIndex == -1
    ensures cs != [] ==> 0 <= clusterIndex < |cs|
  {
    var minDist := 0.0;
    clusterIndex := -1;
    for idx := 0 to |cs|
      invariant clusterIndex == NearestAmong(x, y, cs, idx)
      invariant clusterIndex != -1 ==> minDist == SqDist(x, y, cs[clusterIndex])
    {
      var dist := SqDist(x, y, cs[idx]);
      if clusterIndex == -1 || dist < minDist {
        minDist := dist;
        clusterIndex := idx;
      }
    }
  }

  /** The assignment `map`: each point keeps its position and gets the index of
      its nearest centroid, the lowest index among equally near ones. */
  method Assign(ps: seq<Point>, cs: seq<Centroid>) returns (newPoints: seq<Point>)
    ensures newPoints == Reassign(ps, cs)
    ensures |newPoints| == |ps|
    ensures forall i :: 0 <= i < |ps| ==> newPoints[i].x == ps[i].x && newPoints[i].y == ps[i].y
    ensures cs == [] ==> forall i :: 0 <= i < |ps| ==> newPoints[i].cluster == -1
    ensures cs != [] ==> forall i :: 0 <= i < |ps| ==> 0 <= newPoints[i].cluster < |cs|
    ensures forall i :: 0 <= i < |ps| ==> forall j :: 0 <= j < |cs| ==>
      0 <= newPoints[i].cluster < |cs| &&
      SqDist(ps[i].x, ps[i].y, cs[newPoints[i].cluster]) <= SqDist(ps[i].x, ps[i].y, cs[j])
    ensures forall i, j :: 0 <= i < |ps| && 0 <= j < newPoints[i].cluster ==>
      SqDist(ps[i].x, ps[i].y, cs[newPoints[i].cluster]) < SqDist(ps[i].x, ps[i].y, cs[j])
  {
    newPoints := [];
    for i := 0 to |ps|
      invariant newPoints == Reassign(ps[..i], cs)
    {
      var clusterIndex := NearestCentroid(ps[i].x, ps[i].y, cs);
      newPoints := newPoints + [ps[i].(cluster := clusterIndex)];
    }
    assert ps[..|ps|] == ps;
  }

  // ---------------------------------------------------------------------------
  // Update step

  /** `filter(p => p.cluster === idx)`. */
  function Members(ps: seq<Point>, idx: int): (r: seq<Point>)
    ensures |r| <= |ps|
  {
    if ps == [] then []
    else Members(ps[..|ps| - 1], idx) + (if ps[|ps| - 1].cluster == idx then [ps[|ps| - 1]] else [])
  }

  /** One more point at the end is kept, at the end, exactly when it has the index. */
  lemma MembersSnoc(ps: seq<Point>, p: Point, idx: int)
    ensures Members(ps + [p], idx) == Members(ps, idx) + (if p.cluster == idx then [p] else [])
  {
    assert (ps + [p])[..|ps|] == ps;
  }

  /** The filter keeps every copy of a point with the index, and no other point. */
  lemma {:induction false} MembersCount(ps: seq<Point>, idx: int, p: Point)
    ensures multiset(Members(ps, idx))[p] == if p.cluster == idx then multiset(ps)[p] else 0
  {
    if ps != [] {
      var init, last := ps[..|ps| - 1], ps[|ps| - 1];
      assert ps == init + [last];
      MembersCount(init, idx, p);
      MembersSnoc(init, last, idx);
    }
  }

  /** Filtering two parts and concatenating is filtering the whole: the kept
      points stay in their original order. */
  lemma {:induction false} MembersAppend(a: seq<Point>, b: seq<Point>, idx: int)
    ensures Members(a + b, idx) == Members(a, idx) + Members(b, idx)
    decreases |b|
  {
    if b == [] {
      assert a + b == a;
    } else {
      var init, last := b[..|b| - 1], b[|b| - 1];
      assert b == init + [last];
      assert a + b == (a + init) + [last];
      MembersAppend(a, init, idx);
      MembersSnoc(a + init, last, idx);
      MembersSnoc(init, last, idx);
    }
  }

  function SumX(ps: seq<Point>): real {
    if ps == [] then 0.0 else SumX(ps[..|ps| - 1]) + ps[|ps| - 1].x
  }

  function SumY(ps: seq<Point>): real {
    if ps == [] then 0.0 else SumY(ps[..|ps| - 1]) + ps[|ps| - 1].y
  }

  /** Total signed horizontal offset of the points from `a`. */
  function DevX(ps: seq<Point>, a: real): real {
    if ps == [] then 0.0 else DevX(ps[..|ps| - 1], a) + (ps[|ps| - 1].x - a)
  }

  /** Total signed vertical offset of the points from `a`. */
  function DevY(ps: seq<Point>, a: real): real {
    if ps == [] then 0.0 else DevY(ps[..|ps| - 1], a) + (ps[|ps| - 1].y - a)
  }

  /** One centroid's update: the mean of its members, or unchanged when it has none. */
  function MoveCentroid(c: Centroid, members: seq<Point>): Centroid {
    if |members| == 0 then c
    else c.(x := SumX(members) / |members| as real, y := SumY(members) / |members| as real)
  }

  /** The centroid `map` of the update step. */
  function UpdateCentroids(cs: seq<Centroid>, ps: seq<Point>): (r: seq<Centroid>)
    ensures |r| == |cs|
    ensures forall i :: 0 <= i < |cs| ==> r[i].color == cs[i].color
    ensures forall i :: 0 <= i < |cs| && Members(ps, i) == [] ==> r[i] == cs[i]
  {
    seq(|cs|, i requires 0 <= i < |cs| => MoveCentroid(cs[i], Members(ps, i)))
  }

  /** One `step`: assignment, then update, then the counter. */
  function StepOf(s: State): (r: State)
    ensures |r.points| == |s.points| && |r.centroids| == |s.centroids|
    ensures r.iteration == s.iteration + 1
    ensures forall i :: 0 <= i < |s.points| ==> r.points[i].x == s.points[i].x && r.points[i].y == s.points[i].y
    ensures forall i :: 0 <= i < |s.centroids| ==> r.centroids[i].color == s.centroids[i].color
  {
    var newPoints := Reassign(s.points, s.centroids);
    State(newPoints, UpdateCentroids(s.centroids, newPoints), s.iteration + 1)
  }

  lemma {:induction false} DevXIsSumMinusCount(ps: seq<Point>, a: real)
    ensures DevX(ps, a) == SumX(ps) - |ps| as real * a
  {
    if ps != [] {
      DevXIsSumMinusCount(ps[..|ps| - 1], a);
    }
  }

  lemma {:induction false} DevYIsSumMinusCount(ps: seq<Point>, a: real)
    ensures DevY(ps, a) == SumY(ps) - |ps| as real * a
  {
    if ps != [] {
      DevYIsSumMinusCount(ps[..|ps| - 1], a);
    }
  }

  /** A centroid that has members moves to their arithmetic mean: the members'
      offsets from its new position cancel out in both coordinates. */
  lemma CentroidIsMeanOfMembers(cs: seq<Centroid>, ps: seq<Point>, i: nat)
    requires i < |cs| && Members(ps, i) != []
    ensures var c := UpdateCentroids(cs, ps)[i];
      DevX(Members(ps, i), c.x) == 0.0 && DevY(Members(ps, i), c.y) == 0.0
  {
    var m := Members(ps, i);
    assert UpdateCentroids(cs, ps)[i] == MoveCentroid(cs[i], m);
    MeanCancels(cs[i], m);
  }

  lemma MeanCancels(c: Centroid, m: seq<Point>)
    requires m != []
    ensures DevX(m, MoveCentroid(c, m).x) == 0.0 && DevY(m, MoveCentroid(c, m).y) == 0.0
  {
    var n := |m| as real;
    var mx, my := SumX(m) / n, SumY(m) / n;
    DevXIsSumMinusCount(m, mx);
    DevYIsSumMinusCount(m, my);
    assert n * mx == SumX(m);
    assert n * my == SumY(m);
  }

  /** Centroid positions depend only on the assignment: once every cluster has a
      member, the previous positions no longer matter. */
  lemma CentroidsDependOnlyOnAssignment(cs1: seq<Centroid>, cs2: seq<Centroid>, ps: seq<Point>)
    requires |cs1| == |cs2|
    requires forall i :: 0 <= i < |cs1| ==> cs1[i].color == cs2[i].color
    requires forall i :: 0 <= i < |cs1| ==> Members(ps, i) != []
    ensures UpdateCentroids(cs1, ps) == UpdateCentroids(cs2, ps)
  {
    var r1, r2 := UpdateCentroids(cs1, ps), UpdateCentroids(cs2, ps);
    forall i | 0 <= i < |cs1| ensures r1[i] == r2[i] {
      assert r1[i] == MoveCentroid(cs1[i], Members(ps, i));
      assert r2[i] == MoveCentroid(cs2[i], Members(ps, i));
    }
  }

  /** Updating twice against the same assignment changes nothing more. */
  lemma UpdateIsIdempotent(cs: seq<Centroid>, ps: seq<Point>)
    ensures UpdateCentroids(UpdateCentroids(cs, ps), ps) == UpdateCentroids(cs, ps)
  {
    var once := UpdateCentroids(cs, ps);
    var twice := UpdateCentroids(once, ps);
    forall i | 0 <= i < |cs| ensures twice[i] == once[i] {
      assert once[i] == MoveCentroid(cs[i], Members(ps, i));
      assert twice[i] == MoveCentroid(once[i], Members(ps, i));
    }
  }

  /** Convergence: once a step's assignment is reproduced by the next, that next
      step leaves points and centroids exactly as they were and only counts. */
  lemma ConvergedStepIsFixedPoint(s: State)
    requires var t := StepOf(s); Reassign(t.points, t.centroids) == t.points
    ensures var t := StepOf(s);
      StepOf(t) == State(t.points, t.centroids, t.iteration + 1)
  {
    var t := StepOf(s);
    UpdateIsIdempotent(s.centroids, t.points);
  }

  /** The component: three pieces of state replaced through their setters. */
  class KMeansViz {
    var dataPoints: seq<Point>
    var centroids: seq<Centroid>
    var iteration: int

    function Current(): State
      reads this
    {
      State(dataPoints, centroids, iteration)
    }

    /** Shape every reachable state has: 90 points, the three palette centroids,
        clusters either unassigned or a centroid index. */
    ghost predicate Valid()
      reads this
    {
      && |dataPoints| == BlobCount * BlobSize
      && |centroids| == |Palette|
      && (forall k :: 0 <= k < |centroids| ==> centroids[k].color == Palette[k])
      && (forall i :: 0 <= i < |dataPoints| ==> -1 <= dataPoints[i].cluster < |centroids|)
      && iteration >= 0
    }

    /** Mounting runs `init`. */
    constructor (draws: seq<real>)
      requires |draws| == InitDrawCount && UnitDraws(draws)
      ensures Valid()
      ensures centroids == InitialCentroids(draws) && iteration == 0
      ensures forall i, j :: 0 <= i < BlobCount && 0 <= j < BlobSize ==>
        dataPoints[BlobSize * i + j] == BlobPoint(draws, i, j)
    {
      var points := GenerateBlobs(draws);
      dataPoints := points;
      centroids := InitialCentroids(draws);
      iteration := 0;
    }

    /** `init`: 90 fresh unassigned points, 3 fresh centroids, counter back to 0. */
    method Init(draws: seq<real>)
      requires |draws| == InitDrawCount && UnitDraws(draws)
      modifies this
      ensures Valid()
      ensures centroids == InitialCentroids(draws) && iteration == 0
      ensures forall i, j :: 0 <= i < BlobCount && 0 <= j < BlobSize ==>
        dataPoints[BlobSize * i + j] == BlobPoint(draws, i, j)
      ensures forall k :: 0 <= k < |dataPoints| ==> dataPoints[k].cluster == -1
    {
      var points := GenerateBlobs(draws);
      dataPoints := points;
      centroids := InitialCentroids(draws);
      iteration := 0;
    }

    /** `step`: reassign every point, move every centroid, count one iteration. */
    method Step()
      requires Valid()
      modifies this
      ensures Valid()
      ensures Current() == StepOf(old(Current()))
    {
      var newPoints := Assign(dataPoints, centroids);
      var newCentroids := UpdateCentroids(centroids, newPoints);
      dataPoints := newPoints;
      centroids := newCentroids;
      iteration := iteration + 1;
    }
  }
}
