/** The PCA demo: 40 points spread along the diagonal of a 400 x 300 canvas,
    and a toggle that projects them onto the fixed direction (0.707, 0.707)
    through the canvas centre, or puts them back.  Every point remembers its
    original position (ox, oy), and both directions of the toggle read only
    that original, so toggling never drifts. */
module PCA {

  const CenterX: real := 200.0
  const CenterY: real := 150.0
  /** Both components of the fixed principal direction; 0.707 approximates 1/sqrt(2). */
  const V: real := 0.707
  const PointCount: nat := 40

  datatype PcaPoint = PcaPoint(x: real, y: real, ox: real, oy: real)

  /** The component's state: its points and its two display flags. */
  datatype State = State(points: seq<PcaPoint>, showVectors: bool, projected: bool)

  /** Every value drawn from Math.random lies in [0, 1). */
  predicate UnitDraws(r: seq<real>) {
    forall i :: 0 <= i < |r| ==> 0.0 <= r[i] < 1.0
  }

  // ---------------------------------------------------------------------------
  // Data generation

  /** One generated point: `dist` along the diagonal and `noise` across it,
      taken from two draws, with the original position equal to the current one. */
  function SamplePoint(a: real, b: real): (p: PcaPoint)
    requires 0.0 <= a < 1.0 && 0.0 <= b < 1.0
    ensures p.x == p.ox && p.y == p.oy
    ensures -200.0 <= (p.x - CenterX) + (p.y - CenterY) < 200.0
    ensures -60.0 <= (p.x - CenterX) - (p.y - CenterY) < 60.0
  {
    var dist := (a - 0.5) * 200.0;
    var noise := (b - 0.5) * 60.0;
    var x := CenterX + dist + noise;
    var y := CenterY + dist - noise;
    PcaPoint(x, y, x, y)
  }

  /** The loop of `generateData`: point `i` is made from draws 2i and 2i+1. */
  method GeneratePoints(draws: seq<real>) returns (ps: seq<PcaPoint>)
    requires |draws| == 2 * PointCount && UnitDraws(draws)
    ensures |ps| == PointCount
    ensures forall i :: 0 <= i < PointCount ==> ps[i] == SamplePoint(draws[2 * i], draws[2 * i + 1])
    ensures forall i :: 0 <= i < |ps| ==> ps[i].x == ps[i].ox && ps[i].y == ps[i].oy
  {
    ps := [];
    for i := 0 to PointCount
      invariant |ps| == i
      invariant forall k :: 0 <= k < i ==> ps[k] == SamplePoint(draws[2 * k], draws[2 * k + 1])
    {
      var dist := (draws[2 * i] - 0.5) * 200.0;
      var noise := (draws[2 * i + 1] - 0.5) * 60.0;
      var x := CenterX + dist + noise;
      var y := CenterY + dist - noise;
      ps := ps + [PcaPoint(x, y, x, y)];
    }
  }

  // ---------------------------------------------------------------------------
  // Projection

  /** Where an original position (ox, oy) lands when projected: on the diagonal
      through the centre, at an offset proportional to the sum of its offsets. */
  function Projection(ox: real, oy: real): (r: (real, real))
    ensures r.0 - CenterX == r.1 - CenterY
    ensures r.0 - CenterX == V * V * ((ox - CenterX) + (oy - CenterY))
  {
    var dot := (ox - CenterX) * V + (oy - CenterY) * V;
    (CenterX + dot * V, CenterY + dot * V)
  }

  /** What the current position must be, given the flag: the original when not
      projected, the projection of the original when projected. */
  predicate Consistent(p: PcaPoint, projected: bool) {
    if projected then (p.x, p.y) == Projection(p.ox, p.oy) else p.x == p.ox && p.y == p.oy
  }

  predicate AllConsistent(ps: seq<PcaPoint>, projected: bool) {
    forall i :: 0 <= i < |ps| ==> Consistent(ps[i], projected)
  }

  /** The point-wise `map` of `toggleProjection`, given the flag before the toggle. */
  function Toggled(p: PcaPoint, projected: bool): PcaPoint {
    if projected then p.(x := p.ox, y := p.oy)
    else var q := Projection(p.ox, p.oy); p.(x := q.0, y := q.1)
  }

  function ToggleMap(ps: seq<PcaPoint>, projected: bool): (r: seq<PcaPoint>)
    ensures |r| == |ps|
    ensures forall i :: 0 <= i < |ps| ==> r[i].ox == ps[i].ox && r[i].oy == ps[i].oy
    ensures projected ==> forall i :: 0 <= i < |ps| ==> r[i].x == ps[i].ox && r[i].y == ps[i].oy
    ensures !projected ==> forall i :: 0 <= i < |ps| ==> r[i].x - CenterX == r[i].y - CenterY
  {
    seq(|ps|, i requires 0 <= i < |ps| => Toggled(ps[i], projected))
  }

  /** `toggleProjection` on the whole state. */
  function ProjectionToggled(s: State): (r: State)
    ensures r.projected == !s.projected && r.showVectors == s.showVectors
    ensures |r.points| == |s.points|
  {
    State(ToggleMap(s.points, s.projected), s.showVectors, !s.projected)
  }

  /** `toggleVectors`: flips the flag and nothing else. */
  function VectorsToggled(s: State): (r: State)
    ensures r.showVectors == !s.showVectors
    ensures r.points == s.points && r.projected == s.projected
  {
    s.(showVectors := !s.showVectors)
  }

  /** The toggle reads only the original coordinates: two point lists that agree
      on every (ox, oy) toggle to the same list, whatever their current x, y. */
  lemma ToggleReadsOnlyOriginals(ps1: seq<PcaPoint>, ps2: seq<PcaPoint>, projected: bool)
    requires |ps1| == |ps2|
    requires forall i :: 0 <= i < |ps1| ==> ps1[i].ox == ps2[i].ox && ps1[i].oy == ps2[i].oy
    ensures ToggleMap(ps1, projected) == ToggleMap(ps2, projected)
  {
    var r1, r2 := ToggleMap(ps1, projected), ToggleMap(ps2, projected);
    forall i | 0 <= i < |ps1| ensures r1[i] == r2[i] {
      assert r1[i] == Toggled(ps1[i], projected);
      assert r2[i] == Toggled(ps2[i], projected);
    }
  }

  /** Whatever the state, a toggle leaves every point consistent with the new flag. */
  lemma ToggleEstablishesConsistency(s: State)
    ensures AllConsistent(ProjectionToggled(s).points, ProjectionToggled(s).projected)
  {
    var r := ProjectionToggled(s);
    forall i | 0 <= i < |r.points| ensures Consistent(r.points[i], r.projected) {
      assert r.points[i] == Toggled(s.points[i], s.projected);
    }
  }

  /** Toggling a consistent state twice gives back exactly that state. */
  lemma ToggleTwiceIsIdentity(s: State)
    requires AllConsistent(s.points, s.projected)
    ensures ProjectionToggled(ProjectionToggled(s)) == s
  {
    var once := ProjectionToggled(s);
    var twice := ProjectionToggled(once);
    forall i | 0 <= i < |s.points| ensures twice.points[i] == s.points[i] {
      assert once.points[i] == Toggled(s.points[i], s.projected);
      assert twice.points[i] == Toggled(once.points[i], once.projected);
      assert Consistent(s.points[i], s.projected);
    }
  }

  /** 0.707 is not exactly 1/sqrt(2): a point already on the diagonal, at offset t
      from the centre, is moved to offset 0.999698 * t rather than left in place. */
  lemma ProjectionShrinksDiagonal(t: real)
    ensures Projection(CenterX + t, CenterY + t) == (CenterX + 0.999698 * t, CenterY + 0.999698 * t)
  {
  }

  /** The component: a point list and two flags, each replaced through its setter. */
  class PCAViz {
    var points: seq<PcaPoint>
    var showVectors: bool
    var projected: bool

    function Current(): State
      reads this
    {
      State(points, showVectors, projected)
    }

    /** Every point's current position is determined by its original and the flag. */
    ghost predicate Valid()
      reads this
    {
      AllConsistent(points, projected)
    }

    /** Mounting runs `generateData`. */
    constructor (draws: seq<real>)
      requires |draws| == 2 * PointCount && UnitDraws(draws)
      ensures Valid()
      ensures |points| == PointCount && !showVectors && !projected
      ensures forall i :: 0 <= i < PointCount ==> points[i] == SamplePoint(draws[2 * i], draws[2 * i + 1])
    {
      var ps := GeneratePoints(draws);
      points := ps;
      showVectors := false;
      projected := false;
    }

    /** `generateData`: 40 fresh points at their originals, both flags cleared. */
    method GenerateData(draws: seq<real>)
      requires |draws| == 2 * PointCount && UnitDraws(draws)
      modifies this
      ensures Valid()
      ensures |points| == PointCount && !showVectors && !projected
      ensures forall i :: 0 <= i < PointCount ==> points[i] == SamplePoint(draws[2 * i], draws[2 * i + 1])
    {
      var ps := GeneratePoints(draws);
      points := ps;
      showVectors := false;
      projected := false;
    }

    /** `toggleVectors`. */
    method ToggleVectors()
      modifies this
      ensures Current() == VectorsToggled(old(Current()))
      ensures Valid() == old(Valid())
    {
      showVectors := !showVectors;
    }

    /** `toggleProjection`: restore or project every point from its original, flip the flag. */
    method ToggleProjection()
      modifies this
      ensures Current() == ProjectionToggled(old(Current()))
      ensures Valid()
      ensures old(Valid()) ==> ProjectionToggled(Current()) == old(Current())
    {
      ghost var before := Current();
      points := ToggleMap(points, projected);
      projected := !projected;
      ToggleEstablishesConsistency(before);
      if AllConsistent(before.points, before.projected) {
        ToggleTwiceIsIdentity(before);
      }
    }
  }
}
