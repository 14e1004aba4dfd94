/**
 * Line::closestPoint of src/Line.cpp: the point of the segment from `start` to `end`
 * that is nearest to a query point, computed with dot products, squared lengths and
 * one division. Coordinates are exact reals rather than floats.
 */
module Lines {
  import opened Vectors

  /** The two end points a Line keeps (_start, _end); its mesh, normal and colour are not modelled. */
  datatype Segment = Segment(start: Vec3, end: Vec3)

  /** `direction` of Line.cpp:73. */
  function Direction(l: Segment): Vec3 {
    Sub(l.end, l.start)
  }

  /**
   * The in-segment branch divides by the squared length of the direction, so the
   * segment must have a non-zero length (start != end).
   */
  predicate NonDegenerate(l: Segment) {
    Length2(Direction(l)) != 0.0
  }

  /** The point at parameter s along the segment: start at 0, end at 1. */
  function PointAt(l: Segment, s: real): Vec3 {
    Add(l.start, Scale(Direction(l), s))
  }

  /** `t` of Line.cpp:74: the projection of pt - start on the direction, scaled by its length. */
  function Projection(l: Segment, pt: Vec3): real {
    Dot(Direction(l), Sub(pt, l.start))
  }

  function ClosestPoint(l: Segment, pt: Vec3): (r: Vec3)
    requires NonDegenerate(l)
    ensures r == PointAt(l, ClosestParameter(l, pt))
  {
    var v := Sub(pt, l.start);
    var direction := Direction(l);
    var t := Dot(direction, v);
    if 0.0 <= t && t <= Length2(direction) then
      DivScale(direction, t, Length2(direction));
      Add(l.start, Div(Scale(direction, t), Length2(direction)))
    else
      var d0Squared := Length2(v);
      var d1Squared := Length2(Sub(v, direction));
      ScaleOne(direction);
      if d0Squared < d1Squared then l.start else l.end
  }

  /** The parameter along the segment of the point ClosestPoint returns. */
  function ClosestParameter(l: Segment, pt: Vec3): real
    requires NonDegenerate(l)
  {
    var v := Sub(pt, l.start);
    var direction := Direction(l);
    var t := Dot(direction, v);
    if 0.0 <= t && t <= Length2(direction) then t / Length2(direction)
    else if Length2(v) < Length2(Sub(v, direction)) then 0.0
    else 1.0
  }

  /** The result always lies on the segment. */
  lemma ClosestPointOnSegment(l: Segment, pt: Vec3)
    requires NonDegenerate(l)
    ensures 0.0 <= ClosestParameter(l, pt) <= 1.0
    ensures ClosestPoint(l, pt) == PointAt(l, ClosestParameter(l, pt))
  {
    var t := Projection(l, pt);
    var len := Length2(Direction(l));
    Length2NonNegative(Direction(l));
    if 0.0 <= t && t <= len {
      QuotientInUnit(t, len);
    }
  }

  /**
   * Outside the in-segment branch the distance comparison of Line.cpp:97 always picks
   * the end on the side the projection fell: start when t < 0, end when t > |d|^2.
   */
  lemma ClosestEndpoint(l: Segment, pt: Vec3)
    requires NonDegenerate(l)
    ensures Projection(l, pt) < 0.0 ==> ClosestPoint(l, pt) == l.start
    ensures Projection(l, pt) > Length2(Direction(l)) ==> ClosestPoint(l, pt) == l.end
  {
    var v := Sub(pt, l.start);
    var d := Direction(l);
    Length2NonNegative(d);
    Expand(v, d, 1.0);
    ScaleOne(d);
  }

  /** Both end points are their own closest points. */
  lemma ClosestPointAtEnds(l: Segment)
    requires NonDegenerate(l)
    ensures ClosestPoint(l, l.start) == l.start
    ensures ClosestPoint(l, l.end) == l.end
  {
    var d := Direction(l);
    var len := Length2(d);
    Length2NonNegative(d);
    assert Sub(l.start, l.start) == Origin;
    assert Projection(l, l.start) == 0.0;
    assert ClosestParameter(l, l.start) == 0.0;
    assert Sub(l.end, l.start) == d;
    assert Projection(l, l.end) == len;
    Quotient(len, len);
    assert ClosestParameter(l, l.end) == 1.0;
    ScaleOne(d);
  }

  /** No point of the segment is nearer to pt than the one ClosestPoint returns. */
  lemma ClosestPointIsNearest(l: Segment, pt: Vec3, s: real)
    requires NonDegenerate(l)
    requires 0.0 <= s <= 1.0
    ensures Length2(Sub(pt, ClosestPoint(l, pt))) <= Length2(Sub(pt, PointAt(l, s)))
  {
    var c := ClosestParameter(l, pt);
    var t := Projection(l, pt);
    var len := Length2(Direction(l));
    Length2NonNegative(Direction(l));
    ParameterCases(l, pt);
    DistanceAt(l, pt, s);
    DistanceAt(l, pt, c);
    Nearest(Length2(Sub(pt, l.start)), t, len, c, s);
  }

  /** The parameter ClosestPoint picks, by the position of the projection. */
  lemma ParameterCases(l: Segment, pt: Vec3)
    requires NonDegenerate(l)
    ensures 0.0 <= Projection(l, pt) <= Length2(Direction(l))
      ==> ClosestParameter(l, pt) == Projection(l, pt) / Length2(Direction(l))
    ensures Projection(l, pt) < 0.0 ==> ClosestParameter(l, pt) == 0.0
    ensures Projection(l, pt) > Length2(Direction(l)) ==> ClosestParameter(l, pt) == 1.0
  {
    ClosestEndpoint(l, pt);
  }

  // Algebra on the squared distance q(s) = a - 2st + s^2 len from pt to the point at s.

  /** q is smallest at the parameter the three cases pick. */
  lemma Nearest(a: real, t: real, len: real, c: real, s: real)
    requires len > 0.0 && 0.0 <= s <= 1.0
    requires 0.0 <= t <= len ==> c == t / len
    requires t < 0.0 ==> c == 0.0
    requires t > len ==> c == 1.0
    ensures a - 2.0 * c * t + c * c * len <= a - 2.0 * s * t + s * s * len
  {
    if 0.0 <= t <= len {
      NearestInside(a, t, len, c, s);
    } else if t < 0.0 {
      NearestBelow(a, t, len, s);
    } else {
      NearestAbove(a, t, len, s);
    }
  }

  lemma DistanceAt(l: Segment, pt: Vec3, s: real)
    ensures Length2(Sub(pt, PointAt(l, s)))
      == Length2(Sub(pt, l.start)) - 2.0 * s * Projection(l, pt) + s * s * Length2(Direction(l))
  {
    OffsetFromStart(l, pt, s);
    Expand(Sub(pt, l.start), Direction(l), s);
  }

  lemma OffsetFromStart(l: Segment, pt: Vec3, s: real)
    ensures Sub(pt, PointAt(l, s)) == Sub(Sub(pt, l.start), Scale(Direction(l), s))
  {
  }

  lemma Expand(v: Vec3, d: Vec3, s: real)
    ensures Length2(Sub(v, Scale(d, s))) == Length2(v) - 2.0 * s * Dot(d, v) + s * s * Length2(d)
  {
  }

  lemma ScaleOne(d: Vec3)
    ensures Scale(d, 1.0) == d
  {
  }

  lemma DivScale(d: Vec3, t: real, len: real)
    requires len != 0.0
    ensures Div(Scale(d, t), len) == Scale(d, t / len)
  {
  }

  lemma Quotient(t: real, len: real)
    requires len != 0.0
    ensures (t / len) * len == t
  {
  }

  lemma QuotientInUnit(t: real, len: real)
    requires 0.0 <= t <= len && len > 0.0
    ensures 0.0 <= t / len <= 1.0
  {
  }

  /** In range, q(s) exceeds q(m) for m = t/len by len (s - m)^2. */
  lemma NearestInside(a: real, t: real, len: real, m: real, s: real)
    requires len > 0.0 && m == t / len
    ensures a - 2.0 * m * t + m * m * len <= a - 2.0 * s * t + s * s * len
  {
    Quotient(t, len);
    assert (a - 2.0 * s * t + s * s * len) - (a - 2.0 * m * t + m * m * len) == len * ((s - m) * (s - m));
    SquareNonNegative(s - m);
    ProductNonNegative(len, (s - m) * (s - m));
  }

  /** Below the range (t < 0) every point of the segment is at least as far as the start. */
  lemma NearestBelow(a: real, t: real, len: real, s: real)
    requires t < 0.0 && len > 0.0 && 0.0 <= s
    ensures a - 2.0 * 0.0 * t + 0.0 * 0.0 * len <= a - 2.0 * s * t + s * s * len
  {
    ProductNonNegative(s, -t);
    SquareNonNegative(s);
    ProductNonNegative(s * s, len);
  }

  /** Above the range (t > len) every point of the segment is at least as far as the end. */
  lemma NearestAbove(a: real, t: real, len: real, s: real)
    requires t > len > 0.0 && 0.0 <= s <= 1.0
    ensures a - 2.0 * 1.0 * t + 1.0 * 1.0 * len <= a - 2.0 * s * t + s * s * len
  {
    assert (a - 2.0 * s * t + s * s * len) - (a - 2.0 * t + len) == (1.0 - s) * (2.0 * t - len * (1.0 + s));
    ProductNonNegative(len, 1.0 - s);
    ProductNonNegative(1.0 - s, 2.0 * t - len * (1.0 + s));
  }

  lemma ProductNonNegative(a: real, b: real)
    requires a >= 0.0 && b >= 0.0
    ensures a * b >= 0.0
  {
  }
}
