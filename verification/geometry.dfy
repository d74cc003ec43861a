/**
 * The point-in-quad hit test of src/util.rs, over exact reals.
 *
 * A point lies "between" two line segments when it lies inside (or on the
 * boundary of) one of three triangles spanned by their endpoints; triangle
 * containment is the same-side test on the signs of three cross products.
 */
module Geometry {

  /** A 2D point or vector (macroquad's Vec2, with f32 replaced by real). */
  datatype Vec2 = Vec2(x: real, y: real)

  /** A directed segment; `LineSegment::new` is this datatype's constructor. */
  datatype LineSegment = LineSegment(start: Vec2, end: Vec2)

  /** The point a*u + b*v + c*w. */
  function Combine(a: real, u: Vec2, b: real, v: Vec2, c: real, w: Vec2): Vec2
  {
    Vec2(a * u.x + b * v.x + c * w.x, a * u.y + b * v.y + c * w.y)
  }

  /**
   * Twice the signed area of the triangle (p1, p2, p3): the cross product of
   * p1 - p3 and p2 - p3.
   */
  function Sign(p1: Vec2, p2: Vec2, p3: Vec2): real
  {
    (p1.x - p3.x) * (p2.y - p3.y) - (p2.x - p3.x) * (p1.y - p3.y)
  }

  /**
   * `in_triange`: p is inside triangle (v1, v2, v3) unless the three edge
   * orientations d1, d2, d3 include both a negative and a positive value.
   */
  predicate InTriangle(p: Vec2, v1: Vec2, v2: Vec2, v3: Vec2)
  {
    var d1 := Sign(p, v1, v2);
    var d2 := Sign(p, v2, v3);
    var d3 := Sign(p, v3, v1);
    var hasNeg := d1 < 0.0 || d2 < 0.0 || d3 < 0.0;
    var hasPos := d1 > 0.0 || d2 > 0.0 || d3 > 0.0;
    !(hasNeg && hasPos)
  }

  /** `LineSegment::lies_between`: the quad test as a union of three triangles. */
  predicate LiesBetween(s: LineSegment, o: LineSegment, p: Vec2)
  {
    || InTriangle(p, s.start, s.end, o.start)
    || InTriangle(p, o.start, o.end, s.start)
    || InTriangle(p, o.start, o.end, s.end)
  }

  // ---------------------------------------------------------------------
  // Orientation algebra

  /** Swapping the first two points negates the orientation. */
  lemma SignSwap(p1: Vec2, p2: Vec2, p3: Vec2)
    ensures Sign(p2, p1, p3) == -Sign(p1, p2, p3)
  {
  }

  /** Rotating the three points leaves the orientation unchanged. */
  lemma SignRotate(p1: Vec2, p2: Vec2, p3: Vec2)
    ensures Sign(p2, p3, p1) == Sign(p1, p2, p3)
    ensures Sign(p3, p1, p2) == Sign(p1, p2, p3)
  {
  }

  /** A triangle with two equal corners has orientation zero. */
  lemma SignDegenerate(p: Vec2, q: Vec2)
    ensures Sign(p, p, q) == 0.0 && Sign(p, q, p) == 0.0 && Sign(q, p, p) == 0.0
  {
  }

  /**
   * The orientation of a convex combination against an edge is the weight of
   * the opposite corner times the orientation of the whole triangle.
   */
  lemma SignOfCombination(a: real, b: real, c: real, v1: Vec2, v2: Vec2, v3: Vec2)
    requires a + b + c == 1.0
    ensures var p := Combine(a, v1, b, v2, c, v3);
      && Sign(p, v1, v2) == c * Sign(v1, v2, v3)
      && Sign(p, v2, v3) == a * Sign(v1, v2, v3)
      && Sign(p, v3, v1) == b * Sign(v1, v2, v3)
  {
    var p := Combine(a, v1, b, v2, c, v3);
    assert p.x - v2.x == a * (v1.x - v2.x) + c * (v3.x - v2.x);
    assert p.y - v2.y == a * (v1.y - v2.y) + c * (v3.y - v2.y);
    assert p.x - v3.x == a * (v1.x - v3.x) + b * (v2.x - v3.x);
    assert p.y - v3.y == a * (v1.y - v3.y) + b * (v2.y - v3.y);
    assert p.x - v1.x == b * (v2.x - v1.x) + c * (v3.x - v1.x);
    assert p.y - v1.y == b * (v2.y - v1.y) + c * (v3.y - v1.y);
  }

  // ---------------------------------------------------------------------
  // Meaning of the triangle test

  /**
   * The test accepts exactly the points for which the three edge orientations
   * are all non-negative or all non-positive, so points on an edge count as
   * inside.
   */
  lemma InTriangleMeaning(p: Vec2, v1: Vec2, v2: Vec2, v3: Vec2)
    ensures InTriangle(p, v1, v2, v3) <==>
      || (Sign(p, v1, v2) >= 0.0 && Sign(p, v2, v3) >= 0.0 && Sign(p, v3, v1) >= 0.0)
      || (Sign(p, v1, v2) <= 0.0 && Sign(p, v2, v3) <= 0.0 && Sign(p, v3, v1) <= 0.0)
  {
  }

  /** Every corner of a triangle is inside it. */
  lemma VerticesInside(v1: Vec2, v2: Vec2, v3: Vec2)
    ensures InTriangle(v1, v1, v2, v3)
    ensures InTriangle(v2, v1, v2, v3)
    ensures InTriangle(v3, v1, v2, v3)
  {
    SignDegenerate(v1, v2);
    SignDegenerate(v1, v3);
    SignDegenerate(v2, v3);
    SignDegenerate(v2, v1);
    SignDegenerate(v3, v1);
    SignDegenerate(v3, v2);
  }

  /** Every convex combination of the corners (edges included) is inside. */
  lemma ConvexCombinationInside(a: real, b: real, c: real, v1: Vec2, v2: Vec2, v3: Vec2)
    requires 0.0 <= a && 0.0 <= b && 0.0 <= c && a + b + c == 1.0
    ensures InTriangle(Combine(a, v1, b, v2, c, v3), v1, v2, v3)
  {
    SignOfCombination(a, b, c, v1, v2, v3);
    var s := Sign(v1, v2, v3);
    if s >= 0.0 {
      MulSameSign(c, s);
      MulSameSign(a, s);
      MulSameSign(b, s);
    } else {
      MulSameSign(c, -s);
      MulSameSign(a, -s);
      MulSameSign(b, -s);
    }
  }

  lemma MulSameSign(u: real, v: real)
    requires 0.0 <= u && 0.0 <= v
    ensures 0.0 <= u * v && u * -v <= 0.0
  {
  }

  /** The three edge orientations add up to the orientation of the triangle. */
  lemma EdgeSignsSum(p: Vec2, v1: Vec2, v2: Vec2, v3: Vec2)
    ensures Sign(p, v1, v2) + Sign(p, v2, v3) + Sign(p, v3, v1) == Sign(v1, v2, v3)
  {
  }

  /** The edge orientations, as weights of the opposite corners, rebuild p scaled by the triangle's orientation. */
  lemma EdgeSignsWeighCorners(p: Vec2, v1: Vec2, v2: Vec2, v3: Vec2)
    ensures Sign(p, v2, v3) * v1.x + Sign(p, v3, v1) * v2.x + Sign(p, v1, v2) * v3.x == Sign(v1, v2, v3) * p.x
    ensures Sign(p, v2, v3) * v1.y + Sign(p, v3, v1) * v2.y + Sign(p, v1, v2) * v3.y == Sign(v1, v2, v3) * p.y
  {
  }

  /**
   * Conversely, for a non-degenerate triangle every accepted point is a
   * convex combination of the corners: the test is exactly the closed
   * triangle.
   */
  lemma InsideIsConvexCombination(p: Vec2, v1: Vec2, v2: Vec2, v3: Vec2)
    requires Sign(v1, v2, v3) != 0.0
    requires InTriangle(p, v1, v2, v3)
    ensures exists a: real, b: real, c: real ::
      0.0 <= a && 0.0 <= b && 0.0 <= c && a + b + c == 1.0 && p == Combine(a, v1, b, v2, c, v3)
  {
    var s := Sign(v1, v2, v3);
    var d1, d2, d3 := Sign(p, v1, v2), Sign(p, v2, v3), Sign(p, v3, v1);
    EdgeSignsSum(p, v1, v2, v3);
    EdgeSignsWeighCorners(p, v1, v2, v3);
    var a, b, c := d2 / s, d3 / s, d1 / s;
    Normalise(s, d2, d3, d1, v1.x, v2.x, v3.x, p.x);
    Normalise(s, d2, d3, d1, v1.y, v2.y, v3.y, p.y);
    assert p == Combine(a, v1, b, v2, c, v3);
  }

  /** Dividing weights that sum to s, and whose weighted sum is s*t, by s. */
  lemma Normalise(s: real, w1: real, w2: real, w3: real, x1: real, x2: real, x3: real, t: real)
    requires s != 0.0 && w1 + w2 + w3 == s
    requires w1 * x1 + w2 * x2 + w3 * x3 == s * t
    requires (0.0 <= w1 && 0.0 <= w2 && 0.0 <= w3) || (w1 <= 0.0 && w2 <= 0.0 && w3 <= 0.0)
    ensures 0.0 <= w1 / s && 0.0 <= w2 / s && 0.0 <= w3 / s
    ensures w1 / s + w2 / s + w3 / s == 1.0
    ensures (w1 / s) * x1 + (w2 / s) * x2 + (w3 / s) * x3 == t
  {
    var a, b, c := w1 / s, w2 / s, w3 / s;
    assert a * s == w1 && b * s == w2 && c * s == w3;
    CancelFactor(a + b + c, 1.0, s) by {
      assert (a + b + c) * s == a * s + b * s + c * s;
    }
    CancelFactor(a * x1 + b * x2 + c * x3, t, s) by {
      assert (a * x1 + b * x2 + c * x3) * s == (a * s) * x1 + (b * s) * x2 + (c * s) * x3;
    }
  }

  lemma CancelFactor(u: real, v: real, s: real)
    requires s != 0.0 && u * s == v * s
    ensures u == v
  {
    assert (u - v) * s == 0.0;
  }

  /** The test does not depend on which corner is listed first. */
  lemma InTriangleRotation(p: Vec2, v1: Vec2, v2: Vec2, v3: Vec2)
    ensures InTriangle(p, v1, v2, v3) == InTriangle(p, v2, v3, v1)
  {
  }

  /** The test does not depend on the winding of the corners. */
  lemma InTriangleReversal(p: Vec2, v1: Vec2, v2: Vec2, v3: Vec2)
    ensures InTriangle(p, v1, v2, v3) == InTriangle(p, v1, v3, v2)
  {
    assert Sign(p, v1, v3) == -Sign(p, v3, v1);
    assert Sign(p, v3, v2) == -Sign(p, v2, v3);
    assert Sign(p, v2, v1) == -Sign(p, v1, v2);
  }

  // ---------------------------------------------------------------------
  // The quad test

  /** All four segment endpoints lie between the two segments. */
  lemma EndpointsLieBetween(s: LineSegment, o: LineSegment)
    ensures LiesBetween(s, o, s.start) && LiesBetween(s, o, s.end)
    ensures LiesBetween(s, o, o.start) && LiesBetween(s, o, o.end)
  {
    VerticesInside(s.start, s.end, o.start);
    VerticesInside(o.start, o.end, s.start);
  }

  /** A point inside the square spanned by two horizontal segments is accepted; one above it is not. */
  lemma SquareExample()
    ensures LiesBetween(LineSegment(Vec2(0.0, 0.0), Vec2(10.0, 0.0)),
                        LineSegment(Vec2(0.0, 10.0), Vec2(10.0, 10.0)), Vec2(5.0, 5.0))
    ensures !LiesBetween(LineSegment(Vec2(0.0, 0.0), Vec2(10.0, 0.0)),
                         LineSegment(Vec2(0.0, 10.0), Vec2(10.0, 10.0)), Vec2(5.0, 15.0))
  {
    var s0, s1, o0, o1 := Vec2(0.0, 0.0), Vec2(10.0, 0.0), Vec2(0.0, 10.0), Vec2(10.0, 10.0);
    var p := Vec2(5.0, 5.0);
    assert Sign(p, s0, s1) == 50.0 && Sign(p, s1, o0) == 0.0 && Sign(p, o0, s0) == 50.0;
    var q := Vec2(5.0, 15.0);
    assert Sign(q, s0, s1) == 150.0 && Sign(q, s1, o0) == -100.0;
    assert Sign(q, o0, o1) == 50.0 && Sign(q, o1, s0) == -100.0;
    assert Sign(q, o0, o1) == 50.0 && Sign(q, o1, s1) == -50.0;
  }

  /**
   * The relation is not symmetric in its two segments: the triangle sets
   * differ, and here a collinear (degenerate) triangle of the second reading
   * accepts a point the first reading rejects.
   */
  lemma LiesBetweenNotSymmetric()
    ensures !LiesBetween(LineSegment(Vec2(0.0, 0.0), Vec2(0.0, 1.0)),
                         LineSegment(Vec2(1.0, 0.0), Vec2(0.0, 2.0)), Vec2(0.0, 3.0))
    ensures LiesBetween(LineSegment(Vec2(1.0, 0.0), Vec2(0.0, 2.0)),
                        LineSegment(Vec2(0.0, 0.0), Vec2(0.0, 1.0)), Vec2(0.0, 3.0))
  {
    AsymmetryOutside1();
    AsymmetryOutside2();
    AsymmetryOutside3();
    AsymmetryInside();
  }

  // The three triangles of the first reading, each shown to reject (0, 3) by
  // two edge orientations of opposite sign.

  // The second reading's triangle (0,0), (0,1), (0,2) is a segment of the
  // y-axis; every orientation against it is zero, so (0, 3) is accepted.
  lemma AsymmetryInside()
    ensures InTriangle(Vec2(0.0, 3.0), Vec2(0.0, 0.0), Vec2(0.0, 1.0), Vec2(0.0, 2.0))
  {
    SameAbscissa(Vec2(0.0, 3.0), Vec2(0.0, 0.0), Vec2(0.0, 1.0));
    SameAbscissa(Vec2(0.0, 3.0), Vec2(0.0, 1.0), Vec2(0.0, 2.0));
    SameAbscissa(Vec2(0.0, 3.0), Vec2(0.0, 2.0), Vec2(0.0, 0.0));
  }

  /** Three points on one vertical line have orientation zero. */
  lemma SameAbscissa(p1: Vec2, p2: Vec2, p3: Vec2)
    requires p1.x == p2.x == p3.x
    ensures Sign(p1, p2, p3) == 0.0
  {
  }

  lemma AsymmetryOutside1()
    ensures !InTriangle(Vec2(0.0, 3.0), Vec2(0.0, 0.0), Vec2(0.0, 1.0), Vec2(1.0, 0.0))
  {
    assert Sign(Vec2(0.0, 3.0), Vec2(0.0, 1.0), Vec2(1.0, 0.0)) == 2.0;
    assert Sign(Vec2(0.0, 3.0), Vec2(1.0, 0.0), Vec2(0.0, 0.0)) == -3.0;
  }

  lemma AsymmetryOutside2()
    ensures !InTriangle(Vec2(0.0, 3.0), Vec2(1.0, 0.0), Vec2(0.0, 2.0), Vec2(0.0, 0.0))
  {
    assert Sign(Vec2(0.0, 3.0), Vec2(1.0, 0.0), Vec2(0.0, 2.0)) == -1.0;
    assert Sign(Vec2(0.0, 3.0), Vec2(0.0, 0.0), Vec2(1.0, 0.0)) == 3.0;
  }

  lemma AsymmetryOutside3()
    ensures !InTriangle(Vec2(0.0, 3.0), Vec2(1.0, 0.0), Vec2(0.0, 2.0), Vec2(0.0, 1.0))
  {
    assert Sign(Vec2(0.0, 3.0), Vec2(1.0, 0.0), Vec2(0.0, 2.0)) == -1.0;
    assert Sign(Vec2(0.0, 3.0), Vec2(0.0, 1.0), Vec2(1.0, 0.0)) == 2.0;
  }
}
