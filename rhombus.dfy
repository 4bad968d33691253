/**
 * `Rhombus<double>` (include/rhombus.h): four corners with equal sides
 * that must also be "cyclic", that is, the angles at the first and third
 * corners add up to a straight angle. For a true rhombus this holds only
 * for squares.
 *
 * The source computes each angle as `acos` of a cosine and compares the
 * sum with pi within 1e-6. Here the test is exact and algebraic: since
 * `acos` is strictly decreasing on [-1, 1] and acos(x) + acos(-x) = pi,
 * the sum is pi exactly when the two cosines are opposite. When a side
 * has zero length the cosine is 0/0 (NaN) and the comparison is false.
 */
module Rhombi {
  import opened Points
  import opened Outcomes
  import Quads
  import opened Figures

  // ---------------------------------------------------------------------
  // Vector algebra used by the proofs
  // ---------------------------------------------------------------------

  /** A vector scaled by a number. */
  function Scale(p: Point, k: real): Point {
    Point(p.x * k, p.y * k)
  }

  /** A vector turned a quarter turn counter-clockwise. */
  function Rot(p: Point): Point {
    Point(-p.y, p.x)
  }

  function Neg(p: Point): Point {
    Point(-p.x, -p.y)
  }

  lemma SqDistIsDot(p: Point, q: Point)
    ensures SqDist(p, q) == Dot(Sub(p, q), Sub(p, q))
  {
  }

  /**
   * Any vector z, scaled by |u|^2, is (z . u) u plus (u x z) Rot(u): the
   * vectors u and Rot(u) form an orthogonal frame.
   */
  lemma FrameDecomposition(u: Point, z: Point)
    ensures Scale(z, Dot(u, u)) == Add(Scale(u, Dot(z, u)), Scale(Rot(u), Cross(u, z)))
  {
    assert z.x * (u.x * u.x + u.y * u.y) == u.x * (z.x * u.x + z.y * u.y) + -u.y * (u.x * z.y - u.y * z.x);
    assert z.y * (u.x * u.x + u.y * u.y) == u.y * (z.x * u.x + z.y * u.y) + u.x * (u.x * z.y - u.y * z.x);
  }

  lemma DotScale(p: Point, k: real)
    ensures Dot(Scale(p, k), Scale(p, k)) == k * k * Dot(p, p)
  {
    assert (p.x * k) * (p.x * k) == k * k * (p.x * p.x);
    assert (p.y * k) * (p.y * k) == k * k * (p.y * p.y);
  }

  /** A zero product has a zero factor. */
  lemma ZeroProduct(x: real, y: real)
    requires x * y == 0.0
    ensures x == 0.0 || y == 0.0
  {
    if x != 0.0 {
      assert y == (x * y) / x;
    }
  }

  /** A non-zero factor can be cancelled. */
  lemma Cancel(s: real, x: real, y: real)
    requires s != 0.0 && s * x == s * y
    ensures x == y
  {
    assert s * (x - y) == 0.0;
    ZeroProduct(s, x - y);
  }

  /** Scaling by a non-zero number is injective. */
  lemma CancelScale(p: Point, q: Point, k: real)
    requires k != 0.0 && Scale(p, k) == Scale(q, k)
    ensures p == q
  {
    Cancel(k, p.x, q.x);
    Cancel(k, p.y, q.y);
  }

  /**
   * Two perpendicular vectors of the same non-zero length: the second is the
   * first turned a quarter turn one way or the other.
   */
  lemma PerpendicularOfEqualLength(u: Point, w: Point)
    requires Dot(u, u) > 0.0 && Dot(w, w) == Dot(u, u) && Dot(w, u) == 0.0
    ensures w == Rot(u) || w == Neg(Rot(u))
  {
    var s, k := Dot(u, u), Cross(u, w);
    FrameDecomposition(u, w);
    assert Scale(u, Dot(w, u)) == Point(0.0, 0.0);
    assert Scale(w, s) == Scale(Rot(u), k);
    DotScale(w, s);
    DotScale(Rot(u), k);
    assert Dot(Rot(u), Rot(u)) == s;
    assert s * (s * s) == s * (k * k);
    Cancel(s, s * s, k * k);
    assert (k - s) * (k + s) == 0.0;
    ZeroProduct(k - s, k + s);
    if k == s {
      CancelScale(w, Rot(u), s);
    } else {
      assert Scale(w, s) == Scale(Neg(Rot(u)), s);
      CancelScale(w, Neg(Rot(u)), s);
    }
  }

  // ---------------------------------------------------------------------
  // Validation
  // ---------------------------------------------------------------------

  /** `validate()`'s first test: the four sides p1p2, p2p3, p3p4, p4p1 have one length. */
  predicate EqualSides(q: Quads.Quad)
    // opposite sides in particular are equal
    ensures EqualSides(q) ==> SqDist(q.a, q.b) == SqDist(q.c, q.d) && SqDist(q.b, q.c) == SqDist(q.d, q.a)
    // one side of length zero collapses the whole shape to a point
    ensures q.a == q.b ==> (EqualSides(q) <==> q.b == q.c && q.c == q.d)
  {
    SqDist(q.a, q.b) == SqDist(q.b, q.c) && SqDist(q.b, q.c) == SqDist(q.c, q.d) && SqDist(q.c, q.d) == SqDist(q.d, q.a)
  }

  /** The dot product at the first corner, between the rays to p2 and p4. */
  function FirstCornerDot(q: Quads.Quad): real {
    Dot(Sub(q.b, q.a), Sub(q.d, q.a))
  }

  /** The dot product at the third corner, between the rays to p2 and p4. */
  function ThirdCornerDot(q: Quads.Quad): real {
    Dot(Sub(q.b, q.c), Sub(q.d, q.c))
  }

  /**
   * The cosines d1 / sqrt(n1) and d3 / sqrt(n3) are defined and opposite:
   * both denominators are non-zero, d1 and d3 do not have the same strict
   * sign, and d1^2 n3 == d3^2 n1.
   */
  predicate OppositeCosines(d1: real, n1: real, d3: real, n3: real) {
    n1 > 0.0 && n3 > 0.0 && d1 * d3 <= 0.0 && d1 * d1 * n3 == d3 * d3 * n1
  }

  /**
   * `isCyclic()`: the angles at p1 and p3 add up to pi, that is, their
   * cosines are opposite. A cosine's numerator is the dot product of the
   * two rays and its denominator the product of their lengths.
   */
  predicate IsCyclic(q: Quads.Quad)
    // a zero-length ray at p1 or p3 makes a cosine 0/0, and the test fails
    ensures IsCyclic(q) ==> q.b != q.a && q.d != q.a && q.b != q.c && q.d != q.c
  {
    OppositeCosines(FirstCornerDot(q), SqDist(q.b, q.a) * SqDist(q.d, q.a),
                    ThirdCornerDot(q), SqDist(q.b, q.c) * SqDist(q.d, q.c))
  }

  /** `validate()` as written: equal sides first, then cyclicity. */
  function ValidateAsWritten(q: Quads.Quad): (r: Outcome<GeometryError>)
    ensures r == Fail(SidesDiffer) <==> !EqualSides(q)
    ensures r == Fail(NotCyclic) <==> EqualSides(q) && !IsCyclic(q)
    ensures r == Pass <==> EqualSides(q) && IsCyclic(q)
  {
    if !EqualSides(q) then Fail(SidesDiffer)
    else if !IsCyclic(q) then Fail(NotCyclic)
    else Pass
  }

  /**
   * With equal sides the two corner dot products coincide: both equal
   * |p2 - p1|^2 minus half the squared diagonal p2p4.
   */
  lemma EqualSidesSameCornerDot(q: Quads.Quad)
    requires EqualSides(q)
    ensures ThirdCornerDot(q) == FirstCornerDot(q)
  {
    var u, w, v := Sub(q.b, q.a), Sub(q.d, q.a), Sub(q.c, q.a);
    SqDistIsDot(q.b, q.c);
    SqDistIsDot(q.c, q.d);
    SqDistIsDot(q.a, q.b);
    SqDistIsDot(q.d, q.a);
    assert 2.0 * (ThirdCornerDot(q) - FirstCornerDot(q))
        == (SqDist(q.b, q.c) - SqDist(q.a, q.b)) + (SqDist(q.c, q.d) - SqDist(q.d, q.a));
  }

  /**
   * When both corners see rays whose squared lengths are all s, and the
   * same dot product d, the cosines are opposite exactly when s is not
   * zero and d is zero, i.e. both angles are right angles.
   */
  lemma OppositeCosinesOfEqualCorners(s: real, d: real, d3: real, x1: real, y1: real, x3: real, y3: real)
    requires s >= 0.0 && x1 == s && y1 == s && x3 == s && y3 == s && d3 == d
    ensures OppositeCosines(d, x1 * y1, d3, x3 * y3) <==> s > 0.0 && d == 0.0
  {
    var n := s * s;
    assert x1 * y1 == n && x3 * y3 == n;
    if s > 0.0 {
      ProductPositive(s, s, n);
    } else {
      assert s == 0.0;
      assert n == 0.0;
    }
    SquareSign(d);
    assert d * d == Square(d);
  }

  /**
   * For a quadrilateral with equal sides, `isCyclic()` holds exactly when
   * the side is not zero and the angle at p1 is a right angle.
   */
  lemma CyclicWithEqualSides(q: Quads.Quad)
    requires EqualSides(q)
    ensures IsCyclic(q) <==> SqDist(q.a, q.b) > 0.0 && FirstCornerDot(q) == 0.0
  {
    var s := SqDist(q.a, q.b);
    EqualSidesSameCornerDot(q);
    SqDistSymmetric(q.a, q.b);
    SqDistSymmetric(q.c, q.b);
    SqDistSymmetric(q.c, q.d);
    OppositeCosinesOfEqualCorners(s, FirstCornerDot(q), ThirdCornerDot(q),
      SqDist(q.b, q.a), SqDist(q.d, q.a), SqDist(q.b, q.c), SqDist(q.d, q.c));
  }

  // ---------------------------------------------------------------------
  // What validation accepts
  // ---------------------------------------------------------------------

  /** At p1, the sides to p2 and p4 have one non-zero length and meet at a right angle. */
  predicate SquareCorner(q: Quads.Quad) {
    SqDist(q.a, q.b) > 0.0 && SqDist(q.a, q.d) == SqDist(q.a, q.b) && FirstCornerDot(q) == 0.0
  }

  /** A square p1 p2 p3 p4: a square corner at p1, and p3 opposite p1. */
  predicate IsSquare(q: Quads.Quad) {
    SquareCorner(q) && Add(q.a, q.c) == Add(q.b, q.d)
  }

  /** A square corner at p1 folded back on itself: p3 lies on p1. */
  predicate IsFolded(q: Quads.Quad) {
    SquareCorner(q) && q.c == q.a
  }

  lemma FrameNorm(u: Point, alpha: real, beta: real)
    ensures var z := Add(Scale(u, alpha), Scale(Rot(u), beta));
      Dot(z, z) == (alpha * alpha + beta * beta) * Dot(u, u)
  {
    var z := Add(Scale(u, alpha), Scale(Rot(u), beta));
    assert z.x == u.x * alpha - u.y * beta && z.y == u.y * alpha + u.x * beta;
    assert (u.x * alpha - u.y * beta) * (u.x * alpha - u.y * beta) + (u.y * alpha + u.x * beta) * (u.y * alpha + u.x * beta)
        == (alpha * alpha + beta * beta) * (u.x * u.x + u.y * u.y);
  }

  /** The squared length of z - y, expanded. */
  lemma SqDistExpand(p: Point, q: Point, o: Point)
    ensures SqDist(p, q) == Dot(Sub(p, o), Sub(p, o)) - 2.0 * Dot(Sub(p, o), Sub(q, o)) + Dot(Sub(q, o), Sub(q, o))
  {
    SqDistIsDot(p, q);
    assert Sub(p, q) == Sub(Sub(p, o), Sub(q, o));
  }

  /** Squares and folded square corners pass `validate()` as written. */
  lemma SquareOrFoldedAccepted(q: Quads.Quad)
    requires IsSquare(q) || IsFolded(q)
    ensures ValidateAsWritten(q) == Pass
  {
    SqDistSymmetric(q.a, q.b);
    SqDistSymmetric(q.a, q.d);
    if IsSquare(q) {
      assert q.b.x - q.c.x == q.a.x - q.d.x && q.b.y - q.c.y == q.a.y - q.d.y;
      assert SqDist(q.b, q.c) == SqDist(q.a, q.d);
      assert q.c.x - q.d.x == q.b.x - q.a.x && q.c.y - q.d.y == q.b.y - q.a.y;
      assert SqDist(q.c, q.d) == SqDist(q.b, q.a);
    }
    assert EqualSides(q);
    CyclicWithEqualSides(q);
  }

  /** The scalar equation behind the theorem below: alpha (s - alpha) = 0. */
  lemma FrameCoefficientRoots(s: real, alpha: real, beta: real, vv: real)
    requires s > 0.0 && vv == 2.0 * alpha && beta * beta == alpha * alpha
    requires s * s * vv == (alpha * alpha + beta * beta) * s
    ensures alpha == 0.0 || alpha == s
  {
    assert s * (s * (2.0 * alpha)) == s * (2.0 * (alpha * alpha));
    Cancel(s, s * (2.0 * alpha), 2.0 * (alpha * alpha));
    assert alpha * (s - alpha) == 0.0;
    ZeroProduct(alpha, s - alpha);
  }

  /**
   * Given a square corner u, w at the origin, the points v at the same
   * distance from u as from w as u and w are from the origin, with v at
   * that distance from both, are the origin and u + w.
   */
  lemma FourthVertex(u: Point, w: Point, v: Point)
    requires Dot(u, u) > 0.0 && (w == Rot(u) || w == Neg(Rot(u)))
    requires Dot(v, v) == 2.0 * Dot(v, u) && Dot(v, v) == 2.0 * Dot(v, w)
    ensures v == Point(0.0, 0.0) || v == Add(u, w)
  {
    var s, alpha, beta := Dot(u, u), Dot(v, u), Cross(u, v);
    FrameDecomposition(u, v);
    DotRotIsCross(v, u);
    if w == Rot(u) {
      assert alpha == beta;
    } else {
      DotNeg(v, Rot(u));
      assert alpha == -beta;
      NegSquare(beta);
    }
    assert beta * beta == alpha * alpha;
    DotScale(v, s);
    FrameNorm(u, alpha, beta);
    FrameCoefficientRoots(s, alpha, beta, Dot(v, v));
    if alpha == 0.0 {
      ZeroProduct(beta, beta);
      ScaleZero(u, s);
      ScaleZero(Rot(u), s);
      CancelScale(v, Point(0.0, 0.0), s);
    } else {
      if w != Rot(u) {
        ScaleNeg(Rot(u), s);
      }
      assert Scale(Rot(u), beta) == Scale(w, s);
      ScaleAdd(u, w, s);
      CancelScale(v, Add(u, w), s);
    }
  }

  /** The dot product with a quarter-turned vector is a cross product. */
  lemma DotRotIsCross(v: Point, u: Point)
    ensures Dot(v, Rot(u)) == Cross(u, v)
  {
  }

  lemma DotNeg(v: Point, p: Point)
    ensures Dot(v, Neg(p)) == -Dot(v, p)
  {
  }

  lemma NegSquare(x: real)
    ensures (-x) * (-x) == x * x
  {
  }

  /** Scaling by zero, or scaling the zero vector, gives the zero vector. */
  lemma ScaleZero(p: Point, k: real)
    ensures Scale(p, 0.0) == Point(0.0, 0.0)
    ensures Scale(Point(0.0, 0.0), k) == Point(0.0, 0.0)
  {
  }

  lemma ScaleNeg(p: Point, k: real)
    ensures Scale(Neg(p), k) == Scale(p, -k)
  {
  }

  /** Scaling distributes over addition. */
  lemma ScaleAdd(p: Point, q: Point, k: real)
    ensures Scale(Add(p, q), k) == Add(Scale(p, k), Scale(q, k))
  {
  }

  /** An accepted quadrilateral has equal sides and a square corner at p1. */
  lemma AcceptedHasSquareCorner(q: Quads.Quad)
    requires ValidateAsWritten(q) == Pass
    ensures EqualSides(q) && SquareCorner(q)
  {
    CyclicWithEqualSides(q);
    SqDistSymmetric(q.a, q.d);
  }

  /** The square corner at p1, in terms of the side vectors u = p2 - p1 and w = p4 - p1. */
  lemma SquareCornerVectors(q: Quads.Quad)
    requires SquareCorner(q)
    ensures var u, w := Sub(q.b, q.a), Sub(q.d, q.a);
      Dot(u, u) > 0.0 && Dot(w, w) == Dot(u, u) && Dot(w, u) == 0.0
  {
    SqDistSymmetric(q.a, q.b);
    SqDistIsDot(q.b, q.a);
    SqDistSymmetric(q.a, q.d);
    SqDistIsDot(q.d, q.a);
  }

  /**
   * The sides p2p3 and p3p4 having the same length as p1p2 and p1p4, in
   * terms of v = p3 - p1.
   */
  lemma ThirdVertexEquations(q: Quads.Quad)
    requires EqualSides(q) && SquareCorner(q)
    ensures var u, w, v := Sub(q.b, q.a), Sub(q.d, q.a), Sub(q.c, q.a);
      Dot(v, v) == 2.0 * Dot(v, u) && Dot(v, v) == 2.0 * Dot(v, w)
  {
    SqDistSymmetric(q.a, q.b);
    SqDistIsDot(q.b, q.a);
    SqDistSymmetric(q.a, q.d);
    SqDistIsDot(q.d, q.a);
    SqDistExpand(q.b, q.c, q.a);
    SqDistExpand(q.c, q.d, q.a);
  }

  /** The vertex p3 of a quadrilateral with a square corner at p1 and the equations above. */
  lemma ThirdVertexPlaces(a: Point, b: Point, c: Point, d: Point)
    requires var u, w := Sub(b, a), Sub(d, a);
      Dot(u, u) > 0.0 && Dot(w, w) == Dot(u, u) && Dot(w, u) == 0.0
    requires var u, w, v := Sub(b, a), Sub(d, a), Sub(c, a);
      Dot(v, v) == 2.0 * Dot(v, u) && Dot(v, v) == 2.0 * Dot(v, w)
    ensures c == a || Add(a, c) == Add(b, d)
  {
    var u, w, v := Sub(b, a), Sub(d, a), Sub(c, a);
    PerpendicularOfEqualLength(u, w);
    FourthVertex(u, w, v);
    OffsetsToCorners(a, b, c, d);
  }

  lemma OffsetsToCorners(a: Point, b: Point, c: Point, d: Point)
    requires Sub(c, a) == Point(0.0, 0.0) || Sub(c, a) == Add(Sub(b, a), Sub(d, a))
    ensures c == a || Add(a, c) == Add(b, d)
  {
  }

  /** Equal sides and a square corner at p1 leave two places for p3. */
  lemma SquareCornerCompleted(q: Quads.Quad)
    requires EqualSides(q) && SquareCorner(q)
    ensures IsSquare(q) || IsFolded(q)
  {
    SquareCornerVectors(q);
    ThirdVertexEquations(q);
    ThirdVertexPlaces(q.a, q.b, q.c, q.d);
  }

  /** Everything `validate()` as written accepts is a square or a folded square corner. */
  lemma AcceptedIsSquareOrFolded(q: Quads.Quad)
    requires ValidateAsWritten(q) == Pass
    ensures IsSquare(q) || IsFolded(q)
  {
    AcceptedHasSquareCorner(q);
    SquareCornerCompleted(q);
  }

  /**
   * `validate()` as written accepts exactly the squares and the folded
   * square corners (p3 == p1), which have zero area.
   */
  lemma ValidateAsWrittenAccepts(q: Quads.Quad)
    ensures ValidateAsWritten(q) == Pass <==> IsSquare(q) || IsFolded(q)
  {
    if ValidateAsWritten(q) == Pass {
      AcceptedIsSquareOrFolded(q);
    }
    if IsSquare(q) || IsFolded(q) {
      SquareOrFoldedAccepted(q);
    }
  }

  /** A square is never folded: its diagonal p1p3 has non-zero length. */
  lemma SquareNotFolded(q: Quads.Quad)
    requires IsSquare(q)
    ensures q.c != q.a
  {
    SquareCornerVectors(q);
  }

  /**
   * `validate()` with the degenerate case excluded: besides the tests of
   * the source, p3 must differ from p1. It accepts exactly the squares.
   */
  function Validate(q: Quads.Quad): (r: Outcome<GeometryError>)
    ensures r == Fail(SidesDiffer) <==> !EqualSides(q)
    ensures r != Pass ==> r == Fail(SidesDiffer) || r == Fail(NotCyclic)
  {
    if !EqualSides(q) then Fail(SidesDiffer)
    else if !IsCyclic(q) || q.c == q.a then Fail(NotCyclic)
    else Pass
  }

  /** The corrected validation accepts exactly the squares. */
  lemma ValidateAcceptsExactlySquares(q: Quads.Quad)
    ensures Validate(q) == Pass <==> IsSquare(q)
  {
    ValidateAsWrittenAccepts(q);
    SquareNotFoldedCase(q);
  }

  lemma SquareNotFoldedCase(q: Quads.Quad)
    ensures IsSquare(q) ==> q.c != q.a
  {
    if IsSquare(q) {
      SquareNotFolded(q);
    }
  }

  lemma CrossOfRotations(u: Point)
    ensures Cross(u, Rot(u)) == Dot(u, u)
    ensures Cross(u, Neg(Rot(u))) == -Dot(u, u)
  {
  }

  /** The area of a square is the square of its side, so it is positive. */
  lemma SquareArea(q: Quads.Quad)
    requires IsSquare(q)
    ensures Quads.Area(q) == SqDist(q.a, q.b)
    ensures Quads.Area(q) > 0.0
  {
    var u, w := Sub(q.b, q.a), Sub(q.d, q.a);
    SquareCornerVectors(q);
    SqDistSymmetric(q.a, q.b);
    SqDistIsDot(q.b, q.a);
    PerpendicularOfEqualLength(u, w);
    CrossOfRotations(u);
    assert Quads.Abs(Cross(u, w)) == Dot(u, u);
    assert Sub(q.c, q.a) == Add(u, w);
    ParallelogramFanArea(q);
  }

  /** The two fan triangles of a parallelogram each cover half of it: the area is |u x w| for the sides u, w at p1. */
  lemma ParallelogramFanArea(q: Quads.Quad)
    requires Sub(q.c, q.a) == Add(Sub(q.b, q.a), Sub(q.d, q.a))
    ensures Quads.Area(q) == Quads.Abs(Cross(Sub(q.b, q.a), Sub(q.d, q.a)))
  {
    var u, w := Sub(q.b, q.a), Sub(q.d, q.a);
    Quads.TriAreaIsHalfCross(q.a, q.b, q.c);
    Quads.TriAreaIsHalfCross(q.a, q.c, q.d);
    assert Cross(u, Add(u, w)) == Cross(u, w);
    assert Cross(Add(u, w), w) == Cross(u, w);
  }

  /** A folded square corner encloses nothing. */
  lemma FoldedArea(q: Quads.Quad)
    requires IsFolded(q)
    ensures Quads.Area(q) == 0.0
  {
    Quads.TriAreaIsHalfCross(q.a, q.b, q.c);
    Quads.TriAreaIsHalfCross(q.a, q.c, q.d);
  }

  /** Whatever the corrected validation accepts has positive area. */
  lemma AcceptedHasPositiveArea(q: Quads.Quad)
    requires Validate(q) == Pass
    ensures Quads.Area(q) > 0.0
  {
    ValidateAcceptsExactlySquares(q);
    SquareArea(q);
  }

  // ---------------------------------------------------------------------
  // Examples
  // ---------------------------------------------------------------------

  /**
   * The axis-aligned square corner of side t at the origin, folded back:
   * p1 = p3 = (0,0), p2 = (t,0), p4 = (0,t).
   */
  function FoldedCorner(t: real): Quads.Quad {
    Quads.Quad(Point(0.0, 0.0), Point(t, 0.0), Point(0.0, 0.0), Point(0.0, t))
  }

  lemma FoldedCornerIsFolded(t: real)
    requires t != 0.0
    ensures IsFolded(FoldedCorner(t))
  {
    var q := FoldedCorner(t);
    SquareSign(t);
    assert SqDist(q.a, q.b) == Square(0.0 - t) + Square(0.0);
    assert SqDist(q.a, q.d) == Square(0.0) + Square(0.0 - t);
  }

  /**
   * The source's validation accepts every folded corner, a "rhombus" of
   * area zero, for instance (0,0), (1,0), (0,0), (0,1); the corrected
   * validation rejects it.
   */
  lemma FoldedCornerAcceptedAsWritten(t: real)
    requires t != 0.0
    ensures ValidateAsWritten(FoldedCorner(t)) == Pass
    ensures Quads.Area(FoldedCorner(t)) == 0.0
    ensures Validate(FoldedCorner(t)) == Fail(NotCyclic)
  {
    FoldedCornerIsFolded(t);
    ValidateAsWrittenAccepts(FoldedCorner(t));
    FoldedArea(FoldedCorner(t));
  }

  /**
   * A square standing on a corner, centred at (h, 0), of half-diagonal h:
   * for h = 1 the square (0,0), (1,1), (2,0), (1,-1) of the unit tests.
   */
  function DiamondSquare(h: real): Quads.Quad {
    Quads.Quad(Point(0.0, 0.0), Point(h, h), Point(2.0 * h, 0.0), Point(h, -h))
  }

  lemma DiamondSquareIsSquare(h: real)
    requires h != 0.0
    ensures IsSquare(DiamondSquare(h))
    ensures SqDist(DiamondSquare(h).a, DiamondSquare(h).b) == 2.0 * Square(h)
  {
    var q := DiamondSquare(h);
    SquareSign(h);
    assert SqDist(q.a, q.b) == Square(0.0 - h) + Square(0.0 - h);
    assert SqDist(q.a, q.d) == Square(0.0 - h) + Square(0.0 - -h);
    assert Square(0.0 - -h) == Square(h) && Square(0.0 - h) == Square(h);
  }

  /** It is accepted, with area 2 h^2 and centre (h, 0). */
  lemma DiamondSquareAccepted(h: real)
    requires h != 0.0
    ensures Validate(DiamondSquare(h)) == Pass
    ensures Quads.Area(DiamondSquare(h)) == 2.0 * Square(h)
    ensures Quads.Center(DiamondSquare(h)) == Point(h, 0.0)
  {
    DiamondSquareIsSquare(h);
    ValidateAcceptsExactlySquares(DiamondSquare(h));
    SquareArea(DiamondSquare(h));
  }

  // ---------------------------------------------------------------------
  // The class
  // ---------------------------------------------------------------------

  /**
   * A rhombus object. Its four-point constructor and `read` use the
   * corrected validation, so an accepted object is always a square.
   */
  class Rhombus {
    var p1: Point
    var p2: Point
    var p3: Point
    var p4: Point

    /** The corners, in order. */
    function Corners(): Quads.Quad
      reads this
    {
      Quads.Quad(p1, p2, p3, p4)
    }

    /** This rhombus seen through the Figure interface. */
    function AsFigure(): Figure
      reads this
    {
      Rhomb(Corners())
    }

    /** The default constructor: four default points, not validated. */
    constructor ()
      ensures Corners() == Quads.Quad(Origin(), Origin(), Origin(), Origin())
    {
      p1, p2, p3, p4 := Origin(), Origin(), Origin(), Origin();
    }

    /**
     * The four-point constructor: stores the points, then validates; on
     * failure no object is produced and the error is returned instead.
     */
    static method Create(a: Point, b: Point, c: Point, d: Point) returns (r: Result<Rhombus, GeometryError>)
      ensures r.Ok? <==> Validate(Quads.Quad(a, b, c, d)) == Pass
      ensures r.Ok? ==> fresh(r.value) && r.value.Corners() == Quads.Quad(a, b, c, d)
      ensures r.Err? ==> Validate(Quads.Quad(a, b, c, d)) == Fail(r.error)
    {
      var outcome := Validate(Quads.Quad(a, b, c, d));
      if outcome.Fail? {
        r := Err(outcome.error);
      } else {
        var rh := new Rhombus.Store(a, b, c, d);
        r := Ok(rh);
      }
    }

    /** The member initialisers of the four-point constructor, which run before validation. */
    constructor Store(a: Point, b: Point, c: Point, d: Point)
      ensures Corners() == Quads.Quad(a, b, c, d)
    {
      p1, p2, p3, p4 := a, b, c, d;
    }

    /** The copy constructor: a deep copy, not validated again. */
    constructor Copy(other: Rhombus)
      ensures Corners() == other.Corners()
      ensures Equals(other)
    {
      p1, p2, p3, p4 := other.p1, other.p2, other.p3, other.p4;
    }

    /** Copy assignment: the points are overwritten with the source's values. */
    method Assign(other: Rhombus)
      modifies this
      ensures Corners() == old(other.Corners())
      ensures Equals(other)
    {
      if this == other {
        return;
      }
      p1, p2, p3, p4 := other.p1, other.p2, other.p3, other.p4;
    }

    /**
     * `read`: overwrites the eight coordinates in order, then validates.
     * On failure the new coordinates stay in place.
     */
    method Read(input: seq<real>) returns (outcome: Outcome<GeometryError>, rest: seq<real>)
      requires |input| >= 8
      modifies this
      ensures Corners() == Quads.FromCoordinates(input[..8])
      ensures outcome == Validate(Corners())
      ensures outcome == Pass <==> IsSquare(Corners())
      ensures rest == input[8..]
    {
      p1 := p1.(x := input[0]);
      p1 := p1.(y := input[1]);
      p2 := p2.(x := input[2]);
      p2 := p2.(y := input[3]);
      p3 := p3.(x := input[4]);
      p3 := p3.(y := input[5]);
      p4 := p4.(x := input[6]);
      p4 := p4.(y := input[7]);
      rest := input[8..];
      outcome := Validate(Corners());
      ValidateAcceptsExactlySquares(Corners());
    }

    /** `print`: "Rhombus: " and the four corners. */
    function Print(): (ts: seq<Token>)
      reads this
      ensures |ts| > 0 && ts[0] == Str("Rhombus: ")
      ensures Numbers(ts) == Quads.Coordinates(Corners())
    {
      Figures.Print(AsFigure())
    }

    /** `center`: the mean of the four corners. */
    function Center(): (p: Point)
      reads this
      ensures 4.0 * p.x == p1.x + p2.x + p3.x + p4.x && 4.0 * p.y == p1.y + p2.y + p3.y + p4.y
    {
      Quads.Center(Corners())
    }

    /** `area`: the two fan triangles (p1, p2, p3) and (p1, p3, p4). */
    function Area(): (r: real)
      reads this
      ensures r >= 0.0
      ensures r == Quads.TriArea(p1, p2, p3) + Quads.TriArea(p1, p3, p4)
      ensures IsSquare(Corners()) ==> r == SqDist(p1, p2)
    {
      if IsSquare(Corners()) then
        SquareArea(Corners());
        Figures.Area(AsFigure())
      else
        Figures.Area(AsFigure())
    }

    /** `operator==`: all four corresponding corners are `==`. */
    function Equals(other: Rhombus): (r: bool)
      reads this, other
      ensures r <==> Corners() == other.Corners()
    {
      EqualIsIdentity(p1, other.p1);
      EqualIsIdentity(p2, other.p2);
      EqualIsIdentity(p3, other.p3);
      EqualIsIdentity(p4, other.p4);
      Equal(p1, other.p1) && Equal(p2, other.p2) && Equal(p3, other.p3) && Equal(p4, other.p4)
    }

    /** `clone`: an independent copy through the copy constructor, as a Figure. */
    function Clone(): (f: Figure)
      reads this
      ensures f.Rhomb? && f.corners == Corners()
      ensures Figures.Area(f) == Area() && Figures.Center(f) == Center()
    {
      Rhomb(Quads.Quad(p1, p2, p3, p4))
    }
  }
}
