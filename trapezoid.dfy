/**
 * `Trapezoid<double>` (include/trapezoid.h): four corners that must form an
 * isosceles trapezoid. Validation runs in the four-point constructor and
 * after `read`, and throws `std::logic_error` on failure, which is modelled
 * here as a `Fail`/`Err` outcome carrying the error.
 *
 * The source compares floating-point values with a tolerance of 1e-6
 * (a cross product for parallelism, a difference of square roots for the
 * legs). Coordinates are exact reals here, so both tests are exact: a cross
 * product of zero, and equal squared lengths (square roots of non-negative
 * numbers are equal exactly when the numbers are).
 */
module Trapezoids {
  import opened Points
  import opened Outcomes
  import Quads
  import opened Figures

  /** AB is parallel to DC (a zero cross product, so a zero-length side counts as parallel). */
  predicate ParallelABDC(q: Quads.Quad)
    ensures q.a == q.b || q.d == q.c ==> ParallelABDC(q)
    ensures Sub(q.b, q.a) == Sub(q.c, q.d) ==> ParallelABDC(q)
  {
    Cross(Sub(q.b, q.a), Sub(q.c, q.d)) == 0.0
  }

  /** BC is parallel to AD. */
  predicate ParallelBCAD(q: Quads.Quad)
    ensures q.b == q.c || q.a == q.d ==> ParallelBCAD(q)
    ensures Sub(q.c, q.b) == Sub(q.d, q.a) ==> ParallelBCAD(q)
  {
    Cross(Sub(q.c, q.b), Sub(q.d, q.a)) == 0.0
  }

  /** Bases AB and DC, with legs BC and AD of equal length. */
  predicate IsoscelesOnAB(q: Quads.Quad)
    // a parallelogram qualifies: its legs are translates of each other
    ensures Add(q.a, q.c) == Add(q.b, q.d) ==> IsoscelesOnAB(q)
  {
    ParallelABDC(q) && SqDist(q.b, q.c) == SqDist(q.a, q.d)
  }

  /** Bases BC and AD, with legs AB and CD of equal length. */
  predicate IsoscelesOnBC(q: Quads.Quad)
    ensures Add(q.a, q.c) == Add(q.b, q.d) ==> IsoscelesOnBC(q)
  {
    ParallelBCAD(q) && SqDist(q.a, q.b) == SqDist(q.c, q.d)
  }

  /**
   * `validate()`. When AB is parallel to DC, BC and AD are taken as the
   * legs, whether or not BC is also parallel to AD; otherwise BC must be
   * parallel to AD and AB, CD are the legs.
   */
  function Validate(q: Quads.Quad): (r: Outcome<GeometryError>)
    // an accepted quadrilateral is an isosceles trapezoid under one of the two labellings
    ensures r == Pass ==> IsoscelesOnAB(q) || IsoscelesOnBC(q)
    // and every isosceles trapezoid with exactly one pair of parallel sides is accepted
    ensures !(ParallelABDC(q) && ParallelBCAD(q)) ==> (r == Pass <==> IsoscelesOnAB(q) || IsoscelesOnBC(q))
    // the parallel pair AB, DC takes precedence
    ensures ParallelABDC(q) ==> (r == Pass <==> SqDist(q.b, q.c) == SqDist(q.a, q.d))
    ensures r == Fail(NoParallelSides) <==> !ParallelABDC(q) && !ParallelBCAD(q)
    ensures r != Pass ==> r == Fail(NoParallelSides) || r == Fail(NotIsosceles)
  {
    var abParallelDc := ParallelABDC(q);
    if !abParallelDc && !ParallelBCAD(q) then
      Fail(NoParallelSides)
    else
      var leg1 := if abParallelDc then SqDist(q.b, q.c) else SqDist(q.a, q.b);
      var leg2 := if abParallelDc then SqDist(q.a, q.d) else SqDist(q.c, q.d);
      if leg1 != leg2 then Fail(NotIsosceles) else Pass
  }

  /**
   * Validation does not depend on where the labelling starts along the
   * parallel sides: reflecting the labelling (b, a, d, c) or (d, c, b, a)
   * gives the same verdict.
   */
  lemma MirroredLabellingSameVerdict(q: Quads.Quad)
    ensures Validate(Quads.Quad(q.b, q.a, q.d, q.c)) == Validate(q)
    ensures Validate(Quads.Quad(q.d, q.c, q.b, q.a)) == Validate(q)
  {
    var m1 := Quads.Quad(q.b, q.a, q.d, q.c);
    var m2 := Quads.Quad(q.d, q.c, q.b, q.a);
    assert Cross(Sub(m1.b, m1.a), Sub(m1.c, m1.d)) == Cross(Sub(q.b, q.a), Sub(q.c, q.d));
    assert Cross(Sub(m1.c, m1.b), Sub(m1.d, m1.a)) == -Cross(Sub(q.c, q.b), Sub(q.d, q.a));
    assert Cross(Sub(m2.b, m2.a), Sub(m2.c, m2.d)) == -Cross(Sub(q.b, q.a), Sub(q.c, q.d));
    assert Cross(Sub(m2.c, m2.b), Sub(m2.d, m2.a)) == Cross(Sub(q.c, q.b), Sub(q.d, q.a));
    SqDistSymmetric(q.a, q.b);
    SqDistSymmetric(q.c, q.d);
    SqDistSymmetric(q.b, q.c);
    SqDistSymmetric(q.a, q.d);
  }

  /**
   * Every parallelogram passes: both pairs of sides are parallel and the
   * legs BC and AD are translates of each other.
   */
  lemma ParallelogramAccepted(q: Quads.Quad)
    requires Add(q.a, q.c) == Add(q.b, q.d)
    ensures Validate(q) == Pass
  {
    assert Sub(q.c, q.d) == Sub(q.b, q.a);
    assert Cross(Sub(q.b, q.a), Sub(q.b, q.a)) == 0.0;
    assert Sub(q.c, q.b) == Sub(q.d, q.a);
    assert SqDist(q.b, q.c) == Square(q.b.x - q.c.x) + Square(q.b.y - q.c.y);
    assert q.b.x - q.c.x == q.a.x - q.d.x && q.b.y - q.c.y == q.a.y - q.d.y;
  }

  /** Validation only looks at differences of corners, so moving the quadrilateral changes nothing. */
  lemma ValidateTranslationInvariant(q: Quads.Quad, t: Point)
    ensures Validate(Quads.Translate(q, t)) == Validate(q)
  {
    var m := Quads.Translate(q, t);
    assert Sub(m.b, m.a) == Sub(q.b, q.a) && Sub(m.c, m.d) == Sub(q.c, q.d);
    assert Sub(m.c, m.b) == Sub(q.c, q.b) && Sub(m.d, m.a) == Sub(q.d, q.a);
    assert SqDist(m.a, m.b) == SqDist(q.a, q.b) by {
      assert m.a.x - m.b.x == q.a.x - q.b.x && m.a.y - m.b.y == q.a.y - q.b.y;
    }
    assert SqDist(m.c, m.d) == SqDist(q.c, q.d) by {
      assert m.c.x - m.d.x == q.c.x - q.d.x && m.c.y - m.d.y == q.c.y - q.d.y;
    }
    assert SqDist(m.b, m.c) == SqDist(q.b, q.c) by {
      assert m.b.x - m.c.x == q.b.x - q.c.x && m.b.y - m.c.y == q.b.y - q.c.y;
    }
    assert SqDist(m.a, m.d) == SqDist(q.a, q.d) by {
      assert m.a.x - m.d.x == q.a.x - q.d.x && m.a.y - m.d.y == q.a.y - q.d.y;
    }
  }

  /**
   * A trapezoid symmetric about the vertical axis, with bases of half-widths
   * w and v at heights 0 and h, is accepted.
   */
  lemma SymmetricTrapezoidAccepted(w: real, v: real, h: real)
    ensures Validate(Quads.Quad(Point(-w, 0.0), Point(w, 0.0), Point(v, h), Point(-v, h))) == Pass
  {
    var q := Quads.Quad(Point(-w, 0.0), Point(w, 0.0), Point(v, h), Point(-v, h));
    assert ParallelABDC(q);
    assert Square(w - v) == Square(-w - -v);
  }

  /**
   * A right trapezoid (AD perpendicular to both bases) of non-zero height
   * whose bases differ in length has unequal legs and is rejected.
   */
  lemma RightTrapezoidRejected(w: real, v: real, h: real)
    requires w != v && h != 0.0
    ensures Validate(Quads.Quad(Point(0.0, 0.0), Point(w, 0.0), Point(v, h), Point(0.0, h))) == Fail(NotIsosceles)
  {
    var q := Quads.Quad(Point(0.0, 0.0), Point(w, 0.0), Point(v, h), Point(0.0, h));
    assert ParallelABDC(q);
    SquareSign(w - v);
    assert SqDist(q.b, q.c) == Square(w - v) + Square(-h);
    assert SqDist(q.a, q.d) == Square(0.0) + Square(-h);
  }

  /**
   * The symmetric trapezoid with non-negative half-widths w, v and height h
   * has area (w + v) h, the mean of the bases times the height, and its
   * centre on the axis at half the height.
   */
  lemma SymmetricTrapezoidMeasures(w: real, v: real, h: real)
    requires w >= 0.0 && v >= 0.0 && h >= 0.0
    ensures var q := Quads.Quad(Point(-w, 0.0), Point(w, 0.0), Point(v, h), Point(-v, h));
      Quads.Area(q) == (w + v) * h && Quads.Center(q) == Point(0.0, h / 2.0)
  {
    var q := Quads.Quad(Point(-w, 0.0), Point(w, 0.0), Point(v, h), Point(-v, h));
    Quads.TriAreaIsHalfCross(q.a, q.b, q.c);
    Quads.TriAreaIsHalfCross(q.a, q.c, q.d);
    assert Cross(Sub(q.b, q.a), Sub(q.c, q.a)) == 2.0 * (w * h);
    assert Cross(Sub(q.c, q.a), Sub(q.d, q.a)) == 2.0 * (v * h);
    assert w * h >= 0.0 && v * h >= 0.0;
  }

  /**
   * The unit tests' trapezoid (0,0), (3,0), (2,1), (1,1) is the symmetric
   * one with half-widths 1.5 and 0.5 and height 1, moved right by 1.5.
   */
  const TestShape := Quads.Quad(Point(0.0, 0.0), Point(3.0, 0.0), Point(2.0, 1.0), Point(1.0, 1.0))

  lemma TestShapeIsTranslate()
    ensures TestShape == Quads.Translate(Quads.Quad(Point(-1.5, 0.0), Point(1.5, 0.0), Point(0.5, 1.0), Point(-0.5, 1.0)), Point(1.5, 0.0))
  {
  }

  /** It is accepted. */
  lemma TestShapeAccepted()
    ensures Validate(TestShape) == Pass
  {
    var s := Quads.Quad(Point(-1.5, 0.0), Point(1.5, 0.0), Point(0.5, 1.0), Point(-0.5, 1.0));
    TestShapeIsTranslate();
    SymmetricTrapezoidAccepted(1.5, 0.5, 1.0);
    ValidateTranslationInvariant(s, Point(1.5, 0.0));
  }

  /** Its area is 2 and its centre (1.5, 0.5). */
  lemma TestShapeMeasures()
    ensures Quads.Area(TestShape) == 2.0 && Quads.Center(TestShape) == Point(1.5, 0.5)
  {
    var s := Quads.Quad(Point(-1.5, 0.0), Point(1.5, 0.0), Point(0.5, 1.0), Point(-0.5, 1.0));
    TestShapeIsTranslate();
    SymmetricTrapezoidMeasures(1.5, 0.5, 1.0);
    Quads.TranslationInvariance(s, Point(1.5, 0.0));
  }

  /**
   * A quadrilateral with no pair of parallel opposite sides; for
   * t = 1 its corners are (0,0), (4,0), (3,2), (1,1).
   */
  function Skewed(t: real): Quads.Quad {
    Quads.Quad(Point(0.0, 0.0), Point(4.0 * t, 0.0), Point(3.0 * t, 2.0 * t), Point(t, t))
  }

  /** Its two cross products are 4 t^2 and -3 t^2. */
  lemma SkewedCrossProducts(t: real)
    ensures Cross(Sub(Skewed(t).b, Skewed(t).a), Sub(Skewed(t).c, Skewed(t).d)) == 4.0 * Square(t)
    ensures Cross(Sub(Skewed(t).c, Skewed(t).b), Sub(Skewed(t).d, Skewed(t).a)) == -3.0 * Square(t)
  {
    var q := Skewed(t);
    assert Sub(q.b, q.a) == Point(4.0 * t, 0.0);
    assert Sub(q.c, q.d) == Point(2.0 * t, t);
    assert Sub(q.c, q.b) == Point(-t, 2.0 * t);
    assert Sub(q.d, q.a) == Point(t, t);
  }

  /** Unless it collapses to a point, it is rejected for having no parallel sides. */
  lemma ExampleNoParallelSides(t: real)
    requires t != 0.0
    ensures Validate(Skewed(t)) == Fail(NoParallelSides)
  {
    SkewedCrossProducts(t);
    SquareSign(t);
  }

  class Trapezoid {
    var a: Point
    var b: Point
    var c: Point
    var d: Point

    /** The corners, in order. */
    function Corners(): Quads.Quad
      reads this
    {
      Quads.Quad(a, b, c, d)
    }

    /** This trapezoid seen through the Figure interface. */
    function AsFigure(): Figure
      reads this
    {
      Trap(Corners())
    }

    /** The default constructor: four default points, not validated. */
    constructor ()
      ensures Corners() == Quads.Quad(Origin(), Origin(), Origin(), Origin())
    {
      a, b, c, d := Origin(), Origin(), Origin(), Origin();
    }

    /**
     * The four-point constructor: stores the points, then validates; on
     * failure no object is produced and the error is returned instead.
     */
    static method Create(p1: Point, p2: Point, p3: Point, p4: Point) returns (r: Result<Trapezoid, GeometryError>)
      ensures r.Ok? <==> Validate(Quads.Quad(p1, p2, p3, p4)) == Pass
      ensures r.Ok? ==> fresh(r.value) && r.value.Corners() == Quads.Quad(p1, p2, p3, p4)
      ensures r.Err? ==> Validate(Quads.Quad(p1, p2, p3, p4)) == Fail(r.error)
    {
      var outcome := Validate(Quads.Quad(p1, p2, p3, p4));
      if outcome.Fail? {
        r := Err(outcome.error);
      } else {
        var t := new Trapezoid.Store(p1, p2, p3, p4);
        r := Ok(t);
      }
    }

    /** The member initialisers of the four-point constructor, which run before validation. */
    constructor Store(p1: Point, p2: Point, p3: Point, p4: Point)
      ensures Corners() == Quads.Quad(p1, p2, p3, p4)
    {
      a, b, c, d := p1, p2, p3, p4;
    }

    /** The copy constructor: a deep copy, not validated again. */
    constructor Copy(other: Trapezoid)
      ensures Corners() == other.Corners()
      ensures Equals(other)
    {
      a, b, c, d := other.a, other.b, other.c, other.d;
    }

    /** Copy assignment: replaces the corners with copies of the source's. */
    method Assign(other: Trapezoid)
      modifies this
      ensures Corners() == old(other.Corners())
      ensures Equals(other)
    {
      if this == other {
        return;
      }
      a, b, c, d := other.a, other.b, other.c, other.d;
    }

    /**
     * `read`: overwrites the eight coordinates in order, then validates.
     * On failure the new coordinates stay in place: the object keeps the
     * rejected corners.
     */
    method Read(input: seq<real>) returns (outcome: Outcome<GeometryError>, rest: seq<real>)
      requires |input| >= 8
      modifies this
      ensures Corners() == Quads.FromCoordinates(input[..8])
      ensures outcome == Validate(Corners())
      ensures rest == input[8..]
    {
      a := a.(x := input[0]);
      a := a.(y := input[1]);
      b := b.(x := input[2]);
      b := b.(y := input[3]);
      c := c.(x := input[4]);
      c := c.(y := input[5]);
      d := d.(x := input[6]);
      d := d.(y := input[7]);
      rest := input[8..];
      outcome := Validate(Corners());
    }

    /** `print`: "Trapezoid: " and the four corners. */
    function Print(): (ts: seq<Token>)
      reads this
      ensures |ts| > 0 && ts[0] == Str("Trapezoid: ")
      ensures Numbers(ts) == Quads.Coordinates(Corners())
    {
      Figures.Print(AsFigure())
    }

    /** `center`: the mean of the four corners. */
    function Center(): (p: Point)
      reads this
      ensures 4.0 * p.x == a.x + b.x + c.x + d.x && 4.0 * p.y == a.y + b.y + c.y + d.y
    {
      Quads.Center(Corners())
    }

    /** `area`: the two fan triangles (a, b, c) and (a, c, d). */
    function Area(): (r: real)
      reads this
      ensures r >= 0.0
      ensures r == Quads.TriArea(a, b, c) + Quads.TriArea(a, c, d)
    {
      Figures.Area(AsFigure())
    }

    /** `operator==`: all four corresponding corners are `==`. */
    function Equals(other: Trapezoid): (r: bool)
      reads this, other
      ensures r <==> Corners() == other.Corners()
    {
      EqualIsIdentity(a, other.a);
      EqualIsIdentity(b, other.b);
      EqualIsIdentity(c, other.c);
      EqualIsIdentity(d, other.d);
      Equal(a, other.a) && Equal(b, other.b) && Equal(c, other.c) && Equal(d, other.d)
    }

    /** `clone`: an independent copy through the copy constructor, as a Figure. */
    function Clone(): (f: Figure)
      reads this
      ensures f.Trap? && f.corners == Corners()
      ensures Figures.Area(f) == Area() && Figures.Center(f) == Center()
    {
      Trap(Quads.Quad(a, b, c, d))
    }
  }
}
