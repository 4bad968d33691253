/**
 * The four corner points every shape owns, and the geometry the three
 * shape classes share: the shoelace triangle area, the fan-triangulated
 * quadrilateral area, the centroid, the text form and the order in which
 * `read` fills the eight coordinates. Rectangle, Trapezoid and Rhombus each
 * carry an identical copy of `tri_area`, `area` and `center`
 * (include/rectangle.h, include/trapezoid.h, include/rhombus.h); here they
 * are defined once.
 */
module Quads {
  import opened Points

  /** The four corners, in the order they are given: a, b, c, d (p1..p4 in Rhombus). */
  datatype Quad = Quad(a: Point, b: Point, c: Point, d: Point)

  function Abs(r: real): real {
    if r < 0.0 then -r else r
  }

  /** The signed shoelace sum of the triangle p, q, r: twice its oriented area. */
  function TriShoelace(p: Point, q: Point, r: Point): real {
    p.x * (q.y - r.y) + q.x * (r.y - p.y) + r.x * (p.y - q.y)
  }

  /** `tri_area`: the shoelace formula for the triangle p, q, r. */
  function TriArea(p: Point, q: Point, r: Point): (s: real)
    ensures s >= 0.0
  {
    Abs(TriShoelace(p, q, r)) / 2.0
  }

  /** The shoelace formula is half the cross product of two edge vectors. */
  lemma TriAreaIsHalfCross(p: Point, q: Point, r: Point)
    ensures TriArea(p, q, r) == Abs(Cross(Sub(q, p), Sub(r, p))) / 2.0
  {
    // both sides unfolded to the polynomials of the scalar identity, which the verifier needs to match them
    assert TriShoelace(p, q, r) == p.x * (q.y - r.y) + q.x * (r.y - p.y) + r.x * (p.y - q.y);
    assert Cross(Sub(q, p), Sub(r, p)) == (q.x - p.x) * (r.y - p.y) - (q.y - p.y) * (r.x - p.x);
    ShoelaceIdentity(p.x, p.y, q.x, q.y, r.x, r.y);
  }

  lemma ShoelaceIdentity(px: real, py: real, qx: real, qy: real, rx: real, ry: real)
    ensures px * (qy - ry) + qx * (ry - py) + rx * (py - qy) == (qx - px) * (ry - py) - (qy - py) * (rx - px)
  {
  }

  /** Triangle area does not depend on where the triangle lies. */
  lemma TriAreaTranslation(p: Point, q: Point, r: Point, t: Point)
    ensures TriArea(Add(p, t), Add(q, t), Add(r, t)) == TriArea(p, q, r)
  {
    TriAreaIsHalfCross(p, q, r);
    TriAreaIsHalfCross(Add(p, t), Add(q, t), Add(r, t));
    assert Sub(Add(q, t), Add(p, t)) == Sub(q, p);
    assert Sub(Add(r, t), Add(p, t)) == Sub(r, p);
  }

  /** `area`: the sum of the fan triangles (a, b, c) and (a, c, d). */
  function Area(q: Quad): (s: real)
    ensures s >= 0.0
  {
    TriArea(q.a, q.b, q.c) + TriArea(q.a, q.c, q.d)
  }

  /** `center`: the sum of the four corners divided by 4, that is, the mean of the corners. */
  function Center(q: Quad): (c: Point)
    ensures 4.0 * c.x == q.a.x + q.b.x + q.c.x + q.d.x
    ensures 4.0 * c.y == q.a.y + q.b.y + q.c.y + q.d.y
  {
    Div(Add(Add(Add(q.a, q.b), q.c), q.d), 4.0)
  }

  function Translate(q: Quad, t: Point): Quad {
    Quad(Add(q.a, t), Add(q.b, t), Add(q.c, t), Add(q.d, t))
  }

  /** Moving a shape leaves its area alone and moves its centre by the same offset. */
  lemma TranslationInvariance(q: Quad, t: Point)
    ensures Area(Translate(q, t)) == Area(q)
    ensures Center(Translate(q, t)) == Add(Center(q), t)
  {
    TriAreaTranslation(q.a, q.b, q.c, t);
    TriAreaTranslation(q.a, q.c, q.d, t);
  }

  /** For a parallelogram the centroid is the common midpoint of the diagonals. */
  lemma ParallelogramCenter(q: Quad)
    requires Add(q.a, q.c) == Add(q.b, q.d)
    ensures Center(q) == Div(Add(q.a, q.c), 2.0)
    ensures Center(q) == Div(Add(q.b, q.d), 2.0)
  {
  }

  /**
   * The signed shoelace sum of the polygon a, b, c, d: twice its oriented
   * area.
   */
  function Shoelace(q: Quad): real {
    Cross(q.a, q.b) + Cross(q.b, q.c) + Cross(q.c, q.d) + Cross(q.d, q.a)
  }

  /**
   * When the two fan triangles turn the same way (as they do for corners
   * listed around a convex quadrilateral), the fan area is the polygon's
   * shoelace area.
   */
  lemma FanAreaIsShoelace(q: Quad)
    requires var o1, o2 := Cross(Sub(q.b, q.a), Sub(q.c, q.a)), Cross(Sub(q.c, q.a), Sub(q.d, q.a));
             (o1 >= 0.0 && o2 >= 0.0) || (o1 <= 0.0 && o2 <= 0.0)
    ensures Area(q) == Abs(Shoelace(q)) / 2.0
  {
    var o1, o2 := Cross(Sub(q.b, q.a), Sub(q.c, q.a)), Cross(Sub(q.c, q.a), Sub(q.d, q.a));
    TriAreaIsHalfCross(q.a, q.b, q.c);
    TriAreaIsHalfCross(q.a, q.c, q.d);
    FanCross(q);
    AbsOfSameSigns(o1, o2);
  }

  /** The two fan cross products add up to the polygon's shoelace sum. */
  lemma FanCross(q: Quad)
    ensures Cross(Sub(q.b, q.a), Sub(q.c, q.a)) + Cross(Sub(q.c, q.a), Sub(q.d, q.a)) == Shoelace(q)
  {
    FanIdentity(q.a.x, q.a.y, q.b.x, q.b.y, q.c.x, q.c.y, q.d.x, q.d.y);
  }

  lemma AbsOfSameSigns(x: real, y: real)
    requires (x >= 0.0 && y >= 0.0) || (x <= 0.0 && y <= 0.0)
    ensures Abs(x) / 2.0 + Abs(y) / 2.0 == Abs(x + y) / 2.0
  {
  }

  lemma FanIdentity(x1: real, y1: real, x2: real, y2: real, x3: real, y3: real, x4: real, y4: real)
    ensures ((x2 - x1) * (y3 - y1) - (y2 - y1) * (x3 - x1)) + ((x3 - x1) * (y4 - y1) - (y3 - y1) * (x4 - x1))
         == (x1 * y2 - y1 * x2) + (x2 * y3 - y2 * x3) + (x3 * y4 - y3 * x4) + (x4 * y1 - y4 * x1)
  {
  }

  /**
   * The axis-aligned rectangle with lower-left corner (x0, y0), width w and
   * height h, listed counter-clockwise, has area w * h and centre at its
   * middle.
   */
  lemma AxisAlignedRectangle(x0: real, y0: real, w: real, h: real)
    requires w >= 0.0 && h >= 0.0
    ensures var q := Quad(Point(x0, y0), Point(x0 + w, y0), Point(x0 + w, y0 + h), Point(x0, y0 + h));
            Area(q) == w * h && Center(q) == Point(x0 + w / 2.0, y0 + h / 2.0)
  {
    var q := Quad(Point(x0, y0), Point(x0 + w, y0), Point(x0 + w, y0 + h), Point(x0, y0 + h));
    TriAreaIsHalfCross(q.a, q.b, q.c);
    TriAreaIsHalfCross(q.a, q.c, q.d);
    assert Cross(Sub(q.b, q.a), Sub(q.c, q.a)) == w * h;
    assert Cross(Sub(q.c, q.a), Sub(q.d, q.a)) == w * h;
    assert w * h >= 0.0;
  }

  // ---------------------------------------------------------------------
  // Reading and printing.
  // ---------------------------------------------------------------------

  /** The eight coordinates in the order `read` extracts them: a.x a.y b.x b.y c.x c.y d.x d.y. */
  function Coordinates(q: Quad): (xs: seq<real>)
    ensures |xs| == 8
  {
    [q.a.x, q.a.y, q.b.x, q.b.y, q.c.x, q.c.y, q.d.x, q.d.y]
  }

  /** The corners that eight extracted numbers describe. */
  function FromCoordinates(xs: seq<real>): (q: Quad)
    requires |xs| == 8
    ensures Coordinates(q) == xs
  {
    Quad(Point(xs[0], xs[1]), Point(xs[2], xs[3]), Point(xs[4], xs[5]), Point(xs[6], xs[7]))
  }

  /** The coordinate order and the corners determine each other. */
  lemma CoordinatesRoundTrip(q: Quad, xs: seq<real>)
    requires |xs| == 8
    ensures FromCoordinates(Coordinates(q)) == q
    ensures Coordinates(FromCoordinates(xs)) == xs
  {
  }

  /** The four corners as written by `print`: each point's text form, separated by single spaces. */
  function Text(q: Quad): (ts: seq<Token>)
    ensures Numbers(ts) == Coordinates(q)
  {
    var sep := [Str(" ")];
    var ts := Points.Text(q.a) + sep + Points.Text(q.b) + sep + Points.Text(q.c) + sep + Points.Text(q.d);
    NumbersAppend(Points.Text(q.a) + sep + Points.Text(q.b) + sep + Points.Text(q.c) + sep, Points.Text(q.d));
    NumbersAppend(Points.Text(q.a) + sep + Points.Text(q.b) + sep + Points.Text(q.c), sep);
    NumbersAppend(Points.Text(q.a) + sep + Points.Text(q.b) + sep, Points.Text(q.c));
    NumbersAppend(Points.Text(q.a) + sep + Points.Text(q.b), sep);
    NumbersAppend(Points.Text(q.a) + sep, Points.Text(q.b));
    NumbersAppend(Points.Text(q.a), sep);
    assert Numbers(sep) == [];
    ts
  }
}
