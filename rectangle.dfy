/**
 * `Rectangle<double>` (include/rectangle.h): four owned corner points and
 * no geometric constraint on them. Any four points are accepted, by the
 * constructor and by `read`; area and centre are those of the fan
 * triangulation shared with the other shapes.
 */
module Rectangles {
  import opened Points
  import Quads
  import Figures

  class Rectangle {
    var a: Point
    var b: Point
    var c: Point
    var d: Point

    /** The corners, in order. */
    function Corners(): Quads.Quad
      reads this
    {
      Quads.Quad(a, b, c, d)
    }

    /** This rectangle seen through the Figure interface. */
    function AsFigure(): Figures.Figure
      reads this
    {
      Figures.Rect(Corners())
    }

    /** The default constructor: four default-constructed points. */
    constructor ()
      ensures Corners() == Quads.Quad(Origin(), Origin(), Origin(), Origin())
    {
      a, b, c, d := Origin(), Origin(), Origin(), Origin();
    }

    /** The four-point constructor stores the points as given, without validation. */
    constructor FromPoints(p1: Point, p2: Point, p3: Point, p4: Point)
      ensures Corners() == Quads.Quad(p1, p2, p3, p4)
    {
      a, b, c, d := p1, p2, p3, p4;
    }

    /** The copy constructor: a deep copy, `==` to its source. */
    constructor Copy(other: Rectangle)
      ensures Corners() == other.Corners()
      ensures Equals(other)
    {
      a, b, c, d := other.a, other.b, other.c, other.d;
    }

    /** Copy assignment: the four corners are replaced by copies of the source's. */
    method Assign(other: Rectangle)
      modifies this
      ensures Corners() == old(other.Corners())
      ensures Equals(other)
    {
      if this == other {
        return;
      }
      a, b, c, d := other.a, other.b, other.c, other.d;
    }

    /**
     * `read`: overwrites a.x, a.y, b.x, b.y, c.x, c.y, d.x, d.y, in that
     * order, with the next eight numbers of the input. There is no
     * validation, so reading never fails.
     */
    method Read(input: seq<real>) returns (rest: seq<real>)
      requires |input| >= 8
      modifies this
      ensures Corners() == Quads.FromCoordinates(input[..8])
      ensures Quads.Coordinates(Corners()) == input[..8]
      ensures rest == input[8..]
    {
      a := a.(x := input[0]);
      a := a.(y := input[1]);
      b := b.(x := input[2]);
      b := b.(y := input[3]);
      c := c.(x := input[4]);
      c := c.(y := input[5]);
      d := d.(x := input[6]);
      d := d.(y := input[7]);
      rest := input[8..];
    }

    /** `print`: "Rectangle: " and the four corners. */
    function Print(): (ts: seq<Token>)
      reads this
      ensures |ts| > 0 && ts[0] == Str("Rectangle: ")
      ensures Numbers(ts) == Quads.Coordinates(Corners())
    {
      Figures.Print(AsFigure())
    }

    /** `center`: the mean of the four corners. */
    function Center(): (p: Point)
      reads this
      ensures 4.0 * p.x == a.x + b.x + c.x + d.x && 4.0 * p.y == a.y + b.y + c.y + d.y
    {
      Quads.Center(Corners())
    }

    /** `area`: the two fan triangles (a, b, c) and (a, c, d). */
    function Area(): (r: real)
      reads this
      ensures r >= 0.0
      ensures r == Quads.TriArea(a, b, c) + Quads.TriArea(a, c, d)
    {
      Figures.Area(AsFigure())
    }

    /** `operator==`: all four corresponding corners are `==`. */
    function Equals(other: Rectangle): (r: bool)
      reads this, other
      ensures r <==> Corners() == other.Corners()
    {
      EqualIsIdentity(a, other.a);
      EqualIsIdentity(b, other.b);
      EqualIsIdentity(c, other.c);
      EqualIsIdentity(d, other.d);
      Equal(a, other.a) && Equal(b, other.b) && Equal(c, other.c) && Equal(d, other.d)
    }

    /**
     * `clone`: an independent copy, as a Figure; converted to `double` it
     * gives this rectangle's area.
     */
    function Clone(): (f: Figures.Figure)
      reads this
      ensures f.Rect? && f.corners == Corners()
      ensures Figures.Area(f) == Area() && Figures.Center(f) == Center()
    {
      Figures.Rect(Quads.Quad(a, b, c, d))
    }
  }
}
