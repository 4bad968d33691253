/**
 * The polymorphic `Figure<T>` interface (include/figure.h) as a closed sum
 * type over its three implementations. Every variant owns four corner
 * points; `center`, `area`, `print` and the conversion to `double` are
 * dispatched on the variant. `read` and `clone` are members of the shape
 * classes (Rectangles, Trapezoids, Rhombi).
 */
module Figures {
  import opened Points
  import Quads

  datatype Figure = Rect(corners: Quads.Quad) | Trap(corners: Quads.Quad) | Rhomb(corners: Quads.Quad)

  /** The reasons Trapezoid and Rhombus validation throws `std::logic_error`. */
  datatype GeometryError = NoParallelSides | NotIsosceles | SidesDiffer | NotCyclic

  /** The text of the exception thrown for each error. */
  function Message(e: GeometryError): (m: string)
    ensures |m| > 0
  {
    match e
    case NoParallelSides => "Not a trapezoid (no parallel sides)"
    case NotIsosceles => "Not an isosceles trapezoid"
    case SidesDiffer => "Not a rhombus (sides differ)"
    case NotCyclic => "Rhombus must be cyclic \U{2014} only squares are cyclic"
  }

  /** Each error has its own text, so a caller can tell the errors apart by their messages. */
  lemma MessagesDistinct(e1: GeometryError, e2: GeometryError)
    ensures Message(e1) == Message(e2) ==> e1 == e2
  {
  }

  /** The word each variant's `print` starts with. */
  function Name(f: Figure): (n: string)
    // the name tells the variant
    ensures n == "Rectangle" <==> f.Rect?
    ensures n == "Trapezoid" <==> f.Trap?
    ensures n == "Rhombus" <==> f.Rhomb?
  {
    match f
    case Rect(_) => "Rectangle"
    case Trap(_) => "Trapezoid"
    case Rhomb(_) => "Rhombus"
  }

  /**
   * `area()`, and also `operator double()`, which returns it unchanged. All
   * three variants use the same fan triangulation.
   */
  function Area(f: Figure): (r: real)
    ensures r >= 0.0
  {
    match f
    case Rect(q) => Quads.Area(q)
    case Trap(q) => Quads.Area(q)
    case Rhomb(q) => Quads.Area(q)
  }

  /** `center()`: the mean of the four corners, for every variant. */
  function Center(f: Figure): (c: Point)
    // the mean of the corners, whichever variant
    ensures 4.0 * c.x == f.corners.a.x + f.corners.b.x + f.corners.c.x + f.corners.d.x
    ensures 4.0 * c.y == f.corners.a.y + f.corners.b.y + f.corners.c.y + f.corners.d.y
  {
    match f
    case Rect(q) => Quads.Center(q)
    case Trap(q) => Quads.Center(q)
    case Rhomb(q) => Quads.Center(q)
  }

  /**
   * `print()`, and also `operator<<`, which calls it: the variant's name,
   * a colon, and the four corners in order.
   */
  function Print(f: Figure): (ts: seq<Token>)
    ensures |ts| > 0 && ts[0] == Str(Name(f) + ": ")
    ensures Numbers(ts) == Quads.Coordinates(f.corners)
  {
    var ts := [Str(Name(f) + ": ")] + Quads.Text(f.corners);
    NumbersAppend([Str(Name(f) + ": ")], Quads.Text(f.corners));
    ts
  }

  /**
   * What `print` writes is what `read` consumes: the eight numbers in the
   * printed text, read back in order, give the same corners.
   */
  lemma PrintThenRead(f: Figure)
    ensures |Numbers(Print(f))| == 8
    ensures Quads.FromCoordinates(Numbers(Print(f))) == f.corners
  {
  }

  /** Area and centre depend only on the corners, not on the variant. */
  lemma VariantIndependent(q: Quads.Quad)
    ensures Area(Rect(q)) == Area(Trap(q)) == Area(Rhomb(q)) == Quads.Area(q)
    ensures Center(Rect(q)) == Center(Trap(q)) == Center(Rhomb(q)) == Quads.Center(q)
  {
  }
}
