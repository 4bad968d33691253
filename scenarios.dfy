/**
 * Each case of tests/test_figures.cpp restated as a method: it builds the
 * objects the test builds, and its postconditions state the values the
 * test expects, exact where the test compares approximately. The verifier
 * proves them.
 */
module Scenarios {
  import opened Points
  import opened Outcomes
  import Quads
  import Figures
  import Rectangles
  import Trapezoids
  import Rhombi
  import opened FigureArray

  /** The rectangle (0,0), (2,0), (2,1), (0,1) of the rectangle tests. */
  const Wide := Quads.Quad(Point(0.0, 0.0), Point(2.0, 0.0), Point(2.0, 1.0), Point(0.0, 1.0))

  /** The unit square (0,0), (1,0), (1,1), (0,1). */
  const Unit := Quads.Quad(Point(0.0, 0.0), Point(1.0, 0.0), Point(1.0, 1.0), Point(0.0, 1.0))

  /** The square (0,0), (1,1), (2,0), (1,-1) of the rhombus tests. */
  const Diamond := Quads.Quad(Point(0.0, 0.0), Point(1.0, 1.0), Point(2.0, 0.0), Point(1.0, -1.0))

  lemma WideMeasures()
    ensures Quads.Area(Wide) == 2.0 && Quads.Center(Wide) == Point(1.0, 0.5)
  {
    Quads.AxisAlignedRectangle(0.0, 0.0, 2.0, 1.0);
  }

  lemma UnitArea()
    ensures Quads.Area(Unit) == 1.0
  {
    Quads.AxisAlignedRectangle(0.0, 0.0, 1.0, 1.0);
  }

  lemma DiamondFacts()
    ensures Rhombi.Validate(Diamond) == Pass
    ensures Quads.Area(Diamond) == 2.0 && Quads.Center(Diamond) == Point(1.0, 0.0)
  {
    Rhombi.DiamondSquareAccepted(1.0);
    assert Rhombi.DiamondSquare(1.0) == Diamond;
  }

  /** RectangleTest.BasicProperties: a copy compares equal; area 2; centre (1, 0.5). */
  method RectangleBasics() returns (same: bool, area: real, center: Point)
    ensures same && area == 2.0 && center == Point(1.0, 0.5)
  {
    var r1 := new Rectangles.Rectangle.FromPoints(Wide.a, Wide.b, Wide.c, Wide.d);
    var r2 := new Rectangles.Rectangle.Copy(r1);
    same := r1.Equals(r2);
    WideMeasures();
    area := r1.Area();
    center := r1.Center();
  }

  /** RectangleTest.InequalityAfterChange: rectangles with different corners are not `==`. */
  method RectanglesDiffer() returns (same: bool)
    ensures !same
  {
    var r1 := new Rectangles.Rectangle.FromPoints(Wide.a, Wide.b, Wide.c, Wide.d);
    var r2 := new Rectangles.Rectangle.FromPoints(Unit.a, Unit.b, Unit.c, Unit.d);
    same := r1.Equals(r2);
  }

  /** RectangleTest.CloneWorks: the clone converted to `double` is the original's area. */
  method CloneKeepsArea() returns (cloneArea: real, area: real)
    ensures cloneArea == area == 2.0
  {
    var r1 := new Rectangles.Rectangle.FromPoints(Wide.a, Wide.b, Wide.c, Wide.d);
    var clone := r1.Clone();
    WideMeasures();
    cloneArea := Figures.Area(clone);
    area := r1.Area();
  }

  /** The four-point constructor accepts the rhombus tests' square. */
  method BuildRhombus() returns (r: Result<Rhombi.Rhombus, Figures.GeometryError>)
    ensures r.Ok? && r.value.Corners() == Diamond
  {
    DiamondFacts();
    r := Rhombi.Rhombus.Create(Diamond.a, Diamond.b, Diamond.c, Diamond.d);
  }

  /** RhombusTest.BasicProperties: the square is accepted, with area 2 and centre (1, 0). */
  method RhombusBasics() returns (accepted: bool, area: real, center: Point)
    ensures accepted && area == 2.0 && center == Point(1.0, 0.0)
  {
    var r := BuildRhombus();
    accepted := r.Ok?;
    DiamondFacts();
    area := r.value.Area();
    center := r.value.Center();
  }

  /** The four-point constructor accepts the trapezoid tests' shape. */
  method BuildTrapezoid() returns (t: Result<Trapezoids.Trapezoid, Figures.GeometryError>)
    ensures t.Ok? && t.value.Corners() == Trapezoids.TestShape
  {
    Trapezoids.TestShapeAccepted();
    var s := Trapezoids.TestShape;
    t := Trapezoids.Trapezoid.Create(s.a, s.b, s.c, s.d);
  }

  /** TrapezoidTest.BasicProperties: (0,0), (3,0), (2,1), (1,1) is accepted, area 2, centre (1.5, 0.5). */
  method TrapezoidBasics() returns (accepted: bool, area: real, center: Point)
    ensures accepted && area == 2.0 && center == Point(1.5, 0.5)
  {
    var t := BuildTrapezoid();
    accepted := t.Ok?;
    Trapezoids.TestShapeMeasures();
    area := t.value.Area();
    center := t.value.Center();
  }

  /** The sum over two figures, and over three. */
  lemma SumOfFew(f: Figures.Figure, g: Figures.Figure, h: Figures.Figure)
    ensures SumAreas([f, g], Figures.Area) == Figures.Area(f) + Figures.Area(g)
    ensures SumAreas([f, g, h], Figures.Area) == Figures.Area(f) + Figures.Area(g) + Figures.Area(h)
  {
    assert [f, g, h][..2] == [f, g];
    assert [f, g][..1] == [f];
    assert [f][..0] == [];
    assert SumAreas([f], Figures.Area) == Figures.Area(f);
  }

  /** The unit square, built as a Rectangle and cloned into a Figure: area 1. */
  method SquareFigure() returns (f: Figures.Figure)
    ensures Figures.Area(f) == 1.0
  {
    var r := new Rectangles.Rectangle.FromPoints(Unit.a, Unit.b, Unit.c, Unit.d);
    UnitArea();
    f := r.Clone();
  }

  /** The rectangle tests' rectangle as a Figure: area 2. */
  method WideFigure() returns (f: Figures.Figure)
    ensures Figures.Area(f) == 2.0
  {
    var r := new Rectangles.Rectangle.FromPoints(Wide.a, Wide.b, Wide.c, Wide.d);
    WideMeasures();
    f := r.Clone();
  }

  /** The rhombus tests' square, built as a Rhombus: area 2. */
  method RhombusFigure() returns (f: Figures.Figure)
    ensures Figures.Area(f) == 2.0
  {
    var r := BuildRhombus();
    DiamondFacts();
    f := r.value.Clone();
  }

  /** The trapezoid tests' trapezoid, built as a Trapezoid: area 2. */
  method TrapezoidFigure() returns (f: Figures.Figure)
    ensures Figures.Area(f) == 2.0
  {
    var t := BuildTrapezoid();
    Trapezoids.TestShapeMeasures();
    f := t.value.Clone();
  }

  /**
   * ArrayTest.SharedPtrFiguresOperations: push the unit square and the
   * trapezoid (total area 3), erase the first, then move the array.
   */
  method ArrayOfFigures() returns (pushed: nat, total: real, erased: nat, movedFrom: nat, movedTo: nat)
    ensures pushed == 2 && total == 3.0 && erased == 1 && movedFrom == 0 && movedTo == 1
  {
    var f := SquareFigure();
    var g := TrapezoidFigure();
    SumOfFew(f, g, g);
    var arr := new Array<Figures.Figure>();
    arr.PushBack(f);
    arr.PushBack(g);
    pushed := arr.Size();
    total := arr.TotalArea(Some(Figures.Area));
    var outcome := arr.Erase(0);
    erased := arr.Size();
    var arr2 := new Array<Figures.Figure>.Take(arr);
    movedFrom := arr.Size();
    movedTo := arr2.Size();
  }

  /**
   * ArrayTest.ConcreteRectangleType: two rectangles of areas 2 and 1; erasing
   * the second leaves one element and total area 2.
   */
  method ArrayOfRectangles() returns (pushed: nat, total: real, erased: nat, remaining: real)
    ensures pushed == 2 && total == 3.0 && erased == 1 && remaining == 2.0
  {
    var f := WideFigure();
    var g := SquareFigure();
    SumOfFew(f, g, g);
    var rects := new Array<Figures.Figure>();
    rects.PushBack(f);
    rects.PushBack(g);
    pushed := rects.Size();
    total := rects.TotalArea(Some(Figures.Area));
    var outcome := rects.Erase(1);
    erased := rects.Size();
    SumAreasRemoved([f, g], 1, Figures.Area);
    remaining := rects.TotalArea(Some(Figures.Area));
  }

  /** ArrayTest.TotalAreaWithDifferentFigures: a square, a rhombus and a trapezoid add up to 5. */
  method MixedTotal() returns (total: real)
    ensures total == 5.0
  {
    var f := SquareFigure();
    var g := RhombusFigure();
    var h := TrapezoidFigure();
    SumOfFew(f, g, h);
    var arr := new Array<Figures.Figure>();
    arr.PushBack(f);
    arr.PushBack(g);
    arr.PushBack(h);
    assert arr.Elements() == [f, g, h];
    total := arr.TotalArea(Some(Figures.Area));
  }
}
