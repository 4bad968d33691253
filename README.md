# Figures and a growable figure array, in Dafny

This project models the core of a small C++ geometry library:

- `Point<T>` (include/point.h);
- the abstract `Figure<T>` interface (include/figure.h);
- its three shapes `Rectangle<T>`, `Trapezoid<T>` and `Rhombus<T>`
  (include/rectangle.h, include/trapezoid.h, include/rhombus.h);
- the move-only growable container `Array<T>` (include/figure_array.h).

Each shape owns four corner points. It reports:

- its centre, the mean of the corners;
- its area, as two fan triangles by the shoelace formula;
- its text form `Name: (x, y) (x, y) (x, y) (x, y)`.

A shape is read from eight numbers, compared corner by corner and cloned into a `Figure`. The trapezoid must be isosceles. The rhombus must have equal sides and be "cyclic". Both check this in their four-point constructor and after `read`, and report failure with an error.

## Design

- **Modules.**
  - `Points` covers point.h.
  - `Quads` holds the four-corner geometry that the three shape classes repeat with the same formulas: `tri_area`, `area`, `center`, the text form and the order in which `read` fills the coordinates.
  - `Figures` is the `Figure` interface, a sum type with one variant per shape.
  - `Rectangles`, `Trapezoids` and `Rhombi` are the shape classes.
  - `FigureArray` is the container.
  - `Scenarios` restates each case of tests/test_figures.cpp as a method. Its postconditions state the values the test expects, and the verifier proves them.
- **Numbers.** Coordinates are exact `real`s.
  - The source compares doubles within a tolerance: 1e-9 in `Point::operator==`, 1e-6 in the shape checks. Here every such comparison is exact equality.
  - Lengths compared through `sqrt` become squared lengths, which compare the same way.
  - The rhombus's `acos`-based angle test becomes an exact algebraic one. The two angles add up to pi exactly when their cosines are opposite. A zero-length side makes the cosine 0/0 (NaN), so the test is then false.
  - Integer coordinates, where `operator/` truncates toward zero, are modelled by `Points.IntPoint` and `Points.TruncDiv`.
- **Classes and state.**
  - The shapes are classes whose corner fields `read`, copy assignment and construction update in place.
  - `Array` is a class over a Dafny `array`, with `size` and `capacity` fields. `Elements()` is the view `data[..size]`.
  - Operations that throw return a `Result` or an `Outcome` that carries the error.
- **Capabilities.** `printAll`, `printCenters` and `totalArea` ask at compile time whether an element can be printed, has an area or has a centre. Here each capability is an `Option` of a function, and the caller passes it.
  - Only `totalArea` guards the dereference of an element (include/figure_array.h:163). It handles both pointer-like and value elements.
  - `printAll` and `printCenters` test `*v` unconditionally (include/figure_array.h:120, 127, 145). They therefore compile only for pointer-like elements, such as `std::shared_ptr<Figure<T>>`, and then look at the pointee.
  - The model's `PrintAll` and `PrintCenters` take the capability functions of the pointee and accept any element type.
- **Output.** Text output is a sequence of tokens. A double written to a stream is the token `Num(v)`, since its decimal formatting is not modelled. This lets the model state which numbers each line carries, and in what order.
- **Reading.** `read` takes the eight numbers already extracted from the stream.
- **Where the code is followed.**
  - Shape equality is corner-by-corner, as `operator==` is written.
  - A failed trapezoid or rhombus `read` keeps the newly read corners, because the code overwrites them before it validates.

## Model

| member | source | states |
|---|---|---|
| Points.Origin | include/point.h:12-15 | the default point is the identity of `+` on both sides |
| Points.Add | include/point.h:18 | adding a vector leaves a point unchanged exactly when the vector is zero; `-` undoes it (Points.AddSubInverse) |
| Points.Sub | include/point.h:19 | the difference is the zero vector exactly when the two points coincide |
| Points.Div | include/point.h:20 | for `double` coordinates, scaling the quotient back by the divisor restores the point |
| Points.Equal | include/point.h:22-25 | `==` holds exactly when the points are identical (the tolerance made exact) |
| Points.SqDist | include/trapezoid.h:20-22 | a squared distance is non-negative and zero exactly when the points coincide |
| Points.SqDistSymmetric | include/rhombus.h:17-19 | distance does not depend on the order of the two points |
| Points.AddSubInverse | include/point.h:18-19 | `-` undoes `+` and `+` undoes `-` |
| Points.EqualIsIdentity | include/point.h:22-25 | `==` holds exactly for identical points, and is reflexive and symmetric |
| Points.DivUndoesRepeatedAdd | include/point.h:18-20 | dividing the sum of 2 or 4 copies of a point by 2 or 4 gives the point back |
| Points.TruncDiv | include/point.h:20 | the integer quotient truncates toward zero: the remainder has the dividend's sign and is smaller than the divisor |
| Points.TruncDivOdd | include/point.h:20 | truncating division is odd in the dividend, unlike Euclidean division |
| Points.DivInt | include/point.h:20 | for integer coordinates, each coordinate is the quotient truncated toward zero: the remainder has the dividend's sign and is smaller than the divisor |
| Points.DivIntExact | include/point.h:20 | integer `operator/` loses nothing when both coordinates are multiples of the divisor |
| Points.TruncDivExact | include/point.h:20 | an exact multiple divides back to its factor |
| Points.Text | include/point.h:28-32 | `(x, y)` is written in parentheses and carries x, then y |
| Quads.TriArea | include/rectangle.h:11-15 | `tri_area` is never negative |
| Quads.TriAreaIsHalfCross | include/rectangle.h:11-15 | `tri_area` is half the absolute cross product of two edge vectors |
| Quads.TriAreaTranslation | include/rectangle.h:11-15 | `tri_area` does not change when the triangle is moved |
| Quads.Area | include/rectangle.h:62-64 | `area` is never negative |
| Quads.Center | include/rectangle.h:58-60 | `center` is the mean of the four x- and the four y-coordinates |
| Quads.TranslationInvariance | include/rectangle.h:58-64 | moving a shape keeps its area and moves its centre by the same offset |
| Quads.ParallelogramCenter | include/rectangle.h:58-60 | for a parallelogram the centre is the midpoint of either diagonal |
| Quads.FanAreaIsShoelace | include/rectangle.h:62-64 | when both fan triangles turn the same way, the fan area equals the polygon's shoelace area |
| Quads.AxisAlignedRectangle | include/rectangle.h:58-64 | an axis-aligned w by h rectangle has area w h and its centre in the middle |
| Quads.Coordinates | include/rectangle.h:50-52 | `read` fills exactly eight coordinates |
| Quads.FromCoordinates | include/rectangle.h:50-52 | the corners built from eight numbers give back those numbers in `read` order |
| Quads.CoordinatesRoundTrip | include/rectangle.h:50-56 | the eight numbers read and the four corners printed determine each other, in both directions |
| Quads.Text | include/rectangle.h:54-56 | the printed corners carry the eight coordinates in `read` order |
| Figures.Area | include/figure.h:14 | every figure's area is non-negative |
| Figures.Center | include/figure.h:13 | every figure's centre is the mean of its four corners |
| Figures.Name | include/rectangle.h:55 | the name that `print` writes first tells the variant: "Rectangle", "Trapezoid" or "Rhombus" exactly for that shape |
| Figures.Message | include/trapezoid.h:38-55 | every error has a non-empty text |
| Figures.MessagesDistinct | include/rhombus.h:46-50 | the four exception texts (include/trapezoid.h:38 and 55, include/rhombus.h:46 and 50) are distinct, so each names its error |
| Figures.Print | include/figure.h:21-24 | `<<` starts with the shape's name and carries its eight coordinates in order |
| Figures.PrintThenRead | include/figure.h:15-16 | reading back the numbers that `print` writes restores the corners |
| Figures.VariantIndependent | include/figure.h:13-14 | the three shapes share one area and one centre formula |
| Rectangles.Rectangle.constructor | include/rectangle.h:18-22 | the default rectangle has four origin corners |
| Rectangles.Rectangle.FromPoints | include/rectangle.h:24-29 | the corners are the four given points, in order |
| Rectangles.Rectangle.Copy | include/rectangle.h:31-36 | the copy has the same corners and compares equal |
| Rectangles.Rectangle.Assign | include/rectangle.h:38-45 | after assignment (self-assignment included) the corners are the source's and compare equal |
| Rectangles.Rectangle.Read | include/rectangle.h:50-52 | the corners become the first eight numbers in order a.x a.y … d.y; the rest is left unread |
| Rectangles.Rectangle.Print | include/rectangle.h:54-56 | "Rectangle: " followed by text carrying the eight coordinates |
| Rectangles.Rectangle.Center | include/rectangle.h:58-60 | four times the centre is the sum of the corners |
| Rectangles.Rectangle.Area | include/rectangle.h:62-64 | the area is non-negative and is the two fan triangles' sum |
| Rectangles.Rectangle.Equals | include/rectangle.h:66-68 | equal exactly when all four corners coincide |
| Rectangles.Rectangle.Clone | include/rectangle.h:70-72 | the clone is a rectangle with the same corners, area and centre |
| Trapezoids.ParallelABDC | include/trapezoid.h:26-29 | AB and DC count as parallel when either side has length zero, and when they are equal vectors |
| Trapezoids.ParallelBCAD | include/trapezoid.h:33-35 | BC and AD count as parallel when either side has length zero, and when they are equal vectors |
| Trapezoids.IsoscelesOnAB | include/trapezoid.h:44-47 | every parallelogram has AB ∥ DC and legs BC, AD of one length |
| Trapezoids.IsoscelesOnBC | include/trapezoid.h:49-51 | every parallelogram has BC ∥ AD and legs AB, CD of one length |
| Trapezoids.Validate | include/trapezoid.h:24-57 | accepted shapes are isosceles trapezoids; with exactly one parallel pair, the acceptance is an iff; AB ∥ DC takes precedence; "no parallel sides" exactly when neither pair is parallel |
| Trapezoids.MirroredLabellingSameVerdict | include/trapezoid.h:24-57 | reflecting the labelling, as (b,a,d,c) or (d,c,b,a), gives the same verdict |
| Trapezoids.ParallelogramAccepted | include/trapezoid.h:24-57 | every parallelogram is accepted, including rectangles and rhombi |
| Trapezoids.ValidateTranslationInvariant | include/trapezoid.h:24-57 | moving a quadrilateral does not change its verdict |
| Trapezoids.SymmetricTrapezoidAccepted | include/trapezoid.h:24-57 | every trapezoid symmetric about the y-axis is accepted |
| Trapezoids.RightTrapezoidRejected | include/trapezoid.h:24-57 | a right trapezoid with unequal bases is rejected as not isosceles |
| Trapezoids.SymmetricTrapezoidMeasures | include/trapezoid.h:104-110 | a symmetric trapezoid has area (w+v) h and centre (0, h/2) |
| Trapezoids.TestShapeAccepted | tests/test_figures.cpp:54-55 | the trapezoid (0,0),(3,0),(2,1),(1,1) is accepted |
| Trapezoids.TestShapeMeasures | tests/test_figures.cpp:54-61 | it has area 2 and centre (1.5, 0.5) |
| Trapezoids.ExampleNoParallelSides | include/trapezoid.h:26-40 | a quadrilateral such as (0,0),(4,0),(3,2),(1,1) is rejected for having no parallel sides |
| Trapezoids.Trapezoid.constructor | include/trapezoid.h:60-64 | the default trapezoid has four origin corners |
| Trapezoids.Trapezoid.Create | include/trapezoid.h:66-74 | a trapezoid is built exactly when validation passes, with the given corners; otherwise validation's error is returned |
| Trapezoids.Trapezoid.Store | include/trapezoid.h:66-71 | the member initialisers store the four given points, in order, before validation runs |
| Trapezoids.Trapezoid.Copy | include/trapezoid.h:76-81 | the copy has the same corners and compares equal |
| Trapezoids.Trapezoid.Assign | include/trapezoid.h:83-90 | after assignment the corners are the source's |
| Trapezoids.Trapezoid.Read | include/trapezoid.h:95-98 | the corners become the eight numbers; the outcome is validation of the new corners |
| Trapezoids.Trapezoid.Print | include/trapezoid.h:100-102 | "Trapezoid: " followed by text carrying the eight coordinates |
| Trapezoids.Trapezoid.Center | include/trapezoid.h:104-106 | four times the centre is the sum of the corners |
| Trapezoids.Trapezoid.Area | include/trapezoid.h:108-110 | the area is non-negative and is the two fan triangles' sum |
| Trapezoids.Trapezoid.Equals | include/trapezoid.h:112-114 | equal exactly when all four corners coincide |
| Trapezoids.Trapezoid.Clone | include/trapezoid.h:116-118 | the clone is a trapezoid with the same corners, area and centre |
| Rhombi.EqualSides | include/rhombus.h:38-46 | four equal sides make opposite sides equal; with one side of length zero, the sides are equal exactly when all four points coincide |
| Rhombi.IsCyclic | include/rhombus.h:21-34 | the angle test fails whenever a ray at p1 or p3 has length zero (the cosine is 0/0); with equal sides it holds exactly for a non-zero right corner at p1 (Rhombi.CyclicWithEqualSides) |
| Rhombi.ValidateAsWritten | include/rhombus.h:36-51 | "sides differ" exactly when the sides are unequal; "not cyclic" exactly when they are equal and the angle test fails; accepted exactly when both tests pass |
| Rhombi.EqualSidesSameCornerDot | include/rhombus.h:21-34 | with equal sides, the cosines at p1 and p3 have the same numerator |
| Rhombi.CyclicWithEqualSides | include/rhombus.h:30-34 | with equal sides, `isCyclic` holds exactly when the sides are non-zero and the corner at p1 is right |
| Rhombi.SquareOrFoldedAccepted | include/rhombus.h:36-51 | squares and folded square corners both pass the source's validation |
| Rhombi.AcceptedIsSquareOrFolded | include/rhombus.h:36-51 | whatever the source's validation accepts is a square or a folded square corner |
| Rhombi.ValidateAsWrittenAccepts | include/rhombus.h:36-51 | the source's validation accepts exactly the squares and the folded square corners |
| Rhombi.SquareNotFolded | include/rhombus.h:36-51 | a square's p1 and p3 differ |
| Rhombi.Validate | include/rhombus.h:36-51 | corrected validation: "sides differ" exactly when the sides are unequal; every other failure is "not cyclic" |
| Rhombi.ValidateAcceptsExactlySquares | include/rhombus.h:48-50 | the corrected validation accepts exactly the squares |
| Rhombi.ParallelogramFanArea | include/rhombus.h:98-100 | for a parallelogram the two fan triangles add up to the absolute cross product of the sides at p1 |
| Rhombi.SquareArea | include/rhombus.h:98-100 | a square's area is its squared side, which is positive |
| Rhombi.FoldedArea | include/rhombus.h:98-100 | a folded square corner has area 0 |
| Rhombi.AcceptedHasPositiveArea | include/rhombus.h:98-100 | everything the corrected validation accepts has positive area |
| Rhombi.FoldedCornerAcceptedAsWritten | include/rhombus.h:36-51 | the folded corner (0,0),(t,0),(0,0),(0,t) passes the source's validation with area 0; the corrected one rejects it |
| Rhombi.DiamondSquareIsSquare | tests/test_figures.cpp:42 | (0,0),(h,h),(2h,0),(h,-h) is a square with squared side 2h² |
| Rhombi.DiamondSquareAccepted | tests/test_figures.cpp:41-49 | it is accepted, with area 2h² and centre (h, 0) |
| Rhombi.Rhombus.constructor | include/rhombus.h:54-58 | the default rhombus has four origin corners |
| Rhombi.Rhombus.Create | include/rhombus.h:60-67 | a rhombus is built exactly when validation passes, with the given corners; otherwise validation's error is returned |
| Rhombi.Rhombus.Store | include/rhombus.h:60-64 | the member initialisers store the four given points, in order, before validation runs |
| Rhombi.Rhombus.Copy | include/rhombus.h:69-73 | the copy has the same corners and compares equal |
| Rhombi.Rhombus.Assign | include/rhombus.h:75-82 | after assignment the corners are the source's |
| Rhombi.Rhombus.Read | include/rhombus.h:84-87 | the corners become the eight numbers; the outcome is their validation, which passes exactly for a square |
| Rhombi.Rhombus.Print | include/rhombus.h:89-91 | "Rhombus: " followed by text carrying the eight coordinates |
| Rhombi.Rhombus.Center | include/rhombus.h:93-96 | four times the centre is the sum of the corners |
| Rhombi.Rhombus.Area | include/rhombus.h:98-100 | the area is non-negative, is the two fan triangles' sum, and for a square is its squared side |
| Rhombi.Rhombus.Equals | include/rhombus.h:106-108 | equal exactly when all four corners coincide |
| Rhombi.Rhombus.Clone | include/rhombus.h:102-104 | the clone is a rhombus with the same corners, area and centre |
| FigureArray.GrownCapacity | include/figure_array.h:36-47 | the new capacity covers the need and never shrinks; it is unchanged when already enough, otherwise at least doubled (at least 4 from 0) |
| FigureArray.PushBackGrowth | include/figure_array.h:88-96 | a push keeps a non-full capacity and doubles a full one, from 0 to 4 |
| FigureArray.PushBackCapacityBound | include/figure_array.h:88-96 | pushes keep the capacity within max(4, 2·size − 2) |
| FigureArray.Removed | include/figure_array.h:98-103 | erasing leaves the elements before the index in place and shifts the later ones down by one |
| FigureArray.SumAreas | include/figure_array.h:158-172 | when every element's area is non-negative, so is the total |
| FigureArray.SumAreasConcat | include/figure_array.h:158-172 | the total area of two runs of elements is the sum of their totals |
| FigureArray.SumAreasNonNegative | include/figure_array.h:158-172 | with non-negative areas, the total is non-negative |
| FigureArray.SumAreasRemoved | include/figure_array.h:98-103 | erasing an element takes exactly its area off the total |
| FigureArray.EntryLineNumbers | include/figure_array.h:116-133 | a `printAll` line carries the element's printed numbers, then its area |
| FigureArray.EntryLine | include/figure_array.h:117-132 | a `printAll` line starts with the element's index and ends with a newline |
| FigureArray.CenterLine | include/figure_array.h:143-154 | a `printCenters` line starts with the element's index and ends with a newline |
| FigureArray.CenterLineNumbers | include/figure_array.h:142-155 | a `printCenters` line carries the centre's x, then y |
| FigureArray.FigureLineNumbers | include/figure_array.h:116-133 | for a figure, a `printAll` line carries its eight coordinates, then its area |
| FigureArray.Array.constructor | include/figure_array.h:51 | a new array is empty with capacity 0 |
| FigureArray.Array.Take | include/figure_array.h:53-57 | the move constructor takes over size, capacity, buffer and elements, and leaves the source empty |
| FigureArray.Array.MoveFrom | include/figure_array.h:59-68 | move assignment takes over the source's state and empties it; assigning to itself changes nothing |
| FigureArray.Array.EnsureCapacity | include/figure_array.h:36-47 | the elements are kept; the capacity becomes the grown capacity; a new buffer is allocated only when it grows |
| FigureArray.Array.Size | include/figure_array.h:74 | the size is the number of elements |
| FigureArray.Array.IsEmpty | include/figure_array.h:75 | empty exactly when there are no elements |
| FigureArray.Array.At | include/figure_array.h:77-85 | an index within the size gives that element; any other index is out of range |
| FigureArray.Array.Put | include/figure_array.h:77-80 | writing through `[]` within the size replaces that element; otherwise it is out of range and nothing changes |
| FigureArray.Array.PushBack | include/figure_array.h:88-96 | the element is appended and the capacity grows as `ensure_capacity` says |
| FigureArray.Array.Erase | include/figure_array.h:98-103 | an index within the size removes that element, keeping the order of the rest; any other index is out of range and nothing changes |
| FigureArray.Array.Clear | include/figure_array.h:105-107 | no elements remain; the capacity and buffer are kept |
| FigureArray.Array.TotalArea | include/figure_array.h:158-172 | the sum of the element areas in index order, or 0 when elements have no area |
| FigureArray.Array.PrintAll | include/figure_array.h:110-134 | "[Empty]" for an empty array, otherwise one line per element: index, text (or "<no-print>"), area when available |
| FigureArray.Array.PrintCenters | include/figure_array.h:136-156 | "Empty" for an empty array, otherwise one line per element: index and centre (or "<no center>") |
| Scenarios.WideMeasures | tests/test_figures.cpp:14-24 | the 2 by 1 rectangle has area 2 and centre (1, 0.5) |
| Scenarios.UnitArea | tests/test_figures.cpp:102-110 | the unit square has area 1 |
| Scenarios.DiamondFacts | tests/test_figures.cpp:41-49 | the test's diamond is accepted, with area 2 and centre (1, 0) |
| Scenarios.RectangleBasics | tests/test_figures.cpp:14-24 | a copied rectangle compares equal; area 2; centre (1, 0.5) |
| Scenarios.RectanglesDiffer | tests/test_figures.cpp:26-30 | rectangles with different corners compare unequal |
| Scenarios.CloneKeepsArea | tests/test_figures.cpp:32-36 | a clone has the original's area |
| Scenarios.BuildRhombus | tests/test_figures.cpp:41-42 | the test's rhombus is constructed without error |
| Scenarios.RhombusBasics | tests/test_figures.cpp:41-49 | its area is 2, which is positive, and its centre is (1, 0) |
| Scenarios.BuildTrapezoid | tests/test_figures.cpp:54-55 | the test's trapezoid is constructed without error |
| Scenarios.TrapezoidBasics | tests/test_figures.cpp:54-61 | its area is 2 and its centre is (1.5, 0.5), with positive x and non-negative y |
| Scenarios.SumOfFew | tests/test_figures.cpp:102-110 | the total area of two or three figures is the sum of their areas |
| Scenarios.SquareFigure | tests/test_figures.cpp:104 | the unit-square figure has area 1 |
| Scenarios.WideFigure | tests/test_figures.cpp:88 | the 2 by 1 rectangle figure has area 2 |
| Scenarios.RhombusFigure | tests/test_figures.cpp:105 | the diamond figure has area 2 |
| Scenarios.TrapezoidFigure | tests/test_figures.cpp:106 | the trapezoid figure has area 2 |
| Scenarios.ArrayOfFigures | tests/test_figures.cpp:66-84 | two pushes give size 2 and total area 3; an erase leaves 1; moving the array leaves 0 behind and 1 in the target |
| Scenarios.ArrayOfRectangles | tests/test_figures.cpp:86-100 | two rectangles total 3; erasing the second leaves one element and area 2 |
| Scenarios.MixedTotal | tests/test_figures.cpp:102-110 | a square, a rhombus and a trapezoid total area 5 |

## Left out

- Stream input and output. `read` takes the eight numbers already extracted. A failed extraction is not modelled, and neither is the decimal formatting of doubles. src/main.cpp, the interactive driver, is not part of this model.
- Floating point. Tolerances (1e-9, 1e-6), rounding, `sqrt` and `acos` are replaced by exact real arithmetic, as described above. Results that depend on rounding, such as a nearly parallel pair of sides accepted within 1e-6, are not modelled.
- Integer width. `size_t` and the integer coordinate types are unbounded here, so capacity overflow and wrap-around are not modelled.
- Ownership.
  - The `unique_ptr` corner storage of the shapes, the `shared_ptr` elements of the tests, and the default move operations of the shapes are not modelled.
  - A moved-from shape, whose corner pointers are null, is not modelled.
  - Element destruction and the buffer's `new T[]` are not modelled beyond allocating a fresh Dafny array.
- FigureArray.Array.PrintAll: the source's `printAll` does not compile for element types that cannot be dereferenced, such as `Array<Rectangle<double>>`. The model also accepts those element types (see Capabilities above).
- FigureArray.Array.PrintCenters: likewise, the source's `printCenters` compiles only for pointer-like elements, and the model accepts any element type.
- FigureArray.Array.PushBack: aliasing is not modelled. In `push_back(const T&)` (include/figure_array.h:88-91), `ensure_capacity` moves the elements out and frees the old buffer before `value` is read. So `arr.push_back(arr[0])` on a full array reads freed memory, which is undefined behaviour. The model passes `v` by value, so it appends the old element.
- The concepts `HasArea`, `HasCenter`, `Printable` and `Scalar` are compile-time checks. Each becomes an `Option` argument that the caller chooses.
- `operator double()` (include/figure.h:19) is `Figures.Area`, and `operator>>` for each shape is its `Read`. Neither has a member of its own.
- Rhombi.Rhombus.Create: uses the corrected validation, so it rejects the folded corner that the source's constructor accepts (see Findings). The behaviour as written is `Rhombi.ValidateAsWritten`.
- Rhombi.Rhombus.Read: uses the corrected validation, for the same reason.

## Findings

| source | as written | input that shows it | evidently intended | confidence | as-written member | corrected member |
|---|---|---|---|---|---|---|
| include/rhombus.h:36-51 | `validate()` accepts four equal sides whose angles at p1 and p3 sum to pi, even when p3 coincides with p1 | (0,0), (1,0), (0,0), (0,1): all sides have length 1 and both "angles" are right, yet the shape is a folded corner of area 0 | accept exactly the squares, as the message "only squares are cyclic" says | not executed | Rhombi.FoldedCornerAcceptedAsWritten | Rhombi.ValidateAcceptsExactlySquares |
