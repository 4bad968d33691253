/**
 * The growable array `Array<T>` (include/figure_array.h): a heap buffer
 * `data_` of `capacity_` slots whose first `size_` slots hold the elements.
 *
 * The source chooses at compile time, through concepts, whether an element
 * (or what it points to) has an area, a centre, or a printed form. Here
 * each capability is an `Option` of a function on elements, passed by the
 * caller; `None` stands for an element type without the capability.
 */
module FigureArray {
  import opened Outcomes
  import opened Points
  import Quads
  import Figures

  /** `std::out_of_range("bad index")`. */
  datatype ArrayError = OutOfRange

  /**
   * The capacity after `ensure_capacity(need)`: unchanged when it already
   * suffices, otherwise double the old one (4 when it was 0), or `need` if
   * that is still too small.
   */
  function GrownCapacity(capacity: nat, need: nat): (c: nat)
    ensures c >= need && c >= capacity
    ensures capacity >= need ==> c == capacity
    ensures capacity < need ==> c >= 2 * capacity && (capacity == 0 ==> c >= 4)
  {
    if capacity >= need then capacity
    else
      var doubled := if capacity != 0 then capacity * 2 else 4;
      if doubled < need then need else doubled
  }

  /**
   * Growth under `push_back`: a full array doubles (from 0 to 4), one with
   * room keeps its capacity.
   */
  lemma PushBackGrowth(capacity: nat, size: nat)
    requires size <= capacity
    ensures size < capacity ==> GrownCapacity(capacity, size + 1) == capacity
    ensures size == capacity && capacity == 0 ==> GrownCapacity(capacity, size + 1) == 4
    ensures size == capacity && capacity > 0 ==> GrownCapacity(capacity, size + 1) == 2 * capacity
  {
  }

  /**
   * Pushing keeps the buffer at most about twice the number of elements:
   * at most max(4, 2 size - 2) slots, which holds for an empty array.
   */
  lemma PushBackCapacityBound(capacity: nat, size: nat)
    requires size <= capacity
    requires capacity <= 4 || capacity <= 2 * size - 2
    ensures var c := GrownCapacity(capacity, size + 1);
      c <= 4 || c <= 2 * (size + 1) - 2
  {
  }

  /** The sequence without its element at index i. */
  function Removed<T>(s: seq<T>, i: nat): (r: seq<T>)
    requires i < |s|
    ensures |r| == |s| - 1
    ensures forall k :: 0 <= k < i ==> r[k] == s[k]
    ensures forall k :: i <= k < |r| ==> r[k] == s[k + 1]
  {
    s[..i] + s[i + 1..]
  }

  /** The sum of the areas of the elements, added up in index order. */
  function SumAreas<T>(s: seq<T>, area: T -> real): (r: real)
    ensures (forall k :: 0 <= k < |s| ==> area(s[k]) >= 0.0) ==> r >= 0.0
  {
    if |s| == 0 then 0.0 else SumAreas(s[..|s| - 1], area) + area(s[|s| - 1])
  }

  /** Summing over two halves adds the two sums. */
  lemma {:induction false} SumAreasConcat<T>(s: seq<T>, t: seq<T>, area: T -> real)
    ensures SumAreas(s + t, area) == SumAreas(s, area) + SumAreas(t, area)
    decreases |t|
  {
    if |t| == 0 {
      assert s + t == s;
    } else {
      var t' := t[..|t| - 1];
      assert (s + t)[..|s + t| - 1] == s + t';
      SumAreasConcat(s, t', area);
    }
  }

  /** Areas are never negative, so neither is their sum. */
  lemma {:induction false} SumAreasNonNegative<T>(s: seq<T>, area: T -> real)
    requires forall v :: area(v) >= 0.0
    ensures SumAreas(s, area) >= 0.0
    decreases |s|
  {
    if |s| > 0 {
      SumAreasNonNegative(s[..|s| - 1], area);
    }
  }

  /** Erasing an element takes exactly its area off the sum. */
  lemma SumAreasRemoved<T>(s: seq<T>, i: nat, area: T -> real)
    requires i < |s|
    ensures SumAreas(Removed(s, i), area) == SumAreas(s, area) - area(s[i])
  {
    var before, here, after := s[..i], [s[i]], s[i + 1..];
    assert Removed(s, i) == before + after;
    assert s == (before + here) + after;
    SumAreasConcat(before + here, after, area);
    SumAreasConcat(before, here, area);
    SumAreasConcat(before, after, area);
    assert SumAreas(here, area) == area(s[i]) by {
      assert here[..0] == [];
    }
  }

  /** One line of `printAll`: the index, the element's text and its area. */
  function EntryLine<T>(i: nat, v: T, text: Option<T -> seq<Token>>, area: Option<T -> real>): (line: seq<Token>)
    ensures |line| >= 3 && line[0] == Count(i) && line[|line| - 1] == Str("\n")
  {
    [Count(i), Str(": ")]
    + (if text.Some? then text.value(v) else [Str("<no-print>")])
    + (if area.Some? then [Str(" Area = "), Num(area.value(v))] else [])
    + [Str("\n")]
  }

  /** The numbers on a line are the element's printed numbers followed by its area. */
  lemma EntryLineNumbers<T>(i: nat, v: T, text: T -> seq<Token>, area: T -> real)
    ensures Numbers(EntryLine(i, v, Some(text), Some(area))) == Numbers(text(v)) + [area(v)]
  {
    var head, tail := [Count(i), Str(": ")], [Str(" Area = "), Num(area(v))];
    assert EntryLine(i, v, Some(text), Some(area)) == head + text(v) + tail + [Str("\n")];
    NumbersAppend(head + text(v) + tail, [Str("\n")]);
    NumbersAppend(head + text(v), tail);
    NumbersAppend(head, text(v));
    assert Numbers(tail) == [area(v)] by {
      assert tail[1..] == [Num(area(v))];
      assert tail[1..][1..] == [];
    }
  }

  /** A line of `printCenters`: the index and the centre as "(x, y)", or "<no center>". */
  function CenterLine<T>(i: nat, v: T, center: Option<T -> Point>): (line: seq<Token>)
    ensures |line| >= 3 && line[0] == Count(i) && line[|line| - 1] == Str("\n")
  {
    [Count(i), Str(": ")]
    + (if center.Some? then Points.Text(center.value(v)) else [Str("<no center>")])
    + [Str("\n")]
  }

  /** The numbers on a centre line are the two coordinates of the centre. */
  lemma CenterLineNumbers<T>(i: nat, v: T, center: T -> Point)
    ensures Numbers(CenterLine(i, v, Some(center))) == [center(v).x, center(v).y]
  {
    var head := [Count(i), Str(": ")];
    NumbersAppend(head + Points.Text(center(v)), [Str("\n")]);
    NumbersAppend(head, Points.Text(center(v)));
  }

  class Array<T(0)> {
    var size: nat
    var capacity: nat
    var data: array<T>

    /** The buffer has `capacity` slots, of which the first `size` are in use. */
    ghost predicate Valid()
      reads this
    {
      data.Length == capacity && size <= capacity
    }

    /** The elements, in index order. */
    ghost function Elements(): seq<T>
      reads this, data
      requires Valid()
    {
      data[..size]
    }

    /** The default constructor: empty, with no buffer. */
    constructor ()
      ensures Valid() && Elements() == [] && capacity == 0 && fresh(data)
    {
      size, capacity := 0, 0;
      data := new T[0];
    }

    /**
     * The move constructor: takes over the source's buffer, size and
     * capacity, and leaves the source empty with capacity 0.
     */
    constructor Take(other: Array<T>)
      requires other.Valid()
      modifies other
      ensures Valid() && size == old(other.size) && capacity == old(other.capacity)
      ensures data == old(other.data) && Elements() == old(other.Elements())
      ensures other.Valid() && other.size == 0 && other.capacity == 0 && other.Elements() == []
      ensures fresh(other.data)
    {
      size, capacity, data := other.size, other.capacity, other.data;
      new;
      other.size, other.capacity := 0, 0;
      other.data := new T[0];
    }

    /**
     * Move assignment: as the move constructor, except that moving an
     * array onto itself changes nothing.
     */
    method MoveFrom(other: Array<T>)
      requires Valid() && other.Valid()
      modifies this, other
      ensures Valid() && other.Valid()
      ensures other == this ==> size == old(size) && capacity == old(capacity) && data == old(data)
      ensures other != this ==> size == old(other.size) && capacity == old(other.capacity) && data == old(other.data)
      ensures other != this ==> Elements() == old(other.Elements())
      ensures other != this ==> other.size == 0 && other.capacity == 0 && fresh(other.data)
    {
      if other != this {
        size, capacity, data := other.size, other.capacity, other.data;
        other.size, other.capacity := 0, 0;
        other.data := new T[0];
      }
    }

    /** `ensure_capacity`: grows the buffer to `GrownCapacity`, moving the elements over. */
    method EnsureCapacity(need: nat)
      requires Valid()
      modifies this
      ensures Valid() && size == old(size) && Elements() == old(Elements())
      ensures capacity == GrownCapacity(old(capacity), need)
      ensures old(capacity) >= need ==> data == old(data)
      ensures old(capacity) < need ==> fresh(data)
    {
      if capacity >= need {
        return;
      }
      var newCap := if capacity != 0 then capacity * 2 else 4;
      if newCap < need {
        newCap := need;
      }
      var tmp := new T[newCap];
      var i := 0;
      while i < size
        invariant 0 <= i <= size
        invariant tmp[..i] == data[..i]
        modifies tmp
      {
        tmp[i] := data[i];
        i := i + 1;
      }
      data := tmp;
      capacity := newCap;
    }

    /** `size()`. */
    function Size(): (n: nat)
      reads this, data
      requires Valid()
      ensures n == |Elements()|
    {
      size
    }

    /** `empty()`. */
    function IsEmpty(): (r: bool)
      reads this, data
      requires Valid()
      ensures r <==> Elements() == []
    {
      size == 0
    }

    /** `operator[]` read: the element at i, or `out_of_range` past the end. */
    function At(i: nat): (r: Result<T, ArrayError>)
      reads this, data
      requires Valid()
      ensures r.Ok? <==> i < |Elements()|
      ensures r.Ok? ==> r.value == Elements()[i]
      ensures r.Err? ==> r.error == OutOfRange
    {
      if i >= size then Err(OutOfRange) else Ok(data[i])
    }

    /**
     * `operator[]` used as an lvalue: stores v at index i, or throws
     * `out_of_range` and changes nothing.
     */
    method Put(i: nat, v: T) returns (outcome: Outcome<ArrayError>)
      requires Valid()
      modifies data
      ensures Valid()
      ensures outcome == Pass <==> i < old(size)
      ensures outcome == Pass ==> Elements() == old(Elements())[i := v]
      ensures outcome != Pass ==> outcome == Fail(OutOfRange) && Elements() == old(Elements())
    {
      if i >= size {
        return Fail(OutOfRange);
      }
      data[i] := v;
      outcome := Pass;
    }

    /** `push_back`: appends v, growing the buffer when it is full. */
    method PushBack(v: T)
      requires Valid()
      modifies this, data
      ensures Valid()
      ensures Elements() == old(Elements()) + [v]
      ensures capacity == GrownCapacity(old(capacity), old(size) + 1)
      ensures data == old(data) || fresh(data)
    {
      EnsureCapacity(size + 1);
      data[size] := v;
      size := size + 1;
    }

    /**
     * `erase`: removes the element at idx by shifting the later ones one
     * slot left; past the end it throws `out_of_range` and changes nothing.
     * The capacity never changes.
     */
    method Erase(idx: nat) returns (outcome: Outcome<ArrayError>)
      requires Valid()
      modifies this, data
      ensures Valid() && capacity == old(capacity) && data == old(data)
      ensures outcome == Pass <==> idx < old(size)
      ensures outcome == Pass ==> idx < |old(Elements())| && Elements() == Removed(old(Elements()), idx)
      ensures outcome != Pass ==> outcome == Fail(OutOfRange) && size == old(size) && Elements() == old(Elements())
    {
      if idx >= size {
        return Fail(OutOfRange);
      }
      var i := idx;
      while i + 1 < size
        invariant idx <= i < size
        invariant data[..idx] == old(data[..idx])
        invariant forall k :: idx <= k < i ==> data[k] == old(data[k + 1])
        invariant forall k :: i <= k < size ==> data[k] == old(data[k])
        modifies data
      {
        data[i] := data[i + 1];
        i := i + 1;
      }
      size := size - 1;
      outcome := Pass;
      assert Elements() == Removed(old(Elements()), idx);
    }

    /** `clear`: forgets the elements and keeps the buffer. */
    method Clear()
      requires Valid()
      modifies this
      ensures Valid() && Elements() == [] && capacity == old(capacity) && data == old(data)
    {
      size := 0;
    }

    /**
     * `totalArea`: the areas of the elements added up in index order, or 0
     * when the element type has no area.
     */
    method TotalArea(area: Option<T -> real>) returns (sum: real)
      requires Valid()
      ensures area.Some? ==> sum == SumAreas(Elements(), area.value)
      ensures area.None? ==> sum == 0.0
    {
      sum := 0.0;
      var i := 0;
      while i < size
        invariant 0 <= i <= size
        invariant area.Some? ==> sum == SumAreas(data[..i], area.value)
        invariant area.None? ==> sum == 0.0
      {
        if area.Some? {
          assert data[..i + 1][..i] == data[..i];
          sum := sum + area.value(data[i]);
        }
        i := i + 1;
      }
    }

    /**
     * `printAll`: "[Empty]" for an empty array, otherwise one line per
     * element with its index, its printed form ("<no-print>" without one)
     * and, when it has one, its area.
     */
    method PrintAll(text: Option<T -> seq<Token>>, area: Option<T -> real>) returns (lines: seq<seq<Token>>)
      requires Valid()
      ensures size == 0 ==> lines == [[Str("[Empty]\n")]]
      ensures size > 0 ==> |lines| == size
      ensures size > 0 ==> forall i :: 0 <= i < |lines| ==> lines[i] == EntryLine(i, Elements()[i], text, area)
    {
      if size == 0 {
        return [[Str("[Empty]\n")]];
      }
      lines := [];
      var i := 0;
      while i < size
        invariant 0 <= i <= size
        invariant |lines| == i
        invariant forall k :: 0 <= k < i ==> lines[k] == EntryLine(k, data[k], text, area)
      {
        lines := lines + [EntryLine(i, data[i], text, area)];
        i := i + 1;
      }
    }

    /**
     * `printCenters`: "Empty" for an empty array, otherwise one line per
     * element with its index and centre ("<no center>" without one).
     */
    method PrintCenters(center: Option<T -> Point>) returns (lines: seq<seq<Token>>)
      requires Valid()
      ensures size == 0 ==> lines == [[Str("Empty\n")]]
      ensures size > 0 ==> |lines| == size
      ensures size > 0 ==> forall i :: 0 <= i < |lines| ==> lines[i] == CenterLine(i, Elements()[i], center)
    {
      if size == 0 {
        return [[Str("Empty\n")]];
      }
      lines := [];
      var i := 0;
      while i < size
        invariant 0 <= i <= size
        invariant |lines| == i
        invariant forall k :: 0 <= k < i ==> lines[k] == CenterLine(k, data[k], center)
      {
        lines := lines + [CenterLine(i, data[i], center)];
        i := i + 1;
      }
    }
  }

  /** An array of figures reports, on each `printAll` line, the corners and then the area. */
  lemma FigureLineNumbers(i: nat, f: Figures.Figure)
    ensures Numbers(EntryLine(i, f, Some(Figures.Print), Some(Figures.Area)))
         == Quads.Coordinates(f.corners) + [Figures.Area(f)]
  {
    EntryLineNumbers(i, f, Figures.Print, Figures.Area);
  }
}
