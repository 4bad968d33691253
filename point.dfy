/**
 * Points in the plane (include/point.h).
 *
 * `Point<T>` is instantiated with `double` everywhere in the program; the
 * model uses exact `real` coordinates, so the tolerance of `operator==`
 * (1e-9) becomes exact equality. Integer coordinates, where `operator/`
 * truncates, are modelled separately by `IntPoint`.
 */
module Points {

  datatype Point = Point(x: real, y: real)

  /** The default-constructed point: both coordinates value-initialised. */
  function Origin(): (o: Point)
    ensures forall p :: Add(o, p) == p && Add(p, o) == p
  {
    Point(0.0, 0.0)
  }

  /** `operator+`: component-wise sum. */
  function Add(p: Point, q: Point): (r: Point)
    // the zero vector, and only it, leaves a point where it is
    ensures r == p <==> q == Point(0.0, 0.0)
  {
    Point(p.x + q.x, p.y + q.y)
  }

  /** `operator-`: component-wise difference. */
  function Sub(p: Point, q: Point): (r: Point)
    ensures r == Point(0.0, 0.0) <==> p == q
  {
    Point(p.x - q.x, p.y - q.y)
  }

  /** `operator/` for `double` coordinates: both components divided by `d`. */
  function Div(p: Point, d: real): (r: Point)
    requires d != 0.0
    // scaling the quotient back by d restores the point
    ensures Point(r.x * d, r.y * d) == p
  {
    Point(p.x / d, p.y / d)
  }

  /** `operator==`: both coordinate differences are (exactly) zero. */
  predicate Equal(p: Point, q: Point)
    ensures Equal(p, q) <==> p == q
  {
    p.x - q.x == 0.0 && p.y - q.y == 0.0
  }

  /** The cross product of two vectors: zero exactly when they are parallel. */
  function Cross(u: Point, v: Point): real {
    u.x * v.y - u.y * v.x
  }

  /** The dot product of two vectors. */
  function Dot(u: Point, v: Point): real {
    u.x * v.x + u.y * v.y
  }

  function Square(r: real): real {
    r * r
  }

  /** The squared Euclidean distance between two points. */
  function SqDist(p: Point, q: Point): (r: real)
    ensures r >= 0.0
    ensures r == 0.0 <==> p == q
  {
    SquareSign(p.x - q.x);
    SquareSign(p.y - q.y);
    Square(p.x - q.x) + Square(p.y - q.y)
  }

  /** A square is never negative, and positive unless its root is zero. */
  lemma SquareSign(a: real)
    ensures Square(a) >= 0.0
    ensures a != 0.0 ==> Square(a) > 0.0
  {
    if a > 0.0 {
      ProductPositive(a, a, Square(a));
    } else if a < 0.0 {
      ProductPositive(-a, -a, Square(a));
    }
  }

  /**
   * The product of two positive numbers is positive. The product is passed
   * in as `r` so that callers can instantiate `a` and `b` with the same
   * term and still obtain the strict sign of a square.
   */
  lemma ProductPositive(a: real, b: real, r: real)
    requires r == a * b && a > 0.0 && b > 0.0
    ensures r > 0.0
  {
  }

  /** Distance does not depend on the order of the two points. */
  lemma SqDistSymmetric(p: Point, q: Point)
    ensures SqDist(p, q) == SqDist(q, p)
  {
    assert Square(p.x - q.x) == Square(q.x - p.x);
    assert Square(p.y - q.y) == Square(q.y - p.y);
  }

  /** Subtraction undoes addition and addition undoes subtraction. */
  lemma AddSubInverse(p: Point, q: Point)
    ensures Add(Sub(p, q), q) == p
    ensures Sub(Add(p, q), q) == p
  {
  }

  /** `operator==` is value equality, hence reflexive, symmetric and transitive. */
  lemma EqualIsIdentity(p: Point, q: Point)
    ensures Equal(p, q) <==> p == q
    ensures Equal(p, p)
    ensures Equal(p, q) ==> Equal(q, p)
  {
  }

  /** Dividing the sum of `n` copies of a point by `n` gives back the point. */
  lemma DivUndoesRepeatedAdd(p: Point)
    ensures Div(Add(p, p), 2.0) == p
    ensures Div(Add(Add(Add(p, p), p), p), 4.0) == p
  {
  }

  // ---------------------------------------------------------------------
  // Integer coordinates: `static_cast<T>(x / d)` truncates toward zero.
  // ---------------------------------------------------------------------

  datatype IntPoint = IntPoint(x: int, y: int)

  function IntAbs(n: int): nat {
    if n < 0 then -n else n
  }

  /**
   * The quotient `x / d` truncated toward zero, as a cast from a
   * floating-point quotient to an integer type produces it (for
   * quotients that fit the integer type).
   */
  function TruncDiv(x: int, d: int): (q: int)
    requires d != 0
    ensures 0 <= x ==> 0 <= x - q * d < IntAbs(d)
    ensures x < 0 ==> 0 <= q * d - x < IntAbs(d)
  {
    var m := IntAbs(x) / IntAbs(d);
    var q := if (x < 0) == (d < 0) then m else -m;
    TruncDivRemainder(x, d, m, q);
    q
  }

  /** The remainder left by the truncated quotient, from Euclidean division of magnitudes. */
  lemma TruncDivRemainder(x: int, d: int, m: int, q: int)
    requires d != 0 && m == IntAbs(x) / IntAbs(d)
    requires q == if (x < 0) == (d < 0) then m else -m
    ensures 0 <= x ==> 0 <= x - q * d < IntAbs(d)
    ensures x < 0 ==> 0 <= q * d - x < IntAbs(d)
  {
    var ad := IntAbs(d);
    var r := IntAbs(x) % ad;
    assert IntAbs(x) == m * ad + r && 0 <= r < ad;
    if d > 0 {
      assert q * d == (if x < 0 then -(m * ad) else m * ad);
    } else {
      assert ad == -d;
      if x < 0 {
        assert q * d == m * d == -(m * ad);
      } else {
        assert q * d == (-m) * d == m * ad;
      }
    }
  }

  /** `operator/` for integer coordinates. */
  function DivInt(p: IntPoint, d: int): (r: IntPoint)
    requires d != 0
    // each coordinate is truncated toward zero: the remainder has the dividend's sign and is below |d|
    ensures 0 <= p.x ==> 0 <= p.x - r.x * d < IntAbs(d)
    ensures p.x < 0 ==> 0 <= r.x * d - p.x < IntAbs(d)
    ensures 0 <= p.y ==> 0 <= p.y - r.y * d < IntAbs(d)
    ensures p.y < 0 ==> 0 <= r.y * d - p.y < IntAbs(d)
  {
    IntPoint(TruncDiv(p.x, d), TruncDiv(p.y, d))
  }

  /**
   * Truncation is symmetric about zero, unlike Euclidean division: negating
   * the dividend negates the quotient.
   */
  lemma TruncDivOdd(x: int, d: int)
    requires d != 0
    ensures TruncDiv(-x, d) == -TruncDiv(x, d)
  {
    assert IntAbs(-x) == IntAbs(x);
    if x == 0 {
      assert IntAbs(x) / IntAbs(d) == 0;
    }
  }

  /** Where the division is exact, nothing is lost. */
  lemma DivIntExact(p: IntPoint, d: int, k: IntPoint)
    requires d != 0
    requires p == IntPoint(k.x * d, k.y * d)
    ensures DivInt(p, d) == k
  {
    TruncDivExact(k.x, d);
    TruncDivExact(k.y, d);
  }

  lemma TruncDivExact(k: int, d: int)
    requires d != 0
    ensures TruncDiv(k * d, d) == k
  {
    var q := TruncDiv(k * d, d);
    var e := k - q;
    assert k * d - q * d == e * d;
    if e != 0 {
      NonzeroMultiple(e, d);
      assert false;
    }
  }

  /** A non-zero multiple of `d` is at least `|d|` away from zero. */
  lemma NonzeroMultiple(e: int, d: int)
    requires e != 0 && d != 0
    ensures e * d >= IntAbs(d) || e * d <= -(IntAbs(d) as int)
  {
    if e > 0 {
      assert e * d == (e - 1) * d + d;
      if d > 0 { assert (e - 1) * d >= 0; } else { assert (e - 1) * d <= 0; }
    } else {
      assert e * d == (e + 1) * d - d;
      if d > 0 { assert (e + 1) * d <= 0; } else { assert (e + 1) * d >= 0; }
    }
  }

  // ---------------------------------------------------------------------
  // Text output. The formatting of a `double` by `std::ostream` is not
  // modelled: a printed number is the token `Num(v)`.
  // ---------------------------------------------------------------------

  /** One piece of written output: literal text, a floating-point value or a count. */
  datatype Token = Str(s: string) | Num(v: real) | Count(n: nat)

  /** The numbers in a piece of output, in the order they are written. */
  function Numbers(ts: seq<Token>): seq<real> {
    if ts == [] then []
    else (if ts[0].Num? then [ts[0].v] else []) + Numbers(ts[1..])
  }

  /** The numbers of two pieces of output written one after the other. */
  lemma {:induction false} NumbersAppend(s: seq<Token>, t: seq<Token>)
    ensures Numbers(s + t) == Numbers(s) + Numbers(t)
  {
    if s == [] {
      assert s + t == t;
    } else {
      var head := if s[0].Num? then [s[0].v] else [];
      assert (s + t)[0] == s[0];
      assert (s + t)[1..] == s[1..] + t;
      assert Numbers(s + t) == head + Numbers(s[1..] + t);
      NumbersAppend(s[1..], t);
      assert Numbers(s) == head + Numbers(s[1..]);
    }
  }

  /** `operator<<`: the text form `(x, y)`. */
  function Text(p: Point): (ts: seq<Token>)
    ensures Numbers(ts) == [p.x, p.y]
    ensures ts[0] == Str("(") && ts[|ts| - 1] == Str(")")
  {
    var ts := [Str("("), Num(p.x), Str(", "), Num(p.y), Str(")")];
    // two unfoldings of Numbers, from the end, that the verifier does not take by itself
    assert Numbers(ts[4..]) == [];
    assert Numbers(ts[2..]) == [p.y];
    ts
  }
}
