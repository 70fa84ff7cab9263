/** Two-dimensional vectors: pure arithmetic and the `Vector` object with its optional clamp. */
module Vectors {
  import opened Wrappers
  import Helpers

  datatype Vec2 = Vec2(x: real, y: real)

  const Zero := Vec2(0.0, 0.0)

  function Plus(a: Vec2, b: Vec2): Vec2 { Vec2(a.x + b.x, a.y + b.y) }

  function Minus(a: Vec2, b: Vec2): Vec2 { Vec2(a.x - b.x, a.y - b.y) }

  function Times(a: Vec2, k: real): Vec2 { Vec2(a.x * k, a.y * k) }

  function DotProduct(a: Vec2, b: Vec2): real { a.x * b.x + a.y * b.y }

  /** Subtraction undoes addition, and addition undoes subtraction. */
  lemma SubtractUndoesAdd(a: Vec2, b: Vec2)
    ensures Minus(Plus(a, b), b) == a
    ensures Plus(Minus(a, b), b) == a
  {
  }

  /** Addition is commutative and associative, with `Zero` as its identity. */
  lemma AddLaws(a: Vec2, b: Vec2, c: Vec2)
    ensures Plus(a, b) == Plus(b, a)
    ensures Plus(Plus(a, b), c) == Plus(a, Plus(b, c))
    ensures Plus(a, Zero) == a
  {
  }

  /** The dot product is symmetric and bilinear. */
  lemma DotLaws(a: Vec2, b: Vec2, c: Vec2, k: real)
    ensures DotProduct(a, b) == DotProduct(b, a)
    ensures DotProduct(Plus(a, b), c) == DotProduct(a, c) + DotProduct(b, c)
    ensures DotProduct(Times(a, k), b) == k * DotProduct(a, b)
  {
    assert a.x * k * b.x + a.y * k * b.y == k * (a.x * b.x + a.y * b.y);
  }

  /** Scaling distributes over addition. */
  lemma ScaleDistributes(a: Vec2, b: Vec2, k: real)
    ensures Times(Plus(a, b), k) == Plus(Times(a, k), Times(b, k))
  {
  }

  /** The box installed by `clamp(xMin, yMin, xMax, yMax)`. */
  datatype Bounds = Bounds(xMin: real, yMin: real, xMax: real, yMax: real)
  {
    predicate NonEmpty() { xMin <= xMax && yMin <= yMax }
    predicate Contains(v: Vec2) { xMin <= v.x <= xMax && yMin <= v.y <= yMax }
  }

  /** What the clamping setters store when `v` is assigned component by component. */
  function ClampTo(bounds: Option<Bounds>, v: Vec2): (r: Vec2)
    ensures bounds.None? ==> r == v
    ensures bounds.Some? && bounds.value.NonEmpty() ==> bounds.value.Contains(r)
    ensures bounds.Some? && bounds.value.Contains(v) ==> r == v
  {
    match bounds
    case None => v
    case Some(b) => Vec2(Helpers.Clamp(b.xMin, b.xMax, v.x), Helpers.Clamp(b.yMin, b.yMax, v.y))
  }

  /** Assigning an already clamped value changes nothing. */
  lemma ClampToIdempotent(bounds: Option<Bounds>, v: Vec2)
    requires bounds.Some? ==> bounds.value.NonEmpty()
    ensures ClampTo(bounds, ClampTo(bounds, v)) == ClampTo(bounds, v)
  {
  }

  /** The clamp example: box x in [0, 50], y in [10, 75]. */
  lemma ClampExamples()
    ensures ClampTo(Some(Bounds(0.0, 10.0, 50.0, 75.0)), Vec2(-10.0, -10.0)) == Vec2(0.0, 10.0)
    ensures ClampTo(Some(Bounds(0.0, 10.0, 50.0, 75.0)), Vec2(100.0, 100.0)) == Vec2(50.0, 75.0)
    ensures ClampTo(Some(Bounds(0.0, 10.0, 50.0, 75.0)), Plus(Vec2(10.0, 20.0), Vec2(100.0, 100.0))) == Vec2(50.0, 75.0)
  {
  }

  /**
   * A vector object. Once `clamp` has been called, every later assignment to
   * `x` or `y` goes through the clamping setter; the current values are not
   * re-clamped by `clamp` itself.
   */
  class Vector {
    var x: real
    var y: real
    var bounds: Option<Bounds>

    function Value(): Vec2
      reads this
    {
      Vec2(x, y)
    }

    /** `Vector(x, y)`. */
    constructor (x0: real, y0: real)
      ensures Value() == Vec2(x0, y0) && bounds.None?
    {
      x, y, bounds := x0, y0, None;
    }

    /** `Vector({x, y})`: the same vector as `Vector(x, y)`. */
    constructor FromPoint(p: Vec2)
      ensures Value() == p && bounds.None?
    {
      x, y, bounds := p.x, p.y, None;
    }

    /** The vector built by `add` and `subtract`: it copies the clamp of `source` before assigning. */
    constructor Derived(p: Vec2, source: Option<Bounds>)
      ensures bounds == source && Value() == ClampTo(source, p)
    {
      bounds := source;
      var q := ClampTo(source, p);
      x, y := q.x, q.y;
    }

    /** The `x` setter. */
    method SetX(v: real)
      modifies this`x
      ensures x == ClampTo(bounds, Vec2(v, y)).x
    {
      x := ClampTo(bounds, Vec2(v, y)).x;
    }

    /** The `y` setter. */
    method SetY(v: real)
      modifies this`y
      ensures y == ClampTo(bounds, Vec2(x, v)).y
    {
      y := ClampTo(bounds, Vec2(x, v)).y;
    }

    /** `set(vec)`: assigns both components through the setters. */
    method Set(p: Vec2)
      modifies this`x, this`y
      ensures Value() == ClampTo(bounds, p)
    {
      SetX(p.x);
      SetY(p.y);
    }

    /** `clamp(xMin, yMin, xMax, yMax)`: installs the box for later assignments. */
    method Clamp(xMin: real, yMin: real, xMax: real, yMax: real)
      modifies this`bounds
      ensures bounds == Some(Bounds(xMin, yMin, xMax, yMax))
      ensures Value() == old(Value())
    {
      bounds := Some(Bounds(xMin, yMin, xMax, yMax));
    }

    /** `add(vec)`: a new vector carrying this vector's clamp; neither operand changes. */
    method Add(other: Vector) returns (r: Vector)
      ensures fresh(r) && r.bounds == bounds
      ensures r.Value() == ClampTo(bounds, Plus(Value(), other.Value()))
    {
      r := new Vector.Derived(Plus(Value(), other.Value()), bounds);
    }

    /** `subtract(vec)`: like `add`, with the componentwise difference. */
    method Subtract(other: Vector) returns (r: Vector)
      ensures fresh(r) && r.bounds == bounds
      ensures r.Value() == ClampTo(bounds, Minus(Value(), other.Value()))
    {
      r := new Vector.Derived(Minus(Value(), other.Value()), bounds);
    }

    /** `scale(k)`: a new, unclamped vector. */
    method Scale(k: real) returns (r: Vector)
      ensures fresh(r) && r.bounds.None?
      ensures r.Value() == Times(Value(), k)
    {
      r := new Vector(x * k, y * k);
    }

    /** `dot(vec)`. */
    function Dot(other: Vector): real
      reads this, other
    {
      DotProduct(Value(), other.Value())
    }
  }

  /** The asserted results: (10,20)+(5,10), (10,20)-(5,10), (5,10)*2 and the dot product 250. */
  lemma ArithmeticExamples()
    ensures Plus(Vec2(10.0, 20.0), Vec2(5.0, 10.0)) == Vec2(15.0, 30.0)
    ensures Minus(Vec2(10.0, 20.0), Vec2(5.0, 10.0)) == Vec2(5.0, 10.0)
    ensures Times(Vec2(5.0, 10.0), 2.0) == Vec2(10.0, 20.0)
    ensures DotProduct(Vec2(10.0, 20.0), Vec2(5.0, 10.0)) == 250.0
  {
  }
}
