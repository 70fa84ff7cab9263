/** The collision helpers: `getWorldRect`, `collides` and `depthSort`. */
module Geometry {
  import opened Wrappers
  import opened Vectors
  import opened Numbers

  /** An axis-aligned rectangle, top-left corner and size. */
  datatype Rect = Rect(x: real, y: real, width: real, height: real)

  /** Rectangular objects have a width and height; circular ones a radius per axis. */
  datatype Shape = Box(width: real, height: real) | Circle(rx: real, ry: real)

  /** The fields `getWorldRect` reads from an object's `world`, or from the object itself. */
  datatype Frame = Frame(x: real, y: real, shape: Shape, scaleX: real, scaleY: real)

  /**
   * An object given to the helpers: its own fields, its `world` sub-state when
   * it has one, its anchor, and the map size in pixels when it is a tile engine.
   */
  datatype Entity = Entity(own: Frame, world: Option<Frame>, anchor: Vec2, mapSize: Option<Vec2>)

  /** A plain object `{x, y, width, height}` without world state, anchor or scale. */
  function Plain(x: real, y: real, width: real, height: real): Entity
  {
    Entity(Frame(x, y, Box(width, height), 1.0, 1.0), None, Zero, None)
  }

  /** `obj.world || obj`. */
  function Source(e: Entity): Frame
  {
    if e.world.Some? then e.world.value else e.own
  }

  /** The signed extent before flips: the map size of a tile engine, twice the radius of a circle, else width and height. */
  function Extent(e: Entity): Vec2
  {
    if e.mapSize.Some? && e.mapSize.value.x != 0.0 then e.mapSize.value
    else match Source(e).shape
      case Box(w, h) => Vec2(w, h)
      case Circle(rx, ry) => Vec2(2.0 * rx, 2.0 * ry)
  }

  /** The position moved back by anchor times extent. */
  function AnchoredOrigin(e: Entity): Vec2
  {
    var f, s := Source(e), Extent(e);
    Vec2(f.x - s.x * e.anchor.x, f.y - s.y * e.anchor.y)
  }

  /**
   * `getWorldRect(obj)`: the rectangle spanned by the anchored origin and the
   * signed extent. A negative extent (a negative scale) yields the same span
   * with a non-negative size and the origin moved to its other end.
   */
  function GetWorldRect(e: Entity): (r: Rect)
    ensures r.width >= 0.0 && r.height >= 0.0
    ensures r.x == Min(AnchoredOrigin(e).x, AnchoredOrigin(e).x + Extent(e).x)
    ensures r.x + r.width == Max(AnchoredOrigin(e).x, AnchoredOrigin(e).x + Extent(e).x)
    ensures r.y == Min(AnchoredOrigin(e).y, AnchoredOrigin(e).y + Extent(e).y)
    ensures r.y + r.height == Max(AnchoredOrigin(e).y, AnchoredOrigin(e).y + Extent(e).y)
  {
    var o, s := AnchoredOrigin(e), Extent(e);
    var x, width := if s.x < 0.0 then o.x + s.x else o.x, if s.x < 0.0 then -s.x else s.x;
    var y, height := if s.y < 0.0 then o.y + s.y else o.y, if s.y < 0.0 then -s.y else s.y;
    Rect(x, y, width, height)
  }

  /** With a non-negative extent the rectangle is the anchored origin and the extent unchanged. */
  lemma WorldRectOfNonNegativeExtent(e: Entity)
    requires Extent(e).x >= 0.0 && Extent(e).y >= 0.0
    ensures GetWorldRect(e) == Rect(AnchoredOrigin(e).x, AnchoredOrigin(e).y, Extent(e).x, Extent(e).y)
  {
  }

  /** The `world` sub-state, when present, decides the rectangle; the object's own fields are ignored. */
  lemma WorldRectPrefersWorld(e: Entity, own: Frame)
    requires e.world.Some?
    ensures GetWorldRect(e) == GetWorldRect(e.(own := own))
  {
    var e' := e.(own := own);
    assert Source(e') == Source(e);
    assert Extent(e') == Extent(e);
    assert AnchoredOrigin(e') == AnchoredOrigin(e);
  }

  /** The asserted rectangles: plain, circle, anchored, world sub-state, negative scale and tile engine. */
  lemma WorldRectExamples()
    ensures GetWorldRect(Plain(40.0, 40.0, 10.0, 10.0)) == Rect(40.0, 40.0, 10.0, 10.0)
    ensures GetWorldRect(Entity(Frame(40.0, 40.0, Circle(5.0, 5.0), 1.0, 1.0), None, Zero, None)) == Rect(40.0, 40.0, 10.0, 10.0)
    ensures GetWorldRect(Plain(40.0, 40.0, 10.0, 10.0).(anchor := Vec2(0.5, 0.5))) == Rect(35.0, 35.0, 10.0, 10.0)
    ensures GetWorldRect(Plain(40.0, 40.0, 10.0, 10.0).(anchor := Vec2(1.0, 1.0))) == Rect(30.0, 30.0, 10.0, 10.0)
    ensures GetWorldRect(Plain(40.0, 40.0, 10.0, 10.0).(world := Some(Frame(10.0, 20.0, Box(20.0, 30.0), 1.0, 1.0))))
         == Rect(10.0, 20.0, 20.0, 30.0)
    ensures GetWorldRect(Entity(Frame(40.0, 40.0, Box(10.0, 20.0), -2.0, -2.0),
                                Some(Frame(40.0, 40.0, Box(-20.0, -40.0), -2.0, -2.0)), Zero, None))
         == Rect(20.0, 0.0, 20.0, 40.0)
    ensures GetWorldRect(Plain(0.0, 0.0, 10.0, 12.0).(mapSize := Some(Vec2(320.0, 384.0)))) == Rect(0.0, 0.0, 320.0, 384.0)
  {
  }

  /** The strict axis-aligned overlap test: touching edges do not overlap. */
  predicate Overlaps(a: Rect, b: Rect)
  {
    a.x < b.x + b.width && a.x + a.width > b.x && a.y < b.y + b.height && a.y + a.height > b.y
  }

  predicate StrictlyInside(p: Vec2, r: Rect)
  {
    r.x < p.x < r.x + r.width && r.y < p.y < r.y + r.height
  }

  predicate InClosed(p: Vec2, r: Rect)
  {
    r.x <= p.x <= r.x + r.width && r.y <= p.y <= r.y + r.height
  }

  /**
   * Two rectangles of positive size overlap exactly when some point lies
   * strictly inside both. (A zero-size rectangle can still overlap: the test
   * is on the edges, not on interiors.)
   */
  lemma OverlapsIffCommonInteriorPoint(a: Rect, b: Rect)
    requires a.width > 0.0 && a.height > 0.0 && b.width > 0.0 && b.height > 0.0
    ensures Overlaps(a, b) <==> exists p :: StrictlyInside(p, a) && StrictlyInside(p, b)
  {
    if Overlaps(a, b) {
      var lx, hx := Max(a.x, b.x), Min(a.x + a.width, b.x + b.width);
      var ly, hy := Max(a.y, b.y), Min(a.y + a.height, b.y + b.height);
      assert lx < hx && ly < hy;
      var p := Vec2((lx + hx) / 2.0, (ly + hy) / 2.0);
      assert lx < p.x < hx && ly < p.y < hy;
      assert StrictlyInside(p, a) && StrictlyInside(p, b);
    }
  }

  function Centre(r: Rect): Vec2
  {
    Vec2(r.x + r.width / 2.0, r.y + r.height / 2.0)
  }

  function Dist2(p: Vec2, q: Vec2): real
  {
    (p.x - q.x) * (p.x - q.x) + (p.y - q.y) * (p.y - q.y)
  }

  /** The point of a rectangle nearest to `c`: `c` clamped into the rectangle. */
  function Nearest(c: Vec2, r: Rect): Vec2
  {
    Vec2(Max(r.x, Min(c.x, r.x + r.width)), Max(r.y, Min(c.y, r.y + r.height)))
  }

  /** `Nearest` lies in the rectangle and no point of the rectangle is closer to `c`. */
  lemma NearestIsClosest(c: Vec2, r: Rect, q: Vec2)
    requires r.width >= 0.0 && r.height >= 0.0 && InClosed(q, r)
    ensures InClosed(Nearest(c, r), r)
    ensures Dist2(c, Nearest(c, r)) <= Dist2(c, q)
  {
    var n := Nearest(c, r);
    SquareCloser(c.x, n.x, q.x);
    SquareCloser(c.y, n.y, q.y);
  }

  /** A clamped coordinate is at least as close to `c` as any coordinate in the interval. */
  lemma SquareCloser(c: real, n: real, q: real)
    requires (c <= n <= q) || (q <= n <= c) || n == c
    ensures (c - n) * (c - n) <= (c - q) * (c - q)
  {
    if c <= n <= q {
      assert 0.0 <= n - c <= q - c;
      assert (n - c) * (n - c) <= (q - c) * (n - c) <= (q - c) * (q - c);
    } else if q <= n <= c {
      assert 0.0 <= c - n <= c - q;
      assert (c - n) * (c - n) <= (c - q) * (c - n) <= (c - q) * (c - q);
    }
  }

  /** The circle inscribed in a world rectangle: its centre and the radius half the width. */
  function Radius(circle: Rect): real
  {
    circle.width / 2.0
  }

  /** Circle against rectangle: the nearest rectangle point strictly closer than the radius. */
  predicate CircleHitsRect(circle: Rect, rect: Rect)
  {
    var c := Centre(circle);
    Dist2(c, Nearest(c, rect)) < Radius(circle) * Radius(circle)
  }

  /** A circle hits a rectangle exactly when some point of the (closed) rectangle is strictly inside the circle. */
  lemma CircleHitsRectIffPointInside(circle: Rect, rect: Rect)
    requires rect.width >= 0.0 && rect.height >= 0.0
    ensures CircleHitsRect(circle, rect) <==>
            exists q :: InClosed(q, rect) && Dist2(Centre(circle), q) < Radius(circle) * Radius(circle)
  {
    var c := Centre(circle);
    var n := Nearest(c, rect);
    NearestIsClosest(c, rect, Vec2(rect.x, rect.y));
    if exists q :: InClosed(q, rect) && Dist2(c, q) < Radius(circle) * Radius(circle) {
      var q :| InClosed(q, rect) && Dist2(c, q) < Radius(circle) * Radius(circle);
      NearestIsClosest(c, rect, q);
    }
  }

  /** Circle against circle: centres no farther apart than the sum of the radii (compared squared). */
  predicate CirclesMeet(a: Rect, b: Rect)
  {
    var s := Radius(a) + Radius(b);
    Dist2(Centre(a), Centre(b)) <= s * s
  }

  predicate IsCircle(e: Entity) { Source(e).shape.Circle? }

  predicate UniformScale(e: Entity) { Source(e).scaleX == Source(e).scaleY }

  /**
   * `collides(a, b)`. A circle whose scale is not uniform never collides;
   * otherwise circles use the distance tests above and rectangles the strict
   * overlap test, all on the world rectangles.
   */
  predicate Collides(a: Entity, b: Entity)
  {
    var ra, rb := GetWorldRect(a), GetWorldRect(b);
    if (IsCircle(a) && !UniformScale(a)) || (IsCircle(b) && !UniformScale(b)) then false
    else if IsCircle(a) && IsCircle(b) then CirclesMeet(ra, rb)
    else if IsCircle(a) then CircleHitsRect(ra, rb)
    else if IsCircle(b) then CircleHitsRect(rb, ra)
    else Overlaps(ra, rb)
  }

  /** The order of the arguments does not matter. */
  lemma CollidesSymmetric(a: Entity, b: Entity)
    ensures Collides(a, b) == Collides(b, a)
  {
  }

  /** Two rectangular objects of positive size collide exactly when their world rectangles share an interior point. */
  lemma RectanglesCollideIffShareInterior(a: Entity, b: Entity)
    requires !IsCircle(a) && !IsCircle(b)
    requires GetWorldRect(a).width > 0.0 && GetWorldRect(a).height > 0.0
    requires GetWorldRect(b).width > 0.0 && GetWorldRect(b).height > 0.0
    ensures Collides(a, b) <==>
            exists p :: StrictlyInside(p, GetWorldRect(a)) && StrictlyInside(p, GetWorldRect(b))
  {
    OverlapsIffCommonInteriorPoint(GetWorldRect(a), GetWorldRect(b));
  }

  /** A circular object collides with a rectangular one exactly when some point of the rectangle is inside the circle. */
  lemma CircleCollidesIffPointInside(circle: Entity, rect: Entity)
    requires IsCircle(circle) && UniformScale(circle) && !IsCircle(rect)
    ensures Collides(circle, rect) <==>
            exists q :: InClosed(q, GetWorldRect(rect)) &&
                        Dist2(Centre(GetWorldRect(circle)), q) < Radius(GetWorldRect(circle)) * Radius(GetWorldRect(circle))
  {
    CircleHitsRectIffPointInside(GetWorldRect(circle), GetWorldRect(rect));
  }

  /** A circle that is not scaled uniformly is reported as not colliding with anything. */
  lemma NonUniformCircleNeverCollides(a: Entity, b: Entity)
    requires IsCircle(a) && !UniformScale(a)
    ensures !Collides(a, b) && !Collides(b, a)
  {
  }

  function CircleAt(x: real, y: real, r: real, scaleX: real, scaleY: real): Entity
  {
    Entity(Frame(x, y, Circle(r * scaleX, r * scaleY), scaleX, scaleY), None, Zero, None)
  }

  /** The world rectangle of a plain object is its own fields. */
  lemma PlainRect(x: real, y: real, width: real, height: real)
    requires width >= 0.0 && height >= 0.0
    ensures GetWorldRect(Plain(x, y, width, height)) == Rect(x, y, width, height)
  {
  }

  /** The world rectangle of an unscaled circle at (x, y) with radius r. */
  lemma UnscaledCircleRect(x: real, y: real, r: real)
    requires r >= 0.0
    ensures GetWorldRect(CircleAt(x, y, r, 1.0, 1.0)) == Rect(x, y, 2.0 * r, 2.0 * r)
  {
  }

  /** Two unscaled circles collide exactly when their world rectangles' circles meet. */
  lemma CollidesCircles(x: real, y: real, r: real, x': real, y': real, r': real)
    requires r >= 0.0 && r' >= 0.0
    ensures Collides(CircleAt(x, y, r, 1.0, 1.0), CircleAt(x', y', r', 1.0, 1.0)) ==
            CirclesMeet(Rect(x, y, 2.0 * r, 2.0 * r), Rect(x', y', 2.0 * r', 2.0 * r'))
  {
    UnscaledCircleRect(x, y, r);
    UnscaledCircleRect(x', y', r');
  }

  /** A plain rectangle and an unscaled circle collide exactly when the circle hits the rectangle. */
  lemma CollidesBoxCircle(x: real, y: real, width: real, height: real, cx: real, cy: real, r: real)
    requires width >= 0.0 && height >= 0.0 && r >= 0.0
    ensures Collides(Plain(x, y, width, height), CircleAt(cx, cy, r, 1.0, 1.0)) ==
            CircleHitsRect(Rect(cx, cy, 2.0 * r, 2.0 * r), Rect(x, y, width, height))
    ensures Collides(CircleAt(cx, cy, r, 1.0, 1.0), Plain(x, y, width, height)) ==
            CircleHitsRect(Rect(cx, cy, 2.0 * r, 2.0 * r), Rect(x, y, width, height))
  {
    PlainRect(x, y, width, height);
    UnscaledCircleRect(cx, cy, r);
  }

  /** The asserted rectangle results: a 1-unit overlap and containment collide, touching does not. */
  lemma RectangleCollisionExamples()
    ensures Collides(Plain(10.0, 20.0, 10.0, 20.0), Plain(19.0, 39.0, 10.0, 20.0))
    ensures Collides(Plain(10.0, 20.0, 10.0, 20.0), Plain(1.0, 1.0, 10.0, 20.0))
    ensures !Collides(Plain(10.0, 20.0, 10.0, 20.0), Plain(20.0, 40.0, 10.0, 20.0))
    ensures !Collides(Plain(10.0, 20.0, 10.0, 20.0), Plain(0.0, 0.0, 10.0, 20.0))
  {
    PlainRect(10.0, 20.0, 10.0, 20.0);
    PlainRect(19.0, 39.0, 10.0, 20.0);
    PlainRect(1.0, 1.0, 10.0, 20.0);
    PlainRect(20.0, 40.0, 10.0, 20.0);
    PlainRect(0.0, 0.0, 10.0, 20.0);
  }

  /** The asserted circle-circle results. */
  lemma CircleCollisionExamples()
    ensures Collides(CircleAt(10.0, 20.0, 5.0, 1.0, 1.0), CircleAt(10.0, 25.0, 10.0, 1.0, 1.0))
    ensures Collides(CircleAt(10.0, 20.0, 5.0, 1.0, 1.0), CircleAt(19.0, 20.0, 10.0, 1.0, 1.0))
    ensures Collides(CircleAt(10.0, 20.0, 5.0, 1.0, 1.0), CircleAt(1.0, 1.0, 10.0, 1.0, 1.0))
    ensures !Collides(CircleAt(10.0, 20.0, 5.0, 1.0, 1.0), CircleAt(20.0, 20.0, 10.0, 1.0, 1.0))
    ensures !Collides(CircleAt(10.0, 20.0, 5.0, 1.0, 1.0), CircleAt(0.0, 0.0, 10.0, 1.0, 1.0))
    ensures !Collides(CircleAt(10.0, 20.0, 5.0, 2.0, 1.0), CircleAt(10.0, 25.0, 10.0, 1.0, 1.0))
  {
    CircleHitExamples();
    CircleMissExamples();
  }

  /** The circle of radius 5 at (10, 20) meets the circle of radius 10 at (10, 25), (19, 20) and (1, 1). */
  lemma CircleHitExamples()
    ensures Collides(CircleAt(10.0, 20.0, 5.0, 1.0, 1.0), CircleAt(10.0, 25.0, 10.0, 1.0, 1.0))
    ensures Collides(CircleAt(10.0, 20.0, 5.0, 1.0, 1.0), CircleAt(19.0, 20.0, 10.0, 1.0, 1.0))
    ensures Collides(CircleAt(10.0, 20.0, 5.0, 1.0, 1.0), CircleAt(1.0, 1.0, 10.0, 1.0, 1.0))
  {
    CollidesCircles(10.0, 20.0, 5.0, 10.0, 25.0, 10.0);
    CollidesCircles(10.0, 20.0, 5.0, 19.0, 20.0, 10.0);
    CollidesCircles(10.0, 20.0, 5.0, 1.0, 1.0, 10.0);
    assert Dist2(Vec2(15.0, 25.0), Vec2(20.0, 35.0)) == 125.0;
    assert Dist2(Vec2(15.0, 25.0), Vec2(29.0, 30.0)) == 221.0;
    assert Dist2(Vec2(15.0, 25.0), Vec2(11.0, 11.0)) == 212.0;
  }

  /** At (20, 20) and (0, 0) it misses, and scaled non-uniformly it meets nothing. */
  lemma CircleMissExamples()
    ensures !Collides(CircleAt(10.0, 20.0, 5.0, 1.0, 1.0), CircleAt(20.0, 20.0, 10.0, 1.0, 1.0))
    ensures !Collides(CircleAt(10.0, 20.0, 5.0, 1.0, 1.0), CircleAt(0.0, 0.0, 10.0, 1.0, 1.0))
    ensures !Collides(CircleAt(10.0, 20.0, 5.0, 2.0, 1.0), CircleAt(10.0, 25.0, 10.0, 1.0, 1.0))
  {
    CollidesCircles(10.0, 20.0, 5.0, 20.0, 20.0, 10.0);
    CollidesCircles(10.0, 20.0, 5.0, 0.0, 0.0, 10.0);
    assert Dist2(Vec2(15.0, 25.0), Vec2(30.0, 30.0)) == 250.0;
    assert Dist2(Vec2(15.0, 25.0), Vec2(10.0, 10.0)) == 250.0;
  }

  /** A circle of radius 10 at (19, 20) reaches the rectangle (10, 20, 10x20). */
  lemma MixedCollisionHit()
    ensures Collides(Plain(10.0, 20.0, 10.0, 20.0), CircleAt(19.0, 20.0, 10.0, 1.0, 1.0))
  {
    CollidesBoxCircle(10.0, 20.0, 10.0, 20.0, 19.0, 20.0, 10.0);
    assert Nearest(Vec2(29.0, 30.0), Rect(10.0, 20.0, 10.0, 20.0)) == Vec2(20.0, 30.0);
  }

  /** Moved to (20, 20), the circle is exactly its radius away and does not collide. */
  lemma MixedCollisionTouching()
    ensures !Collides(Plain(10.0, 20.0, 10.0, 20.0), CircleAt(20.0, 20.0, 10.0, 1.0, 1.0))
  {
    CollidesBoxCircle(10.0, 20.0, 10.0, 20.0, 20.0, 20.0, 10.0);
    assert Nearest(Vec2(30.0, 30.0), Rect(10.0, 20.0, 10.0, 20.0)) == Vec2(20.0, 30.0);
  }

  /** Moved to (0, 0), the circle again only touches the rectangle's corner edge. */
  lemma MixedCollisionTouchingAbove()
    ensures !Collides(CircleAt(0.0, 0.0, 10.0, 1.0, 1.0), Plain(10.0, 20.0, 10.0, 20.0))
  {
    assert Nearest(Vec2(10.0, 10.0), Rect(10.0, 20.0, 10.0, 20.0)) == Vec2(10.0, 20.0);
    assert !CircleHitsRect(Rect(0.0, 0.0, 20.0, 20.0), Rect(10.0, 20.0, 10.0, 20.0));
    CollidesBoxCircle(10.0, 20.0, 10.0, 20.0, 0.0, 0.0, 10.0);
  }

  /** The field `depthSort` compares. */
  datatype RectField = X | Y | Width | Height

  function Field(r: Rect, prop: RectField): real
  {
    match prop
    case X => r.x
    case Y => r.y
    case Width => r.width
    case Height => r.height
  }

  /** `depthSort(a, b, prop = 'y')`: the difference of the chosen field of the two world rectangles. */
  function DepthSort(a: Entity, b: Entity, prop: RectField := Y): real
  {
    Field(GetWorldRect(a), prop) - Field(GetWorldRect(b), prop)
  }

  /**
   * `depthSort` is a consistent comparator: antisymmetric, zero on equal
   * objects, and additive, so the order it induces is transitive.
   */
  lemma DepthSortIsComparator(a: Entity, b: Entity, c: Entity, prop: RectField)
    ensures DepthSort(a, a, prop) == 0.0
    ensures DepthSort(a, b, prop) == -DepthSort(b, a, prop)
    ensures DepthSort(a, b, prop) + DepthSort(b, c, prop) == DepthSort(a, c, prop)
    ensures DepthSort(a, b, prop) < 0.0 && DepthSort(b, c, prop) < 0.0 ==> DepthSort(a, c, prop) < 0.0
  {
  }

  /** The asserted differences: -19 on y, 5 with anchors, -19 with a world sub-state, -10 on x. */
  lemma DepthSortExamples()
    ensures DepthSort(Plain(10.0, 20.0, 10.0, 20.0), Plain(19.0, 39.0, 10.0, 20.0)) == -19.0
    ensures DepthSort(Plain(40.0, 40.0, 10.0, 10.0).(anchor := Vec2(0.5, 0.5)),
                      Plain(40.0, 40.0, 10.0, 10.0).(anchor := Vec2(1.0, 1.0))) == 5.0
    ensures DepthSort(Plain(40.0, 40.0, 10.0, 10.0).(world := Some(Frame(10.0, 20.0, Box(20.0, 30.0), 1.0, 1.0))),
                      Plain(19.0, 39.0, 10.0, 20.0)) == -19.0
    ensures DepthSort(Plain(10.0, 20.0, 10.0, 20.0), Plain(20.0, 39.0, 10.0, 20.0), X) == -10.0
  {
  }
}
