/**
 * Game objects: local transform fields, the `world` state composed from the
 * parent's world, the parent/children hierarchy, and angular motion on top of
 * the shared velocity/acceleration integration.
 */
module GameObjects {
  import opened Wrappers
  import opened Vectors
  import opened Helpers
  import opened Updatables
  import Geometry

  /** The fields an object owns: position, size, opacity, rotation, scale and an optional radius. */
  datatype Local = Local(x: real, y: real, width: real, height: real, opacity: real,
                         rotation: real, scaleX: real, scaleY: real, radius: Option<real>)

  /** The derived `world` state. The world radius is per axis. */
  datatype World = World(x: real, y: real, width: real, height: real, opacity: real,
                         rotation: real, scaleX: real, scaleY: real, radius: Option<Vec2>)

  /** The defaults of a new object: origin, no size, opaque, unrotated, unit scale, no radius. */
  const Default := Local(0.0, 0.0, 0.0, 0.0, 1.0, 0.0, 1.0, 1.0, None)

  /**
   * Cosine and sine. Their values are not modelled, except the exact values
   * at angle 0 that every unrotated hierarchy relies on.
   */
  datatype TrigFns = TrigFns(cos: real -> real, sin: real -> real)
  type Trig = t: TrigFns | t.cos(0.0) == 1.0 && t.sin(0.0) == 0.0 witness TrigFns(_ => 1.0, _ => 0.0)

  /** `rotatePoint(p, angle)`. */
  function Rotate(p: Vec2, angle: real, trig: Trig): Vec2
  {
    Vec2(p.x * trig.cos(angle) - p.y * trig.sin(angle), p.x * trig.sin(angle) + p.y * trig.cos(angle))
  }

  lemma RotateByZero(p: Vec2, trig: Trig)
    ensures Rotate(p, 0.0, trig) == p
  {
  }

  /** `clamp(0, 1, v)` applied by the opacity setter. */
  function ClampOpacity(v: real): (r: real)
    ensures 0.0 <= r <= 1.0
    ensures 0.0 <= v <= 1.0 ==> r == v
  {
    Clamp(0.0, 1.0, v)
  }

  /** Opacity -10 becomes 0, 10 becomes 1, 0.5 is kept. */
  lemma OpacityExamples()
    ensures ClampOpacity(-10.0) == 0.0 && ClampOpacity(10.0) == 1.0 && ClampOpacity(0.5) == 0.5
  {
  }

  /**
   * The world state of an object given its parent's world (none for a root):
   * opacity and scale multiply, rotation adds, the size and radius carry the
   * world scale, and the position is the local offset scaled by the parent's
   * scale, rotated by the parent's rotation and moved to the parent's position.
   */
  function Compose(l: Local, parent: Option<World>, trig: Trig): World
  {
    var p := if parent.Some? then parent.value else Identity;
    var sx, sy := p.scaleX * l.scaleX, p.scaleY * l.scaleY;
    var offset := Rotate(Vec2(l.x * p.scaleX, l.y * p.scaleY), p.rotation, trig);
    World(p.x + offset.x, p.y + offset.y, l.width * sx, l.height * sy, p.opacity * l.opacity,
          p.rotation + l.rotation, sx, sy, ScaleRadius(l.radius, sx, sy))
  }

  /** A set radius becomes one radius per axis, each times that axis's world scale. */
  function ScaleRadius(radius: Option<real>, sx: real, sy: real): Option<Vec2>
  {
    match radius
    case None => None
    case Some(r) => Some(Vec2(r * sx, r * sy))
  }

  /** The world of a parentless object's missing parent: the origin, unrotated, unit scale, opaque. */
  const Identity := World(0.0, 0.0, 0.0, 0.0, 1.0, 0.0, 1.0, 1.0, None)

  /**
   * A root object's world is its own position, its size times its own scale,
   * its own opacity, rotation and scale, and the radius times the scale per axis.
   */
  lemma RootWorld(l: Local, trig: Trig)
    ensures Compose(l, None, trig).x == l.x && Compose(l, None, trig).y == l.y
    ensures Compose(l, None, trig).width == l.width * l.scaleX
    ensures Compose(l, None, trig).height == l.height * l.scaleY
    ensures Compose(l, None, trig).opacity == l.opacity
    ensures Compose(l, None, trig).rotation == l.rotation
    ensures Compose(l, None, trig).scaleX == l.scaleX && Compose(l, None, trig).scaleY == l.scaleY
    ensures Compose(l, None, trig).radius.Some? <==> l.radius.Some?
    ensures l.radius.Some? ==>
              Compose(l, None, trig).radius.value == Vec2(l.radius.value * l.scaleX, l.radius.value * l.scaleY)
  {
    assert Rotate(Vec2(l.x * 1.0, l.y * 1.0), 0.0, trig) == Vec2(l.x, l.y);
    assert 1.0 * l.scaleX == l.scaleX && 1.0 * l.scaleY == l.scaleY;
  }

  /** A parent at the origin with no rotation, unit scale and full opacity changes nothing. */
  lemma IdentityParentIsNoParent(l: Local, trig: Trig)
    ensures Compose(l, Some(Identity), trig) == Compose(l, None, trig)
  {
  }

  /** An unrotated parent: the child's position is the parent's plus the parent's scale times the offset. */
  lemma UnrotatedParent(l: Local, p: World, trig: Trig)
    requires p.rotation == 0.0
    ensures Compose(l, Some(p), trig).x == p.x + p.scaleX * l.x
    ensures Compose(l, Some(p), trig).y == p.y + p.scaleY * l.y
    ensures Compose(l, Some(p), trig).rotation == l.rotation
  {
    RotateByZero(Vec2(l.x * p.scaleX, l.y * p.scaleY), trig);
  }

  /**
   * The worlds along a chain of objects, root first: each is composed with
   * the world before it.
   */
  function Chain(ls: seq<Local>, trig: Trig): World
    requires |ls| > 0
  {
    if |ls| == 1 then Compose(ls[0], None, trig)
    else Compose(ls[|ls| - 1], Some(Chain(ls[..|ls| - 1], trig)), trig)
  }

  function SumRotation(ls: seq<Local>): real
  {
    if |ls| == 0 then 0.0 else SumRotation(ls[..|ls| - 1]) + ls[|ls| - 1].rotation
  }

  function ProductScaleX(ls: seq<Local>): real
  {
    if |ls| == 0 then 1.0 else ProductScaleX(ls[..|ls| - 1]) * ls[|ls| - 1].scaleX
  }

  function ProductScaleY(ls: seq<Local>): real
  {
    if |ls| == 0 then 1.0 else ProductScaleY(ls[..|ls| - 1]) * ls[|ls| - 1].scaleY
  }

  function ProductOpacity(ls: seq<Local>): real
  {
    if |ls| == 0 then 1.0 else ProductOpacity(ls[..|ls| - 1]) * ls[|ls| - 1].opacity
  }

  /** One step down a chain composes the last object with the world of the chain above it. */
  lemma ChainStep(ls: seq<Local>, trig: Trig)
    requires |ls| > 1
    ensures Chain(ls, trig) == Compose(ls[|ls| - 1], Some(Chain(ls[..|ls| - 1], trig)), trig)
  {
  }

  /** Down a chain, the world rotation is the sum of all rotations, the world opacity the product. */
  lemma ChainRotationAndOpacity(ls: seq<Local>, trig: Trig)
    requires |ls| > 0
    ensures Chain(ls, trig).rotation == SumRotation(ls)
    ensures Chain(ls, trig).opacity == ProductOpacity(ls)
  {
    ChainRotation(ls, trig);
    ChainOpacity(ls, trig);
  }

  lemma {:induction false} ChainRotation(ls: seq<Local>, trig: Trig)
    requires |ls| > 0
    ensures Chain(ls, trig).rotation == SumRotation(ls)
  {
    var init := ls[..|ls| - 1];
    assert SumRotation(ls) == SumRotation(init) + ls[|ls| - 1].rotation;
    if |ls| == 1 {
      ChainOne(ls, trig);
      assert SumRotation(init) == 0.0;
      RootWorld(ls[0], trig);
    } else {
      ChainRotation(init, trig);
      ChainStep(ls, trig);
    }
  }

  lemma {:induction false} ChainOpacity(ls: seq<Local>, trig: Trig)
    requires |ls| > 0
    ensures Chain(ls, trig).opacity == ProductOpacity(ls)
  {
    var init := ls[..|ls| - 1];
    assert ProductOpacity(ls) == ProductOpacity(init) * ls[|ls| - 1].opacity;
    if |ls| == 1 {
      ChainOne(ls, trig);
      assert ProductOpacity(init) == 1.0;
      RootWorld(ls[0], trig);
    } else {
      ChainOpacity(init, trig);
      ChainStep(ls, trig);
      ComposeOpacity(ls[|ls| - 1], Chain(init, trig), trig);
    }
  }

  /** A child's world opacity is its parent's world opacity times its own. */
  lemma ComposeOpacity(l: Local, p: World, trig: Trig)
    ensures Compose(l, Some(p), trig).opacity == p.opacity * l.opacity
  {
  }

  /** A child's world scale is its parent's world scale times its own. */
  lemma ComposeScale(l: Local, p: World, trig: Trig)
    ensures Compose(l, Some(p), trig).scaleX == p.scaleX * l.scaleX
    ensures Compose(l, Some(p), trig).scaleY == p.scaleY * l.scaleY
  {
  }

  /** The last scale factor of a chain's products. */
  lemma ProductStep(ls: seq<Local>)
    requires |ls| > 0
    ensures ProductScaleX(ls) == ProductScaleX(ls[..|ls| - 1]) * ls[|ls| - 1].scaleX
    ensures ProductScaleY(ls) == ProductScaleY(ls[..|ls| - 1]) * ls[|ls| - 1].scaleY
  {
    ProductStepX(ls);
    ProductStepY(ls);
  }

  lemma ProductStepX(ls: seq<Local>)
    requires |ls| > 0
    ensures ProductScaleX(ls) == ProductScaleX(ls[..|ls| - 1]) * ls[|ls| - 1].scaleX
  {
  }

  lemma ProductStepY(ls: seq<Local>)
    requires |ls| > 0
    ensures ProductScaleY(ls) == ProductScaleY(ls[..|ls| - 1]) * ls[|ls| - 1].scaleY
  {
  }

  /** A one-object chain is that object's root world, and the products above it are empty. */
  lemma ChainOne(ls: seq<Local>, trig: Trig)
    requires |ls| == 1
    ensures Chain(ls, trig) == Compose(ls[0], None, trig)
    ensures ProductScaleX(ls[..0]) == 1.0 && ProductScaleY(ls[..0]) == 1.0
  {
  }

  /** The world scale is the product of all scales. */
  lemma ChainScale(ls: seq<Local>, trig: Trig)
    requires |ls| > 0
    ensures Chain(ls, trig).scaleX == ProductScaleX(ls) && Chain(ls, trig).scaleY == ProductScaleY(ls)
  {
    ChainScaleX(ls, trig);
    ChainScaleY(ls, trig);
  }

  lemma {:induction false} ChainScaleX(ls: seq<Local>, trig: Trig)
    requires |ls| > 0
    ensures Chain(ls, trig).scaleX == ProductScaleX(ls)
  {
    var init, l := ls[..|ls| - 1], ls[|ls| - 1];
    ProductStep(ls);
    if |ls| == 1 {
      ChainOne(ls, trig);
      RootWorld(l, trig);
    } else {
      var p := Chain(init, trig);
      ChainScaleX(init, trig);
      ChainStep(ls, trig);
      ComposeScale(l, p, trig);
    }
  }

  lemma {:induction false} ChainScaleY(ls: seq<Local>, trig: Trig)
    requires |ls| > 0
    ensures Chain(ls, trig).scaleY == ProductScaleY(ls)
  {
    var init, l := ls[..|ls| - 1], ls[|ls| - 1];
    ProductStep(ls);
    if |ls| == 1 {
      ChainOne(ls, trig);
      RootWorld(l, trig);
    } else {
      var p := Chain(init, trig);
      ChainScaleY(init, trig);
      ChainStep(ls, trig);
      ComposeScale(l, p, trig);
    }
  }

  /** The world size is the own size times the world scale. */
  lemma WorldSizeIsScaled(l: Local, parent: Option<World>, trig: Trig)
    ensures Compose(l, parent, trig).width == l.width * Compose(l, parent, trig).scaleX
    ensures Compose(l, parent, trig).height == l.height * Compose(l, parent, trig).scaleY
  {
  }

  /** The world size is the own size times the product of all scales. */
  lemma ChainSize(ls: seq<Local>, trig: Trig)
    requires |ls| > 0
    ensures Chain(ls, trig).width == ls[|ls| - 1].width * ProductScaleX(ls)
    ensures Chain(ls, trig).height == ls[|ls| - 1].height * ProductScaleY(ls)
  {
    ChainWidth(ls, trig);
    ChainHeight(ls, trig);
  }

  lemma ChainWidth(ls: seq<Local>, trig: Trig)
    requires |ls| > 0
    ensures Chain(ls, trig).width == ls[|ls| - 1].width * ProductScaleX(ls)
  {
    ChainScaleX(ls, trig);
    if |ls| == 1 {
      ChainOne(ls, trig);
      WorldSizeIsScaled(ls[0], None, trig);
    } else {
      ChainStep(ls, trig);
      WorldSizeIsScaled(ls[|ls| - 1], Some(Chain(ls[..|ls| - 1], trig)), trig);
    }
  }

  lemma ChainHeight(ls: seq<Local>, trig: Trig)
    requires |ls| > 0
    ensures Chain(ls, trig).height == ls[|ls| - 1].height * ProductScaleY(ls)
  {
    ChainScaleY(ls, trig);
    if |ls| == 1 {
      ChainOne(ls, trig);
      WorldSizeIsScaled(ls[0], None, trig);
    } else {
      ChainStep(ls, trig);
      WorldSizeIsScaled(ls[|ls| - 1], Some(Chain(ls[..|ls| - 1], trig)), trig);
    }
  }

  /** With every opacity in [0, 1], every world opacity down the chain is in [0, 1] too. */
  lemma {:induction false} ChainOpacityBounded(ls: seq<Local>)
    requires forall i :: 0 <= i < |ls| ==> 0.0 <= ls[i].opacity <= 1.0
    ensures 0.0 <= ProductOpacity(ls) <= 1.0
  {
    if |ls| > 0 {
      var init := ls[..|ls| - 1];
      assert forall i :: 0 <= i < |init| ==> init[i] == ls[i];
      ChainOpacityBounded(init);
      var p, o := ProductOpacity(init), ls[|ls| - 1].opacity;
      assert 0.0 <= o <= 1.0;
      assert p * o <= p by {
        assert p * (1.0 - o) >= 0.0;
      }
      assert p * o >= 0.0;
      assert ProductOpacity(ls) == p * o;
    }
  }

  /** The sum of each offset times the scales of all objects above it. */
  function OffsetX(ls: seq<Local>): real
  {
    if |ls| == 0 then 0.0
    else OffsetX(ls[..|ls| - 1]) + ProductScaleX(ls[..|ls| - 1]) * ls[|ls| - 1].x
  }

  function OffsetY(ls: seq<Local>): real
  {
    if |ls| == 0 then 0.0
    else OffsetY(ls[..|ls| - 1]) + ProductScaleY(ls[..|ls| - 1]) * ls[|ls| - 1].y
  }

  /** A chain of unrotated objects has no world rotation. */
  lemma {:induction false} UnrotatedChainRotation(ls: seq<Local>, trig: Trig)
    requires |ls| > 0
    requires forall i :: 0 <= i < |ls| ==> ls[i].rotation == 0.0
    ensures Chain(ls, trig).rotation == 0.0
  {
    var init := ls[..|ls| - 1];
    if |ls| == 1 {
      RootWorld(ls[0], trig);
    } else {
      assert forall i :: 0 <= i < |init| ==> init[i] == ls[i];
      UnrotatedChainRotation(init, trig);
      ChainStep(ls, trig);
    }
  }

  /** The last offset of a chain's position sums. */
  lemma OffsetStep(ls: seq<Local>)
    requires |ls| > 0
    ensures OffsetX(ls) == OffsetX(ls[..|ls| - 1]) + ProductScaleX(ls[..|ls| - 1]) * ls[|ls| - 1].x
    ensures OffsetY(ls) == OffsetY(ls[..|ls| - 1]) + ProductScaleY(ls[..|ls| - 1]) * ls[|ls| - 1].y
  {
  }

  /**
   * In an unrotated chain the world position adds up each object's offset
   * scaled by the product of its ancestors' scales.
   */
  lemma UnrotatedChainPosition(ls: seq<Local>, trig: Trig)
    requires |ls| > 0
    requires forall i :: 0 <= i < |ls| ==> ls[i].rotation == 0.0
    ensures Chain(ls, trig).x == OffsetX(ls) && Chain(ls, trig).y == OffsetY(ls)
  {
    UnrotatedChainX(ls, trig);
    UnrotatedChainY(ls, trig);
  }

  lemma {:induction false} UnrotatedChainX(ls: seq<Local>, trig: Trig)
    requires |ls| > 0
    requires forall i :: 0 <= i < |ls| ==> ls[i].rotation == 0.0
    ensures Chain(ls, trig).x == OffsetX(ls)
  {
    var init, l := ls[..|ls| - 1], ls[|ls| - 1];
    OffsetStep(ls);
    if |ls| == 1 {
      ChainOne(ls, trig);
      RootWorld(l, trig);
      assert OffsetX(init) == 0.0;
    } else {
      assert forall i :: 0 <= i < |init| ==> init[i] == ls[i];
      var p := Chain(init, trig);
      UnrotatedChainX(init, trig);
      UnrotatedChainRotation(init, trig);
      ChainScale(init, trig);
      ChainStep(ls, trig);
      UnrotatedParent(l, p, trig);
    }
  }

  lemma {:induction false} UnrotatedChainY(ls: seq<Local>, trig: Trig)
    requires |ls| > 0
    requires forall i :: 0 <= i < |ls| ==> ls[i].rotation == 0.0
    ensures Chain(ls, trig).y == OffsetY(ls)
  {
    var init, l := ls[..|ls| - 1], ls[|ls| - 1];
    OffsetStep(ls);
    if |ls| == 1 {
      ChainOne(ls, trig);
      RootWorld(l, trig);
      assert OffsetY(init) == 0.0;
    } else {
      assert forall i :: 0 <= i < |init| ==> init[i] == ls[i];
      var p := Chain(init, trig);
      UnrotatedChainY(init, trig);
      UnrotatedChainRotation(init, trig);
      ChainScale(init, trig);
      ChainStep(ls, trig);
      UnrotatedParent(l, p, trig);
    }
  }

  /** The asserted hierarchies: moving, fading, rotating and scaling a parent. */
  lemma ParentExamples(trig: Trig)
    ensures var c := Compose(Default, Some(Compose(Default.(x := 10.0, y := 20.0), None, trig)), trig);
            c.x == 10.0 && c.y == 20.0
    ensures Compose(Default.(opacity := 0.5), Some(Compose(Default.(opacity := 0.5), None, trig)), trig).opacity == 0.25
    ensures Compose(Default.(rotation := 20.0), Some(Compose(Default.(rotation := 10.0), None, trig)), trig).rotation == 30.0
  {
    RootWorld(Default.(x := 10.0, y := 20.0), trig);
    UnrotatedParent(Default, Compose(Default.(x := 10.0, y := 20.0), None, trig), trig);
  }

  /** A parent of scale 2 doubles the child's offset and multiplies its size, scale and radius. */
  lemma ScaledParentExamples(trig: Trig)
    ensures var w := Compose(Default.(scaleX := 2.0, scaleY := 3.0), Some(Compose(Default.(scaleX := 2.0, scaleY := 2.0), None, trig)), trig);
            w.scaleX == 4.0 && w.scaleY == 6.0
    ensures var w := Compose(Default.(x := 10.0, y := 20.0), Some(Compose(Default.(scaleX := 2.0, scaleY := 2.0), None, trig)), trig);
            w.x == 20.0 && w.y == 40.0
    ensures var w := Compose(Default.(width := 10.0, height := 20.0, scaleX := 3.0, scaleY := 3.0),
                             Some(Compose(Default.(scaleX := 2.0, scaleY := 2.0), None, trig)), trig);
            w.width == 60.0 && w.height == 120.0
    ensures Compose(Default.(radius := Some(10.0), scaleX := 3.0, scaleY := 4.0),
                    Some(Compose(Default.(scaleX := 2.0, scaleY := 2.0), None, trig)), trig).radius == Some(Vec2(60.0, 80.0))
  {
    var p := Compose(Default.(scaleX := 2.0, scaleY := 2.0), None, trig);
    RootWorld(Default.(scaleX := 2.0, scaleY := 2.0), trig);
    UnrotatedParent(Default.(x := 10.0, y := 20.0), p, trig);
  }

  /** The shape `getWorldRect` sees in a world: a circle when a radius is set, else a box. */
  function AsEntity(w: World, anchor: Vec2): Geometry.Entity
  {
    var f := Geometry.Frame(w.x, w.y,
                            if w.radius.Some? then Geometry.Circle(w.radius.value.x, w.radius.value.y)
                            else Geometry.Box(w.width, w.height), w.scaleX, w.scaleY);
    Geometry.Entity(f, Some(f), anchor, None)
  }

  /**
   * For a root box with non-negative size and scale, the world rectangle is the
   * position moved back by anchor times scaled size, with the scaled size.
   */
  lemma RootWorldRect(l: Local, anchor: Vec2, trig: Trig)
    requires l.radius.None?
    requires l.width >= 0.0 && l.height >= 0.0 && l.scaleX >= 0.0 && l.scaleY >= 0.0
    ensures var w, h := l.width * l.scaleX, l.height * l.scaleY;
            Geometry.GetWorldRect(AsEntity(Compose(l, None, trig), anchor))
            == Geometry.Rect(l.x - w * anchor.x, l.y - h * anchor.y, w, h)
  {
    RootWorld(l, trig);
    var e := AsEntity(Compose(l, None, trig), anchor);
    assert Geometry.Extent(e) == Vec2(l.width * l.scaleX, l.height * l.scaleY);
    Geometry.WorldRectOfNonNegativeExtent(e);
  }

  /** Scale -2 on a 10x20 box at (40, 40) flips it to the rectangle (20, 0, 20, 40). */
  lemma NegativeScaleWorldRect(trig: Trig)
    ensures Geometry.GetWorldRect(AsEntity(Compose(Default.(x := 40.0, y := 40.0, width := 10.0, height := 20.0,
                                                           scaleX := -2.0, scaleY := -2.0), None, trig), Zero))
            == Geometry.Rect(20.0, 0.0, 20.0, 40.0)
  {
    var l := Default.(x := 40.0, y := 40.0, width := 10.0, height := 20.0, scaleX := -2.0, scaleY := -2.0);
    RootWorld(l, trig);
    var e := AsEntity(Compose(l, None, trig), Zero);
    assert Geometry.Extent(e) == Vec2(-20.0, -40.0);
    assert Geometry.AnchoredOrigin(e) == Vec2(40.0, 40.0);
  }

  /** `advance`: angular velocity gains the angular acceleration, then rotation gains the angular velocity. */
  function Spin(rotation: real, drotation: real, ddrotation: real): (r: (real, real))
    ensures r.1 - drotation == ddrotation
    ensures r.0 - rotation == r.1
  {
    var dr := drotation + ddrotation;
    (rotation + dr, dr)
  }

  /** Drotation 0.5 plus ddrotation 0.5 gives 1; rotation 0.5 plus drotation 0.5 gives 1. */
  lemma SpinExamples()
    ensures Spin(0.0, 0.5, 0.5).1 == 1.0
    ensures Spin(0.5, 0.5, 0.0).0 == 1.0
  {
  }

  /** A game object. `x`/`y` are its position; the `world` field is kept up to date by every setter. */
  class GameObject {
    var local: Local
    var velocity: Vec2
    var acceleration: Vec2
    var ttl: Ttl
    var drotation: real
    var ddrotation: real
    var anchor: Vec2
    var parent: GameObject?
    var children: seq<GameObject>
    var world: World

    /**
     * The hierarchy is a tree around this object (it is neither its own child
     * nor its parent's parent), and the opacity is within [0, 1].
     */
    predicate Valid()
      reads this
    {
      this !in children && parent != this && (parent == null || parent !in children) &&
      0.0 <= local.opacity <= 1.0
    }

    function ParentWorld(): Option<World>
      reads this, parent
    {
      if parent == null then None else Some(parent.world)
    }

    /** The object's world and each child's world are composed from the current fields. */
    predicate WorldCurrent(trig: Trig)
      reads this, parent, children
    {
      world == Compose(local, ParentWorld(), trig) &&
      forall c :: c in children ==> c.world == Compose(c.local, Some(world), trig)
    }

    function Motion(): Motion
      reads this
    {
      Updatables.Motion(Vec2(local.x, local.y), velocity, acceleration, ttl)
    }

    /** A root object with the given fields; the opacity is clamped. */
    constructor (l: Local, trig: Trig)
      ensures local == l.(opacity := ClampOpacity(l.opacity))
      ensures velocity == Zero && acceleration == Zero && ttl == Infinity
      ensures drotation == 0.0 && ddrotation == 0.0 && anchor == Zero
      ensures parent == null && children == []
      ensures Valid() && WorldCurrent(trig)
    {
      local := l.(opacity := ClampOpacity(l.opacity));
      velocity, acceleration, ttl := Zero, Zero, Infinity;
      drotation, ddrotation, anchor := 0.0, 0.0, Zero;
      parent, children := null, [];
      world := Compose(l.(opacity := ClampOpacity(l.opacity)), None, trig);
    }

    /** `_pc`: recompute this object's world from its parent, then each child's world from it. */
    method Refresh(trig: Trig)
      requires Valid()
      modifies this`world, children`world
      ensures WorldCurrent(trig)
    {
      world := Compose(local, ParentWorld(), trig);
      var i := 0;
      while i < |children|
        invariant 0 <= i <= |children|
        invariant world == Compose(local, ParentWorld(), trig)
        invariant forall j :: 0 <= j < i ==> children[j].world == Compose(children[j].local, Some(world), trig)
      {
        children[i].world := Compose(children[i].local, Some(world), trig);
        i := i + 1;
      }
    }

    /** Any property assignment: the new fields (opacity clamped), then `_pc`. */
    method SetLocal(l: Local, trig: Trig)
      requires Valid()
      modifies this`local, this`world, children`world
      ensures local == l.(opacity := ClampOpacity(l.opacity))
      ensures WorldCurrent(trig)
    {
      local := l.(opacity := ClampOpacity(l.opacity));
      Refresh(trig);
    }

    method SetOpacity(v: real, trig: Trig)
      requires Valid()
      modifies this`local, this`world, children`world
      ensures local == old(local).(opacity := ClampOpacity(v))
      ensures WorldCurrent(trig)
    {
      SetLocal(local.(opacity := v), trig);
    }

    /** `setScale(x, y = x)`. */
    method SetScale(sx: real, sy: Option<real>, trig: Trig)
      requires Valid()
      modifies this`local, this`world, children`world
      ensures local == old(local).(scaleX := sx, scaleY := if sy.Some? then sy.value else sx)
      ensures WorldCurrent(trig)
    {
      var l := local.(scaleX := sx, scaleY := if sy.Some? then sy.value else sx);
      assert ClampOpacity(l.opacity) == l.opacity;
      SetLocal(l, trig);
    }

    /** `advance(dt)`: the shared integration step, then the angular step, then `_pc`. */
    method Advance(dt: Option<real>, trig: Trig)
      requires Valid()
      modifies this`local, this`velocity, this`acceleration, this`ttl, this`drotation, this`world, children`world
      ensures Motion() == Step(old(Motion()), dt)
      ensures (local.rotation, drotation) == Spin(old(local.rotation), old(drotation), ddrotation)
      ensures local.width == old(local.width) && local.height == old(local.height)
      ensures local.opacity == old(local.opacity) && local.radius == old(local.radius)
      ensures local.scaleX == old(local.scaleX) && local.scaleY == old(local.scaleY)
      ensures WorldCurrent(trig)
    {
      var m := Step(Motion(), dt);
      var s := Spin(local.rotation, drotation, ddrotation);
      velocity, acceleration, ttl, drotation := m.velocity, m.acceleration, m.ttl, s.1;
      SetLocal(local.(x := m.position.x, y := m.position.y, rotation := s.0), trig);
    }

    /** `addChild(child)`: append it, make this its parent and compose its world from this one. */
    method AddChild(c: GameObject, trig: Trig)
      requires Valid() && c != this && c != parent
      modifies this`children, c`parent, c`world
      ensures children == old(children) + [c]
      ensures c.parent == this
      ensures c.world == Compose(c.local, Some(world), trig)
      ensures Valid()
    {
      children := children + [c];
      c.parent := this;
      c.world := Compose(c.local, Some(world), trig);
    }

    /** `addChild(...objects)`: each in order. */
    method AddChildren(cs: seq<GameObject>, trig: Trig)
      requires Valid() && this !in cs && parent !in cs
      modifies this`children, cs`parent, cs`world
      ensures children == old(children) + cs
      ensures forall c :: c in cs ==> c.parent == this && c.world == Compose(c.local, Some(world), trig)
      ensures Valid()
    {
      var i := 0;
      while i < |cs|
        invariant 0 <= i <= |cs|
        invariant Valid()
        invariant children == old(children) + cs[..i]
        invariant forall j :: 0 <= j < i ==> cs[j].parent == this && cs[j].world == Compose(cs[j].local, Some(world), trig)
      {
        AddChild(cs[i], trig);
        TakeSnoc(cs, i);
        i := i + 1;
      }
      assert cs[..|cs|] == cs;
    }

    /**
     * `removeChild(child)`: when it is a child, drop its first occurrence, clear its
     * parent and reset its world to that of a root; otherwise nothing happens.
     */
    method RemoveChild(c: GameObject, trig: Trig)
      requires Valid()
      modifies this`children, c`parent, c`world
      ensures c in old(children) ==>
                children == Without(old(children), c) && c.parent == null && c.world == Compose(c.local, None, trig)
      ensures c !in old(children) ==>
                children == old(children) && c.parent == old(c.parent) && c.world == old(c.world)
      ensures children == Without(old(children), c)
      ensures Valid()
    {
      if c in children {
        children := Without(children, c);
        c.parent := null;
        c.world := Compose(c.local, None, trig);
      }
    }

    /** `removeChild(...objects)`: each in order. */
    method RemoveChildren(cs: seq<GameObject>, trig: Trig)
      requires Valid()
      modifies this`children, cs`parent, cs`world
      ensures children == WithoutAll(old(children), cs)
      ensures Valid()
    {
      var i := 0;
      while i < |cs|
        invariant 0 <= i <= |cs|
        invariant Valid()
        invariant children == WithoutAll(old(children), cs[..i])
      {
        RemoveNext(cs, i, old(children), trig);
        i := i + 1;
      }
      assert cs[..|cs|] == cs;
    }

    /** The body of the `removeChild` loop: `cs[i]` after the `i` before it. */
    method RemoveNext(cs: seq<GameObject>, i: nat, ghost before: seq<GameObject>, trig: Trig)
      requires Valid() && i < |cs| && children == WithoutAll(before, cs[..i])
      modifies this`children, cs`parent, cs`world
      ensures Valid() && children == WithoutAll(before, cs[..i + 1])
    {
      RemoveChild(cs[i], trig);
      WithoutAllSnoc(before, cs[..i], cs[i]);
      TakeSnoc(cs, i);
    }

    /** Assigning `children`: remove the old list, then add the new one. */
    method SetChildren(cs: seq<GameObject>, trig: Trig)
      requires Valid() && this !in cs && parent !in cs
      modifies this`children, children`parent, children`world, cs`parent, cs`world
      ensures children == cs
      ensures forall c :: c in cs ==> c.parent == this && c.world == Compose(c.local, Some(world), trig)
      ensures Valid()
    {
      RemoveChildren(children, trig);
      WithoutAllSelf(old(children));
      AddChildren(cs, trig);
    }
  }

  /**
   * A child at (10, 20) added to an object at (30, 40) has world position
   * (40, 60); once removed it is back at (10, 20) with no parent.
   */
  method AddThenRemoveExample(trig: Trig) returns (added: World, removed: World, orphaned: bool)
    ensures added.x == 40.0 && added.y == 60.0
    ensures removed.x == 10.0 && removed.y == 20.0
    ensures orphaned
  {
    var g := new GameObject(Default.(x := 30.0, y := 40.0), trig);
    var c := new GameObject(Default.(x := 10.0, y := 20.0), trig);
    RootWorld(Default.(x := 30.0, y := 40.0), trig);
    g.AddChild(c, trig);
    UnrotatedParent(c.local, g.world, trig);
    added := c.world;
    g.RemoveChild(c, trig);
    RootWorld(c.local, trig);
    removed := c.world;
    orphaned := c.parent == null && g.children == [];
  }

  /** Assigning `[d]` as the children of an object with three children leaves exactly `[d]`. */
  method SetChildrenExample(trig: Trig) returns (children: seq<GameObject>, d: GameObject)
    ensures children == [d]
  {
    var g := new GameObject(Default, trig);
    var a := new GameObject(Default, trig);
    var b := new GameObject(Default, trig);
    var c := new GameObject(Default, trig);
    g.AddChildren([a, b, c], trig);
    d := new GameObject(Default, trig);
    g.SetChildren([d], trig);
    children := g.children;
  }

  lemma TakeSnoc<T>(s: seq<T>, i: nat)
    requires i < |s|
    ensures s[..i + 1] == s[..i] + [s[i]]
  {
  }

  /** `s` without the first occurrence of `x`. */
  function Without<T(==)>(s: seq<T>, x: T): (r: seq<T>)
    ensures x in s ==> |r| == |s| - 1
    ensures x !in s ==> r == s
    ensures multiset(r) == multiset(s) - multiset{x}
    ensures forall y :: y in r ==> y in s
  {
    if |s| == 0 then s
    else if s[0] == x then assert s == [s[0]] + s[1..]; s[1..]
    else assert s == [s[0]] + s[1..]; [s[0]] + Without(s[1..], x)
  }

  /** `s` after removing the first occurrence of each element of `xs` in turn. */
  function WithoutAll<T(==)>(s: seq<T>, xs: seq<T>): seq<T>
  {
    if |xs| == 0 then s else Without(WithoutAll(s, xs[..|xs| - 1]), xs[|xs| - 1])
  }

  lemma WithoutAllSnoc<T>(s: seq<T>, xs: seq<T>, x: T)
    ensures WithoutAll(s, xs + [x]) == Without(WithoutAll(s, xs), x)
  {
    assert (xs + [x])[..|xs|] == xs;
  }

  /** Removing the first `i` elements of a list from it, in order, leaves the rest. */
  lemma {:induction false} WithoutPrefix<T>(s: seq<T>, i: nat)
    requires i <= |s|
    ensures WithoutAll(s, s[..i]) == s[i..]
  {
    if i > 0 {
      WithoutPrefix(s, i - 1);
      TakeSnoc(s, i - 1);
      WithoutAllSnoc(s, s[..i - 1], s[i - 1]);
      WithoutHead(s[i - 1..], s[i - 1]);
      assert s[i - 1..][1..] == s[i..];
    }
  }

  /** Removing the head of a list leaves its tail. */
  lemma WithoutHead<T>(s: seq<T>, x: T)
    requires |s| > 0 && s[0] == x
    ensures Without(s, x) == s[1..]
  {
  }

  /** Removing the elements of a list from itself, in order, leaves nothing. */
  lemma WithoutAllSelf<T>(s: seq<T>)
    ensures WithoutAll(s, s) == []
  {
    WithoutPrefix(s, |s|);
    assert s[..|s|] == s;
  }
}
