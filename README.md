# kontra core, modelled in Dafny

This project models the logic at the heart of kontra, a small JavaScript
library for 2D canvas games, with every optional feature switched on. The
model is rebuilt from the behaviour the library's unit test suites assert,
and the citations below point at those suites. JavaScript numbers are
Dafny `real`s, so arithmetic is exact.

It covers six groups of components, one module per file:

- **Geometry** (`helpers.dfy`, `geometry.dfy`, `vector.dfy`, `gameobject.dfy`, `quadtree.dfy`).
  - `clamp`, `lerp` and `inverseLerp`; `getWorldRect`, rectangle and circle `collides`, and `depthSort`.
  - `Vector` with its optional clamp.
  - The game object's `world` state composed through the parent chain, with the hierarchy operations.
  - The quadtree's add, split, routing, `get` and `clear`.
- **Per-tick state** (`updatable.dfy`, `pool.dfy`, `spritesheet.dfy`, `animation.dfy`).
  - Velocity, acceleration and `ttl` integration.
  - The object pool that grows by doubling and moves dead objects to the back.
  - Sprite-sheet frame specifications such as `'1..5'`.
  - The animation's time accumulator, which steps frames.
- **Layout** (`grid.dfy`): the grid's `prerender`, covering flows, gaps, anchors, align and justify, right-to-left, `colSpan` and breakpoints.
- **Tile maps** (`tileengine.dfy`).
  - Tile index arithmetic and the clamped camera.
  - Tile reads and writes, and tile collision.
  - Tileset source rectangles and the canvas operations of Tiled's flip flags, as described in the "Tile Flipping" section of the Tiled TMX Map Format.
  - `getPosition`.
- **Registries and state machines** (`events.dfy`, `plugin.dfy`, `gesture.dfy`, `gamepad.dfy`).
  - The event emitter.
  - Plugin before and after interceptors.
  - Swipe and pinch recognition.
  - Gamepad button edge detection with global and per-gamepad callbacks.
- **Assets** (`assets.dfy`): base-path joining, the keys an asset is stored under, the load cache, audio source selection and the dispatch done by `load`.

`numbers.dfy` and `wrappers.dfy` hold shared helpers: truncation toward
zero, and the `Option` and `Result` types.

Where the library changes state in place, the model is a class whose methods
are proved against specification functions. Some examples:

- `Pool.Update` against `Swept`;
- `Grid.Prerender` against the layout functions;
- `Animation.Update` against `Tick`;
- `GamepadState.Update` against `PollFold`;
- `AssetStore.Load` against `LoadAll`.

Lemmas then prove the properties the suites assert about those functions.

Some choices the test suites leave open:

- **Circle against circle.** Circles touch when the distance between their centres is at most the sum of their radii. This follows the library's own description of `collides`; no test decides the touching case.
- **Circle against rectangle.** This stays strict, as the tests require.

## Model

| member | source | states |
|---|---|---|
| Helpers.Clamp | test/unit/helpers.spec.js:141-153 | a value below `min` gives `min`, above `max` gives `max`, in between the value itself; with `min <= max` the result always lies in [min, max] |
| Helpers.ClampIdempotent | test/unit/helpers.spec.js:141-153 | clamping an already clamped value changes nothing |
| Helpers.ClampMonotone | test/unit/helpers.spec.js:141-153 | clamping preserves the order of two values |
| Helpers.Lerp | test/unit/helpers.spec.js:99-114 | a percentage of 0 gives the start and 1 gives the end |
| Helpers.LerpBetween | test/unit/helpers.spec.js:99-102 | a percentage in [0, 1] interpolates between the endpoints |
| Helpers.InverseLerp | test/unit/helpers.spec.js:120-135 | the result, when the endpoints differ, is the percentage at which `lerp` reaches the value |
| Helpers.InverseLerpOfLerp | test/unit/helpers.spec.js:120-135 | `inverseLerp` undoes `lerp` for every percentage, below 0 and above 1 included |
| Helpers.LerpExamples | test/unit/helpers.spec.js:99-135 | the eight asserted interpolations and inverse interpolations |
| Geometry.GetWorldRect | test/unit/helpers.spec.js:409-474 | position minus anchor times extent; width and height are never negative, a negative extent moving the origin to the other end |
| Geometry.WorldRectOfNonNegativeExtent | test/unit/helpers.spec.js:410-457 | with a non-negative extent the rectangle is the anchored origin and the extent itself |
| Geometry.WorldRectPrefersWorld | test/unit/helpers.spec.js:476-495 | when an object has a `world` sub-state its own fields do not matter |
| Geometry.WorldRectExamples | test/unit/helpers.spec.js:410-515 | the asserted rectangles: plain, circle (width 2r), anchored, world sub-state, negative scale (40,40,10x20)·−2 = (20,0,20,40), tile engine |
| Geometry.OverlapsIffCommonInteriorPoint | test/unit/helpers.spec.js:196-232 | the strict overlap test holds exactly when the two rectangles share an interior point |
| Geometry.NearestIsClosest | test/unit/helpers.spec.js:346-381 | the clamped centre is the point of the rectangle nearest the circle's centre |
| Geometry.CircleHitsRectIffPointInside | test/unit/helpers.spec.js:346-381 | circle against rectangle holds exactly when some point of the rectangle lies strictly inside the circle |
| Geometry.CollidesSymmetric | test/unit/helpers.spec.js:196-232 | `collides(a, b) == collides(b, a)` for every pair of objects |
| Geometry.RectanglesCollideIffShareInterior | test/unit/helpers.spec.js:196-308 | two rectangular objects collide exactly when their world rectangles share an interior point |
| Geometry.CircleCollidesIffPointInside | test/unit/helpers.spec.js:346-381 | a uniformly scaled circle collides with a rectangle exactly when some rectangle point is strictly inside it |
| Geometry.NonUniformCircleNeverCollides | test/unit/helpers.spec.js:383-407 | a circle scaled differently on the two axes collides with nothing, in either argument position |
| Geometry.RectangleCollisionExamples | test/unit/helpers.spec.js:196-232 | a 1-unit overlap and containment collide; objects that only touch do not |
| Geometry.PlainRect | test/unit/helpers.spec.js:196-232 | an unscaled, unrotated object without anchor or parent occupies exactly its own rectangle |
| Geometry.UnscaledCircleRect | test/unit/helpers.spec.js:425-437 | an unscaled circle's world rectangle is 2r wide and high at its position |
| Geometry.CircleCollisionExamples | test/unit/helpers.spec.js:310-407 | all the asserted circle-circle results: the circle at (10, 20) meets the one at (10, 25), (19, 20) and (1, 1), misses it at (20, 20) and (0, 0), and a non-uniformly scaled circle collides with nothing |
| Geometry.CircleHitExamples | test/unit/helpers.spec.js:310-333 | the circle of radius 5 at (10, 20) meets the circle of radius 10 at (10, 25), (19, 20) and (1, 1) |
| Geometry.CircleMissExamples | test/unit/helpers.spec.js:335-407 | it misses that circle at (20, 20) and (0, 0), and scaled non-uniformly it collides with nothing |
| Geometry.CollidesCircles | test/unit/helpers.spec.js:309-343 | two unscaled circles collide exactly when their bounding squares' circles meet |
| Geometry.CollidesBoxCircle | test/unit/helpers.spec.js:346-381 | a plain rectangle and an unscaled circle collide, in either argument order, exactly when the circle reaches into the rectangle |
| Geometry.MixedCollisionHit | test/unit/helpers.spec.js:346-381 | a circle reaching into the rectangle collides |
| Geometry.MixedCollisionTouching | test/unit/helpers.spec.js:346-381 | a circle exactly its radius away does not collide |
| Geometry.MixedCollisionTouchingAbove | test/unit/helpers.spec.js:346-381 | the same with the circle above and left of the rectangle, as the first argument |
| Geometry.DepthSortIsComparator | test/unit/helpers.spec.js:517-604 | `depthSort` is zero on equal objects, antisymmetric and additive, so the order it induces is transitive |
| Geometry.DepthSortExamples | test/unit/helpers.spec.js:518-604 | the asserted differences on `y`, with anchors, with a world sub-state and on `x` |
| Vectors.SubtractUndoesAdd | test/unit/vector.spec.js:62-110 | subtracting what was added gives the original vector back, and the other way round |
| Vectors.AddLaws | test/unit/vector.spec.js:62-83 | addition is commutative and associative with the zero vector as identity |
| Vectors.DotLaws | test/unit/vector.spec.js:183-192 | the dot product `x1·x2 + y1·y2` is symmetric and linear in each argument |
| Vectors.ScaleDistributes | test/unit/vector.spec.js:123-141 | scaling distributes over addition |
| Vectors.ClampTo | test/unit/vector.spec.js:293-320 | without a box the value is kept; with a non-empty box the stored value lies inside it, and a value already inside is kept |
| Vectors.ClampToIdempotent | test/unit/vector.spec.js:293-320 | assigning an already clamped value changes nothing |
| Vectors.ClampExamples | test/unit/vector.spec.js:302-327 | the asserted clamps below and above the box, and the clamp carried by `add` |
| Vectors.Vector.constructor | test/unit/vector.spec.js:31-36 | `Vector(x, y)` holds (x, y) and has no clamp |
| Vectors.Vector.FromPoint | test/unit/vector.spec.js:38-47 | `Vector({x, y})` holds the same vector |
| Vectors.Vector.Derived | test/unit/vector.spec.js:322-327 | a vector made by `add`/`subtract` takes the clamp before the value is assigned |
| Vectors.Vector.SetX | test/unit/vector.spec.js:302-310 | the `x` setter stores the clamped value and leaves `y` |
| Vectors.Vector.SetY | test/unit/vector.spec.js:312-320 | the `y` setter stores the clamped value and leaves `x` |
| Vectors.Vector.Set | test/unit/vector.spec.js:49-57 | `set` assigns both components through the setters |
| Vectors.Vector.Clamp | test/unit/vector.spec.js:293-320 | `clamp` installs the box without moving the current value |
| Vectors.Vector.Add | test/unit/vector.spec.js:62-327 | a new vector holding the (clamped) sum carrying the receiver's clamp; neither operand changes |
| Vectors.Vector.Subtract | test/unit/vector.spec.js:89-110 | a new vector holding the difference; neither operand changes |
| Vectors.Vector.Scale | test/unit/vector.spec.js:123-141 | a new unclamped vector holding both components times k; the receiver does not change |
| Vectors.ArithmeticExamples | test/unit/vector.spec.js:62-192 | the asserted sum, difference, scaling and dot product 250 |
| GameObjects.RotateByZero | test/unit/gameObject.spec.js:664-674 | rotating by angle 0 leaves a point where it is |
| GameObjects.ClampOpacity | test/unit/gameObject.spec.js:168-176 | the stored opacity is in [0, 1], and an opacity already in [0, 1] is kept |
| GameObjects.OpacityExamples | test/unit/gameObject.spec.js:168-176 | −10 becomes 0, 10 becomes 1, 0.5 stays |
| GameObjects.RootWorld | test/unit/gameObject.spec.js:525-662 | without a parent the world position is the own position, size is own size times own scale, opacity, rotation and scale are the own values, and a radius exists exactly when one is set, scaled per axis |
| GameObjects.IdentityParentIsNoParent | test/unit/gameObject.spec.js:664-674 | a parent at the origin, unrotated, unscaled and opaque changes no world value |
| GameObjects.UnrotatedParent | test/unit/gameObject.spec.js:664-729 | below an unrotated parent the world position is the parent's plus the parent's scale times the offset |
| GameObjects.ChainStep | test/unit/gameObject.spec.js:664-770 | the world of an object deep in a hierarchy is its fields composed with the world of its parent |
| GameObjects.ChainRotationAndOpacity | test/unit/gameObject.spec.js:677-700 | down a hierarchy, world rotation is the sum of all rotations and world opacity the product of all opacities |
| GameObjects.ChainScale | test/unit/gameObject.spec.js:703-715 | world scale is the componentwise product of all scales |
| GameObjects.WorldSizeIsScaled | test/unit/gameObject.spec.js:622-746 | world size is the own size times the world scale |
| GameObjects.ChainSize | test/unit/gameObject.spec.js:731-746 | world size is the own size times the product of all ancestors' scales |
| GameObjects.ChainOpacityBounded | test/unit/gameObject.spec.js:168-686 | with every opacity in [0, 1] every world opacity is in [0, 1] |
| GameObjects.UnrotatedChainRotation | test/unit/gameObject.spec.js:690-700 | a hierarchy without rotations has world rotation 0 |
| GameObjects.UnrotatedChainPosition | test/unit/gameObject.spec.js:717-729 | without rotations, world position is the sum of each offset times the scales of all objects above it |
| GameObjects.ParentExamples | test/unit/gameObject.spec.js:664-700 | the asserted moved, faded (0.5·0.5 = 0.25) and rotated (10 + 20 = 30) parents |
| GameObjects.ScaledParentExamples | test/unit/gameObject.spec.js:703-770 | the asserted scale products, doubled offsets, sizes and per-axis radii under scaled parents |
| GameObjects.RootWorldRect | test/unit/helpers.spec.js:476-495 | `getWorldRect` of a root game object is its anchored position and scaled size |
| GameObjects.NegativeScaleWorldRect | test/unit/helpers.spec.js:459-474 | a game object with scale −2 gives the asserted flipped rectangle |
| GameObjects.Spin | test/unit/gameObject.spec.js:868-889 | `advance` adds the angular acceleration to the angular velocity, then the new angular velocity to the rotation |
| GameObjects.SpinExamples | test/unit/gameObject.spec.js:868-889 | the asserted steps 0.5 + 0.5 = 1 |
| GameObjects.GameObject.constructor | test/unit/gameObject.spec.js:38-176 | a root object with the given fields and clamped opacity, at rest, with no parent or children, its world current |
| GameObjects.GameObject.Refresh | test/unit/gameObject.spec.js:664-674 | the object's world and each child's world are recomputed from the current fields |
| GameObjects.GameObject.SetLocal | test/unit/gameObject.spec.js:533-547 | any assignment stores the fields, opacity clamped, and keeps the world current |
| GameObjects.GameObject.SetOpacity | test/unit/gameObject.spec.js:168-558 | the opacity setter clamps and keeps the world current |
| GameObjects.GameObject.SetScale | test/unit/gameObject.spec.js:1134-1148 | `setScale(x)` sets both scales to x, `setScale(x, y)` each to its own |
| GameObjects.GameObject.Advance | test/unit/gameObject.spec.js:846-901 | the inherited motion step, then the angular step; size, opacity, radius and scale are unchanged |
| GameObjects.GameObject.AddChild | test/unit/gameObject.spec.js:912-961 | the child is appended, its parent set and its world composed from this object's |
| GameObjects.GameObject.AddChildren | test/unit/gameObject.spec.js:921-940 | several children are appended in order, each with this object as parent |
| GameObjects.GameObject.RemoveChild | test/unit/gameObject.spec.js:974-1040 | a child is removed, its parent cleared and its world reset to a root's; a non-child changes nothing |
| GameObjects.GameObject.RemoveChildren | test/unit/gameObject.spec.js:984-1004 | several children are removed in order |
| GameObjects.GameObject.SetChildren | test/unit/gameObject.spec.js:1051-1071 | assigning `children` leaves exactly the new list, each child owned by this object |
| GameObjects.AddThenRemoveExample | test/unit/gameObject.spec.js:950-1040 | a child at (10, 20) under an object at (30, 40) is at (40, 60), and back at (10, 20) with no parent once removed |
| GameObjects.SetChildrenExample | test/unit/gameObject.spec.js:1053-1071 | replacing three children by one leaves exactly that one |
| GameObjects.Without | test/unit/gameObject.spec.js:974-1026 | removal takes out exactly one occurrence when present and changes nothing otherwise |
| GameObjects.WithoutAllSnoc | test/unit/gameObject.spec.js:984-1004 | removing a list of children is removing them one after the other |
| GameObjects.WithoutPrefix | test/unit/gameObject.spec.js:1053-1071 | removing the first i children in order leaves the rest |
| GameObjects.WithoutAllSelf | test/unit/gameObject.spec.js:1053-1071 | removing all children in order leaves none |
| Quadtrees.Indices | test/unit/quadtree.spec.js:135-175 | every quadrant index an object is routed to is below 4 |
| Quadtrees.IndicesAreQuadrants | test/unit/quadtree.spec.js:135-189 | the indices are exactly the quadrants the object reaches by the midline tests, none twice; an object without geometry reaches none |
| Quadtrees.SingleQuadrant | test/unit/quadtree.spec.js:135-175 | an object on one side of both midlines goes to exactly one quadrant |
| Quadtrees.Split | test/unit/quadtree.spec.js:90-210 | a split node has an empty own list; fresh subnodes are the four quarter leaves one level deeper, an existing subnode array is kept |
| Quadtrees.AddObject | test/unit/quadtree.spec.js:53-245 | adding keeps the tree well formed, its bounds and its depth, and never drops existing subnodes |
| Quadtrees.Route | test/unit/quadtree.spec.js:177-189 | routing an object into subnodes keeps the node split and well formed |
| Quadtrees.RouteAll | test/unit/quadtree.spec.js:135-175 | routing a list keeps the node split and well formed |
| Quadtrees.AddAll | test/unit/quadtree.spec.js:78-88 | `add(...objects)` keeps the tree well formed |
| Quadtrees.AddToLeaf | test/unit/quadtree.spec.js:72-245 | a leaf with room, or at `maxDepth`, appends the object to its own list |
| Quadtrees.AddAllToLeaf | test/unit/quadtree.spec.js:72-88 | objects that fit are appended in order, whether passed one by one or as a list |
| Quadtrees.SplitOnOverflow | test/unit/quadtree.spec.js:90-133 | the object that takes a full leaf above `maxObjects` splits it: own list empty, exactly four subnodes, the quarters of its bounds one level deeper |
| Quadtrees.Routed | test/unit/quadtree.spec.js:135-175 | the objects routed to a quadrant are at most the objects given |
| Quadtrees.RoutedMembers | test/unit/quadtree.spec.js:135-175 | an object is routed to a quadrant exactly when it is given and reaches that quadrant |
| Quadtrees.RoutedDistinct | test/unit/quadtree.spec.js:135-175 | no quadrant receives an object twice |
| Quadtrees.RouteIntoLeaves | test/unit/quadtree.spec.js:177-189 | routing into leaf subnodes appends the object to exactly the listed subnodes |
| Quadtrees.RouteFirst | test/unit/quadtree.spec.js:135-175 | one routing step sends the first object to its quadrants and leaves room for the rest |
| Quadtrees.RouteAllIntoLeaves | test/unit/quadtree.spec.js:135-175 | each subnode receives exactly the objects reaching its quadrant, in order |
| Quadtrees.SplitDistributes | test/unit/quadtree.spec.js:135-175 | after a split each subnode leaf holds exactly the node's objects that reach its quadrant, in order |
| Quadtrees.AddToSplitNode | test/unit/quadtree.spec.js:177-189 | once split, a new object goes to the subnodes of its quadrants only; one without geometry changes nothing |
| Quadtrees.Others | test/unit/quadtree.spec.js:389-401 | a leaf answers with its objects other than the query |
| Quadtrees.Union | test/unit/quadtree.spec.js:403-424 | collected results contain each object once |
| Quadtrees.CollectMembers | test/unit/quadtree.spec.js:341-424 | the results of a split node are what the subnodes of the queried quadrants return, free of repeats |
| Quadtrees.GetExcludesQuery | test/unit/quadtree.spec.js:389-401 | `get` never returns the query object |
| Quadtrees.GetOfSplitNodeIsDistinct | test/unit/quadtree.spec.js:403-424 | `get` returns each object at most once |
| Quadtrees.GetOfSplitNode | test/unit/quadtree.spec.js:341-387 | an object is returned exactly when some subnode of a quadrant the query reaches returns it |
| Quadtrees.GetIsStored | test/unit/quadtree.spec.js:325-387 | everything `get` returns is stored in the tree |
| Quadtrees.ClearNode | test/unit/quadtree.spec.js:266-300 | `clear` leaves bounds, depth and the subnode array in place, with every list empty and no node split |
| Quadtrees.ClearEmpties | test/unit/quadtree.spec.js:266-300 | after `clear` the tree stores nothing |
| Quadtrees.ClearKeepsStructure | test/unit/quadtree.spec.js:282-300 | `clear` keeps a well formed tree well formed |
| Quadtrees.NoGeometryKeepsSubnodes | test/unit/quadtree.spec.js:191-210 | adding objects without geometry never creates or replaces subnodes |
| Quadtrees.RouteAllUnrouted | test/unit/quadtree.spec.js:177-189 | routing objects without geometry changes nothing |
| Quadtrees.RefillReusesSubnodes | test/unit/quadtree.spec.js:191-210 | refilling a node keeps its subnode array |
| Quadtrees.ClearThenRefill | test/unit/quadtree.spec.js:191-210 | a cleared and refilled tree keeps the same subnode array rather than splitting again |
| Quadtrees.QuarterExamples | test/unit/quadtree.spec.js:104-133 | the quarters of a 100x100 box are top-left, top-right, bottom-left, bottom-right |
| Quadtrees.DiagonalRouting | test/unit/quadtree.spec.js:135-175 | the asserted objects' quadrants, straddlers in two |
| Quadtrees.FillThenSplit | test/unit/quadtree.spec.js:90-175 | filling a leaf with one object more than `maxObjects` splits it and distributes every object |
| Quadtrees.AddAllSplit | test/unit/quadtree.spec.js:78-88 | adding two lists in turn is adding their concatenation |
| Quadtrees.DiagonalSplitExample | test/unit/quadtree.spec.js:135-175 | the asserted subnode contents after the sixth object |
| Quadtrees.OutsideRouting | test/unit/quadtree.spec.js:212-245 | objects outside the bounds are still routed by the midline tests |
| Quadtrees.OutOfBoundsExample | test/unit/quadtree.spec.js:212-245 | at `maxDepth` the subnodes hold three objects each above `maxObjects` without splitting |
| Quadtrees.GetFromLeafExamples | test/unit/quadtree.spec.js:325-401 | the asserted answers of a leaf |
| Quadtrees.Quadtree.constructor | test/unit/quadtree.spec.js:15-51 | the options are stored and the root is an empty leaf over the bounds |
| Quadtrees.Quadtree.Add | test/unit/quadtree.spec.js:53-245 | the root becomes the old root with the objects added in order |
| Quadtrees.Quadtree.Clear | test/unit/quadtree.spec.js:251-300 | the root becomes the cleared old root |
| Quadtrees.Quadtree.Get | test/unit/quadtree.spec.js:325-401 | `get` on a tree never returns the query object and returns only objects stored in the tree |
| Updatables.Step | test/unit/updatable.spec.js:226-320 | one `advance` keeps the acceleration and lowers a finite ttl by one (an infinite one stays infinite) |
| Updatables.StepWithTimeStep | test/unit/updatable.spec.js:242-285 | with a time step, velocity gains acceleration·dt and position gains the new velocity·dt |
| Updatables.VelocityAfterUpdates | test/unit/updatable.spec.js:231-262 | after n updates without a time step the velocity is v + n·a |
| Updatables.PositionAfterUpdates | test/unit/updatable.spec.js:265-295 | after n updates the position is p + n·v + (1 + … + n)·a |
| Updatables.AliveAfterUpdates | test/unit/updatable.spec.js:183-315 | after n updates a finite ttl is ttl − n, and the object is alive exactly while that stays above 0 |
| Updatables.AdvanceWithoutTimeStepExamples | test/unit/updatable.spec.js:231-315 | the asserted sums (5,10)+(15,20) and ttl 10 → 9 |
| Updatables.AdvanceWithTimeStepExamples | test/unit/updatable.spec.js:242-285 | the asserted steps with dt = 0.5 |
| Updatables.Updatable.constructor | test/unit/updatable.spec.js:43-108 | position zero, the given velocity and acceleration, and the given ttl or an infinite one when none is given |
| Updatables.Updatable.SetDx | test/unit/updatable.spec.js:121-127 | `dx` writes the velocity's x component only |
| Updatables.Updatable.SetDy | test/unit/updatable.spec.js:134-139 | `dy` writes the velocity's y component only |
| Updatables.Updatable.SetDdx | test/unit/updatable.spec.js:152-158 | `ddx` writes the acceleration's x component only |
| Updatables.Updatable.SetDdy | test/unit/updatable.spec.js:165-170 | `ddy` writes the acceleration's y component only |
| Updatables.Updatable.Advance | test/unit/updatable.spec.js:226-320 | the new state is one integration step of the old |
| Updatables.Updatable.Update | test/unit/updatable.spec.js:205-222 | `update(dt)` is `advance(dt)` |
| Pools.CheckCreate | test/unit/pool.spec.js:36-64 | construction succeeds exactly when `create` is passed and returns an object carrying `init`, `update`, `render` and `isAlive`, and then stores that object |
| Pools.GrowLen | test/unit/pool.spec.js:116-157 | when every stored object is in use and the storage is below `maxSize`, it doubles, capped at `maxSize`; otherwise its length is unchanged |
| Pools.Grown | test/unit/pool.spec.js:116-157 | growth keeps every stored object in place and appends only fresh objects, up to the new length |
| Pools.GetsFromNew | test/unit/pool.spec.js:116-157 | n gets on a new pool (n at most `maxSize`) put n objects in use and leave the least power of two holding n, capped at `maxSize`, as storage |
| Pools.GetsPastMax | test/unit/pool.spec.js:130-141 | once `maxSize` gets have happened, further gets leave both the storage and the size at `maxSize` |
| Pools.GetExamples | test/unit/pool.spec.js:116-157 | 129 gets with `maxSize` 500 leave 256 stored objects and a size of 129; 10 gets with `maxSize` 5 stop at 5 |
| Pools.DeadIn | test/unit/pool.spec.js:208-274 | the number of dead objects in a range is at most the range's length |
| Pools.Keep | test/unit/pool.spec.js:239-274 | taking the objects of one liveness never yields more objects than there are |
| Pools.Stepped | test/unit/pool.spec.js:209-237 | update applies the step to the objects in use and leaves the storage's length alone |
| Pools.KeepLength | test/unit/pool.spec.js:239-274 | the living and the dead objects together are as many as all the objects |
| Pools.KeepSplits | test/unit/pool.spec.js:239-274 | the living and the dead objects together are, as a multiset, exactly the stored objects |
| Pools.KeepMembers | test/unit/pool.spec.js:164-203 | an object is among those kept for a liveness exactly when it is stored and has that liveness |
| Pools.KeepOfDeadRange | test/unit/pool.spec.js:164-203 | when everything past a prefix is dead, the living objects are those of the prefix and the dead ones are the prefix's dead plus the whole tail |
| Pools.KeepCount | test/unit/pool.spec.js:185-203 | the number of living objects is the length minus the number of dead ones |
| Pools.KeepAllAlive | test/unit/pool.spec.js:209-237 | with no dead object, keeping the living keeps the whole sequence in order |
| Pools.SweptPermutes | test/unit/pool.spec.js:239-274 | update only reorders the (updated) stored objects, and the new size is the number of objects in use still alive afterwards |
| Pools.SweptSettles | test/unit/pool.spec.js:185-274 | on a pool whose unused objects are all dead, after update the objects in use are exactly the living ones in their old order and the unused ones stay dead |
| Pools.GetKeepsSettled | test/unit/pool.spec.js:88-157 | a get that hands out an object keeps every object past the new size dead, given that fresh objects are dead |
| Pools.TickFive | test/unit/pool.spec.js:239-274 | one update lowers the `ttl` of each of the five sprites by one |
| Pools.KeepFive | test/unit/pool.spec.js:239-274 | after that update the third sprite is the only dead one; the other four stay alive in order |
| Pools.UpdateExample | test/unit/pool.spec.js:239-274 | of five sprites the third, with `ttl` 1, dies on update and moves to the end, behind the other four in order, and the size becomes 4 |
| Pools.Pool.constructor | test/unit/pool.spec.js:66-81 | a new pool stores one fresh object, has none in use and keeps the given `maxSize` |
| Pools.Pool.AliveObjects | test/unit/pool.spec.js:164-203 | `getAliveObjects` returns exactly the first `size` stored objects, in order |
| Pools.Pool.Get | test/unit/pool.spec.js:88-157 | `get` returns nothing exactly when every stored object is in use and the pool has hit `maxSize`, and then changes nothing; otherwise it grows the storage as `Grown` says, initialises the next free object with the properties, returns it and raises the size by one |
| Pools.Pool.Update | test/unit/pool.spec.js:208-274 | `update` leaves the pool in the state `Swept` gives: every object in use updated, the size lowered by the dead, and, if any died, the storage stably sorted living first |
| Pools.Pool.Clear | test/unit/pool.spec.js:315-331 | `clear` leaves one fresh object stored and none in use |
| Pools.NewPool | test/unit/pool.spec.js:35-81 | `Pool(...)` succeeds exactly when `CheckCreate` accepts `create`, and then stores one object with size 0 and `maxSize` defaulting to 1024 |
| SpriteSheets.FramesPerRowFits | test/unit/spriteSheet.spec.js:26-67 | `_f` is the number of whole frames that fit in the image width beside the margin: that many frames fit and one more does not |
| SpriteSheets.FramesPerRowExamples | test/unit/spriteSheet.spec.js:26-67 | a 100 pixel wide image of 10 pixel frames holds 9 to a row beside a margin of 10 and 10 without one |
| SpriteSheets.Split | test/unit/spriteSheet.spec.js:105-129 | splitting a string on `..` always gives at least one piece |
| SpriteSheets.JoinSplit | test/unit/spriteSheet.spec.js:105-129 | joining the pieces of a split with `..` gives back the original string |
| SpriteSheets.SplitWithoutSeparator | test/unit/spriteSheet.spec.js:94-103 | a string without `..` splits into itself alone |
| SpriteSheets.ToNumber | test/unit/spriteSheet.spec.js:105-129 | the empty piece reads as 0 and a run of digits as a non-negative number |
| SpriteSheets.DigitsValueOfDigits | test/unit/spriteSheet.spec.js:105-129 | reading back the decimal digits of a number gives that number |
| SpriteSheets.ToNumberOfShow | test/unit/spriteSheet.spec.js:105-129 | reading back the decimal text of any whole number, negative ones included, gives that number |
| SpriteSheets.RangeContents | test/unit/spriteSheet.spec.js:105-129 | the range from a to b holds every frame from a to b inclusive, one step apart, in the direction of b |
| SpriteSheets.RangeReverses | test/unit/spriteSheet.spec.js:105-129 | the range from b to a is the range from a to b read backwards |
| SpriteSheets.ParseRangeText | test/unit/spriteSheet.spec.js:105-129 | the text `a..b` of two whole numbers expands to the range from a to b |
| SpriteSheets.SplitDigits | test/unit/spriteSheet.spec.js:105-129 | two digit runs around `..` split into exactly those two runs |
| SpriteSheets.ShortRangeText | test/unit/spriteSheet.spec.js:105-129 | a range string with single-digit ends expands to the range between them |
| SpriteSheets.SingleNumberExample | test/unit/spriteSheet.spec.js:94-103 | a single number is a one-frame list |
| SpriteSheets.AscendingExample | test/unit/spriteSheet.spec.js:105-116 | `'1..5'` expands to 1, 2, 3, 4, 5 |
| SpriteSheets.DescendingExample | test/unit/spriteSheet.spec.js:118-129 | `'5..1'` expands to 5, 4, 3, 2, 1 |
| SpriteSheets.NoRangeExamples | test/unit/spriteSheet.spec.js:94-129 | a string without `..`, or one whose ends are not numbers, gives no frames |
| SpriteSheets.RangeTextExamples | test/unit/spriteSheet.spec.js:157-168 | `'2..3'` expands to 2, 3 and `'4..1'` to 4, 3, 2, 1 |
| SpriteSheets.ExpandAllAppend | test/unit/spriteSheet.spec.js:131-168 | expanding an array is expanding its two halves one after the other |
| SpriteSheets.SingleIsMany | test/unit/spriteSheet.spec.js:94-142 | a single entry and an array holding only that entry give the same frames |
| SpriteSheets.ExpandNumbers | test/unit/spriteSheet.spec.js:131-155 | an array of plain numbers is taken as it is, consecutive or not |
| SpriteSheets.ExpandOne | test/unit/spriteSheet.spec.js:131-168 | an array of one entry expands to that entry's frames |
| SpriteSheets.MixedExample | test/unit/spriteSheet.spec.js:157-168 | `[1, '2..3', 4, 5, '4..1']` expands to 1, 2, 3, 4, 5, 4, 3, 2, 1 |
| SpriteSheets.Storable | test/unit/spriteSheet.spec.js:84-92 | the entries stored are exactly those before the first entry without `frames` |
| SpriteSheets.SpriteSheet.constructor | test/unit/spriteSheet.spec.js:26-67 | the sheet keeps the image and frame size, defaults margin and spacing to 0, computes `_f` from width and margin only, and starts with no animations |
| SpriteSheets.SpriteSheet.CreateAnimations | test/unit/spriteSheet.spec.js:73-168 | it fails exactly when some entry lacks `frames`, with that entry's message; every entry before it is stored under its name as a new animation of the expanded frames, and other stored animations are untouched |
| SpriteSheets.NewSpriteSheet | test/unit/spriteSheet.spec.js:17-67 | building fails without an image, or when a given animation lacks `frames`; otherwise the sheet holds exactly the given animations |
| Animations.Due | test/unit/animation.spec.js:118-164 | the number of whole frame periods due is the whole part of the accumulated periods, and 0 below one period |
| Animations.Tick | test/unit/animation.spec.js:118-177 | one update keeps the frame index within the frame list |
| Animations.Advance | test/unit/animation.spec.js:125-149 | the catch-up keeps the frame index within the frame list |
| Animations.CatchPeriods | test/unit/animation.spec.js:125-149 | taking k frame periods off the accumulator lowers the periods it holds by exactly k |
| Animations.AdvanceLeavesPartialPeriod | test/unit/animation.spec.js:118-149 | after a running update the accumulator holds less than one frame period |
| Animations.AdvanceMovesByDue | test/unit/animation.spec.js:118-149 | a running update moves the index on by the whole periods due, wrapping round the frame list, and with none due changes only the accumulator |
| Animations.TickKeepsNonNegative | test/unit/animation.spec.js:118-149 | with a positive frame rate and a non-negative time step, the accumulator stays non-negative |
| Animations.CatchUp | test/unit/animation.spec.js:118-149 | the catch-up loop of `update` ends exactly in the state `Advance` describes |
| Animations.Run | test/unit/animation.spec.js:118-177 | repeated updates keep the frame index within the frame list |
| Animations.RunAdds | test/unit/animation.spec.js:125-164 | m updates followed by n more are m + n updates |
| Animations.NonLoopHoldsLastFrame | test/unit/animation.spec.js:151-164 | a non-looping animation on its last frame stays there and is stopped after any update |
| Animations.StoppedStays | test/unit/animation.spec.js:166-177 | a stopped animation does not change however often it is updated |
| Animations.UpdateExamples | test/unit/animation.spec.js:118-137 | at 30 frames per second, one default update stays on frame 0, three reach frame 1, and one update of 1/30 s reaches frame 1 |
| Animations.TwoUpdatesOneFrame | test/unit/animation.spec.js:125-149 | two default updates move one frame on from an empty accumulator |
| Animations.SixUpdates | test/unit/animation.spec.js:139-164 | six default updates from the start reach the last of four frames |
| Animations.LoopingHalfRate | test/unit/animation.spec.js:139-149 | looping, every two default updates move one frame on, round and round the frame list |
| Animations.LoopingOddUpdates | test/unit/animation.spec.js:139-149 | looping, 2m + 1 default updates from an empty accumulator are m frames on, with half a period accumulated (seven updates: frame 3; eight: back on frame 0 by `LoopingHalfRate`) |
| Animations.NonLoopExample | test/unit/animation.spec.js:151-164 | not looping, seven updates reach frame 3 and the eighth leaves it there, stopped |
| Animations.RowCol | test/unit/animation.spec.js:180-318 | frame numbers are laid out row by row: the column is below the frames per row and row · cols + column gives the frame back |
| Animations.CellOffsetSteps | test/unit/animation.spec.js:241-318 | neighbouring cells are one frame and two spacings apart, and the first starts after the margin and one spacing |
| Animations.Animation.constructor | test/unit/animation.spec.js:35-50 | a new animation keeps its configuration, takes its frame size, margin and spacing from the sheet, loops unless told not to, and starts on frame 0, running, with an empty accumulator |
| Animations.Animation.Clone | test/unit/animation.spec.js:52-62 | `clone` is a new animation with the same configuration, starting over |
| Animations.Animation.Reset | test/unit/animation.spec.js:64-77 | `reset` goes back to frame 0 with an empty accumulator |
| Animations.Animation.Start | test/unit/animation.spec.js:79-104 | `start` unstops the animation; a non-looping one also starts over, and a looping one keeps its place |
| Animations.Animation.Stop | test/unit/animation.spec.js:106-116 | `stop` stops the animation |
| Animations.Animation.Update | test/unit/animation.spec.js:118-177 | `update(dt = 1/60)` leaves the playback state that `Tick` gives |
| Animations.Animation.Render | test/unit/animation.spec.js:180-318 | `render` draws the cell of the current frame, at the column and row of its frame number, at (x, y) in the animation's size |
| Animations.RenderExamples | test/unit/animation.spec.js:180-318 | with frames of 5 two to a row, frame 1 is cut at (5, 0) and frame 3 at (5, 5); spacing 1 moves that to 8, margin 5 to 10, and both to 13 |
| Grids.Span | test/unit/grid.spec.js:757-843 | a child spans at least one column, 1 unless it sets `colSpan` |
| Grids.SlotOf | test/unit/grid.spec.js:382-520 | children fill the rows left to right, so every child's column is below the number of columns |
| Grids.ColWidths | test/unit/grid.spec.js:382-520 | there is one width per column |
| Grids.RowHeights | test/unit/grid.spec.js:382-520 | there is one height per row that holds a child |
| Grids.ColumnSlots | test/unit/grid.spec.js:77-124 | in a column every child starts a row of its own |
| Grids.RowSlots | test/unit/grid.spec.js:211-260 | in a row of single-column children, child k is in column k |
| Grids.ColWidthsAreMaxima | test/unit/grid.spec.js:103-106 | a column is as wide as the widest share of the children covering it: every share fits, a width above 0 is some child's share, and no width is below 0 |
| Grids.SlotRows | test/unit/grid.spec.js:382-520 | the row of every placed child is among the rows on record |
| Grids.RaiseFacts | test/unit/grid.spec.js:243-246 | making a row hold a child keeps the other rows, never lowers it, and leaves it at the child's height, its old height, or 0 for a new row |
| Grids.RowHeightsNonNegative | test/unit/grid.spec.js:382-520 | every row is at least 0 tall |
| Grids.RowHeightFits | test/unit/grid.spec.js:243-246 | each child's row is on record and at least as tall as the child |
| Grids.RowHeightAttained | test/unit/grid.spec.js:243-246 | a row taller than 0 is exactly as tall as one of its children |
| Grids.CellStartStep | test/unit/grid.spec.js:247-294 | each column starts where the one before it ends plus its gap, taken round-robin from the gap list |
| Grids.CellStartZero | test/unit/grid.spec.js:247-260 | the first column starts at 0 |
| Grids.SingleGap | test/unit/grid.spec.js:125-141 | with a single gap g, k gaps total k · g |
| Grids.GapsCycle | test/unit/grid.spec.js:142-158 | a gap list is used round-robin: a whole round of it adds its sum |
| Grids.GapsRound | test/unit/grid.spec.js:142-158 | the first m gaps, m no more than the list's length, are its first m entries |
| Grids.RtlMirrors | test/unit/grid.spec.js:343-381 | right to left mirrors each child's cell across the grid's width, after taking off the anchor shifts, and leaves its y alone |
| Grids.InsetIgnoresDirection | test/unit/grid.spec.js:343-381 | neither the direction nor the grid's anchor changes where a child sits inside its cell |
| Grids.GridAnchorShifts | test/unit/grid.spec.js:159-175 | the grid's anchor moves every child back by that share of the grid's width and height |
| Grids.ChildAnchorShifts | test/unit/grid.spec.js:176-191 | a child's own anchor moves it on by that share of its own width and height |
| Grids.InsetIgnoresAnchor | test/unit/grid.spec.js:176-191 | a child's anchor does not change where it sits inside its cell |
| Grids.SlotOfIgnoresAnchor | test/unit/grid.spec.js:176-191 | the cells children land in do not depend on anchors |
| Grids.OffsetBounds | test/unit/grid.spec.js:521-702 | alignment puts an item at the start, exactly halfway, or flush with the end of the spare room |
| Grids.FireLast | test/unit/grid.spec.js:844-866 | with no metric holding nothing fires; otherwise the breakpoint on record is the last one whose metric holds |
| Grids.FireQuiet | test/unit/grid.spec.js:868-892 | from a record of q, nothing fires exactly when the only metric holding, if any, is q's, and then q stays on record |
| Grids.RefireOnlyWhenSeveralHold | test/unit/grid.spec.js:868-892 | rendering again with the same metric results fires nothing exactly when at most one metric holds |
| Grids.OnlyOneTrue | test/unit/grid.spec.js:868-892 | when one metric holds and no more than one does, it is the only one |
| Grids.CountTrueAtLeast | test/unit/grid.spec.js:868-892 | a metric that holds is counted |
| Grids.OtherTrue | test/unit/grid.spec.js:868-892 | with two metrics holding, one of them is not q |
| Grids.SomeTrue | test/unit/grid.spec.js:844-866 | with a metric counted as holding, there is one |
| Grids.Grid.constructor | test/unit/grid.spec.js:16-123 | a new grid is a column with `start` alignment, no gaps, one column, no direction and no breakpoint fired, and it is laid out at once: its layout is `Measure` of the children and every child sits where `Place` puts it, with no layout pending |
| Grids.Grid.WithOptions | test/unit/grid.spec.js:29-123 | a grid built with every property given keeps each of them and is laid out at once: `Measure` of the children under those settings, every child where `Place` puts it, no layout pending |
| Grids.Grid.Set | test/unit/grid.spec.js:29-50 | setting a property changes that property alone and marks the layout out of date |
| Grids.Grid.Prerender | test/unit/grid.spec.js:71-843 | `_p` leaves the layout `Measure` gives and the position `Place` gives to every child, and clears the mark |
| Grids.MeasureCells | test/unit/grid.spec.js:71-843 | the measuring pass leaves every column as wide as `ColWidths` and every row as tall as `RowHeights` say for all children |
| Grids.PlaceAll | test/unit/grid.spec.js:71-843 | the placing pass gives every child, in order, the position `Place` gives it |
| Grids.Grid.Render | test/unit/grid.spec.js:844-892 | `render` fires the breakpoints `Fire` selects and records the last, redoes the layout exactly when it was marked, and clears the mark |
| TileEngines.CellOf | test/unit/tileEngine.spec.js:509-543 | a non-negative pixel coordinate falls in the cell whose span of `size` pixels contains it; a zero tile size gives cell 0 |
| TileEngines.IndexLocatesPixel | test/unit/tileEngine.spec.js:505-556 | a pixel position has an index exactly when it is on the map and reads -1 otherwise; on a map no wider than its tiles, the column and row the index encodes are the tile whose span holds the point |
| TileEngines.Tiles | test/unit/tileEngine.spec.js:624-663 | an array as layer data holds exactly its indices, each with its own tile |
| TileEngines.LookUpTiles | test/unit/tileEngine.spec.js:485-556 | a layer made from an array literal reads element i at an index inside the literal and `undefined` at any other index; a layer that is not there reads -1 |
| TileEngines.ReadAfterWrite | test/unit/tileEngine.spec.js:566-614 | after `setTileAtLayer` the tile reads back, every other index and every other layer reads as before, and the layer is dirty |
| TileEngines.WriteIgnored | test/unit/tileEngine.spec.js:600-606 | a write to an unknown layer or off the map changes nothing |
| TileEngines.PixelAndCellAgree | test/unit/tileEngine.spec.js:509-543 | a pixel position on the map reads the same tile as the row and column containing it |
| TileEngines.CameraClamp | test/unit/tileEngine.spec.js:182-237 | the camera stays within 0 and the map size beyond the canvas (0 for a smaller map), keeps a value already in range, and snaps values below or above to the nearer end |
| TileEngines.SmallMapDoesNotScroll | test/unit/tileEngine.spec.js:229-237 | a map no larger than the canvas cannot scroll |
| TileEngines.CameraExamples | test/unit/tileEngine.spec.js:205-237 | on a 600-pixel canvas a 700-pixel map keeps 10, clamps -10 to 0 and 1000 to 100, and a 500-pixel map keeps 0 |
| TileEngines.CameraClampIdempotent | test/unit/tileEngine.spec.js:205-237 | clamping the camera twice is clamping it once |
| TileEngines.TilesetFor | test/unit/tileEngine.spec.js:804-843 | the tileset chosen is the last one whose `firstgid` the gid reaches, or the first when none does: every later one does not reach it |
| TileEngines.SourceCornerRecovers | test/unit/tileEngine.spec.js:941-1076 | the source corner gives back the tile's column (below the column count) and row, which together count back to gid − firstgid |
| TileEngines.Decode | test/unit/tileEngine.spec.js:1078-1362 | stripping the three flip bits leaves a gid below the diagonal flag |
| TileEngines.DecodeEncode | test/unit/tileEngine.spec.js:1078-1362 | decoding a Tiled tile gives back its flip flags and its gid |
| TileEngines.EncodeDecode | test/unit/tileEngine.spec.js:1078-1362 | every stored value, to the 32 bits `&` keeps, is the encoding of the flags and gid it decodes to |
| TileEngines.FlipOpsRealiseTiled | test/unit/tileEngine.spec.js:1078-1362 | the canvas transformations set for a flipped tile put every pixel of it where Tiled's flip flags say (turned tiles being square) |
| TileEngines.DiagonalRealisesTiled | test/unit/tileEngine.spec.js:1222-1320 | for a diagonal flip the turn about the cell's centre, with or without a mirror, puts every pixel where Tiled says |
| TileEngines.AxisFlipsRealiseTiled | test/unit/tileEngine.spec.js:1078-1220 | horizontal and vertical flips mirror about the cell's far edge and put every pixel where Tiled says |
| TileEngines.ApplyTwo | test/unit/tileEngine.spec.js:1078-1220 | two transformations set in order act on a drawn point last one first |
| TileEngines.ApplyThree | test/unit/tileEngine.spec.js:1222-1320 | three transformations set in order act on a drawn point last one first |
| TileEngines.FlipOpsExamples | test/unit/tileEngine.spec.js:1078-1320 | the translate, rotate and scale calls of the tests for horizontal, vertical, combined and both diagonal flips of a 10-pixel tile |
| TileEngines.DrawTile | test/unit/tileEngine.spec.js:680-1362 | tile 0 draws nothing and every other tile draws from the tileset its gid, flags stripped, selects |
| TileEngines.DrawTileExamples | test/unit/tileEngine.spec.js:941-1125 | tile 13 on a 5-column tileset is cut at (22, 22) with spacing 1, (30, 30) with margin 10 and (32, 32) with both; tile 3 flipped horizontally at (20, 0) with its mirror |
| TileEngines.TilesetForExample | test/unit/tileEngine.spec.js:804-843 | gid 49 with tilesets from 1, 50 and 100 belongs to the first, after looking at the last |
| TileEngines.FindTileset | test/unit/tileEngine.spec.js:804-843 | the tileset search loop of `renderLayer` picks the tileset `TilesetFor` gives |
| TileEngines.TileEngine.constructor | test/unit/tileEngine.spec.js:33-61 | the engine keeps the map's properties, its map size is width · tilewidth by height · tileheight, the camera is clamped, the layers are stored by name, and it starts dirty |
| TileEngines.TileEngine.SetSx | test/unit/tileEngine.spec.js:205-237 | setting `sx` stores it clamped to the map and changes nothing else |
| TileEngines.TileEngine.SetSy | test/unit/tileEngine.spec.js:205-237 | setting `sy` stores it clamped to the map and changes nothing else |
| TileEngines.TileEngine.TileAtLayer | test/unit/tileEngine.spec.js:485-556 | `tileAtLayer` gives -1 for an unknown layer and nothing for a pixel position off the map |
| TileEngines.TileEngine.SetTileAtLayer | test/unit/tileEngine.spec.js:566-614 | `setTileAtLayer` writes the tile as `Write` says and marks the engine dirty exactly when it wrote; the camera is unchanged |
| TileEngines.TileEngine.SetLayer | test/unit/tileEngine.spec.js:624-670 | `setLayer` replaces all of a known layer's tiles and marks it and the engine dirty; an unknown layer is ignored |
| TileEngines.TileEngine.LayerCollidesWith | test/unit/tileEngine.spec.js:399-474 | an object collides exactly when a non-zero tile lies in the rows and columns its world rectangle touches, far edges included |
| TileEngines.CollidesWithSolidTile | test/unit/tileEngine.spec.js:434-443 | on the 50 × 50 map with layer `[0, 0, 1, 0, 0]`, the object at (25, 5) collides |
| TileEngines.MissBelowFirstRow | test/unit/tileEngine.spec.js:424-454 | on that map, any plain object whose rectangle starts below the first row does not collide |
| TileEngines.AnchoredCollides | test/unit/tileEngine.spec.js:456-474 | the object at (30, 10) misses, and anchored at its centre it collides |
| TileEngines.CollidesExamples | test/unit/tileEngine.spec.js:424-454 | (10, 10) misses, (25, 5) collides, and the object at (100, 100) off the map misses |
| TileEngines.TileEngine.RenderLayer | test/unit/tileEngine.spec.js:680-913 | `renderLayer` redraws exactly when the layer was never drawn or is dirty, and the layer is then drawn and clean |
| TileEngines.TileEngine.Render | test/unit/tileEngine.spec.js:249-307 | `render` prerenders exactly when the engine was dirty, and it is then clean |
| TileEngines.TileEngine.GetPosition | test/unit/tileEngine.spec.js:1542-1640 | `getPosition` moves the pointer by the canvas corner and the camera, and gives the row and column of the cells containing it |
| TileEngines.LayerMapOf | test/unit/tileEngine.spec.js:33-61 | every layer is stored under its name, clean, with its tiles, the last of a name winning |
| TileEngines.GetPositionAddressesTile | test/unit/tileEngine.spec.js:1542-1640 | the row and column `getPosition` gives index the same tile as its pixel position |
| TileEngines.IndexExamples | test/unit/tileEngine.spec.js:509-556 | on the 50 × 50 map of 10-pixel tiles (0, 0) is index 0, (20, 9) is 2, (30, 10) and row 1 column 3 are 53, and (-10, 0) is off the map |
| TileEngines.TileAtExamples | test/unit/tileEngine.spec.js:485-556 | on the layer `[0, 0, 1, 0, 0]` index 2 reads 1, index 53 and -1 read nothing, and layer "foo" reads -1 |
| TileEngines.SetTileExample | test/unit/tileEngine.spec.js:566-614 | setting row 1 column 2 writes index 52, past the end of the original data, and marks the layer dirty; "foo" is ignored |
| Events.Without | test/unit/events.spec.js:55-88 | `off` leaves no copy of the callback, keeps every other registered callback, adds nothing and never lengthens the list |
| Events.WithoutAbsent | test/unit/events.spec.js:74-80 | taking out a callback that was never added leaves the list as it was |
| Events.WithoutAppend | test/unit/events.spec.js:55-72 | taking a callback out of two lists joined is taking it out of each |
| Events.OnThenOff | test/unit/events.spec.js:16-60 | `off` undoes an `on` of a new callback |
| Events.OffKeepsOthers | test/unit/events.spec.js:61-72 | removing one of three callbacks keeps the other two in their order |
| Events.Emitter.constructor | test/unit/events.spec.js:16-20 | a new emitter has no callbacks |
| Events.Emitter.On | test/unit/events.spec.js:16-42 | `on` creates the event's list when needed and appends the callback, leaving other events alone |
| Events.Emitter.Off | test/unit/events.spec.js:44-92 | `off` takes the callback out of that event's list only; an unknown callback or event is no error |
| Events.Emitter.Emit | test/unit/events.spec.js:94-138 | `emit` calls every callback of the event once, in registration order, each with all the arguments; an unknown event makes no call |
| Plugins.LowerLaws | test/unit/plugin.spec.js:34-104 | lowering leaves no upper-case letter and is idempotent; it maps `A`..`Z` onto `a`..`z` and no two upper-case letters to the same one |
| Plugins.FirstUpper | test/unit/plugin.spec.js:34-104 | the position found holds an upper-case letter with none before it, and none is found exactly when there is none |
| Plugins.MethodOf | test/unit/plugin.spec.js:34-104 | a property targets a method exactly when its name has an upper-case letter; the method is the rest of the name from there, that letter lowered |
| Plugins.MethodAfterPrefix | test/unit/plugin.spec.js:34-104 | a lower-case prefix followed by a capitalised name targets that name with its first letter lowered |
| Plugins.RoleOfPrefixed | test/unit/plugin.spec.js:62-98 | for every capitalised name `X`, `beforeX` is a before-hook of `x` and `afterX` an after-hook of `x`, and behind any other lower-case prefix the property only targets `x` |
| Plugins.RegisterOne | test/unit/plugin.spec.js:39-98 | registering a property adds an interceptor entry exactly for a method the prototype has and the property targets |
| Plugins.Pushes | test/unit/plugin.spec.js:62-70 | a plugin contributes at most one hook per property |
| Plugins.RemoveFirst | test/unit/plugin.spec.js:241-289 | taking a function out removes exactly one entry when it is there and changes nothing otherwise |
| Plugins.UnregisterOne | test/unit/plugin.spec.js:257-265 | unregistering never adds or removes an interceptor entry |
| Plugins.RegisterAppends | test/unit/plugin.spec.js:39-104 | after registering, each before- and after-list of a method is the old list followed by the plugin's hooks for it in order; a method the prototype lacks gets no entry |
| Plugins.RegisterOneAppends | test/unit/plugin.spec.js:39-104 | registering one property appends its hook, if any, to the list of a method the prototype has, and appends nothing otherwise |
| Plugins.RegisterAppendsAgain | test/unit/plugin.spec.js:72-78 | registering a one-hook plugin on a list that already holds that hook gives a list holding it twice |
| Plugins.UnregisterRemoves | test/unit/plugin.spec.js:241-289 | after unregistering, each list has the plugin's hooks taken out one by one, and the set of intercepted methods is unchanged |
| Plugins.RemoveEachEmpty | test/unit/plugin.spec.js:257-265 | nothing can be taken out of an empty list |
| Plugins.RemoveEachAbsent | test/unit/plugin.spec.js:267-289 | taking out functions that are not in the list changes nothing |
| Plugins.RemoveFirstAfter | test/unit/plugin.spec.js:277-289 | taking out a function found only in the middle removes exactly it |
| Plugins.RemoveEachAppended | test/unit/plugin.spec.js:277-289 | removing, in order, distinct hooks that were appended in that order gives back the list and leaves what followed |
| Plugins.UnregisterUndoesRegister | test/unit/plugin.spec.js:235-289 | unregistering a plugin right after registering it restores every list, when its functions are distinct and not already registered |
| Plugins.FoldBeforeSnoc | test/unit/plugin.spec.js:125-152 | a before-hook added at the end acts on the arguments the others left |
| Plugins.FoldAfterSnoc | test/unit/plugin.spec.js:169-198 | an after-hook added at the end acts on the result the others left |
| Plugins.SilentHooks | test/unit/plugin.spec.js:136-198 | hooks that all return `null` change neither the arguments nor the result |
| Plugins.InvokeTransparent | test/unit/plugin.spec.js:107-198 | when every hook of the method returns `null`, the intercepted call gives what the original gives |
| Plugins.InvokeWithLaterAfterHook | test/unit/plugin.spec.js:163-220 | an after-hook registered last acts on what the call gave before it was registered, replacing it unless it returns `null` |
| Plugins.InvokeWithLaterBeforeHook | test/unit/plugin.spec.js:116-152 | a before-hook registered last acts on the arguments the earlier ones left, and the original runs on its return unless it is `null` |
| Plugins.InvokeExamples | test/unit/plugin.spec.js:106-220 | `add(1, 2)` gives 6 with a doubling after-hook, 8 with a hook adding `p1 * p2` after it, also past a `null` hook, 11 with a before-hook returning `[5, 6]`, and 3 unintercepted |
| Plugins.RoleExamples | test/unit/plugin.spec.js:62-88 | `beforeAdd` and `afterAdd` intercept `add`, `doAdd` only targets it, and `afterBaz` targets `baz` |
| Plugins.BeforeAddRole | test/unit/plugin.spec.js:62-70 | `beforeAdd` is a before-hook of `add` |
| Plugins.AfterAddRole | test/unit/plugin.spec.js:62-70 | `afterAdd` is an after-hook of `add` |
| Plugins.DoAddRole | test/unit/plugin.spec.js:80-88 | `doAdd` targets `add` but is neither a before- nor an after-hook |
| Plugins.AfterBazRole | test/unit/plugin.spec.js:89-98 | `afterBaz` is an after-hook of `baz` |
| Plugins.BeforeBazRole | test/unit/plugin.spec.js:89-98 | `beforeBaz` is a before-hook of `baz` |
| Plugins.MyPluginPushes | test/unit/plugin.spec.js:62-70 | `{beforeAdd, afterAdd}` contributes one before-hook and one after-hook for `add` |
| Plugins.RegisterOnce | test/unit/plugin.spec.js:39-70 | registering `{beforeAdd, afterAdd}` on a prototype with `add` puts one function in each list |
| Plugins.RegisterTwice | test/unit/plugin.spec.js:72-78 | registering it again appends a second function to each list, without replacing the first |
| Plugins.RegisterMissingMethod | test/unit/plugin.spec.js:89-98 | hooks for the missing method `baz` wrap nothing and leave `add` alone |
| Plugins.RegisterPlainProperty | test/unit/plugin.spec.js:80-88 | a property that is neither `beforeX` nor `afterX` adds no hook |
| Plugins.Extend | test/unit/plugin.spec.js:295-328 | `extendObject` adds the properties the object lacks and never overwrites one it has |
| Plugins.ExtendIdempotent | test/unit/plugin.spec.js:312-328 | extending twice with the same properties is extending once |
| Plugins.Prototype.constructor | test/unit/plugin.spec.js:34-38 | a new prototype has its methods and properties and nothing intercepted |
| Plugins.Prototype.Register | test/unit/plugin.spec.js:39-104 | `registerPlugin` leaves the interceptor record `RegisterAll` gives, so each list gains the plugin's hooks in order, and the properties are untouched |
| Plugins.Prototype.Unregister | test/unit/plugin.spec.js:235-289 | `unregisterPlugin` leaves the record `UnregisterAll` gives, with the same intercepted methods |
| Plugins.Prototype.ExtendWith | test/unit/plugin.spec.js:295-328 | `extendObject` leaves the properties `Extend` gives and the interceptors untouched |
| Plugins.RegisterPlugin | test/unit/plugin.spec.js:222-233 | registering on a target with a prototype registers there; a target without one is left alone |
| Plugins.UnregisterPlugin | test/unit/plugin.spec.js:249-255 | unregistering on a target with a prototype unregisters there; a target without one is left alone |
| Plugins.ExtendObject | test/unit/plugin.spec.js:330-336 | extending a target with a prototype extends it; a target without one is left alone |
| Gestures.SwipeType | test/unit/gesture.spec.js:98-211 | a swipe has no direction exactly when it moved less than the threshold on both axes; otherwise the larger displacement picks the axis and its sign picks left or right, up or down |
| Gestures.PinchMove | test/unit/gesture.spec.js:291-429 | a pinch move is nothing exactly when the spread changed by less than the threshold, `out` exactly when it grew by the threshold, `in` exactly when it shrank by it; a recognised move makes the new spread the reference |
| Gestures.ContiguousSmall | test/unit/gesture.spec.js:265-289 | one touch is stored contiguously exactly when it sits at index 0, two when they sit at 0 and 1 |
| Gestures.ConsiderLocks | test/unit/gesture.spec.js:509-560 | a gesture becomes current only by recognising something, and its callback name starts with the gesture's name; a current gesture is never replaced, and while one is current any other gesture recognises nothing and leaves the tracker alone |
| Gestures.HandleGestureMap | test/unit/gesture.spec.js:509-560 | the handler runs the swipe, then the pinch on the tracker the swipe left, and collects both names |
| Gestures.HandleUnfold | test/unit/gesture.spec.js:509-560 | running the gestures from position i runs gesture i, then the rest on the tracker it left |
| Gestures.SwipeRecognised | test/unit/gesture.spec.js:98-289 | a swipe is recognised exactly on `touchend`, with one touch at index 0, no other gesture under way and a displacement reaching the threshold; the callback is `swipe` plus the direction |
| Gestures.PinchRecognised | test/unit/gesture.spec.js:291-607 | `pinchout` is recognised exactly on `touchmove` with two touches at 0 and 1 whose spread grew by the threshold, `pinchin` exactly when it shrank by it, and nothing else is |
| Gestures.PinchStartRecords | test/unit/gesture.spec.js:296-339 | `touchstart` with two touches records their spread as the pinch reference and calls nothing |
| Gestures.NoSwipeDuringPinch | test/unit/gesture.spec.js:509-560 | once a pinch is under way, one finger lifting is no swipe and the pinch stays current |
| Gestures.GestureState.constructor | test/unit/gesture.spec.js:29-38 | the gesture module starts with no callbacks, no current gesture and no listeners |
| Gestures.GestureState.Init | test/unit/gesture.spec.js:29-50 | `initGesture` registers the `touchChanged` and `touchEnd` listeners the first time only |
| Gestures.GestureState.On | test/unit/gesture.spec.js:52-72 | `onGesture` stores the callback under each given name and leaves other names alone |
| Gestures.GestureState.Off | test/unit/gesture.spec.js:74-96 | `offGesture` resets the callback of each given name and leaves other names alone |
| Gestures.GestureState.CallsOf | test/unit/gesture.spec.js:98-607 | at most one callback is called per recognised name |
| Gestures.GestureState.CallsSnoc | test/unit/gesture.spec.js:98-607 | one more recognised name adds its callback, when one is set, after the others |
| Gestures.GestureState.TouchChanged | test/unit/gesture.spec.js:98-607 | the `touchChanged` listener leaves the tracker `Handle` gives and calls the set callbacks of the recognised names, in gesture order |
| Gestures.GestureState.TouchEnded | test/unit/gesture.spec.js:509-560 | the `touchEnd` listener clears the current gesture and keeps the reference spread |
| Gestures.SwipeExamples | test/unit/gesture.spec.js:103-211 | from (50, 50), moving 20 left, 40 right, 20 up or 40 down swipes that way, and moving 5 does not |
| Gestures.SwipeLeftOnEnd | test/unit/gesture.spec.js:103-289 | one touch moved 20 pixels left calls `swipeleft` on `touchend` |
| Gestures.SwipeAtIndexOne | test/unit/gesture.spec.js:103-289 | the same touch stored at index 1 calls nothing |
| Gestures.SwipeNotOnMove | test/unit/gesture.spec.js:103-289 | the same touch on `touchmove` calls nothing |
| Gestures.PinchExamples | test/unit/gesture.spec.js:296-429 | from a spread of √1250, a spread of √2650 is a pinch out, √725 a pinch in, and √1201 within the threshold |
| Gestures.PinchThenLift | test/unit/gesture.spec.js:509-560 | two touches starting and then moving together give `pinchin`, and lifting one finger afterwards gives no swipe |
| Gestures.InitTwiceExample | test/unit/gesture.spec.js:40-50 | initialising twice registers each listener once |
| Gamepads.ButtonNamesDistinct | test/unit/gamepad.spec.js:45-63 | exactly the 16 standard buttons have a name, and no two buttons share one |
| Gamepads.GamepadMapDistinct | test/unit/gamepad.spec.js:45-63 | no two buttons of the standard layout share a name |
| Gamepads.BoundCallbackIsCalled | test/unit/gamepad.spec.js:141-193 | a callback bound to one gamepad is the first called for that gamepad, one bound globally the last called for every gamepad, and binding leaves other gamepads and other button names as they were |
| Gamepads.Bind | test/unit/gamepad.spec.js:95-292 | binding without a gamepad index stores the callback globally and changes nothing else; with one it leaves the global callbacks alone and gives that gamepad a callback table |
| Gamepads.Unbind | test/unit/gamepad.spec.js:294-446 | unbinding without a gamepad index removes the name from the global callbacks only; with one it leaves the global callbacks and the set of known gamepads alone |
| Gamepads.GlobalAndOwn | test/unit/gamepad.spec.js:141-152 | with a global callback and one for gamepad 0, a press on gamepad 0 calls both, its own first |
| Gamepads.OwnOnlyForOwnPad | test/unit/gamepad.spec.js:181-193 | a callback bound to one gamepad is never called for another |
| Gamepads.BindAllBinds | test/unit/gamepad.spec.js:111-123 | after binding a list of buttons, every listed name calls the callback in that scope |
| Gamepads.UnbindAllUnbinds | test/unit/gamepad.spec.js:307-345 | after unbinding a list of buttons, no listed name has a callback in that scope, and the other scope is untouched |
| Gamepads.UnbindAllKeepsOther | test/unit/gamepad.spec.js:331-345 | unbinding in one scope leaves the other scope as it was |
| Gamepads.OffUndoesOn | test/unit/gamepad.spec.js:294-305 | `offGamepad` undoes `onGamepad` for a name that had no callback in that scope |
| Gamepads.Calls | test/unit/gamepad.spec.js:519-567 | each callback is called once, in order, with the gamepad, the button index and the button name |
| Gamepads.ButtonStepSettles | test/unit/gamepad.spec.js:519-567 | a poll step records a standard button as reported and leaves the axes alone, calls something only when the state changed, and reporting the same state again calls nothing |
| Gamepads.ReadAxes | test/unit/gamepad.spec.js:569-580 | each of the four axes reads the polled value, and is unset when the gamepad does not report it |
| Gamepads.PadFoldRecords | test/unit/gamepad.spec.js:448-493 | after a poll each standard button's recorded pressed state is what the poll reported |
| Gamepads.PadFoldAxes | test/unit/gamepad.spec.js:569-580 | the button loop leaves the axes alone |
| Gamepads.SteadyPollIsQuiet | test/unit/gamepad.spec.js:530-567 | a button held down, or left up, across two polls fires nothing the second time |
| Gamepads.PadFoldUntouched | test/unit/gamepad.spec.js:519-567 | buttons the loop has not reached keep their recorded state |
| Gamepads.GamepadState.constructor | test/unit/gamepad.spec.js:20-43 | the gamepad module starts with no gamepad and no callbacks |
| Gamepads.GamepadState.Init | test/unit/gamepad.spec.js:76-93 | `initGamepad` adds one more `tick` listener |
| Gamepads.GamepadState.Connect | test/unit/gamepad.spec.js:20-43 | a connected gamepad starts with nothing pressed |
| Gamepads.GamepadState.Disconnect | test/unit/gamepad.spec.js:487-493 | a disconnected gamepad is forgotten |
| Gamepads.GamepadState.Blur | test/unit/gamepad.spec.js:20-43 | `blur` makes every gamepad forget its pressed buttons and axes |
| Gamepads.GamepadState.On | test/unit/gamepad.spec.js:95-292 | `onGamepad` binds the callback to every name for the chosen handler, globally or for one gamepad, and leaves the other handler alone |
| Gamepads.GamepadState.Off | test/unit/gamepad.spec.js:294-446 | `offGamepad` unbinds every name for the chosen handler in that scope, leaving the other handler alone |
| Gamepads.GamepadState.Update | test/unit/gamepad.spec.js:519-580 | `updateGamepad` leaves the state and makes the calls `PollFold` gives: every reported, connected gamepad polled button by button, then its axes read |
| Gamepads.GamepadState.Pressed | test/unit/gamepad.spec.js:448-493 | `gamepadPressed` is true exactly when some gamepad (or the given one; an unknown gamepad is never pressed) has the button recorded as pressed |
| Gamepads.GamepadState.Axis | test/unit/gamepad.spec.js:495-517 | `gamepadAxis` is the last polled value, and 0 when unset or for an unknown gamepad |
| Gamepads.PollPad | test/unit/gamepad.spec.js:519-567 | the button loop of one gamepad ends in the state and calls `PadFold` gives |
| Gamepads.PollRecords | test/unit/gamepad.spec.js:448-580 | after a poll a connected gamepad's buttons and axes read as the poll reported |
| Gamepads.PadFoldOne | test/unit/gamepad.spec.js:519-567 | polling a one-button gamepad is one button step |
| Gamepads.PressHoldRelease | test/unit/gamepad.spec.js:519-567 | pressing `south` calls the `gamepaddown` callback, holding it calls nothing, and releasing it calls the `gamepadup` callback |
| Assets.TrimSlashes | test/unit/assets.spec.js:109-132 | trimming a base path's trailing slash or a name's leading slash undoes adding it, and takes at most that one slash away |
| Assets.JoinPathWithoutBase | test/unit/assets.spec.js:91-96 | without a base path the name is used as it is |
| Assets.JoinPathOneSlash | test/unit/assets.spec.js:109-132 | a base and a name are joined by exactly one slash, whether the base ends in one, the name starts with one, both or neither |
| Assets.LastIndexOf | test/unit/assets.spec.js:375-414 | none exactly when the character is absent; otherwise an index holding it with no occurrence after it |
| Assets.Extension | test/unit/assets.spec.js:375-414 | the extension never contains a dot, and a name without a dot is its own extension |
| Assets.StripFirst | test/unit/assets.spec.js:91-132 | stripping a pattern either leaves the string as it is or takes away exactly the pattern's length |
| Assets.StripFirstAtEnd | test/unit/assets.spec.js:91-96 | a dot-free stem followed by `.ext` loses exactly `.ext` |
| Assets.ExtensionAfterLastDot | test/unit/assets.spec.js:375-414 | the extension is what follows the last dot |
| Assets.ExtensionAndStem | test/unit/assets.spec.js:91-96 | for a dot-free stem and extension, the extension is recovered and stripping it gives back the stem |
| Assets.StripFirstAfterParent | test/unit/assets.spec.js:118-123 | a leading `../` is kept when the extension is stripped |
| Assets.NameOfBare | test/unit/assets.spec.js:109-116 | a bare name `bullet.png` is keyed as `bullet` |
| Assets.NameOfRooted | test/unit/assets.spec.js:125-132 | a name with a single leading slash, `/bullet.png`, is keyed without it, as `bullet` |
| Assets.NameOfInFolder | test/unit/assets.spec.js:91-96 | `/imgs/bullet.png` is keyed as `/imgs/bullet`: with two slashes the leading one stays |
| Assets.StripFirstParentStem | test/unit/assets.spec.js:118-123 | `../imgs/bullet.png` loses exactly its extension |
| Assets.NameOfParent | test/unit/assets.spec.js:118-123 | `../imgs/bullet.png` is keyed as `../imgs/bullet` |
| Assets.FirstPlayable | test/unit/assets.spec.js:375-454 | none exactly when no source is playable; otherwise the index of a playable source with none playable before it |
| Assets.ExtensionOf | test/unit/assets.spec.js:375-414 | a dot-free stem followed by `.ext` has the extension `ext` |
| Assets.FirstPlayableExamples | test/unit/assets.spec.js:375-454 | of `shoot.ogg` and `shoot.mp3`, mp3-only support picks the mp3, ogg-only the ogg, both the ogg; `cantPlay.aaa` is never playable |
| Assets.KindOfFormats | test/unit/assets.spec.js:470-503 | each image format (`jpeg`, `jpg`, `gif`, `png`, `webp`) goes to the image loader, each audio format (`wav`, `mp3`, `ogg`, `aac`) to the audio loader, and `json` to the data loader |
| Assets.KindOfFirst | test/unit/assets.spec.js:470-503 | the kind of an asset given as a list of file names is the kind of the first name's extension |
| Assets.KindOfImage | test/unit/assets.spec.js:470-493 | a `.png` file is an image |
| Assets.KindOfAudio | test/unit/assets.spec.js:470-493 | an `.mp3` file is audio |
| Assets.KindOfData | test/unit/assets.spec.js:470-493 | a `.json` file is data |
| Assets.KindOfExamples | test/unit/assets.spec.js:470-503 | `load` sends a `.png` to the image loader, an `.mp3`/`.ogg` list to the audio loader and a `.json` to the data loader |
| Assets.Store | test/unit/assets.spec.js:91-132 | a loaded asset is stored under its key and under its joined URL, and every other entry keeps its value |
| Assets.LoadedIsCached | test/unit/assets.spec.js:91-182 | after a load the joined URL is cached exactly when the load resolved, with the asset it resolved with; nothing cached is lost, and a rejected load caches nothing and names the joined URL |
| Assets.SecondLoadIsCached | test/unit/assets.spec.js:98-107 | loading an asset that was just loaded requests nothing and resolves with the same asset, whatever the second outcome would have been |
| Assets.AssetStore.constructor | test/unit/assets.spec.js:10-22 | after a reset the paths are empty and the three caches are empty |
| Assets.AssetStore.SetImagePath | test/unit/assets.spec.js:109-116 | `setImagePath` sets the image path and nothing else |
| Assets.AssetStore.SetAudioPath | test/unit/assets.spec.js:416-423 | `setAudioPath` sets the audio path and nothing else |
| Assets.AssetStore.SetDataPath | test/unit/assets.spec.js:267-274 | `setDataPath` sets the data path and nothing else |
| Assets.AssetStore.LoadImage | test/unit/assets.spec.js:91-182 | `loadImage` is `LoadThrough` on the image cache with the image path, and changes no other cache or path |
| Assets.AssetStore.LoadData | test/unit/assets.spec.js:237-290 | `loadData` is `LoadThrough` on the data cache with the data path, and changes no other cache or path |
| Assets.AssetStore.LoadAudio | test/unit/assets.spec.js:357-454 | `loadAudio` loads the first playable source through the audio cache, or rejects naming every source when none can be played, and changes no other cache or path |
| Assets.AssetStore.LoadArgument | test/unit/assets.spec.js:470-493 | one argument of `load` goes to the loader of its kind, as `LoadOne` says, and no path changes |
| Assets.AssetStore.Load | test/unit/assets.spec.js:470-503 | `load` leaves the caches `LoadAll` gives for the arguments in order, each to the loader its first URL selects, and resolves with `Collect` of the results |
| Assets.AudioLoadsFirstPlayable | test/unit/assets.spec.js:357-454 | audio is rejected as unplayable exactly when no source can be played; a resolved load cached the first playable source, and loading the same sources again requests nothing and resolves with the same asset |
| Assets.KindsOf | test/unit/assets.spec.js:495-503 | one loader kind per argument |
| Assets.LoadOne | test/unit/assets.spec.js:470-493 | loading one argument changes only the cache of its kind |
| Assets.LoadAll | test/unit/assets.spec.js:495-503 | loading `k` arguments gives `k` results |
| Assets.LoadAllInOrder | test/unit/assets.spec.js:495-503 | result `i` is the load of argument `i` on the caches the arguments before it left |
| Assets.Collect | test/unit/assets.spec.js:495-503 | resolves exactly when every load did, with every value in argument order; otherwise rejects with the first failure in argument order |

## Left out

- The implementation files of the library are not part of this model. Every operation is reconstructed from the assertions of its test suite, and behaviour no test pins down is chosen as the most direct reading of those assertions.
- Floating point. Every number is an exact `real`, so rounding, `NaN` and `Infinity` are not modelled, except that an unbounded `ttl` is a separate case.
- Trigonometry and square roots. `Math.cos` and `Math.sin` are uninterpreted functions with only cos(0) = 1 and sin(0) = 0 fixed, and `Math.hypot` is a parameter of the gesture handler. `degToRad`, `radToDeg`, `angleToTarget`, `rotatePoint`, `movePoint` and the vector `normalize`, `length`, `distance`, `angle` and `direction` are not modelled, because their tests pin floating-point trigonometric values.
- The `| 0` truncation is truncation toward zero on unbounded numbers; its 32-bit wrap-around for huge values is not modelled, because no map or sheet comes near that size.
- Drawing. Canvas calls (`drawImage`, `translate`, `rotate`, `scale`, `globalAlpha`) are modelled only as the arguments or operation lists they would receive. The game object's `render` and the pool's `render` are left out, since they only forward to draw calls and to each object's own `render`.
- Grid `destroy` is left out, because it only calls each child's `destroy`.
- Grids.Grid.Prerender: the computed child positions are stored in the grid's `positions` field rather than written onto the child objects, and each breakpoint's metric is passed in as the boolean it returned for that render.
- GameObjects.GameObject.AddChild: a change to a parent refreshes the world state of its direct children only. Grandchildren are covered by the pure composition lemmas (`ChainStep`, `ChainScale`, ...) rather than by the class.
- GameObjects.GameObject.Refresh: it recomputes the world state of the direct children only, where `_pc` recurses through the whole subtree, so grandchildren and deeper descendants keep worlds built from their ancestors' old state. `Valid` does not tie each child's `parent` back to this, so the class does not hold the hierarchy together; what every descendant's world should be is stated by the pure `Chain` lemmas.
- GameObjects.GameObject.SetLocal: after the assignment only the direct children's worlds are recomputed; grandchildren and deeper descendants keep stale worlds (see `Refresh`).
- GameObjects.GameObject.SetOpacity: only the direct children's world opacity follows; grandchildren and deeper descendants keep a stale opacity (see `Refresh`).
- GameObjects.GameObject.SetScale: only the direct children's world scale and position follow; grandchildren and deeper descendants keep a stale scale and position (see `Refresh`).
- GameObjects.GameObject.Advance: after the move only the direct children's worlds are recomputed; grandchildren and deeper descendants keep stale worlds (see `Refresh`).
- GameObjects.GameObject.AddChildren: each added child's world is recomputed, but its own children keep stale worlds (see `Refresh`).
- GameObjects.GameObject.RemoveChild: the removed child's world is recomputed without this parent, but its own children keep worlds composed from the old parent chain (see `Refresh`).
- GameObjects.GameObject.RemoveChildren: each removed child's world is recomputed, but their descendants keep stale worlds (see `Refresh`).
- GameObjects.GameObject.SetChildren: the new children's worlds are recomputed, but their descendants keep stale worlds (see `Refresh`).
- SpriteSheets.ToNumber: it reads only an optional sign followed by decimal digits, not JavaScript's full `Number` syntax (fractions, exponents, hexadecimal, whitespace).
- Gestures.Consider: a gesture that recognises a direction becomes the current gesture whether or not a callback is registered under that name; the tests only exercise the case where one is.
- Pools.Exhausted: when every stored object is in use and the storage is already longer than `maxSize`, the JavaScript `get` reads an entry past the end of its array, which is `undefined`; the model gives `None` there, as it does at `maxSize` exactly.
- Callbacks are not run. `emit`, the intercepted plugin call, the gesture handler and the gamepad poll return the list of calls they make, or take what a hook returns as a parameter.
- Plugins.Invoke: a hook's result is `None` for `null` or `undefined` and a value otherwise, so a hook returning another falsy value (0, `''`, `false`) counts as a value. The `this` a hook receives is not modelled.
- Tile engine objects (`add`, `remove`, the `objects` list and their camera offset) are left out, being scene-graph plumbing. So are the per-layer canvases and the global kontra `init` context.
- TileEngines.TileEngine.LayerCollidesWith: it requires the named layer to exist, because the behaviour for an unknown layer is not observable in the tests.
- Helpers.InverseLerp returns `None` when start equals end, where JavaScript would divide by zero and give `NaN` or an infinity.
- Assets: each load's outcome (the `Image`, `Audio` element or `fetch` response) is a parameter, `None` for a failure, and so are the browser's `canPlayType` answers.
- Assets.AssetStore.Load: the loads run one after another, and a failure rejects with the first failure in argument order, rather than the first to fail in time.
- Assets.Store: the asset is stored under its key and under its joined URL, but not under a separately resolved absolute URL.
- The `assetLoaded` event, the `dataMap`, and the parsing of data responses as JSON or text are left out. So is the refetch of a cached data value that is falsy.
- The window listeners of gestures and gamepads are left out. `touchChanged` and `touchEnd` become method calls, `gamepadconnected` and `gamepaddisconnected` become `Connect` and `Disconnect`, and `navigator.getGamepads()` is the parameter of `Update`.
- Pointer, button, scene, core, input, keyboard, text, gameLoop and random are left out. They are DOM and canvas plumbing, a stubbed `measureText`, `requestAnimationFrame` timing, and a floating-point random generator. So is `localStorage` in the store helpers.
