/**
 * The quadtree spatial index. A node is a leaf holding its objects, or split
 * into four quadrant subnodes (top-left, top-right, bottom-left,
 * bottom-right) that hold them instead.
 */
module Quadtrees {
  import opened Wrappers
  import opened Numbers
  import opened Geometry

  /**
   * An object in the tree: its identity and its world rectangle, absent when
   * the object has no position or size (every quadrant test is then false).
   */
  datatype Item = Item(id: nat, rect: Option<Rect>)

  /** `maxObjects` per leaf before it splits, and the depth at which nodes no longer split. */
  datatype Config = Config(maxObjects: nat, maxDepth: nat)

  /** `bounds`, `_d` (depth), `_b` (split), `_o` (own objects) and `_s` (subnodes). */
  datatype Node = Node(bounds: Rect, depth: nat, branch: bool, objects: seq<Item>, subs: seq<Node>)

  /** An empty leaf. */
  function Leaf(bounds: Rect, depth: nat): Node
  {
    Node(bounds, depth, false, [], [])
  }

  /**
   * The bounds of subnode `k`: half the width and height, truncated to an
   * integer, offset right for odd `k` and down for `k >= 2`.
   */
  function Quarter(b: Rect, k: nat): Rect
  {
    var w, h := Trunc(b.width / 2.0) as real, Trunc(b.height / 2.0) as real;
    Rect(b.x + (if k % 2 == 1 then w else 0.0), b.y + (if k >= 2 then h else 0.0), w, h)
  }

  /** Quadrant tests against the midlines of the bounds. */
  predicate Left(o: Rect, b: Rect)   { o.x < b.x + b.width / 2.0 }
  predicate Right(o: Rect, b: Rect)  { o.x + o.width >= b.x + b.width / 2.0 }
  predicate Top(o: Rect, b: Rect)    { o.y < b.y + b.height / 2.0 }
  predicate Bottom(o: Rect, b: Rect) { o.y + o.height >= b.y + b.height / 2.0 }

  /** Whether quadrant `k` is one the rectangle reaches. */
  predicate InQuadrant(o: Rect, b: Rect, k: nat)
  {
    (k == 0 && Left(o, b) && Top(o, b)) || (k == 1 && Right(o, b) && Top(o, b)) ||
    (k == 2 && Left(o, b) && Bottom(o, b)) || (k == 3 && Right(o, b) && Bottom(o, b))
  }

  /** `getIndices`: left quadrants 0 and 2 first, then right quadrants 1 and 3. */
  function Indices(r: Option<Rect>, b: Rect): (ks: seq<nat>)
    ensures forall i :: 0 <= i < |ks| ==> ks[i] < 4
  {
    if r.None? then []
    else
      var o := r.value;
      var left := if Left(o, b) then (if Top(o, b) then [0] else []) + (if Bottom(o, b) then [2] else []) else [];
      var right := if Right(o, b) then (if Top(o, b) then [1] else []) + (if Bottom(o, b) then [3] else []) else [];
      left + right
  }

  /**
   * The quadrants listed are exactly those the rectangle reaches, each once;
   * an object without geometry reaches none.
   */
  lemma IndicesAreQuadrants(r: Option<Rect>, b: Rect)
    ensures forall k :: k in Indices(r, b) <==> r.Some? && InQuadrant(r.value, b, k)
    ensures forall i, j :: 0 <= i < j < |Indices(r, b)| ==> Indices(r, b)[i] != Indices(r, b)[j]
  {
  }

  /** A rectangle entirely on one side of both midlines lands in exactly one quadrant. */
  lemma SingleQuadrant(o: Rect, b: Rect)
    requires o.width >= 0.0 && o.height >= 0.0
    requires !(Left(o, b) && Right(o, b)) && !(Top(o, b) && Bottom(o, b))
    ensures |Indices(Some(o), b)| == 1
  {
  }

  /** The structural invariant of a tree built by `add`. */
  predicate Valid(c: Config, n: Node)
    decreases n
  {
    n.depth <= c.maxDepth &&
    (|n.subs| == 0 || |n.subs| == 4) &&
    (n.branch ==> |n.subs| == 4 && n.objects == []) &&
    forall k :: 0 <= k < |n.subs| ==>
      n.subs[k].depth == n.depth + 1 && n.subs[k].bounds == Quarter(n.bounds, k) && Valid(c, n.subs[k])
  }

  /**
   * `_sp`: mark the node split, creating the four quadrant leaves only when it
   * has no subnodes yet; existing subnodes are reused as they are.
   */
  function Split(c: Config, n: Node): (r: Node)
    requires Valid(c, n) && n.depth < c.maxDepth
    ensures Valid(c, r) && r.branch && r.objects == []
    ensures r.bounds == n.bounds && r.depth == n.depth
    ensures |n.subs| == 4 ==> r.subs == n.subs
    ensures |n.subs| == 0 ==> forall k :: 0 <= k < 4 ==> r.subs[k] == Leaf(Quarter(n.bounds, k), n.depth + 1)
  {
    var subs := if |n.subs| == 4 then n.subs
                else seq(4, k requires 0 <= k < 4 => Leaf(Quarter(n.bounds, k), n.depth + 1));
    n.(branch := true, objects := [], subs := subs)
  }

  /**
   * `add(object)`: a split node passes the object on to its quadrants; a leaf
   * appends it and, over `maxObjects` while above `maxDepth`, splits and
   * moves all its objects, in order, into the subnodes.
   */
  function AddObject(c: Config, n: Node, item: Item): (r: Node)
    requires Valid(c, n)
    ensures Valid(c, r) && r.bounds == n.bounds && r.depth == n.depth
    ensures |n.subs| == 4 ==> |r.subs| == 4
    decreases c.maxDepth - n.depth, 3, 0
  {
    if n.branch then Route(c, n, item, Indices(item.rect, n.bounds))
    else if |n.objects| + 1 > c.maxObjects && n.depth < c.maxDepth then
      RouteAll(c, Split(c, n), n.objects + [item])
    else n.(objects := n.objects + [item])
  }

  /** `_a`: add the object to each of the listed subnodes in turn. */
  function Route(c: Config, n: Node, item: Item, ks: seq<nat>): (r: Node)
    requires Valid(c, n) && n.branch
    requires forall i :: 0 <= i < |ks| ==> ks[i] < 4
    ensures Valid(c, r) && r.branch && r.bounds == n.bounds && r.depth == n.depth
    decreases c.maxDepth - n.depth, 1, |ks|
  {
    if |ks| == 0 then n
    else
      var k := ks[0];
      Route(c, n.(subs := n.subs[k := AddObject(c, n.subs[k], item)]), item, ks[1..])
  }

  /** Route each object in order to the quadrants it reaches. */
  function RouteAll(c: Config, n: Node, items: seq<Item>): (r: Node)
    requires Valid(c, n) && n.branch
    ensures Valid(c, r) && r.branch && r.bounds == n.bounds && r.depth == n.depth
    decreases c.maxDepth - n.depth, 2, |items|
  {
    if |items| == 0 then n
    else RouteAll(c, Route(c, n, items[0], Indices(items[0].rect, n.bounds)), items[1..])
  }

  /** `add(...objects)`: each object in order. */
  function AddAll(c: Config, n: Node, items: seq<Item>): (r: Node)
    requires Valid(c, n)
    ensures Valid(c, r) && r.bounds == n.bounds && r.depth == n.depth
    decreases |items|
  {
    if |items| == 0 then n else AddAll(c, AddObject(c, n, items[0]), items[1..])
  }

  /** A leaf that can take one more object without splitting. */
  predicate Roomy(c: Config, n: Node)
  {
    !n.branch && (|n.objects| < c.maxObjects || n.depth >= c.maxDepth)
  }

  /** A leaf with room, or one at `maxDepth`, appends the object to its own list. */
  lemma AddToLeaf(c: Config, n: Node, item: Item)
    requires Valid(c, n) && Roomy(c, n)
    ensures AddObject(c, n, item) == n.(objects := n.objects + [item])
  {
  }

  /** Objects that all fit are appended in order, whether added one by one or as a list. */
  lemma {:induction false} AddAllToLeaf(c: Config, n: Node, items: seq<Item>)
    requires Valid(c, n) && !n.branch
    requires |n.objects| + |items| <= c.maxObjects || n.depth >= c.maxDepth
    ensures AddAll(c, n, items) == n.(objects := n.objects + items)
    decreases |items|
  {
    if |items| > 0 {
      AddToLeaf(c, n, items[0]);
      var n' := n.(objects := n.objects + [items[0]]);
      AddAllToLeaf(c, n', items[1..]);
      assert n.objects + [items[0]] + items[1..] == n.objects + items;
    }
  }

  /**
   * The object that takes a leaf above `maxObjects` (below `maxDepth`) splits
   * it: its own list is emptied and it has exactly four subnodes, the quarters
   * of its bounds in order.
   */
  lemma SplitOnOverflow(c: Config, n: Node, item: Item)
    requires Valid(c, n) && !n.branch && |n.objects| >= c.maxObjects && n.depth < c.maxDepth
    ensures var r := AddObject(c, n, item);
            r.branch && r.objects == [] && |r.subs| == 4 &&
            forall k :: 0 <= k < 4 ==> r.subs[k].bounds == Quarter(n.bounds, k) && r.subs[k].depth == n.depth + 1
  {
  }

  /** The objects of a list that reach quadrant `k`, in order. */
  function Routed(items: seq<Item>, b: Rect, k: nat): (r: seq<Item>)
    ensures |r| <= |items|
  {
    if |items| == 0 then []
    else (if Reaches(items[0], b, k) then [items[0]] else []) + Routed(items[1..], b, k)
  }

  /** The object has a rectangle and it is in quadrant `k`. */
  predicate Reaches(o: Item, b: Rect, k: nat)
  {
    o.rect.Some? && InQuadrant(o.rect.value, b, k)
  }

  /** An object reaches quadrant `k` exactly when it is in the list and its rectangle is in that quadrant. */
  lemma {:induction false} RoutedMembers(items: seq<Item>, b: Rect, k: nat, o: Item)
    ensures o in Routed(items, b, k) <==> o in items && Reaches(o, b, k)
  {
    if |items| > 0 {
      RoutedMembers(items[1..], b, k, o);
      assert items == [items[0]] + items[1..];
    }
  }

  predicate Distinct<T(==)>(s: seq<T>)
  {
    forall i, j :: 0 <= i < j < |s| ==> s[i] != s[j]
  }

  /** Filtering keeps distinct objects distinct: no quadrant receives one object twice. */
  lemma {:induction false} RoutedDistinct(items: seq<Item>, b: Rect, k: nat)
    requires Distinct(items)
    ensures Distinct(Routed(items, b, k))
  {
    if |items| > 0 {
      var rest := items[1..];
      assert Distinct(rest) by {
        forall i, j | 0 <= i < j < |rest| ensures rest[i] != rest[j] {
          assert rest[i] == items[i + 1] && rest[j] == items[j + 1];
        }
      }
      RoutedDistinct(rest, b, k);
      assert items[0] !in rest;
      RoutedMembers(rest, b, k, items[0]);
    }
  }

  /**
   * Routing an object into a split node whose target subnodes are leaves with
   * room appends it to exactly the listed subnodes and leaves the others alone.
   */
  lemma {:induction false} RouteIntoLeaves(c: Config, n: Node, item: Item, ks: seq<nat>)
    requires Valid(c, n) && n.branch
    requires forall i :: 0 <= i < |ks| ==> ks[i] < 4
    requires forall i, j :: 0 <= i < j < |ks| ==> ks[i] != ks[j]
    requires forall k :: k in ks ==> Roomy(c, n.subs[k])
    ensures var r := Route(c, n, item, ks);
            r.objects == [] && |r.subs| == 4 &&
            forall k :: 0 <= k < 4 ==>
              r.subs[k] == if k in ks then n.subs[k].(objects := n.subs[k].objects + [item]) else n.subs[k]
    decreases |ks|
  {
    if |ks| > 0 {
      var k0 := ks[0];
      AddToLeaf(c, n.subs[k0], item);
      var n' := n.(subs := n.subs[k0 := AddObject(c, n.subs[k0], item)]);
      assert forall k :: k in ks[1..] ==> k != k0 && k in ks;
      RouteIntoLeaves(c, n', item, ks[1..]);
    }
  }

  /** The subnode leaves of `n` can take the listed objects without splitting. */
  predicate LeavesFit(c: Config, n: Node, items: seq<Item>)
    requires |n.subs| == 4
  {
    forall k :: 0 <= k < 4 ==>
      !n.subs[k].branch &&
      (n.depth + 1 >= c.maxDepth || |n.subs[k].objects| + |Routed(items, n.bounds, k)| <= c.maxObjects)
  }

  /** One routing step of `RouteAllIntoLeaves`: the first object goes in, the rest still fit. */
  lemma RouteFirst(c: Config, n: Node, items: seq<Item>)
    requires Valid(c, n) && n.branch && |items| > 0 && LeavesFit(c, n, items)
    ensures var n' := Route(c, n, items[0], Indices(items[0].rect, n.bounds));
            Valid(c, n') && n'.branch && n'.objects == [] && |n'.subs| == 4 && n'.bounds == n.bounds &&
            n'.depth == n.depth && LeavesFit(c, n', items[1..]) &&
            forall k :: 0 <= k < 4 ==>
              n'.subs[k] == n.subs[k].(objects := n'.subs[k].objects) &&
              n'.subs[k].objects + Routed(items[1..], n.bounds, k) == n.subs[k].objects + Routed(items, n.bounds, k)
  {
    var item, rest := items[0], items[1..];
    var ks := Indices(item.rect, n.bounds);
    IndicesAreQuadrants(item.rect, n.bounds);
    forall k | k in ks ensures Roomy(c, n.subs[k]) {
      assert k < 4;
      RoutedFirst(items, n.bounds, k);
    }
    RouteIntoLeaves(c, n, item, ks);
    var n' := Route(c, n, item, ks);
    forall k | 0 <= k < 4
      ensures n'.subs[k] == n.subs[k].(objects := n'.subs[k].objects)
      ensures n'.subs[k].objects + Routed(rest, n.bounds, k) == n.subs[k].objects + Routed(items, n.bounds, k)
    {
      RouteFirstAt(n.subs[k].objects, n'.subs[k].objects, items, n.bounds, k);
    }
  }

  /** The per-quadrant bookkeeping of one routing step. */
  lemma RouteFirstAt(objs: seq<Item>, objs': seq<Item>, items: seq<Item>, b: Rect, k: nat)
    requires |items| > 0
    requires objs' == objs + if Reaches(items[0], b, k) then [items[0]] else []
    ensures objs' + Routed(items[1..], b, k) == objs + Routed(items, b, k)
  {
    RoutedFirst(items, b, k);
    var rest := Routed(items[1..], b, k);
    if Reaches(items[0], b, k) {
      assert Routed(items, b, k) == [items[0]] + rest;
      AppendAssoc(objs, [items[0]], rest);
    } else {
      assert Routed(items, b, k) == [] + rest;
      assert [] + rest == rest;
      assert objs' == objs;
    }
  }

  lemma AppendAssoc<T>(a: seq<T>, b: seq<T>, c: seq<T>)
    ensures (a + b) + c == a + (b + c)
  {
  }

  lemma RoutedFirst(items: seq<Item>, b: Rect, k: nat)
    requires |items| > 0
    ensures Routed(items, b, k) == (if Reaches(items[0], b, k) then [items[0]] else []) + Routed(items[1..], b, k)
  {
  }

  /**
   * Routing a list into a split node whose subnodes are leaves that stay within
   * `maxObjects` (or sit at `maxDepth`) appends to each subnode exactly the
   * objects that reach its quadrant, in order.
   */
  lemma {:induction false} RouteAllIntoLeaves(c: Config, n: Node, items: seq<Item>)
    requires Valid(c, n) && n.branch && LeavesFit(c, n, items)
    ensures var r := RouteAll(c, n, items);
            r.objects == [] && |r.subs| == 4 &&
            forall k :: 0 <= k < 4 ==> r.subs[k] == n.subs[k].(objects := n.subs[k].objects + Routed(items, n.bounds, k))
    decreases |items|
  {
    if |items| == 0 {
      forall k | 0 <= k < 4 ensures n.subs[k] == n.subs[k].(objects := n.subs[k].objects + Routed(items, n.bounds, k)) {
        assert Routed(items, n.bounds, k) == [];
      }
    } else {
      RouteFirst(c, n, items);
      var n' := Route(c, n, items[0], Indices(items[0].rect, n.bounds));
      RouteAllIntoLeaves(c, n', items[1..]);
    }
  }

  /**
   * When a leaf whose subnodes (fresh, or kept from before a `clear`) are empty
   * leaves splits, and no quadrant then overflows, each subnode holds exactly
   * the objects reaching its quadrant, in their order, and the node holds none.
   */
  lemma SplitDistributes(c: Config, n: Node, item: Item)
    requires Valid(c, n) && !n.branch && |n.objects| >= c.maxObjects && n.depth < c.maxDepth
    requires forall k :: 0 <= k < |n.subs| ==> n.subs[k].objects == [] && !n.subs[k].branch
    requires forall k :: 0 <= k < 4 ==>
               n.depth + 1 >= c.maxDepth || |Routed(n.objects + [item], n.bounds, k)| <= c.maxObjects
    ensures var r := AddObject(c, n, item);
            r.branch && r.objects == [] && |r.subs| == 4 &&
            forall k :: 0 <= k < 4 ==>
              !r.subs[k].branch && r.subs[k].objects == Routed(n.objects + [item], n.bounds, k)
  {
    var s := Split(c, n);
    RouteAllIntoLeaves(c, s, n.objects + [item]);
  }

  /**
   * Once split, a node keeps its own list empty and passes a new object to
   * exactly the subnode leaves of the quadrants it reaches; an object
   * without geometry reaches none and changes nothing.
   */
  lemma AddToSplitNode(c: Config, n: Node, item: Item)
    requires Valid(c, n) && n.branch
    requires forall k :: 0 <= k < 4 ==> Roomy(c, n.subs[k])
    ensures var r := AddObject(c, n, item);
            r.objects == [] && |r.subs| == 4 &&
            forall k :: 0 <= k < 4 ==>
              r.subs[k].objects == n.subs[k].objects + (if k in Indices(item.rect, n.bounds) then [item] else [])
    ensures item.rect.None? ==> AddObject(c, n, item) == n
  {
    RouteIntoLeaves(c, n, item, Indices(item.rect, n.bounds));
  }

  /** The object is stored somewhere in the subtree. */
  predicate Holds(n: Node, o: Item)
    decreases n
  {
    o in n.objects || exists k :: 0 <= k < |n.subs| && Holds(n.subs[k], o)
  }

  /** The objects of a leaf other than the query object, by identity. */
  function Others(objects: seq<Item>, q: Item): (r: seq<Item>)
    ensures forall o :: o in r <==> o in objects && o != q
  {
    if |objects| == 0 then []
    else (if objects[0] != q then [objects[0]] else []) + Others(objects[1..], q)
  }

  /** Adding to an insertion-ordered set: the new elements not yet present, in order, once each. */
  function Union(acc: seq<Item>, xs: seq<Item>): (r: seq<Item>)
    ensures forall o :: o in r <==> o in acc || o in xs
    ensures Distinct(acc) ==> Distinct(r)
    decreases |xs|
  {
    if |xs| == 0 then acc
    else Union(if xs[0] in acc then acc else acc + [xs[0]], xs[1..])
  }

  /**
   * `get(object)`: a split node collects, once each, the results of the
   * subnodes of every quadrant the query reaches; a leaf gives its own
   * objects except the query itself.
   */
  function GetObjects(n: Node, q: Item): seq<Item>
    decreases n, 1
  {
    if n.branch && |n.subs| == 4 then Collect(n, q, Indices(q.rect, n.bounds), [])
    else Others(n.objects, q)
  }

  function Collect(n: Node, q: Item, ks: seq<nat>, acc: seq<Item>): seq<Item>
    requires |n.subs| == 4 && forall i :: 0 <= i < |ks| ==> ks[i] < 4
    decreases n, 0, |ks|
  {
    if |ks| == 0 then acc else Collect(n, q, ks[1..], Union(acc, GetObjects(n.subs[ks[0]], q)))
  }

  /** What the collected results contain, and that they stay free of repeats. */
  lemma {:induction false} CollectMembers(n: Node, q: Item, ks: seq<nat>, acc: seq<Item>)
    requires |n.subs| == 4 && forall i :: 0 <= i < |ks| ==> ks[i] < 4
    ensures forall o :: o in Collect(n, q, ks, acc) <==>
              o in acc || exists i :: 0 <= i < |ks| && o in GetObjects(n.subs[ks[i]], q)
    ensures Distinct(acc) ==> Distinct(Collect(n, q, ks, acc))
    decreases |ks|
  {
    if |ks| > 0 {
      var acc' := Union(acc, GetObjects(n.subs[ks[0]], q));
      CollectMembers(n, q, ks[1..], acc');
      forall o ensures o in Collect(n, q, ks, acc) <==>
                       o in acc || exists i :: 0 <= i < |ks| && o in GetObjects(n.subs[ks[i]], q)
      {
        if o in Collect(n, q, ks, acc) && o !in acc && o !in GetObjects(n.subs[ks[0]], q) {
          var i :| 0 <= i < |ks[1..]| && o in GetObjects(n.subs[ks[1..][i]], q);
          assert ks[1..][i] == ks[i + 1];
        }
        if exists i :: 0 <= i < |ks| && o in GetObjects(n.subs[ks[i]], q) {
          var i :| 0 <= i < |ks| && o in GetObjects(n.subs[ks[i]], q);
          if i > 0 {
            assert ks[1..][i - 1] == ks[i];
          }
        }
      }
    }
  }

  /** `get` never returns the query object itself. */
  lemma {:induction false} GetExcludesQuery(n: Node, q: Item)
    ensures q !in GetObjects(n, q)
    decreases n
  {
    if n.branch && |n.subs| == 4 {
      var ks := Indices(q.rect, n.bounds);
      CollectMembers(n, q, ks, []);
      forall i | 0 <= i < |ks| ensures q !in GetObjects(n.subs[ks[i]], q) {
        GetExcludesQuery(n.subs[ks[i]], q);
      }
    }
  }

  /** A split node returns each object at most once. */
  lemma GetOfSplitNodeIsDistinct(n: Node, q: Item)
    requires n.branch && |n.subs| == 4
    ensures Distinct(GetObjects(n, q))
  {
    CollectMembers(n, q, Indices(q.rect, n.bounds), []);
  }

  /**
   * A split node returns exactly the objects that the subnodes of the quadrants
   * the query reaches return.
   */
  lemma GetOfSplitNode(n: Node, q: Item, o: Item)
    requires n.branch && |n.subs| == 4
    ensures o in GetObjects(n, q) <==> exists k :: k in Indices(q.rect, n.bounds) && o in GetObjects(n.subs[k], q)
  {
    var ks := Indices(q.rect, n.bounds);
    CollectMembers(n, q, ks, []);
    if o in GetObjects(n, q) {
      var i :| 0 <= i < |ks| && o in GetObjects(n.subs[ks[i]], q);
      assert ks[i] in ks;
    }
  }

  /** Everything `get` returns is stored in the tree. */
  lemma {:induction false} GetIsStored(n: Node, q: Item, o: Item)
    requires o in GetObjects(n, q)
    ensures Holds(n, o)
    decreases n
  {
    if n.branch && |n.subs| == 4 {
      GetOfSplitNode(n, q, o);
      var k :| k in Indices(q.rect, n.bounds) && o in GetObjects(n.subs[k], q);
      assert k < 4;
      GetIsStored(n.subs[k], q, o);
    }
  }

  lemma GetAllStored(n: Node, q: Item)
    ensures forall o :: o in GetObjects(n, q) ==> Holds(n, o)
  {
    forall o | o in GetObjects(n, q)
      ensures Holds(n, o)
    {
      GetIsStored(n, q, o);
    }
  }

  /** `clear()`: every list in the tree emptied and every node a leaf again, subnodes kept. */
  function ClearNode(n: Node): (r: Node)
    ensures r.bounds == n.bounds && r.depth == n.depth && |r.subs| == |n.subs|
    ensures !r.branch && r.objects == []
    decreases n
  {
    Node(n.bounds, n.depth, false, [], seq(|n.subs|, k requires 0 <= k < |n.subs| => ClearNode(n.subs[k])))
  }

  /** After `clear` the tree stores nothing. */
  lemma {:induction false} ClearEmpties(n: Node, o: Item)
    ensures !Holds(ClearNode(n), o)
    decreases n
  {
    forall k | 0 <= k < |n.subs| ensures !Holds(ClearNode(n).subs[k], o) {
      ClearEmpties(n.subs[k], o);
    }
  }

  /** `clear` keeps a valid tree valid: bounds, depths and subnodes all stay. */
  lemma {:induction false} ClearKeepsStructure(c: Config, n: Node)
    requires Valid(c, n)
    ensures Valid(c, ClearNode(n))
    decreases n
  {
    forall k | 0 <= k < |n.subs| ensures Valid(c, ClearNode(n.subs[k])) {
      ClearKeepsStructure(c, n.subs[k]);
    }
  }

  /** Adding an object without geometry to a node holding only such objects never creates or replaces subnodes. */
  lemma NoGeometryKeepsSubnodes(c: Config, n: Node, item: Item)
    requires Valid(c, n) && item.rect.None? && |n.subs| == 4
    requires forall o :: o in n.objects ==> o.rect.None?
    ensures AddObject(c, n, item).subs == n.subs
    ensures forall o :: o in AddObject(c, n, item).objects ==> o.rect.None?
  {
    if !n.branch && |n.objects| + 1 > c.maxObjects && n.depth < c.maxDepth {
      RouteAllUnrouted(c, Split(c, n), n.objects + [item]);
    }
  }

  /** Routing objects without geometry changes nothing. */
  lemma {:induction false} RouteAllUnrouted(c: Config, n: Node, items: seq<Item>)
    requires Valid(c, n) && n.branch
    requires forall i :: 0 <= i < |items| ==> items[i].rect.None?
    ensures RouteAll(c, n, items) == n
    decreases |items|
  {
    if |items| > 0 {
      RouteAllUnrouted(c, n, items[1..]);
    }
  }

  /**
   * Refilling a node that has subnodes with objects, until it splits again,
   * keeps the very same subnodes: none is created anew.
   */
  lemma {:induction false} RefillReusesSubnodes(c: Config, n: Node, items: seq<Item>)
    requires Valid(c, n) && |n.subs| == 4
    requires forall o :: o in n.objects ==> o.rect.None?
    requires forall i :: 0 <= i < |items| ==> items[i].rect.None?
    ensures AddAll(c, n, items).subs == n.subs
    decreases |items|
  {
    if |items| > 0 {
      NoGeometryKeepsSubnodes(c, n, items[0]);
      RefillReusesSubnodes(c, AddObject(c, n, items[0]), items[1..]);
    }
  }

  /** In particular, a split tree that is cleared and refilled keeps its cleared subnodes. */
  lemma ClearThenRefill(c: Config, n: Node, items: seq<Item>)
    requires Valid(c, n) && |n.subs| == 4
    requires forall i :: 0 <= i < |items| ==> items[i].rect.None?
    ensures Valid(c, ClearNode(n)) && AddAll(c, ClearNode(n), items).subs == ClearNode(n).subs
  {
    ClearKeepsStructure(c, n);
    RefillReusesSubnodes(c, ClearNode(n), items);
  }

  /** The quarters of a 100 by 100 box at the origin are the four 50 by 50 boxes. */
  lemma QuarterExamples()
    ensures Quarter(Rect(0.0, 0.0, 100.0, 100.0), 0) == Rect(0.0, 0.0, 50.0, 50.0)
    ensures Quarter(Rect(0.0, 0.0, 100.0, 100.0), 1) == Rect(50.0, 0.0, 50.0, 50.0)
    ensures Quarter(Rect(0.0, 0.0, 100.0, 100.0), 2) == Rect(0.0, 50.0, 50.0, 50.0)
    ensures Quarter(Rect(0.0, 0.0, 100.0, 100.0), 3) == Rect(50.0, 50.0, 50.0, 50.0)
  {
    assert Trunc(100.0 / 2.0) == 50;
  }

  const Box100 := Rect(0.0, 0.0, 100.0, 100.0)

  /** Six objects along the diagonal: three reach quadrant 0, two quadrant 1, none quadrant 2, three quadrant 3. */
  function DiagonalObjects(): seq<Item>
  {
    [Item(0, Some(Rect(15.0, 10.0, 10.0, 10.0))), Item(1, Some(Rect(30.0, 20.0, 10.0, 10.0))),
     Item(2, Some(Rect(45.0, 30.0, 10.0, 10.0))), Item(3, Some(Rect(60.0, 40.0, 10.0, 10.0))),
     Item(4, Some(Rect(75.0, 50.0, 10.0, 10.0))), Item(5, Some(Rect(90.0, 60.0, 10.0, 10.0)))]
  }

  lemma DiagonalRouting()
    ensures var os := DiagonalObjects();
            Routed(os, Box100, 0) == [os[0], os[1], os[2]] && Routed(os, Box100, 1) == [os[2], os[3]] &&
            Routed(os, Box100, 2) == [] && Routed(os, Box100, 3) == [os[3], os[4], os[5]]
  {
    var os := DiagonalObjects();
    assert os[1..][1..][1..][1..][1..][1..] == [];
  }

  /**
   * Filling an empty root leaf with one object more than `maxObjects` splits
   * it on the last one: every object then sits in the subnode leaf of each
   * quadrant it reaches, in order, provided no quadrant overflows in turn.
   */
  lemma FillThenSplit(c: Config, b: Rect, os: seq<Item>)
    requires |os| == c.maxObjects + 1 && 0 < c.maxDepth
    requires forall k :: 0 <= k < 4 ==> 1 >= c.maxDepth || |Routed(os, b, k)| <= c.maxObjects
    ensures var r := AddAll(c, Leaf(b, 0), os);
            r.branch && r.objects == [] && |r.subs| == 4 &&
            forall k :: 0 <= k < 4 ==> !r.subs[k].branch && r.subs[k].objects == Routed(os, b, k)
  {
    var l := Leaf(b, 0);
    var m := c.maxObjects;
    AddAllToLeaf(c, l, os[..m]);
    assert os[..m] + [os[m]] == os;
    AddAllSplit(c, l, os[..m], [os[m]]);
    assert l.objects + os[..m] == os[..m];
    var full := l.(objects := os[..m]);
    assert AddAll(c, full, [os[m]]) == AddObject(c, full, os[m]);
    assert full.objects + [os[m]] == os;
    SplitDistributes(c, full, os[m]);
    var r := AddObject(c, full, os[m]);
    assert r == AddAll(c, l, os);
    forall k | 0 <= k < 4 ensures !r.subs[k].branch && r.subs[k].objects == Routed(os, b, k) {
    }
  }

  /** Adding two lists one after the other is adding their concatenation. */
  lemma {:induction false} AddAllSplit(c: Config, n: Node, xs: seq<Item>, ys: seq<Item>)
    requires Valid(c, n)
    ensures AddAll(c, n, xs + ys) == AddAll(c, AddAll(c, n, xs), ys)
    decreases |xs|
  {
    if |xs| == 0 {
      assert xs + ys == ys;
    } else {
      assert (xs + ys)[0] == xs[0] && (xs + ys)[1..] == xs[1..] + ys;
      AddAllSplit(c, AddObject(c, n, xs[0]), xs[1..], ys);
    }
  }

  /**
   * Adding the six diagonal objects to a leaf with `maxObjects` 5 splits it
   * on the sixth and sends each object to the quadrants it reaches.
   */
  lemma DiagonalSplitExample(maxDepth: nat)
    requires maxDepth > 0
    ensures var os := DiagonalObjects();
            var r := AddAll(Config(5, maxDepth), Leaf(Box100, 0), os);
            r.objects == [] && |r.subs| == 4 &&
            r.subs[0].objects == [os[0], os[1], os[2]] && r.subs[1].objects == [os[2], os[3]] &&
            r.subs[2].objects == [] && r.subs[3].objects == [os[3], os[4], os[5]]
  {
    DiagonalRouting();
    FillThenSplit(Config(5, maxDepth), Box100, DiagonalObjects());
  }

  /** Three copies of an object to the right of the box, across its horizontal midline. */
  function OutsideObjects(): seq<Item>
  {
    [Item(0, Some(Rect(105.0, 40.0, 10.0, 20.0))), Item(1, Some(Rect(105.0, 40.0, 10.0, 20.0))),
     Item(2, Some(Rect(105.0, 40.0, 10.0, 20.0)))]
  }

  lemma OutsideRouting()
    ensures var os := OutsideObjects();
            Routed(os, Box100, 0) == [] && Routed(os, Box100, 1) == os &&
            Routed(os, Box100, 2) == [] && Routed(os, Box100, 3) == os
  {
    var os := OutsideObjects();
    assert os[1..][1..][1..] == [];
  }

  /**
   * With `maxObjects` 2 and `maxDepth` 1 the three outside objects all land
   * in quadrants 1 and 3, which are at the depth limit and do not split.
   */
  lemma OutOfBoundsExample()
    ensures var r := AddAll(Config(2, 1), Leaf(Box100, 0), OutsideObjects());
            |r.subs| == 4 && |r.subs[0].objects| == 0 && |r.subs[1].objects| == 3 &&
            |r.subs[2].objects| == 0 && |r.subs[3].objects| == 3
  {
    OutsideRouting();
    FillThenSplit(Config(2, 1), Box100, OutsideObjects());
  }

  /** A leaf answers with its objects other than the query, in order. */
  lemma GetFromLeafExamples()
    ensures var a, b := Item(0, Some(Rect(10.0, 10.0, 10.0, 10.0))), Item(1, Some(Rect(20.0, 10.0, 10.0, 10.0)));
            GetObjects(Leaf(Box100, 0).(objects := [a, b]), a) == [b] &&
            GetObjects(Leaf(Box100, 0).(objects := [a, b]), Item(2, Some(Rect(45.0, 25.0, 20.0, 20.0)))) == [a, b]
  {
    var a, b := Item(0, Some(Rect(10.0, 10.0, 10.0, 10.0))), Item(1, Some(Rect(20.0, 10.0, 10.0, 10.0)));
    var q := Item(2, Some(Rect(45.0, 25.0, 20.0, 20.0)));
    assert [a, b][1..] == [b] && [b][1..] == [];
    assert Others([b], a) == [b] && Others([b], q) == [b];
  }

  /** The quadtree: its options, and the root node that `add` and `clear` replace. */
  class Quadtree {
    const maxDepth: nat
    const maxObjects: nat
    const bounds: Rect
    var root: Node

    function Options(): Config
    {
      Config(maxObjects, maxDepth)
    }

    predicate Invariant()
      reads this
    {
      root.bounds == bounds && root.depth == 0 && Valid(Options(), root)
    }

    /** `new Quadtree({bounds, maxDepth, maxObjects})`: an empty leaf covering the bounds. */
    constructor (bounds: Rect, maxDepth: nat, maxObjects: nat)
      ensures this.bounds == bounds && this.maxDepth == maxDepth && this.maxObjects == maxObjects
      ensures root == Leaf(bounds, 0) && Invariant()
    {
      this.bounds, this.maxDepth, this.maxObjects := bounds, maxDepth, maxObjects;
      root := Leaf(bounds, 0);
    }

    /** `add(...objects)`. */
    method Add(items: seq<Item>)
      requires Invariant()
      modifies this
      ensures Invariant() && root == AddAll(Options(), old(root), items)
    {
      var i := 0;
      while i < |items|
        invariant 0 <= i <= |items|
        invariant Invariant()
        invariant AddAll(Options(), root, items[i..]) == AddAll(Options(), old(root), items)
      {
        assert items[i..][0] == items[i] && items[i..][1..] == items[i + 1..];
        root := AddObject(Options(), root, items[i]);
        i := i + 1;
      }
    }

    /** `clear()`. */
    method Clear()
      requires Invariant()
      modifies this
      ensures Invariant() && root == ClearNode(old(root))
    {
      ClearKeepsStructure(Options(), root);
      root := ClearNode(root);
    }

    /** `get(object)`: never the query object, and only objects stored in the tree. */
    function Get(q: Item): (r: seq<Item>)
      reads this
      ensures q !in r
      ensures forall o :: o in r ==> Holds(root, o)
    {
      GetExcludesQuery(root, q);
      GetAllStored(root, q);
      GetObjects(root, q)
    }
  }
}
