/**
 * An object pool: a store of reusable objects that grows by doubling up to
 * `maxSize`, hands out the next free object on `get`, and after `update`
 * moves the objects that died to the end so the living stay in front.
 *
 * Pooled objects are values of a type parameter. What the source does by
 * calling the objects' own methods is passed in as functions: `init` (with
 * the properties already applied), `update` and `isAlive`. What `create()`
 * returns is the value `blank`.
 */
module Pools {
  import opened Wrappers

  const DefaultMaxSize: nat := 1024

  function MinNat(a: nat, b: nat): (r: nat)
    ensures r <= a && r <= b && (r == a || r == b)
  {
    if a <= b then a else b
  }

  /** Which of the four required methods the object returned by `create()` has. */
  datatype Shape = Shape(hasInit: bool, hasUpdate: bool, hasRender: bool, hasIsAlive: bool)

  /**
   * Construction succeeds only when a `create` function is given and returns
   * an object with `init`, `update`, `render` and `isAlive`. `create` is
   * `None` when it is not passed and `Some(None)` when it returns nothing.
   */
  function CheckCreate<T>(create: Option<Option<(T, Shape)>>): (r: Result<T, string>)
    ensures r.Ok? <==> create.Some? && create.value.Some? &&
                       var s := create.value.value.1;
                       s.hasInit && s.hasUpdate && s.hasRender && s.hasIsAlive
    ensures r.Ok? ==> r.value == create.value.value.0
  {
    match create
    case None => Err("Must provide create() function")
    case Some(None) => Err("create() must return an object")
    case Some(Some((obj, s))) =>
      if s.hasInit && s.hasUpdate && s.hasRender && s.hasIsAlive then Ok(obj)
      else Err("create() must return an object with init(), update(), render() and isAlive()")
  }

  /** The storage length after the growth step of `get`. */
  function GrowLen(len: nat, size: nat, maxSize: nat): (r: nat)
    ensures size == len && len < maxSize ==> r == MinNat(2 * len, maxSize)
    ensures !(size == len && len < maxSize) ==> r == len
  {
    if size == len && len < maxSize then len + MinNat(size, maxSize - len) else len
  }

  /**
   * `get` on full storage first appends fresh objects, one per object in
   * use, while the storage is shorter than `maxSize`.
   */
  function Grown<T>(objects: seq<T>, size: nat, maxSize: nat, blank: T): (r: seq<T>)
    ensures |r| == GrowLen(|objects|, size, maxSize)
    ensures r[..|objects|] == objects
    ensures forall i :: |objects| <= i < |r| ==> r[i] == blank
  {
    objects + seq(GrowLen(|objects|, size, maxSize) - |objects|, _ => blank)
  }

  /**
   * `get` hands out nothing when every stored object is in use and the
   * storage cannot grow: at `maxSize` the source returns `undefined`, and
   * when the storage is already longer than `maxSize` it reads past its end.
   */
  predicate Exhausted(len: nat, size: nat, maxSize: nat)
  {
    size == len && len >= maxSize
  }

  /** The lengths `(storage, size)` after one `get`. */
  function AfterGet(len: nat, size: nat, maxSize: nat): (nat, nat)
  {
    if Exhausted(len, size, maxSize) then (len, size) else (GrowLen(len, size, maxSize), size + 1)
  }

  /** The lengths `(storage, size)` after `n` calls of `get` on a new pool. */
  function Gets(n: nat, maxSize: nat): (nat, nat)
  {
    if n == 0 then (1, 0)
    else
      var p := Gets(n - 1, maxSize);
      AfterGet(p.0, p.1, maxSize)
  }

  predicate IsPow2(n: nat)
  {
    n == 1 || (n >= 2 && n % 2 == 0 && IsPow2(n / 2))
  }

  function Climb(p: nat, k: nat): nat
    requires p >= 1
    decreases k - p
  {
    if p >= k then p else Climb(2 * p, k)
  }

  /** The least power of two that is at least `k`. */
  function Ceil2(k: nat): nat
  {
    Climb(1, k)
  }

  lemma {:induction false} ClimbBounds(p: nat, k: nat)
    requires p >= 1 && IsPow2(p) && p < 2 * k
    ensures IsPow2(Climb(p, k)) && k <= Climb(p, k) < 2 * k
    decreases k - p
  {
    if p < k {
      assert IsPow2(2 * p) by { assert (2 * p) / 2 == p; }
      ClimbBounds(2 * p, k);
    }
  }

  lemma Ceil2Bounds(k: nat)
    requires k >= 1
    ensures IsPow2(Ceil2(k)) && k <= Ceil2(k) < 2 * k
  {
    ClimbBounds(1, k);
  }

  /** Distinct powers of two are at least a factor two apart. */
  lemma {:induction false} Pow2Gap(p: nat, q: nat)
    requires IsPow2(p) && IsPow2(q) && p < q
    ensures 2 * p <= q
    decreases q
  {
    if p != 1 {
      Pow2Gap(p / 2, q / 2);
    }
  }

  /** A power of two in `[k, 2k)` is `Ceil2(k)`. */
  lemma Ceil2Unique(p: nat, k: nat)
    requires k >= 1 && IsPow2(p) && k <= p < 2 * k
    ensures p == Ceil2(k)
  {
    Ceil2Bounds(k);
    if p < Ceil2(k) {
      Pow2Gap(p, Ceil2(k));
    } else if p > Ceil2(k) {
      Pow2Gap(Ceil2(k), p);
    }
  }

  /**
   * From a new pool, `n` gets (at most `maxSize`) put `n` objects in use,
   * and the storage has doubled just often enough: the least power of two
   * holding `n`, capped at `maxSize`.
   */
  lemma {:induction false} GetsFromNew(n: nat, maxSize: nat)
    requires 1 <= n <= maxSize
    ensures Gets(n, maxSize) == (MinNat(Ceil2(n), maxSize), n)
  {
    if n == 1 {
      assert Ceil2(1) == 1;
    } else {
      GetsFromNew(n - 1, maxSize);
      Ceil2Bounds(n - 1);
      var c := Ceil2(n - 1);
      if n - 1 == MinNat(c, maxSize) {
        assert c == n - 1;
        assert IsPow2(2 * c) by { assert (2 * c) / 2 == c; }
        Ceil2Unique(2 * c, n);
      } else {
        Ceil2Unique(c, n);
      }
    }
  }

  /** Past `maxSize`, further gets change nothing: `size` stays at `maxSize`. */
  lemma {:induction false} GetsPastMax(n: nat, maxSize: nat)
    requires 1 <= maxSize <= n
    ensures Gets(n, maxSize) == (maxSize, maxSize)
  {
    if n == maxSize {
      GetsFromNew(n, maxSize);
      Ceil2Bounds(n);
    } else {
      GetsPastMax(n - 1, maxSize);
    }
  }

  /** 129 gets with `maxSize` 500 leave 256 slots; 10 gets with `maxSize` 5 stop at 5. */
  lemma GetExamples()
    ensures Gets(129, 500) == (256, 129)
    ensures Gets(10, 5) == (5, 5)
    ensures Gets(3, DefaultMaxSize).1 == 3
  {
    GetsFromNew(129, 500);
    assert IsPow2(256) by {
      assert IsPow2(2) && IsPow2(4) && IsPow2(8) && IsPow2(16) && IsPow2(32) && IsPow2(64) && IsPow2(128);
    }
    Ceil2Unique(256, 129);
    GetsPastMax(10, 5);
    GetsFromNew(3, DefaultMaxSize);
  }

  /** The number of objects in `t[lo..hi]` that are dead. */
  function DeadIn<T>(t: seq<T>, lo: nat, hi: nat, alive: T -> bool): (r: nat)
    requires lo <= hi <= |t|
    ensures r <= hi - lo
    decreases hi - lo
  {
    if lo == hi then 0 else (if alive(t[lo]) then 0 else 1) + DeadIn(t, lo + 1, hi, alive)
  }

  /** The objects of `t` whose liveness is `b`, in order. */
  function Keep<T>(t: seq<T>, alive: T -> bool, b: bool): (r: seq<T>)
    ensures |r| <= |t|
  {
    if |t| == 0 then [] else (if alive(t[0]) == b then [t[0]] else []) + Keep(t[1..], alive, b)
  }

  /** `update` applies each object's update to the first `size` objects. */
  function Stepped<T>(objects: seq<T>, size: nat, step: T -> T): (r: seq<T>)
    requires size <= |objects|
    ensures |r| == |objects|
  {
    seq(|objects|, i requires 0 <= i < |objects| => if i < size then step(objects[i]) else objects[i])
  }

  /**
   * `update`: after the updates, each dead object among the first `size`
   * lowers `size`, and if any died all stored objects are stably sorted
   * living first.
   */
  function Swept<T>(objects: seq<T>, size: nat, step: T -> T, alive: T -> bool): (r: (seq<T>, nat))
    requires size <= |objects|
  {
    var t := Stepped(objects, size, step);
    var d := DeadIn(t, 0, size, alive);
    (if d > 0 then Keep(t, alive, true) + Keep(t, alive, false) else t, size - d)
  }

  lemma KeepCons<T>(x: T, t: seq<T>, alive: T -> bool, b: bool)
    ensures Keep([x] + t, alive, b) == (if alive(x) == b then [x] else []) + Keep(t, alive, b)
    ensures Keep([x], alive, b) == if alive(x) == b then [x] else []
  {
    assert ([x] + t)[1..] == t;
    assert [x][1..] == [];
  }

  /** Living and dead objects together are all of them. */
  lemma {:induction false} KeepLength<T>(t: seq<T>, alive: T -> bool)
    ensures |Keep(t, alive, true)| + |Keep(t, alive, false)| == |t|
  {
    if |t| > 0 {
      KeepLength(t[1..], alive);
    }
  }

  lemma {:induction false} KeepSplits<T>(t: seq<T>, alive: T -> bool)
    ensures multiset(Keep(t, alive, true)) + multiset(Keep(t, alive, false)) == multiset(t)
  {
    if |t| > 0 {
      KeepSplits(t[1..], alive);
      var yes, no := Keep(t[1..], alive, true), Keep(t[1..], alive, false);
      assert t == [t[0]] + t[1..];
      assert multiset(t) == multiset{t[0]} + multiset(t[1..]);
      if alive(t[0]) {
        assert Keep(t, alive, true) == [t[0]] + yes && Keep(t, alive, false) == [] + no;
        assert multiset([t[0]] + yes) == multiset{t[0]} + multiset(yes);
      } else {
        assert Keep(t, alive, true) == [] + yes && Keep(t, alive, false) == [t[0]] + no;
        assert multiset([t[0]] + no) == multiset{t[0]} + multiset(no);
      }
    }
  }

  lemma {:induction false} KeepMembers<T>(t: seq<T>, alive: T -> bool, b: bool, x: T)
    ensures x in Keep(t, alive, b) <==> x in t && alive(x) == b
  {
    if |t| > 0 {
      KeepMembers(t[1..], alive, b, x);
      assert t == [t[0]] + t[1..];
    }
  }

  /** The living objects of `t[lo..hi]`, in order. */
  lemma {:induction false} KeepOfDeadRange<T>(t: seq<T>, lo: nat, alive: T -> bool)
    requires lo <= |t|
    requires forall i :: lo <= i < |t| ==> !alive(t[i])
    ensures Keep(t, alive, true) == Keep(t[..lo], alive, true)
    ensures |Keep(t, alive, false)| == DeadIn(t, 0, lo, alive) + (|t| - lo)
    decreases |t|
  {
    if |t| > 0 {
      if lo == 0 {
        assert forall i :: 0 <= i < |t[1..]| ==> !alive(t[1..][i]) by {
          forall i | 0 <= i < |t[1..]| ensures !alive(t[1..][i]) { assert t[1..][i] == t[i + 1]; }
        }
        KeepOfDeadRange(t[1..], 0, alive);
        assert t[..0] == [] == t[1..][..0];
      } else {
        KeepOfDeadRange(t[1..], lo - 1, alive);
        assert t[1..][..lo - 1] == t[..lo][1..];
        DeadInShift(t, 0, lo, alive);
      }
    } else {
      assert t[..lo] == [];
    }
  }

  /** Counting from the front of `t` or of `t[1..]` agree. */
  lemma {:induction false} DeadInShift<T>(t: seq<T>, lo: nat, hi: nat, alive: T -> bool)
    requires 1 <= |t| && lo < hi <= |t|
    ensures DeadIn(t, lo + 1, hi, alive) == DeadIn(t[1..], lo, hi - 1, alive)
    decreases hi - lo
  {
    if lo + 1 < hi {
      DeadInShift(t, lo + 1, hi, alive);
    }
  }

  /** The living objects of `t[..n]` number `n` minus the dead ones. */
  lemma {:induction false} KeepCount<T>(t: seq<T>, alive: T -> bool)
    ensures |Keep(t, alive, true)| == |t| - DeadIn(t, 0, |t|, alive)
  {
    if |t| > 0 {
      KeepCount(t[1..], alive);
      DeadInShift(t, 0, |t|, alive);
    }
  }

  /** Every stored object beyond the first `size` is dead. */
  predicate Settled<T>(objects: seq<T>, size: nat, alive: T -> bool)
  {
    forall i :: size <= i < |objects| ==> !alive(objects[i])
  }

  /**
   * `update` reorders the pool without losing or duplicating an object, and
   * its new size is the number of objects in use that are still alive.
   */
  lemma SweptPermutes<T>(objects: seq<T>, size: nat, step: T -> T, alive: T -> bool)
    requires size <= |objects|
    ensures var r := Swept(objects, size, step, alive);
            multiset(r.0) == multiset(Stepped(objects, size, step)) &&
            r.1 == |Keep(Stepped(objects, size, step)[..size], alive, true)|
  {
    var t := Stepped(objects, size, step);
    KeepSplits(t, alive);
    KeepCount(t[..size], alive);
    DeadInPrefix(t, 0, size, alive);
  }

  /** Counting in a range ignores what follows it. */
  lemma {:induction false} DeadInPrefix<T>(t: seq<T>, lo: nat, hi: nat, alive: T -> bool)
    requires lo <= hi <= |t|
    ensures DeadIn(t, lo, hi, alive) == DeadIn(t[..hi], lo, hi, alive)
    decreases hi - lo
  {
    if lo < hi {
      DeadInPrefix(t, lo + 1, hi, alive);
      assert t[..hi][lo] == t[lo];
    }
  }

  /**
   * On a settled pool `update` gives exactly the objects still alive, in
   * their order, as the objects in use, and leaves the pool settled.
   */
  lemma SweptSettles<T>(objects: seq<T>, size: nat, step: T -> T, alive: T -> bool)
    requires size <= |objects| && Settled(objects, size, alive)
    ensures var r := Swept(objects, size, step, alive);
            r.1 <= |r.0| &&
            r.0[..r.1] == Keep(Stepped(objects, size, step)[..size], alive, true) &&
            Settled(r.0, r.1, alive)
  {
    var t := Stepped(objects, size, step);
    assert forall i :: size <= i < |t| ==> !alive(t[i]) by {
      forall i | size <= i < |t| ensures !alive(t[i]) { assert t[i] == objects[i]; }
    }
    KeepOfDeadRange(t, size, alive);
    KeepCount(t[..size], alive);
    DeadInPrefix(t, 0, size, alive);
    var d := DeadIn(t, 0, size, alive);
    var live := Keep(t, alive, true);
    if d > 0 {
      var r := live + Keep(t, alive, false);
      assert r[..size - d] == live;
      forall i | size - d <= i < |r| ensures !alive(r[i]) {
        assert r[i] in Keep(t, alive, false);
        KeepMembers(t, alive, false, r[i]);
      }
    } else {
      KeepAllAlive(t[..size], alive);
      assert t[..size] == t[..size - d];
    }
  }

  /** With no dead object, keeping the living keeps everything. */
  lemma {:induction false} KeepAllAlive<T>(t: seq<T>, alive: T -> bool)
    requires DeadIn(t, 0, |t|, alive) == 0
    ensures Keep(t, alive, true) == t
  {
    if |t| > 0 {
      DeadInShift(t, 0, |t|, alive);
      KeepAllAlive(t[1..], alive);
      assert t == [t[0]] + t[1..];
    }
  }

  /** `get` keeps a settled pool settled when a fresh object is dead. */
  lemma GetKeepsSettled<T>(objects: seq<T>, size: nat, maxSize: nat, blank: T, x: T, alive: T -> bool)
    requires 1 <= |objects| && size <= |objects| && !Exhausted(|objects|, size, maxSize)
    requires Settled(objects, size, alive) && !alive(blank)
    ensures var g := Grown(objects, size, maxSize, blank);
            size < |g| && Settled(g[size := x], size + 1, alive)
  {
    var g := Grown(objects, size, maxSize, blank);
    var h := g[size := x];
    forall i | size + 1 <= i < |h| ensures !alive(h[i]) {
      if i < |objects| {
        assert h[i] == g[..|objects|][i] == objects[i];
      }
    }
  }

  /** A pooled sprite in the update example: its id and remaining `ttl`. */
  datatype Particle = Particle(id: nat, ttl: int)

  function Tick(p: Particle): Particle
  {
    p.(ttl := p.ttl - 1)
  }

  predicate Lives(p: Particle)
  {
    p.ttl > 0
  }

  const Five := [Particle(0, 2), Particle(1, 2), Particle(2, 1), Particle(3, 2), Particle(4, 2)]
  const FiveTicked := [Particle(0, 1), Particle(1, 1), Particle(2, 0), Particle(3, 1), Particle(4, 1)]

  lemma TickFive()
    ensures Stepped(Five, 5, Tick) == FiveTicked
  {
    var t := Stepped(Five, 5, Tick);
    forall i | 0 <= i < 5 ensures t[i] == FiveTicked[i] {
      assert t[i] == Tick(Five[i]);
    }
  }

  lemma KeepFive()
    ensures DeadIn(FiveTicked, 0, 5, Lives) == 1
    ensures Keep(FiveTicked, Lives, true) == [Particle(0, 1), Particle(1, 1), Particle(3, 1), Particle(4, 1)]
    ensures Keep(FiveTicked, Lives, false) == [Particle(2, 0)]
  {
    var t := FiveTicked;
    assert t[1..] == t[1..5] && t[1..][1..] == t[2..5] && t[2..5][1..] == t[3..5] && t[3..5][1..] == t[4..5];
    assert t[4..5][1..] == [];
    assert Keep(t[3..5], Lives, false) == [];
    assert Keep(t[2..5], Lives, false) == [Particle(2, 0)];
  }

  /**
   * Five objects with `ttl` 2, the third lowered to 1: after one update the
   * third is dead and moves to the end behind the other four, in order.
   */
  lemma UpdateExample()
    ensures Swept(Five, 5, Tick, Lives) ==
              ([Particle(0, 1), Particle(1, 1), Particle(3, 1), Particle(4, 1), Particle(2, 0)], 4)
  {
    TickFive();
    KeepFive();
    var t := Stepped(Five, 5, Tick);
    assert Swept(Five, 5, Tick, Lives) == (Keep(t, Lives, true) + Keep(t, Lives, false), 4);
    assert [Particle(0, 1), Particle(1, 1), Particle(3, 1), Particle(4, 1)] + [Particle(2, 0)] ==
           [Particle(0, 1), Particle(1, 1), Particle(3, 1), Particle(4, 1), Particle(2, 0)];
  }

  /** `Pool`: the stored objects, how many of them are in use, and `maxSize`. */
  class Pool<T> {
    const blank: T
    const maxSize: nat
    var objects: seq<T>
    var size: nat

    /** At least one object is stored; the storage passes `maxSize` only by the first object. */
    predicate Valid()
      reads this
    {
      1 <= |objects| && size <= |objects| && (|objects| <= maxSize || |objects| == 1)
    }

    /** A pool holding one fresh object, none in use. */
    constructor (blank: T, maxSize: nat)
      ensures this.blank == blank && this.maxSize == maxSize
      ensures objects == [blank] && size == 0 && Valid()
    {
      this.blank, this.maxSize := blank, maxSize;
      objects, size := [blank], 0;
    }

    /** `getAliveObjects()`: the objects in use, in the order they were handed out. */
    function AliveObjects(): (r: seq<T>)
      reads this
      requires Valid()
      ensures |r| == size && forall i :: 0 <= i < size ==> r[i] == objects[i]
    {
      objects[..size]
    }

    /**
     * `get(properties)`: the next free object, after `init` applied the
     * properties, growing the storage first when every object is in use.
     */
    method Get(init: T -> T) returns (r: Option<T>)
      requires Valid()
      modifies this
      ensures Valid()
      ensures r.None? <==> Exhausted(old(|objects|), old(size), maxSize)
      ensures r.None? ==> objects == old(objects) && size == old(size)
      ensures r.Some? ==>
                var g := Grown(old(objects), old(size), maxSize, blank);
                old(size) < |g| && objects == g[old(size) := init(g[old(size)])] &&
                size == old(size) + 1 && r.value == objects[old(size)]
    {
      if size == |objects| {
        if size >= maxSize {
          return None;
        }
        var n, len := size, |objects|;
        var x := 0;
        while x < n && |objects| < maxSize
          invariant 0 <= x <= n && size == n
          invariant objects == old(objects) + seq(x, _ => blank)
          invariant |objects| == len + x <= maxSize
        {
          objects := objects + [blank];
          x := x + 1;
        }
        assert x == MinNat(n, maxSize - len);
      }
      objects := objects[size := init(objects[size])];
      r := Some(objects[size]);
      size := size + 1;
    }

    /**
     * `update(dt)`: each object in use is updated, from the last down to the
     * first; every one that is then dead lowers `size`, and if any died the
     * storage is stably sorted living first.
     */
    method Update(step: T -> T, alive: T -> bool)
      requires Valid()
      modifies this
      ensures Valid()
      ensures (objects, size) == Swept(old(objects), old(size), step, alive)
    {
      var n := size;
      ghost var o := objects;
      ghost var t := Stepped(o, n, step);
      var doSort := false;
      var i := n;
      while i > 0
        invariant 0 <= i <= n <= |o| == |objects|
        invariant forall j :: 0 <= j < |o| ==> objects[j] == if i <= j < n then step(o[j]) else o[j]
        invariant size == n - DeadIn(t, i, n, alive)
        invariant doSort <==> DeadIn(t, i, n, alive) > 0
      {
        i := i - 1;
        objects := objects[i := step(objects[i])];
        assert objects[i] == t[i];
        if !alive(objects[i]) {
          doSort := true;
          size := size - 1;
        }
      }
      assert objects == t;
      if doSort {
        KeepLength(t, alive);
        objects := Keep(objects, alive, true) + Keep(objects, alive, false);
      }
    }

    /** `clear()`: one fresh object stored, none in use. */
    method Clear()
      modifies this
      ensures objects == [blank] && size == 0 && Valid()
    {
      objects, size := [blank], 0;
    }
  }

  /**
   * `Pool({create, maxSize})`: fails unless `create` is given and returns an
   * object with the four methods; `maxSize` defaults to 1024.
   */
  method NewPool<T>(create: Option<Option<(T, Shape)>>, maxSize: Option<nat>) returns (r: Result<Pool<T>, string>)
    ensures r.Ok? <==> CheckCreate(create).Ok?
    ensures r.Ok? ==> fresh(r.value) && r.value.objects == [CheckCreate(create).value] && r.value.size == 0 &&
                      r.value.maxSize == (if maxSize.Some? then maxSize.value else DefaultMaxSize) && r.value.Valid()
  {
    match CheckCreate(create)
    case Err(e) => r := Err(e);
    case Ok(blank) =>
      var p := new Pool(blank, if maxSize.Some? then maxSize.value else DefaultMaxSize);
      r := Ok(p);
  }
}
