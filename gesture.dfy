/**
 * Touch gestures. `initGesture` listens once for the `touchChanged` and
 * `touchEnd` events; every `touchChanged` runs each gesture of the gesture
 * map (`swipe`, then `pinch`) whose touch count matches, and a recognised
 * gesture calls the callback stored under its name and direction
 * (`swipeleft`, `pinchout`, ...). Once a gesture is recognised, the other
 * gestures are ignored until `touchEnd`, so lifting one finger of a pinch is
 * not a swipe.
 *
 * `Math.hypot` is a parameter: the handler receives it as a function of the
 * two coordinate differences.
 */
module Gestures {
  import opened Wrappers
  import opened Numbers
  import opened Events

  datatype EventType = TouchStart | TouchMove | TouchEnd | OtherEvent

  /** One touch: where it is and where it started. */
  datatype Touch = Touch(x: real, y: real, startX: real, startY: real)

  /** The `touches` object: a `length` and the touches stored under their indices. */
  datatype Touches = Touches(length: nat, at: map<nat, Touch>)

  datatype Kind = Swipe | Pinch

  /** The gesture map, in the order the handler runs it. */
  const GestureMap: seq<Kind> := [Swipe, Pinch]

  function Name(k: Kind): string
  {
    match k
    case Swipe => "swipe"
    case Pinch => "pinch"
  }

  /** The number of touches a gesture needs. */
  function TouchCount(k: Kind): nat
  {
    match k
    case Swipe => 1
    case Pinch => 2
  }

  const SwipeThreshold: real := 10.0
  const PinchThreshold: real := 2.0

  /** The touches are stored under the indices `0 .. length - 1`. */
  predicate Contiguous(ts: Touches)
  {
    forall i :: 0 <= i < ts.length ==> i in ts.at
  }

  /** Which touch events a gesture has a handler for. */
  predicate Handles(k: Kind, evt: EventType)
  {
    match k
    case Swipe => evt == TouchEnd
    case Pinch => evt == TouchStart || evt == TouchMove
  }

  // ---------------------------------------------------------------------------
  // Classification
  // ---------------------------------------------------------------------------

  /**
   * The direction of a swipe, `""` when it moved less than the threshold on
   * both axes; the larger displacement decides the axis.
   */
  function SwipeType(t: Touch): (r: string)
    ensures var dx, dy := t.x - t.startX, t.y - t.startY;
            (r == "" <==> Abs(dx) < SwipeThreshold && Abs(dy) < SwipeThreshold) &&
            (r == "left" <==> r != "" && Abs(dx) > Abs(dy) && dx < 0.0) &&
            (r == "right" <==> r != "" && Abs(dx) > Abs(dy) && dx >= 0.0) &&
            (r == "up" <==> r != "" && Abs(dx) <= Abs(dy) && dy < 0.0) &&
            (r == "down" <==> r != "" && Abs(dx) <= Abs(dy) && dy >= 0.0)
  {
    var dx, dy := t.x - t.startX, t.y - t.startY;
    if Abs(dx) < SwipeThreshold && Abs(dy) < SwipeThreshold then ""
    else if Abs(dx) > Abs(dy) then (if dx < 0.0 then "left" else "right")
    else if dy < 0.0 then "up" else "down"
  }

  /**
   * A pinch move: no gesture when the spread changed by less than the
   * threshold; otherwise `out` when it grew and `in` when it shrank, and the
   * new spread becomes the reference.
   */
  function PinchMove(prev: real, dist: real): (r: (string, real))
    ensures r.0 == "" <==> Abs(dist - prev) < PinchThreshold
    ensures r.0 == "out" <==> dist >= prev + PinchThreshold
    ensures r.0 == "in" <==> dist <= prev - PinchThreshold
    ensures r.1 == if r.0 == "" then prev else dist
  {
    if Abs(dist - prev) < PinchThreshold then ("", prev)
    else (if dist > prev then "out" else "in", dist)
  }

  /** The gesture recognised since the last `touchEnd`, and the pinch reference spread. */
  datatype Tracker = Tracker(current: Option<Kind>, prevDist: real)

  /** Whether gesture `k` looks at this event at all. */
  predicate Eligible(k: Kind, tr: Tracker, evt: EventType, ts: Touches)
  {
    (tr.current.None? || tr.current.value == k) && ts.length == TouchCount(k) && Contiguous(ts) && Handles(k, evt)
  }

  /** The spread of the first two touches. */
  function Spread(ts: Touches, hypot: (real, real) -> real): real
    requires 0 in ts.at && 1 in ts.at
  {
    hypot(ts.at[0].x - ts.at[1].x, ts.at[0].y - ts.at[1].y)
  }

  /** For one or two touches, being contiguous means having the indices 0 (and 1). */
  lemma ContiguousSmall(ts: Touches)
    ensures ts.length == 1 ==> (Contiguous(ts) <==> 0 in ts.at)
    ensures ts.length == 2 ==> (Contiguous(ts) <==> 0 in ts.at && 1 in ts.at)
  {
    if ts.length == 1 && 0 in ts.at {
      forall i | 0 <= i < ts.length ensures i in ts.at { assert i == 0; }
    }
    if ts.length == 2 && 0 in ts.at && 1 in ts.at {
      forall i | 0 <= i < ts.length ensures i in ts.at { assert i == 0 || i == 1; }
    }
  }

  /**
   * What the handler of gesture `k` for this event returns: the new pinch
   * reference spread and the direction, `""` when there is none.
   */
  function Classify(k: Kind, tr: Tracker, evt: EventType, ts: Touches, hypot: (real, real) -> real): (r: (real, string))
    requires Eligible(k, tr, evt, ts)
    ensures k == Swipe ==> r == (tr.prevDist, SwipeType(ts.at[0]))
    ensures k == Pinch && evt == TouchStart ==> r == (Spread(ts, hypot), "")
    ensures k == Pinch && evt == TouchMove ==> r == (PinchMove(tr.prevDist, Spread(ts, hypot)).1,
                                                   PinchMove(tr.prevDist, Spread(ts, hypot)).0)
  {
    ContiguousSmall(ts);
    match k
    case Swipe => (tr.prevDist, SwipeType(ts.at[0]))
    case Pinch =>
      if evt == TouchStart then (Spread(ts, hypot), "")
      else var m := PinchMove(tr.prevDist, Spread(ts, hypot)); (m.1, m.0)
  }

  /**
   * Runs gesture `k` on one `touchChanged` event: the new tracker and the
   * recognised callback name, `""` when there is none.
   */
  function Consider(k: Kind, tr: Tracker, evt: EventType, ts: Touches, hypot: (real, real) -> real): (r: (Tracker, string))
    ensures !Eligible(k, tr, evt, ts) ==> r == (tr, "")
    ensures Eligible(k, tr, evt, ts) ==>
              var c := Classify(k, tr, evt, ts, hypot);
              r == if c.1 == "" then (tr.(prevDist := c.0), "") else (Tracker(Some(k), c.0), Name(k) + c.1)
  {
    if !Eligible(k, tr, evt, ts) then (tr, "")
    else
      var c := Classify(k, tr, evt, ts, hypot);
      if c.1 == "" then (tr.(prevDist := c.0), "")
      else (Tracker(Some(k), c.0), Name(k) + c.1)
  }

  /**
   * The current gesture is a lock held until `touchEnd`: an event makes a
   * gesture current only by recognising something, never replaces one that
   * is current, and while one gesture is current no other gesture
   * recognises anything or touches the tracker.
   */
  lemma ConsiderLocks(k: Kind, tr: Tracker, evt: EventType, ts: Touches, hypot: (real, real) -> real)
    ensures var r := Consider(k, tr, evt, ts, hypot);
            (r.1 != "" ==> r.0.current == Some(k) && |r.1| > |Name(k)| && r.1[..|Name(k)|] == Name(k)) &&
            (r.1 == "" ==> r.0.current == tr.current) &&
            (tr.current.Some? ==> r.0.current == tr.current) &&
            (tr.current.Some? && tr.current.value != k ==> r == (tr, ""))
  {
    var r := Consider(k, tr, evt, ts, hypot);
    if Eligible(k, tr, evt, ts) {
      var c := Classify(k, tr, evt, ts, hypot);
      if c.1 != "" {
        assert r.1 == Name(k) + c.1;
        assert r.1[..|Name(k)|] == Name(k);
      }
    }
  }

  /** Runs the gestures of `kinds` in order, collecting the recognised names. */
  function Handle(kinds: seq<Kind>, tr: Tracker, evt: EventType, ts: Touches, hypot: (real, real) -> real): (Tracker, seq<string>)
  {
    if kinds == [] then (tr, [])
    else
      var (tr1, name) := Consider(kinds[0], tr, evt, ts, hypot);
      var (tr2, rest) := Handle(kinds[1..], tr1, evt, ts, hypot);
      (tr2, Found(name) + rest)
  }

  /** The names recognised by one gesture. */
  function Found(name: string): seq<string>
  {
    if name == "" then [] else [name]
  }

  /** The handler runs the swipe, then the pinch on the tracker the swipe left. */
  lemma HandleGestureMap(tr: Tracker, evt: EventType, ts: Touches, hypot: (real, real) -> real)
    ensures var s := Consider(Swipe, tr, evt, ts, hypot);
            var p := Consider(Pinch, s.0, evt, ts, hypot);
            Handle(GestureMap, tr, evt, ts, hypot) == (p.0, Found(s.1) + Found(p.1))
  {
    var s := Consider(Swipe, tr, evt, ts, hypot);
    var p := Consider(Pinch, s.0, evt, ts, hypot);
    assert GestureMap[0] == Swipe && GestureMap[1..] == [Pinch];
    assert [Pinch][0] == Pinch && [Pinch][1..] == [];
    assert Handle([], p.0, evt, ts, hypot) == (p.0, []);
    assert Handle([Pinch], s.0, evt, ts, hypot) == (p.0, Found(p.1) + []);
    assert Found(p.1) + [] == Found(p.1);
  }

  /** Running the gestures from position `i` runs gesture `i`, then the rest. */
  lemma HandleUnfold(kinds: seq<Kind>, i: nat, tr: Tracker, evt: EventType, ts: Touches, hypot: (real, real) -> real)
    requires i < |kinds|
    ensures var c := Consider(kinds[i], tr, evt, ts, hypot);
            var rest := Handle(kinds[i + 1..], c.0, evt, ts, hypot);
            Handle(kinds[i..], tr, evt, ts, hypot) == (rest.0, Found(c.1) + rest.1)
  {
    assert kinds[i..][0] == kinds[i];
    assert kinds[i..][1..] == kinds[i + 1..];
  }

  lemma ConcatAssoc<T>(a: seq<T>, b: seq<T>, c: seq<T>)
    ensures a + (b + c) == (a + b) + c
  {
  }

  // ---------------------------------------------------------------------------
  // What the handler recognises
  // ---------------------------------------------------------------------------

  /**
   * A swipe is recognised exactly on `touchend`, with one touch stored at
   * index 0, no other gesture under way, and a displacement reaching the
   * threshold; its name carries the direction.
   */
  lemma SwipeRecognised(tr: Tracker, evt: EventType, ts: Touches, hypot: (real, real) -> real)
    ensures var r := Consider(Swipe, tr, evt, ts, hypot);
            (r.1 != "" <==> (tr.current.None? || tr.current.value == Swipe) && evt == TouchEnd && ts.length == 1 && 0 in ts.at &&
                            SwipeType(ts.at[0]) != "") &&
            (r.1 != "" ==> r.1 == "swipe" + SwipeType(ts.at[0]))
  {
    ContiguousSmall(ts);
    var r := Consider(Swipe, tr, evt, ts, hypot);
    if Eligible(Swipe, tr, evt, ts) && SwipeType(ts.at[0]) != "" {
      assert r.1 == "swipe" + SwipeType(ts.at[0]);
      assert r.1[0] == 's';
    }
  }

  /**
   * A pinch is recognised exactly on `touchmove` with two touches at
   * indices 0 and 1 whose spread moved by the threshold from the reference:
   * `pinchout` when it grew, `pinchin` when it shrank.
   */
  lemma PinchRecognised(tr: Tracker, evt: EventType, ts: Touches, hypot: (real, real) -> real)
    ensures var r := Consider(Pinch, tr, evt, ts, hypot);
            var ok := (tr.current.None? || tr.current.value == Pinch) && evt == TouchMove && ts.length == 2 && 0 in ts.at && 1 in ts.at;
            (r.1 == "pinchout" <==> ok && Spread(ts, hypot) >= tr.prevDist + PinchThreshold) &&
            (r.1 == "pinchin" <==> ok && Spread(ts, hypot) <= tr.prevDist - PinchThreshold) &&
            (r.1 != "" ==> r.1 == "pinchout" || r.1 == "pinchin")
  {
    ContiguousSmall(ts);
    var r := Consider(Pinch, tr, evt, ts, hypot);
    if Eligible(Pinch, tr, evt, ts) && evt == TouchMove {
      var m := PinchMove(tr.prevDist, Spread(ts, hypot));
      assert r.1 == (if m.0 == "" then "" else "pinch" + m.0);
      assert "pinch" + "out" == "pinchout";
      assert "pinch" + "in" == "pinchin";
      if m.0 == "out" {
        assert r.1 != "pinchin" by { assert r.1[5] != "pinchin"[5]; }
      } else if m.0 == "in" {
        assert r.1 != "pinchout" by { assert r.1[5] != "pinchout"[5]; }
      }
    }
    if Eligible(Pinch, tr, evt, ts) && evt == TouchStart {
      assert r.1 == "";
    }
  }

  /** `touchstart` with two touches records their spread as the pinch reference. */
  lemma PinchStartRecords(tr: Tracker, ts: Touches, hypot: (real, real) -> real)
    requires (tr.current.None? || tr.current.value == Pinch) && ts.length == 2 && 0 in ts.at && 1 in ts.at
    ensures Consider(Pinch, tr, TouchStart, ts, hypot) == (tr.(prevDist := Spread(ts, hypot)), "")
  {
    ContiguousSmall(ts);
  }

  /**
   * Once a pinch is under way, a one-finger `touchend` is no swipe, and the
   * pinch stays the current gesture.
   */
  lemma NoSwipeDuringPinch(evt: EventType, ts: Touches, prev: real, hypot: (real, real) -> real)
    requires ts.length == 1
    ensures Handle(GestureMap, Tracker(Some(Pinch), prev), evt, ts, hypot) == (Tracker(Some(Pinch), prev), [])
  {
    var tr := Tracker(Some(Pinch), prev);
    HandleGestureMap(tr, evt, ts, hypot);
    assert Consider(Swipe, tr, evt, ts, hypot) == (tr, "");
    assert Consider(Pinch, tr, evt, ts, hypot) == (tr, "");
    assert Found("") + Found("") == [];
    assert !Eligible(Swipe, tr, evt, ts);
    assert !Eligible(Pinch, tr, evt, ts);
  }

  // ---------------------------------------------------------------------------
  // The gesture module's state
  // ---------------------------------------------------------------------------

  /** The two listeners `initGesture` registers with the event emitter. */
  datatype Listener = OnTouchChanged | OnTouchEnd

  class GestureState<C> {
    /** Callbacks by gesture name; `None` is a callback reset to 0 by `offGesture`. */
    var callbacks: map<string, Option<C>>
    var tracker: Tracker
    var initialized: bool

    constructor ()
      ensures callbacks == map[] && tracker == Tracker(None, 0.0) && !initialized
    {
      callbacks := map[];
      tracker := Tracker(None, 0.0);
      initialized := false;
    }

    /** Registers the two listeners the first time only. */
    method Init<A>(events: Emitter<Listener, A>)
      modifies this, events
      ensures initialized
      ensures old(initialized) ==> events.callbacks == old(events.callbacks)
      ensures !old(initialized) ==>
                events.callbacks == old(events.callbacks)
                  ["touchChanged" := Registered(old(events.callbacks), "touchChanged") + [OnTouchChanged]]
                  ["touchEnd" := Registered(old(events.callbacks), "touchEnd") + [OnTouchEnd]]
      ensures callbacks == old(callbacks) && tracker == old(tracker)
    {
      if !initialized {
        initialized := true;
        events.On("touchChanged", OnTouchChanged);
        events.On("touchEnd", OnTouchEnd);
      }
    }

    /** Stores `c` under every name of `names`. */
    method On(names: seq<string>, c: C)
      modifies this
      ensures forall n :: n in names ==> n in callbacks && callbacks[n] == Some(c)
      ensures forall n :: n !in names ==> (n in callbacks <==> n in old(callbacks)) &&
                                          (n in callbacks ==> callbacks[n] == old(callbacks)[n])
      ensures tracker == old(tracker) && initialized == old(initialized)
    {
      var i := 0;
      while i < |names|
        invariant 0 <= i <= |names|
        invariant forall n :: n in names[..i] ==> n in callbacks && callbacks[n] == Some(c)
        invariant forall n :: n !in names[..i] ==> (n in callbacks <==> n in old(callbacks)) &&
                                                    (n in callbacks ==> callbacks[n] == old(callbacks)[n])
        invariant tracker == old(tracker) && initialized == old(initialized)
      {
        assert names[..i + 1] == names[..i] + [names[i]];
        callbacks := callbacks[names[i] := Some(c)];
        i := i + 1;
      }
      assert names[..i] == names;
    }

    /** Resets the callback of every name of `names` to 0. */
    method Off(names: seq<string>)
      modifies this
      ensures forall n :: n in names ==> n in callbacks && callbacks[n] == None
      ensures forall n :: n !in names ==> (n in callbacks <==> n in old(callbacks)) &&
                                          (n in callbacks ==> callbacks[n] == old(callbacks)[n])
      ensures tracker == old(tracker) && initialized == old(initialized)
    {
      var i := 0;
      while i < |names|
        invariant 0 <= i <= |names|
        invariant forall n :: n in names[..i] ==> n in callbacks && callbacks[n] == None
        invariant forall n :: n !in names[..i] ==> (n in callbacks <==> n in old(callbacks)) &&
                                                    (n in callbacks ==> callbacks[n] == old(callbacks)[n])
        invariant tracker == old(tracker) && initialized == old(initialized)
      {
        assert names[..i + 1] == names[..i] + [names[i]];
        callbacks := callbacks[names[i] := None];
        i := i + 1;
      }
      assert names[..i] == names;
    }

    /** The callback stored under `name`, when it is set. */
    function CallbackOf(name: string): Option<C>
      reads this`callbacks
    {
      if name in callbacks then callbacks[name] else None
    }

    /** The callbacks that are set among `names`, in order. */
    function CallsOf(names: seq<string>): (r: seq<C>)
      reads this`callbacks
      ensures |r| <= |names|
    {
      if names == [] then []
      else
        var last := names[|names| - 1];
        CallsOf(names[..|names| - 1]) + (if CallbackOf(last).Some? then [CallbackOf(last).value] else [])
    }

    lemma CallsSnoc(names: seq<string>, n: string)
      ensures CallsOf(names + [n]) ==
              CallsOf(names) + (if CallbackOf(n).Some? then [CallbackOf(n).value] else [])
    {
      assert (names + [n])[..|names|] == names;
    }

    /**
     * The `touchChanged` listener: runs each gesture of the gesture map in
     * order and returns the callbacks it calls (each with the event and the
     * touches).
     */
    method TouchChanged(evt: EventType, ts: Touches, hypot: (real, real) -> real) returns (called: seq<C>)
      modifies this
      ensures tracker == Handle(GestureMap, old(tracker), evt, ts, hypot).0
      ensures called == CallsOf(Handle(GestureMap, old(tracker), evt, ts, hypot).1)
      ensures callbacks == old(callbacks) && initialized == old(initialized)
    {
      ghost var tr0 := tracker;
      called := [];
      ghost var seen: seq<string> := [];
      var i := 0;
      assert GestureMap[0..] == GestureMap;
      assert seen + Handle(GestureMap, tracker, evt, ts, hypot).1 == Handle(GestureMap, tracker, evt, ts, hypot).1;
      while i < |GestureMap|
        invariant 0 <= i <= |GestureMap|
        invariant Handle(GestureMap, tr0, evt, ts, hypot) ==
                  (Handle(GestureMap[i..], tracker, evt, ts, hypot).0,
                   seen + Handle(GestureMap[i..], tracker, evt, ts, hypot).1)
        invariant called == CallsOf(seen)
        invariant callbacks == old(callbacks) && initialized == old(initialized)
      {
        var c := Consider(GestureMap[i], tracker, evt, ts, hypot);
        var name := c.1;
        HandleUnfold(GestureMap, i, tracker, evt, ts, hypot);
        ConcatAssoc(seen, Found(name), Handle(GestureMap[i + 1..], c.0, evt, ts, hypot).1);
        tracker := c.0;
        if name != "" {
          CallsSnoc(seen, name);
          seen := seen + [name];
          var cb := CallbackOf(name);
          if cb.Some? {
            called := called + [cb.value];
          }
        } else {
          assert seen + Found(name) == seen;
        }
        i := i + 1;
      }
      assert GestureMap[i..] == [];
      assert seen + [] == seen;
    }

    /** The `touchEnd` listener: the next gesture may be any gesture. */
    method TouchEnded()
      modifies this
      ensures tracker == old(tracker).(current := None)
      ensures callbacks == old(callbacks) && initialized == old(initialized)
    {
      tracker := tracker.(current := None);
    }
  }

  // ---------------------------------------------------------------------------
  // Worked cases
  // ---------------------------------------------------------------------------

  /** Moving from (50, 50) to the left, right, top or bottom by 20 or 40 swipes that way; 5 pixels does not. */
  lemma SwipeExamples()
    ensures SwipeType(Touch(30.0, 50.0, 50.0, 50.0)) == "left"
    ensures SwipeType(Touch(90.0, 50.0, 50.0, 50.0)) == "right"
    ensures SwipeType(Touch(50.0, 30.0, 50.0, 50.0)) == "up"
    ensures SwipeType(Touch(50.0, 90.0, 50.0, 50.0)) == "down"
    ensures SwipeType(Touch(45.0, 50.0, 50.0, 50.0)) == ""
  {
  }

  /** A one-touch `touchend` after moving 20 pixels left calls `swipeleft`. */
  lemma SwipeLeftOnEnd(t: Touch, hypot: (real, real) -> real)
    requires t == Touch(30.0, 50.0, 50.0, 50.0)
    ensures Handle(GestureMap, Tracker(None, 0.0), TouchEnd, Touches(1, map[0 := t]), hypot).1 == ["swipeleft"]
  {
    HandleGestureMap(Tracker(None, 0.0), TouchEnd, Touches(1, map[0 := t]), hypot);
    assert SwipeType(t) == "left";
    assert "swipe" + "left" == "swipeleft";
  }

  /** The same touch stored at index 1 is not a contiguous touch list: nothing is called. */
  lemma SwipeAtIndexOne(t: Touch, hypot: (real, real) -> real)
    requires t == Touch(30.0, 50.0, 50.0, 50.0)
    ensures Handle(GestureMap, Tracker(None, 0.0), TouchEnd, Touches(1, map[1 := t]), hypot).1 == []
  {
    ContiguousSmall(Touches(1, map[1 := t]));
    HandleGestureMap(Tracker(None, 0.0), TouchEnd, Touches(1, map[1 := t]), hypot);
  }

  /** A swipe is only recognised on `touchend`, never on `touchmove`. */
  lemma SwipeNotOnMove(t: Touch, hypot: (real, real) -> real)
    requires t == Touch(30.0, 50.0, 50.0, 50.0)
    ensures Handle(GestureMap, Tracker(None, 0.0), TouchMove, Touches(1, map[0 := t]), hypot).1 == []
  {
    HandleGestureMap(Tracker(None, 0.0), TouchMove, Touches(1, map[0 := t]), hypot);
  }

  lemma SquareMonotone(a: real, b: real)
    requires 0.0 <= a <= b
    ensures a * a <= b * b
  {
    assert a * a <= a * b;
    assert a * b <= b * b;
  }

  /**
   * From a spread of √1250 (touches at (50, 50) and (25, 25)), a spread of
   * √2650 is a pinch out, √725 a pinch in, and √1201 is within the threshold.
   */
  lemma PinchExamples(p: real, out: real, inward: real, near: real)
    requires p >= 0.0 && p * p == 1250.0
    requires out >= 0.0 && out * out == 2650.0
    requires inward >= 0.0 && inward * inward == 725.0
    requires near >= 0.0 && near * near == 1201.0
    ensures PinchMove(p, out).0 == "out"
    ensures PinchMove(p, inward).0 == "in"
    ensures PinchMove(p, near).0 == ""
  {
    assert 35.0 < p < 36.0 by {
      if p <= 35.0 { SquareMonotone(p, 35.0); }
      if p >= 36.0 { SquareMonotone(36.0, p); }
    }
    assert out > 51.0 by {
      if out <= 51.0 { SquareMonotone(out, 51.0); }
    }
    assert inward < 27.0 by {
      if inward >= 27.0 { SquareMonotone(27.0, inward); }
    }
    assert 34.6 < near < 34.7 by {
      if near <= 34.6 { SquareMonotone(near, 34.6); }
      if near >= 34.7 { SquareMonotone(34.7, near); }
    }
    assert 35.3 < p < 35.4 by {
      if p <= 35.3 { SquareMonotone(p, 35.3); }
      if p >= 35.4 { SquareMonotone(35.4, p); }
    }
  }

  /**
   * The end-of-pinch case: two touches start at (50, 50) and (25, 25), move
   * to (20, 50) and (20, 25) (a pinch in), and lifting one finger at
   * (30, 50) after starting at (50, 50) recognises no swipe.
   */
  lemma PinchThenLift(hypot: (real, real) -> real, p: real, t0: Touch, t1: Touch, m0: Touch, m1: Touch, up: Touch)
    requires p >= 0.0 && p * p == 1250.0 && hypot(25.0, 25.0) == p && hypot(0.0, 25.0) == 25.0
    requires t0.x == 50.0 && t0.y == 50.0 && t1.x == 25.0 && t1.y == 25.0
    requires m0.x == 20.0 && m0.y == 50.0 && m1.x == 20.0 && m1.y == 25.0
    requires up == Touch(30.0, 50.0, 50.0, 50.0)
    ensures var s1 := Handle(GestureMap, Tracker(None, 0.0), TouchStart, Touches(2, map[0 := t0, 1 := t1]), hypot);
            var s2 := Handle(GestureMap, s1.0, TouchMove, Touches(2, map[0 := m0, 1 := m1]), hypot);
            var s3 := Handle(GestureMap, s2.0, TouchEnd, Touches(1, map[0 := up]), hypot);
            s1.1 == [] && s2.1 == ["pinchin"] && s3.1 == []
  {
    var tr0 := Tracker(None, 0.0);
    var ts1, ts2, ts3 := Touches(2, map[0 := t0, 1 := t1]), Touches(2, map[0 := m0, 1 := m1]), Touches(1, map[0 := up]);
    ContiguousSmall(ts1);
    ContiguousSmall(ts2);
    HandleGestureMap(tr0, TouchStart, ts1, hypot);
    PinchStartRecords(tr0, ts1, hypot);
    var tr1 := Tracker(None, p);
    assert Spread(ts1, hypot) == p;
    assert Consider(Swipe, tr0, TouchStart, ts1, hypot) == (tr0, "");
    assert Consider(Pinch, tr0, TouchStart, ts1, hypot) == (tr1, "");
    assert Found("") + Found("") == [];
    assert Handle(GestureMap, tr0, TouchStart, ts1, hypot) == (tr1, []);
    HandleGestureMap(tr1, TouchMove, ts2, hypot);
    assert 35.0 < p by {
      if p <= 35.0 { SquareMonotone(p, 35.0); }
    }
    assert Spread(ts2, hypot) == 25.0;
    assert PinchMove(p, 25.0) == ("in", 25.0);
    assert "pinch" + "in" == "pinchin";
    assert Consider(Swipe, tr1, TouchMove, ts2, hypot) == (tr1, "");
    assert Consider(Pinch, tr1, TouchMove, ts2, hypot) == (Tracker(Some(Pinch), 25.0), "pinchin");
    assert Found("") + Found("pinchin") == ["pinchin"];
    assert Handle(GestureMap, tr1, TouchMove, ts2, hypot) == (Tracker(Some(Pinch), 25.0), ["pinchin"]);
    NoSwipeDuringPinch(TouchEnd, ts3, 25.0, hypot);
  }

  /** Initialising twice registers each listener once. */
  method InitTwiceExample<C>() returns (events: Emitter<Listener, int>, g: GestureState<C>)
    ensures |Registered(events.callbacks, "touchChanged")| == 1
    ensures |Registered(events.callbacks, "touchEnd")| == 1
  {
    events := new Emitter<Listener, int>();
    g := new GestureState<C>();
    g.Init(events);
    g.Init(events);
  }
}
