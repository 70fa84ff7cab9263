/**
 * A sprite-sheet animation: a list of frame numbers played at `frameRate`
 * frames per second. `update` adds the elapsed time to an accumulator and
 * moves on one frame for every whole frame period it holds; `render` cuts
 * the current frame out of the sheet image.
 */
module Animations {
  import opened Wrappers
  import opened Numbers

  /** The frame size of a sprite sheet: `frame.width`, `frame.height`, `frame.margin`, `frame.spacing`. */
  datatype FrameSize = FrameSize(width: real, height: real, margin: real, spacing: real)

  /** What an animation reads from its sprite sheet: frames per row (`_f`) and the frame size. */
  datatype SheetInfo = SheetInfo(cols: int, frame: FrameSize)

  /** `update()` without an argument advances by one sixtieth of a second. */
  const DefaultDt: real := 1.0 / 60.0

  /** How many whole frame periods an accumulator worth `x` frames holds. */
  function Due(x: real): (k: nat)
    ensures x >= 1.0 ==> k >= 1 && k as real <= x < k as real + 1.0
    ensures x < 1.0 ==> k == 0
  {
    if x >= 1.0 then x.Floor else 0
  }

  /** `Due` is the whole part of a non-negative number of periods. */
  lemma DueExact(x: real, j: nat)
    requires j as real <= x < j as real + 1.0
    ensures Due(x) == j
  {
  }

  /** The playback state `update` changes: the frame index `_f`, the accumulator `_a` and `isStopped`. */
  datatype Playback = Playback(index: nat, acc: real, stopped: bool)

  const Beginning := Playback(0, 0.0, false)

  /**
   * `update(dt)` on an animation of `count` frames. A stopped animation does
   * not change. A non-looping animation on its last frame stops. Otherwise
   * the accumulator grows by `dt` and the index moves on by every whole frame
   * period it then holds, wrapping around, and the accumulator keeps the rest.
   * Without a frame rate the accumulator never holds a whole period.
   */
  function Tick(p: Playback, count: nat, frameRate: Option<real>, loop: bool, dt: real): (r: Playback)
    requires p.index < count
    ensures r.index < count
  {
    if p.stopped then p
    else if !loop && p.index == count - 1 then p.(stopped := true)
    else
      var a := p.acc + dt;
      match frameRate
      case None => p.(acc := a)
      case Some(fr) => Advance(p.index, a, count, fr)
  }

  /** The number of frame periods an accumulator of `acc` seconds is worth. */
  function Periods(acc: real, fr: real): real
  {
    acc * fr
  }

  /** The accumulator after `k` frame periods of `1 / fr` seconds were taken off. */
  function Catch(a: real, k: nat, fr: real): real
  {
    if k == 0 || fr == 0.0 then a else a - k as real / fr
  }

  /** The catch-up of `update`: one frame on, and one period off the accumulator, per period due. */
  function Advance(index: nat, a: real, count: nat, fr: real): (r: Playback)
    requires index < count
    ensures r.index < count
  {
    var k := Due(Periods(a, fr));
    Playback((index + k) % count, Catch(a, k, fr), false)
  }

  /** Taking `k` periods off takes `k` off the periods the accumulator is worth. */
  lemma CatchPeriods(a: real, k: nat, fr: real)
    requires fr != 0.0
    ensures Periods(Catch(a, k, fr), fr) == Periods(a, fr) - k as real
  {
    if k > 0 {
      assert (a - k as real / fr) * fr == a * fr - k as real;
    }
  }

  /** One more period off. */
  lemma CatchStep(a: real, k: nat, fr: real)
    requires fr != 0.0
    ensures Catch(a, k, fr) - 1.0 / fr == Catch(a, k + 1, fr)
  {
  }

  /** A positive frame rate keeps the accumulator's sign. */
  lemma PeriodsSign(a: real, fr: real)
    requires fr > 0.0 && Periods(a, fr) >= 0.0
    ensures a >= 0.0
  {
  }

  /** After a running update the accumulator holds less than one frame period. */
  lemma AdvanceLeavesPartialPeriod(index: nat, a: real, count: nat, fr: real)
    requires index < count
    ensures Periods(Advance(index, a, count, fr).acc, fr) < 1.0
  {
    var k := Due(Periods(a, fr));
    if k > 0 {
      CatchPeriods(a, k, fr);
    }
  }

  /** The index moves on by the whole frame periods due, wrapping around. */
  lemma AdvanceMovesByDue(index: nat, a: real, count: nat, fr: real)
    requires index < count
    ensures Advance(index, a, count, fr).index == (index + Due(Periods(a, fr))) % count
    ensures Due(Periods(a, fr)) == 0 ==> Advance(index, a, count, fr) == Playback(index, a, false)
  {
    if Due(Periods(a, fr)) == 0 {
      assert index % count == index;
    }
  }

  /** An accumulator that starts non-negative and grows stays non-negative. */
  lemma TickKeepsNonNegative(p: Playback, count: nat, fr: real, loop: bool, dt: real)
    requires p.index < count && fr > 0.0 && p.acc >= 0.0 && dt >= 0.0
    ensures Tick(p, count, Some(fr), loop, dt).acc >= 0.0
  {
    var a := p.acc + dt;
    var k := Due(Periods(a, fr));
    if !p.stopped && (loop || p.index != count - 1) {
      CatchPeriods(a, k, fr);
      assert Periods(a, fr) >= 0.0;
      PeriodsSign(Catch(a, k, fr), fr);
    }
  }

  /**
   * The `while (this._a >= frameRate period)` loop of `update`: from frame `index` with `a`
   * seconds accumulated, step one frame on and one period back while a whole period is due.
   */
  method CatchUp(index: nat, a: real, count: nat, fr: real) returns (i: nat, rest: real)
    requires index < count
    ensures Playback(i, rest, false) == Advance(index, a, count, fr)
  {
    ghost var x := Periods(a, fr);
    ghost var j: nat := 0;
    i, rest := index, a;
    while rest * fr >= 1.0
      invariant j <= Due(x) && i < count
      invariant Periods(rest, fr) == x - j as real
      invariant rest == Catch(a, j, fr)
      invariant i == (index + j) % count
      decreases Due(x) - j
    {
      ModSucc(index + j, count);
      CatchStep(a, j, fr);
      CatchPeriods(a, j + 1, fr);
      i := (i + 1) % count;
      rest := rest - 1.0 / fr;
      j := j + 1;
    }
    if j > 0 {
      DueExact(x, j);
    }
  }

  /** Once stopped, or on the last frame of a non-looping animation, the index never moves. */
  lemma {:induction false} NonLoopHoldsLastFrame(p: Playback, count: nat, fr: Option<real>, dt: real, n: nat)
    requires count > 0 && p.index == count - 1
    ensures var r := Run(p, count, fr, false, dt, n);
            r.index == count - 1 && (n > 0 ==> r.stopped)
    decreases n
  {
    if n > 0 {
      NonLoopHoldsLastFrame(Tick(p, count, fr, false, dt), count, fr, dt, n - 1);
    }
  }

  /** A stopped animation does not change however often it is updated. */
  lemma {:induction false} StoppedStays(p: Playback, count: nat, fr: Option<real>, loop: bool, dt: real, n: nat)
    requires p.index < count && p.stopped
    ensures Run(p, count, fr, loop, dt, n) == p
    decreases n
  {
    if n > 0 {
      StoppedStays(p, count, fr, loop, dt, n - 1);
    }
  }

  /** `n` updates with the same `dt`. */
  function Run(p: Playback, count: nat, frameRate: Option<real>, loop: bool, dt: real, n: nat): (r: Playback)
    requires p.index < count
    ensures r.index < count
    decreases n
  {
    if n == 0 then p else Run(Tick(p, count, frameRate, loop, dt), count, frameRate, loop, dt, n - 1)
  }

  /** Four frames at 30 frames per second updated at 60 updates per second. */
  lemma UpdateExamples()
    ensures Run(Beginning, 4, Some(30.0), true, DefaultDt, 1).index == 0
    ensures Run(Beginning, 4, Some(30.0), true, DefaultDt, 3).index == 1
    ensures Tick(Beginning, 4, Some(30.0), true, 1.0 / 30.0).index == 1
  {
    var fr := Some(30.0);
    var p1 := Tick(Beginning, 4, fr, true, DefaultDt);
    assert p1 == Playback(0, 1.0 / 60.0, false);
    var p2 := Tick(p1, 4, fr, true, DefaultDt);
    assert Due(2.0 / 60.0 * 30.0) == 1;
    assert p2 == Playback(1, 0.0, false);
    assert Tick(p2, 4, fr, true, DefaultDt) == Playback(1, 1.0 / 60.0, false);
    assert Due(1.0 / 30.0 * 30.0) == 1;
  }

  /** Two updates move one frame on from any frame with an empty accumulator. */
  lemma TwoUpdatesOneFrame(i: nat, loop: bool)
    requires i < 4 && (loop || i != 3)
    ensures Run(Playback(i, 0.0, false), 4, Some(30.0), loop, DefaultDt, 2) == Playback((i + 1) % 4, 0.0, false)
  {
    var p1 := Tick(Playback(i, 0.0, false), 4, Some(30.0), loop, DefaultDt);
    assert p1 == Playback(i, 1.0 / 60.0, false);
    assert Due(2.0 / 60.0 * 30.0) == 1;
    assert Tick(p1, 4, Some(30.0), loop, DefaultDt) == Playback((i + 1) % 4, 0.0, false);
    assert Run(p1, 4, Some(30.0), loop, DefaultDt, 1) == Tick(p1, 4, Some(30.0), loop, DefaultDt);
  }

  /** Runs compose: `m` updates and then `n` more are `m + n` updates. */
  lemma {:induction false} RunAdds(p: Playback, count: nat, fr: Option<real>, loop: bool, dt: real, m: nat, n: nat)
    requires p.index < count
    ensures Run(Run(p, count, fr, loop, dt, m), count, fr, loop, dt, n) == Run(p, count, fr, loop, dt, m + n)
    decreases m
  {
    if m > 0 {
      RunAdds(Tick(p, count, fr, loop, dt), count, fr, loop, dt, m - 1, n);
    }
  }

  /** Six updates from the start reach the last of four frames, with an empty accumulator. */
  lemma SixUpdates(loop: bool)
    ensures Run(Beginning, 4, Some(30.0), loop, DefaultDt, 6) == Playback(3, 0.0, false)
  {
    var p1, p2 := Playback(1, 0.0, false), Playback(2, 0.0, false);
    TwoUpdatesOneFrame(0, loop);
    RunAfter(Beginning, p1, 4, Some(30.0), loop, DefaultDt, 2, 2);
    TwoUpdatesOneFrame(1, loop);
    RunAfter(Beginning, p2, 4, Some(30.0), loop, DefaultDt, 4, 2);
    TwoUpdatesOneFrame(2, loop);
  }

  /** Once `m` updates have reached `q`, `n` more go on from `q`. */
  lemma RunAfter(p: Playback, q: Playback, count: nat, fr: Option<real>, loop: bool, dt: real, m: nat, n: nat)
    requires p.index < count && Run(p, count, fr, loop, dt, m) == q
    ensures Run(p, count, fr, loop, dt, m + n) == Run(q, count, fr, loop, dt, n)
  {
    RunAdds(p, count, fr, loop, dt, m, n);
  }

  /** Moving on one and then `m - 1` more is moving on `m`, modulo four. */
  lemma ShiftOne(i: nat, m: nat)
    requires m > 0
    ensures ((i + 1) % 4 + (m - 1)) % 4 == (i + m) % 4
  {
    ModShift(i + 1, m - 1, 4);
    assert i + 1 + (m - 1) == i + m;
  }

  /** Looping at half the update rate, every two updates move one frame on, round and round. */
  lemma {:induction false} LoopingHalfRate(i: nat, m: nat)
    requires i < 4
    ensures Run(Playback(i, 0.0, false), 4, Some(30.0), true, DefaultDt, 2 * m) == Playback((i + m) % 4, 0.0, false)
    decreases m
  {
    if m > 0 {
      var p, q := Playback(i, 0.0, false), Playback((i + 1) % 4, 0.0, false);
      TwoUpdatesOneFrame(i, true);
      RunAfter(p, q, 4, Some(30.0), true, DefaultDt, 2, 2 * (m - 1));
      assert 2 + 2 * (m - 1) == 2 * m;
      assert Run(p, 4, Some(30.0), true, DefaultDt, 2 * m) == Run(q, 4, Some(30.0), true, DefaultDt, 2 * (m - 1));
      LoopingHalfRate((i + 1) % 4, m - 1);
      ShiftOne(i, m);
    }
  }

  /** Looping, one update from an empty accumulator only accumulates half a period. */
  lemma OneUpdateHalfPeriod(j: nat)
    requires j < 4
    ensures Run(Playback(j, 0.0, false), 4, Some(30.0), true, DefaultDt, 1) == Playback(j, DefaultDt, false)
  {
    var q := Playback(j, 0.0, false);
    assert Periods(0.0 + DefaultDt, 30.0) == 0.5;
    assert Run(q, 4, Some(30.0), true, DefaultDt, 1) == Tick(q, 4, Some(30.0), true, DefaultDt);
  }

  /** Looping, an odd update in between leaves the frame on and half a period accumulated. */
  lemma LoopingOddUpdates(i: nat, m: nat)
    requires i < 4
    ensures Run(Playback(i, 0.0, false), 4, Some(30.0), true, DefaultDt, 2 * m + 1) == Playback((i + m) % 4, DefaultDt, false)
  {
    var p := Playback(i, 0.0, false);
    var q := Playback((i + m) % 4, 0.0, false);
    LoopingHalfRate(i, m);
    RunAfter(p, q, 4, Some(30.0), true, DefaultDt, 2 * m, 1);
    OneUpdateHalfPeriod((i + m) % 4);
  }

  /** Not looping, the seventh update leaves the last frame on and the eighth stops there. */
  lemma NonLoopExample()
    ensures Run(Beginning, 4, Some(30.0), false, DefaultDt, 7).index == 3
    ensures var r := Run(Beginning, 4, Some(30.0), false, DefaultDt, 8); r.index == 3 && r.stopped
  {
    SixUpdates(false);
    RunAdds(Beginning, 4, Some(30.0), false, DefaultDt, 6, 1);
    RunAdds(Beginning, 4, Some(30.0), false, DefaultDt, 6, 2);
    NonLoopHoldsLastFrame(Playback(3, 0.0, false), 4, Some(30.0), DefaultDt, 2);
  }

  /** Where a frame number sits on the sheet: `row = frame / cols | 0`, `col = frame % cols | 0`. */
  function Row(frame: int, cols: int): int
  {
    IntDiv(frame, cols)
  }

  function Col(frame: int, cols: int): int
  {
    IntRem(frame, cols)
  }

  /** Frames are numbered row by row, `cols` to a row. */
  lemma RowCol(frame: nat, cols: nat)
    requires cols > 0
    ensures 0 <= Col(frame, cols) < cols && 0 <= Row(frame, cols)
    ensures frame == Row(frame, cols) * cols + Col(frame, cols)
  {
    IntDivOfNatural(frame, cols);
  }

  /**
   * The source offset of the cell in column (or row) `c`: the margin, the
   * `c` cells before it, and spacing on both sides of each of them and before it.
   */
  function CellOffset(c: int, size: real, margin: real, spacing: real): real
  {
    margin + c as real * size + (c * 2 + 1) as real * spacing
  }

  /** Neighbouring cells are one cell and two spacings apart; the first starts after margin and spacing. */
  lemma CellOffsetSteps(c: int, size: real, margin: real, spacing: real)
    ensures CellOffset(c + 1, size, margin, spacing) - CellOffset(c, size, margin, spacing) == size + 2.0 * spacing
    ensures CellOffset(0, size, margin, spacing) == margin + spacing
  {
  }

  /** The arguments `render` passes to `drawImage` after the image. */
  datatype Draw = Draw(sx: real, sy: real, sw: real, sh: real, dx: real, dy: real, dw: real, dh: real)

  /** An animation object: its configuration (`spriteSheet`, `frames`, ...) and its playback state. */
  class Animation {
    var sheet: SheetInfo
    var frames: seq<int>
    var frameRate: Option<real>
    var loop: bool
    var name: string
    var width: real
    var height: real
    var margin: real
    var spacing: real
    var isStopped: bool
    var index: nat
    var acc: real

    predicate Valid()
      reads this
    {
      |frames| > 0 && index < |frames|
    }

    function State(): Playback
      reads this
    {
      Playback(index, acc, isStopped)
    }

    /**
     * `Animation({spriteSheet, frames, frameRate, loop = true, name})`: the
     * frame size comes from the sheet, margin and spacing default to 0
     * there, and playback starts at the first frame, running.
     */
    constructor (sheet: SheetInfo, frames: seq<int>, frameRate: Option<real>, loop: Option<bool>, name: string)
      ensures this.sheet == sheet && this.frames == frames && this.frameRate == frameRate && this.name == name
      ensures this.loop == (loop != Some(false))
      ensures width == sheet.frame.width && height == sheet.frame.height
      ensures margin == sheet.frame.margin && spacing == sheet.frame.spacing
      ensures State() == Beginning && (Valid() <==> |frames| > 0)
    {
      this.sheet, this.frames, this.frameRate, this.name := sheet, frames, frameRate, name;
      this.loop := loop != Some(false);
      width, height := sheet.frame.width, sheet.frame.height;
      margin, spacing := sheet.frame.margin, sheet.frame.spacing;
      isStopped, index, acc := false, 0, 0.0;
    }

    /** `clone()`: a new animation built from the same configuration. */
    method Clone() returns (a: Animation)
      ensures fresh(a) && (a.Valid() <==> |frames| > 0)
      ensures a.sheet == sheet && a.frames == frames && a.frameRate == frameRate && a.loop == loop && a.name == name
      ensures a.width == sheet.frame.width && a.height == sheet.frame.height
      ensures a.margin == sheet.frame.margin && a.spacing == sheet.frame.spacing
      ensures a.State() == Beginning
    {
      a := new Animation(sheet, frames, frameRate, Some(loop), name);
    }

    /** `reset()`: back to the first frame with an empty accumulator. */
    method Reset()
      modifies this`index, this`acc
      ensures index == 0 && acc == 0.0
    {
      index, acc := 0, 0.0;
    }

    /** `start()`: running again; a non-looping animation also starts over. */
    method Start()
      requires Valid()
      modifies this`index, this`acc, this`isStopped
      ensures Valid() && !isStopped
      ensures !loop ==> index == 0 && acc == 0.0
      ensures loop ==> index == old(index) && acc == old(acc)
    {
      isStopped := false;
      if !loop {
        Reset();
      }
    }

    /** `stop()`. */
    method Stop()
      modifies this`isStopped
      ensures isStopped
    {
      isStopped := true;
    }

    /** `update(dt = 1/60)`. */
    method Update(dt: Option<real>)
      requires Valid()
      modifies this`index, this`acc, this`isStopped
      ensures Valid()
      ensures State() == Tick(old(State()), |frames|, frameRate, loop, if dt.Some? then dt.value else DefaultDt)
    {
      var d := if dt.Some? then dt.value else DefaultDt;
      if isStopped {
        return;
      }
      if !loop && index == |frames| - 1 {
        Stop();
        return;
      }
      var a := acc + d;
      if frameRate.Some? {
        var i;
        i, a := CatchUp(index, a, |frames|, frameRate.value);
        index, acc := i, a;
      } else {
        acc := a;
      }
    }

    /**
     * `render({x, y, width, height})`: the current frame's cell of the sheet,
     * drawn at `(x, y)` in the animation's size unless one is given.
     */
    function Render(x: real, y: real, w: Option<real>, h: Option<real>): (r: Draw)
      reads this
      requires Valid()
      ensures var f := frames[index];
              r.sx == CellOffset(Col(f, sheet.cols), width, margin, spacing) &&
              r.sy == CellOffset(Row(f, sheet.cols), height, margin, spacing) &&
              r.sw == width && r.sh == height && r.dx == x && r.dy == y
    {
      var f := frames[index];
      Draw(margin + Col(f, sheet.cols) as real * width + (Col(f, sheet.cols) * 2 + 1) as real * spacing,
           margin + Row(f, sheet.cols) as real * height + (Row(f, sheet.cols) * 2 + 1) as real * spacing,
           width, height, x, y,
           if w.Some? then w.value else width, if h.Some? then h.value else height)
    }
  }

  /**
   * The source cells in the test sheet (frames of 5, two to a row): frame 1
   * sits at (5, 0) and frame 3 at (5, 5); spacing 1 moves it to (8, 8),
   * margin 5 to (10, 10), and both to (13, 13).
   */
  lemma RenderExamples()
    ensures Col(1, 2) == 1 && Row(1, 2) == 0 && Col(3, 2) == 1 && Row(3, 2) == 1
    ensures CellOffset(1, 5.0, 0.0, 0.0) == 5.0 && CellOffset(0, 5.0, 0.0, 0.0) == 0.0
    ensures CellOffset(1, 5.0, 0.0, 1.0) == 8.0
    ensures CellOffset(1, 5.0, 5.0, 0.0) == 10.0
    ensures CellOffset(1, 5.0, 5.0, 1.0) == 13.0
  {
    IntDivOfNatural(1, 2);
    IntDivOfNatural(3, 2);
  }
}
