/**
 * A layout container. `prerender` places the children in a single column, a
 * single row or a grid of `numCols` columns: every column is as wide as its
 * widest child, every row as tall as its tallest, gaps (a number or a list
 * used round-robin) go between them, children are aligned inside their
 * cells, right-to-left mirrors the horizontal order, and the grid's anchor
 * shifts everything by a share of the grid's size.
 */
module Grids {
  import opened Wrappers
  import opened Numbers
  import opened Vectors

  datatype Flow = Column | Row | GridFlow

  datatype Align = Start | Center | End

  datatype Size = Size(width: real, height: real)

  /** What the layout reads of a child. */
  datatype Child = Child(width: real, height: real, world: Option<Size>, anchor: Option<Vec2>,
                         colSpan: Option<nat>, alignSelf: Option<Align>, justifySelf: Option<Align>)

  /** `child.world || child`. */
  function WidthOf(c: Child): real
  {
    if c.world.Some? then c.world.value.width else c.width
  }

  function HeightOf(c: Child): real
  {
    if c.world.Some? then c.world.value.height else c.height
  }

  function AnchorOf(c: Child): Vec2
  {
    if c.anchor.Some? then c.anchor.value else Vec2(0.0, 0.0)
  }

  /** `child.colSpan || 1`. */
  function Span(c: Child): (s: nat)
    ensures s >= 1
  {
    if c.colSpan.Some? && c.colSpan.value > 0 then c.colSpan.value else 1
  }

  /** One column for `column`, one per child for `row`, `numCols` for `grid`. */
  function NumCols(flow: Flow, count: nat, numCols: nat): nat
  {
    match flow
    case Column => 1
    case Row => count
    case GridFlow => numCols
  }

  /** The cell the next child goes into. */
  datatype Slot = Slot(row: nat, col: nat)

  /** After a child spanning `span` columns, the next cell along, or the start of the next row. */
  function Next(p: Slot, span: nat, n: nat): Slot
  {
    if p.col + span >= n then Slot(p.row + 1, 0) else Slot(p.row, p.col + span)
  }

  /** The cell of child `k`: children fill the rows left to right, top to bottom. */
  function SlotOf(cs: seq<Child>, n: nat, k: nat): (p: Slot)
    requires k <= |cs|
    ensures n >= 1 ==> p.col < n
  {
    if k == 0 then Slot(0, 0) else Next(SlotOf(cs, n, k - 1), Span(cs[k - 1]), n)
  }

  /** Columns `c` to `c + s - 1` become at least `v` wide. */
  function Widen(ws: seq<real>, c: nat, s: nat, v: real): seq<real>
  {
    seq(|ws|, j requires 0 <= j < |ws| => if c <= j < c + s then Max(ws[j], v) else ws[j])
  }

  /** A child's share of each column it spans. */
  function Share(c: Child): real
  {
    WidthOf(c) / Span(c) as real
  }

  /** The column widths after the first `k` children, each column starting at 0. */
  function ColWidths(cs: seq<Child>, n: nat, k: nat): (ws: seq<real>)
    requires k <= |cs|
    ensures |ws| == n
  {
    if k == 0 then seq(n, j => 0.0)
    else Widen(ColWidths(cs, n, k - 1), SlotOf(cs, n, k - 1).col, Span(cs[k - 1]), Share(cs[k - 1]))
  }

  /** Row `r` becomes at least `v` tall; a new row starts at `max(0, v)`. */
  function Raise(hs: seq<real>, r: nat, v: real): seq<real>
  {
    if r < |hs| then hs[r := Max(hs[r], v)] else hs + [Max(0.0, v)]
  }

  /** The number of rows holding a child once the cursor is at `p`. */
  function RowsAt(p: Slot): nat
  {
    if p.col > 0 then p.row + 1 else p.row
  }

  /** The row heights after the first `k` children: one entry per row that holds a child. */
  function RowHeights(cs: seq<Child>, n: nat, k: nat): (hs: seq<real>)
    requires k <= |cs|
    ensures |hs| == RowsAt(SlotOf(cs, n, k))
  {
    if k == 0 then []
    else Raise(RowHeights(cs, n, k - 1), SlotOf(cs, n, k - 1).row, HeightOf(cs[k - 1]))
  }

  function Sum(s: seq<real>): real
  {
    if |s| == 0 then 0.0 else Sum(s[..|s| - 1]) + s[|s| - 1]
  }

  /** The first `k` gaps, taken round-robin from `gaps`. */
  function GapsBefore(gaps: seq<real>, k: nat): real
    requires |gaps| > 0
  {
    if k == 0 then 0.0 else GapsBefore(gaps, k - 1) + gaps[(k - 1) % |gaps|]
  }

  /** The total of the sizes with a gap between each two: `_w` and `_h`. */
  function Extent(sizes: seq<real>, gaps: seq<real>): real
    requires |gaps| > 0
  {
    if |sizes| == 0 then 0.0 else Sum(sizes) + GapsBefore(gaps, |sizes| - 1)
  }

  /** Where column (or row) `c` starts: the sizes before it and the gap after each of them. */
  function CellStart(sizes: seq<real>, gaps: seq<real>, c: nat): real
    requires |gaps| > 0
  {
    var m := if c <= |sizes| then c else |sizes|;
    Sum(sizes[..m]) + GapsBefore(gaps, m)
  }

  /** The width of `s` columns from `c`, with the gaps between them. */
  function SpanWidth(sizes: seq<real>, gaps: seq<real>, c: nat, s: nat): real
    requires |gaps| > 0
  {
    var e := if c + s <= |sizes| then c + s else |sizes|;
    if e <= c then 0.0 else Sum(sizes[c..e]) + GapsBefore(gaps, e - 1) - GapsBefore(gaps, c)
  }

  /** The size of row `r`, or 0 past the last row. */
  function At(sizes: seq<real>, r: nat): real
  {
    if r < |sizes| then sizes[r] else 0.0
  }

  /** How far an item of a given alignment moves into `room` spare space. */
  function Offset(a: Align, room: real): real
  {
    match a
    case Start => 0.0
    case Center => room / 2.0
    case End => room
  }

  /** The grid's properties that the layout reads; `rtl` is `(dir || canvas.dir) == 'rtl'`. */
  datatype Settings = Settings(flow: Flow, align: seq<Align>, justify: seq<Align>, colGap: seq<real>,
                               rowGap: seq<real>, numCols: nat, rtl: bool, anchor: Vec2)

  /** `[].concat(x)` of a property that may be a list is never empty. */
  predicate WellFormed(st: Settings)
  {
    |st.align| > 0 && |st.justify| > 0 && |st.colGap| > 0 && |st.rowGap| > 0
  }

  /** `alignSelf`, or the grid's `align` for that row. */
  function AlignOf(c: Child, st: Settings, row: nat): Align
    requires WellFormed(st)
  {
    if c.alignSelf.Some? then c.alignSelf.value else st.align[row % |st.align|]
  }

  /** `justifySelf`, or the grid's `justify` for that column. */
  function JustifyOf(c: Child, st: Settings, col: nat): Align
    requires WellFormed(st)
  {
    if c.justifySelf.Some? then c.justifySelf.value else st.justify[col % |st.justify|]
  }

  /** The measured grid: `_nc`, the column widths, the row heights, `_w` and `_h`. */
  datatype Layout = Layout(cols: nat, colWidths: seq<real>, rowHeights: seq<real>, width: real, height: real)

  function Measure(cs: seq<Child>, st: Settings): (lay: Layout)
    requires WellFormed(st)
  {
    var n := NumCols(st.flow, |cs|, st.numCols);
    var ws, hs := ColWidths(cs, n, |cs|), RowHeights(cs, n, |cs|);
    Layout(n, ws, hs, Extent(ws, st.colGap), Extent(hs, st.rowGap))
  }

  /** Where child `c` sits in cell `p`, left to right, before anchors: the cell's corner and the alignment offsets. */
  function Inset(c: Child, st: Settings, lay: Layout, p: Slot): Vec2
    requires WellFormed(st)
  {
    var w, h := WidthOf(c), HeightOf(c);
    var jx := Offset(JustifyOf(c, st, p.col), SpanWidth(lay.colWidths, st.colGap, p.col, Span(c)) - w);
    var jy := Offset(AlignOf(c, st, p.row), At(lay.rowHeights, p.row) - h);
    Vec2(CellStart(lay.colWidths, st.colGap, p.col) + jx, CellStart(lay.rowHeights, st.rowGap, p.row) + jy)
  }

  /** An anchor's share `k` of a size. */
  function Part(k: real, size: real): real
  {
    k * size
  }

  /** The position given to child `c` in cell `p` of the measured grid. */
  function PlaceAt(c: Child, st: Settings, lay: Layout, p: Slot): Vec2
    requires WellFormed(st)
  {
    var w, h := WidthOf(c), HeightOf(c);
    var inset := Inset(c, st, lay, p);
    var x := if st.rtl then lay.width - inset.x - w else inset.x;
    Vec2(x + Part(AnchorOf(c).x, w) - Part(st.anchor.x, lay.width), inset.y + Part(AnchorOf(c).y, h) - Part(st.anchor.y, lay.height))
  }

  function Place(cs: seq<Child>, st: Settings, lay: Layout, i: nat): Vec2
    requires WellFormed(st) && i < |cs|
  {
    PlaceAt(cs[i], st, lay, SlotOf(cs, lay.cols, i))
  }

  /** The measuring loop of `_p()`: every child widens its columns and raises its row, in order. */
  method MeasureCells(cs: seq<Child>, n: nat) returns (ws: seq<real>, hs: seq<real>)
    ensures ws == ColWidths(cs, n, |cs|) && hs == RowHeights(cs, n, |cs|)
  {
    ws, hs := seq(n, j => 0.0), [];
    var p := Slot(0, 0);
    var k := 0;
    while k < |cs|
      invariant k <= |cs|
      invariant p == SlotOf(cs, n, k)
      invariant ws == ColWidths(cs, n, k) && hs == RowHeights(cs, n, k)
    {
      var c := cs[k];
      ws := Widen(ws, p.col, Span(c), Share(c));
      hs := Raise(hs, p.row, HeightOf(c));
      p := Next(p, Span(c), n);
      k := k + 1;
    }
  }

  /** The placing loop of `_p()`: every child is put in its cell, in order. */
  method PlaceAll(cs: seq<Child>, st: Settings, lay: Layout) returns (placed: seq<Vec2>)
    requires WellFormed(st)
    ensures |placed| == |cs|
    ensures forall i :: 0 <= i < |cs| ==> placed[i] == Place(cs, st, lay, i)
  {
    placed := [];
    var p := Slot(0, 0);
    var k := 0;
    while k < |cs|
      invariant k <= |cs| && |placed| == k
      invariant p == SlotOf(cs, lay.cols, k)
      invariant forall i :: 0 <= i < k ==> placed[i] == Place(cs, st, lay, i)
    {
      placed := placed + [PlaceAt(cs[k], st, lay, p)];
      p := Next(p, Span(cs[k]), lay.cols);
      k := k + 1;
    }
  }

  // ---------------------------------------------------------------------------
  // The cells children land in
  // ---------------------------------------------------------------------------

  /** In a column every child starts a row of its own. */
  lemma {:induction false} ColumnSlots(cs: seq<Child>, k: nat)
    requires k <= |cs|
    ensures SlotOf(cs, 1, k) == Slot(k, 0)
  {
    if k > 0 {
      ColumnSlots(cs, k - 1);
    }
  }

  /** In a row of single-column children, child `k` is in column `k` of row 0. */
  lemma {:induction false} RowSlots(cs: seq<Child>, k: nat)
    requires k < |cs|
    requires forall i :: 0 <= i < |cs| ==> Span(cs[i]) == 1
    ensures SlotOf(cs, |cs|, k) == Slot(0, k)
  {
    if k > 0 {
      RowSlots(cs, k - 1);
    }
  }

  /** Child `i` covers column `j`. */
  predicate Covers(cs: seq<Child>, n: nat, i: nat, j: nat)
    requires i < |cs|
  {
    SlotOf(cs, n, i).col <= j < SlotOf(cs, n, i).col + Span(cs[i])
  }

  /**
   * A column is as wide as the widest share of the children covering it,
   * and no narrower than 0: every share fits, and a width above 0 is some
   * child's share.
   */
  lemma {:induction false} ColWidthsAreMaxima(cs: seq<Child>, n: nat, k: nat)
    requires k <= |cs|
    ensures forall j :: 0 <= j < n ==> ColWidths(cs, n, k)[j] >= 0.0
    ensures forall i, j :: 0 <= i < k && 0 <= j < n && Covers(cs, n, i, j) ==> ColWidths(cs, n, k)[j] >= Share(cs[i])
    ensures forall j :: 0 <= j < n && ColWidths(cs, n, k)[j] != 0.0 ==>
              exists i :: 0 <= i < k && Covers(cs, n, i, j) && ColWidths(cs, n, k)[j] == Share(cs[i])
  {
    if k > 0 {
      ColWidthsAreMaxima(cs, n, k - 1);
      var prev, ws := ColWidths(cs, n, k - 1), ColWidths(cs, n, k);
      forall j | 0 <= j < n && ws[j] != 0.0
        ensures exists i :: 0 <= i < k && Covers(cs, n, i, j) && ws[j] == Share(cs[i])
      {
        if ws[j] != prev[j] {
          assert Covers(cs, n, k - 1, j) && ws[j] == Share(cs[k - 1]);
        } else {
          var i :| 0 <= i < k - 1 && Covers(cs, n, i, j) && prev[j] == Share(cs[i]);
          assert Covers(cs, n, i, j);
        }
      }
    }
  }

  /** The rows of the first `k` children are the rows on record, and the cursor is on the last of them or past it. */
  lemma {:induction false} SlotRows(cs: seq<Child>, n: nat, i: nat, k: nat)
    requires i < k <= |cs|
    ensures SlotOf(cs, n, i).row < RowsAt(SlotOf(cs, n, k))
    decreases k
  {
    if i < k - 1 {
      SlotRows(cs, n, i, k - 1);
    }
  }

  /** Raising a row keeps the others and never lowers it. */
  lemma RaiseFacts(hs: seq<real>, r: nat, v: real)
    requires r <= |hs|
    ensures var g := Raise(hs, r, v);
            |g| == (if r < |hs| then |hs| else |hs| + 1) && g[r] >= v &&
            (forall q :: 0 <= q < |hs| ==> g[q] >= hs[q]) &&
            (forall q :: 0 <= q < |hs| && q != r ==> g[q] == hs[q]) &&
            (g[r] == v || (r < |hs| && g[r] == hs[r]) || (r == |hs| && g[r] == 0.0))
  {
  }

  /** Every row on record is at least 0 tall. */
  lemma {:induction false} RowHeightsNonNegative(cs: seq<Child>, n: nat, k: nat)
    requires k <= |cs|
    ensures forall r :: 0 <= r < |RowHeights(cs, n, k)| ==> RowHeights(cs, n, k)[r] >= 0.0
  {
    if k > 0 {
      RowHeightsNonNegative(cs, n, k - 1);
    }
  }

  /** Each child's row is on record and at least as tall as the child. */
  lemma {:induction false} RowHeightFits(cs: seq<Child>, n: nat, k: nat, i: nat)
    requires i < k <= |cs|
    ensures SlotOf(cs, n, i).row < |RowHeights(cs, n, k)|
    ensures RowHeights(cs, n, k)[SlotOf(cs, n, i).row] >= HeightOf(cs[i])
    decreases k
  {
    SlotRows(cs, n, i, k);
    var prev, p := RowHeights(cs, n, k - 1), SlotOf(cs, n, k - 1);
    RaiseFacts(prev, p.row, HeightOf(cs[k - 1]));
    if i < k - 1 {
      RowHeightFits(cs, n, k - 1, i);
    }
  }

  /** A row taller than 0 is exactly as tall as one of its children. */
  lemma {:induction false} RowHeightAttained(cs: seq<Child>, n: nat, k: nat, r: nat) returns (i: nat)
    requires k <= |cs| && r < |RowHeights(cs, n, k)| && RowHeights(cs, n, k)[r] != 0.0
    ensures i < k && SlotOf(cs, n, i).row == r && RowHeights(cs, n, k)[r] == HeightOf(cs[i])
  {
    var prev, p := RowHeights(cs, n, k - 1), SlotOf(cs, n, k - 1);
    RaiseFacts(prev, p.row, HeightOf(cs[k - 1]));
    if r < |prev| && RowHeights(cs, n, k)[r] == prev[r] {
      i := RowHeightAttained(cs, n, k - 1, r);
    } else {
      i := k - 1;
    }
  }

  // ---------------------------------------------------------------------------
  // Sizes and offsets
  // ---------------------------------------------------------------------------

  lemma SumSnoc(s: seq<real>, v: real)
    ensures Sum(s + [v]) == Sum(s) + v
  {
    assert (s + [v])[..|s|] == s;
  }

  /** Each column starts where the one before it ends, one gap further on. */
  lemma CellStartStep(sizes: seq<real>, gaps: seq<real>, c: nat)
    requires |gaps| > 0 && c < |sizes|
    ensures CellStart(sizes, gaps, c + 1) == CellStart(sizes, gaps, c) + sizes[c] + gaps[c % |gaps|]
  {
    assert sizes[..c + 1] == sizes[..c] + [sizes[c]];
    SumSnoc(sizes[..c], sizes[c]);
  }

  /** The first column starts at 0. */
  lemma CellStartZero(sizes: seq<real>, gaps: seq<real>)
    requires |gaps| > 0
    ensures CellStart(sizes, gaps, 0) == 0.0
  {
    assert sizes[..0] == [];
  }

  /** With a single gap `g`, a total of `m` sizes holds `m - 1` gaps of `g`. */
  lemma {:induction false} SingleGap(g: real, k: nat)
    ensures GapsBefore([g], k) == k as real * g
  {
    if k > 0 {
      SingleGap(g, k - 1);
    }
  }

  /** A list of gaps repeats: a whole round of it adds its sum. */
  lemma {:induction false} GapsCycle(gaps: seq<real>, k: nat)
    requires |gaps| > 0
    ensures GapsBefore(gaps, k + |gaps|) == GapsBefore(gaps, k) + Sum(gaps)
  {
    if k == 0 {
      GapsRound(gaps, |gaps|);
      assert gaps[..|gaps|] == gaps;
    } else {
      GapsCycle(gaps, k - 1);
      assert (k - 1 + |gaps|) % |gaps| == (k - 1) % |gaps| by {
        ModPlus(k - 1, |gaps|);
      }
    }
  }

  /** The first `m <= |gaps|` gaps are the first `m` entries. */
  lemma {:induction false} GapsRound(gaps: seq<real>, m: nat)
    requires 0 < |gaps| && m <= |gaps|
    ensures GapsBefore(gaps, m) == Sum(gaps[..m])
  {
    if m > 0 {
      GapsRound(gaps, m - 1);
      assert gaps[..m][..m - 1] == gaps[..m - 1];
      assert (m - 1) % |gaps| == m - 1;
    }
  }

  /** Right to left mirrors a child's cell across the grid's width; anchors shift it the same way both ways. */
  lemma RtlMirrors(cs: seq<Child>, st: Settings, lay: Layout, i: nat)
    requires WellFormed(st) && i < |cs|
    ensures var c := cs[i];
            var shift := Part(AnchorOf(c).x, WidthOf(c)) - Part(st.anchor.x, lay.width);
            (Place(cs, st.(rtl := true), lay, i).x - shift) + (Place(cs, st.(rtl := false), lay, i).x - shift)
              == lay.width - WidthOf(c)
    ensures Place(cs, st.(rtl := true), lay, i).y == Place(cs, st.(rtl := false), lay, i).y
  {
    var p := SlotOf(cs, lay.cols, i);
    InsetIgnoresDirection(cs[i], st, lay, p);
  }

  /** Neither the direction nor the grid's anchor changes where a child sits in its cell. */
  lemma InsetIgnoresDirection(c: Child, st: Settings, lay: Layout, p: Slot)
    requires WellFormed(st)
    ensures Inset(c, st.(rtl := true), lay, p) == Inset(c, st, lay, p) == Inset(c, st.(rtl := false), lay, p)
    ensures Inset(c, st.(anchor := Vec2(0.0, 0.0)), lay, p) == Inset(c, st, lay, p)
  {
  }

  /** The grid's anchor moves every child back by that share of the grid's size. */
  lemma GridAnchorShifts(cs: seq<Child>, st: Settings, lay: Layout, i: nat)
    requires WellFormed(st) && i < |cs|
    ensures var p, q := Place(cs, st, lay, i), Place(cs, st.(anchor := Vec2(0.0, 0.0)), lay, i);
            p.x == q.x - Part(st.anchor.x, lay.width) && p.y == q.y - Part(st.anchor.y, lay.height)
  {
    InsetIgnoresDirection(cs[i], st, lay, SlotOf(cs, lay.cols, i));
  }

  /** A child's own anchor moves it on by that share of its own size. */
  lemma ChildAnchorShifts(cs: seq<Child>, st: Settings, lay: Layout, i: nat, a: Vec2)
    requires WellFormed(st) && i < |cs|
    ensures var c := cs[i];
            var p, q := Place(cs[i := c.(anchor := Some(a))], st, lay, i), Place(cs[i := c.(anchor := None)], st, lay, i);
            p.x == q.x + Part(a.x, WidthOf(c)) && p.y == q.y + Part(a.y, HeightOf(c))
  {
    var c := cs[i];
    SlotOfIgnoresAnchor(cs, i, a, lay.cols, i);
    var p := SlotOf(cs, lay.cols, i);
    assert cs[i := c.(anchor := Some(a))][i] == c.(anchor := Some(a));
    assert cs[i := c.(anchor := None)][i] == c.(anchor := None);
    InsetIgnoresAnchor(c, a, st, lay, p);
  }

  lemma InsetIgnoresAnchor(c: Child, a: Vec2, st: Settings, lay: Layout, p: Slot)
    requires WellFormed(st)
    ensures Inset(c.(anchor := Some(a)), st, lay, p) == Inset(c.(anchor := None), st, lay, p)
  {
  }

  /** The cells do not depend on anchors. */
  lemma {:induction false} SlotOfIgnoresAnchor(cs: seq<Child>, i: nat, a: Vec2, n: nat, k: nat)
    requires i < |cs| && k <= |cs|
    ensures SlotOf(cs[i := cs[i].(anchor := Some(a))], n, k) == SlotOf(cs, n, k) == SlotOf(cs[i := cs[i].(anchor := None)], n, k)
  {
    if k > 0 {
      SlotOfIgnoresAnchor(cs, i, a, n, k - 1);
    }
  }

  /** Alignment inside a cell: at the start, halfway, or flush with the end. */
  lemma OffsetBounds(a: Align, room: real)
    requires room >= 0.0
    ensures 0.0 <= Offset(a, room) <= room
    ensures Offset(a, room) + Offset(a, room) == (if a == Start then 0.0 else if a == End then 2.0 * room else room)
  {
  }

  // ---------------------------------------------------------------------------
  // Breakpoints
  // ---------------------------------------------------------------------------

  /**
   * `breakpoints.map(...)` over the metric results of this render: a
   * breakpoint whose metric holds fires unless it was the last to fire.
   * The result is the fired breakpoints in order and the last one fired.
   */
  function Fire(metrics: seq<bool>, current: Option<nat>, k: nat): (r: (seq<nat>, Option<nat>))
    requires k <= |metrics|
  {
    if k == 0 then ([], current)
    else
      var (fired, last) := Fire(metrics, current, k - 1);
      if metrics[k - 1] && last != Some(k - 1) then (fired + [k - 1], Some(k - 1)) else (fired, last)
  }

  function CountTrue(metrics: seq<bool>, k: nat): nat
    requires k <= |metrics|
  {
    if k == 0 then 0 else CountTrue(metrics, k - 1) + (if metrics[k - 1] then 1 else 0)
  }

  /** The breakpoint on record after a render is the last one whose metric holds, if any does. */
  lemma {:induction false} FireLast(metrics: seq<bool>, current: Option<nat>, k: nat)
    requires k <= |metrics|
    ensures CountTrue(metrics, k) == 0 ==> Fire(metrics, current, k) == ([], current)
    ensures CountTrue(metrics, k) > 0 ==>
              var last := Fire(metrics, current, k).1;
              last.Some? && last.value < k && metrics[last.value] &&
              forall j :: last.value < j < k ==> !metrics[j]
  {
    if k > 0 {
      FireLast(metrics, current, k - 1);
    }
  }

  /** From a record of `q`, the first `k` metrics fire nothing exactly when the only one holding, if any, is `q`. */
  lemma {:induction false} FireQuiet(metrics: seq<bool>, q: nat, k: nat)
    requires k <= |metrics|
    ensures Fire(metrics, Some(q), k).0 == [] <==> forall j :: 0 <= j < k && metrics[j] ==> j == q
    ensures Fire(metrics, Some(q), k).0 == [] ==> Fire(metrics, Some(q), k).1 == Some(q)
  {
    if k > 0 {
      FireQuiet(metrics, q, k - 1);
    }
  }

  /**
   * Rendering again with the same metric results fires nothing exactly when
   * at most one metric holds: with two or more, they take turns.
   */
  lemma RefireOnlyWhenSeveralHold(metrics: seq<bool>, current: Option<nat>)
    ensures var last := Fire(metrics, current, |metrics|).1;
            Fire(metrics, last, |metrics|).0 == [] <==> CountTrue(metrics, |metrics|) <= 1
  {
    var n := |metrics|;
    FireLast(metrics, current, n);
    var last := Fire(metrics, current, n).1;
    if CountTrue(metrics, n) == 0 {
      FireLast(metrics, last, n);
    } else {
      var q := last.value;
      FireQuiet(metrics, q, n);
      if CountTrue(metrics, n) <= 1 {
        OnlyOneTrue(metrics, q, n);
      } else {
        var j := OtherTrue(metrics, q, n);
        assert metrics[j] && j != q;
      }
    }
  }

  /** With one metric holding, it is the only one. */
  lemma {:induction false} OnlyOneTrue(metrics: seq<bool>, q: nat, k: nat)
    requires k <= |metrics| && q < k && metrics[q] && CountTrue(metrics, k) <= 1
    ensures forall j :: 0 <= j < k && metrics[j] ==> j == q
  {
    if q < k - 1 {
      OnlyOneTrue(metrics, q, k - 1);
      CountTrueAtLeast(metrics, q, k - 1);
    } else {
      NoneBefore(metrics, k - 1);
    }
  }

  lemma {:induction false} CountTrueAtLeast(metrics: seq<bool>, q: nat, k: nat)
    requires k <= |metrics| && q < k && metrics[q]
    ensures CountTrue(metrics, k) >= 1
  {
    if q < k - 1 {
      CountTrueAtLeast(metrics, q, k - 1);
    }
  }

  lemma NoneBefore(metrics: seq<bool>, k: nat)
    requires k < |metrics| && metrics[k] && CountTrue(metrics, k + 1) <= 1
    ensures forall j :: 0 <= j < k ==> !metrics[j]
  {
    forall j | 0 <= j < k
      ensures !metrics[j]
    {
      if metrics[j] {
        CountTrueAtLeast(metrics, j, k);
      }
    }
  }

  /** With two metrics holding, one of them is not `q`. */
  lemma {:induction false} OtherTrue(metrics: seq<bool>, q: nat, k: nat) returns (j: nat)
    requires k <= |metrics| && CountTrue(metrics, k) >= 2
    ensures j < k && metrics[j] && j != q
  {
    if metrics[k - 1] && k - 1 != q {
      j := k - 1;
    } else if metrics[k - 1] {
      assert CountTrue(metrics, k - 1) >= 1;
      j := SomeTrue(metrics, k - 1);
    } else {
      j := OtherTrue(metrics, q, k - 1);
    }
  }

  lemma {:induction false} SomeTrue(metrics: seq<bool>, k: nat) returns (j: nat)
    requires k <= |metrics| && CountTrue(metrics, k) >= 1
    ensures j < k && metrics[j]
  {
    if metrics[k - 1] {
      j := k - 1;
    } else {
      j := SomeTrue(metrics, k - 1);
    }
  }

  // ---------------------------------------------------------------------------
  // The grid object
  // ---------------------------------------------------------------------------

  /** A property assignment; each one marks the grid for a new layout. */
  datatype Property =
    | SetFlow(flow: Flow)
    | SetAlign(align: seq<Align>)
    | SetJustify(justify: seq<Align>)
    | SetColGap(colGap: seq<real>)
    | SetRowGap(rowGap: seq<real>)
    | SetNumCols(numCols: nat)
    | SetDir(dir: string)
    | SetAnchor(anchor: Vec2)
    | SetChildren(children: seq<Child>)

  /** `[].concat(...)` lists are never empty. */
  predicate Acceptable(p: Property)
  {
    match p
    case SetAlign(a) => |a| > 0
    case SetJustify(j) => |j| > 0
    case SetColGap(g) => |g| > 0
    case SetRowGap(g) => |g| > 0
    case _ => true
  }

  class Grid {
    var flow: Flow
    var align: seq<Align>
    var justify: seq<Align>
    var colGap: seq<real>
    var rowGap: seq<real>
    var numCols: nat
    var dir: string
    var anchor: Vec2
    var children: seq<Child>
    /** `_d`: the layout is out of date. */
    var dirty: bool
    var layout: Layout
    /** The `x` and `y` the layout gives each child, in child order. */
    var positions: seq<Vec2>
    /** `_b`: the breakpoint that fired last. */
    var current: Option<nat>

    predicate Valid()
      reads this
    {
      |align| > 0 && |justify| > 0 && |colGap| > 0 && |rowGap| > 0
    }

    function Config(canvasDir: string): Settings
      reads this
    {
      Settings(flow, align, justify, colGap, rowGap, numCols,
               (if dir != "" then dir else canvasDir) == "rtl", anchor)
    }

    /**
     * `Grid({children})`: a column with `start` alignment, no gaps, one
     * column, no direction and no breakpoint fired, laid out at once.
     */
    constructor (children: seq<Child>, canvasDir: string)
      ensures flow == Column && align == [Start] && justify == [Start] && colGap == [0.0] && rowGap == [0.0]
      ensures numCols == 1 && dir == "" && anchor == Vec2(0.0, 0.0) && this.children == children
      ensures current == None && Valid() && !dirty
      ensures layout == Measure(children, Config(canvasDir))
      ensures |positions| == |children|
      ensures forall i :: 0 <= i < |children| ==> positions[i] == Place(children, Config(canvasDir), layout, i)
    {
      flow, align, justify, colGap, rowGap := Column, [Start], [Start], [0.0], [0.0];
      numCols, dir, anchor, this.children := 1, "", Vec2(0.0, 0.0), children;
      dirty, current := true, None;
      layout, positions := Layout(0, [], [], 0.0, 0.0), [];
      new;
      Prerender(canvasDir);
    }

    /** `Grid({...})` with every property given: the properties are kept and the grid is laid out at once. */
    constructor WithOptions(flow: Flow, align: seq<Align>, justify: seq<Align>, colGap: seq<real>, rowGap: seq<real>,
                            numCols: nat, dir: string, anchor: Vec2, children: seq<Child>, canvasDir: string)
      requires |align| > 0 && |justify| > 0 && |colGap| > 0 && |rowGap| > 0
      ensures this.flow == flow && this.align == align && this.justify == justify
      ensures this.colGap == colGap && this.rowGap == rowGap && this.numCols == numCols
      ensures this.dir == dir && this.anchor == anchor && this.children == children
      ensures current == None && Valid() && !dirty
      ensures layout == Measure(children, Config(canvasDir))
      ensures |positions| == |children|
      ensures forall i :: 0 <= i < |children| ==> positions[i] == Place(children, Config(canvasDir), layout, i)
    {
      this.flow, this.align, this.justify, this.colGap, this.rowGap := flow, align, justify, colGap, rowGap;
      this.numCols, this.dir, this.anchor, this.children := numCols, dir, anchor, children;
      dirty, current := true, None;
      layout, positions := Layout(0, [], [], 0.0, 0.0), [];
      new;
      Prerender(canvasDir);
    }

    /** Assigning a property changes it and marks the layout out of date. */
    method Set(p: Property)
      requires Valid() && Acceptable(p)
      modifies this
      ensures Valid() && dirty
      ensures layout == old(layout) && positions == old(positions) && current == old(current)
      ensures flow == (if p.SetFlow? then p.flow else old(flow))
      ensures align == (if p.SetAlign? then p.align else old(align))
      ensures justify == (if p.SetJustify? then p.justify else old(justify))
      ensures colGap == (if p.SetColGap? then p.colGap else old(colGap))
      ensures rowGap == (if p.SetRowGap? then p.rowGap else old(rowGap))
      ensures numCols == (if p.SetNumCols? then p.numCols else old(numCols))
      ensures dir == (if p.SetDir? then p.dir else old(dir))
      ensures anchor == (if p.SetAnchor? then p.anchor else old(anchor))
      ensures children == (if p.SetChildren? then p.children else old(children))
    {
      dirty := true;
      match p
      case SetFlow(f) => flow := f;
      case SetAlign(a) => align := a;
      case SetJustify(j) => justify := j;
      case SetColGap(g) => colGap := g;
      case SetRowGap(g) => rowGap := g;
      case SetNumCols(n) => numCols := n;
      case SetDir(d) => dir := d;
      case SetAnchor(a) => anchor := a;
      case SetChildren(cs) => children := cs;
    }

    /** `_p()`: measure the rows and columns, then place every child. */
    method Prerender(canvasDir: string)
      requires Valid()
      modifies this`dirty, this`layout, this`positions
      ensures !dirty
      ensures layout == Measure(children, Config(canvasDir))
      ensures |positions| == |children|
      ensures forall i :: 0 <= i < |children| ==> positions[i] == Place(children, Config(canvasDir), layout, i)
    {
      dirty := false;
      var st := Config(canvasDir);
      var n := NumCols(flow, |children|, numCols);
      var ws, hs := MeasureCells(children, n);
      layout := Layout(n, ws, hs, Extent(ws, colGap), Extent(hs, rowGap));
      positions := PlaceAll(children, st, layout);
    }

    /**
     * `render()`: the breakpoints are checked against this render's metric
     * results, and the layout is redone when it is out of date.
     */
    method Render(canvasDir: string, metrics: seq<bool>) returns (fired: seq<nat>)
      requires Valid()
      modifies this`dirty, this`layout, this`positions, this`current
      ensures (fired, current) == Fire(metrics, old(current), |metrics|)
      ensures !dirty
      ensures old(dirty) ==> (layout == Measure(children, Config(canvasDir)) && |positions| == |children| &&
                (forall i :: 0 <= i < |children| ==> positions[i] == Place(children, Config(canvasDir), layout, i)))
      ensures !old(dirty) ==> layout == old(layout) && positions == old(positions)
    {
      fired := [];
      var k := 0;
      while k < |metrics|
        invariant k <= |metrics|
        invariant (fired, current) == Fire(metrics, old(current), k)
        invariant dirty == old(dirty) && layout == old(layout) && positions == old(positions)
      {
        if metrics[k] && current != Some(k) {
          fired, current := fired + [k], Some(k);
        }
        k := k + 1;
      }
      if dirty {
        Prerender(canvasDir);
      }
    }
  }
}
