/**
 * The tile engine: a Tiled map of `width` × `height` tiles of `tilewidth` ×
 * `tileheight` pixels, with named layers of tile ids (gids), a camera
 * (`sx`, `sy`) clamped to the map, tile queries and edits, and the
 * arithmetic that picks a tile's source rectangle in its tileset and the
 * canvas transformations of Tiled's flip flags.
 *
 * A layer's `data` is a JavaScript array that writes may extend past its
 * end; it is a map from index to gid here, an index with no entry reading
 * as `undefined`.
 */
module TileEngines {
  import opened Wrappers
  import opened Numbers
  import opened Vectors
  import Helpers
  import Geometry

  // ---------------------------------------------------------------------------
  // Positions and indices
  // ---------------------------------------------------------------------------

  /** A position given in pixels or in tiles. */
  datatype Position = XY(x: real, y: real) | RowCol(row: int, col: int)

  /** `(v / size) | 0`; a zero tile size divides to `Infinity` or `NaN`, which `| 0` turns into 0. */
  function CellOf(v: real, size: nat): (r: int)
    ensures size > 0 && v >= 0.0 ==> r >= 0 && (r as real) * (size as real) <= v < (r as real + 1.0) * (size as real)
    ensures size == 0 ==> r == 0
  {
    if size == 0 then 0
    else
      CellBounds(v, size);
      Trunc(v / size as real)
  }

  lemma CellBounds(v: real, size: nat)
    requires size > 0
    ensures var t := Trunc(v / size as real);
            v >= 0.0 ==> (t as real) * (size as real) <= v < (t as real + 1.0) * (size as real)
  {
    var s := size as real;
    var q := v / s;
    var t := Trunc(q);
    if v >= 0.0 {
      assert q >= 0.0;
      assert t as real <= q < t as real + 1.0;
      var lo, hi := t as real, t as real + 1.0;
      ScaleBetween(lo, q, hi, s);
      assert q * s == v;
      assert v < hi * s;
      assert hi * s == (t as real + 1.0) * (size as real);
      assert v < (t as real + 1.0) * (size as real);
      assert (t as real) * (size as real) <= v;
    }
  }

  lemma ScaleBetween(lo: real, q: real, hi: real, s: real)
    requires lo <= q < hi && s > 0.0
    ensures lo * s <= q * s < hi * s
  {
  }

  /**
   * The index of a position in a layer's data, row by row. A pixel position
   * outside the map gives -1; a row/column position is not checked.
   */
  function Index(p: Position, width: nat, tw: nat, th: nat, mapwidth: real, mapheight: real): (r: int)
    ensures p.RowCol? ==> r == p.row * width + p.col
    ensures p.XY? && (p.x < 0.0 || p.y < 0.0 || p.x >= mapwidth || p.y >= mapheight) ==> r == -1
    ensures p.XY? && 0.0 <= p.x < mapwidth && 0.0 <= p.y < mapheight ==>
              r == CellOf(p.y, th) * width + CellOf(p.x, tw)
  {
    match p
    case RowCol(row, col) => row * width + col
    case XY(x, y) =>
      if x < 0.0 || y < 0.0 || x >= mapwidth || y >= mapheight then -1
      else CellOf(y, th) * width + CellOf(x, tw)
  }

  /**
   * A pixel position has an index exactly when it is on the map, and -1
   * otherwise. On a map no wider than its rows of tiles, the column and the
   * row the index encodes are the tile whose span holds the point.
   */
  lemma IndexLocatesPixel(x: real, y: real, width: nat, tw: nat, th: nat, mapwidth: real, mapheight: real)
    requires tw > 0 && th > 0
    ensures var r := Index(XY(x, y), width, tw, th, mapwidth, mapheight);
            (r >= 0 <==> 0.0 <= x < mapwidth && 0.0 <= y < mapheight) && (r < 0 ==> r == -1)
    ensures var r := Index(XY(x, y), width, tw, th, mapwidth, mapheight);
            0.0 <= x < mapwidth && 0.0 <= y < mapheight && mapwidth <= (width * tw) as real ==>
              width > 0 &&
              ((r % width) as real) * (tw as real) <= x < ((r % width) as real + 1.0) * (tw as real) &&
              ((r / width) as real) * (th as real) <= y < ((r / width) as real + 1.0) * (th as real)
  {
    if 0.0 <= x < mapwidth && 0.0 <= y < mapheight {
      var col, row := CellOf(x, tw), CellOf(y, th);
      assert Index(XY(x, y), width, tw, th, mapwidth, mapheight) == row * width + col;
      if mapwidth <= (width * tw) as real {
        CellInsideRow(col, width, tw, x);
        DivUnique(row * width + col, width, row, col);
      }
    }
  }

  /** A cell whose span starts left of the row's right edge is a column of the row. */
  lemma CellInsideRow(col: int, width: nat, tw: nat, x: real)
    requires tw > 0 && (col as real) * (tw as real) <= x < (width * tw) as real
    ensures col < width
  {
    var d := (col - width) as real;
    assert d * (tw as real) == (col as real) * (tw as real) - (width as real) * (tw as real);
    assert (width * tw) as real == (width as real) * (tw as real);
    NegativeFactor(d, tw as real);
  }

  lemma NegativeFactor(a: real, b: real)
    requires b > 0.0 && a * b < 0.0
    ensures a < 0.0
  {
  }

  // ---------------------------------------------------------------------------
  // Layers
  // ---------------------------------------------------------------------------

  datatype Layer = Layer(data: map<nat, nat>, dirty: bool)

  /** An array literal as layer data. */
  function Tiles(s: seq<nat>): (r: map<nat, nat>)
    ensures forall i: nat :: i in r <==> i < |s|
    ensures forall i: nat :: i < |s| ==> r[i] == s[i]
  {
    map i: nat | i < |s| :: s[i]
  }

  /** `tileAtLayer`: -1 for an unknown layer, `undefined` (None) for a negative index or a hole. */
  function LookUp(layers: map<string, Layer>, name: string, index: int): (r: Option<int>)
    ensures name !in layers ==> r == Some(-1)
    ensures name in layers ==>
              (r.Some? <==> index >= 0 && index in layers[name].data) &&
              (r.Some? ==> r.value == layers[name].data[index])
  {
    if name !in layers then Some(-1)
    else if index >= 0 && index in layers[name].data then Some(layers[name].data[index] as int)
    else None
  }

  /** `setTileAtLayer` on the layers: writes a non-negative index of a known layer and marks it dirty. */
  function Write(layers: map<string, Layer>, name: string, index: int, tile: nat): map<string, Layer>
  {
    if name in layers && index >= 0 then layers[name := Layer(layers[name].data[index := tile], true)]
    else layers
  }

  /** A write is read back; every other index and every other layer is left as it was. */
  lemma ReadAfterWrite(layers: map<string, Layer>, name: string, index: int, tile: nat, other: string, j: int)
    requires name in layers && index >= 0
    ensures LookUp(Write(layers, name, index, tile), name, index) == Some(tile as int)
    ensures j != index ==> LookUp(Write(layers, name, index, tile), name, j) == LookUp(layers, name, j)
    ensures other != name ==> LookUp(Write(layers, name, index, tile), other, j) == LookUp(layers, other, j)
    ensures Write(layers, name, index, tile)[name].dirty
  {
  }

  /** A write to an unknown layer or a negative index changes nothing. */
  lemma WriteIgnored(layers: map<string, Layer>, name: string, index: int, tile: nat)
    requires name !in layers || index < 0
    ensures Write(layers, name, index, tile) == layers
  {
  }

  /**
   * A layer made from an array literal reads the literal back: element i at
   * an index inside it, `undefined` at any other index; a layer that is not
   * there reads -1.
   */
  lemma LookUpTiles(layers: map<string, Layer>, name: string, s: seq<nat>, other: string, i: int)
    requires name in layers && layers[name].data == Tiles(s) && other !in layers
    ensures 0 <= i < |s| ==> LookUp(layers, name, i) == Some(s[i] as int)
    ensures i < 0 || i >= |s| ==> LookUp(layers, name, i) == None
    ensures LookUp(layers, other, i) == Some(-1)
  {
  }

  /** A pixel position reads the same tile as the row and column that contain it. */
  lemma PixelAndCellAgree(x: real, y: real, width: nat, tw: nat, th: nat, mapwidth: real, mapheight: real)
    requires 0.0 <= x < mapwidth && 0.0 <= y < mapheight
    ensures Index(XY(x, y), width, tw, th, mapwidth, mapheight) ==
            Index(RowCol(CellOf(y, th), CellOf(x, tw)), width, tw, th, mapwidth, mapheight)
  {
  }

  /** Whether the layer holds a non-zero tile at this row and column (a missing one is `undefined`). */
  predicate SolidAt(layer: Layer, width: nat, row: int, col: int)
  {
    var i := col + row * width;
    i >= 0 && i in layer.data && layer.data[i] != 0
  }

  /** Some tile in rows `r0..r1` and columns `c0..c1`, both inclusive, is non-zero. */
  predicate AnySolid(layer: Layer, width: nat, r0: int, r1: int, c0: int, c1: int)
  {
    exists r, c :: r0 <= r <= r1 && c0 <= c <= c1 && SolidAt(layer, width, r, c)
  }

  // ---------------------------------------------------------------------------
  // The camera
  // ---------------------------------------------------------------------------

  /** The camera setters clamp to `[0, max(0, map size - canvas size)]`. */
  function CameraClamp(v: real, mapSize: real, canvasSize: real): (r: real)
    ensures 0.0 <= r <= Max(0.0, mapSize - canvasSize)
    ensures 0.0 <= v <= mapSize - canvasSize ==> r == v
    ensures v < 0.0 ==> r == 0.0
    ensures v > Max(0.0, mapSize - canvasSize) ==> r == Max(0.0, mapSize - canvasSize)
  {
    Helpers.Clamp(0.0, Max(0.0, mapSize - canvasSize), v)
  }

  /** A map no larger than the canvas cannot scroll. */
  lemma SmallMapDoesNotScroll(v: real, mapSize: real, canvasSize: real)
    requires mapSize <= canvasSize
    ensures CameraClamp(v, mapSize, canvasSize) == 0.0
  {
  }

  /** A 700-pixel map on a 600-pixel canvas scrolls by at most 100 pixels; a 500-pixel one not at all. */
  lemma CameraExamples()
    ensures CameraClamp(10.0, 700.0, 600.0) == 10.0
    ensures CameraClamp(-10.0, 700.0, 600.0) == 0.0
    ensures CameraClamp(1000.0, 700.0, 600.0) == 100.0
    ensures CameraClamp(10.0, 500.0, 600.0) == 0.0
  {
  }

  /** Clamping twice is clamping once. */
  lemma CameraClampIdempotent(v: real, mapSize: real, canvasSize: real)
    ensures CameraClamp(CameraClamp(v, mapSize, canvasSize), mapSize, canvasSize) == CameraClamp(v, mapSize, canvasSize)
  {
  }

  // ---------------------------------------------------------------------------
  // Tilesets and source rectangles
  // ---------------------------------------------------------------------------

  /** `columns` 0 stands for an absent `columns`, which JavaScript reads as falsy either way. */
  datatype Tileset = Tileset(firstgid: nat, imageWidth: nat, columns: nat, margin: nat, spacing: nat)

  /** `tile / firstgid >= 1`: a zero `firstgid` divides to `Infinity`, or to `NaN` for gid 0. */
  predicate Reaches(ts: Tileset, gid: nat)
  {
    if ts.firstgid == 0 then gid > 0 else gid >= ts.firstgid
  }

  /**
   * The tileset of a gid: searching from the last tileset backwards, the
   * first that the gid reaches, or the first tileset when none does.
   */
  function TilesetFor(tilesets: seq<Tileset>, gid: nat): (i: nat)
    requires |tilesets| > 0
    ensures i < |tilesets|
    ensures i > 0 ==> Reaches(tilesets[i], gid)
    ensures forall j :: i < j < |tilesets| ==> !Reaches(tilesets[j], gid)
    decreases |tilesets|
  {
    var last := |tilesets| - 1;
    if last == 0 || Reaches(tilesets[last], gid) then last else TilesetFor(tilesets[..last], gid)
  }

  /** `columns`, or as many tiles as fit across the image: `(imageWidth / (tilewidth + spacing)) | 0`. */
  function ColumnsOf(ts: Tileset, tw: nat): nat
  {
    if ts.columns != 0 then ts.columns else if tw + ts.spacing == 0 then 0 else ts.imageWidth / (tw + ts.spacing)
  }

  /**
   * The source rectangle's top left corner: the tile's offset from `firstgid`
   * laid out row by row on `ColumnsOf` columns, each tile `tilewidth +
   * spacing` from the next, starting `margin` from the image's corner.
   */
  function SourceCorner(ts: Tileset, gid: nat, tw: nat, th: nat): (r: (int, int))
  {
    var offset := gid - ts.firstgid;
    var cols := ColumnsOf(ts, tw);
    (ts.margin + IntRem(offset, cols) * (tw + ts.spacing), ts.margin + IntDiv(offset, cols) * (th + ts.spacing))
  }

  /** The corner gives back the tile's offset: its column and row count back to `gid - firstgid`. */
  lemma SourceCornerRecovers(ts: Tileset, gid: nat, tw: nat, th: nat)
    requires gid >= ts.firstgid && ColumnsOf(ts, tw) > 0 && tw + ts.spacing > 0 && th + ts.spacing > 0
    ensures var r := SourceCorner(ts, gid, tw, th);
            var col := (r.0 - ts.margin) / (tw + ts.spacing);
            var row := (r.1 - ts.margin) / (th + ts.spacing);
            0 <= col < ColumnsOf(ts, tw) && row * ColumnsOf(ts, tw) + col == gid - ts.firstgid
  {
    var offset: nat := gid - ts.firstgid;
    var cols := ColumnsOf(ts, tw);
    IntDivOfNatural(offset, cols);
    var c, q := offset % cols, offset / cols;
    MulDivCancel(c, tw + ts.spacing);
    MulDivCancel(q, th + ts.spacing);
  }

  lemma MulDivCancel(a: int, b: int)
    requires b > 0
    ensures (a * b) / b == a
  {
    DivUnique(a * b, b, a, 0);
  }

  // ---------------------------------------------------------------------------
  // Tiled flip flags
  // ---------------------------------------------------------------------------

  const FlippedHorizontally: nat := 0x8000_0000
  const FlippedVertically: nat := 0x4000_0000
  const FlippedDiagonally: nat := 0x2000_0000

  datatype Flips = Flips(horizontal: bool, vertical: bool, diagonal: bool)

  /** The three high bits of the 32-bit value (`&` works on `ToInt32`) and the gid they leave. */
  function Decode(tile: nat): (r: (Flips, nat))
    ensures r.1 < FlippedDiagonally
  {
    var bits := tile % 0x1_0000_0000;
    (Flips(bits / FlippedHorizontally == 1, (bits / FlippedVertically) % 2 == 1, (bits / FlippedDiagonally) % 2 == 1),
     bits % FlippedDiagonally)
  }

  /** How Tiled stores a flipped tile. */
  function Encode(f: Flips, gid: nat): nat
  {
    gid + (if f.horizontal then FlippedHorizontally else 0) + (if f.vertical then FlippedVertically else 0)
        + (if f.diagonal then FlippedDiagonally else 0)
  }

  /** Decoding a Tiled tile gives back its flags and its gid. */
  lemma DecodeEncode(f: Flips, gid: nat)
    requires gid < FlippedDiagonally
    ensures Decode(Encode(f, gid)) == (f, gid)
  {
    var d: nat := (if f.diagonal then 1 else 0);
    var v: nat := (if f.vertical then 1 else 0);
    var h: nat := (if f.horizontal then 1 else 0);
    var low: nat := d * FlippedDiagonally + gid;
    var mid: nat := v * 2 + d;
    var t := Encode(f, gid);
    assert t == h * FlippedHorizontally + v * FlippedVertically + low;
    assert t < 0x1_0000_0000;
    DivUnique(t, FlippedHorizontally, h, v * FlippedVertically + low);
    DivUnique(t, FlippedVertically, h * 2 + v, low);
    DivUnique(h * 2 + v, 2, h, v);
    DivUnique(t, FlippedDiagonally, h * 4 + mid, gid);
    DivUnique(h * 4 + mid, 2, h * 2 + v, d);
    DivUnique(t, 0x1_0000_0000, 0, t);
    assert t % 0x1_0000_0000 == t;
    assert (t / FlippedHorizontally == 1) == f.horizontal;
    assert ((t / FlippedVertically) % 2 == 1) == f.vertical;
    assert ((t / FlippedDiagonally) % 2 == 1) == f.diagonal;
  }

  /** Every stored value is the encoding of what it decodes to, up to the 32 bits `&` keeps. */
  lemma EncodeDecode(tile: nat)
    ensures Encode(Decode(tile).0, Decode(tile).1) == tile % 0x1_0000_0000
  {
    var bits := tile % 0x1_0000_0000;
    var h, rest := bits / FlippedHorizontally, bits % FlippedHorizontally;
    var v, low := rest / FlippedVertically, rest % FlippedVertically;
    var d, gid := low / FlippedDiagonally, low % FlippedDiagonally;
    assert bits == h * FlippedHorizontally + v * FlippedVertically + d * FlippedDiagonally + gid;
    DivUnique(bits, FlippedVertically, h * 2 + v, low);
    DivUnique(h * 2 + v, 2, h, v);
    DivUnique(bits, FlippedDiagonally, (h * 2 + v) * 2 + d, gid);
    DivUnique((h * 2 + v) * 2 + d, 2, h * 2 + v, d);
  }

  /** A canvas transformation; `Rotate(1)` turns a quarter clockwise on screen, `Rotate(-1)` anticlockwise. */
  datatype CanvasOp = Translate(dx: real, dy: real) | Rotate(quarters: int) | Scale(fx: real, fy: real)

  function ApplyOp(op: CanvasOp, p: Vec2): Vec2
  {
    match op
    case Translate(dx, dy) => Vec2(p.x + dx, p.y + dy)
    case Rotate(q) => if q == 1 then Vec2(-p.y, p.x) else if q == -1 then Vec2(p.y, -p.x) else p
    case Scale(fx, fy) => Vec2(fx * p.x, fy * p.y)
  }

  /** Transformations set in call order act on a drawn point last one first. */
  function ApplyAll(ops: seq<CanvasOp>, p: Vec2): Vec2
    decreases |ops|
  {
    if ops == [] then p else ApplyOp(ops[0], ApplyAll(ops[1..], p))
  }

  /**
   * The transformations set before drawing a flipped tile whose cell starts
   * at (x, y), and where the tile is then drawn. A diagonal flip turns about
   * the cell's centre (clockwise when flipped horizontally) and mirrors when
   * both or neither of the other flips are set; the other flips mirror
   * about the cell's far edge.
   */
  function FlipOps(f: Flips, x: real, y: real, tw: real, th: real): (r: (seq<CanvasOp>, Vec2))
  {
    if f.diagonal then
      ([Translate(x + tw / 2.0, y + th / 2.0), Rotate(if f.horizontal then 1 else -1)] +
       (if f.horizontal == f.vertical then [Scale(-1.0, 1.0)] else []),
       Vec2(-tw / 2.0, -th / 2.0))
    else if f.horizontal && f.vertical then ([Translate(x + tw, y + th), Scale(-1.0, -1.0)], Vec2(0.0, 0.0))
    else if f.horizontal then ([Translate(x + tw, y), Scale(-1.0, 1.0)], Vec2(0.0, 0.0))
    else if f.vertical then ([Translate(x, y + th), Scale(1.0, -1.0)], Vec2(0.0, 0.0))
    else ([], Vec2(x, y))
  }

  /**
   * Tiled's meaning of the flags for the pixel (u, v) of the tile: the
   * diagonal flip swaps the axes first, then the horizontal and the vertical
   * flips mirror.
   */
  function TiledPixel(f: Flips, tw: real, th: real, u: real, v: real): Vec2
  {
    var a := if f.diagonal then v else u;
    var b := if f.diagonal then u else v;
    Vec2(if f.horizontal then tw - a else a, if f.vertical then th - b else b)
  }

  /** The canvas transformations draw every pixel of a (square, when turned) tile where Tiled puts it. */
  lemma FlipOpsRealiseTiled(f: Flips, x: real, y: real, tw: real, th: real, u: real, v: real)
    requires f.diagonal ==> tw == th
    ensures var r := FlipOps(f, x, y, tw, th);
            ApplyAll(r.0, Vec2(r.1.x + u, r.1.y + v)) ==
            Vec2(x + TiledPixel(f, tw, th, u, v).x, y + TiledPixel(f, tw, th, u, v).y)
  {
    if f.diagonal {
      DiagonalRealisesTiled(f, x, y, tw, u, v);
    } else {
      AxisFlipsRealiseTiled(f, x, y, tw, th, u, v);
    }
  }

  lemma DiagonalRealisesTiled(f: Flips, x: real, y: real, s: real, u: real, v: real)
    requires f.diagonal
    ensures var r := FlipOps(f, x, y, s, s);
            ApplyAll(r.0, Vec2(r.1.x + u, r.1.y + v)) ==
            Vec2(x + TiledPixel(f, s, s, u, v).x, y + TiledPixel(f, s, s, u, v).y)
  {
    var q := Vec2(-s / 2.0 + u, -s / 2.0 + v);
    var t, turn := Translate(x + s / 2.0, y + s / 2.0), Rotate(if f.horizontal then 1 else -1);
    if f.horizontal == f.vertical {
      assert FlipOps(f, x, y, s, s).0 == [t, turn, Scale(-1.0, 1.0)];
      ApplyThree(t, turn, Scale(-1.0, 1.0), q);
    } else {
      assert FlipOps(f, x, y, s, s).0 == [t, turn];
      ApplyTwo(t, turn, q);
    }
  }

  lemma AxisFlipsRealiseTiled(f: Flips, x: real, y: real, tw: real, th: real, u: real, v: real)
    requires !f.diagonal
    ensures var r := FlipOps(f, x, y, tw, th);
            ApplyAll(r.0, Vec2(r.1.x + u, r.1.y + v)) ==
            Vec2(x + TiledPixel(f, tw, th, u, v).x, y + TiledPixel(f, tw, th, u, v).y)
  {
    var r := FlipOps(f, x, y, tw, th);
    var q := Vec2(r.1.x + u, r.1.y + v);
    if f.horizontal || f.vertical {
      ApplyTwo(r.0[0], r.0[1], q);
      assert r.0 == [r.0[0], r.0[1]];
    }
  }

  lemma ApplyTwo(a: CanvasOp, b: CanvasOp, q: Vec2)
    ensures ApplyAll([a, b], q) == ApplyOp(a, ApplyOp(b, q))
  {
    assert [a, b][1..] == [b];
    assert [b][1..] == [];
    assert ApplyAll([b], q) == ApplyOp(b, ApplyAll([], q));
  }

  lemma ApplyThree(a: CanvasOp, b: CanvasOp, c: CanvasOp, q: Vec2)
    ensures ApplyAll([a, b, c], q) == ApplyOp(a, ApplyOp(b, ApplyOp(c, q)))
  {
    assert [a, b, c][1..] == [b, c];
    ApplyTwo(b, c, q);
  }

  /** The sequences a horizontal, vertical, combined and both diagonal flips of a 10-pixel tile at (0, 0) set. */
  lemma FlipOpsExamples()
    ensures FlipOps(Flips(true, false, false), 0.0, 0.0, 10.0, 10.0) == ([Translate(10.0, 0.0), Scale(-1.0, 1.0)], Vec2(0.0, 0.0))
    ensures FlipOps(Flips(false, true, false), 0.0, 0.0, 10.0, 10.0) == ([Translate(0.0, 10.0), Scale(1.0, -1.0)], Vec2(0.0, 0.0))
    ensures FlipOps(Flips(true, true, false), 0.0, 0.0, 10.0, 10.0) == ([Translate(10.0, 10.0), Scale(-1.0, -1.0)], Vec2(0.0, 0.0))
    ensures FlipOps(Flips(true, true, true), 0.0, 0.0, 10.0, 10.0) ==
            ([Translate(5.0, 5.0), Rotate(1), Scale(-1.0, 1.0)], Vec2(-5.0, -5.0))
    ensures FlipOps(Flips(false, false, true), 0.0, 0.0, 10.0, 10.0) ==
            ([Translate(5.0, 5.0), Rotate(-1), Scale(-1.0, 1.0)], Vec2(-5.0, -5.0))
  {
    assert [Translate(5.0, 5.0), Rotate(1)] + [Scale(-1.0, 1.0)] == [Translate(5.0, 5.0), Rotate(1), Scale(-1.0, 1.0)];
    assert [Translate(5.0, 5.0), Rotate(-1)] + [Scale(-1.0, 1.0)] == [Translate(5.0, 5.0), Rotate(-1), Scale(-1.0, 1.0)];
  }

  // ---------------------------------------------------------------------------
  // Drawing one tile
  // ---------------------------------------------------------------------------

  /** One `drawImage` of a tile: tileset, source corner, transformations and destination corner. */
  datatype TileDraw = TileDraw(tileset: nat, sx: int, sy: int, ops: seq<CanvasOp>, dest: Vec2)

  /**
   * Drawing the tile at `index` of a layer: none for tile 0; otherwise the
   * flags are stripped, the tileset is searched with the gid, and the tile
   * goes to its cell, `(index % width) * tilewidth`, `((index / width) | 0) * tileheight`.
   */
  function DrawTile(tilesets: seq<Tileset>, tile: nat, index: nat, width: nat, tw: nat, th: nat): (r: Option<TileDraw>)
    requires |tilesets| > 0
    ensures r.None? <==> tile == 0
    ensures r.Some? ==> r.value.tileset == TilesetFor(tilesets, Decode(tile).1)
  {
    if tile == 0 then None
    else
      var (flips, gid) := Decode(tile);
      var i := TilesetFor(tilesets, gid);
      var corner := SourceCorner(tilesets[i], gid, tw, th);
      var x := (IntRem(index, width) * tw) as real;
      var y := (IntDiv(index, width) * th) as real;
      var (ops, dest) := FlipOps(flips, x, y, tw as real, th as real);
      Some(TileDraw(i, corner.0, corner.1, ops, dest))
  }

  /** The spacing, margin and flip cases of the tests, on a 5-column tileset with first gid 1. */
  lemma DrawTileExamples()
    ensures DrawTile([Tileset(1, 0, 5, 0, 1)], 13, 0, 5, 10, 10) == Some(TileDraw(0, 22, 22, [], Vec2(0.0, 0.0)))
    ensures DrawTile([Tileset(1, 0, 5, 10, 0)], 13, 0, 5, 10, 10) == Some(TileDraw(0, 30, 30, [], Vec2(0.0, 0.0)))
    ensures DrawTile([Tileset(1, 0, 5, 10, 1)], 13, 0, 5, 10, 10) == Some(TileDraw(0, 32, 32, [], Vec2(0.0, 0.0)))
    ensures DrawTile([Tileset(1, 0, 10, 0, 0)], 3 + FlippedHorizontally, 0, 1, 10, 10) ==
            Some(TileDraw(0, 20, 0, [Translate(10.0, 0.0), Scale(-1.0, 1.0)], Vec2(0.0, 0.0)))
  {
    IntDivOfNatural(12, 5);
    IntDivOfNatural(2, 10);
    IntDivOfNatural(0, 5);
    IntDivOfNatural(0, 1);
    DecodeEncode(Flips(false, false, false), 13);
    DecodeEncode(Flips(true, false, false), 3);
  }

  /** Gid 49 with tilesets starting at 1, 50 and 100 belongs to the first one. */
  lemma TilesetForExample()
    ensures TilesetFor([Tileset(1, 100, 0, 0, 0), Tileset(50, 100, 0, 0, 0), Tileset(100, 100, 0, 0, 0)], 49) == 0
  {
    var ts := [Tileset(1, 100, 0, 0, 0), Tileset(50, 100, 0, 0, 0), Tileset(100, 100, 0, 0, 0)];
    assert ts[..2] == [Tileset(1, 100, 0, 0, 0), Tileset(50, 100, 0, 0, 0)];
    assert ts[..2][..1] == [Tileset(1, 100, 0, 0, 0)];
  }

  /** The search loop of the layer renderer. */
  method FindTileset(tilesets: seq<Tileset>, gid: nat) returns (i: nat)
    requires |tilesets| > 0
    ensures i == TilesetFor(tilesets, gid)
  {
    i := |tilesets| - 1;
    while i > 0 && !Reaches(tilesets[i], gid)
      invariant i < |tilesets|
      invariant TilesetFor(tilesets, gid) == TilesetFor(tilesets[..i + 1], gid)
      decreases i
    {
      assert tilesets[..i + 1][..i] == tilesets[..i];
      i := i - 1;
    }
  }

  // ---------------------------------------------------------------------------
  // The engine
  // ---------------------------------------------------------------------------

  /** `getPosition`'s result. */
  datatype MapPosition = MapPosition(x: real, y: real, row: int, col: int)

  class TileEngine {
    const tilewidth: nat
    const tileheight: nat
    const width: nat
    const height: nat
    const tilesets: seq<Tileset>
    /** The canvas the engine draws to. */
    const canvasWidth: real
    const canvasHeight: real
    var mapwidth: real
    var mapheight: real
    var sx: real
    var sy: real
    var layerMap: map<string, Layer>
    /** The engine's own canvas needs redrawing. */
    var dirty: bool
    /** The layers whose offscreen canvas exists. */
    var drawn: set<string>

    /** Sets up the map; the camera goes through its setters. */
    constructor (tw: nat, th: nat, w: nat, h: nat, sets: seq<Tileset>, layers: seq<(string, seq<nat>)>,
                 cw: real, ch: real, sx0: real, sy0: real)
      ensures tilewidth == tw && tileheight == th && width == w && height == h && tilesets == sets
      ensures canvasWidth == cw && canvasHeight == ch
      ensures mapwidth == (w * tw) as real && mapheight == (h * th) as real
      ensures sx == CameraClamp(sx0, mapwidth, cw) && sy == CameraClamp(sy0, mapheight, ch)
      ensures layerMap == LayerMapOf(layers)
      ensures dirty && drawn == {}
    {
      tilewidth, tileheight, width, height, tilesets := tw, th, w, h, sets;
      canvasWidth, canvasHeight := cw, ch;
      mapwidth, mapheight := (w * tw) as real, (h * th) as real;
      sx := CameraClamp(sx0, (w * tw) as real, cw);
      sy := CameraClamp(sy0, (h * th) as real, ch);
      layerMap := LayerMapOf(layers);
      dirty, drawn := true, {};
    }

    /** The `sx` setter. */
    method SetSx(v: real)
      modifies this
      ensures sx == CameraClamp(v, mapwidth, canvasWidth)
      ensures sy == old(sy) && mapwidth == old(mapwidth) && mapheight == old(mapheight)
      ensures layerMap == old(layerMap) && dirty == old(dirty) && drawn == old(drawn)
    {
      sx := CameraClamp(v, mapwidth, canvasWidth);
    }

    /** The `sy` setter. */
    method SetSy(v: real)
      modifies this
      ensures sy == CameraClamp(v, mapheight, canvasHeight)
      ensures sx == old(sx) && mapwidth == old(mapwidth) && mapheight == old(mapheight)
      ensures layerMap == old(layerMap) && dirty == old(dirty) && drawn == old(drawn)
    {
      sy := CameraClamp(v, mapheight, canvasHeight);
    }

    function IndexOf(p: Position): int
      reads this
    {
      Index(p, width, tilewidth, tileheight, mapwidth, mapheight)
    }

    /** `tileAtLayer`. */
    function TileAtLayer(name: string, p: Position): (r: Option<int>)
      reads this
      ensures name !in layerMap ==> r == Some(-1)
      ensures name in layerMap && p.XY? && (p.x < 0.0 || p.y < 0.0 || p.x >= mapwidth || p.y >= mapheight) ==> r.None?
    {
      LookUp(layerMap, name, IndexOf(p))
    }

    /** `setTileAtLayer`: marks the layer and the engine dirty; an unknown layer is ignored. */
    method SetTileAtLayer(name: string, p: Position, tile: nat)
      modifies this
      ensures layerMap == Write(old(layerMap), name, IndexOf(p), tile)
      ensures dirty == (old(dirty) || (name in old(layerMap) && IndexOf(p) >= 0))
      ensures sx == old(sx) && sy == old(sy) && mapwidth == old(mapwidth) && mapheight == old(mapheight)
      ensures drawn == old(drawn)
    {
      var index := IndexOf(p);
      if name in layerMap && index >= 0 {
        layerMap := Write(layerMap, name, index, tile);
        dirty := true;
      }
    }

    /** `setLayer`: replaces all the layer's tiles; an unknown layer is ignored. */
    method SetLayer(name: string, tiles: seq<nat>)
      modifies this
      ensures name in old(layerMap) ==> layerMap == old(layerMap)[name := Layer(Tiles(tiles), true)] && dirty
      ensures name !in old(layerMap) ==> layerMap == old(layerMap) && dirty == old(dirty)
      ensures sx == old(sx) && sy == old(sy) && mapwidth == old(mapwidth) && mapheight == old(mapheight)
      ensures drawn == old(drawn)
    {
      if name in layerMap {
        layerMap := layerMap[name := Layer(Tiles(tiles), true)];
        dirty := true;
      }
    }

    /**
     * `layerCollidesWith`: whether a non-zero tile lies in the rows and
     * columns the object's rectangle touches, its far edges included.
     */
    method LayerCollidesWith(name: string, obj: Geometry.Entity) returns (r: bool)
      requires name in layerMap
      ensures var rect := Geometry.GetWorldRect(obj);
              r <==> AnySolid(layerMap[name], width, CellOf(rect.y, tileheight), CellOf(rect.y + rect.height, tileheight),
                              CellOf(rect.x, tilewidth), CellOf(rect.x + rect.width, tilewidth))
    {
      var rect := Geometry.GetWorldRect(obj);
      var layer := layerMap[name];
      var r0, r1 := CellOf(rect.y, tileheight), CellOf(rect.y + rect.height, tileheight);
      var c0, c1 := CellOf(rect.x, tilewidth), CellOf(rect.x + rect.width, tilewidth);
      var row := r0;
      while row <= r1
        invariant r0 <= row || (row == r0 && r1 < r0)
        invariant forall rr, c :: r0 <= rr < row && c0 <= c <= c1 ==> !SolidAt(layer, width, rr, c)
        decreases r1 - row
      {
        var col := c0;
        while col <= c1
          invariant forall rr, c :: r0 <= rr < row && c0 <= c <= c1 ==> !SolidAt(layer, width, rr, c)
          invariant forall c :: c0 <= c < col ==> !SolidAt(layer, width, row, c)
          decreases c1 - col
        {
          var i := col + row * width;
          if i >= 0 && i in layer.data && layer.data[i] != 0 {
            assert SolidAt(layer, width, row, col);
            return true;
          }
          col := col + 1;
        }
        row := row + 1;
      }
      r := false;
    }

    /**
     * `renderLayer`: redraws the layer's offscreen canvas when it does not
     * exist yet or the layer is dirty, then the layer is clean.
     */
    method RenderLayer(name: string) returns (redrawn: bool)
      modifies this
      ensures redrawn <==> name in old(layerMap) && (name !in old(drawn) || old(layerMap)[name].dirty)
      ensures name in old(layerMap) ==> layerMap == old(layerMap)[name := old(layerMap)[name].(dirty := false)] &&
                                        drawn == old(drawn) + {name}
      ensures name !in old(layerMap) ==> layerMap == old(layerMap) && drawn == old(drawn)
      ensures dirty == old(dirty) && sx == old(sx) && sy == old(sy)
    {
      redrawn := false;
      if name in layerMap {
        redrawn := name !in drawn || layerMap[name].dirty;
        layerMap := layerMap[name := layerMap[name].(dirty := false)];
        drawn := drawn + {name};
      }
    }

    /** `render`: prerenders the map only when the engine is dirty, which it then no longer is. */
    method Render() returns (prerendered: bool)
      modifies this
      ensures prerendered == old(dirty) && !dirty
      ensures layerMap == old(layerMap) && drawn == old(drawn) && sx == old(sx) && sy == old(sy)
    {
      prerendered := dirty;
      dirty := false;
    }

    /**
     * `getPosition`: the pointer position relative to the canvas's
     * top-left corner (`left`, `top` on the page), moved by the camera, and
     * the row and column under it.
     */
    function GetPosition(x: real, y: real, left: real, top: real): (r: MapPosition)
      reads this
      ensures r.x == x - left + sx && r.y == y - top + sy
      ensures tilewidth > 0 && r.x >= 0.0 ==> (r.col as real) * (tilewidth as real) <= r.x < (r.col as real + 1.0) * (tilewidth as real)
      ensures tileheight > 0 && r.y >= 0.0 ==> (r.row as real) * (tileheight as real) <= r.y < (r.row as real + 1.0) * (tileheight as real)
    {
      var px, py := x - left + sx, y - top + sy;
      MapPosition(px, py, CellOf(py, tileheight), CellOf(px, tilewidth))
    }
  }

  /** `layerMap`: each layer by name, a later layer replacing an earlier one of the same name. */
  function LayerMapOf(layers: seq<(string, seq<nat>)>): (r: map<string, Layer>)
    ensures forall i :: 0 <= i < |layers| ==> layers[i].0 in r
    ensures forall name :: name in r ==> !r[name].dirty
    ensures forall i :: 0 <= i < |layers| && (forall j :: i < j < |layers| ==> layers[j].0 != layers[i].0) ==>
              r[layers[i].0] == Layer(Tiles(layers[i].1), false)
    decreases |layers|
  {
    if layers == [] then map[]
    else
      var last := layers[|layers| - 1];
      LayerMapOf(layers[..|layers| - 1])[last.0 := Layer(Tiles(last.1), false)]
  }

  /** `getPosition` reads the tile under the pointer: its row and column index the same tile as its pixel position. */
  lemma GetPositionAddressesTile(e: TileEngine, x: real, y: real, left: real, top: real)
    requires var p := e.GetPosition(x, y, left, top); 0.0 <= p.x < e.mapwidth && 0.0 <= p.y < e.mapheight
    ensures var p := e.GetPosition(x, y, left, top);
            e.IndexOf(XY(p.x, p.y)) == e.IndexOf(RowCol(p.row, p.col))
  {
  }

  /** The tests' 50 × 50 map of 10-pixel tiles: pixel positions and the cells they fall in. */
  lemma IndexExamples()
    ensures Index(XY(0.0, 0.0), 50, 10, 10, 500.0, 500.0) == 0
    ensures Index(XY(20.0, 9.0), 50, 10, 10, 500.0, 500.0) == 2
    ensures Index(XY(30.0, 10.0), 50, 10, 10, 500.0, 500.0) == 53
    ensures Index(XY(-10.0, 0.0), 50, 10, 10, 500.0, 500.0) == -1
    ensures Index(RowCol(1, 3), 50, 10, 10, 500.0, 500.0) == 53
  {
    assert CellOf(0.0, 10) == 0;
    assert CellOf(20.0, 10) == 2 && CellOf(9.0, 10) == 0;
    assert CellOf(30.0, 10) == 3 && CellOf(10.0, 10) == 1;
  }

  /** The layer `[0, 0, 1, 0, 0]`: index 2 holds the one solid tile, index 53 is a hole, "foo" is no layer. */
  lemma TileAtExamples(layers: map<string, Layer>)
    requires layers == map["test" := Layer(Tiles([0, 0, 1, 0, 0]), false)]
    ensures LookUp(layers, "test", 0) == Some(0)
    ensures LookUp(layers, "test", 2) == Some(1)
    ensures LookUp(layers, "test", 53) == None
    ensures LookUp(layers, "test", -1) == None
    ensures LookUp(layers, "foo", 0) == Some(-1)
  {
    var data := layers["test"].data;
    assert 0 in data && data[0] == 0;
    assert 2 in data && data[2] == 1;
    assert 53 !in data;
  }

  /** Setting row 1, column 2 of a 50-wide map writes index 52, past the end of the original array. */
  lemma SetTileExample(layers: map<string, Layer>)
    requires layers == map["test" := Layer(Tiles([0, 0, 1, 0, 0]), false)]
    ensures var w := Write(layers, "test", Index(RowCol(1, 2), 50, 10, 10, 500.0, 500.0), 3);
            52 in w["test"].data && w["test"].data[52] == 3 && w["test"].dirty
    ensures Write(layers, "foo", Index(RowCol(1, 2), 50, 10, 10, 500.0, 500.0), 3) == layers
  {
  }

  /** Below the first row of a layer whose data fits in one row, nothing is solid. */
  lemma NothingSolidBelowFirstRow(layer: Layer, width: nat, r0: int, r1: int, c0: int, c1: int)
    requires width > 0 && r0 >= 1 && c0 >= 0
    requires forall i :: i in layer.data ==> i < width
    ensures !AnySolid(layer, width, r0, r1, c0, c1)
  {
    forall r, c | r0 <= r <= r1 && c0 <= c <= c1
      ensures !SolidAt(layer, width, r, c)
    {
      MulAtLeast(r, width);
    }
  }

  /** The tests' 50 × 50 map of 10-pixel tiles whose layer `test` is `[0, 0, 1, 0, 0]`. */
  method CollisionMap() returns (e: TileEngine)
    ensures fresh(e) && e.width == 50 && e.tilewidth == 10 && e.tileheight == 10
    ensures e.layerMap == map["test" := Layer(Tiles([0, 0, 1, 0, 0]), false)]
  {
    e := new TileEngine(10, 10, 50, 50, [Tileset(1, 0, 0, 0, 0)], [("test", [0, 0, 1, 0, 0])], 600.0, 600.0, 0.0, 0.0);
    var layers: seq<(string, seq<nat>)> := [("test", [0, 0, 1, 0, 0])];
    assert layers[0].0 == "test";
  }

  /** On that map (25, 5) overlaps the one solid tile, at row 0 and column 2. */
  method CollidesWithSolidTile() returns (r: bool)
    ensures r
  {
    var e := CollisionMap();
    r := e.LayerCollidesWith("test", Geometry.Plain(25.0, 5.0, 10.0, 10.0));
    assert r by {
      assert SolidAt(e.layerMap["test"], 50, 0, 2);
    }
  }

  /** On that map a plain object whose rectangle starts below the first row misses. */
  method MissBelowFirstRow(x: real, y: real, w: real, h: real) returns (r: bool)
    requires 0.0 <= x && 10.0 <= y && 0.0 <= w && 0.0 <= h
    ensures !r
  {
    var e := CollisionMap();
    var layer := e.layerMap["test"];
    assert forall i :: i in layer.data ==> i < 50;
    Geometry.PlainRect(x, y, w, h);
    CellBounds(y, 10);
    assert CellOf(y, 10) >= 1;
    NothingSolidBelowFirstRow(layer, 50, CellOf(y, 10), CellOf(y + h, 10), CellOf(x, 10), CellOf(x + w, 10));
    r := e.LayerCollidesWith("test", Geometry.Plain(x, y, w, h));
  }

  /** (30, 10) misses, but anchored at its centre it covers the rectangle at (25, 5) and hits. */
  method AnchoredCollides() returns (plain: bool, anchored: bool)
    ensures !plain && anchored
  {
    plain := MissBelowFirstRow(30.0, 10.0, 10.0, 10.0);
    var e := CollisionMap();
    var obj := Geometry.Plain(30.0, 10.0, 10.0, 10.0).(anchor := Vec2(0.5, 0.5));
    assert Geometry.GetWorldRect(obj) == Geometry.Rect(25.0, 5.0, 10.0, 10.0);
    anchored := e.LayerCollidesWith("test", obj);
    assert anchored by {
      assert CellOf(5.0, 10) == 0 && CellOf(25.0, 10) == 2;
      assert SolidAt(e.layerMap["test"], 50, 0, 2);
    }
  }

  /** The collision cases of the tests: (10, 10) misses, (25, 5) hits, an object off the map misses. */
  method CollidesExamples() returns (miss: bool, hit: bool, offMap: bool)
    ensures !miss && hit && !offMap
  {
    miss := MissBelowFirstRow(10.0, 10.0, 10.0, 10.0);
    hit := CollidesWithSolidTile();
    offMap := MissBelowFirstRow(100.0, 100.0, 100.0, 100.0);
  }

  /** The pointer at (100, 100) on a 100 × 100 map of 10-pixel tiles: moved by the canvas corner, then by the camera. */
  method GetPositionExamples()
  {
    var e := new TileEngine(10, 10, 100, 100, [Tileset(1, 0, 0, 0, 0)], [("test", [0, 0, 1, 0, 0])], 600.0, 600.0, 0.0, 0.0);
    assert e.mapwidth == 1000.0 && e.mapheight == 1000.0;
    var p := e.GetPosition(100.0, 100.0, 0.0, 0.0);
    assert p == MapPosition(100.0, 100.0, 10, 10) by {
      assert CellOf(100.0, 10) == 10;
    }
    p := e.GetPosition(100.0, 100.0, 100.0, 50.0);
    assert p == MapPosition(0.0, 50.0, 5, 0) by {
      assert CellOf(50.0, 10) == 5 && CellOf(0.0, 10) == 0;
    }
    e.SetSx(50.0);
    e.SetSy(100.0);
    p := e.GetPosition(100.0, 100.0, 0.0, 0.0);
    assert p == MapPosition(150.0, 200.0, 20, 15) by {
      assert CellOf(200.0, 10) == 20 && CellOf(150.0, 10) == 15;
    }
  }
}
