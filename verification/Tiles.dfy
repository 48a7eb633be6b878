/**
  The slippy-map background: which 256-pixel Web Mercator tiles are drawn and where, and where
  an overlay puts a coordinate. Arithmetic is over the reals; the Mercator ordinate is a
  parameter.
 */
module Tiles {
  import opened Common
  import opened Framing
  import opened Bits

  const TILE: int := 256
  const FALLBACK_WIDTH: real := 2560.0
  const FALLBACK_HEIGHT: real := 1440.0
  const DEFAULT_ZOOM: real := 10.0
  const DEFAULT_LAT: real := 33.814427
  const DEFAULT_LON: real := -96.582106

  function Ceil(x: real): int { -(-x).Floor }

  /** Math.round: to the nearest integer, halves upwards. */
  function Round(x: real): int { (x + 0.5).Floor }

  /** The % operator on integers, which truncates. */
  function JsRem(a: int, n: nat): int
    requires n > 0
  {
    if a >= 0 then a % n else -((-a) % n)
  }

  function WrapColumn(tx: int, n: nat): int
    requires n > 0
  {
    JsRem(JsRem(tx, n) + n, n)
  }

  /** A parameter that is absent or zero is replaced by its default. */
  function OrDefault(x: Option<real>, d: real): real {
    if x.Some? && x.value != 0.0 then x.value else d
  }

  /** A fraction of the world's edge, in world pixels. */
  function Scale(fraction: real, worldSize: real): real { fraction * worldSize }

  /** The inputs of both functions. mercator maps a latitude to its ordinate, 0 at the top of
      the world and 1 at its bottom. */
  datatype View = View(
    width: real, height: real, zoom: Option<real>, lat: Option<real>, lon: Option<real>,
    mercator: real -> real)
  {
    function Level(): int { OrDefault(zoom, DEFAULT_ZOOM).Floor }

    /** The program's numTiles, 2 to the power of the level: a fraction below level 0. */
    function TilesPerAxis(): (n: real)
      ensures n > 0.0
    {
      if Level() >= 0 then Pow2(Level()) as real else 1.0 / Pow2(-Level()) as real
    }

    /** How many tile rows, and how many columns, there are. */
    function NumTiles(): (n: nat)
      ensures n > 0
    {
      if Level() >= 0 then Pow2(Level()) else 1
    }

    function WorldSize(): (w: real)
      ensures w > 0.0
    {
      256.0 * TilesPerAxis()
    }

    function PixelX(l: real): real { Scale((l + 180.0) / 360.0, WorldSize()) }

    function PixelY(l: real): real { Scale(mercator(l), WorldSize()) }

    function CentreX(): real { PixelX(OrDefault(lon, DEFAULT_LON)) }

    function CentreY(): real { PixelY(OrDefault(lat, DEFAULT_LAT)) }
  }

  datatype Point = Point(x: real, y: real)

  function LatLonToScreen(v: View, lat: real, lon: real): Point {
    Point(v.PixelX(lon) - v.CentreX() + v.width * 0.5, v.PixelY(lat) - v.CentreY() + v.height * 0.5)
  }

  // ---- the grid ----

  /** What the tile loops depend on: the zoom level, the tiles per axis, the world pixel at the
      viewport's centre and the size drawn for. */
  datatype Layout = Layout(z: int, n: nat, cx: real, cy: real, vw: real, vh: real)

  predicate Drawable(l: Layout) { l.n > 0 && l.vw > 0.0 && l.vh > 0.0 }

  function LayoutOf(v: View): (l: Layout)
    ensures Drawable(l)
  {
    Layout(v.Level(), v.NumTiles(), v.CentreX(), v.CentreY(),
           if v.width > 0.0 then v.width else FALLBACK_WIDTH,
           if v.height > 0.0 then v.height else FALLBACK_HEIGHT)
  }

  /** row and column name the image fetched; x and y are its corner on screen. */
  datatype Tile = Tile(z: int, column: int, row: int, x: int, y: int)

  function Half(size: real): int { Ceil(size / 256.0 / 2.0) + 1 }

  function MinTile(centre: real, size: real): int { (centre / 256.0).Floor - Half(size) }

  function MaxTile(centre: real, size: real): int { (centre / 256.0).Floor + Half(size) }

  function Place(t: int, centre: real, size: real): int {
    Round((t * TILE) as real - centre + size * 0.5)
  }

  function TileAt(l: Layout, tx: int, ty: int): Tile
    requires Drawable(l)
  {
    Tile(l.z, WrapColumn(tx, l.n), ty, Place(tx, l.cx, l.vw), Place(ty, l.cy, l.vh))
  }

  function Columns(l: Layout): (n: nat)
    requires Drawable(l)
    ensures n > 0
  {
    assert Half(l.vw) >= 1;
    MaxTile(l.cx, l.vw) + 1 - MinTile(l.cx, l.vw)
  }

  /** The first row of the window that lies in the world, and the number of such rows. */
  function TopRow(l: Layout): nat {
    var t := MinTile(l.cy, l.vh);
    if t < 0 then 0 else t
  }

  /** How many rows lie above row ty of the window. */
  function RowsBefore(l: Layout, ty: int): nat {
    var last := if ty >= l.n then l.n else ty;
    if last < TopRow(l) then 0 else last - TopRow(l)
  }

  function RowCount(l: Layout): nat { RowsBefore(l, MaxTile(l.cy, l.vh) + 1) }

  /** The first k tiles of row ty, from column left on. */
  function Row(l: Layout, left: int, ty: int, k: nat): (g: seq<Tile>)
    requires Drawable(l)
    ensures |g| == k
  {
    if k == 0 then [] else Row(l, left, ty, k - 1) + [TileAt(l, left + k - 1, ty)]
  }

  /** r rows of c tiles, from row top on. */
  function Rows(l: Layout, left: int, c: nat, top: int, r: nat): seq<Tile>
    requires Drawable(l)
  {
    if r == 0 then [] else Rows(l, left, c, top, r - 1) + Row(l, left, top + r - 1, c)
  }

  function Left(l: Layout): int { MinTile(l.cx, l.vw) }

  function Grid(l: Layout): seq<Tile>
    requires Drawable(l)
  {
    Rows(l, Left(l), Columns(l), TopRow(l), RowCount(l))
  }

  lemma RowsBeforeStep(l: Layout, ty: int)
    requires Drawable(l)
    ensures ty < 0 || ty >= l.n ==> RowsBefore(l, ty + 1) == RowsBefore(l, ty)
    ensures MinTile(l.cy, l.vh) <= ty && 0 <= ty < l.n
            ==> TopRow(l) + RowsBefore(l, ty) == ty && RowsBefore(l, ty + 1) == RowsBefore(l, ty) + 1
    ensures RowsBefore(l, MinTile(l.cy, l.vh)) == 0
    ensures MinTile(l.cy, l.vh) < MaxTile(l.cy, l.vh)
  {
    assert Half(l.vh) >= 1;
  }

  class OsmBackground {
    var view: View
    var tileList: seq<Tile>

    method RebuildTiles()
      modifies this`tileList
      ensures tileList == Grid(LayoutOf(view))
    {
      var vw := if view.width > 0.0 then view.width else FALLBACK_WIDTH;
      var vh := if view.height > 0.0 then view.height else FALLBACK_HEIGHT;
      tileList := BuildTiles(Layout(view.Level(), view.NumTiles(), view.CentreX(), view.CentreY(), vw, vh));
    }

    method BuildTiles(l: Layout) returns (tiles: seq<Tile>)
      requires Drawable(l)
      ensures tiles == Grid(l)
    {
      var minTX, maxTX := Window(l.cx, l.vw);
      var minTY, maxTY := Window(l.cy, l.vh);
      RowsBeforeStep(l, minTY);
      tiles := [];
      for ty := minTY to maxTY + 1
        invariant tiles == Rows(l, minTX, Columns(l), TopRow(l), RowsBefore(l, ty))
      {
        RowsBeforeStep(l, ty);
        if ty < 0 || ty >= l.n {
          continue;
        }
        ghost var above := tiles;
        for tx := minTX to maxTX + 1
          invariant tiles == above + Row(l, minTX, ty, tx - minTX)
        {
          var tile := MakeTile(l, tx, ty);
          tiles := tiles + [tile];
        }
      }
    }

    method Window(centre: real, size: real) returns (first: int, last: int)
      ensures first == MinTile(centre, size) && last == MaxTile(centre, size)
    {
      var half := Ceil(size / 256.0 / 2.0) + 1;
      first, last := (centre / 256.0).Floor - half, (centre / 256.0).Floor + half;
    }

    method MakeTile(l: Layout, tx: int, ty: int) returns (tile: Tile)
      requires Drawable(l)
      ensures tile == TileAt(l, tx, ty)
    {
      var wrappedTX := JsRem(JsRem(tx, l.n) + l.n, l.n);
      var twx, twy := tx * TILE, ty * TILE;
      var sx := twx as real - l.cx + l.vw * 0.5;
      var sy := twy as real - l.cy + l.vh * 0.5;
      tile := Tile(l.z, wrappedTX, ty, Round(sx), Round(sy));
    }
  }

  // ---- columns ----

  /** Wrapping lands in the world and moves by whole worlds. */
  lemma WrapIsCongruent(tx: int, n: nat)
    requires n > 0
    ensures 0 <= WrapColumn(tx, n) < n
    ensures exists k: int :: tx - WrapColumn(tx, n) == n * k
    ensures WrapColumn(tx, n) == tx % n
  {
    if tx < 0 {
      WrapNegative(tx, n);
    } else {
      ModUnique(tx % n + n, n, 1, tx % n);
    }
    assert tx - tx % n == n * (tx / n);
  }

  lemma WrapNegative(tx: int, n: nat)
    requires n > 0 && tx < 0
    ensures WrapColumn(tx, n) == tx % n
  {
    var q, m := -tx / n, -tx % n;
    assert -tx == n * q + m;
    if m == 0 {
      ModUnique(n, n, 1, 0);
      Residue(tx, n, -q, 0);
    } else {
      SmallMod(n - m, n);
      Distribute(n, -q, -1);
      Residue(tx, n, -q - 1, n - m);
    }
  }

  lemma Residue(x: int, n: nat, q: int, r: nat)
    requires n > 0 && x == n * q + r && r < n
    ensures x % n == r
  {
    var p := x / n;
    assert x == n * p + x % n;
    if p < q {
      MulStrict(n, p, q);
    } else if q < p {
      MulStrict(n, q, p);
    }
  }

  /** The % operator on numbers that need not be integers. */
  function RealRem(a: real, n: real): real
    requires n > 0.0
  {
    if a >= 0.0 then a - n * (a / n).Floor as real else -(-a - n * (-a / n).Floor as real)
  }

  /** The wrapped column as the program computes it. */
  function RealWrap(tx: int, n: real): real
    requires n > 0.0
  {
    RealRem(RealRem(tx as real, n) + n, n)
  }

  /** The quotient q and the remainder r of a, for 0 <= a. */
  lemma RealRemIs(a: real, n: real, q: int, r: real)
    requires n > 0.0 && a == n * q as real + r && 0.0 <= r < n
    ensures (a / n).Floor == q && a - n * (a / n).Floor as real == r
  {
    var f := a / n;
    assert f * n == a;
    QuotientNear(f, n, q as real, r);
  }

  lemma QuotientNear(f: real, n: real, k: real, r: real)
    requires n > 0.0 && f * n == n * k + r && 0.0 <= r < n
    ensures k <= f < k + 1.0
  {
    var d := f - k;
    assert d * n == f * n - n * k;
    Product(d, n);
    Product(1.0 - d, n);
    assert (1.0 - d) * n == n - d * n;
  }

  /** A product with a positive factor has the sign of the other. */
  lemma Product(d: real, n: real)
    requires n > 0.0
    ensures d * n < 0.0 <==> d < 0.0
    ensures d * n > 0.0 <==> d > 0.0
  {
  }

  lemma IntegerRem(a: int, n: nat)
    requires n > 0
    ensures RealRem(a as real, n as real) == JsRem(a, n) as real
  {
    var m: nat := if a >= 0 then a else -a;
    assert m == n * (m / n) + m % n;
    ProductAsReal(n, m / n);
    RealRemIs(m as real, n as real, m / n, (m % n) as real);
  }

  lemma ProductAsReal(a: int, b: int)
    ensures (a * b) as real == a as real * b as real
  {
  }

  /** A whole number leaves nothing modulo 1/c. */
  lemma FractionRem(a: int, c: nat)
    requires c > 0
    ensures RealRem(a as real, 1.0 / c as real) == 0.0
  {
    var n := 1.0 / c as real;
    var m: nat := if a >= 0 then a else -a;
    assert n * c as real == 1.0;
    ProductAsReal(m, c);
    assert n * (m * c) as real == m as real * (n * c as real);
    RealRemIs(m as real, n, m * c, 0.0);
  }

  lemma OneTileRem(c: nat)
    requires c > 0
    ensures RealRem(1.0 / c as real, 1.0 / c as real) == 0.0
  {
    RealRemIs(1.0 / c as real, 1.0 / c as real, 1, 0.0);
  }

  /** At every level, negative ones included, the integer column and row test are the
      program's, which divides by 2 to the power of the level. */
  lemma {:induction false} LevelsAgree(v: View, t: int)
    ensures RealWrap(t, v.TilesPerAxis()) == WrapColumn(t, v.NumTiles()) as real
    ensures t < 0 || t as real >= v.TilesPerAxis() <==> t < 0 || t >= v.NumTiles()
  {
    if v.Level() >= 0 {
      var n := v.NumTiles();
      IntegerRem(t, n);
      IntegerRem(JsRem(t, n) + n, n);
    } else {
      var c := Pow2(-v.Level());
      FractionRem(t, c);
      OneTileRem(c);
      WrapIsCongruent(t, 1);
      FractionBelowOne(c);
    }
  }

  lemma FractionBelowOne(c: nat)
    requires c > 0
    ensures 0.0 < 1.0 / c as real <= 1.0
  {
    assert 1.0 / c as real * c as real == 1.0;
  }

  // ---- positions ----

  /** Rounding happens once for the whole grid: tiles sit exactly 256 pixels apart. */
  lemma PlaceShift(t: int, centre: real, size: real)
    ensures Place(t, centre, size) == TILE * t + Place(0, centre, size)
  {
    var a := size * 0.5 - centre;
    assert (t * TILE) as real - centre + size * 0.5 + 0.5 == (t * TILE) as real + (a + 0.5);
    assert ((t * TILE) as real + (a + 0.5)).Floor == t * TILE + (a + 0.5).Floor;
  }

  /** The tile index, along one axis, whose span holds screen position p. */
  function IndexAt(p: real, centre: real, size: real): int {
    ((p - Place(0, centre, size) as real) / 256.0).Floor
  }

  lemma IndexAtSpans(p: real, centre: real, size: real, t: int)
    ensures Place(t, centre, size) as real <= p < (Place(t, centre, size) + TILE) as real
            <==> t == IndexAt(p, centre, size)
  {
    PlaceShift(t, centre, size);
    var q := (p - Place(0, centre, size) as real) / 256.0;
    assert t as real <= q < t as real + 1.0 <==> t == q.Floor;
  }

  /** The window reaches one whole tile beyond the viewport on both sides. */
  lemma WindowReaches(p: real, centre: real, size: real)
    requires size > 0.0
    requires -256.0 <= p < (Round(size) + TILE) as real
    ensures MinTile(centre, size) <= IndexAt(p, centre, size) <= MaxTile(centre, size)
  {
    var lo, hi := MinTile(centre, size), MaxTile(centre, size);
    PlaceShift(lo, centre, size);
    PlaceShift(hi, centre, size);
    var f := (centre / 256.0).Floor;
    var h := Half(size);
    assert f as real * 256.0 <= centre < f as real * 256.0 + 256.0;
    assert h as real * 256.0 >= size * 0.5 + 256.0;
    assert Place(lo, centre, size) <= -256;
    assert Place(hi, centre, size) >= Round(size);
    IndexAtSpans(p, centre, size, IndexAt(p, centre, size));
    PlaceShift(IndexAt(p, centre, size), centre, size);
  }

  // ---- the cover ----

  lemma {:induction false} RowAt(l: Layout, left: int, ty: int, k: nat, i: nat)
    requires Drawable(l) && i < k
    ensures Row(l, left, ty, k)[i] == TileAt(l, left + i, ty)
    decreases k
  {
    if i == k - 1 {
    } else {
      RowAt(l, left, ty, k - 1, i);
    }
  }

  lemma InLastRow(i: nat, c: nat, r: nat)
    requires c > 0 && r > 0 && c * (r - 1) <= i < c * r
    ensures i - c * (r - 1) < c && i / c == r - 1 && i % c == i - c * (r - 1)
  {
    Distribute(c, r - 1, 1);
    DivUnique(i, c, r - 1);
    ModUnique(i, c, r - 1, i - c * (r - 1));
  }

  lemma {:induction false} RowsAt(l: Layout, left: int, c: nat, top: int, r: nat)
    requires Drawable(l) && c > 0
    ensures |Rows(l, left, c, top, r)| == c * r
    ensures forall i :: 0 <= i < c * r ==> Rows(l, left, c, top, r)[i] == TileAt(l, left + i % c, top + i / c)
    decreases r
  {
    if r == 0 {
    } else {
      RowsAt(l, left, c, top, r - 1);
      Distribute(c, r - 1, 1);
      forall i | c * (r - 1) <= i < c * r
        ensures Rows(l, left, c, top, r)[i] == TileAt(l, left + i % c, top + i / c)
      {
        InLastRow(i, c, r);
        RowAt(l, left, top + r - 1, c, i - c * (r - 1));
      }
    }
  }

  /** The tiles drawn, by position in the list. */
  lemma {:induction false} GridAt(l: Layout)
    requires Drawable(l)
    ensures |Grid(l)| == Columns(l) * RowCount(l)
    ensures forall i :: 0 <= i < |Grid(l)| ==>
              Grid(l)[i] == TileAt(l, Left(l) + i % Columns(l), TopRow(l) + i / Columns(l))
  {
    RowsAt(l, Left(l), Columns(l), TopRow(l), RowCount(l));
  }

  predicate Covers(t: Tile, p: Point) {
    t.x as real <= p.x < (t.x + TILE) as real && t.y as real <= p.y < (t.y + TILE) as real
  }

  /** p is in the viewport or within 256 pixels of it. */
  predicate InReach(l: Layout, p: Point) {
    -256.0 <= p.x < (Round(l.vw) + TILE) as real && -256.0 <= p.y < (Round(l.vh) + TILE) as real
  }

  /** p is below the drawn top edge of the first row of tiles and above the bottom edge of the
      last: in the world's vertical band, or below level 0 in that of its one tile. */
  predicate InBand(l: Layout, p: Point) {
    Place(0, l.cy, l.vh) as real <= p.y < Place(l.n, l.cy, l.vh) as real
  }

  lemma InBandIndex(l: Layout, p: Point)
    ensures InBand(l, p) <==> 0 <= IndexAt(p.y, l.cy, l.vh) < l.n
  {
    var t := IndexAt(p.y, l.cy, l.vh);
    IndexAtSpans(p.y, l.cy, l.vh, t);
    PlaceShift(t, l.cy, l.vh);
    PlaceShift(l.n, l.cy, l.vh);
  }

  /** A drawn tile covers p exactly when it is the one at p's indices. */
  lemma CoversAt(l: Layout, i: nat, p: Point)
    requires Drawable(l) && i < |Grid(l)|
    ensures Covers(Grid(l)[i], p) <==>
              && Left(l) + i % Columns(l) == IndexAt(p.x, l.cx, l.vw)
              && TopRow(l) + i / Columns(l) == IndexAt(p.y, l.cy, l.vh)
  {
    GridAt(l);
    IndexAtSpans(p.x, l.cx, l.vw, Left(l) + i % Columns(l));
    IndexAtSpans(p.y, l.cy, l.vh, TopRow(l) + i / Columns(l));
  }

  /** Every point of the viewport, and of a 256-pixel margin around it, lies in exactly one
      drawn tile if it is in the world's vertical band, and in none otherwise. */
  lemma {:induction false} CoveredOnce(l: Layout, p: Point)
    requires Drawable(l) && InReach(l, p)
    ensures (exists i :: 0 <= i < |Grid(l)| && Covers(Grid(l)[i], p)) <==> InBand(l, p)
    ensures forall i, j :: 0 <= i < |Grid(l)| && 0 <= j < |Grid(l)| ==>
              Covers(Grid(l)[i], p) && Covers(Grid(l)[j], p) ==> i == j
  {
    var c := Columns(l);
    var tx, ty := IndexAt(p.x, l.cx, l.vw), IndexAt(p.y, l.cy, l.vh);
    InBandIndex(l, p);
    GridAt(l);
    forall i | 0 <= i < |Grid(l)|
      ensures Covers(Grid(l)[i], p) ==> 0 <= ty < l.n && i == c * (ty - TopRow(l)) + (tx - Left(l))
    {
      CoversAt(l, i, p);
      GridRowInWorld(l, i);
    }
    if InBand(l, p) {
      CoveredBy(l, p);
    }
  }

  lemma CellIndex(c: nat, r: nat, row: nat, col: nat)
    requires col < c && row < r
    ensures 0 <= c * row + col < c * r && (c * row + col) / c == row && (c * row + col) % c == col
  {
    MulStrict(c, row, r);
    DivUnique(c * row + col, c, row);
    ModUnique(c * row + col, c, row, col);
  }

  /** The tile at p's indices is drawn. */
  lemma {:induction false} CoveredBy(l: Layout, p: Point)
    requires Drawable(l) && InReach(l, p) && InBand(l, p)
    ensures exists i :: 0 <= i < |Grid(l)| && Covers(Grid(l)[i], p)
  {
    var c := Columns(l);
    InBandIndex(l, p);
    WindowReaches(p.x, l.cx, l.vw);
    WindowReaches(p.y, l.cy, l.vh);
    GridAt(l);
    var row, col := IndexAt(p.y, l.cy, l.vh) - TopRow(l), IndexAt(p.x, l.cx, l.vw) - Left(l);
    CellIndex(c, RowCount(l), row, col);
    CoversAt(l, c * row + col, p);
    assert Covers(Grid(l)[c * row + col], p);
  }

  lemma GridRowInWorld(l: Layout, i: nat)
    requires Drawable(l) && i < |Grid(l)|
    ensures 0 <= TopRow(l) + i / Columns(l) < l.n
    ensures i == Columns(l) * (i / Columns(l)) + i % Columns(l)
  {
    GridAt(l);
    QuotientBelow(i, Columns(l), RowCount(l));
  }

  lemma QuotientBelow(i: nat, c: nat, r: nat)
    requires c > 0 && i < c * r
    ensures 0 <= i / c < r && i == c * (i / c) + i % c
  {
    var q := i / c;
    assert i == c * q + i % c;
    forall s: int | s >= r ensures i < c * s {
      if s > r {
        MulStrict(c, r, s);
      }
    }
  }

  /** Two drawn tiles show the same image exactly when they are whole worlds apart in x. */
  lemma {:induction false} SameImageIff(l: Layout, i: nat, j: nat)
    requires Drawable(l) && i < |Grid(l)| && j < |Grid(l)|
    ensures var a, b := Grid(l)[i], Grid(l)[j];
            (a.column == b.column && a.row == b.row)
            <==> (a.y == b.y && exists k: int :: a.x - b.x == TILE * (l.n * k))
  {
    GridAt(l);
    var c := Columns(l);
    var ti, tj := Left(l) + i % c, Left(l) + j % c;
    PlaceShift(ti, l.cx, l.vw);
    PlaceShift(tj, l.cx, l.vw);
    PlaceShift(TopRow(l) + i / c, l.cy, l.vh);
    PlaceShift(TopRow(l) + j / c, l.cy, l.vh);
    WrapIsCongruent(ti, l.n);
    WrapIsCongruent(tj, l.n);
    CongruentIff(ti, tj, l.n);
    var a, b := Grid(l)[i], Grid(l)[j];
    assert a.x - b.x == TILE * (ti - tj);
    forall k: int ensures a.x - b.x == TILE * (l.n * k) <==> ti - tj == l.n * k {
    }
  }

  lemma CongruentIff(a: int, b: int, n: nat)
    requires n > 0
    ensures a % n == b % n <==> exists k: int :: a - b == n * k
  {
    assert a == n * (a / n) + a % n && b == n * (b / n) + b % n;
    if a % n == b % n {
      var k := a / n - b / n;
      Distribute(n, k, b / n);
      assert a - b == n * k;
    }
    forall k: int | a - b == n * k ensures a % n == b % n {
      Distribute(n, b / n, k);
      Residue(a, n, b / n + k, b % n);
    }
  }

  // ---- overlays on the map ----

  predicate WithinHalf(a: real, b: int) {
    b as real - 0.5 <= a <= b as real + 0.5
  }

  /** A coordinate whose world pixel is a tile's corner is put within half a pixel of that
      corner as drawn, exactly when the item has a positive size: the overlay does not use the
      stand-in size that the tiles fall back on. */
  lemma CornerIff(v: View, tx: int, ty: int, lat: real, lon: real)
    requires v.PixelX(lon) == (tx * TILE) as real && v.PixelY(lat) == (ty * TILE) as real
    ensures var p := LatLonToScreen(v, lat, lon);
            var t := TileAt(LayoutOf(v), tx, ty);
            WithinHalf(p.x, t.x) && WithinHalf(p.y, t.y) <==> v.width > 0.0 && v.height > 0.0
  {
    var l := LayoutOf(v);
    CornerAxis(tx, l.cx, v.width, l.vw, FALLBACK_WIDTH);
    CornerAxis(ty, l.cy, v.height, l.vh, FALLBACK_HEIGHT);
  }

  lemma CornerAxis(t: int, centre: real, size: real, drawn: real, fallback: real)
    requires drawn == (if size > 0.0 then size else fallback) && fallback >= 3.0
    ensures WithinHalf((t * TILE) as real - centre + size * 0.5, Place(t, centre, drawn)) <==> size > 0.0
  {
  }

  // ---- which image is drawn where a coordinate is shown ----

  /** p is in the tile, and at least half a pixel from its edges. */
  predicate WellInside(t: Tile, p: Point) {
    && t.x as real + 0.5 <= p.x < (t.x + TILE) as real - 0.5
    && t.y as real + 0.5 <= p.y < (t.y + TILE) as real - 0.5
  }

  /** A position well inside a drawn span, measured from the centre, is inside the tile's span of
      world pixels. */
  lemma SpanOf(pixel: real, t: int, centre: real, size: real)
    requires var p := pixel - centre + size * 0.5;
             var x := Place(t, centre, size);
             x as real + 0.5 <= p < (x + TILE) as real - 0.5
    ensures (t * TILE) as real <= pixel < ((t + 1) * TILE) as real
  {
  }

  lemma TileIndex(fraction: real, tiles: real, t: int)
    requires (t * TILE) as real <= Scale(fraction, 256.0 * tiles) < ((t + 1) * TILE) as real
    ensures t == (fraction * tiles).Floor
  {
    ScaleByTile(fraction, tiles);
    assert t as real <= fraction * tiles < (t + 1) as real;
  }

  lemma ScaleByTile(fraction: real, tiles: real)
    ensures Scale(fraction, 256.0 * tiles) == 256.0 * (fraction * tiles)
  {
  }

  /** The tile drawn where the overlay puts a coordinate is the coordinate's own: with n tiles per
      axis its row is floor(mercator(lat) * n), and its column floor((lon + 180) / 360 * n), a
      whole number of worlds apart. For every level, item size, centre and drawn tile. */
  lemma {:induction false} ImageIsOfPlace(v: View, lat: real, lon: real, i: nat)
    requires v.width > 0.0 && v.height > 0.0
    requires i < |Grid(LayoutOf(v))| && WellInside(Grid(LayoutOf(v))[i], LatLonToScreen(v, lat, lon))
    ensures var t, n := Grid(LayoutOf(v))[i], v.TilesPerAxis();
            && t.z == v.Level()
            && t.row == (v.mercator(lat) * n).Floor
            && 0 <= t.column < v.NumTiles()
            && t.column == ((lon + 180.0) / 360.0 * n).Floor % v.NumTiles()
            && (t.row * TILE) as real <= v.PixelY(lat) < ((t.row + 1) * TILE) as real
  {
    var l := LayoutOf(v);
    var tx, ty := Left(l) + i % Columns(l), TopRow(l) + i / Columns(l);
    GridAt(l);
    assert Grid(l)[i] == TileAt(l, tx, ty);
    PlaceOfColumn(v, lat, lon, tx, ty);
    PlaceOfRow(v, lat, lon, tx, ty);
    WrapIsCongruent(tx, l.n);
  }

  lemma PlaceOfColumn(v: View, lat: real, lon: real, tx: int, ty: int)
    requires v.width > 0.0 && v.height > 0.0
    requires WellInside(TileAt(LayoutOf(v), tx, ty), LatLonToScreen(v, lat, lon))
    ensures tx == ((lon + 180.0) / 360.0 * v.TilesPerAxis()).Floor
  {
    var fraction := (lon + 180.0) / 360.0;
    SpanOf(v.PixelX(lon), tx, v.CentreX(), v.width);
    TileIndex(fraction, v.TilesPerAxis(), tx);
  }

  lemma PlaceOfRow(v: View, lat: real, lon: real, tx: int, ty: int)
    requires v.width > 0.0 && v.height > 0.0
    requires WellInside(TileAt(LayoutOf(v), tx, ty), LatLonToScreen(v, lat, lon))
    ensures ty == (v.mercator(lat) * v.TilesPerAxis()).Floor
    ensures (ty * TILE) as real <= v.PixelY(lat) < ((ty + 1) * TILE) as real
  {
    SpanOf(v.PixelY(lat), ty, v.CentreY(), v.height);
    TileIndex(v.mercator(lat), v.TilesPerAxis(), ty);
  }

  /** The requested centre is shown in the middle of the viewport exactly when neither of its
      coordinates is zero: the equator and the Greenwich meridian are taken for absent. */
  lemma CentreIff(v: View, lat: real, lon: real)
    requires v.lat == Some(lat) && v.lon == Some(lon)
    requires v.mercator(0.0) != v.mercator(DEFAULT_LAT)
    ensures LatLonToScreen(v, lat, lon) == Point(v.width * 0.5, v.height * 0.5)
            <==> lat != 0.0 && lon != 0.0
  {
    SamePixelX(v, lon, OrDefault(v.lon, DEFAULT_LON));
    SamePixelY(v, lat, OrDefault(v.lat, DEFAULT_LAT));
  }

  /** Without parameters the map is centred on 33.814427 N, 96.582106 W. */
  lemma DefaultCentre(v: View)
    requires v.lat == None && v.lon == None
    ensures LatLonToScreen(v, 33.814427, -96.582106) == Point(v.width * 0.5, v.height * 0.5)
  {
  }

  /** Before it has a size an item draws the tiles of a 2560 by 1440 one. */
  lemma UnsizedGrid(v: View)
    requires v.width <= 0.0 && v.height <= 0.0
    ensures LayoutOf(v) == LayoutOf(v.(width := 2560.0, height := 1440.0))
    ensures Grid(LayoutOf(v)) == Grid(LayoutOf(v.(width := 2560.0, height := 1440.0)))
  {
  }

  lemma SamePixelX(v: View, a: real, b: real)
    ensures v.PixelX(a) == v.PixelX(b) <==> a == b
  {
    if a != b {
      ScaleInjective((a + 180.0) / 360.0, (b + 180.0) / 360.0, v.WorldSize());
    }
  }

  lemma SamePixelY(v: View, a: real, b: real)
    ensures v.PixelY(a) == v.PixelY(b) <==> v.mercator(a) == v.mercator(b)
  {
    if v.mercator(a) != v.mercator(b) {
      ScaleInjective(v.mercator(a), v.mercator(b), v.WorldSize());
    }
  }

  lemma ScaleInjective(a: real, b: real, w: real)
    requires w > 0.0 && a != b
    ensures Scale(a, w) != Scale(b, w)
  {
    assert (a - b) * w == a * w - b * w;
  }

  /** Of the documented zoom levels 0 to 19, every one but 0 is drawn at its own level; 0 is
      drawn at level 10. */
  lemma ZoomIff(v: View, zoom: nat)
    requires zoom <= 19 && v.zoom == Some(zoom as real)
    ensures v.Level() == zoom <==> zoom != 0
    ensures zoom == 0 ==> v.NumTiles() == 1024
  {
    if zoom == 0 {
      assert v.Level() == 10;
      assert Pow2(2) == 4 && Pow2(4) == 16 && Pow2(6) == 64 && Pow2(8) == 256;
    }
  }
}
