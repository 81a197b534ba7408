/** `bvol_cover`: every tile of a zoom level inside three inclusive index
    ranges, x outermost, then y, then floor. The enumeration is modelled on
    the integer ranges; `BvolCover` adds the projection of the two corner
    points and the flooring of their altitudes. */
module Cover {
  import opened Widths
  import opened Float64
  import opened WebMercator
  import opened Cell

  /** The number of integers in the inclusive range `[lo, hi]`. */
  function Count(lo: int, hi: int): nat
  {
    if hi < lo then 0 else hi - lo + 1
  }

  /** Strict lexicographic order on (x, y, floor). */
  predicate Before(a: Zfxy, b: Zfxy)
  {
    a.x < b.x || (a.x == b.x && (a.y < b.y || (a.y == b.y && a.floor < b.floor)))
  }

  predicate StrictlyOrdered(s: seq<Zfxy>)
  {
    forall i, j :: 0 <= i < j < |s| ==> Before(s[i], s[j])
  }

  predicate InBox(t: Zfxy, zoom: u8, minX: int, maxX: int, minY: int, maxY: int, minFloor: int, maxFloor: int)
  {
    && t.zoom == zoom
    && minX <= t.x <= maxX
    && minY <= t.y <= maxY
    && minFloor <= t.floor <= maxFloor
  }

  /** The floors `lo..=hi` of one (x, y) position, ascending. */
  function Column(zoom: u8, x: u32, y: u32, lo: i32, hi: int): seq<Zfxy>
    requires hi <= I32_MAX
    decreases hi - lo
  {
    if hi < lo then [] else Column(zoom, x, y, lo, hi - 1) + [Zfxy(zoom, hi, x, y)]
  }

  /** The columns of the positions `(x, yLo..=yHi)`, ascending in y. */
  function Row(zoom: u8, x: u32, yLo: u32, yHi: int, fLo: i32, fHi: i32): seq<Zfxy>
    requires yHi < U32_LIMIT
    decreases yHi - yLo
  {
    if yHi < yLo then [] else Row(zoom, x, yLo, yHi - 1, fLo, fHi) + Column(zoom, x, yHi, fLo, fHi)
  }

  /** The rows of `xLo..=xHi`, ascending in x. */
  function Grid(zoom: u8, xLo: u32, xHi: int, yLo: u32, yHi: u32, fLo: i32, fHi: i32): seq<Zfxy>
    requires xHi < U32_LIMIT
    decreases xHi - xLo
  {
    if xHi < xLo then [] else Grid(zoom, xLo, xHi - 1, yLo, yHi, fLo, fHi) + Row(zoom, xHi, yLo, yHi, fLo, fHi)
  }

  /** Appending a sequence whose every element comes after every element of
      a strictly ordered sequence keeps it strictly ordered. */
  lemma OrderedAppend(a: seq<Zfxy>, b: seq<Zfxy>)
    requires StrictlyOrdered(a) && StrictlyOrdered(b)
    requires forall u, v :: u in a && v in b ==> Before(u, v)
    ensures StrictlyOrdered(a + b)
  {
    var s := a + b;
    forall i, j | 0 <= i < j < |s|
      ensures Before(s[i], s[j])
    {
      if j < |a| {
        assert s[i] == a[i] && s[j] == a[j];
      } else if i >= |a| {
        assert s[i] == b[i - |a|] && s[j] == b[j - |a|];
      } else {
        assert s[i] in a && s[j] in b;
      }
    }
  }

  lemma {:induction false} ColumnFacts(zoom: u8, x: u32, y: u32, lo: i32, hi: int)
    requires hi <= I32_MAX
    ensures |Column(zoom, x, y, lo, hi)| == Count(lo, hi)
    ensures forall t :: t in Column(zoom, x, y, lo, hi) <==> InBox(t, zoom, x, x, y, y, lo, hi)
    ensures StrictlyOrdered(Column(zoom, x, y, lo, hi))
    decreases hi - lo
  {
    if hi >= lo {
      var rest := Column(zoom, x, y, lo, hi - 1);
      ColumnFacts(zoom, x, y, lo, hi - 1);
      OrderedAppend(rest, [Zfxy(zoom, hi, x, y)]);
    }
  }

  lemma {:induction false} RowLength(zoom: u8, x: u32, yLo: u32, yHi: int, fLo: i32, fHi: i32)
    requires yHi < U32_LIMIT
    ensures |Row(zoom, x, yLo, yHi, fLo, fHi)| == Count(yLo, yHi) * Count(fLo, fHi)
    decreases yHi - yLo
  {
    if yHi >= yLo {
      RowLength(zoom, x, yLo, yHi - 1, fLo, fHi);
      ColumnFacts(zoom, x, yHi, fLo, fHi);
      assert Count(yLo, yHi) == Count(yLo, yHi - 1) + 1;
    }
  }

  lemma {:induction false} RowContents(zoom: u8, x: u32, yLo: u32, yHi: int, fLo: i32, fHi: i32)
    requires yHi < U32_LIMIT
    ensures forall t :: t in Row(zoom, x, yLo, yHi, fLo, fHi) <==> InBox(t, zoom, x, x, yLo, yHi, fLo, fHi)
    ensures StrictlyOrdered(Row(zoom, x, yLo, yHi, fLo, fHi))
    decreases yHi - yLo
  {
    if yHi >= yLo {
      RowContents(zoom, x, yLo, yHi - 1, fLo, fHi);
      ColumnFacts(zoom, x, yHi, fLo, fHi);
      OrderedAppend(Row(zoom, x, yLo, yHi - 1, fLo, fHi), Column(zoom, x, yHi, fLo, fHi));
    }
  }

  lemma {:induction false} GridLength(zoom: u8, xLo: u32, xHi: int, yLo: u32, yHi: u32, fLo: i32, fHi: i32)
    requires xHi < U32_LIMIT
    ensures |Grid(zoom, xLo, xHi, yLo, yHi, fLo, fHi)| == Count(xLo, xHi) * Count(yLo, yHi) * Count(fLo, fHi)
    decreases xHi - xLo
  {
    if xHi >= xLo {
      GridLength(zoom, xLo, xHi - 1, yLo, yHi, fLo, fHi);
      RowLength(zoom, xHi, yLo, yHi, fLo, fHi);
      MulSuccessor(Count(xLo, xHi - 1), Count(yLo, yHi), Count(fLo, fHi));
    }
  }

  lemma MulSuccessor(n: nat, ny: nat, nf: nat)
    ensures (n + 1) * ny * nf == n * ny * nf + ny * nf
  {
    assert (n + 1) * ny == n * ny + ny;
    assert (n * ny + ny) * nf == n * ny * nf + ny * nf;
  }

  lemma {:induction false} GridContents(zoom: u8, xLo: u32, xHi: int, yLo: u32, yHi: u32, fLo: i32, fHi: i32)
    requires xHi < U32_LIMIT
    ensures forall t :: t in Grid(zoom, xLo, xHi, yLo, yHi, fLo, fHi) <==> InBox(t, zoom, xLo, xHi, yLo, yHi, fLo, fHi)
    ensures StrictlyOrdered(Grid(zoom, xLo, xHi, yLo, yHi, fLo, fHi))
    decreases xHi - xLo
  {
    if xHi >= xLo {
      GridContents(zoom, xLo, xHi - 1, yLo, yHi, fLo, fHi);
      RowContents(zoom, xHi, yLo, yHi, fLo, fHi);
      OrderedAppend(Grid(zoom, xLo, xHi - 1, yLo, yHi, fLo, fHi), Row(zoom, xHi, yLo, yHi, fLo, fHi));
    }
  }

  /** What the enumeration holds: exactly the tiles of the box, each once,
      ordered by (x, y, floor), as many as the product of the range sizes,
      and none exactly when one of the ranges is empty. */
  lemma GridShape(zoom: u8, minX: u32, maxX: u32, minY: u32, maxY: u32, minFloor: i32, maxFloor: i32)
    ensures var g := Grid(zoom, minX, maxX, minY, maxY, minFloor, maxFloor);
      && (forall t :: t in g <==> InBox(t, zoom, minX, maxX, minY, maxY, minFloor, maxFloor))
      && StrictlyOrdered(g)
      && (forall i, j :: 0 <= i < j < |g| ==> g[i] != g[j])
      && |g| == Count(minX, maxX) * Count(minY, maxY) * Count(minFloor, maxFloor)
      && (|g| == 0 <==> maxX < minX || maxY < minY || maxFloor < minFloor)
  {
    var g := Grid(zoom, minX, maxX, minY, maxY, minFloor, maxFloor);
    GridLength(zoom, minX, maxX, minY, maxY, minFloor, maxFloor);
    GridContents(zoom, minX, maxX, minY, maxY, minFloor, maxFloor);
    forall i, j | 0 <= i < j < |g|
      ensures g[i] != g[j]
    {
      assert Before(g[i], g[j]);
    }
    var nx, ny, nf := Count(minX, maxX), Count(minY, maxY), Count(minFloor, maxFloor);
    if nx > 0 && ny > 0 && nf > 0 {
      MulPositive(nx, ny);
      MulPositive(nx * ny, nf);
    }
  }

  /** The innermost loop of `bvol_cover`: every floor of column `(x, y)`,
      ascending, appended to `cover`. */
  method AppendColumn(cover: seq<Zfxy>, zoom: u8, x: u32, y: u32, minFloor: i32, maxFloor: i32)
    returns (r: seq<Zfxy>)
    ensures r == cover + Column(zoom, x, y, minFloor, maxFloor)
  {
    r := cover;
    var startFloor := minFloor;
    var endFloor := maxFloor;
    if startFloor <= endFloor {
      var floor: int := startFloor;
      while floor <= endFloor
        invariant startFloor <= floor <= endFloor + 1
        invariant r == cover + Column(zoom, x, y, minFloor, floor - 1)
        decreases endFloor - floor
      {
        r := r + [Zfxy(zoom, floor, x, y)];
        floor := floor + 1;
      }
    }
  }

  lemma RowStep(cover: seq<Zfxy>, zoom: u8, x: u32, yLo: u32, y: u32, fLo: i32, fHi: i32)
    requires yLo <= y
    ensures cover + Row(zoom, x, yLo, y, fLo, fHi)
            == cover + Row(zoom, x, yLo, y - 1, fLo, fHi) + Column(zoom, x, y, fLo, fHi)
  {
  }

  /** The middle loop of `bvol_cover`: every column of row `x`, by ascending
      y, appended to `cover`. */
  method AppendRow(cover: seq<Zfxy>, zoom: u8, x: u32, minY: u32, maxY: u32, minFloor: i32, maxFloor: i32)
    returns (r: seq<Zfxy>)
    ensures r == cover + Row(zoom, x, minY, maxY, minFloor, maxFloor)
  {
    r := cover;
    var y: int := minY;
    while y <= maxY
      invariant minY <= y && (y <= maxY + 1 || y == minY)
      invariant r == cover + Row(zoom, x, minY, y - 1, minFloor, maxFloor)
      decreases maxY - y
    {
      RowStep(cover, zoom, x, minY, y, minFloor, maxFloor);
      r := AppendColumn(r, zoom, x, y, minFloor, maxFloor);
      y := y + 1;
    }
  }

  /** The enumeration loops of `bvol_cover` over given index ranges. The
      result holds exactly the tiles of the box, each once, ordered by
      (x, y, floor); its length is the product of the range sizes, so it is
      empty exactly when one of the ranges is. */
  method CoverRanges(zoom: u8, minX: u32, maxX: u32, minY: u32, maxY: u32, minFloor: i32, maxFloor: i32)
    returns (cover: seq<Zfxy>)
    ensures cover == Grid(zoom, minX, maxX, minY, maxY, minFloor, maxFloor)
    ensures forall t :: t in cover <==> InBox(t, zoom, minX, maxX, minY, maxY, minFloor, maxFloor)
    ensures StrictlyOrdered(cover)
    ensures forall i, j :: 0 <= i < j < |cover| ==> cover[i] != cover[j]
    ensures |cover| == Count(minX, maxX) * Count(minY, maxY) * Count(minFloor, maxFloor)
    ensures |cover| == 0 <==> maxX < minX || maxY < minY || maxFloor < minFloor
  {
    cover := [];
    var x: int := minX;
    while x <= maxX
      invariant minX <= x && (x <= maxX + 1 || x == minX)
      invariant cover == Grid(zoom, minX, x - 1, minY, maxY, minFloor, maxFloor)
      decreases maxX - x
    {
      cover := AppendRow(cover, zoom, x, minY, maxY, minFloor, maxFloor);
      x := x + 1;
    }
    GridShape(zoom, minX, maxX, minY, maxY, minFloor, maxFloor);
  }

  lemma MulPositive(a: nat, b: nat)
    requires a > 0 && b > 0
    ensures a * b > 0
  {
  }

  /** `bvol_cover`: the corner `(max.lat, min.lon)` gives the smallest x and
      y, the corner `(min.lat, max.lon)` the largest (tile y grows
      southward), and the floored altitudes bound the floors. Both
      `else panic!` branches are unreachable because `latlon_to_tile_xy`
      always returns `Some`. */
  method BvolCover(minCoord: LatLonAlt, maxCoord: LatLonAlt, zoom: u8, proj: Projection)
    returns (cover: seq<Zfxy>)
    requires zoom <= 31
    ensures forall t :: t in cover ==>
      && t.zoom == zoom
      && t.x < Pow2(zoom) && t.y < Pow2(zoom)
      && FloorToI32(minCoord.alt) <= t.floor <= FloorToI32(maxCoord.alt)
    ensures forall i, j :: 0 <= i < j < |cover| ==> cover[i] != cover[j]
    ensures StrictlyOrdered(cover)
    ensures FloorToI32(maxCoord.alt) < FloorToI32(minCoord.alt) ==> cover == []
    ensures
      var lo := LatLonToTileXY(maxCoord.lat, minCoord.lon, zoom, proj).value;
      var hi := LatLonToTileXY(minCoord.lat, maxCoord.lon, zoom, proj).value;
      forall t :: t in cover <==>
        InBox(t, zoom, lo.0, hi.0, lo.1, hi.1, FloorToI32(minCoord.alt), FloorToI32(maxCoord.alt))
  {
    var minXY := LatLonToTileXY(maxCoord.lat, minCoord.lon, zoom, proj).value;
    var maxXY := LatLonToTileXY(minCoord.lat, maxCoord.lon, zoom, proj).value;
    var minFloor := FloorToI32(minCoord.alt);
    var maxFloor := FloorToI32(maxCoord.alt);
    cover := CoverRanges(zoom, minXY.0, maxXY.0, minXY.1, maxXY.1, minFloor, maxFloor);
  }

}
