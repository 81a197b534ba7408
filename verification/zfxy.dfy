/** The 3D voxel tile `ZFXY` (cell/zfxy.rs): zoom level, signed vertical
    layer `floor`, and horizontal tile indices `x`, `y`, with the octree
    navigation `get_parent` / `get_children` and the point constructor
    `from_lat_lon_alt`. */
module Cell {
  import opened Widths
  import opened Optional
  import opened Float64
  import opened WebMercator

  datatype Zfxy = Zfxy(zoom: u8, floor: i32, x: u32, y: u32)

  /** The tile with its floor replaced by the floor's magnitude. */
  function Unsigned(t: Zfxy): (r: Zfxy)
    requires t.floor != I32_MIN
    ensures r.floor >= 0 && (r.floor == t.floor || r.floor == -t.floor)
    ensures r.zoom == t.zoom && r.x == t.x && r.y == t.y
  {
    t.(floor := Abs(t.floor))
  }

  /** What `get_children` needs so that none of `zoom + 1`, `x * 2`,
      `y * 2` and `floor.abs() * 2 + 1` overflows its Rust type. */
  predicate CanBranch(t: Zfxy)
  {
    && t.zoom < 0xff
    && t.x < 0x8000_0000
    && t.y < 0x8000_0000
    && -0x4000_0000 < t.floor < 0x4000_0000
  }

  /** `get_parent`: `None` exactly at zoom 0; otherwise the tile one level
      up whose two-by-two-by-two block of children spans this tile's x, y and
      floor magnitude. The sign of the floor is dropped. */
  function GetParent(t: Zfxy): (r: Option<Zfxy>)
    requires t.zoom > 0 ==> t.floor != I32_MIN
    ensures r.None? <==> t.zoom == 0
    ensures r.Some? ==>
      && r.value.zoom + 1 == t.zoom
      && r.value.floor >= 0
      && 2 * r.value.x <= t.x <= 2 * r.value.x + 1
      && 2 * r.value.y <= t.y <= 2 * r.value.y + 1
      && 2 * r.value.floor <= Abs(t.floor) <= 2 * r.value.floor + 1
  {
    if t.zoom == 0 then None
    else
      var parentFloorAbs := Abs(t.floor) / 2;
      Some(Zfxy(t.zoom - 1, parentFloorAbs, t.x / 2, t.y / 2))
  }

  /** `get_children`: eight tiles one level down, x varying fastest, then y,
      then the floor layer; child `i` takes bit 0 of `i` in x, bit 1 in y and
      bit 2 in the floor. */
  function GetChildren(t: Zfxy): (r: seq<Zfxy>)
    requires CanBranch(t)
    ensures |r| == 8
    ensures forall i :: 0 <= i < 8 ==>
      && r[i].zoom == t.zoom + 1
      && r[i].x == 2 * t.x + i % 2
      && r[i].y == 2 * t.y + (i / 2) % 2
      && r[i].floor == 2 * Abs(t.floor) + i / 4
  {
    var childZoom := t.zoom + 1;
    var px := t.x * 2;
    var py := t.y * 2;
    var pfAbs := Abs(t.floor) * 2;
    [ Zfxy(childZoom, pfAbs, px, py),
      Zfxy(childZoom, pfAbs, px + 1, py),
      Zfxy(childZoom, pfAbs, px, py + 1),
      Zfxy(childZoom, pfAbs, px + 1, py + 1),
      Zfxy(childZoom, pfAbs + 1, px, py),
      Zfxy(childZoom, pfAbs + 1, px + 1, py),
      Zfxy(childZoom, pfAbs + 1, px, py + 1),
      Zfxy(childZoom, pfAbs + 1, px + 1, py + 1) ]
  }

  /** The eight children are pairwise distinct. */
  lemma ChildrenDistinct(t: Zfxy)
    requires CanBranch(t)
    ensures forall i, j :: 0 <= i < j < 8 ==> GetChildren(t)[i] != GetChildren(t)[j]
  {
  }

  /** The index of a tile among its parent's children, from the low bits of
      its coordinates. */
  function Octant(t: Zfxy): (o: nat)
    requires t.floor >= 0
    ensures o < 8
  {
    t.x % 2 + 2 * (t.y % 2) + 4 * (t.floor % 2)
  }

  /** The octant's three bits are the low bits of x, y and floor. */
  lemma OctantBits(t: Zfxy)
    requires t.floor >= 0
    ensures Octant(t) % 2 == t.x % 2
    ensures (Octant(t) / 2) % 2 == t.y % 2
    ensures Octant(t) / 4 == t.floor % 2
  {
    var a, b, c := t.x % 2, t.y % 2, t.floor % 2;
    assert Octant(t) == a + 2 * b + 4 * c;
    assert a == 0 || a == 1;
    assert b == 0 || b == 1;
    assert c == 0 || c == 1;
  }

  /** An index below 8 is the sum of its three bits. */
  lemma OctantOfBits(i: nat)
    requires i < 8
    ensures i == i % 2 + 2 * ((i / 2) % 2) + 4 * (i / 4)
  {
  }

  /** Every child's parent is the tile itself, with its floor's sign
      dropped, and the child sits at its own octant. */
  lemma ParentOfChild(t: Zfxy, i: nat)
    requires CanBranch(t) && i < 8
    ensures GetParent(GetChildren(t)[i]) == Some(Unsigned(t))
    ensures Octant(GetChildren(t)[i]) == i
  {
    var c := GetChildren(t)[i];
    assert c.x / 2 == t.x && c.y / 2 == t.y && c.floor / 2 == Abs(t.floor);
  }

  /** A tile with a non-negative floor above zoom 0 appears among its
      parent's children exactly once, at its octant; a tile with a negative
      floor does not appear at all. */
  lemma ChildOfParent(t: Zfxy)
    requires t.zoom > 0 && t.floor != I32_MIN
    ensures CanBranch(GetParent(t).value)
    ensures t.floor >= 0 ==> GetChildren(GetParent(t).value)[Octant(t)] == t
    ensures t.floor >= 0 ==> forall i :: 0 <= i < 8 && GetChildren(GetParent(t).value)[i] == t ==> i == Octant(t)
    ensures t.floor < 0 ==> t !in GetChildren(GetParent(t).value)
  {
    var p := GetParent(t).value;
    var cs := GetChildren(p);
    if t.floor >= 0 {
      var o := Octant(t);
      OctantBits(t);
      assert cs[o] == t;
      forall i | 0 <= i < 8 && cs[i] == t
        ensures i == o
      {
        OctantOfBits(i);
      }
    } else {
      forall i | 0 <= i < 8
        ensures cs[i].floor >= 0
      {
      }
    }
  }

  /** `from_lat_lon_alt`: the tile containing a point at a zoom. The
      `else panic!` branch cannot be taken because `latlon_to_tile_xy` always
      returns `Some`. */
  function FromLatLonAlt(lat: F64, lon: F64, alt: F64, zoom: u8, proj: Projection): (t: Zfxy)
    requires zoom <= 31
    ensures t.zoom == zoom && t.x < Pow2(zoom) && t.y < Pow2(zoom)
    ensures (t.x, t.y) == LatLonToTileXY(lat, lon, zoom, proj).value
    ensures t.floor == FloorToI32(alt)
    ensures alt.Num? && I32_MIN as real <= alt.value < (I32_MAX + 1) as real ==> t.floor == alt.value.Floor
  {
    var xy := LatLonToTileXY(lat, lon, zoom, proj).value;
    var floor := FloorToI32(alt);
    Zfxy(zoom, floor, xy.0, xy.1)
  }

}
