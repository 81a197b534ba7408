# spatial-id-rs ZFXY core in Dafny

This project models the integer core of the `ZFXY` voxel tile of spatial-id-rs.
A tile is a zoom level (`u8`), a signed vertical layer `floor` (`i32`) and
horizontal Web Mercator tile indices `x` and `y` (`u32`). The model covers:

- octree navigation (`get_parent`, `get_children`);
- the path hash `to_tile_hash`, which writes one digit `1`..`8` per level with a
  leading `-` for a negative floor;
- the `/zoom/floor/x/y` identifier `to_spatial_id_str`;
- the bounding-volume enumeration `bvol_cover`;
- the point constructor `from_lat_lon_alt`;
- the integer end of the forward Web Mercator projection `latlon_to_tile_xy`,
  meaning the latitude clamp, then `floor`, `max(0)`, the saturating `as u32`
  and `min(2^zoom - 1)`.

Rust's fixed-width integers are subset types (`u8`, `u32`, `i32` in
`widths.dfy`). Every place where a debug build would panic on overflow, or
where `abs` would panic on `i32::MIN`, is a precondition. Each `expect(...)`
and `else { panic!(...) }` of the source is a `.value` on an `Option`, so the
verifier proves that the panic is unreachable.

A double is `F64`: an exact real, or one of the two infinities, or NaN. The
trigonometric part of the projection is a parameter: a `Projection` supplies
the real-valued x and y tile indices. Everything done with them afterwards is
modelled exactly.

The iterative `to_tile_hash` searches each parent's children for the current
tile. It is verified against a recursive digit path `HashPath`, which uses
the arithmetic octant `x%2 + 2(y%2) + 4(floor%2)`. Replaying a digit path from
the root (`Decode`) gives the inverse. The identifier string has a reference
parser as its inverse.

Modules and files:

- `optional.dfy`: `Optional`.
- `widths.dfy`: `Widths`.
- `float64.dfy`: `Float64`.
- `web_mercator.dfy`: `WebMercator`.
- `decimal.dfy`: `Decimal`, base-10 numerals as written by Rust's `Display`.
- `zfxy.dfy`: `Cell`.
- `tile_hash.dfy`: `PathHash`.
- `spatial_id.dfy`: `SpatialId`.
- `cover.dfy`: `Cover`.
- `test_vectors.dfy`: `TestVectors`, the unit-test vectors.

## Model

| member | source | states |
|---|---|---|
| Widths.Abs | spatial-id-core/src/cell/zfxy.rs:121 | `i32::abs` away from `i32::MIN`: a non-negative value equal to the argument or its negation |
| Float64.Floor | spatial-id-core/src/projection/web_mercator.rs:15-16 | `f64::floor`: a finite value goes to the unique integer `r` with `r <= v < r + 1`; infinities and NaN are unchanged |
| Float64.MaxZero | spatial-id-core/src/projection/web_mercator.rs:15-16 | `max(0.0)`: a negative value, -inf and NaN all become 0.0; a non-negative value and +inf are returned unchanged; the result is never below the input |
| Float64.ToU32 | spatial-id-core/src/projection/web_mercator.rs:15-16 | saturating `as u32`: truncation inside the range, 0 below 1, `u32::MAX` at and above it and for +inf, 0 for -inf and NaN |
| Float64.FloorToI32 | spatial-id-core/src/cell/zfxy.rs:276-277 | `alt.floor() as i32`: the floor inside the i32 range, `i32::MIN`/`i32::MAX` beyond it and for the infinities, 0 for NaN |
| Float64.FloorToI32Monotone | spatial-id-core/src/cell/zfxy.rs:276-277 | a larger altitude never gives a lower floor |
| WebMercator.ClampLatitude | spatial-id-core/src/projection/web_mercator.rs:3-7 | `clamp(-85.05112877980659, 85.05112877980659)`: NaN iff the input is NaN; the identity inside the bound; the nearer bound for a finite value beyond it and for +inf and -inf |
| WebMercator.ClampLatitudeIdempotent | spatial-id-core/src/projection/web_mercator.rs:7 | clamping twice is clamping once |
| WebMercator.ClampLatitudeMonotone | spatial-id-core/src/projection/web_mercator.rs:7 | the clamp preserves the order of latitudes |
| WebMercator.MaxTileIndex | spatial-id-core/src/projection/web_mercator.rs:18 | `(1 << zoom).saturating_sub(1)` is `2^zoom - 1` for every zoom the shift accepts |
| WebMercator.SaturatingSub | spatial-id-core/src/projection/web_mercator.rs:18 | `u32::saturating_sub`: the difference when it is non-negative, 0 otherwise |
| WebMercator.ClampTileIndex | spatial-id-core/src/projection/web_mercator.rs:15-19 | `ClampsTo`: the result never exceeds the maximum index; it is the floor of an in-range index, 0 for a negative index, -inf or NaN, and the maximum for an index at or beyond it or +inf |
| WebMercator.ClampTileIndexMonotone | spatial-id-core/src/projection/web_mercator.rs:15-19 | a larger real index never yields a smaller tile index |
| WebMercator.LatLonToTileXY | spatial-id-core/src/projection/web_mercator.rs:6-19 | always `Some`; x is the `ClampsTo` clamp of the projected x index of the longitude onto `0..=2^zoom - 1`, y the same clamp of the projected y index of the clamped latitude; so both are below `2^zoom` and both are 0 at zoom 0 |
| WebMercator.TileXMonotone | spatial-id-core/src/projection/web_mercator.rs:11-19 | a larger projected x index never gives a smaller x tile index |
| WebMercator.TileYMonotone | spatial-id-core/src/projection/web_mercator.rs:13-19 | a larger projected y index of the clamped latitude never gives a smaller y tile index |
| WebMercator.LatitudeClampedBeforeProjection | spatial-id-core/src/projection/web_mercator.rs:6-13 | a latitude and its clamp give the same tile, so every latitude above the bound, +inf included, lands on the bound's tile, and likewise below the negative bound |
| Cell.Unsigned | spatial-id-core/src/cell/zfxy.rs:212-218 | the working tile of `to_tile_hash`: the floor becomes its magnitude and nothing else changes |
| Cell.GetParent | spatial-id-core/src/cell/zfxy.rs:117-128 | `None` exactly at zoom 0; otherwise zoom minus 1, a non-negative floor, and x, y and floor magnitude that are the halves of the tile's, rounded down |
| Cell.GetChildren | spatial-id-core/src/cell/zfxy.rs:130-186 | eight tiles at zoom + 1; child `i` has x `2x + i%2`, y `2y + (i/2)%2` and floor `2 abs(floor) + i/4` |
| Cell.ChildrenDistinct | spatial-id-core/src/cell/zfxy.rs:130-186 | the eight children are pairwise distinct |
| Cell.ParentOfChild | spatial-id-core/src/cell/zfxy.rs:117-186 | the parent of child `i` is the tile with its floor made non-negative, and `i` is the child's octant |
| Cell.ChildOfParent | spatial-id-core/src/cell/zfxy.rs:221-243 | above zoom 0 the parent can branch. A tile with floor >= 0 occurs among its parent's children exactly once, at its octant. A tile with a negative floor does not occur at all |
| Cell.FromLatLonAlt | spatial-id-core/src/cell/zfxy.rs:188-196 | the tile keeps the zoom; `(x, y)` is the pair `latlon_to_tile_xy` returns, which lies on the `2^zoom` grid (so the `panic!` is unreachable); the floor is the saturating `alt.floor() as i32` |
| PathHash.Position | spatial-id-core/src/cell/zfxy.rs:228-233 | `iter().position`: `None` iff the tile is absent; otherwise the first index that holds it |
| PathHash.HashPath | spatial-id-core/src/cell/zfxy.rs:221-244 | the digit path of a tile with floor >= 0 has one digit `1`..`8` per zoom level |
| PathHash.TileHashShape | spatial-id-core/src/cell/zfxy.rs:207-250 | the hash has length zoom, plus one for a negative floor above zoom 0. Every character is `1`..`8` except one leading `-`, present iff zoom > 0 and floor < 0. At zoom 0 the hash is empty |
| PathHash.ClimbOneLevel | spatial-id-core/src/cell/zfxy.rs:221-243 | one loop iteration: the parent can branch, the search returns the tile's octant, and the prepended digit extends the parent's path to the tile's |
| PathHash.ToTileHash | spatial-id-core/src/cell/zfxy.rs:207-250 | the prepend loop computes the recursive hash `TileHash`, with the length and alphabet of `TileHashShape`; the `expect` and the "Could not find tile" `panic!` are unreachable |
| PathHash.Decode | spatial-id-core/src/cell/zfxy.rs:130-186 | replaying `n` digits from the root, with digit `d` selecting child `d - 1`, gives a tile at zoom `n` with floor >= 0 and x, y and floor below `2^n` |
| PathHash.DecodeStep | spatial-id-core/src/cell/zfxy.rs:130-186 | appending a digit to a path selects that child of the tile the path decodes to |
| PathHash.DecodeHashPath | spatial-id-core/src/cell/zfxy.rs:221-244 | decoding a tile's digit path recovers its zoom, and its x, y and floor modulo `2^zoom` |
| PathHash.HashPathDecode | spatial-id-core/src/cell/zfxy.rs:221-244 | every digit string of length at most 31 is the digit path of the tile it decodes to, so paths and tiles are in bijection |
| PathHash.DecodeRecoversTile | spatial-id-core/src/cell/zfxy.rs:212-244 | when x, y and floor magnitude are below `2^zoom`, the hash digits decode back to exactly `(zoom, abs(floor), x, y)` |
| PathHash.SignOnlyPrefix | spatial-id-core/src/cell/zfxy.rs:212-218 | negating a positive floor only adds the `-` prefix to the hash |
| PathHash.TileHashInjective | spatial-id-core/src/cell/zfxy.rs:207-250 | above zoom 0, among tiles whose coordinates fit in `zoom` bits, equal hashes mean equal tiles |
| TestVectors.HashOfOriginTile | spatial-id-core/src/cell/zfxy.rs:400-409 | the hash of `(25, 10, 16777216, 16777216)` is `4111111111111111111115151` |
| TestVectors.HashOfZoom18Tile | spatial-id-core/src/cell/zfxy.rs:411-419 | the hash of `(18, 0, 232851, 103211)` is `244113223421323144` |
| TestVectors.IdOfOriginTile | spatial-id-core/src/cell/zfxy.rs:423-433 | the identifier of `(25, 10, 16777216, 16777216)` is `/25/10/16777216/16777216` |
| Decimal.NatStr | spatial-id-core/src/cell/zfxy.rs:237 | the decimal numeral of a natural number: non-empty, all digits, a leading `0` only for zero, one digit exactly below 10 |
| Decimal.IntStr | spatial-id-core/src/cell/zfxy.rs:253 | a signed numeral: it starts with `-` iff the value is negative, followed by the magnitude's numeral |
| Decimal.ParseNatStr | spatial-id-core/src/cell/zfxy.rs:253 | reading an unsigned numeral back gives the number |
| Decimal.ParseIntStr | spatial-id-core/src/cell/zfxy.rs:253 | reading a signed numeral back gives the number |
| SpatialId.ToSpatialIdStr | spatial-id-core/src/cell/zfxy.rs:252-254 | the identifier starts with `/` and has at least eight characters, four numerals plus four slashes |
| SpatialId.SplitSpatialId | spatial-id-core/src/cell/zfxy.rs:252-254 | after the leading `/`, the identifier splits at its slashes into exactly the zoom, floor, x and y numerals |
| SpatialId.ParseToSpatialIdStr | spatial-id-core/src/cell/zfxy.rs:252-254 | parsing the identifier gives back the tile it was made from |
| SpatialId.SpatialIdInjective | spatial-id-core/src/cell/zfxy.rs:252-254 | distinct tiles have distinct identifiers |
| Cover.AppendColumn | spatial-id-core/src/cell/zfxy.rs:283-290 | the innermost loop appends the floors `min_floor..=max_floor` of one `(x, y)` in ascending order, and nothing when the range is empty |
| Cover.AppendRow | spatial-id-core/src/cell/zfxy.rs:282-291 | the middle loop appends those columns for `min_y..=max_y` in ascending y |
| Cover.GridShape | spatial-id-core/src/cell/zfxy.rs:281-292 | the enumeration holds exactly the tiles of the box, ordered by (x, y, floor) and so each once. Its length is the product of the range sizes, and it is empty iff one range is empty |
| Cover.CoverRanges | spatial-id-core/src/cell/zfxy.rs:279-294 | the three nested loops produce that enumeration: membership iff in the box, strictly ordered, pairwise distinct, length the product of the range sizes, empty iff a range is empty |
| Cover.BvolCover | spatial-id-core/src/cell/zfxy.rs:256-295 | both `else panic!` branches are unreachable. The result is exactly the tiles between the projected corners `(max.lat, min.lon)` and `(min.lat, max.lon)` and between the floored altitudes, at the given zoom, on the `2^zoom` grid, strictly ordered and distinct. It is empty when the floored maximum altitude is below the floored minimum |

## Left out

- `centroid`, `vertices`, `bbox` and `to_lat_lon_alt` of `ZFXY`, `tile_xy_to_latlon`, and the XYZ tile of `cell/xyz.rs` are left out. They are floating-point trigonometry (`powi`, `sinh`, `atan`) whose tests compare exact doubles. The bounding box scales the floor differently from the vertices; that is float output and is not modelled.
- The trigonometric body of `latlon_to_tile_xy` (web_mercator.rs:8-13) is not computed. The real-valued tile indices come from the `Projection` parameter; the tile indices are stated in terms of them, but a property that needs their actual values is out of reach. One example is the `from_lat_lon_alt(0, 0, 10, 25)` test, which gives x = y = 16777216.
- Float rounding is not modelled: a finite double is an exact real. The casts, `floor`, `max` and `clamp` follow Rust's semantics for NaN and the infinities.
- Rust's overflow checks are preconditions, not wrap-around:
  - `zoom <= 31` for `1u32 << zoom`, which panics in a debug build at zoom 32;
  - `CanBranch` (zoom < 255, x and y < 2^31, |floor| < 2^30) for `get_children`;
  - `floor != i32::MIN` for `abs`.
- `from_lat_lon_alt` with an altitude below -2^31 + 1 gives the floor `i32::MIN` (by saturation, or exactly for altitudes in `[-2^31, -2^31 + 1)`), and `to_tile_hash` on such a tile would panic in `abs`. The model excludes that tile by the precondition of `ToTileHash` and does not model the panic.
- The parser `ParseSpatialId` has no counterpart in the repository. It exists to state that the identifier is injective and decodable.
- The Python and WebAssembly bindings and the TypeScript and JavaScript examples are thin wrappers and UI code. They are not part of this model.
- PathHash.DecodeRecoversTile: only tiles whose x, y and floor magnitude fit in `zoom` bits, and with zoom <= 31, the safe range for u32 indices, are covered. Only the low `zoom` bits enter the digits, so tiles outside the `2^zoom` grid share hashes with tiles inside it (`DecodeHashPath` states this).
- PathHash.TileHashInjective: stated for the same tiles, with zoom <= 31, the safe range for u32 indices, for the same reason.
- PathHash.Decode: decodes at most 31 digits (zoom <= 31, the safe range for u32 indices), while `ToTileHash` accepts every u8 zoom.
- PathHash.DecodeHashPath: stated for zoom <= 31, the safe range for u32 indices.
