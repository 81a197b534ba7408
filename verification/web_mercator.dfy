/** The integer end of the forward Web Mercator projection
    (`latlon_to_tile_xy`). The trigonometric part, which maps a longitude and a
    clamped latitude to real-valued tile indices, is a parameter: a
    `Projection` supplies those two real indices, and everything the function
    does with them afterwards is modelled exactly. */
module WebMercator {
  import opened Widths
  import opened Optional
  import opened Float64

  /** The latitude bound of the projection, in degrees. */
  const MAX_LATITUDE: real := 85.05112877980659

  /** The floating-point part of the projection: `xIndex(lon, zoom)` is
      `(lon + 180) / 360 * 2^zoom` and `yIndex(lat, zoom)` is
      `(1 - asinh(tan(lat)) / pi) / 2 * 2^zoom`, both before flooring. */
  datatype Projection = Projection(xIndex: (F64, nat) -> F64, yIndex: (F64, nat) -> F64)

  predicate InLatitudeRange(lat: F64)
  {
    lat.Num? && -MAX_LATITUDE <= lat.value <= MAX_LATITUDE
  }

  /** `lat.clamp(-MAX_LATITUDE, MAX_LATITUDE)`: NaN stays NaN, every other
      value is brought into the projection's latitude range. */
  function ClampLatitude(lat: F64): (r: F64)
    ensures r.NaN? <==> lat.NaN?
    ensures !lat.NaN? ==> InLatitudeRange(r)
    ensures InLatitudeRange(lat) ==> r == lat
    ensures lat.Num? && lat.value > MAX_LATITUDE ==> r == Num(MAX_LATITUDE)
    ensures lat.Num? && lat.value < -MAX_LATITUDE ==> r == Num(-MAX_LATITUDE)
    ensures lat.Infinity? ==> r == Num(MAX_LATITUDE)
    ensures lat.NegInfinity? ==> r == Num(-MAX_LATITUDE)
  {
    match lat
    case Num(p) =>
      if p < -MAX_LATITUDE then Num(-MAX_LATITUDE)
      else if p > MAX_LATITUDE then Num(MAX_LATITUDE)
      else lat
    case Infinity => Num(MAX_LATITUDE)
    case NegInfinity => Num(-MAX_LATITUDE)
    case NaN => NaN
  }

  lemma ClampLatitudeIdempotent(lat: F64)
    ensures ClampLatitude(ClampLatitude(lat)) == ClampLatitude(lat)
  {
  }

  lemma ClampLatitudeMonotone(a: F64, b: F64)
    requires LessEq(a, b)
    ensures LessEq(ClampLatitude(a), ClampLatitude(b))
  {
  }

  /** `(1u32 << zoom).saturating_sub(1)`. The shift panics in a debug build
      once `zoom` reaches the width of a u32, hence the precondition. */
  function MaxTileIndex(zoom: nat): (r: u32)
    requires zoom <= 31
    ensures r + 1 == Pow2(zoom)
  {
    Pow2Monotone(zoom, 31);
    Pow2Values();
    var shifted: u32 := Pow2(zoom);
    SaturatingSub(shifted, 1)
  }

  /** `u32::saturating_sub`. */
  function SaturatingSub(a: u32, b: u32): (r: u32)
    ensures a >= b ==> r + b == a
    ensures a < b ==> r == 0
  {
    if a >= b then a - b else 0
  }

  /** `r` is the tile index a real index clamps to on `0..=maxIndex`: the
      floor of an index inside the range, 0 for a negative index, -inf or NaN,
      and `maxIndex` for an index at or beyond it or +inf. The cases cover
      every double, so at most one `r` satisfies it. */
  predicate ClampsTo(index: F64, maxIndex: int, r: int)
  {
    && 0 <= r <= maxIndex
    && (index.Num? && 0.0 <= index.value && index.value.Floor <= maxIndex ==> r == index.value.Floor)
    && (index.Num? && index.value < 0.0 ==> r == 0)
    && (index.Num? && index.value >= maxIndex as real ==> r == maxIndex)
    && (index.Infinity? ==> r == maxIndex)
    && (index.NegInfinity? || index.NaN? ==> r == 0)
  }

  /** The integer clamp applied to one real index:
      `index.floor().max(0.0) as u32`, then `.min(max_tile_index)`. */
  function ClampTileIndex(index: F64, maxIndex: u32): (r: u32)
    ensures ClampsTo(index, maxIndex, r)
  {
    var t := ToU32(MaxZero(Floor(index)));
    if t < maxIndex then t else maxIndex
  }

  /** A larger real index never yields a smaller tile index. */
  lemma ClampTileIndexMonotone(a: F64, b: F64, maxIndex: u32)
    requires LessEq(a, b)
    ensures ClampTileIndex(a, maxIndex) <= ClampTileIndex(b, maxIndex)
  {
  }

  /** `latlon_to_tile_xy`: it never returns `None`; x is the clamp of the
      projected x index of the longitude and y the clamp of the projected
      y index of the clamped latitude, both onto the `2^zoom` by `2^zoom`
      grid. */
  function LatLonToTileXY(lat: F64, lon: F64, zoom: nat, proj: Projection): (r: Option<(u32, u32)>)
    requires zoom <= 31
    ensures r.Some?
    ensures ClampsTo(proj.xIndex(lon, zoom), Pow2(zoom) - 1, r.value.0)
    ensures ClampsTo(proj.yIndex(ClampLatitude(lat), zoom), Pow2(zoom) - 1, r.value.1)
    ensures r.value.0 < Pow2(zoom) && r.value.1 < Pow2(zoom)
    ensures zoom == 0 ==> r.value == (0, 0)
  {
    var latClamped := ClampLatitude(lat);
    var tileX := proj.xIndex(lon, zoom);
    var tileY := proj.yIndex(latClamped, zoom);
    var maxIndex := MaxTileIndex(zoom);
    Some((ClampTileIndex(tileX, maxIndex), ClampTileIndex(tileY, maxIndex)))
  }

  /** Only the clamped latitude reaches the projection: a latitude and its
      clamp give the same tile, so every latitude beyond the bound lands in
      the same row as the bound itself. */
  lemma LatitudeClampedBeforeProjection(lat: F64, lon: F64, zoom: nat, proj: Projection)
    requires zoom <= 31
    ensures LatLonToTileXY(lat, lon, zoom, proj) == LatLonToTileXY(ClampLatitude(lat), lon, zoom, proj)
    ensures (lat.Num? && lat.value > MAX_LATITUDE) || lat.Infinity? ==>
      LatLonToTileXY(lat, lon, zoom, proj) == LatLonToTileXY(Num(MAX_LATITUDE), lon, zoom, proj)
    ensures (lat.Num? && lat.value < -MAX_LATITUDE) || lat.NegInfinity? ==>
      LatLonToTileXY(lat, lon, zoom, proj) == LatLonToTileXY(Num(-MAX_LATITUDE), lon, zoom, proj)
  {
    ClampLatitudeIdempotent(lat);
  }

  /** Moving east in projected x never moves the tile west: a larger x
      index gives an x tile index at least as large, whatever the latitude. */
  lemma TileXMonotone(lat: F64, lon1: F64, lon2: F64, zoom: nat, proj: Projection)
    requires zoom <= 31
    requires LessEq(proj.xIndex(lon1, zoom), proj.xIndex(lon2, zoom))
    ensures LatLonToTileXY(lat, lon1, zoom, proj).value.0 <= LatLonToTileXY(lat, lon2, zoom, proj).value.0
  {
    ClampTileIndexMonotone(proj.xIndex(lon1, zoom), proj.xIndex(lon2, zoom), MaxTileIndex(zoom));
  }

  /** Likewise in y: a larger y index of the clamped latitude gives a y tile
      index at least as large, whatever the longitude. */
  lemma TileYMonotone(lat1: F64, lat2: F64, lon: F64, zoom: nat, proj: Projection)
    requires zoom <= 31
    requires LessEq(proj.yIndex(ClampLatitude(lat1), zoom), proj.yIndex(ClampLatitude(lat2), zoom))
    ensures LatLonToTileXY(lat1, lon, zoom, proj).value.1 <= LatLonToTileXY(lat2, lon, zoom, proj).value.1
  {
    ClampTileIndexMonotone(proj.yIndex(ClampLatitude(lat1), zoom), proj.yIndex(ClampLatitude(lat2), zoom), MaxTileIndex(zoom));
  }

}
