/** `to_spatial_id_str`: the positional `/zoom/floor/x/y` identifier, and a
    parser that reads it back. */
module SpatialId {
  import opened Widths
  import opened Optional
  import opened Decimal
  import opened Cell

  /** `format!("/{}/{}/{}/{}", zoom, floor, x, y)`. */
  function ToSpatialIdStr(t: Zfxy): (s: string)
    ensures |s| >= 8 && s[0] == '/'
  {
    "/" + (NatStr(t.zoom) + "/" + IntStr(t.floor) + "/" + NatStr(t.x) + "/" + NatStr(t.y))
  }

  /** The fields of `s` between occurrences of `sep`; there is always at
      least one field. */
  function Split(s: string, sep: char): (fields: seq<string>)
    ensures |fields| >= 1
    decreases |s|
  {
    if |s| == 0 then [""]
    else
      var rest := Split(s[1..], sep);
      if s[0] == sep then [""] + rest
      else [[s[0]] + rest[0]] + rest[1..]
  }

  /** Reads a `/zoom/floor/x/y` identifier; `None` unless there are exactly
      four decimal fields whose values fit the tile's integer types. */
  function ParseSpatialId(s: string): (r: Option<Zfxy>)
    ensures r.Some? ==> |s| > 0 && s[0] == '/'
  {
    if |s| == 0 || s[0] != '/' then None
    else
      var fields := Split(s[1..], '/');
      if |fields| != 4 then None
      else
        match (ParseNat(fields[0]), ParseInt(fields[1]), ParseNat(fields[2]), ParseNat(fields[3]))
        case (Some(zoom), Some(floor), Some(x), Some(y)) =>
          if zoom < U8_LIMIT && I32_MIN <= floor <= I32_MAX && x < U32_LIMIT && y < U32_LIMIT
          then Some(Zfxy(zoom, floor, x, y))
          else None
        case _ => None
  }

  lemma {:induction false} SplitNoSeparator(a: string, sep: char)
    requires sep !in a
    ensures Split(a, sep) == [a]
    decreases |a|
  {
    if |a| > 0 {
      SplitNoSeparator(a[1..], sep);
      assert [a[0]] + a[1..] == a;
    }
  }

  /** A last field free of the separator splits off as the last field. */
  lemma {:induction false} SplitLastField(a: string, sep: char, b: string)
    requires sep !in b
    ensures Split(a + [sep] + b, sep) == Split(a, sep) + [b]
    decreases |a|
  {
    var s := a + [sep] + b;
    if |a| == 0 {
      assert s == [sep] + b;
      assert s[1..] == b;
      SplitNoSeparator(b, sep);
    } else {
      assert s[1..] == a[1..] + [sep] + b;
      SplitLastField(a[1..], sep, b);
    }
  }

  lemma NoSlashInNumerals(n: nat, i: int)
    ensures '/' !in NatStr(n)
    ensures '/' !in IntStr(i)
  {
    var s := NatStr(n);
    assert forall k :: 0 <= k < |s| ==> IsDigit(s[k]);
    var u := IntStr(i);
    if i < 0 {
      assert u == "-" + NatStr(-i);
      var v := NatStr(-i);
      assert forall k :: 0 <= k < |v| ==> IsDigit(v[k]);
    }
  }

  /** The identifier splits at its slashes into the four numerals. */
  lemma SplitSpatialId(t: Zfxy)
    ensures Split(ToSpatialIdStr(t)[1..], '/') == [NatStr(t.zoom), IntStr(t.floor), NatStr(t.x), NatStr(t.y)]
  {
    var z, f, x, y := NatStr(t.zoom), IntStr(t.floor), NatStr(t.x), NatStr(t.y);
    NoSlashInNumerals(t.zoom, t.floor);
    NoSlashInNumerals(t.x, 0);
    NoSlashInNumerals(t.y, 0);
    var body := z + "/" + f + "/" + x + "/" + y;
    assert ("/" + body)[1..] == body;
    SplitNoSeparator(z, '/');
    SplitLastField(z, '/', f);
    SplitLastField(z + "/" + f, '/', x);
    SplitLastField(z + "/" + f + "/" + x, '/', y);
  }

  /** Parsing an identifier recovers the tile it was made from, so distinct
      tiles have distinct identifiers. */
  lemma ParseToSpatialIdStr(t: Zfxy)
    ensures ParseSpatialId(ToSpatialIdStr(t)) == Some(t)
  {
    var z, f, x, y := NatStr(t.zoom), IntStr(t.floor), NatStr(t.x), NatStr(t.y);
    SplitSpatialId(t);
    assert ParseNat(z) == Some(t.zoom as nat) by {
      ParseNatStr(t.zoom);
    }
    assert ParseInt(f) == Some(t.floor as int) by {
      ParseIntStr(t.floor);
    }
    assert ParseNat(x) == Some(t.x as nat) by {
      ParseNatStr(t.x);
    }
    assert ParseNat(y) == Some(t.y as nat) by {
      ParseNatStr(t.y);
    }
  }

  lemma SpatialIdInjective(a: Zfxy, b: Zfxy)
    requires ToSpatialIdStr(a) == ToSpatialIdStr(b)
    ensures a == b
  {
    ParseToSpatialIdStr(a);
    ParseToSpatialIdStr(b);
  }

}
