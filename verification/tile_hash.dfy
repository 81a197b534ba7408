/** `to_tile_hash`: the octree path from the root down to a tile, one digit
    `1`..`8` per zoom level, with a single leading `-` for a negative floor. */
module PathHash {
  import opened Widths
  import opened Optional
  import opened Decimal
  import opened Cell

  predicate IsHashDigit(c: char)
  {
    '1' <= c <= '8'
  }

  predicate AllHashDigits(s: string)
  {
    forall i :: 0 <= i < |s| ==> IsHashDigit(s[i])
  }

  /** `iter().position(|c| c == t)`: the first index holding `t`. */
  function Position(s: seq<Zfxy>, t: Zfxy): (r: Option<nat>)
    ensures r.None? <==> t !in s
    ensures r.Some? ==> r.value < |s| && s[r.value] == t && t !in s[..r.value]
    decreases |s|
  {
    if |s| == 0 then None
    else if s[0] == t then Some(0)
    else
      match Position(s[1..], t)
      case None => None
      case Some(i) =>
        assert s[..i + 1] == [s[0]] + s[1..][..i];
        Some(i + 1)
  }

  /** The digit path of a tile with a non-negative floor: its parent's path
      followed by the 1-based octant of the tile among the parent's children. */
  function HashPath(t: Zfxy): (s: string)
    requires t.floor >= 0
    ensures |s| == t.zoom && AllHashDigits(s)
    decreases t.zoom
  {
    if t.zoom == 0 then ""
    else HashPath(GetParent(t).value) + [DigitChar(Octant(t) + 1)]
  }

  /** The hash of any tile: empty at zoom 0 whatever the floor; otherwise the
      digit path of the floor's magnitude, behind a `-` for a negative floor. */
  function TileHash(t: Zfxy): string
    requires t.zoom > 0 ==> t.floor != I32_MIN
  {
    if t.zoom == 0 then ""
    else if t.floor < 0 then "-" + HashPath(Unsigned(t))
    else HashPath(Unsigned(t))
  }

  /** The shape of a hash: `zoom` digits `1`..`8`, behind one `-` exactly
      when the floor is negative and the zoom is not 0. */
  lemma TileHashShape(t: Zfxy)
    requires t.zoom > 0 ==> t.floor != I32_MIN
    ensures |TileHash(t)| == if t.zoom > 0 && t.floor < 0 then t.zoom + 1 else t.zoom as int
    ensures forall i :: 0 <= i < |TileHash(t)| ==>
      IsHashDigit(TileHash(t)[i]) || (i == 0 && TileHash(t)[i] == '-')
    ensures |TileHash(t)| > 0 && TileHash(t)[0] == '-' <==> t.zoom > 0 && t.floor < 0
  {
    if t.zoom > 0 {
      var h := HashPath(Unsigned(t));
      assert |h| > 0 && IsHashDigit(h[0]);
      if t.floor < 0 {
        assert TileHash(t) == "-" + h;
        assert forall i :: 1 <= i < |TileHash(t)| ==> TileHash(t)[i] == h[i - 1];
      }
    }
  }

  lemma ConcatAssociative(a: string, b: string, c: string)
    ensures (a + b) + c == a + (b + c)
  {
  }

  /** One iteration of `to_tile_hash`: the parent can branch, the search
      finds the tile at its octant, and the digit written extends the
      parent's path to the tile's. */
  lemma ClimbOneLevel(t: Zfxy)
    requires t.zoom > 0 && t.floor >= 0
    ensures CanBranch(GetParent(t).value)
    ensures Position(GetChildren(GetParent(t).value), t) == Some(Octant(t))
    ensures HashPath(t) == HashPath(GetParent(t).value) + NatStr(Octant(t) + 1)
  {
    ChildOfParent(t);
  }

  /** `to_tile_hash`, as the source computes it: climb to the root, find the
      current tile among its parent's children by search, prepend that
      position plus one. Both the `expect` and the `panic!` of the source are
      `.value` accesses here, so their unreachability is proved. */
  method ToTileHash(t: Zfxy) returns (out: string)
    requires t.zoom > 0 ==> t.floor != I32_MIN
    ensures out == TileHash(t)
    ensures |out| == if t.zoom > 0 && t.floor < 0 then t.zoom + 1 else t.zoom as int
    ensures forall i :: 0 <= i < |out| ==> IsHashDigit(out[i]) || (i == 0 && out[i] == '-')
  {
    if t.zoom == 0 {
      return "";
    }
    var originalFloorSign := t.floor < 0;
    var current := Zfxy(t.zoom, Abs(t.floor), t.x, t.y);
    out := "";
    while current.zoom > 0
      invariant current.floor >= 0
      invariant HashPath(Unsigned(t)) == HashPath(current) + out
      decreases current.zoom
    {
      ClimbOneLevel(current);
      var parent := GetParent(current).value;
      var childrenOfParent := GetChildren(parent);
      var index := Position(childrenOfParent, current).value;
      ConcatAssociative(HashPath(parent), NatStr(index + 1), out);
      out := NatStr(index + 1) + out;
      current := parent;
    }
    assert out == HashPath(Unsigned(t)) by {
      assert HashPath(current) == "";
    }
    if originalFloorSign {
      out := "-" + out;
    }
    TileHashShape(t);
  }

  /** Replays a digit path from the root tile: digit `d` selects child
      `d - 1` of `get_children`. */
  function Decode(digits: string): (t: Zfxy)
    requires |digits| <= 31 && AllHashDigits(digits)
    ensures t.zoom == |digits| && t.floor >= 0
    ensures t.x < Pow2(|digits|) && t.y < Pow2(|digits|) && t.floor < Pow2(|digits|)
    ensures |digits| < 31 ==> CanBranch(t)
    decreases |digits|
  {
    if |digits| == 0 then Zfxy(0, 0, 0, 0)
    else
      var n := |digits| - 1;
      var p := Decode(digits[..n]);
      Pow2Monotone(n, 30);
      Pow2Values();
      var bounded := if |digits| <= 30 then |digits| else 30;
      Pow2Monotone(bounded, 30);
      GetChildren(p)[digits[n] as int - '1' as int]
  }

  lemma {:induction false} MulAtLeast(d: nat, j: nat)
    requires j >= 1
    ensures d * j >= d
    decreases j
  {
    if j > 1 {
      MulAtLeast(d, j - 1);
      assert d * j == d * (j - 1) + d;
    }
  }

  /** One step of `Decode`: appending a digit selects that child of the
      tile the shorter string decodes to. */
  lemma DecodeStep(digits: string, digit: char, extended: string, child: Zfxy)
    requires |digits| < 31 && AllHashDigits(digits) && IsHashDigit(digit)
    requires extended == digits + [digit]
    requires child == GetChildren(Decode(digits))[digit as int - '1' as int]
    ensures AllHashDigits(extended)
    ensures Decode(extended) == child
  {
    assert extended[..|digits|] == digits;
  }

  /** Division and remainder are determined by any decomposition
      `x == d * k + r` with `0 <= r < d`. */
  lemma {:induction false} DivModUnique(x: int, d: int, k: int, r: int)
    requires d > 0 && 0 <= r < d && x == d * k + r
    ensures x / d == k && x % d == r
  {
    var q, s := x / d, x % d;
    assert x == d * q + s;
    assert d * (q - k) == r - s;
    if q > k {
      MulAtLeast(d, q - k);
    } else if q < k {
      MulAtLeast(d, k - q);
    }
  }

  /** The low bit and the halved remainder rebuild the remainder modulo the
      doubled modulus. */
  lemma {:induction false} HalfMod(x: nat, m: nat)
    requires m >= 1
    ensures 2 * ((x / 2) % m) + x % 2 == x % (2 * m)
  {
    var q := x / 2;
    var k := q / m;
    assert x == 2 * m * k + (2 * (q % m) + x % 2);
    DivModUnique(x, 2 * m, k, 2 * (q % m) + x % 2);
  }

  /** One decoding step: the child selected by a tile's octant, taken from
      a parent holding the halved coordinates modulo `m`, holds the tile's
      coordinates modulo `2 * m`. */
  lemma ChildRemainders(t: Zfxy, d: Zfxy, m: nat)
    requires t.floor >= 0 && m >= 1 && CanBranch(d)
    requires d.x == (t.x / 2) % m && d.y == (t.y / 2) % m && d.floor == (t.floor / 2) % m
    ensures GetChildren(d)[Octant(t)].x == t.x % (2 * m)
    ensures GetChildren(d)[Octant(t)].y == t.y % (2 * m)
    ensures GetChildren(d)[Octant(t)].floor == t.floor % (2 * m)
  {
    OctantBits(t);
    HalfMod(t.x, m);
    HalfMod(t.y, m);
    HalfMod(t.floor, m);
  }

  /** Replaying a tile's digit path from the root recovers its x, y and floor
      modulo `2^zoom`: the path records exactly the low `zoom` bits of each. */
  lemma {:induction false} DecodeHashPath(t: Zfxy)
    requires t.floor >= 0 && t.zoom <= 31
    ensures Decode(HashPath(t)).zoom == t.zoom
    ensures Decode(HashPath(t)).floor == t.floor % Pow2(t.zoom)
    ensures Decode(HashPath(t)).x == t.x % Pow2(t.zoom)
    ensures Decode(HashPath(t)).y == t.y % Pow2(t.zoom)
    decreases t.zoom
  {
    if t.zoom > 0 {
      var p := GetParent(t).value;
      var s := HashPath(t);
      var n := |s| - 1;
      var o := Octant(t);
      assert s[..n] == HashPath(p) && s[n] as int - '1' as int == o by {
        assert s == HashPath(p) + [DigitChar(o + 1)];
      }
      DecodeHashPath(p);
      var m := Pow2(p.zoom);
      var d := Decode(s[..n]);
      Pow2Monotone(n, 30);
      Pow2Values();
      assert Decode(s) == GetChildren(d)[o];
      ChildRemainders(t, d, m);
    }
  }

  lemma LastSplit<T>(s: seq<T>)
    requires |s| > 0
    ensures s[..|s| - 1] + [s[|s| - 1]] == s
  {
  }

  /** The digit path of the tile a digit string decodes to is that string:
      digit strings of length `zoom` and tiles of that zoom with coordinates
      below `2^zoom` are in bijection. */
  lemma {:induction false} HashPathDecode(digits: string)
    requires |digits| <= 31 && AllHashDigits(digits)
    ensures HashPath(Decode(digits)) == digits
    decreases |digits|
  {
    if |digits| > 0 {
      var n := |digits| - 1;
      var p := Decode(digits[..n]);
      HashPathDecode(digits[..n]);
      var i := digits[n] as int - '1' as int;
      var c := GetChildren(p)[i];
      assert Decode(digits) == c;
      assert GetParent(c) == Some(p) && Octant(c) == i by {
        ParentOfChild(p, i);
        assert Unsigned(p) == p;
      }
      assert DigitChar(i + 1) == digits[n];
      calc {
        HashPath(c);
        HashPath(GetParent(c).value) + [DigitChar(Octant(c) + 1)];
        HashPath(p) + [DigitChar(i + 1)];
        digits[..n] + [digits[n]];
        { LastSplit(digits); }
        digits;
      }
    }
  }

  /** For a tile whose x, y and floor magnitude fit in `zoom` bits, the hash
      digits decode back to `(x, y, |floor|)`. */
  lemma DecodeRecoversTile(t: Zfxy)
    requires t.zoom <= 31 && t.floor != I32_MIN
    requires t.x < Pow2(t.zoom) && t.y < Pow2(t.zoom) && Abs(t.floor) < Pow2(t.zoom)
    ensures Decode(HashPath(Unsigned(t))) == Unsigned(t)
  {
    var u := Unsigned(t);
    var m := Pow2(t.zoom);
    DecodeHashPath(u);
    DivModUnique(u.x, m, 0, u.x);
    DivModUnique(u.y, m, 0, u.y);
    DivModUnique(u.floor, m, 0, u.floor);
  }

  /** Tiles that differ only in the sign of their floor get hashes that
      differ only in the leading `-`. */
  lemma SignOnlyPrefix(t: Zfxy)
    requires t.zoom > 0 && t.floor > 0
    ensures TileHash(t.(floor := -t.floor)) == "-" + TileHash(t)
  {
  }

  /** Above zoom 0, on tiles whose coordinates fit in `zoom` bits, the hash
      identifies the tile: equal hashes mean equal tiles. */
  lemma TileHashInjective(a: Zfxy, b: Zfxy)
    requires 0 < a.zoom <= 31 && a.floor != I32_MIN
    requires a.x < Pow2(a.zoom) && a.y < Pow2(a.zoom) && Abs(a.floor) < Pow2(a.zoom)
    requires 0 < b.zoom <= 31 && b.floor != I32_MIN
    requires b.x < Pow2(b.zoom) && b.y < Pow2(b.zoom) && Abs(b.floor) < Pow2(b.zoom)
    requires TileHash(a) == TileHash(b)
    ensures a == b
  {
    var ha, hb := HashPath(Unsigned(a)), HashPath(Unsigned(b));
    assert a.floor < 0 <==> b.floor < 0 by {
      assert |ha| > 0 && ha[0] != '-';
      assert |hb| > 0 && hb[0] != '-';
    }
    if a.floor < 0 {
      assert TileHash(a)[1..] == ha;
      assert TileHash(b)[1..] == hb;
    }
    DecodeRecoversTile(a);
    DecodeRecoversTile(b);
  }

}
