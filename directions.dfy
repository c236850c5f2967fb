/** The direction table LL2Vec3_Table: sine and cosine of the longitude of every
    (column, sub-column) and of the latitude of every (row, sub-row) of an
    output grid, so that a sub-pixel's direction needs no trigonometry. */
module Directions {
  import opened LinAlg
  import Raster

  datatype DirectionTable = DirectionTable(
    sinLat: seq<real>, sinLong: seq<real>, cosLat: seq<real>, cosLong: seq<real>,
    width: nat, height: nat, subpixels: nat)

  /** The sizes for which construction divides by no zero: the divisions by
      subpixels - 1, width - 1 and height - 1 all run with a non-zero divisor. */
  predicate Buildable(w: nat, h: nat, s: nat)
  {
    w != 1 && h != 1 && s != 1
  }

  /** Sub-pixel coordinate of sample `sub` of pixel p: p + sub/(s-1) - 0.5. */
  function SubpixelOffset(p: nat, sub: nat, s: nat): real
    requires s != 1
  {
    p as real + 1.0 / (s as real - 1.0) * sub as real - 0.5
  }

  /** The sub-samples of a pixel run from p - 0.5 at the first to p + 0.5 at the last. */
  lemma SubpixelSpan(p: nat, s: nat)
    requires 2 <= s
    ensures SubpixelOffset(p, 0, s) == p as real - 0.5
    ensures SubpixelOffset(p, s - 1, s) == p as real + 0.5
  {
    var d := s as real - 1.0;
    assert 1.0 / d * (s - 1) as real == 1.0 by {
      assert (s - 1) as real == d;
    }
  }

  /** Longitude of sub-column `sub` of column x in a grid w wide. */
  function Longitude(x: nat, sub: nat, w: nat, s: nat): real
    requires s != 1 && w != 1
  {
    SubpixelOffset(x, sub, s) / (w as real - 1.0) * 2.0 * PI
  }

  /** Latitude of sub-row `sub` of row y in a grid h high. */
  function Latitude(y: nat, sub: nat, h: nat, s: nat): real
    requires s != 1 && h != 1
  {
    PI / 2.0 - SubpixelOffset(y, sub, s) / (h as real - 1.0) * PI
  }

  /** Longitude stored at flat position i = x*s + sub. */
  function ColumnAngle(i: int, w: nat, s: nat): real
    requires 0 <= i && s != 1 && w != 1
  {
    if s == 0 then 0.0 else Longitude(i / s, i % s, w, s)
  }

  /** Latitude stored at flat position i = y*s + sub. */
  function RowAngle(i: int, h: nat, s: nat): real
    requires 0 <= i && s != 1 && h != 1
  {
    if s == 0 then 0.0 else Latitude(i / s, i % s, h, s)
  }

  /** Flat position x*s + sub holds the longitude of sub-column sub of column x. */
  lemma ColumnAngleAt(x: nat, sub: nat, w: nat, s: nat)
    requires sub < s && w != 1 && s != 1
    ensures ColumnAngle(x * s + sub, w, s) == Longitude(x, sub, w, s)
  {
    Raster.FlatIndexInverse(s, sub, x);
    assert Raster.FlatIndex(s, sub, x) == x * s + sub;
  }

  /** Flat position y*s + sub holds the latitude of sub-row sub of row y. */
  lemma RowAngleAt(y: nat, sub: nat, h: nat, s: nat)
    requires sub < s && h != 1 && s != 1
    ensures RowAngle(y * s + sub, h, s) == Latitude(y, sub, h, s)
  {
    Raster.FlatIndexInverse(s, sub, y);
    assert Raster.FlatIndex(s, sub, y) == y * s + sub;
  }

  /** The table that construction produces, as a reference definition. */
  function TableOf(w: nat, h: nat, s: nat, libm: Libm): DirectionTable
    requires Buildable(w, h, s)
  {
    DirectionTable(
      seq(h * s, i requires 0 <= i => libm.sin(RowAngle(i, h, s))),
      seq(w * s, i requires 0 <= i => libm.sin(ColumnAngle(i, w, s))),
      seq(h * s, i requires 0 <= i => libm.cos(RowAngle(i, h, s))),
      seq(w * s, i requires 0 <= i => libm.cos(ColumnAngle(i, w, s))),
      w, h, s)
  }

  /** The LL2Vec3_Table constructor: the longitude entries, then the latitude entries. */
  method Build(w: nat, h: nat, s: nat, libm: Libm) returns (t: DirectionTable)
    requires Buildable(w, h, s)
    ensures t == TableOf(w, h, s, libm)
    ensures |t.sinLong| == |t.cosLong| == w * s && |t.sinLat| == |t.cosLat| == h * s
  {
    var sinLong, cosLong := BuildLongitudes(w, s, libm);
    var sinLat, cosLat := BuildLatitudes(h, s, libm);
    t := DirectionTable(sinLat, sinLong, cosLat, cosLong, w, h, s);
  }

  /** t holds trig of the stored longitude at each of its positions. */
  predicate ColumnEntries(t: seq<real>, trig: real -> real, w: nat, s: nat)
    requires w != 1 && s != 1
  {
    forall i :: 0 <= i < |t| ==> t[i] == trig(ColumnAngle(i, w, s))
  }

  /** t holds trig of the stored latitude at each of its positions. */
  predicate RowEntries(t: seq<real>, trig: real -> real, h: nat, s: nat)
    requires h != 1 && s != 1
  {
    forall i :: 0 <= i < |t| ==> t[i] == trig(RowAngle(i, h, s))
  }

  /** Pushing the entry of sub-column sub of column x at position x*s + sub keeps ColumnEntries. */
  lemma PushColumnEntry(t: seq<real>, trig: real -> real, w: nat, s: nat, x: nat, sub: nat)
    requires w != 1 && s != 1 && sub < s
    requires ColumnEntries(t, trig, w, s) && |t| == x * s + sub
    ensures ColumnEntries(t + [trig(Longitude(x, sub, w, s))], trig, w, s)
  {
    ColumnAngleAt(x, sub, w, s);
  }

  /** Pushing the entry of sub-row sub of row y at position y*s + sub keeps RowEntries. */
  lemma PushRowEntry(t: seq<real>, trig: real -> real, h: nat, s: nat, y: nat, sub: nat)
    requires h != 1 && s != 1 && sub < s
    requires RowEntries(t, trig, h, s) && |t| == y * s + sub
    ensures RowEntries(t + [trig(Latitude(y, sub, h, s))], trig, h, s)
  {
    RowAngleAt(y, sub, h, s);
  }

  /** Two nested loops push the sine and cosine of every sub-column longitude. */
  method BuildLongitudes(w: nat, s: nat, libm: Libm) returns (sinLong: seq<real>, cosLong: seq<real>)
    requires w != 1 && s != 1
    ensures sinLong == seq(w * s, i requires 0 <= i => libm.sin(ColumnAngle(i, w, s)))
    ensures cosLong == seq(w * s, i requires 0 <= i => libm.cos(ColumnAngle(i, w, s)))
  {
    sinLong, cosLong := [], [];
    for x := 0 to w
      invariant |sinLong| == |cosLong| == x * s
      invariant ColumnEntries(sinLong, libm.sin, w, s) && ColumnEntries(cosLong, libm.cos, w, s)
    {
      for sub := 0 to s
        invariant |sinLong| == |cosLong| == x * s + sub
        invariant ColumnEntries(sinLong, libm.sin, w, s) && ColumnEntries(cosLong, libm.cos, w, s)
      {
        var long := Longitude(x, sub, w, s);
        PushColumnEntry(sinLong, libm.sin, w, s, x, sub);
        PushColumnEntry(cosLong, libm.cos, w, s, x, sub);
        sinLong := sinLong + [libm.sin(long)];
        cosLong := cosLong + [libm.cos(long)];
      }
      assert x * s + s == (x + 1) * s;
    }
  }

  /** Two nested loops push the sine and cosine of every sub-row latitude. */
  method BuildLatitudes(h: nat, s: nat, libm: Libm) returns (sinLat: seq<real>, cosLat: seq<real>)
    requires h != 1 && s != 1
    ensures sinLat == seq(h * s, i requires 0 <= i => libm.sin(RowAngle(i, h, s)))
    ensures cosLat == seq(h * s, i requires 0 <= i => libm.cos(RowAngle(i, h, s)))
  {
    sinLat, cosLat := [], [];
    for y := 0 to h
      invariant |sinLat| == |cosLat| == y * s
      invariant RowEntries(sinLat, libm.sin, h, s) && RowEntries(cosLat, libm.cos, h, s)
    {
      for sub := 0 to s
        invariant |sinLat| == |cosLat| == y * s + sub
        invariant RowEntries(sinLat, libm.sin, h, s) && RowEntries(cosLat, libm.cos, h, s)
      {
        var lat := Latitude(y, sub, h, s);
        PushRowEntry(sinLat, libm.sin, h, s, y, sub);
        PushRowEntry(cosLat, libm.cos, h, s, y, sub);
        sinLat := sinLat + [libm.sin(lat)];
        cosLat := cosLat + [libm.cos(lat)];
      }
      assert y * s + s == (y + 1) * s;
    }
  }

  /** Whether (x, subX, y, subY) addresses stored entries of t. */
  predicate Addressable(t: DirectionTable, x: nat, subX: nat, y: nat, subY: nat)
  {
    && Raster.FlatIndex(t.subpixels, subX, x) < |t.cosLong|
    && Raster.FlatIndex(t.subpixels, subX, x) < |t.sinLong|
    && Raster.FlatIndex(t.subpixels, subY, y) < |t.cosLat|
    && Raster.FlatIndex(t.subpixels, subY, y) < |t.sinLat|
  }

  /** LL2Vec3_Table::lookup: combine the stored column and row entries into a direction. */
  function Lookup(t: DirectionTable, x: nat, subX: nat, y: nat, subY: nat): Vec3
    requires Addressable(t, x, subX, y, subY)
  {
    var long := Raster.FlatIndex(t.subpixels, subX, x);
    var lat := Raster.FlatIndex(t.subpixels, subY, y);
    Vec3(t.cosLong[long] * t.cosLat[lat], t.sinLong[long] * t.cosLat[lat], t.sinLat[lat])
  }

  /** Every pixel and sub-sample of the grid the table was built for is addressable. */
  lemma LookupInBounds(w: nat, h: nat, s: nat, libm: Libm, x: nat, subX: nat, y: nat, subY: nat)
    requires Buildable(w, h, s)
    requires x < w && y < h && subX < s && subY < s
    ensures Addressable(TableOf(w, h, s, libm), x, subX, y, subY)
  {
    Raster.FlatIndexInGrid(s, w, subX, x);
    Raster.FlatIndexInGrid(s, h, subY, y);
  }

  /** A lookup whose four entries are the sines and cosines of lat and long
      is the direction latlong_to_vec3 gives for (lat, long). */
  lemma LookupOfAngles(t: DirectionTable, x: nat, subX: nat, y: nat, subY: nat,
                       lat: real, long: real, libm: Libm)
    requires Addressable(t, x, subX, y, subY)
    requires t.cosLong[Raster.FlatIndex(t.subpixels, subX, x)] == libm.cos(long)
    requires t.sinLong[Raster.FlatIndex(t.subpixels, subX, x)] == libm.sin(long)
    requires t.cosLat[Raster.FlatIndex(t.subpixels, subY, y)] == libm.cos(lat)
    requires t.sinLat[Raster.FlatIndex(t.subpixels, subY, y)] == libm.sin(lat)
    ensures Lookup(t, x, subX, y, subY) == LatLongToVec3(LatLong(lat, long), libm)
  {
  }

  /** The direction of sub-pixel (subX, subY) of pixel (x, y). */
  function Direction(w: nat, h: nat, s: nat, x: nat, subX: nat, y: nat, subY: nat, libm: Libm): Vec3
    requires s != 1 && w != 1 && h != 1
  {
    LatLongToVec3(LatLong(Latitude(y, subY, h, s), Longitude(x, subX, w, s)), libm)
  }

  /** A lookup gives exactly the direction latlong_to_vec3 computes for that
      sub-pixel's latitude and longitude. */
  lemma LookupIsDirection(w: nat, h: nat, s: nat, libm: Libm, x: nat, subX: nat, y: nat, subY: nat)
    requires Buildable(w, h, s)
    requires x < w && y < h && subX < s && subY < s
    ensures Addressable(TableOf(w, h, s, libm), x, subX, y, subY)
    ensures Lookup(TableOf(w, h, s, libm), x, subX, y, subY) == Direction(w, h, s, x, subX, y, subY, libm)
  {
    LookupInBounds(w, h, s, libm, x, subX, y, subY);
    var t := TableOf(w, h, s, libm);
    var long, lat := Raster.FlatIndex(s, subX, x), Raster.FlatIndex(s, subY, y);
    ColumnAngleAt(x, subX, w, s);
    RowAngleAt(y, subY, h, s);
    var lo, la := Longitude(x, subX, w, s), Latitude(y, subY, h, s);
    assert t.cosLong[long] == libm.cos(lo);
    assert t.sinLong[long] == libm.sin(lo);
    assert t.cosLat[lat] == libm.cos(la);
    assert t.sinLat[lat] == libm.sin(la);
    LookupOfAngles(t, x, subX, y, subY, la, lo, libm);
  }
}
