/** The remapping passes: every output pixel of an equirectangular panorama is
    the filtered sum of bilinear samples of the source panorama, taken in the
    directions the rotation matrix sends the output's sub-pixel directions to. */
module Remap {
  import opened Colour
  import opened LinAlg
  import Raster
  import Sampling
  import Directions

  /** The sub-sample counts XSAMPS and YSAMPS of remap_full3. */
  const XSamples: nat := 9
  const YSamples: nat := 9

  /** The filter width s that remap_full3 takes when its caller gives none,
      as main does. */
  const DefaultSigma: real := 0.4

  /** The left-to-right running sum `sum += v[i]`. */
  function Sum(v: seq<real>): real
  {
    if |v| == 0 then 0.0 else Sum(v[..|v| - 1]) + v[|v| - 1]
  }

  /** A sum of positive terms is positive. */
  lemma {:induction false} SumPositive(v: seq<real>)
    requires 0 < |v|
    requires forall i :: 0 <= i < |v| ==> 0.0 < v[i]
    ensures 0.0 < Sum(v)
  {
    if 1 < |v| {
      SumPositive(v[..|v| - 1]);
    } else {
      assert v[..0] == [];
    }
  }

  /** Dividing every term by d divides the sum by d. */
  lemma {:induction false} SumDivided(v: seq<real>, w: seq<real>, d: real)
    requires d != 0.0 && |v| == |w|
    requires forall i :: 0 <= i < |v| ==> w[i] == v[i] / d
    ensures Sum(w) == Sum(v) / d
  {
    if |v| != 0 {
      var n := |v| - 1;
      SumDivided(v[..n], w[..n], d);
      assert Sum(w) == Sum(v[..n]) / d + v[n] / d;
      assert Sum(v[..n]) / d + v[n] / d == (Sum(v[..n]) + v[n]) / d;
    }
  }

  /** The exponent -(X*X + Y*Y)/(2s) of filter cell (x, y), with X = x - XSAMPS/2.0
      and Y = y - YSAMPS/2.0. */
  function FilterExponent(x: nat, y: nat, sigma: real): real
    requires sigma != 0.0
  {
    var dx := x as real - XSamples as real / 2.0;
    var dy := y as real - YSamples as real / 2.0;
    -(dx * dx + dy * dy) / (2.0 * sigma)
  }

  /** The unnormalised weight stored at flat position i = XSAMPS*y + x. */
  function RawWeight(i: int, sigma: real, libm: Libm): real
    requires 0 <= i && sigma != 0.0
  {
    libm.ranged.exp(FilterExponent(i % XSamples, i / XSamples, sigma))
  }

  /** Flat position XSAMPS*y + x holds the weight of filter cell (x, y). */
  lemma RawWeightAt(x: nat, y: nat, sigma: real, libm: Libm)
    requires x < XSamples && sigma != 0.0
    ensures RawWeight(XSamples * y + x, sigma, libm) == libm.ranged.exp(FilterExponent(x, y, sigma))
  {
    Raster.FlatIndexInverse(XSamples, x, y);
  }

  /** The first n entries of t are the raw weights. */
  predicate RawPrefix(t: seq<real>, n: nat, sigma: real, libm: Libm)
    requires sigma != 0.0
  {
    n <= |t| && forall i :: 0 <= i < n ==> t[i] == RawWeight(i, sigma, libm)
  }

  /** Writing the weight of cell (x, y) at its flat position extends the raw prefix by one. */
  lemma RawPrefixStep(t: seq<real>, x: nat, y: nat, sigma: real, libm: Libm)
    requires x < XSamples && sigma != 0.0 && XSamples * y + x < |t|
    requires RawPrefix(t, XSamples * y + x, sigma, libm)
    ensures RawPrefix(t[XSamples * y + x := libm.ranged.exp(FilterExponent(x, y, sigma))], XSamples * y + x + 1, sigma, libm)
  {
    RawWeightAt(x, y, sigma, libm);
  }

  /** The table after the fill loop: one exp weight per sub-sample. */
  function RawFilter(sigma: real, libm: Libm): (raw: seq<real>)
    requires sigma != 0.0
    ensures |raw| == XSamples * YSamples
    ensures forall i :: 0 <= i < |raw| ==> 0.0 < raw[i]
  {
    seq(XSamples * YSamples, i requires 0 <= i => RawWeight(i, sigma, libm))
  }

  /** Every weight divided by the sum of all weights. */
  function Normalised(raw: seq<real>): (f: seq<real>)
    requires 0 < |raw| && forall i :: 0 <= i < |raw| ==> 0.0 < raw[i]
    ensures |f| == |raw|
  {
    SumPositive(raw);
    seq(|raw|, i requires 0 <= i < |raw| => raw[i] / Sum(raw))
  }

  /** Normalising positive weights keeps them positive and makes them sum to 1. */
  lemma NormalisedSumsToOne(raw: seq<real>)
    requires 0 < |raw| && forall i :: 0 <= i < |raw| ==> 0.0 < raw[i]
    ensures forall i :: 0 <= i < |raw| ==> 0.0 < Normalised(raw)[i]
    ensures Sum(Normalised(raw)) == 1.0
  {
    var f := Normalised(raw);
    SumPositive(raw);
    var total := Sum(raw);
    forall i | 0 <= i < |f|
      ensures 0.0 < f[i]
    {
      assert f[i] == raw[i] / total;
    }
    SumDivided(raw, f, total);
    assert total / total == 1.0;
  }

  /** The table after normalisation: every raw weight divided by their sum. */
  function FilterTable(sigma: real, libm: Libm): seq<real>
    requires sigma != 0.0
  {
    Normalised(RawFilter(sigma, libm))
  }

  /** The normalised filter has XSAMPS*YSAMPS weights, all positive, summing to 1. */
  lemma FilterIsNormalised(sigma: real, libm: Libm)
    requires sigma != 0.0
    ensures |FilterTable(sigma, libm)| == XSamples * YSamples
    ensures forall i :: 0 <= i < XSamples * YSamples ==> 0.0 < FilterTable(sigma, libm)[i]
    ensures Sum(FilterTable(sigma, libm)) == 1.0
  {
    NormalisedSumsToOne(RawFilter(sigma, libm));
  }

  /** The filter is symmetric under swapping the x and y sub-sample indices. */
  lemma FilterTransposeSymmetric(sigma: real, libm: Libm, x: nat, y: nat)
    requires sigma != 0.0 && x < XSamples && y < YSamples
    ensures FilterTable(sigma, libm)[XSamples * y + x] == FilterTable(sigma, libm)[XSamples * x + y]
  {
    Raster.FlatIndexInverse(XSamples, x, y);
    Raster.FlatIndexInverse(XSamples, y, x);
    assert FilterExponent(x, y, sigma) == FilterExponent(y, x, sigma);
  }

  /** The three loops of remap_full3 that build filter_table: fill it with the
      exp weights, sum them, and divide every entry by the sum. */
  method BuildFilterTable(sigma: real, libm: Libm) returns (filter: seq<real>)
    requires sigma != 0.0
    ensures filter == FilterTable(sigma, libm)
  {
    var table := new real[XSamples * YSamples];
    FillRawWeights(table, sigma, libm);
    NormaliseInPlace(table);
    filter := table[..];
  }

  /** The fill loop: cell (x, y) gets exp(-(X*X + Y*Y)/(2s)) at XSAMPS*y + x. */
  method FillRawWeights(table: array<real>, sigma: real, libm: Libm)
    requires sigma != 0.0 && table.Length == XSamples * YSamples
    modifies table
    ensures table[..] == RawFilter(sigma, libm)
  {
    for y := 0 to YSamples
      invariant RawPrefix(table[..], XSamples * y, sigma, libm)
    {
      for x := 0 to XSamples
        invariant RawPrefix(table[..], XSamples * y + x, sigma, libm)
      {
        var dx := x as real - XSamples as real / 2.0;
        var dy := y as real - YSamples as real / 2.0;
        assert -(dx * dx + dy * dy) / (2.0 * sigma) == FilterExponent(x, y, sigma);
        RawPrefixStep(table[..], x, y, sigma, libm);
        table[XSamples * y + x] := libm.ranged.exp(-(dx * dx + dy * dy) / (2.0 * sigma));
      }
    }
  }

  /** The sum loop and the divide loop: every entry is divided by the sum of all entries. */
  method NormaliseInPlace(table: array<real>)
    requires 0 < table.Length && forall i :: 0 <= i < table.Length ==> 0.0 < table[i]
    modifies table
    ensures table[..] == Normalised(old(table[..]))
  {
    ghost var raw := table[..];
    var sum := 0.0;
    for i := 0 to table.Length
      invariant sum == Sum(table[..i])
    {
      assert table[..i + 1][..i] == table[..i];
      sum := sum + table[i];
    }
    assert table[..table.Length] == raw;
    SumPositive(raw);
    for i := 0 to table.Length
      invariant forall j :: 0 <= j < i ==> table[j] == raw[j] / sum
      invariant forall j :: i <= j < table.Length ==> table[j] == raw[j]
    {
      table[i] := table[i] / sum;
    }
  }

  /** Source column of a direction: src_x = long/(2*pi) * (width - 1). */
  function SourceX(ll: LatLong, width: nat): real
  {
    ll.long / (2.0 * PI) * (width as real - 1.0)
  }

  /** Source row of a direction: src_y = (pi - (lat + pi/2))/pi * (height - 1). */
  function SourceY(ll: LatLong, height: nat): real
  {
    (PI - (ll.lat + PI / 2.0)) / PI * (height as real - 1.0)
  }

  /** remap_full3's clamp of a source coordinate: the upper bound first, then the lower. */
  function ClampFull3(v: real, hi: real): (c: real)
    ensures 0.0 <= hi ==> 0.0 <= c <= hi
    ensures 0.0 <= v <= hi ==> c == v
  {
    var upper := if v > hi then hi else v;
    if upper < 0.0 then 0.0 else upper
  }

  /** remap_full1's clamp of a source coordinate: the upper bound only. */
  function ClampFull1(v: real, hi: real): (c: real)
    ensures c <= hi
    ensures v <= hi ==> c == v
  {
    if v > hi then hi else v
  }

  /** Both clamps agree with the two-sided clamp once it is applied after them:
      remap_full3's is that clamp, remap_full1's becomes it. */
  lemma ClampsAgree(v: real, hi: real)
    requires 0.0 <= hi
    ensures ClampFull3(v, hi) == Sampling.ClampCoord(v, hi)
    ensures Sampling.ClampCoord(ClampFull1(v, hi), hi) == ClampFull3(v, hi)
  {
  }

  /** remap_full1 omits the lower clamp, yet samples exactly what remap_full3's
      two-sided clamp would: bilinear_get clamps its neighbours itself. */
  lemma Full1ClampSamplesAlike(from: Raster.Image<RGBAF>, x: real, y: real)
    requires Sampling.Samplable(from)
    ensures Sampling.BilinearGet(from, ClampFull1(x, (from.width - 1) as real), ClampFull1(y, (from.height - 1) as real))
         == Sampling.BilinearGet(from, ClampFull3(x, (from.width - 1) as real), ClampFull3(y, (from.height - 1) as real))
  {
    var hx, hy := (from.width - 1) as real, (from.height - 1) as real;
    var a, b := ClampFull1(x, hx), ClampFull1(y, hy);
    ClampsAgree(x, hx);
    ClampsAgree(y, hy);
    var a', b' := Sampling.ClampCoord(a, hx), Sampling.ClampCoord(b, hy);
    Sampling.BilinearGetClampsX(from, a, b);
    Sampling.BilinearGetClampsY(from, a', b);
    assert a' == ClampFull3(x, hx) && b' == ClampFull3(y, hy);
  }

  /** The colour remap_full3 adds for one sub-sample direction, before weighting:
      rotate, convert to latitude/longitude, map to clamped source coordinates
      and sample bilinearly. */
  function Full3Sample(from: Raster.Image<RGBAF>, rot: Mat3, libm: Libm, dir: Vec3): RGBAF
    reads from
    requires Sampling.Samplable(from)
  {
    var src := ToLatLong(Apply(rot, dir), libm);
    Sampling.BilinearGet(from, ClampFull3(SourceX(src, from.width), (from.width - 1) as real),
                               ClampFull3(SourceY(src, from.height), (from.height - 1) as real))
  }

  /** Every sample of a uniform source is its colour. */
  lemma Full3SampleUniform(from: Raster.Image<RGBAF>, rot: Mat3, libm: Libm, dir: Vec3, c: RGBAF)
    requires Sampling.Samplable(from) && Sampling.Uniform(from, c)
    ensures Full3Sample(from, rot, libm, dir) == c
  {
    Sampling.BilinearGetUniformEverywhere(from, c);
  }

  /** The direction of sub-sample k = sub_y*XSAMPS + sub_x of output pixel (x, y). */
  function Full3Direction(width: nat, height: nat, x: nat, y: nat, k: nat, libm: Libm): Vec3
    requires width != 1 && height != 1
  {
    Directions.Direction(width, height, XSamples, x, k % XSamples, y, k / XSamples, libm)
  }

  /** out_pixel after the first k terms of `out_pixel += scale * sample`. */
  function WeightedSum(weights: seq<real>, samples: seq<RGBAF>, k: nat): RGBAF
    requires k <= |weights| && k <= |samples|
  {
    if k == 0 then Zero() else Add(WeightedSum(weights, samples, k - 1), Scale(weights[k - 1], samples[k - 1]))
  }

  /** One more term of the running sum. */
  lemma WeightedSumStep(weights: seq<real>, samples: seq<RGBAF>, k: nat)
    requires k < |weights| && k < |samples|
    ensures WeightedSum(weights, samples, k + 1) == Add(WeightedSum(weights, samples, k), Scale(weights[k], samples[k]))
  {
  }

  /** Weighting k copies of one colour scales it by the sum of the first k weights. */
  lemma {:induction false} WeightedSumUniform(weights: seq<real>, samples: seq<RGBAF>, k: nat, c: RGBAF)
    requires k <= |weights| && k <= |samples|
    requires forall i :: 0 <= i < k ==> samples[i] == c
    ensures WeightedSum(weights, samples, k) == Scale(Sum(weights[..k]), c)
  {
    if k == 0 {
      assert weights[..0] == [];
      ScaleUnitAndZero(c);
    } else {
      WeightedSumUniform(weights, samples, k - 1, c);
      assert weights[..k][..k - 1] == weights[..k - 1];
      ScaleAddWeights(Sum(weights[..k - 1]), weights[k - 1], c);
    }
  }

  /** `samples` are the sub-samples of output pixel (x, y) in scan order
      k = sub_y*XSAMPS + sub_x: entry k is the sample in sub-sample k's direction. */
  ghost predicate Full3SamplesOf(samples: seq<RGBAF>, from: Raster.Image<RGBAF>, rot: Mat3, libm: Libm,
                                 width: nat, height: nat, x: nat, y: nat)
    reads from
    requires Sampling.Samplable(from) && width != 1 && height != 1
  {
    && |samples| == XSamples * YSamples
    && forall k {:trigger Full3Direction(width, height, x, y, k, libm)} :: 0 <= k < |samples| ==>
         samples[k] == Full3Sample(from, rot, libm, Full3Direction(width, height, x, y, k, libm))
  }

  /** The sub-samples of output pixel (x, y). */
  ghost function Full3Samples(from: Raster.Image<RGBAF>, rot: Mat3, libm: Libm,
                              width: nat, height: nat, x: nat, y: nat): (samples: seq<RGBAF>)
    reads from
    requires Sampling.Samplable(from) && width != 1 && height != 1
    ensures Full3SamplesOf(samples, from, rot, libm, width, height, x, y)
  {
    var candidate := seq(XSamples * YSamples, k reads from requires 0 <= k && Sampling.Samplable(from) =>
      Full3Sample(from, rot, libm, Full3Direction(width, height, x, y, k, libm)));
    assert Full3SamplesOf(candidate, from, rot, libm, width, height, x, y);
    var samples :| Full3SamplesOf(samples, from, rot, libm, width, height, x, y);
    samples
  }

  /** The colour remap_full3 puts at output pixel (x, y). */
  ghost function Full3Pixel(from: Raster.Image<RGBAF>, rot: Mat3, sigma: real, libm: Libm,
                            width: nat, height: nat, x: nat, y: nat): RGBAF
    reads from
    requires Sampling.Samplable(from) && width != 1 && height != 1 && sigma != 0.0
  {
    FilterIsNormalised(sigma, libm);
    WeightedSum(FilterTable(sigma, libm), Full3Samples(from, rot, libm, width, height, x, y), XSamples * YSamples)
  }

  /** Weights that sum to 1 reproduce a colour that every sample has. */
  lemma WeightedMeanUniform(weights: seq<real>, samples: seq<RGBAF>, c: RGBAF)
    requires |weights| == |samples| && Sum(weights) == 1.0
    requires forall i :: 0 <= i < |samples| ==> samples[i] == c
    ensures WeightedSum(weights, samples, |weights|) == c
  {
    WeightedSumUniform(weights, samples, |weights|, c);
    assert weights[..|weights|] == weights;
    ScaleUnitAndZero(c);
  }

  /** Every sub-sample of a uniform source is its colour. */
  lemma Full3SamplesUniform(from: Raster.Image<RGBAF>, rot: Mat3, libm: Libm,
                            width: nat, height: nat, x: nat, y: nat, c: RGBAF)
    requires Sampling.Samplable(from) && Sampling.Uniform(from, c)
    requires width != 1 && height != 1
    ensures forall k :: 0 <= k < XSamples * YSamples ==> Full3Samples(from, rot, libm, width, height, x, y)[k] == c
  {
    var samples := Full3Samples(from, rot, libm, width, height, x, y);
    forall k | 0 <= k < XSamples * YSamples
      ensures samples[k] == c
    {
      Full3SampleUniform(from, rot, libm, Full3Direction(width, height, x, y, k, libm), c);
    }
  }

  /** Because the filter sums to 1, remapping a uniform panorama reproduces its
      colour exactly, whatever the rotation. */
  lemma Full3Uniform(from: Raster.Image<RGBAF>, rot: Mat3, sigma: real, libm: Libm,
                     width: nat, height: nat, x: nat, y: nat, c: RGBAF)
    requires Sampling.Samplable(from) && Sampling.Uniform(from, c)
    requires width != 1 && height != 1 && sigma != 0.0
    ensures Full3Pixel(from, rot, sigma, libm, width, height, x, y) == c
  {
    FilterIsNormalised(sigma, libm);
    Full3SamplesUniform(from, rot, libm, width, height, x, y, c);
    WeightedMeanUniform(FilterTable(sigma, libm), Full3Samples(from, rot, libm, width, height, x, y), c);
  }

  /** Sub-sample sub_y*XSAMPS + sub_x of pixel (x, y) looks in the direction of
      that sub-pixel's latitude and longitude. */
  lemma Full3DirectionAt(width: nat, height: nat, x: nat, y: nat, subX: nat, subY: nat, libm: Libm)
    requires width != 1 && height != 1 && subX < XSamples
    ensures Full3Direction(width, height, x, y, XSamples * subY + subX, libm)
         == Directions.Direction(width, height, XSamples, x, subX, y, subY, libm)
  {
    Raster.FlatIndexInverse(XSamples, subX, subY);
  }

  /** remap_full3's source coordinates of a direction: scale longitude and
      latitude to the source grid, then clamp both ways. */
  method SourceCoordsFull3(src: LatLong, from: Raster.Image<RGBAF>) returns (srcX: real, srcY: real)
    requires 1 <= from.width && 1 <= from.height
    ensures srcX == ClampFull3(SourceX(src, from.width), (from.width - 1) as real)
    ensures srcY == ClampFull3(SourceY(src, from.height), (from.height - 1) as real)
    ensures 0.0 <= srcX <= (from.width - 1) as real && 0.0 <= srcY <= (from.height - 1) as real
  {
    srcX := src.long / (2.0 * PI) * (from.width as real - 1.0);
    srcY := (PI - (src.lat + PI / 2.0)) / PI * (from.height as real - 1.0);
    if srcX > (from.width - 1) as real {
      srcX := (from.width - 1) as real;
    }
    if srcY > (from.height - 1) as real {
      srcY := (from.height - 1) as real;
    }
    if srcX < 0.0 {
      srcX := 0.0;
    }
    if srcY < 0.0 {
      srcY := 0.0;
    }
  }

  /** The table lookup of sub-sample (sub_x, sub_y) of output pixel (x, y):
      the direction of sub-sample sub_y*XSAMPS + sub_x. */
  method LookupFull3(table: Directions.DirectionTable, libm: Libm, width: nat, height: nat,
                     x: nat, y: nat, subX: nat, subY: nat)
    returns (dir: Vec3)
    requires width != 1 && height != 1 && x < width && y < height && subX < XSamples && subY < YSamples
    requires table == Directions.TableOf(width, height, XSamples, libm)
    ensures dir == Full3Direction(width, height, x, y, XSamples * subY + subX, libm)
  {
    Directions.LookupInBounds(width, height, XSamples, libm, x, subX, y, subY);
    dir := Directions.Lookup(table, x, subX, y, subY);
    Directions.LookupIsDirection(width, height, XSamples, libm, x, subX, y, subY);
    Full3DirectionAt(width, height, x, y, subX, subY, libm);
  }

  /** Rotate a direction, convert it to latitude/longitude, map it to clamped
      source coordinates and sample bilinearly. */
  method SampleDirectionFull3(from: Raster.Image<RGBAF>, rot: Mat3, libm: Libm, dir: Vec3)
    returns (sample: RGBAF)
    requires Sampling.Samplable(from)
    ensures sample == Full3Sample(from, rot, libm, dir)
  {
    var v := Apply(rot, dir);
    var src := Vec3ToLatLong(v, libm);
    var srcX, srcY := SourceCoordsFull3(src, from);
    sample := Sampling.BilinearGet(from, srcX, srcY);
  }

  /** The body of remap_full3's sub-sample loops up to the weighting: sub-sample
      sub_y*XSAMPS + sub_x of output pixel (x, y). */
  method SampleFull3(table: Directions.DirectionTable, from: Raster.Image<RGBAF>, rot: Mat3, libm: Libm,
                     width: nat, height: nat, x: nat, y: nat, subX: nat, subY: nat, ghost samples: seq<RGBAF>)
    returns (sample: RGBAF)
    requires width != 1 && height != 1 && x < width && y < height && subX < XSamples && subY < YSamples
    requires table == Directions.TableOf(width, height, XSamples, libm) && Sampling.Samplable(from)
    requires Full3SamplesOf(samples, from, rot, libm, width, height, x, y)
    ensures XSamples * subY + subX < |samples|
    ensures sample == samples[XSamples * subY + subX]
  {
    Raster.FlatIndexInGrid(XSamples, YSamples, subX, subY);
    var dir := LookupFull3(table, libm, width, height, x, y, subX, subY);
    sample := SampleDirectionFull3(from, rot, libm, dir);
  }

  /** The two sub-sample loops of remap_full3 for output pixel (x, y): look up the
      direction, rotate it, find and clamp the source coordinates, and add the
      weighted bilinear sample. */
  method RemapPixelFull3(table: Directions.DirectionTable, filter: seq<real>, from: Raster.Image<RGBAF>,
                         rot: Mat3, libm: Libm, width: nat, height: nat, x: nat, y: nat, ghost samples: seq<RGBAF>)
    returns (outPixel: RGBAF)
    requires width != 1 && height != 1 && x < width && y < height
    requires table == Directions.TableOf(width, height, XSamples, libm)
    requires |filter| == XSamples * YSamples && Sampling.Samplable(from)
    requires Full3SamplesOf(samples, from, rot, libm, width, height, x, y)
    ensures outPixel == WeightedSum(filter, samples, XSamples * YSamples)
  {
    ghost var k := 0;
    outPixel := Zero();
    for subY := 0 to YSamples
      invariant k == XSamples * subY
      invariant outPixel == WeightedSum(filter, samples, k)
    {
      for subX := 0 to XSamples
        invariant k == XSamples * subY + subX
        invariant outPixel == WeightedSum(filter, samples, k)
      {
        var sample := SampleFull3(table, from, rot, libm, width, height, x, y, subX, subY, samples);
        var scale := filter[subY * XSamples + subX];
        assert subY * XSamples + subX == k;
        assert XSamples * subY + subX == k;
        WeightedSumStep(filter, samples, k);
        outPixel := AddAssign(outPixel, Scale(scale, sample));
        k := k + 1;
      }
    }
  }

  /** `expected` holds, at the flat index of every output pixel of a width x
      height grid, the colour remap_full3 puts there. */
  ghost predicate Full3Image(expected: seq<RGBAF>, from: Raster.Image<RGBAF>, rot: Mat3, sigma: real, libm: Libm,
                             width: nat, height: nat)
    reads from
    requires Sampling.Samplable(from) && width != 1 && height != 1 && sigma != 0.0
  {
    && |expected| == width * height
    && forall y, x {:trigger Full3Pixel(from, rot, sigma, libm, width, height, x, y)} ::
         0 <= y < height && 0 <= x < width ==>
           Raster.FlatIndex(width, x, y) < |expected|
           && expected[Raster.FlatIndex(width, x, y)] == Full3Pixel(from, rot, sigma, libm, width, height, x, y)
  }

  /** The expected image exists: it is the grid of Full3Pixel values. */
  lemma Full3ImageExists(from: Raster.Image<RGBAF>, rot: Mat3, sigma: real, libm: Libm, width: nat, height: nat)
    returns (expected: seq<RGBAF>)
    requires Sampling.Samplable(from) && width != 1 && height != 1 && sigma != 0.0
    ensures Full3Image(expected, from, rot, sigma, libm, width, height)
  {
    expected := seq(width * height, i reads from requires 0 <= i && Sampling.Samplable(from) =>
      if width == 0 then Zero() else Full3Pixel(from, rot, sigma, libm, width, height, i % width, i / width));
    forall y, x | 0 <= y < height && 0 <= x < width
      ensures Raster.FlatIndex(width, x, y) < |expected|
      ensures expected[Raster.FlatIndex(width, x, y)] == Full3Pixel(from, rot, sigma, libm, width, height, x, y)
    {
      Raster.FlatIndexInGrid(width, height, x, y);
      Raster.FlatIndexInverse(width, x, y);
    }
  }

  /** One iteration of remap_full3's x loop: compute output pixel (x, y) and
      store it with `onto.put(x, y, out_pixel)`. */
  method WritePixelFull3(onto: Raster.Image<RGBAF>, table: Directions.DirectionTable, filter: seq<real>,
                         from: Raster.Image<RGBAF>, rot: Mat3, sigma: real, libm: Libm, x: nat, y: nat,
                         ghost expected: seq<RGBAF>)
    requires onto != from && Sampling.Samplable(from) && sigma != 0.0
    requires onto.width != 1 && onto.height != 1 && x < onto.width && y < onto.height
    requires onto.width * onto.height <= |onto.values|
    requires table == Directions.TableOf(onto.width, onto.height, XSamples, libm)
    requires filter == FilterTable(sigma, libm)
    requires Full3Image(expected, from, rot, sigma, libm, onto.width, onto.height)
    modifies onto
    ensures onto.width == old(onto.width) && onto.height == old(onto.height)
    ensures Raster.FlatIndex(onto.width, x, y) < |expected|
    ensures onto.values == old(onto.values)[Raster.FlatIndex(onto.width, x, y) := expected[Raster.FlatIndex(onto.width, x, y)]]
  {
    ghost var samples := Full3Samples(from, rot, libm, onto.width, onto.height, x, y);
    var outPixel := RemapPixelFull3(table, filter, from, rot, libm, onto.width, onto.height, x, y, samples);
    assert outPixel == Full3Pixel(from, rot, sigma, libm, onto.width, onto.height, x, y);
    onto.Put(x, y, outPixel);
  }

  /** remap_full3: build the direction table and the filter, then write every
      output pixel, row by row, with its filtered sum of sub-samples. */
  method RemapFull3(onto: Raster.Image<RGBAF>, from: Raster.Image<RGBAF>, rot: Mat3, sigma: real, libm: Libm)
    requires onto != from && Sampling.Samplable(from)
    requires onto.width != 1 && onto.height != 1 && onto.width * onto.height <= |onto.values|
    requires sigma != 0.0
    modifies onto
    ensures onto.width == old(onto.width) && onto.height == old(onto.height)
    ensures |onto.values| == old(|onto.values|)
    ensures forall y, x :: 0 <= y < onto.height && 0 <= x < onto.width ==>
              Raster.FlatIndex(onto.width, x, y) < |onto.values|
              && onto.values[Raster.FlatIndex(onto.width, x, y)]
                 == Full3Pixel(from, rot, sigma, libm, onto.width, onto.height, x, y)
    ensures forall i :: 0 <= i < |onto.values| && onto.width * onto.height <= i ==> onto.values[i] == old(onto.values[i])
  {
    var table := Directions.Build(onto.width, onto.height, XSamples, libm);
    var filter := BuildFilterTable(sigma, libm);
    ghost var expected := Full3ImageExists(from, rot, sigma, libm, onto.width, onto.height);
    RemapRowsFull3(onto, table, filter, from, rot, sigma, libm, expected);
    Full3ImageMeans(onto.values, expected, from, rot, sigma, libm, onto.width, onto.height);
  }

  /** remap_full3 called without a filter width, as main calls it: s takes
      its default value, which meets the non-zero demand. */
  method RemapFull3Default(onto: Raster.Image<RGBAF>, from: Raster.Image<RGBAF>, rot: Mat3, libm: Libm)
    requires onto != from && Sampling.Samplable(from)
    requires onto.width != 1 && onto.height != 1 && onto.width * onto.height <= |onto.values|
    modifies onto
    ensures onto.width == old(onto.width) && onto.height == old(onto.height)
    ensures |onto.values| == old(|onto.values|)
    ensures forall y, x :: 0 <= y < onto.height && 0 <= x < onto.width ==>
              Raster.FlatIndex(onto.width, x, y) < |onto.values|
              && onto.values[Raster.FlatIndex(onto.width, x, y)]
                 == Full3Pixel(from, rot, DefaultSigma, libm, onto.width, onto.height, x, y)
    ensures forall i :: 0 <= i < |onto.values| && onto.width * onto.height <= i ==> onto.values[i] == old(onto.values[i])
  {
    RemapFull3(onto, from, rot, DefaultSigma, libm);
  }

  /** The y loop of remap_full3: the first width*height cells become the
      expected image, the cells past them keep their values. */
  method RemapRowsFull3(onto: Raster.Image<RGBAF>, table: Directions.DirectionTable, filter: seq<real>,
                        from: Raster.Image<RGBAF>, rot: Mat3, sigma: real, libm: Libm, ghost expected: seq<RGBAF>)
    requires onto != from && Sampling.Samplable(from) && sigma != 0.0
    requires onto.width != 1 && onto.height != 1 && onto.width * onto.height <= |onto.values|
    requires table == Directions.TableOf(onto.width, onto.height, XSamples, libm)
    requires filter == FilterTable(sigma, libm)
    requires Full3Image(expected, from, rot, sigma, libm, onto.width, onto.height)
    modifies onto
    ensures onto.width == old(onto.width) && onto.height == old(onto.height)
    ensures |onto.values| == old(|onto.values|)
    ensures forall i :: 0 <= i < onto.width * onto.height ==> onto.values[i] == expected[i]
    ensures forall i :: 0 <= i < |onto.values| && onto.width * onto.height <= i ==> onto.values[i] == old(onto.values[i])
  {
    var width, height := onto.width, onto.height;
    ghost var done := 0;
    for y := 0 to height
      invariant onto.width == width && onto.height == height && |onto.values| == old(|onto.values|)
      invariant done == width * y
      invariant forall i :: 0 <= i < done ==> onto.values[i] == expected[i]
      invariant forall i :: 0 <= i < |onto.values| && done <= i ==> onto.values[i] == old(onto.values[i])
      invariant Full3Image(expected, from, rot, sigma, libm, width, height)
    {
      RemapRowFull3(onto, table, filter, from, rot, sigma, libm, y, expected);
      assert width * y + width == width * (y + 1);
      done := done + width;
    }
  }

  /** The x loop of remap_full3 for output row y: the row's cells, from flat
      index width*y up to width*(y+1), get their expected colours and nothing
      else changes. */
  method RemapRowFull3(onto: Raster.Image<RGBAF>, table: Directions.DirectionTable, filter: seq<real>,
                       from: Raster.Image<RGBAF>, rot: Mat3, sigma: real, libm: Libm, y: nat,
                       ghost expected: seq<RGBAF>)
    requires onto != from && Sampling.Samplable(from) && sigma != 0.0
    requires onto.width != 1 && onto.height != 1 && y < onto.height && onto.width * onto.height <= |onto.values|
    requires table == Directions.TableOf(onto.width, onto.height, XSamples, libm)
    requires filter == FilterTable(sigma, libm)
    requires Full3Image(expected, from, rot, sigma, libm, onto.width, onto.height)
    modifies onto
    ensures onto.width == old(onto.width) && onto.height == old(onto.height) && |onto.values| == old(|onto.values|)
    ensures onto.width * y + onto.width <= |expected|
    ensures forall i :: 0 <= i < |onto.values| && onto.width * y <= i < onto.width * y + onto.width ==>
              onto.values[i] == expected[i]
    ensures forall i :: 0 <= i < |onto.values| && (i < onto.width * y || onto.width * y + onto.width <= i) ==>
              onto.values[i] == old(onto.values[i])
  {
    var width := onto.width;
    assert width * y + width == width * (y + 1);
    Raster.MulMonotone(width, y + 1, onto.height);
    for x := 0 to width
      invariant onto.width == width && onto.height == old(onto.height) && |onto.values| == old(|onto.values|)
      invariant forall i :: 0 <= i < |onto.values| && width * y <= i < width * y + x ==> onto.values[i] == expected[i]
      invariant forall i :: 0 <= i < |onto.values| && (i < width * y || width * y + x <= i) ==>
                  onto.values[i] == old(onto.values[i])
      invariant Full3Image(expected, from, rot, sigma, libm, width, onto.height)
    {
      Raster.FlatIndexInGrid(width, onto.height, x, y);
      WritePixelFull3(onto, table, filter, from, rot, sigma, libm, x, y, expected);
    }
  }

  /** A vector that agrees with the expected image on its first width*height
      cells holds remap_full3's colour at every output pixel. */
  lemma Full3ImageMeans(values: seq<RGBAF>, expected: seq<RGBAF>, from: Raster.Image<RGBAF>, rot: Mat3, sigma: real,
                        libm: Libm, width: nat, height: nat)
    requires Sampling.Samplable(from) && width != 1 && height != 1 && sigma != 0.0
    requires Full3Image(expected, from, rot, sigma, libm, width, height)
    requires width * height <= |values|
    requires forall i :: 0 <= i < width * height ==> values[i] == expected[i]
    ensures forall y, x :: 0 <= y < height && 0 <= x < width ==>
              Raster.FlatIndex(width, x, y) < |values|
              && values[Raster.FlatIndex(width, x, y)] == Full3Pixel(from, rot, sigma, libm, width, height, x, y)
  {
    forall y, x | 0 <= y < height && 0 <= x < width
      ensures Raster.FlatIndex(width, x, y) < |values|
      ensures values[Raster.FlatIndex(width, x, y)] == Full3Pixel(from, rot, sigma, libm, width, height, x, y)
    {
      Raster.FlatIndexInGrid(width, height, x, y);
      assert expected[Raster.FlatIndex(width, x, y)] == Full3Pixel(from, rot, sigma, libm, width, height, x, y);
    }
  }

  /** remap_full1's sub-sample grid: sub_x and sub_y both run from 0 to 5 inclusive. */
  const Full1Steps: nat := 6

  /** Sub-sample coordinate p + 1/5*sub of remap_full1 (xf or yf). */
  function Full1Offset(p: nat, sub: nat): real
  {
    p as real + 1.0 / 5.0 * sub as real
  }

  /** The last sub-sample of pixel p lies where the first of pixel p + 1 does. */
  lemma Full1OffsetOverlaps(p: nat)
    ensures Full1Offset(p, Full1Steps - 1) == Full1Offset(p + 1, 0)
  {
  }

  /** The direction of sub-sample k = 6*sub_y + sub_x of output pixel (x, y) in
      remap_full1: yf and xf become latitude pi/2 - yf/(height-1)*pi and
      longitude xf/(width-1)*2*pi. */
  function Full1Direction(width: nat, height: nat, x: nat, y: nat, k: nat, libm: Libm): Vec3
    requires width != 1 && height != 1
  {
    Full1SubDirection(width, height, x, y, k % Full1Steps, k / Full1Steps, libm)
  }

  /** The direction of sub-sample (sub_x, sub_y) of output pixel (x, y) in remap_full1. */
  function Full1SubDirection(width: nat, height: nat, x: nat, y: nat, subX: nat, subY: nat, libm: Libm): Vec3
    requires width != 1 && height != 1
  {
    LatLongToVec3(Full1LatLong(width, height, Full1Offset(x, subX), Full1Offset(y, subY)), libm)
  }

  /** Latitude pi/2 - yf/(height-1)*pi and longitude xf/(width-1)*2*pi. */
  function Full1LatLong(width: nat, height: nat, xf: real, yf: real): LatLong
    requires width != 1 && height != 1
  {
    LatLong(PI / 2.0 - yf / (height as real - 1.0) * PI, xf / (width as real - 1.0) * 2.0 * PI)
  }

  /** The sub-samples of neighbouring columns overlap: the last sub-column of
      pixel x looks where the first sub-column of pixel x + 1 does. */
  lemma Full1ColumnsOverlap(width: nat, height: nat, x: nat, y: nat, subY: nat, libm: Libm)
    requires width != 1 && height != 1
    ensures Full1SubDirection(width, height, x, y, Full1Steps - 1, subY, libm)
         == Full1SubDirection(width, height, x + 1, y, 0, subY, libm)
  {
    Full1OffsetOverlaps(x);
  }

  /** ... and so do those of neighbouring rows. */
  lemma Full1RowsOverlap(width: nat, height: nat, x: nat, y: nat, subX: nat, libm: Libm)
    requires width != 1 && height != 1
    ensures Full1SubDirection(width, height, x, y, subX, Full1Steps - 1, libm)
         == Full1SubDirection(width, height, x, y + 1, subX, 0, libm)
  {
    Full1OffsetOverlaps(y);
  }

  /** The colour remap_full1 adds for one sub-sample direction: as remap_full3,
      but with the source coordinates clamped from above only. */
  function Full1Sample(from: Raster.Image<RGBAF>, rot: Mat3, libm: Libm, dir: Vec3): RGBAF
    reads from
    requires Sampling.Samplable(from)
  {
    var src := ToLatLong(Apply(rot, dir), libm);
    Sampling.BilinearGet(from, ClampFull1(SourceX(src, from.width), (from.width - 1) as real),
                               ClampFull1(SourceY(src, from.height), (from.height - 1) as real))
  }

  /** Missing the lower clamp changes nothing: remap_full1 samples a direction
      exactly as remap_full3 does. */
  lemma Full1SampleIsFull3Sample(from: Raster.Image<RGBAF>, rot: Mat3, libm: Libm, dir: Vec3)
    requires Sampling.Samplable(from)
    ensures Full1Sample(from, rot, libm, dir) == Full3Sample(from, rot, libm, dir)
  {
    var src := ToLatLong(Apply(rot, dir), libm);
    Full1ClampSamplesAlike(from, SourceX(src, from.width), SourceY(src, from.height));
  }

  /** `samples` are the 36 sub-samples of output pixel (x, y) in remap_full1's
      scan order k = 6*sub_y + sub_x. */
  ghost predicate Full1SamplesOf(samples: seq<RGBAF>, from: Raster.Image<RGBAF>, rot: Mat3, libm: Libm,
                                 width: nat, height: nat, x: nat, y: nat)
    reads from
    requires Sampling.Samplable(from) && width != 1 && height != 1
  {
    && |samples| == Full1Steps * Full1Steps
    && forall k {:trigger Full1Direction(width, height, x, y, k, libm)} :: 0 <= k < |samples| ==>
         samples[k] == Full1Sample(from, rot, libm, Full1Direction(width, height, x, y, k, libm))
  }

  /** The sub-samples of output pixel (x, y) in remap_full1. */
  ghost function Full1Samples(from: Raster.Image<RGBAF>, rot: Mat3, libm: Libm,
                              width: nat, height: nat, x: nat, y: nat): (samples: seq<RGBAF>)
    reads from
    requires Sampling.Samplable(from) && width != 1 && height != 1
    ensures Full1SamplesOf(samples, from, rot, libm, width, height, x, y)
  {
    var candidate := seq(Full1Steps * Full1Steps, k reads from requires 0 <= k && Sampling.Samplable(from) =>
      Full1Sample(from, rot, libm, Full1Direction(width, height, x, y, k, libm)));
    assert Full1SamplesOf(candidate, from, rot, libm, width, height, x, y);
    var samples :| Full1SamplesOf(samples, from, rot, libm, width, height, x, y);
    samples
  }

  /** out_pixel after the first k terms of the unweighted `out_pixel += sample`. */
  function ColourSum(samples: seq<RGBAF>, k: nat): RGBAF
    requires k <= |samples|
  {
    if k == 0 then Zero() else Add(ColourSum(samples, k - 1), samples[k - 1])
  }

  /** `out_pixel.r /= d` and likewise for green, blue and alpha. */
  function DivideChannels(c: RGBAF, d: real): RGBAF
    requires d != 0.0
  {
    RGBAF(c.r / d, c.g / d, c.b / d, c.a / d)
  }

  /** Dividing each channel by d is scaling by 1/d. */
  lemma DivideIsScale(c: RGBAF, d: real)
    requires d != 0.0
    ensures DivideChannels(c, d) == Scale(1.0 / d, c)
  {
  }

  /** The colour remap_full1 puts at output pixel (x, y): the plain mean of its 36 sub-samples. */
  ghost function Full1Pixel(from: Raster.Image<RGBAF>, rot: Mat3, libm: Libm,
                            width: nat, height: nat, x: nat, y: nat): RGBAF
    reads from
    requires Sampling.Samplable(from) && width != 1 && height != 1
  {
    var samples := Full1Samples(from, rot, libm, width, height, x, y);
    DivideChannels(ColourSum(samples, |samples|), (Full1Steps * Full1Steps) as real)
  }

  /** n equal weights w. */
  function Box(n: nat, w: real): (box: seq<real>)
    ensures |box| == n && forall i :: 0 <= i < n ==> box[i] == w
  {
    seq(n, _ => w)
  }

  /** n equal weights w sum to n*w. */
  lemma {:induction false} BoxSum(n: nat, w: real)
    ensures Sum(Box(n, w)) == n as real * w
  {
    if n != 0 {
      BoxSum(n - 1, w);
      assert Box(n, w)[..n - 1] == Box(n - 1, w);
    }
  }

  /** Scaling the plain sum is weighting every term equally. */
  lemma {:induction false} ScaledSumIsWeighted(samples: seq<RGBAF>, w: real, n: nat, k: nat)
    requires k <= n && k <= |samples|
    ensures Scale(w, ColourSum(samples, k)) == WeightedSum(Box(n, w), samples, k)
  {
    if k == 0 {
      ScaleUnitAndZero(Zero());
      assert Scale(w, Zero()) == Zero();
    } else {
      ScaledSumIsWeighted(samples, w, n, k - 1);
      ScaleDistributes(w, ColourSum(samples, k - 1), samples[k - 1]);
    }
  }

  /** remap_full1 is the filtered sum of remap_full3 with a box filter: every
      one of its 36 sub-samples weighs 1/36. */
  lemma Full1IsBoxFiltered(from: Raster.Image<RGBAF>, rot: Mat3, libm: Libm,
                           width: nat, height: nat, x: nat, y: nat)
    requires Sampling.Samplable(from) && width != 1 && height != 1
    ensures Full1Pixel(from, rot, libm, width, height, x, y)
         == WeightedSum(Box(Full1Steps * Full1Steps, 1.0 / 36.0), Full1Samples(from, rot, libm, width, height, x, y),
                        Full1Steps * Full1Steps)
    ensures Sum(Box(Full1Steps * Full1Steps, 1.0 / 36.0)) == 1.0
  {
    var samples := Full1Samples(from, rot, libm, width, height, x, y);
    var n := |samples|;
    DivideIsScale(ColourSum(samples, n), 36.0);
    ScaledSumIsWeighted(samples, 1.0 / 36.0, n, n);
    BoxSum(n, 1.0 / 36.0);
  }

  /** Remapping a uniform panorama with remap_full1 reproduces its colour exactly. */
  lemma Full1Uniform(from: Raster.Image<RGBAF>, rot: Mat3, libm: Libm,
                     width: nat, height: nat, x: nat, y: nat, c: RGBAF)
    requires Sampling.Samplable(from) && Sampling.Uniform(from, c)
    requires width != 1 && height != 1
    ensures Full1Pixel(from, rot, libm, width, height, x, y) == c
  {
    var samples := Full1Samples(from, rot, libm, width, height, x, y);
    forall k | 0 <= k < |samples|
      ensures samples[k] == c
    {
      var dir := Full1Direction(width, height, x, y, k, libm);
      Full1SampleIsFull3Sample(from, rot, libm, dir);
      Full3SampleUniform(from, rot, libm, dir, c);
    }
    Full1IsBoxFiltered(from, rot, libm, width, height, x, y);
    WeightedMeanUniform(Box(36, 1.0 / 36.0), samples, c);
  }

  /** Sub-sample 6*sub_y + sub_x of pixel (x, y) looks in the direction of
      xf = x + 1/5*sub_x and yf = y + 1/5*sub_y. */
  lemma Full1DirectionAt(width: nat, height: nat, x: nat, y: nat, subX: nat, subY: nat, libm: Libm)
    requires width != 1 && height != 1 && subX < Full1Steps
    ensures Full1Direction(width, height, x, y, Full1Steps * subY + subX, libm)
         == Full1SubDirection(width, height, x, y, subX, subY, libm)
  {
    Raster.FlatIndexInverse(Full1Steps, subX, subY);
  }

  /** The start of remap_full1's sub-sample loop body: the direction of
      xf = x + 1.0/5.0*sub_x, yf = y + 1.0/5.0*sub_y, with no table. */
  method DirectionFull1(width: nat, height: nat, x: nat, y: nat, subX: nat, subY: nat, libm: Libm)
    returns (dir: Vec3)
    requires width != 1 && height != 1 && subX < Full1Steps
    ensures dir == Full1Direction(width, height, x, y, Full1Steps * subY + subX, libm)
  {
    var yf := y as real + 1.0 / 5.0 * subY as real;
    var xf := x as real + 1.0 / 5.0 * subX as real;
    var ll := LatLong(PI / 2.0 - yf / (height as real - 1.0) * PI, xf / (width as real - 1.0) * 2.0 * PI);
    assert ll == Full1LatLong(width, height, Full1Offset(x, subX), Full1Offset(y, subY));
    dir := LatLongToVec3(ll, libm);
    assert dir == Full1SubDirection(width, height, x, y, subX, subY, libm);
    Full1DirectionAt(width, height, x, y, subX, subY, libm);
  }

  /** remap_full1's source coordinates of a direction: scale longitude and
      latitude to the source grid, then clamp from above only. */
  method SourceCoordsFull1(src: LatLong, from: Raster.Image<RGBAF>) returns (srcX: real, srcY: real)
    requires 1 <= from.width && 1 <= from.height
    ensures srcX == ClampFull1(SourceX(src, from.width), (from.width - 1) as real)
    ensures srcY == ClampFull1(SourceY(src, from.height), (from.height - 1) as real)
    ensures srcX <= (from.width - 1) as real && srcY <= (from.height - 1) as real
  {
    srcX := src.long / (2.0 * PI) * (from.width as real - 1.0);
    srcY := (PI - (src.lat + PI / 2.0)) / PI * (from.height as real - 1.0);
    if srcX > (from.width - 1) as real {
      srcX := (from.width - 1) as real;
    }
    if srcY > (from.height - 1) as real {
      srcY := (from.height - 1) as real;
    }
  }

  /** Rotate a direction, convert it to latitude/longitude, map it to
      upper-clamped source coordinates and sample bilinearly. */
  method SampleDirectionFull1(from: Raster.Image<RGBAF>, rot: Mat3, libm: Libm, dir: Vec3)
    returns (sample: RGBAF)
    requires Sampling.Samplable(from)
    ensures sample == Full1Sample(from, rot, libm, dir)
  {
    var v := Apply(rot, dir);
    var src := Vec3ToLatLong(v, libm);
    var srcX, srcY := SourceCoordsFull1(src, from);
    sample := Sampling.BilinearGet(from, srcX, srcY);
  }

  /** The body of remap_full1's sub-sample loops: sub-sample 6*sub_y + sub_x of
      output pixel (x, y). */
  method SampleFull1(from: Raster.Image<RGBAF>, rot: Mat3, libm: Libm,
                     width: nat, height: nat, x: nat, y: nat, subX: nat, subY: nat, ghost samples: seq<RGBAF>)
    returns (sample: RGBAF)
    requires width != 1 && height != 1 && subX < Full1Steps && subY < Full1Steps && Sampling.Samplable(from)
    requires Full1SamplesOf(samples, from, rot, libm, width, height, x, y)
    ensures Full1Steps * subY + subX < |samples|
    ensures sample == samples[Full1Steps * subY + subX]
  {
    Raster.FlatIndexInGrid(Full1Steps, Full1Steps, subX, subY);
    var dir := DirectionFull1(width, height, x, y, subX, subY, libm);
    sample := SampleDirectionFull1(from, rot, libm, dir);
  }

  /** The two sub-sample loops of remap_full1 for output pixel (x, y), then the
      division of every channel by 36. */
  method RemapPixelFull1(from: Raster.Image<RGBAF>, rot: Mat3, libm: Libm,
                         width: nat, height: nat, x: nat, y: nat, ghost samples: seq<RGBAF>)
    returns (outPixel: RGBAF)
    requires width != 1 && height != 1 && Sampling.Samplable(from)
    requires Full1SamplesOf(samples, from, rot, libm, width, height, x, y)
    ensures outPixel == DivideChannels(ColourSum(samples, |samples|), 36.0)
  {
    ghost var k := 0;
    outPixel := Zero();
    for subY := 0 to Full1Steps
      invariant k == Full1Steps * subY
      invariant outPixel == ColourSum(samples, k)
    {
      for subX := 0 to Full1Steps
        invariant k == Full1Steps * subY + subX
        invariant outPixel == ColourSum(samples, k)
      {
        var sample := SampleFull1(from, rot, libm, width, height, x, y, subX, subY, samples);
        outPixel := AddAssign(outPixel, sample);
        k := k + 1;
      }
    }
    outPixel := RGBAF(outPixel.r / 36.0, outPixel.g / 36.0, outPixel.b / 36.0, outPixel.a / 36.0);
  }

  /** `expected` holds, at the flat index of every output pixel of a width x
      height grid, the colour remap_full1 puts there. */
  ghost predicate Full1Image(expected: seq<RGBAF>, from: Raster.Image<RGBAF>, rot: Mat3, libm: Libm,
                             width: nat, height: nat)
    reads from
    requires Sampling.Samplable(from) && width != 1 && height != 1
  {
    && |expected| == width * height
    && forall y, x {:trigger Full1Pixel(from, rot, libm, width, height, x, y)} ::
         0 <= y < height && 0 <= x < width ==>
           Raster.FlatIndex(width, x, y) < |expected|
           && expected[Raster.FlatIndex(width, x, y)] == Full1Pixel(from, rot, libm, width, height, x, y)
  }

  /** The expected image exists: it is the grid of Full1Pixel values. */
  lemma Full1ImageExists(from: Raster.Image<RGBAF>, rot: Mat3, libm: Libm, width: nat, height: nat)
    returns (expected: seq<RGBAF>)
    requires Sampling.Samplable(from) && width != 1 && height != 1
    ensures Full1Image(expected, from, rot, libm, width, height)
  {
    expected := seq(width * height, i reads from requires 0 <= i && Sampling.Samplable(from) =>
      if width == 0 then Zero() else Full1Pixel(from, rot, libm, width, height, i % width, i / width));
    forall y, x | 0 <= y < height && 0 <= x < width
      ensures Raster.FlatIndex(width, x, y) < |expected|
      ensures expected[Raster.FlatIndex(width, x, y)] == Full1Pixel(from, rot, libm, width, height, x, y)
    {
      Raster.FlatIndexInGrid(width, height, x, y);
      Raster.FlatIndexInverse(width, x, y);
    }
  }

  /** One iteration of remap_full1's x loop: compute output pixel (x, y) and
      store it with onto.put. */
  method WritePixelFull1(onto: Raster.Image<RGBAF>, from: Raster.Image<RGBAF>, rot: Mat3, libm: Libm,
                         x: nat, y: nat, ghost expected: seq<RGBAF>)
    requires onto != from && Sampling.Samplable(from)
    requires onto.width != 1 && onto.height != 1 && x < onto.width && y < onto.height
    requires onto.width * onto.height <= |onto.values|
    requires Full1Image(expected, from, rot, libm, onto.width, onto.height)
    modifies onto
    ensures onto.width == old(onto.width) && onto.height == old(onto.height)
    ensures Raster.FlatIndex(onto.width, x, y) < |expected|
    ensures onto.values == old(onto.values)[Raster.FlatIndex(onto.width, x, y) := expected[Raster.FlatIndex(onto.width, x, y)]]
  {
    ghost var samples := Full1Samples(from, rot, libm, onto.width, onto.height, x, y);
    var outPixel := RemapPixelFull1(from, rot, libm, onto.width, onto.height, x, y, samples);
    assert outPixel == Full1Pixel(from, rot, libm, onto.width, onto.height, x, y);
    Raster.FlatIndexInGrid(onto.width, onto.height, x, y);
    onto.Put(x, y, outPixel);
  }

  /** The x loop of remap_full1 for output row y: the row's cells get their
      expected colours and nothing else changes. */
  method RemapRowFull1(onto: Raster.Image<RGBAF>, from: Raster.Image<RGBAF>, rot: Mat3, libm: Libm, y: nat,
                       ghost expected: seq<RGBAF>)
    requires onto != from && Sampling.Samplable(from)
    requires onto.width != 1 && onto.height != 1 && y < onto.height && onto.width * onto.height <= |onto.values|
    requires Full1Image(expected, from, rot, libm, onto.width, onto.height)
    modifies onto
    ensures onto.width == old(onto.width) && onto.height == old(onto.height) && |onto.values| == old(|onto.values|)
    ensures onto.width * y + onto.width <= |expected|
    ensures forall i :: 0 <= i < |onto.values| && onto.width * y <= i < onto.width * y + onto.width ==>
              onto.values[i] == expected[i]
    ensures forall i :: 0 <= i < |onto.values| && (i < onto.width * y || onto.width * y + onto.width <= i) ==>
              onto.values[i] == old(onto.values[i])
  {
    var width := onto.width;
    assert width * y + width == width * (y + 1);
    Raster.MulMonotone(width, y + 1, onto.height);
    for x := 0 to width
      invariant onto.width == width && onto.height == old(onto.height) && |onto.values| == old(|onto.values|)
      invariant forall i :: 0 <= i < |onto.values| && width * y <= i < width * y + x ==> onto.values[i] == expected[i]
      invariant forall i :: 0 <= i < |onto.values| && (i < width * y || width * y + x <= i) ==>
                  onto.values[i] == old(onto.values[i])
      invariant Full1Image(expected, from, rot, libm, width, onto.height)
    {
      Raster.FlatIndexInGrid(width, onto.height, x, y);
      WritePixelFull1(onto, from, rot, libm, x, y, expected);
    }
  }

  /** remap_full1: write every output pixel, row by row, with the mean of its
      36 unweighted sub-samples. */
  method RemapFull1(onto: Raster.Image<RGBAF>, from: Raster.Image<RGBAF>, rot: Mat3, libm: Libm)
    requires onto != from && Sampling.Samplable(from)
    requires onto.width != 1 && onto.height != 1 && onto.width * onto.height <= |onto.values|
    modifies onto
    ensures onto.width == old(onto.width) && onto.height == old(onto.height)
    ensures |onto.values| == old(|onto.values|)
    ensures forall y, x :: 0 <= y < onto.height && 0 <= x < onto.width ==>
              Raster.FlatIndex(onto.width, x, y) < |onto.values|
              && onto.values[Raster.FlatIndex(onto.width, x, y)]
                 == Full1Pixel(from, rot, libm, onto.width, onto.height, x, y)
    ensures forall i :: 0 <= i < |onto.values| && onto.width * onto.height <= i ==> onto.values[i] == old(onto.values[i])
  {
    ghost var expected := Full1ImageExists(from, rot, libm, onto.width, onto.height);
    RemapRowsFull1(onto, from, rot, libm, expected);
    Full1ImageMeans(onto.values, expected, from, rot, libm, onto.width, onto.height);
  }

  /** The y loop of remap_full1: the first width*height cells become the
      expected image, the cells past them keep their values. */
  method RemapRowsFull1(onto: Raster.Image<RGBAF>, from: Raster.Image<RGBAF>, rot: Mat3, libm: Libm,
                        ghost expected: seq<RGBAF>)
    requires onto != from && Sampling.Samplable(from)
    requires onto.width != 1 && onto.height != 1 && onto.width * onto.height <= |onto.values|
    requires Full1Image(expected, from, rot, libm, onto.width, onto.height)
    modifies onto
    ensures onto.width == old(onto.width) && onto.height == old(onto.height)
    ensures |onto.values| == old(|onto.values|)
    ensures forall i :: 0 <= i < onto.width * onto.height ==> onto.values[i] == expected[i]
    ensures forall i :: 0 <= i < |onto.values| && onto.width * onto.height <= i ==> onto.values[i] == old(onto.values[i])
  {
    var width, height := onto.width, onto.height;
    ghost var done := 0;
    for y := 0 to height
      invariant onto.width == width && onto.height == height && |onto.values| == old(|onto.values|)
      invariant done == width * y
      invariant forall i :: 0 <= i < done ==> onto.values[i] == expected[i]
      invariant forall i :: 0 <= i < |onto.values| && done <= i ==> onto.values[i] == old(onto.values[i])
      invariant Full1Image(expected, from, rot, libm, width, height)
    {
      RemapRowFull1(onto, from, rot, libm, y, expected);
      assert width * y + width == width * (y + 1);
      done := done + width;
    }
  }

  /** A vector that agrees with the expected image on its first width*height
      cells holds remap_full1's colour at every output pixel. */
  lemma Full1ImageMeans(values: seq<RGBAF>, expected: seq<RGBAF>, from: Raster.Image<RGBAF>, rot: Mat3,
                        libm: Libm, width: nat, height: nat)
    requires Sampling.Samplable(from) && width != 1 && height != 1
    requires Full1Image(expected, from, rot, libm, width, height)
    requires width * height <= |values|
    requires forall i :: 0 <= i < width * height ==> values[i] == expected[i]
    ensures forall y, x :: 0 <= y < height && 0 <= x < width ==>
              Raster.FlatIndex(width, x, y) < |values|
              && values[Raster.FlatIndex(width, x, y)] == Full1Pixel(from, rot, libm, width, height, x, y)
  {
    forall y, x | 0 <= y < height && 0 <= x < width
      ensures Raster.FlatIndex(width, x, y) < |values|
      ensures values[Raster.FlatIndex(width, x, y)] == Full1Pixel(from, rot, libm, width, height, x, y)
    {
      Raster.FlatIndexInGrid(width, height, x, y);
      assert expected[Raster.FlatIndex(width, x, y)] == Full1Pixel(from, rot, libm, width, height, x, y);
    }
  }
}
