/** Bilinear interpolation on the unit square and bilinear sampling of an
    image through an edge-clamped 2x2 neighbourhood. */
module Sampling {
  import opened Colour
  import opened Raster

  /** Linear blend of a and b by t, as the horizontal and vertical passes compute it. */
  function Lerp(t: real, a: real, b: real): real
  {
    (1.0 - t) * a + t * b
  }

  function Min(a: real, b: real): real { if a <= b then a else b }
  function Max(a: real, b: real): real { if a <= b then b else a }

  /** For t in [0, 1] a blend lies between its two end points. */
  lemma LerpBetween(t: real, a: real, b: real)
    requires 0.0 <= t <= 1.0
    ensures Min(a, b) <= Lerp(t, a, b) <= Max(a, b)
  {
    assert Lerp(t, a, b) == a + t * (b - a);
    if a <= b {
      assert 0.0 <= t * (b - a) by { NonNegProduct(t, b - a); }
      assert 0.0 <= (1.0 - t) * (b - a) by { NonNegProduct(1.0 - t, b - a); }
    } else {
      assert 0.0 <= t * (a - b) by { NonNegProduct(t, a - b); }
      assert 0.0 <= (1.0 - t) * (a - b) by { NonNegProduct(1.0 - t, a - b); }
    }
  }

  lemma NonNegProduct(p: real, q: real)
    requires 0.0 <= p && 0.0 <= q
    ensures 0.0 <= p * q
  {
  }

  /** The four colours of a 2x2 neighbourhood, in the source's array order:
      A = (0, 0), B = (1, 0), C = (0, 1), D = (1, 1) of the unit square. */
  datatype Corners = Corners(a: RGBAF, b: RGBAF, c: RGBAF, d: RGBAF)

  /** Scalar bilinear interpolation of the corner values A, B, C, D: a
      horizontal blend along the top and the bottom edge, then a vertical
      blend of the two. */
  function Bilinear(x: real, y: real, a: real, b: real, c: real, d: real): real
  {
    var x0 := (1.0 - x) * a + x * b;
    var x1 := (1.0 - x) * c + x * d;
    (1.0 - y) * x0 + y * x1
  }

  /** At the corners of the unit square the result is that corner's value. */
  lemma BilinearCorners(a: real, b: real, c: real, d: real)
    ensures Bilinear(0.0, 0.0, a, b, c, d) == a
    ensures Bilinear(1.0, 0.0, a, b, c, d) == b
    ensures Bilinear(0.0, 1.0, a, b, c, d) == c
    ensures Bilinear(1.0, 1.0, a, b, c, d) == d
  {
  }

  /** Four equal corners give that value back anywhere, inside the square or not. */
  lemma BilinearConstant(x: real, y: real, w: real)
    ensures Bilinear(x, y, w, w, w, w) == w
  {
    assert (1.0 - x) * w + x * w == w;
    assert (1.0 - y) * w + y * w == w;
  }

  /** When the two columns agree (A = B and C = D) the x weight is irrelevant. */
  lemma BilinearFlatInX(x: real, x': real, y: real, top: real, bottom: real)
    ensures Bilinear(x, y, top, top, bottom, bottom) == Bilinear(x', y, top, top, bottom, bottom)
  {
    assert (1.0 - x) * top + x * top == top;
    assert (1.0 - x') * top + x' * top == top;
    assert (1.0 - x) * bottom + x * bottom == bottom;
    assert (1.0 - x') * bottom + x' * bottom == bottom;
  }

  /** When the two rows agree (A = C and B = D) the y weight is irrelevant. */
  lemma BilinearFlatInY(x: real, y: real, y': real, left: real, right: real)
    ensures Bilinear(x, y, left, right, left, right) == Bilinear(x, y', left, right, left, right)
  {
    var x0 := (1.0 - x) * left + x * right;
    assert (1.0 - y) * x0 + y * x0 == x0;
    assert (1.0 - y') * x0 + y' * x0 == x0;
  }

  /** Inside the unit square the result is a convex combination of the corners:
      it lies between their minimum and their maximum. */
  lemma BilinearWithinCorners(x: real, y: real, a: real, b: real, c: real, d: real)
    requires 0.0 <= x <= 1.0 && 0.0 <= y <= 1.0
    ensures Min(Min(a, b), Min(c, d)) <= Bilinear(x, y, a, b, c, d)
    ensures Bilinear(x, y, a, b, c, d) <= Max(Max(a, b), Max(c, d))
  {
    var x0 := Lerp(x, a, b);
    var x1 := Lerp(x, c, d);
    LerpBetween(x, a, b);
    LerpBetween(x, c, d);
    LerpBetween(y, x0, x1);
    assert Bilinear(x, y, a, b, c, d) == Lerp(y, x0, x1);
  }

  /** Colour bilinear interpolation: each channel, alpha included, independently. */
  function BilinearColour(x: real, y: real, v: Corners): RGBAF
  {
    RGBAF(Bilinear(x, y, v.a.r, v.b.r, v.c.r, v.d.r), Bilinear(x, y, v.a.g, v.b.g, v.c.g, v.d.g),
          Bilinear(x, y, v.a.b, v.b.b, v.c.b, v.d.b), Bilinear(x, y, v.a.a, v.b.a, v.c.a, v.d.a))
  }

  /** At the corners of the unit square the colour is that corner's colour. */
  lemma BilinearColourCorners(v: Corners)
    ensures BilinearColour(0.0, 0.0, v) == v.a
    ensures BilinearColour(1.0, 0.0, v) == v.b
    ensures BilinearColour(0.0, 1.0, v) == v.c
    ensures BilinearColour(1.0, 1.0, v) == v.d
  {
    BilinearCorners(v.a.r, v.b.r, v.c.r, v.d.r);
    BilinearCorners(v.a.g, v.b.g, v.c.g, v.d.g);
    BilinearCorners(v.a.b, v.b.b, v.c.b, v.d.b);
    BilinearCorners(v.a.a, v.b.a, v.c.a, v.d.a);
  }

  /** Four equal colours are reproduced exactly, for any weights. */
  lemma BilinearColourConstant(x: real, y: real, w: RGBAF)
    ensures BilinearColour(x, y, Corners(w, w, w, w)) == w
  {
    BilinearConstant(x, y, w.r);
    BilinearConstant(x, y, w.g);
    BilinearConstant(x, y, w.b);
    BilinearConstant(x, y, w.a);
  }

  /** floor, as an integer. */
  function Floor(x: real): (n: int)
    ensures n as real <= x < n as real + 1.0
  {
    x.Floor
  }

  /** ceil, as an integer. */
  function Ceil(x: real): (n: int)
    ensures n as real - 1.0 < x <= n as real
  {
    -((-x).Floor)
  }

  /** ceil is floor at the integers and floor + 1 everywhere else. */
  lemma CeilFloor(x: real)
    ensures Ceil(x) == Floor(x) || Ceil(x) == Floor(x) + 1
    ensures Ceil(x) == Floor(x) <==> x == Floor(x) as real
  {
  }

  /** The fractional part that modf returns: x minus x truncated toward zero,
      so it carries the sign of x. */
  function Frac(x: real): real
  {
    var whole := if x >= 0.0 then x.Floor else -((-x).Floor);
    x - whole as real
  }

  /** The fraction is x - floor(x) in [0, 1) for x >= 0 and x - ceil(x) in
      (-1, 0] for x < 0. */
  lemma FracRange(x: real)
    ensures 0.0 <= x ==> Frac(x) == x - Floor(x) as real && 0.0 <= Frac(x) < 1.0
    ensures x < 0.0 ==> Frac(x) == x - Ceil(x) as real && -1.0 < Frac(x) <= 0.0
  {
  }

  /** Whether an image can be sampled: both dimensions positive and every cell present. */
  ghost predicate Samplable(src: Image<RGBAF>)
    reads src
  {
    1 <= src.width && 1 <= src.height && src.width * src.height <= |src.values|
  }

  /** The four edge-clamped neighbours read by bilinear_get, in corner order. */
  function Neighbours(src: Image<RGBAF>, x: real, y: real): Corners
    reads src
    requires Samplable(src)
  {
    Corners(src.GetClamp(Floor(x), Floor(y)), src.GetClamp(Ceil(x), Floor(y)),
            src.GetClamp(Floor(x), Ceil(y)), src.GetClamp(Ceil(x), Ceil(y)))
  }

  /** bilinear_get: blend the clamped floor/ceil neighbours by the modf fractions. */
  function BilinearGet(src: Image<RGBAF>, x: real, y: real): RGBAF
    reads src
    requires Samplable(src)
  {
    BilinearColour(Frac(x), Frac(y), Neighbours(src, x, y))
  }

  /** At integer coordinates bilinear_get returns the clamped pixel itself. */
  lemma BilinearGetAtPixel(src: Image<RGBAF>, x: real, y: real)
    requires Samplable(src)
    requires x == Floor(x) as real && y == Floor(y) as real
    ensures BilinearGet(src, x, y) == src.GetClamp(Floor(x), Floor(y))
  {
    FracRange(x);
    FracRange(y);
    CeilFloor(x);
    CeilFloor(y);
    BilinearColourCorners(Neighbours(src, x, y));
  }

  /** bilinear_get reads nothing but get_clamp at the four floor/ceil neighbours:
      two images that agree there give the same sample. */
  lemma BilinearGetReadsNeighbours(src: Image<RGBAF>, other: Image<RGBAF>, x: real, y: real)
    requires Samplable(src) && Samplable(other)
    requires other.GetClamp(Floor(x), Floor(y)) == src.GetClamp(Floor(x), Floor(y))
    requires other.GetClamp(Ceil(x), Floor(y)) == src.GetClamp(Ceil(x), Floor(y))
    requires other.GetClamp(Floor(x), Ceil(y)) == src.GetClamp(Floor(x), Ceil(y))
    requires other.GetClamp(Ceil(x), Ceil(y)) == src.GetClamp(Ceil(x), Ceil(y))
    ensures BilinearGet(other, x, y) == BilinearGet(src, x, y)
  {
  }

  /** A grid whose every cell is c. */
  ghost predicate Uniform(src: Image<RGBAF>, c: RGBAF)
    reads src
  {
    forall i :: 0 <= i < src.width * src.height && i < |src.values| ==> src.values[i] == c
  }

  /** Sampling a uniform image anywhere returns its colour exactly. */
  lemma BilinearGetUniform(src: Image<RGBAF>, x: real, y: real, c: RGBAF)
    requires Samplable(src) && Uniform(src, c)
    ensures BilinearGet(src, x, y) == c
  {
    var n := Neighbours(src, x, y);
    GetClampCell(src, Floor(x), Floor(y));
    GetClampCell(src, Ceil(x), Floor(y));
    GetClampCell(src, Floor(x), Ceil(y));
    GetClampCell(src, Ceil(x), Ceil(y));
    assert n == Corners(c, c, c, c);
    BilinearColourConstant(Frac(x), Frac(y), c);
  }

  /** ... and so does sampling it at every point. */
  lemma BilinearGetUniformEverywhere(src: Image<RGBAF>, c: RGBAF)
    requires Samplable(src) && Uniform(src, c)
    ensures forall x, y :: BilinearGet(src, x, y) == c
  {
    forall x, y ensures BilinearGet(src, x, y) == c {
      BilinearGetUniform(src, x, y, c);
    }
  }

  /** The real-valued clamp of a coordinate to [0, hi]. */
  function ClampCoord(v: real, hi: real): (c: real)
    requires 0.0 <= hi
    ensures 0.0 <= c <= hi
    ensures 0.0 <= v <= hi ==> c == v
  {
    if v < 0.0 then 0.0 else if v > hi then hi else v
  }

  /** Clamping, not wrap-around: sampling left of column 0 or right of the last
      column gives the same colour as sampling on that edge column. */
  lemma BilinearGetClampsX(src: Image<RGBAF>, x: real, y: real)
    requires Samplable(src)
    ensures BilinearGet(src, x, y) == BilinearGet(src, ClampCoord(x, (src.width - 1) as real), y)
  {
    var hi := (src.width - 1) as real;
    var x' := ClampCoord(x, hi);
    if x != x' {
      var col := if x < 0.0 then 0 else src.width - 1;
      assert x' == col as real && Floor(x') == col && Ceil(x') == col;
      assert ClampIndex(Floor(x), src.width) == col && ClampIndex(Ceil(x), src.width) == col;
      var top := src.GetClamp(col, Floor(y));
      var bottom := src.GetClamp(col, Ceil(y));
      assert Neighbours(src, x, y) == Corners(top, top, bottom, bottom);
      assert Neighbours(src, x', y) == Corners(top, top, bottom, bottom);
      BilinearFlatInX(Frac(x), Frac(x'), Frac(y), top.r, bottom.r);
      BilinearFlatInX(Frac(x), Frac(x'), Frac(y), top.g, bottom.g);
      BilinearFlatInX(Frac(x), Frac(x'), Frac(y), top.b, bottom.b);
      BilinearFlatInX(Frac(x), Frac(x'), Frac(y), top.a, bottom.a);
    }
  }

  /** Clamping, not wrap-around: sampling above row 0 or below the last row
      gives the same colour as sampling on that edge row. */
  lemma BilinearGetClampsY(src: Image<RGBAF>, x: real, y: real)
    requires Samplable(src)
    ensures BilinearGet(src, x, y) == BilinearGet(src, x, ClampCoord(y, (src.height - 1) as real))
  {
    var hi := (src.height - 1) as real;
    var y' := ClampCoord(y, hi);
    if y != y' {
      var row := if y < 0.0 then 0 else src.height - 1;
      assert y' == row as real && Floor(y') == row && Ceil(y') == row;
      assert ClampIndex(Floor(y), src.height) == row && ClampIndex(Ceil(y), src.height) == row;
      var left := src.GetClamp(Floor(x), row);
      var right := src.GetClamp(Ceil(x), row);
      assert Neighbours(src, x, y) == Corners(left, right, left, right);
      assert Neighbours(src, x, y') == Corners(left, right, left, right);
      BilinearFlatInY(Frac(x), Frac(y), Frac(y'), left.r, right.r);
      BilinearFlatInY(Frac(x), Frac(y), Frac(y'), left.g, right.g);
      BilinearFlatInY(Frac(x), Frac(y), Frac(y'), left.b, right.b);
      BilinearFlatInY(Frac(x), Frac(y), Frac(y'), left.a, right.a);
    }
  }
}
