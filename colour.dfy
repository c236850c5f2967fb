/** Floating-point RGBA colour values and their component-wise arithmetic
    (the RGBAF struct and its operators). Channels are modelled as reals. */
module Colour {

  /** An RGBA colour with four unconstrained channels. */
  datatype RGBAF = RGBAF(r: real, g: real, b: real, a: real)

  /** The default constructor: every channel zero. */
  function Zero(): (c: RGBAF)
    ensures c.r == 0.0 && c.g == 0.0 && c.b == 0.0 && c.a == 0.0
  {
    RGBAF(0.0, 0.0, 0.0, 0.0)
  }

  /** The three-argument constructor: an opaque colour (alpha 1). */
  function Opaque(r: real, g: real, b: real): (c: RGBAF)
    ensures c.a == 1.0
    ensures c == RGBAF(r, g, b, 1.0)
  {
    RGBAF(r, g, b, 1.0)
  }

  /** Exact channel-by-channel comparison. */
  function ExactMatch(x: RGBAF, y: RGBAF): (same: bool)
    ensures same <==> x == y
  {
    !(x.r != y.r || x.g != y.g || x.b != y.b || x.a != y.a)
  }

  /** operator+: component-wise sum over all four channels. */
  function Add(c0: RGBAF, c1: RGBAF): RGBAF
  {
    RGBAF(c0.r + c1.r, c0.g + c1.g, c0.b + c1.b, c0.a + c1.a)
  }

  /** operator*(double, RGBAF): every channel, alpha included, is scaled. */
  function Scale(s: real, c: RGBAF): RGBAF
  {
    RGBAF(s * c.r, s * c.g, s * c.b, s * c.a)
  }

  /** operator+=: `onto` is overwritten with `onto + from`; the new value is returned. */
  method AddAssign(onto: RGBAF, from: RGBAF) returns (updated: RGBAF)
    ensures updated.r == onto.r + from.r && updated.g == onto.g + from.g
    ensures updated.b == onto.b + from.b && updated.a == onto.a + from.a
    ensures updated == Add(onto, from)
  {
    updated := onto;
    updated := Add(updated, from);
  }

  /** operator*=: `onto` is overwritten with `s * onto`; the new value is returned. */
  method ScaleAssign(onto: RGBAF, s: real) returns (updated: RGBAF)
    ensures updated.r == s * onto.r && updated.g == s * onto.g
    ensures updated.b == s * onto.b && updated.a == s * onto.a
    ensures updated == Scale(s, onto)
  {
    updated := onto;
    updated := Scale(s, updated);
  }

  /** The zero colour is the identity of Add, on both sides. */
  lemma AddZero(c: RGBAF)
    ensures Add(Zero(), c) == c && Add(c, Zero()) == c
  {
  }

  /** Add is commutative and associative, so the order of accumulation only
      matters for rounding, which the model leaves out. */
  lemma AddCommutesAndAssociates(x: RGBAF, y: RGBAF, z: RGBAF)
    ensures Add(x, y) == Add(y, x)
    ensures Add(Add(x, y), z) == Add(x, Add(y, z))
  {
  }

  /** Scaling by 1 is the identity; scaling by 0 gives Zero(). */
  lemma ScaleUnitAndZero(c: RGBAF)
    ensures Scale(1.0, c) == c
    ensures Scale(0.0, c) == Zero()
  {
  }

  /** Scaling distributes over a sum of weights: s*c + t*c == (s+t)*c. */
  lemma ScaleAddWeights(s: real, t: real, c: RGBAF)
    ensures Add(Scale(s, c), Scale(t, c)) == Scale(s + t, c)
  {
    assert s * c.r + t * c.r == (s + t) * c.r;
    assert s * c.g + t * c.g == (s + t) * c.g;
    assert s * c.b + t * c.b == (s + t) * c.b;
    assert s * c.a + t * c.a == (s + t) * c.a;
  }

  /** Scaling distributes over Add. */
  lemma ScaleDistributes(s: real, x: RGBAF, y: RGBAF)
    ensures Scale(s, Add(x, y)) == Add(Scale(s, x), Scale(s, y))
  {
    assert s * (x.r + y.r) == s * x.r + s * y.r;
    assert s * (x.g + y.g) == s * x.g + s * y.g;
    assert s * (x.b + y.b) == s * x.b + s * y.b;
    assert s * (x.a + y.a) == s * x.a + s * y.a;
  }
}
