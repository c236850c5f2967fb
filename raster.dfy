/** The pixel grid container `Image<T>`: a row-major vector of values with a
    width and a height, updated in place. */
module Raster {
  import opened Colour

  /** Row-major flat index of column x, row y in a grid `width` wide. */
  function FlatIndex(width: nat, x: nat, y: nat): nat
  {
    width * y + x
  }

  /** Every cell (x, y) of a width x height grid has a flat index below width*height. */
  lemma FlatIndexInGrid(width: nat, height: nat, x: nat, y: nat)
    requires x < width && y < height
    ensures FlatIndex(width, x, y) < width * height
  {
    assert width * y + x < width * y + width == width * (y + 1);
    assert width * (y + 1) <= width * height by {
      MulMonotone(width, y + 1, height);
    }
  }

  /** The flat index determines the cell: dividing by the width gives back (x, y). */
  lemma FlatIndexInverse(width: nat, x: nat, y: nat)
    requires x < width
    ensures FlatIndex(width, x, y) / width == y
    ensures FlatIndex(width, x, y) % width == x
  {
    var i := width * y + x;
    assert i == y * width + x;
    DivModUnique(i, width, y, x);
  }

  /** Row-major order: a cell earlier in the scan (an earlier row, or the same
      row further left) has a smaller flat index. */
  lemma FlatIndexRowMajor(width: nat, x: nat, y: nat, x': nat, y': nat)
    requires x < width && x' < width
    requires y < y' || (y == y' && x < x')
    ensures FlatIndex(width, x, y) < FlatIndex(width, x', y')
  {
    if y < y' {
      assert width * y + x < width * (y + 1);
      MulMonotone(width, y + 1, y');
    }
  }

  lemma MulMonotone(a: nat, b: nat, c: nat)
    requires b <= c
    ensures a * b <= a * c
  {
    assert a * c == a * b + a * (c - b);
  }

  lemma DivModUnique(i: int, n: int, q: int, r: int)
    requires 0 <= r < n && i == q * n + r
    ensures i / n == q && i % n == r
  {
    var q', r' := i / n, i % n;
    var d := q - q';
    assert d * n == r' - r by {
      assert q * n + r == q' * n + r';
      assert d * n == q * n - q' * n;
    }
    if d >= 1 {
      assert d * n >= n by { MulMonotone(n, 1, d); }
    }
  }

  class Image<T> {
    var values: seq<T>
    var width: nat
    var height: nat
    /** The value-initialised element `T()` that vector resizing fills in. */
    const blank: T

    /** The size invariant the constructors and resize establish. */
    ghost predicate Sized()
      reads this
    {
      |values| == width * height
    }

    /** Image(): an empty 0x0 grid. */
    constructor Empty(blank: T)
      ensures width == 0 && height == 0 && values == [] && this.blank == blank
      ensures Sized()
    {
      values := [];
      width, height := 0, 0;
      this.blank := blank;
    }

    /** Image(w, h): a w x h grid of value-initialised cells. */
    constructor (w: nat, h: nat, blank: T)
      ensures width == w && height == h && this.blank == blank
      ensures |values| == w * h && forall i :: 0 <= i < |values| ==> values[i] == blank
      ensures Sized()
    {
      width, height := w, h;
      this.blank := blank;
      values := seq(w * h, _ => blank);
    }

    /** clear(value): a nested loop writes `value` into every cell of the grid. */
    method Clear(value: T)
      requires width * height <= |values|
      modifies this
      ensures width == old(width) && height == old(height) && |values| == old(|values|)
      ensures forall i :: 0 <= i < width * height ==> values[i] == value
      ensures forall i :: width * height <= i < |values| ==> values[i] == old(values[i])
      ensures old(Sized()) ==> Sized()
    {
      for y := 0 to height
        invariant width == old(width) && height == old(height) && |values| == old(|values|)
        invariant forall i :: 0 <= i < width * y ==> values[i] == value
        invariant forall i :: width * y <= i < |values| ==> values[i] == old(values[i])
      {
        assert width * y + width == width * (y + 1);
        MulMonotone(width, y + 1, height);
        for x := 0 to width
          invariant width == old(width) && height == old(height) && |values| == old(|values|)
          invariant forall i :: 0 <= i < width * y + x ==> values[i] == value
          invariant forall i :: width * y + x <= i < |values| ==> values[i] == old(values[i])
        {
          values := values[width * y + x := value];
        }
      }
    }

    /** clear(): clear with the element type's default value. */
    method ClearDefault()
      requires width * height <= |values|
      modifies this
      ensures width == old(width) && height == old(height) && |values| == old(|values|)
      ensures forall i :: 0 <= i < width * height ==> values[i] == blank
      ensures forall i :: width * height <= i < |values| ==> values[i] == old(values[i])
      ensures old(Sized()) ==> Sized()
    {
      Clear(blank);
    }

    /** resize(W, H): sets the dimensions; the vector keeps its first W*H old
        values and is padded with value-initialised cells. */
    method Resize(w: nat, h: nat)
      modifies this
      ensures width == w && height == h && Sized()
      ensures forall i :: 0 <= i < |values| && i < |old(values)| ==> values[i] == old(values[i])
      ensures forall i :: |old(values)| <= i < |values| ==> values[i] == blank
    {
      width := w;
      height := h;
      if w * h <= |values| {
        values := values[..w * h];
      } else {
        values := values + seq(w * h - |values|, _ => blank);
      }
    }

    /** get(x, y): the cell at flat index width*y + x; `at` rejects any other index. */
    function Get(x: nat, y: nat): T
      reads this
      requires FlatIndex(width, x, y) < |values|
    {
      values[FlatIndex(width, x, y)]
    }

    /** put(x, y, value): overwrite exactly one flat index. */
    method Put(x: nat, y: nat, value: T)
      requires FlatIndex(width, x, y) < |values|
      modifies this
      ensures width == old(width) && height == old(height)
      ensures values == old(values)[FlatIndex(width, x, y) := value]
      ensures Get(x, y) == value
      ensures forall i :: 0 <= i < |values| && i != FlatIndex(width, x, y) ==> values[i] == old(values[i])
      ensures old(Sized()) ==> Sized()
    {
      values := values[FlatIndex(width, x, y) := value];
    }

    /** get_clamp(x, y): read with both coordinates clamped to the grid. */
    function GetClamp(x: int, y: int): T
      reads this
      requires 1 <= width && 1 <= height && width * height <= |values|
    {
      var cx := ClampIndex(x, width);
      var cy := ClampIndex(y, height);
      FlatIndexInGrid(width, height, cx, cy);
      Get(cx, cy)
    }
  }

  /** `Image<RGBAF>()`: an empty colour image, whose value-initialised cell is
      `RGBAF()` with all four channels zero. */
  method NewColourImage() returns (img: Image<RGBAF>)
    ensures fresh(img)
    ensures img.width == 0 && img.height == 0 && img.values == [] && img.Sized()
    ensures img.blank == Zero() && img.blank.r == 0.0 && img.blank.a == 0.0
  {
    img := new Image.Empty(Zero());
  }

  /** `Image<RGBAF>(w, h)`: a w x h colour image of transparent black cells. */
  method NewColourGrid(w: nat, h: nat) returns (img: Image<RGBAF>)
    ensures fresh(img)
    ensures img.width == w && img.height == h && img.Sized() && img.blank == Zero()
    ensures forall i :: 0 <= i < |img.values| ==> img.values[i] == Zero()
  {
    img := new Image(w, h, Zero());
  }

  /** `clear()` on a colour image made by the constructors above writes
      transparent black `RGBAF()` into every cell. */
  method ClearColour(img: Image<RGBAF>)
    requires img.blank == Zero() && img.width * img.height <= |img.values|
    modifies img
    ensures img.width == old(img.width) && img.height == old(img.height) && |img.values| == old(|img.values|)
    ensures forall i :: 0 <= i < img.width * img.height ==>
              img.values[i].r == 0.0 && img.values[i].g == 0.0 && img.values[i].b == 0.0 && img.values[i].a == 0.0
    ensures forall i :: img.width * img.height <= i < |img.values| ==> img.values[i] == old(img.values[i])
    ensures old(img.Sized()) ==> img.Sized()
  {
    img.ClearDefault();
  }

  /** Inside the grid get_clamp reads the cell itself; outside it reads the
      cell at the clamped coordinates. */
  lemma GetClampCell<T>(img: Image<T>, x: int, y: int)
    requires 1 <= img.width && 1 <= img.height && img.width * img.height <= |img.values|
    ensures FlatIndex(img.width, ClampIndex(x, img.width), ClampIndex(y, img.height)) < img.width * img.height
    ensures img.GetClamp(x, y) == img.values[FlatIndex(img.width, ClampIndex(x, img.width), ClampIndex(y, img.height))]
    ensures 0 <= x < img.width && 0 <= y < img.height ==> img.GetClamp(x, y) == img.values[FlatIndex(img.width, x, y)]
  {
    FlatIndexInGrid(img.width, img.height, ClampIndex(x, img.width), ClampIndex(y, img.height));
  }

  /** The coordinate clamping of get_clamp: negative values become 0 and
      values at or past n become n - 1. */
  function ClampIndex(x: int, n: nat): (c: nat)
    requires 1 <= n
    ensures c < n
    ensures 0 <= x < n ==> c == x
    ensures x < 0 ==> c == 0
    ensures n <= x ==> c == n - 1
  {
    if x < 0 then 0 else if x >= n then n - 1 else x
  }

  /** Clamping is idempotent, and clamping any coordinate gives the nearest cell. */
  lemma ClampNearest(x: int, n: nat, k: nat)
    requires 1 <= n && k < n
    ensures ClampIndex(ClampIndex(x, n), n) == ClampIndex(x, n)
    ensures Dist(ClampIndex(x, n), x) <= Dist(k, x)
  {
  }

  function Dist(a: int, b: int): nat
  {
    if a <= b then b - a else a - b
  }
}
