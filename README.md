# panorotate, modelled in Dafny

panorotate reorients 360-degree equirectangular panoramas. It reads an
image, builds a rotation matrix from roll/pitch/yaw angles given on the
command line, and writes a new image. For every destination pixel it
looks up the directions of a grid of sub-pixels and rotates each one. It
converts each rotated direction back to latitude and longitude and reads
the source panorama there by bilinear interpolation. The weighted sum of
those samples is the output pixel.

This project models the computational core of that program and proves
properties of the model:

| file | module | models |
|---|---|---|
| `colour.dfy` | `Colour` | the `RGBAF` colour struct and its `+`, `+=`, `*`, `*=` and `exact_match` |
| `raster.dfy` | `Raster` | the `Image<T>` container: a row-major `values` vector with `width` and `height`, updated in place (a class) |
| `sampling.dfy` | `Sampling` | both `bilinear` overloads and `bilinear_get` |
| `linalg.dfy` | `LinAlg` | `Vec3`, `Mat3`, `LatLong`, `deg2rad`/`rad2deg`, the matrix products, `ident`, `rotX`/`rotY`/`rotZ`, `LatLong` comparison, and `latlong_to_vec3`/`vec3_to_latlong` |
| `directions.dfy` | `Directions` | the `LL2Vec3_Table` direction table: its constructor and `lookup` |
| `remap.dfy` | `Remap` | `remap_full3`, covering the Gaussian filter table, the clamped sub-sample loop and the write loop; and `remap_full1`, the 36-sample box average |
| `commandline.dfy` | `CommandLine` | from `main.cpp`: `SaveFormat::match`, `find_save_format`, `parse_order`, `make_rotation`, the defaults and the angle zero-padding loop |

Modelling conventions:

- Doubles are Dafny `real`s and `M_PI` is the exact real `3.14159265358979323846`.
- `sin`, `cos`, `asin`, `atan2` and `exp` are fields of a `LinAlg.Libm` value that every operation needing them takes as a parameter.
  - `sin`, `cos` and `asin` are arbitrary functions.
  - `atan2` is constrained to return a value in (-pi, pi].
  - `exp` is constrained to be strictly positive.
  - A lemma that needs cos 0 = 1 and sin 0 = 0 says so in its `requires`.
- `floor`/`ceil` are `.Floor` on reals.
- `modf` gives x minus x truncated toward zero, which keeps the sign of x.
- `tolower` is the C-locale mapping of `'A'..'Z'` to `'a'..'z'`.
- A value-initialised `T()` is the `blank` element passed to the `Image` constructors. Colour images are made by `Raster.NewColourImage` and `Raster.NewColourGrid`, whose `blank` is `Colour.Zero()`, the `RGBAF()` default.
- `Mat3` is a value (C++ copies it), so it is a datatype of nine entries. `At`/`Update` stand for `operator[]`. `reset` and `Mat3*Mat3` are methods with the source's loops over a local copy.
- A null `SaveFormat*` is `None`.
- The `vector<RotType>&` filled by `parse_order` is the returned sequence.
- The remap methods take `Raster.Image` objects and write the destination in place through `Put`.
  - Their contracts tie every destination pixel to a ghost function `Full3Pixel`/`Full1Pixel`. That function is the filtered sum of the samples taken in the rotated sub-pixel directions.
  - Lemmas then state what that function promises: a uniform source is a fixpoint, the filter sums to one, and `remap_full1` is a box filter.
- When the caller gives no filter width, `remap_full3` uses `s = 0.4` (`Remap.DefaultSigma`). `main` calls it that way, which `Remap.RemapFull3Default` models.

## Model

| member | source | states |
|---|---|---|
| Colour.Zero | include/image.h:53 | The default colour has all four channels 0. |
| Colour.Opaque | include/image.h:54 | The three-channel constructor keeps r, g, b and sets alpha to 1. |
| Colour.ExactMatch | src/image.cpp:11-22 | `exact_match` is true exactly when the two colours agree in every channel, i.e. are equal. |
| Colour.AddAssign | src/image.cpp:34-38 | After `onto += from`, each of the four channels is the sum of the old channel and `from`'s, i.e. `onto + from`. |
| Colour.ScaleAssign | src/image.cpp:50-54 | After `onto *= s`, each of the four channels, alpha included, is s times the old one, i.e. `s * onto`. |
| Colour.Add | src/image.cpp:24-32 | Defines `+` on colours, channel by channel with alpha included. Its algebra is stated by AddZero and AddCommutesAndAssociates. |
| Colour.Scale | src/image.cpp:40-48 | Defines `s * c`, scaling all four channels. Its algebra is stated by ScaleUnitAndZero, ScaleAddWeights and ScaleDistributes. |
| Colour.AddZero | src/image.cpp:24-32 | The default colour is a two-sided identity of `+`. |
| Colour.AddCommutesAndAssociates | src/image.cpp:24-32 | Over the reals `+` is commutative and associative, so the accumulation order of the remap loops does not matter. |
| Colour.ScaleUnitAndZero | src/image.cpp:40-48 | Scaling by 1 is the identity and scaling by 0 gives the default colour. |
| Colour.ScaleAddWeights | src/image.cpp:24-48 | s*c + t*c == (s+t)*c. |
| Colour.ScaleDistributes | src/image.cpp:24-48 | s*(x + y) == s*x + s*y. |
| Raster.FlatIndexInGrid | include/image.h:88-93 | Every cell (x, y) of a width x height grid has flat index width*y + x below width*height. |
| Raster.FlatIndexInverse | include/image.h:107-120 | The flat index width*y + x with x < width determines the cell: dividing by width gives y, with remainder x. |
| Raster.FlatIndexRowMajor | include/image.h:90-92 | A cell earlier in the clear loop's scan order (earlier row, or same row further left) has a smaller flat index. |
| Raster.Image.Empty | include/image.h:82 | `Image()` is a 0x0 grid with no values. |
| Raster.Image.constructor | include/image.h:83-86 | `Image(w, h)` sets width w and height h, and holds exactly w*h value-initialised cells. |
| Raster.Image.Clear | include/image.h:88-93 | `clear(v)` keeps the dimensions and the vector's length, and writes v into every one of the width*height cells. Cells past them keep their values. |
| Raster.Image.ClearDefault | include/image.h:95-98 | `clear()` writes the value-initialised element into every cell and changes nothing else. |
| Raster.Image.Resize | include/image.h:100-105 | `resize(W, H)` sets the dimensions and makes the vector exactly W*H long. The surviving prefix keeps its values and new cells are value-initialised. |
| Raster.Image.Get | include/image.h:112-120 | Defines `get(x, y)`: the cell at flat index width*y + x, accepted only when that index is inside the vector (`at` throws otherwise). Put's contract says `get` then returns the written value. |
| Raster.Image.Put | include/image.h:107-110 | `put(x, y, v)` is accepted when width*y + x is inside the vector. It writes v at exactly that flat index, so `get(x, y)` then returns v. Every other index and both dimensions are unchanged. |
| Raster.Image.GetClamp | include/image.h:122-135 | Defines `get_clamp(x, y)`: both coordinates clamped by ClampIndex, then `get`. GetClampCell states which cell it reads. |
| Raster.NewColourImage | include/image.h:53 | `Image<RGBAF>()` is a 0x0 sized image whose value-initialised cell is `RGBAF()`, all four channels 0. |
| Raster.NewColourGrid | include/image.h:83-86 | `Image<RGBAF>(w, h)` is a sized w x h image every cell of which is `RGBAF()`. |
| Raster.ClearColour | include/image.h:95-98 | `clear()` on such a colour image sets all four channels of every grid cell to 0. It keeps the dimensions, the vector's length and the size invariant. |
| Raster.GetClampCell | include/image.h:122-135 | For width, height >= 1, `get_clamp` reads the cell at the clamped coordinates, which is always inside the grid. For in-range coordinates that is `get(x, y)` itself. |
| Raster.ClampIndex | include/image.h:124-132 | The clamped coordinate is below n. A negative one becomes 0, one at or past n becomes n - 1, and an in-range one is unchanged. |
| Raster.ClampNearest | include/image.h:124-132 | Clamping is idempotent, and the clamped coordinate is the grid coordinate nearest to the requested one. |
| Sampling.Bilinear | src/image.cpp:63-75 | Defines scalar `bilinear`: a linear pass in x along the top (A, B) and the bottom (C, D) edge, then a linear pass in y between them. The Bilinear* lemmas state what it promises. |
| Sampling.BilinearColour | src/image.cpp:77-91 | Defines the colour overload: scalar `bilinear` applied to each of the four channels of the four corners. |
| Sampling.Frac | src/image.cpp:97-98 | Defines the `modf` fraction: x minus x truncated toward zero. FracRange states its range and sign. |
| Sampling.Neighbours | src/image.cpp:100-104 | Defines the four corners A, B, C, D that `bilinear_get` reads with `get_clamp` at (floor x, floor y), (ceil x, floor y), (floor x, ceil y) and (ceil x, ceil y). BilinearGetReadsNeighbours states that the sample depends on nothing else. |
| Sampling.BilinearGet | src/image.cpp:93-107 | Defines `bilinear_get`: the colour overload at the two `modf` fractions, over `get_clamp` at the four floor/ceil neighbours. The BilinearGet* lemmas state what it promises. |
| Sampling.LerpBetween | src/image.cpp:70-73 | For t in [0, 1] each linear pass of `bilinear` lies between its two end points. |
| Sampling.BilinearCorners | src/image.cpp:56-75 | Scalar `bilinear` returns A at (0,0), B at (1,0), C at (0,1) and D at (1,1). |
| Sampling.BilinearConstant | src/image.cpp:63-75 | With A = B = C = D = w the result is w for every x, y. |
| Sampling.BilinearFlatInX | src/image.cpp:63-75 | When A = B and C = D the x weight does not affect the result. |
| Sampling.BilinearFlatInY | src/image.cpp:63-75 | When A = C and B = D the y weight does not affect the result. |
| Sampling.BilinearWithinCorners | src/image.cpp:56-75 | For x, y in [0, 1] the result lies between the minimum and the maximum of the four corner values. |
| Sampling.BilinearColourCorners | src/image.cpp:77-91 | The colour overload (scalar `bilinear` per channel) returns the corner colours at the corners of the unit square. |
| Sampling.BilinearColourConstant | src/image.cpp:77-91 | Four equal colours are reproduced exactly for any weights. |
| Sampling.Floor | src/image.cpp:100 | `floor(x)` is the integer n with n <= x < n + 1. |
| Sampling.Ceil | src/image.cpp:101 | `ceil(x)` is the integer n with n - 1 < x <= n. |
| Sampling.CeilFloor | src/image.cpp:100-103 | ceil is floor or floor + 1, and equals floor exactly at the integers. |
| Sampling.FracRange | src/image.cpp:95-98 | The `modf` fraction is x - floor(x) in [0, 1) for x >= 0, and x - ceil(x) in (-1, 0] for x < 0. |
| Sampling.BilinearGetAtPixel | src/image.cpp:93-107 | At integer coordinates `bilinear_get` returns `get_clamp(x, y)` exactly. |
| Sampling.BilinearGetReadsNeighbours | src/image.cpp:100-103 | `bilinear_get` depends only on `get_clamp` at the four floor/ceil neighbours: two images that agree there give the same sample. |
| Sampling.BilinearGetUniform | src/image.cpp:93-107 | Sampling an image whose every cell is c gives c, at any point. |
| Sampling.BilinearGetUniformEverywhere | src/image.cpp:93-107 | The same, for all points at once. |
| Sampling.BilinearGetClampsX | src/image.cpp:93-107 | Outside [0, width-1] `bilinear_get` gives the colour of the nearest edge column (clamping, not wrap-around). |
| Sampling.BilinearGetClampsY | src/image.cpp:93-107 | Outside [0, height-1] `bilinear_get` gives the colour of the nearest edge row. |
| LinAlg.Origin | include/custom_math.h:11 | `Vec3()` is (0, 0, 0). |
| LinAlg.Mat3.Update | include/custom_math.h:32-35 | Writing through `operator[](i)`, i < 9, changes entry i to the new value and no other entry. |
| LinAlg.ZeroMatrix | include/custom_math.h:19 | `Mat3()` has all nine entries 0. |
| LinAlg.Reset | include/custom_math.h:21-25 | `reset()` zeroes all nine entries, whatever the matrix held. |
| LinAlg.Equator | include/custom_math.h:43 | `LatLong()` is latitude 0, longitude 0. |
| LinAlg.Deg2Rad | src/math.cpp:5-8 | Defines `deg2rad`: d*pi/180. DegreeRadianRoundTrip states that it inverts Rad2Deg. |
| LinAlg.Rad2Deg | src/math.cpp:10-13 | Defines `rad2deg`: r*180/pi. DegreeRadianRoundTrip states that it inverts Deg2Rad. |
| LinAlg.DegreeRadianRoundTrip | src/math.cpp:5-13 | Over the reals, `rad2deg(deg2rad(d)) == d` and `deg2rad(rad2deg(d)) == d`. |
| LinAlg.Apply | src/math.cpp:15-22 | `m * v`: component i is row i (entries 3i..3i+2) dotted with v. What the product means is stated by ApplyIdent and ApplyProduct. |
| LinAlg.Product | src/math.cpp:24-38 | Defines `m1 * m2` as a value: entry 3r+c is ProductEntry(m1, m2, r, c). Multiply, the source's loop, is proved to compute it. |
| LinAlg.Multiply | src/math.cpp:24-38 | The triple loop that accumulates into a zero matrix yields, at every index 3r+c, the sum over i of m1[3r+i]*m2[3i+c]: the row-major matrix product. |
| LinAlg.AccumulateEntry | src/math.cpp:28-35 | The inner loop adds the three terms of entry (r, c) to out[3r+c] and changes no other entry. |
| LinAlg.Ident | src/math.cpp:152-159 | Defines `ident()`. IdentIsZeroWithOnes, IdentLeftNeutral, IdentRightNeutral and ApplyIdent state what it is. |
| LinAlg.IdentIsZeroWithOnes | src/math.cpp:152-159 | `ident()` is the zero matrix with 1 written at indices 0, 4 and 8. |
| LinAlg.IdentLeftNeutral | src/math.cpp:152-159 | ident()*m == m. |
| LinAlg.IdentRightNeutral | src/math.cpp:152-159 | m*ident() == m. |
| LinAlg.ApplyIdent | src/math.cpp:152-159 | ident()*v == v. |
| LinAlg.ApplyProduct | src/math.cpp:15-38 | (m1*m2)*v == m1*(m2*v): applying a product applies the right-hand factor first. |
| LinAlg.RotX | src/math.cpp:115-126 | rotX(r) fixes (1, 0, 0) for any values of sin and cos. |
| LinAlg.RotY | src/math.cpp:128-138 | rotY(r) fixes (0, 1, 0) for any values of sin and cos. |
| LinAlg.RotZ | src/math.cpp:140-150 | rotZ(r) fixes (0, 0, 1) for any values of sin and cos. |
| LinAlg.RotationsAtZero | src/math.cpp:115-159 | Given cos 0 = 1 and sin 0 = 0, all three rotations at angle 0 are `ident()`. |
| LinAlg.LatLongEqual | src/math.cpp:40-44 | `==` holds iff both components differ by less than 1e-6. Equal points compare equal. |
| LinAlg.LatLongNotEqual | src/math.cpp:46-49 | `!=` is the negation of `==`. |
| LinAlg.LatLongEqualSymmetric | src/math.cpp:40-44 | `==` is symmetric. |
| LinAlg.LatLongEqualNotTransitive | src/math.cpp:40-44 | Because of the tolerance, `==` is not transitive: a concrete triple shows it. |
| LinAlg.LatLongToVec3 | src/math.cpp:92-101 | Defines `latlong_to_vec3`: (cos long*cos lat, sin long*cos lat, sin lat). LookupOfAngles and LookupIsDirection tie the table lookup to it. |
| LinAlg.NormaliseLongitude | src/math.cpp:107-108 | Adding 2*pi while negative ends non-negative. A non-negative value is unchanged, and a value below 2*pi stays below 2*pi. |
| LinAlg.ToLatLong | src/math.cpp:103-113 | Since atan2 lies in (-pi, pi], the converted longitude lies in [0, 2*pi). |
| LinAlg.Vec3ToLatLong | src/math.cpp:103-113 | The `while` loop computes exactly the normalised longitude (latitude is asin(z)), so the result's longitude is in [0, 2*pi). |
| Directions.SubpixelOffset | src/math.cpp:58-59 | Defines the sub-pixel coordinate xf = x + sub_x/(s-1) - 0.5 (and yf at math.cpp:70). SubpixelSpan states that it spans [p - 0.5, p + 0.5]. |
| Directions.Longitude | src/math.cpp:58-59 | Defines the longitude of a sub-column: xf/(w-1)*2*pi. BuildLongitudes stores its sine and cosine. |
| Directions.Latitude | src/math.cpp:70-71 | Defines the latitude of a sub-row: pi/2 - yf/(h-1)*pi. BuildLatitudes stores its sine and cosine. |
| Directions.SubpixelSpan | src/math.cpp:58 | For s >= 2 the sub-pixel coordinate runs from x - 0.5 at sub_x = 0 to x + 0.5 at sub_x = s - 1 (likewise for y). |
| Directions.ColumnAngleAt | src/math.cpp:54-63 | Position x*s + sub_x of the longitude vectors belongs to sub-column sub_x of column x. |
| Directions.RowAngleAt | src/math.cpp:66-75 | Position y*s + sub_y of the latitude vectors belongs to sub-row sub_y of row y. |
| Directions.Build | src/math.cpp:51-77 | The constructor produces `sin_long`/`cos_long` of length w*s and `sin_lat`/`cos_lat` of length h*s. Each entry is the sine or cosine of the angle of its (pixel, sub-pixel). |
| Directions.BuildLongitudes | src/math.cpp:54-64 | The nested push_back loop fills entry x*s + sub_x with sin/cos of that sub-column's longitude (x + sub_x/(s-1) - 0.5)/(w-1)*2*pi. |
| Directions.BuildLatitudes | src/math.cpp:66-76 | The nested push_back loop fills entry y*s + sub_y with sin/cos of that sub-row's latitude pi/2 - (y + sub_y/(s-1) - 0.5)/(h-1)*pi. |
| Directions.TableOf | src/math.cpp:51-77 | Defines the table the constructor builds, entry by entry. Build, the source's loops, is proved to produce it. |
| Directions.Lookup | src/math.cpp:79-90 | Defines `lookup(x, sub_x, y, sub_y)` from the entries at x*s + sub_x and y*s + sub_y. LookupInBounds, LookupOfAngles and LookupIsDirection state what it gives. |
| Directions.LookupInBounds | src/math.cpp:79-90 | For x < w, y < h and sub_x, sub_y < s, every index `lookup` uses is inside the table. |
| Directions.LookupOfAngles | src/math.cpp:79-101 | A lookup is (cos long*cos lat, sin long*cos lat, sin lat) of its entries, i.e. `latlong_to_vec3` of those angles. |
| Directions.LookupIsDirection | src/math.cpp:51-101 | A lookup in a freshly built table is exactly `latlong_to_vec3` of that sub-pixel's latitude and longitude. |
| Remap.Sum | src/remap.cpp:29-33 | Defines the left-to-right running `sum += filter_table[i]`. NormalisedSumsToOne and FilterIsNormalised state what dividing by it gives. |
| Remap.FilterExponent | src/remap.cpp:23-26 | Defines the exponent -(X*X + Y*Y)/(2s) with X = x - 4.5 and Y = y - 4.5. FilterTransposeSymmetric states that it is symmetric in x and y. |
| Remap.RawWeight | src/remap.cpp:23-26 | Defines the unnormalised weight exp(exponent) stored at XSAMPS*y + x. RawFilter states that every one is positive, and FillRawWeights that the fill loop writes it. |
| Remap.Normalised | src/remap.cpp:35-38 | Every weight divided by the sum, with the length kept. NormalisedSumsToOne states that the result is positive and sums to 1. |
| Remap.RawFilter | src/remap.cpp:18-27 | The filled table has XSAMPS*YSAMPS = 81 entries, each strictly positive. |
| Remap.NormalisedSumsToOne | src/remap.cpp:29-38 | Dividing positive weights by their sum keeps them positive and makes them sum to 1. |
| Remap.FilterTable | src/remap.cpp:15-38 | Defines the normalised Gaussian filter table as a value. FilterIsNormalised and FilterTransposeSymmetric state its properties, and BuildFilterTable proves the source's loops produce it. |
| Remap.FilterIsNormalised | src/remap.cpp:15-38 | The normalised filter has 81 weights, all strictly positive, summing to 1. |
| Remap.FilterTransposeSymmetric | src/remap.cpp:23-26 | The weight at (x, y) equals the weight at (y, x): it depends only on (x-4.5)^2 + (y-4.5)^2. |
| Remap.BuildFilterTable | src/remap.cpp:18-38 | The three loops over `filter_table` yield exactly the normalised filter (so 81 positive weights summing to 1). |
| Remap.FillRawWeights | src/remap.cpp:20-27 | The fill loop writes exp(-(X*X + Y*Y)/(2s)) at XSAMPS*y + x for every cell, with X = x - 4.5 and Y = y - 4.5. |
| Remap.NormaliseInPlace | src/remap.cpp:29-38 | The sum loop and divide loop leave every entry equal to its old value divided by the sum of all old values. |
| Remap.SourceX | src/remap.cpp:53 | Defines src_x = long/(2*pi)*(from.width-1), shared by remap_full1 at remap.cpp:98. SourceCoordsFull3 and SourceCoordsFull1 state where it lands after clamping. |
| Remap.SourceY | src/remap.cpp:54-55 | Defines src_y = (pi - (lat + pi/2))/pi*(from.height-1), shared by remap_full1 at remap.cpp:99-100. SourceCoordsFull3 and SourceCoordsFull1 state where it lands after clamping. |
| Remap.ClampFull3 | src/remap.cpp:57-64 | remap_full3's clamp lands in [0, hi] and leaves in-range coordinates unchanged. |
| Remap.ClampFull1 | src/remap.cpp:102-105 | remap_full1's clamp bounds from above only and leaves coordinates at or below hi unchanged. |
| Remap.ClampsAgree | src/remap.cpp:57-64 | remap_full3's upper-then-lower clamp is the two-sided clamp. remap_full1's upper clamp becomes it once the lower bound is applied. |
| Remap.Full1ClampSamplesAlike | src/remap.cpp:98-107 | Missing the lower clamp, remap_full1 still samples what remap_full3's two-sided clamp samples, because `bilinear_get` clamps its neighbours. |
| Remap.Full3Sample | src/remap.cpp:49-67 | Defines the colour of one remap_full3 sub-sample: rotate the direction, `vec3_to_latlong`, source coordinates clamped on both sides, then `bilinear_get`. Full3SampleUniform and Full1SampleIsFull3Sample state what it promises. |
| Remap.Full3Direction | src/remap.cpp:46-49 | Defines the direction of sub-sample k = sub_y*9 + sub_x as that sub-pixel's table direction. Full3DirectionAt and LookupFull3 tie it to `lookup`. |
| Remap.WeightedSum | src/remap.cpp:44-67 | Defines out_pixel after the first k terms of `out_pixel += scale * sample`, starting from `RGBAF()`. WeightedSumUniform, WeightedMeanUniform and RemapPixelFull3 state what it gives. |
| Remap.Full3SampleUniform | src/remap.cpp:49-67 | Every sub-sample of a uniform source, in any direction and under any rotation, is the source's colour. |
| Remap.WeightedSumUniform | src/remap.cpp:44-67 | Accumulating `scale * sample` over k equal samples gives the colour scaled by the sum of the first k weights. |
| Remap.WeightedMeanUniform | src/remap.cpp:44-67 | Weights that sum to 1 reproduce a colour every sample has. |
| Remap.Full3SamplesUniform | src/remap.cpp:46-67 | All 81 sub-samples of a pixel of a uniform source are the source's colour. |
| Remap.Full3Pixel | src/remap.cpp:44-68 | Defines the expected remap_full3 pixel: the weighted sum of its 81 sub-samples with the filter table's weights. RemapFull3 writes it and Full3Uniform states its fixpoint. |
| Remap.Full3Uniform | src/remap.cpp:9-72 | Since the filter sums to 1, remap_full3 maps a uniform source to that colour at every output pixel, for any rotation. |
| Remap.Full3DirectionAt | src/remap.cpp:46-49 | Sub-sample sub_y*XSAMPS + sub_x of pixel (x, y) looks in the direction of that sub-pixel of the table. |
| Remap.SourceCoordsFull3 | src/remap.cpp:53-64 | src_x = long/(2*pi)*(width-1) and src_y = (pi - (lat + pi/2))/pi*(height-1), clamped so that src_x is in [0, width-1] and src_y is in [0, height-1]. |
| Remap.LookupFull3 | src/remap.cpp:12-49 | The table is built with onto's dimensions and 9 sub-pixels. So `lookup(x, sub_x, y, sub_y)` stays in range and returns sub-sample sub_y*9 + sub_x's direction. |
| Remap.SampleDirectionFull3 | src/remap.cpp:49-67 | A sub-sample rotates the direction, converts it with `vec3_to_latlong`, clamps the source coordinates and samples with `bilinear_get`. |
| Remap.SampleFull3 | src/remap.cpp:46-67 | The loop body computes the sample of sub-sample sub_y*XSAMPS + sub_x of pixel (x, y). |
| Remap.RemapPixelFull3 | src/remap.cpp:44-68 | Starting from the zero colour, the two sub-sample loops leave out_pixel equal to the sum over k of weight[k]*sample[k], in scan order. |
| Remap.WritePixelFull3 | src/remap.cpp:44-70 | One x iteration writes that pixel's filtered colour at its flat index and changes no other cell or dimension. |
| Remap.RemapRowFull3 | src/remap.cpp:42-71 | The x loop writes exactly the cells of row y, each with its filtered colour, and changes no other cell. |
| Remap.RemapRowsFull3 | src/remap.cpp:41-71 | The y loop writes every one of the width*height cells, each with its filtered colour. Cells past them and the dimensions are unchanged. |
| Remap.RemapFull3 | src/remap.cpp:9-72 | remap_full3 keeps onto's dimensions and size. Every destination pixel (x, y) holds the filtered sum of bilinear samples at the rotated directions of its 81 sub-pixels, and nothing else changes. |
| Remap.RemapFull3Default | include/remap.h:5-9 | `remap_full3(onto, from, rot)` without a filter width, as `main` calls it (src/main.cpp:522), runs with s = 0.4, which meets the non-zero demand. Every pixel is then the filtered sum with that width. |
| Remap.Full1Direction | src/remap.cpp:87-92 | Defines the direction of remap_full1 sub-sample k = 6*sub_y + sub_x from xf and yf. Full1DirectionAt, Full1ColumnsOverlap and Full1RowsOverlap state what it is. |
| Remap.Full1LatLong | src/remap.cpp:90-92 | Defines `LatLong(pi/2 - yf/(height-1)*pi, xf/(width-1)*2*pi)`. DirectionFull1 proves that the loop body's direction is `latlong_to_vec3` of it. |
| Remap.Full1Sample | src/remap.cpp:95-107 | Defines the colour of one remap_full1 sub-sample: rotate, `vec3_to_latlong`, source coordinates clamped from above only, then `bilinear_get`. Full1SampleIsFull3Sample states that it equals the remap_full3 sample in the same direction. |
| Remap.ColourSum | src/remap.cpp:82-107 | Defines out_pixel after the first k terms of the unweighted `out_pixel += sample`. RemapPixelFull1's loop computes it, and ScaledSumIsWeighted and Full1IsBoxFiltered relate it to WeightedSum. |
| Remap.DivideChannels | src/remap.cpp:110-113 | Defines the division of each of the four channels by d. DivideIsScale states that it is scaling by 1/d. |
| Remap.Full1OffsetOverlaps | src/remap.cpp:87-88 | remap_full1's last sub-sample of pixel p (p + 5/5) lies where the first of pixel p + 1 does. |
| Remap.Full1ColumnsOverlap | src/remap.cpp:84-94 | Neighbouring columns share a sub-sample direction: the last sub-column of x is the first of x + 1. |
| Remap.Full1RowsOverlap | src/remap.cpp:84-94 | Neighbouring rows share a sub-sample direction. |
| Remap.Full1SampleIsFull3Sample | src/remap.cpp:94-107 | Each remap_full1 sample equals the remap_full3 sample in the same direction, despite the missing lower clamp. |
| Remap.ScaledSumIsWeighted | src/remap.cpp:107-113 | Scaling the plain sum of k samples by w gives the weighted sum of those samples with k equal weights w. |
| Remap.DivideIsScale | src/remap.cpp:110-113 | Dividing each of the four channels by d is scaling by 1/d. |
| Remap.Full1Pixel | src/remap.cpp:82-113 | Defines the expected remap_full1 pixel: the plain sum of its 36 sub-samples, each channel divided by 36. Full1IsBoxFiltered and Full1Uniform state what it is. |
| Remap.Full1IsBoxFiltered | src/remap.cpp:82-113 | remap_full1's pixel, the channel-wise division by 36 of the plain sum of its 36 samples, is the weighted sum with 36 equal weights 1/36. Those weights sum to 1. |
| Remap.Full1Uniform | src/remap.cpp:76-117 | remap_full1 maps a uniform source to that colour at every output pixel. |
| Remap.Full1DirectionAt | src/remap.cpp:84-94 | Sub-sample 6*sub_y + sub_x of pixel (x, y) looks in the direction of xf = x + sub_x/5, yf = y + sub_y/5. |
| Remap.DirectionFull1 | src/remap.cpp:87-94 | The loop body converts xf, yf to latitude pi/2 - yf/(height-1)*pi and longitude xf/(width-1)*2*pi, then calls `latlong_to_vec3`. |
| Remap.SourceCoordsFull1 | src/remap.cpp:98-105 | remap_full1's source coordinates are bounded above by width-1 and height-1, with no lower clamp. |
| Remap.SampleDirectionFull1 | src/remap.cpp:95-107 | A remap_full1 sub-sample rotates, converts, upper-clamps and samples with `bilinear_get`. |
| Remap.SampleFull1 | src/remap.cpp:84-107 | The loop body computes the sample of sub-sample 6*sub_y + sub_x. |
| Remap.RemapPixelFull1 | src/remap.cpp:82-113 | The sub_x, sub_y in 0..5 loops sum the 36 samples from the zero colour, and all four channels are divided by 36. |
| Remap.WritePixelFull1 | src/remap.cpp:82-115 | One x iteration writes that pixel's mean colour at its flat index and changes no other cell or dimension. |
| Remap.RemapRowFull1 | src/remap.cpp:80-116 | The x loop writes exactly the cells of row y and changes no other cell. |
| Remap.RemapRowsFull1 | src/remap.cpp:79-116 | The y loop writes every one of the width*height cells with its mean colour, and changes nothing else. |
| Remap.RemapFull1 | src/remap.cpp:76-117 | remap_full1 keeps onto's dimensions and size. Every destination pixel holds the mean of its 36 samples, and nothing else changes. |
| CommandLine.ToLower | src/main.cpp:74-75 | Defines C-locale `tolower`. ToLowerLowers states what it does. |
| CommandLine.ToLowerLowers | src/main.cpp:74-75 | `tolower` leaves no upper-case letter, is idempotent, and changes exactly the upper-case letters. |
| CommandLine.SameIgnoringCase | src/main.cpp:65-82 | Defines the relation `match` tests: equal lengths and equal characters after `tolower`. Match is proved iff it, and SameIgnoringCaseIsLoweredEquality states it is equality of lowered strings. |
| CommandLine.SameIgnoringCaseIsLoweredEquality | src/main.cpp:65-82 | Two strings match ignoring case iff their lowered forms are equal (both directions). |
| CommandLine.SameAsLowered | src/main.cpp:65-82 | Every string matches its own lowered form. |
| CommandLine.Match | src/main.cpp:65-82 | `match(input)` is true iff the lengths are equal and every character agrees after `tolower` (both directions). |
| CommandLine.FirstMatch | src/main.cpp:168-179 | The result is the first matching index at or after start, with no match before it, or none iff no entry matches. |
| CommandLine.FindSaveFormat | src/main.cpp:168-179 | `find_save_format` returns the first entry of the table, in table order, whose flag matches, or null iff none does. |
| CommandLine.FirstMatchIgnoresCase | src/main.cpp:168-179 | Names that match each other ignoring case find the same entry. |
| CommandLine.FlagsDistinct | src/main.cpp:117-125 | No two flags of `save_format_table` match each other ignoring case. |
| CommandLine.FirstMatchOfDistinct | src/main.cpp:168-179 | In a table with pairwise distinct flags, a name matching entry i is found at i. |
| CommandLine.FlagsFindThemselves | src/main.cpp:117-125 | Every flag, in any case, selects its own entry. The default entry 0 is "TIFF" with the plain TIFF saver, and "JPG" and "JPEG" select the same saver. |
| CommandLine.AxisOf | src/main.cpp:194-213 | Defines the letter switch of `parse_order`: R/r, P/p and Y/y give ROT_X, ROT_Y and ROT_Z, and any other character gives none. AxisIgnoresCase states it. |
| CommandLine.AxisIgnoresCase | src/main.cpp:194-213 | The order letters are case-insensitive. Exactly R, P and Y (either case) name an axis, and each names a different one. |
| CommandLine.ParseOrder | src/main.cpp:188-217 | `parse_order` returns true iff every character is one of R/r/P/p/Y/y. `out` maps each character read, in input order, with R to ROT_X, P to ROT_Y and Y to ROT_Z. On success `out` is as long as `order`; on failure it is exactly the prefix before the first invalid character. |
| CommandLine.MakeRotation | src/main.cpp:220-249 | `make_rotation` returns ident()*R(order[0], a0)*...*R(order[n-1], a(n-1)), multiplied left to right, with each angle converted from degrees. |
| CommandLine.AxisRotation | src/main.cpp:227-243 | Defines the switch that picks rotX, rotY or rotZ for a step. AxisRotationAtZero states that each is `ident()` at angle 0. |
| CommandLine.Composed | src/main.cpp:220-249 | Defines the product of the first n steps, multiplied left to right onto `ident()`. MakeRotation's loop computes it, and the lemmas below state what it promises. |
| CommandLine.ComposedAppliesInTurn | src/main.cpp:220-249 | The composed matrix applied to a direction equals applying the steps one at a time, the last step of the order first. |
| CommandLine.DefaultSequenceOrder | src/main.cpp:260-263 | With the default sequence [ROT_X, ROT_Y, ROT_Z], the matrix that remap applies to each destination direction, to find where to read the source, applies RotZ, then RotY, then RotX. The image itself undergoes the inverse rotation, which rolls first, then pitches, then yaws, as the usage text (main.cpp:37-38) says. Proving that inverse needs orthonormality, which the model does not assume (see Left out). |
| CommandLine.ExtraAnglesIgnored | src/main.cpp:220-249 | Only the first |order| angles take part, so extra angles are ignored. |
| CommandLine.AxisRotationAtZero | src/main.cpp:227-243 | Given cos 0 = 1 and sin 0 = 0, each step at angle 0 is `ident()`. |
| CommandLine.ZeroAnglesAddNothing | src/main.cpp:220-249 | Given cos 0 = 1 and sin 0 = 0, trailing steps at angle 0 leave the product unchanged. |
| CommandLine.PadAngles | src/main.cpp:406-409 | After the loop there are max(|sequence|, |angles|) angles. The original ones are unchanged and every appended one is 0.0. |
| CommandLine.MakeDestination | src/main.cpp:420-511 | `main`'s `dst`, declared empty and resized to the source's size, is sized to those dimensions and every cell is `RGBAF()`. |
| CommandLine.PaddingAddsNoRotation | src/main.cpp:401-416 | After padding, `make_rotation`'s demand for an angle per step is met. When angles were missing, the rotation equals the product over the specified angles alone. |

## Left out

- File I/O: loading and saving TIFF and JPEG through libtiff and libjpeg, and the save-parameter record with its bps/spp/quality defaults. These are foreign calls on files.
- `convert_image`: a truncating double-to-byte conversion used only for output.
- Program plumbing in `main`:
  - the usage text and `print_save_formats`;
  - the argv loop with `sscanf`/`atoi` and the printing;
  - the default 90-degree test roll and the test-mode branch;
  - the `save_tiff_*` wrappers that set bps/spp, and the dispatch through the chosen save function, which is modelled only as the `Saver` tag of each table entry.
- `remap_fast`, the preview path: it is not defined in any of the modelled files.
- The double-rotation quality test and the lat/long grid generator script: they print statistics and have no contract.
- OpenMP parallel loops: the remap loops are modelled sequentially.
- Floating-point behaviour: rounding, NaN, infinities and IEEE semantics. Channels, angles and matrix entries are exact reals.
- Trigonometric facts: unit length of directions, `latlong_to_vec3` inverting `vec3_to_latlong`, orthonormality of the rotations, and any image-quality bound. These need properties of `sin`, `cos`, `asin` and `atan2` that the model deliberately does not assume.
- `transpose`: declared in the header but defined nowhere.
- Aliasing of `onto` and `from`: the remap methods require distinct images.
- Raster.Image.Get: returns the value. The mutable reference that C++ `get` hands out is not modelled, because writes go through `Put`.
- Raster.Image.Clear: requires `width*height <= |values|`, since the C++ loop uses unchecked `operator[]` and is undefined on a short vector.
- Raster.Image.Sized: every image `main` builds keeps `|values| == width*height`. The constructors and Resize establish it, and Clear, ClearDefault, Put and the remap methods keep it. `main` resizes `dst` to `src`'s dimensions before `remap_full3` (src/main.cpp:511, modelled by CommandLine.MakeDestination). So the `width*height <= |values|` preconditions below hold for every image of the program.
- Directions.Build: requires width, height and sub-pixel count all different from 1, because each of those values minus 1 is a divisor (C++ would produce infinities or NaN there).
- Remap.RemapFull3 and Remap.RemapFull1: require destination dimensions different from 1 for the same reason.
- Remap.RemapFull3 and Remap.RemapFull1: require `onto.width*onto.height <= |onto.values|`, because `onto.put` calls `values.at` (include/image.h:109), which throws on an index past the vector. The loops write every cell, so this is exactly the condition under which no `put` throws.
- Sampling.Samplable: requires the source to be at least 1x1, since `get_clamp` computes width - 1 and height - 1 on unsigned sizes. It also requires `width*height <= |values|`. `get` calls `values.at` (include/image.h:119), which throws past the vector. The largest clamped index is width*height - 1, so this is exactly the condition under which `bilinear_get` never throws, whatever the coordinates.
- Remap.RemapFull3: requires a filter width s different from 0, where C++ divides by zero.
- Raster.Image.GetClamp and Raster.GetClampCell: require width and height of at least 1, for the same unsigned width - 1 reason. They also require `width*height <= |values|` for the same `values.at` reason. A single call needs only its own clamped index inside the vector.
- Integer widths: `size_t` and `int` are unbounded `nat` and `int`, so overflow is not modelled. This covers `get_clamp`'s `int` parameters taken from `floor` of a double (src/image.cpp:100-103), the `size_t` arithmetic width*y + x in `get` and `put`, and the narrowing of `size_t` dimensions to `LL2Vec3_Table(int w, int h, int s)` (src/remap.cpp:12, src/math.cpp:51).
- CommandLine.MakeRotation: requires at least as many angles as steps. C++ `angles.at(i)` would throw otherwise; `main` always pads first.
- CommandLine.ParseOrder: the in/out vector is returned as a new sequence, so the initial `clear()` is implicit.
- `tolower` on characters outside 7-bit ASCII: it is the C-locale mapping, and the undefined behaviour for negative `char` values is not modelled.
- The `bilinear` overloads take four scalars or a `Corners` value instead of a pointer to a four-element array.
