/** 3-vectors, row-major 3x3 matrices, latitude/longitude pairs, the axis
    rotations and the two spherical conversions. The C math library's
    transcendental functions are parameters that carry only their ranges. */
module LinAlg {

  /** M_PI, as an exact real. */
  const PI: real := 3.14159265358979323846

  /** atan2 returns an angle in (-pi, pi]. */
  type Atan2 = f: (real, real) -> real | forall y, x :: -PI < f(y, x) <= PI witness (y, x) => 0.0
  /** exp is strictly positive. */
  type Exp = f: real -> real | forall t :: 0.0 < f(t) witness t => 1.0

  /** atan2 and exp, the two functions of <cmath> whose ranges the model uses. */
  datatype Ranged = Ranged(atan2: Atan2, exp: Exp)

  /** The transcendental functions of <cmath> that the core calls: sin, cos and
      asin are arbitrary; the ranged pair carries the only facts the model uses. */
  datatype Libm = Libm(sin: real -> real, cos: real -> real, asin: real -> real, ranged: Ranged)

  datatype Vec3 = Vec3(x: real, y: real, z: real)

  /** Vec3(): the zero vector. */
  function Origin(): (v: Vec3)
    ensures v.x == 0.0 && v.y == 0.0 && v.z == 0.0
  {
    Vec3(0.0, 0.0, 0.0)
  }

  /** Mat3: the nine entries of `double value[9]`, row-major; entry (r, c) is
      value[3*r + c]. */
  datatype Mat3 = Mat3(v0: real, v1: real, v2: real, v3: real, v4: real, v5: real, v6: real, v7: real, v8: real)
  {
    /** Reading operator[](i). */
    function At(i: nat): real
      requires i < 9
    {
      if i == 0 then v0 else if i == 1 then v1 else if i == 2 then v2
      else if i == 3 then v3 else if i == 4 then v4 else if i == 5 then v5
      else if i == 6 then v6 else if i == 7 then v7 else v8
    }

    /** Writing through operator[](i): entry i becomes x, the others stay. */
    function Update(i: nat, x: real): (m: Mat3)
      requires i < 9
      ensures m.At(i) == x
      ensures forall j :: 0 <= j < 9 && j != i ==> m.At(j) == At(j)
    {
      if i == 0 then this.(v0 := x) else if i == 1 then this.(v1 := x) else if i == 2 then this.(v2 := x)
      else if i == 3 then this.(v3 := x) else if i == 4 then this.(v4 := x) else if i == 5 then this.(v5 := x)
      else if i == 6 then this.(v6 := x) else if i == 7 then this.(v7 := x) else this.(v8 := x)
    }
  }

  /** Two matrices with the same nine entries are the same matrix. */
  lemma Mat3Equal(a: Mat3, b: Mat3)
    requires forall i :: 0 <= i < 9 ==> a.At(i) == b.At(i)
    ensures a == b
  {
    assert a.At(0) == b.At(0) && a.At(1) == b.At(1) && a.At(2) == b.At(2);
    assert a.At(3) == b.At(3) && a.At(4) == b.At(4) && a.At(5) == b.At(5);
    assert a.At(6) == b.At(6) && a.At(7) == b.At(7) && a.At(8) == b.At(8);
  }

  /** Mat3(): all nine entries zero. */
  function ZeroMatrix(): (m: Mat3)
    ensures forall i :: 0 <= i < 9 ==> m.At(i) == 0.0
  {
    Mat3(0.0, 0.0, 0.0, 0.0, 0.0, 0.0, 0.0, 0.0, 0.0)
  }

  /** Mat3::reset(): a loop overwrites every entry with zero. */
  method Reset(m: Mat3) returns (cleared: Mat3)
    ensures cleared == ZeroMatrix()
  {
    cleared := m;
    for i := 0 to 9
      invariant forall j :: 0 <= j < i ==> cleared.At(j) == 0.0
    {
      cleared := cleared.Update(i, 0.0);
    }
    Mat3Equal(cleared, ZeroMatrix());
  }

  datatype LatLong = LatLong(lat: real, long: real)

  /** LatLong(): latitude and longitude zero. */
  function Equator(): (ll: LatLong)
    ensures ll.lat == 0.0 && ll.long == 0.0
  {
    LatLong(0.0, 0.0)
  }

  function Deg2Rad(deg: real): real
  {
    PI / 180.0 * deg
  }

  function Rad2Deg(rad: real): real
  {
    180.0 / PI * rad
  }

  /** Converting degrees to radians and back is exact over the reals, both ways. */
  lemma DegreeRadianRoundTrip(d: real)
    ensures Rad2Deg(Deg2Rad(d)) == d
    ensures Deg2Rad(Rad2Deg(d)) == d
  {
    assert 180.0 / PI * (PI / 180.0) == 1.0;
    assert 180.0 / PI * (PI / 180.0 * d) == (180.0 / PI * (PI / 180.0)) * d;
    assert PI / 180.0 * (180.0 / PI * d) == (180.0 / PI * (PI / 180.0)) * d;
  }

  /** Dot product of row r of m with the column vector v. */
  function Row(m: Mat3, r: nat, v: Vec3): real
    requires r < 3
  {
    v.x * m.At(3 * r) + v.y * m.At(3 * r + 1) + v.z * m.At(3 * r + 2)
  }

  /** operator*(Mat3, Vec3): row-major matrix times column vector. */
  function Apply(m: Mat3, v: Vec3): (out: Vec3)
    ensures out.x == Row(m, 0, v) && out.y == Row(m, 1, v) && out.z == Row(m, 2, v)
  {
    Vec3(v.x * m.v0 + v.y * m.v1 + v.z * m.v2,
         v.x * m.v3 + v.y * m.v4 + v.z * m.v5,
         v.x * m.v6 + v.y * m.v7 + v.z * m.v8)
  }

  /** Entry (r, c) of m1 * m2: the sum over i of m1[3r+i] * m2[3i+c]. */
  function ProductEntry(m1: Mat3, m2: Mat3, r: nat, c: nat): real
    requires r < 3 && c < 3
  {
    m1.At(3 * r) * m2.At(c) + m1.At(3 * r + 1) * m2.At(3 + c) + m1.At(3 * r + 2) * m2.At(6 + c)
  }

  /** The matrix product, as a reference definition entry by entry. */
  function Product(m1: Mat3, m2: Mat3): Mat3
  {
    Mat3(ProductEntry(m1, m2, 0, 0), ProductEntry(m1, m2, 0, 1), ProductEntry(m1, m2, 0, 2),
         ProductEntry(m1, m2, 1, 0), ProductEntry(m1, m2, 1, 1), ProductEntry(m1, m2, 1, 2),
         ProductEntry(m1, m2, 2, 0), ProductEntry(m1, m2, 2, 1), ProductEntry(m1, m2, 2, 2))
  }

  /** Entry (r, c) of the product sits at flat index 3r + c. */
  lemma ProductAt(m1: Mat3, m2: Mat3, r: nat, c: nat)
    requires r < 3 && c < 3
    ensures Product(m1, m2).At(3 * r + c) == ProductEntry(m1, m2, r, c)
  {
  }

  /** operator*(Mat3, Mat3): a triple loop accumulates into a zero matrix. */
  method Multiply(m1: Mat3, m2: Mat3) returns (out: Mat3)
    ensures out == Product(m1, m2)
  {
    ghost var p := Product(m1, m2);
    out := ZeroMatrix();
    for r := 0 to 3
      invariant forall k :: 0 <= k < 3 * r ==> out.At(k) == p.At(k)
      invariant forall k :: 3 * r <= k < 9 ==> out.At(k) == 0.0
    {
      for c := 0 to 3
        invariant forall k :: 0 <= k < 3 * r + c ==> out.At(k) == p.At(k)
        invariant forall k :: 3 * r + c <= k < 9 ==> out.At(k) == 0.0
      {
        out := AccumulateEntry(out, m1, m2, r, c);
        ProductAt(m1, m2, r, c);
      }
    }
    Mat3Equal(out, p);
  }

  /** The innermost loop of operator*: out[3r+c] += m1[3r+i] * m2[3i+c] for i = 0, 1, 2. */
  method AccumulateEntry(acc: Mat3, m1: Mat3, m2: Mat3, r: nat, c: nat) returns (out: Mat3)
    requires r < 3 && c < 3
    ensures out.At(3 * r + c) == acc.At(3 * r + c) + ProductEntry(m1, m2, r, c)
    ensures forall j :: 0 <= j < 9 && j != 3 * r + c ==> out.At(j) == acc.At(j)
  {
    var k := 3 * r + c;
    out := acc;
    for i := 0 to 3
      invariant out.At(k) == acc.At(k) + PartialEntry(m1, m2, r, c, i)
      invariant forall j :: 0 <= j < 9 && j != k ==> out.At(j) == acc.At(j)
    {
      PartialEntryStep(m1, m2, r, c, i);
      out := out.Update(k, out.At(k) + m1.At(3 * r + i) * m2.At(3 * i + c));
    }
    PartialEntryComplete(m1, m2, r, c);
  }

  /** The first n terms of the sum for entry (r, c). */
  function PartialEntry(m1: Mat3, m2: Mat3, r: nat, c: nat, n: nat): real
    requires r < 3 && c < 3 && n <= 3
  {
    if n == 0 then 0.0 else PartialEntry(m1, m2, r, c, n - 1) + m1.At(3 * r + n - 1) * m2.At(3 * (n - 1) + c)
  }

  lemma PartialEntryStep(m1: Mat3, m2: Mat3, r: nat, c: nat, i: nat)
    requires r < 3 && c < 3 && i < 3
    ensures PartialEntry(m1, m2, r, c, i + 1) == PartialEntry(m1, m2, r, c, i) + m1.At(3 * r + i) * m2.At(3 * i + c)
  {
  }

  /** All three terms make the product entry. */
  lemma PartialEntryComplete(m1: Mat3, m2: Mat3, r: nat, c: nat)
    requires r < 3 && c < 3
    ensures PartialEntry(m1, m2, r, c, 3) == ProductEntry(m1, m2, r, c)
  {
    assert PartialEntry(m1, m2, r, c, 1) == m1.At(3 * r) * m2.At(c);
    assert PartialEntry(m1, m2, r, c, 2) == m1.At(3 * r) * m2.At(c) + m1.At(3 * r + 1) * m2.At(3 + c);
  }

  /** ident(): ones on the diagonal, zeros elsewhere. */
  function Ident(): Mat3
  {
    Mat3(1.0, 0.0, 0.0, 0.0, 1.0, 0.0, 0.0, 0.0, 1.0)
  }

  /** ident() builds it by writing ones at indices 0, 4 and 8 of a zero matrix. */
  lemma IdentIsZeroWithOnes()
    ensures Ident() == ZeroMatrix().Update(0, 1.0).Update(4, 1.0).Update(8, 1.0)
  {
  }

  /** The identity is neutral on the left of a product. */
  lemma IdentLeftNeutral(m: Mat3)
    ensures Product(Ident(), m) == m
  {
  }

  /** The identity is neutral on the right of a product. */
  lemma IdentRightNeutral(m: Mat3)
    ensures Product(m, Ident()) == m
  {
  }

  /** The identity leaves every vector where it is. */
  lemma ApplyIdent(v: Vec3)
    ensures Apply(Ident(), v) == v
  {
  }

  /** Applying a product is applying its factors, the right-hand one first. */
  lemma ApplyProduct(m1: Mat3, m2: Mat3, v: Vec3)
    ensures Apply(Product(m1, m2), v) == Apply(m1, Apply(m2, v))
  {
    Regroup(m1.v0, m1.v1, m1.v2, m2, v);
    Regroup(m1.v3, m1.v4, m1.v5, m2, v);
    Regroup(m1.v6, m1.v7, m1.v8, m2, v);
  }

  /** One row of the product applied to v, regrouped as that row applied to m2 * v. */
  lemma Regroup(a0: real, a1: real, a2: real, m2: Mat3, v: Vec3)
    ensures v.x * (a0 * m2.v0 + a1 * m2.v3 + a2 * m2.v6) + v.y * (a0 * m2.v1 + a1 * m2.v4 + a2 * m2.v7) + v.z * (a0 * m2.v2 + a1 * m2.v5 + a2 * m2.v8)
         == (v.x * m2.v0 + v.y * m2.v1 + v.z * m2.v2) * a0 + (v.x * m2.v3 + v.y * m2.v4 + v.z * m2.v5) * a1 + (v.x * m2.v6 + v.y * m2.v7 + v.z * m2.v8) * a2
  {
  }

  /** rotX(r): rotates Y towards Z by spinning about the X axis; entries 0, 4,
      5, 7 and 8 of a zero matrix are set. */
  function RotX(angle: real, libm: Libm): (m: Mat3)
    ensures Apply(m, Vec3(1.0, 0.0, 0.0)) == Vec3(1.0, 0.0, 0.0)
  {
    var c, s := libm.cos(angle), libm.sin(angle);
    Mat3(1.0, 0.0, 0.0,
         0.0, c,   -s,
         0.0, s,   c)
  }

  /** rotY(r): rotates X towards Z by spinning about the Y axis; entries 0, 2,
      4, 6 and 8 of a zero matrix are set. */
  function RotY(angle: real, libm: Libm): (m: Mat3)
    ensures Apply(m, Vec3(0.0, 1.0, 0.0)) == Vec3(0.0, 1.0, 0.0)
  {
    var c, s := libm.cos(angle), libm.sin(angle);
    Mat3(c,   0.0, -s,
         0.0, 1.0, 0.0,
         s,   0.0, c)
  }

  /** rotZ(r): rotates X towards Y by spinning about the Z axis; entries 0, 1,
      3, 4 and 8 of a zero matrix are set. */
  function RotZ(angle: real, libm: Libm): (m: Mat3)
    ensures Apply(m, Vec3(0.0, 0.0, 1.0)) == Vec3(0.0, 0.0, 1.0)
  {
    var c, s := libm.cos(angle), libm.sin(angle);
    Mat3(c,   -s,  0.0,
         s,   c,   0.0,
         0.0, 0.0, 1.0)
  }

  /** At angle zero each rotation is the identity whenever cos 0 = 1 and sin 0 = 0. */
  lemma RotationsAtZero(libm: Libm)
    requires libm.cos(0.0) == 1.0 && libm.sin(0.0) == 0.0
    ensures RotX(0.0, libm) == Ident() && RotY(0.0, libm) == Ident() && RotZ(0.0, libm) == Ident()
  {
    RotXAtZero(libm);
    RotYAtZero(libm);
    RotZAtZero(libm);
  }

  lemma RotXAtZero(libm: Libm)
    requires libm.cos(0.0) == 1.0 && libm.sin(0.0) == 0.0
    ensures RotX(0.0, libm) == Ident()
  {
  }

  lemma RotYAtZero(libm: Libm)
    requires libm.cos(0.0) == 1.0 && libm.sin(0.0) == 0.0
    ensures RotY(0.0, libm) == Ident()
  {
  }

  lemma RotZAtZero(libm: Libm)
    requires libm.cos(0.0) == 1.0 && libm.sin(0.0) == 0.0
    ensures RotZ(0.0, libm) == Ident()
  {
  }

  const EPS: real := 0.000001

  function Abs(v: real): real { if v < 0.0 then -v else v }

  /** operator==(LatLong, LatLong): both components within EPS. */
  function LatLongEqual(p: LatLong, q: LatLong): (eq: bool)
    ensures p == q ==> eq
    ensures eq ==> -EPS < p.lat - q.lat < EPS && -EPS < p.long - q.long < EPS
    ensures !eq ==> Abs(p.lat - q.lat) >= EPS || Abs(p.long - q.long) >= EPS
  {
    Abs(p.lat - q.lat) < EPS && Abs(p.long - q.long) < EPS
  }

  /** operator!=(LatLong, LatLong): the negation of operator==. */
  function LatLongNotEqual(p: LatLong, q: LatLong): (ne: bool)
    ensures ne <==> !LatLongEqual(p, q)
  {
    !LatLongEqual(p, q)
  }

  /** operator== is symmetric. */
  lemma LatLongEqualSymmetric(p: LatLong, q: LatLong)
    ensures LatLongEqual(p, q) == LatLongEqual(q, p)
  {
  }

  /** The tolerance makes operator== not transitive: two near points each
      equal a midpoint without being equal to each other. */
  lemma LatLongEqualNotTransitive()
    ensures LatLongEqual(LatLong(0.0, 0.0), LatLong(0.0, 0.0000006))
    ensures LatLongEqual(LatLong(0.0, 0.0000006), LatLong(0.0, 0.0000012))
    ensures !LatLongEqual(LatLong(0.0, 0.0), LatLong(0.0, 0.0000012))
  {
  }

  /** latlong_to_vec3: the direction (cos long cos lat, sin long cos lat, sin lat). */
  function LatLongToVec3(ll: LatLong, libm: Libm): (v: Vec3)
  {
    Vec3(libm.cos(ll.long) * libm.cos(ll.lat), libm.sin(ll.long) * libm.cos(ll.lat), libm.sin(ll.lat))
  }

  /** The number of 2*pi steps the normalisation loop may still take. */
  function Turns(l: real): nat
  {
    if l < 0.0 then (-l).Floor + 1 else 0
  }

  /** The effect of the normalisation loop in vec3_to_latlong: add 2*pi while negative. */
  function NormaliseLongitude(l: real): (r: real)
    ensures 0.0 <= r
    ensures 0.0 <= l ==> r == l
    ensures l < 2.0 * PI ==> r < 2.0 * PI
    decreases Turns(l)
  {
    if l < 0.0 then NormaliseLongitude(l + 2.0 * PI) else l
  }

  /** The spherical coordinate that vec3_to_latlong computes. */
  function ToLatLong(v: Vec3, libm: Libm): (ll: LatLong)
    ensures 0.0 <= ll.long < 2.0 * PI
  {
    LatLong(libm.asin(v.z), NormaliseLongitude(libm.ranged.atan2(v.y, v.x)))
  }

  /** vec3_to_latlong: atan2, then a loop that adds 2*pi while the longitude is negative. */
  method Vec3ToLatLong(v: Vec3, libm: Libm) returns (result: LatLong)
    ensures result == ToLatLong(v, libm)
    ensures 0.0 <= result.long < 2.0 * PI
  {
    var long := libm.ranged.atan2(v.y, v.x);
    while long < 0.0
      invariant NormaliseLongitude(long) == NormaliseLongitude(libm.ranged.atan2(v.y, v.x))
      decreases Turns(long)
    {
      long := long + 2.0 * PI;
    }
    result := LatLong(libm.asin(v.z), long);
  }
}
