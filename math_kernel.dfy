/** Vector, quaternion and 4x4 matrix primitives of the flight simulator (src/engine/math.ts).
    Floating-point numbers are modelled as exact reals. */
module MathKernel {

  datatype Vec3 = Vec3(x: real, y: real, z: real)

  /** A quaternion [x, y, z, w]; w is the scalar part. */
  datatype Quat = Quat(x: real, y: real, z: real, w: real)

  /** A 4x4 matrix as its 16 entries in column-major order (a Float32Array of length 16). */
  type Mat4 = m: seq<real> | |m| == 16 witness seq(16, _ => 0.0)

  /** Math.PI, as the exact decimal of its printed value. */
  const Pi: real := 3.141592653589793

  const Zero := Vec3(0.0, 0.0, 0.0)
  const IdentityQuat := Quat(0.0, 0.0, 0.0, 1.0)

  /** The built-in functions the kernel and its callers take from the JavaScript runtime.
      Only the facts in Lawful are assumed about them. */
  datatype Transcendentals = Transcendentals(
    sqrt: real -> real,
    cos: real -> real,
    exp: real -> real,
    quatFromEuler: (real, real, real) -> Quat)

  /** What Math.sqrt is taken to satisfy on non-negative arguments. */
  ghost predicate IsSqrt(sqrt: real -> real) {
    forall x :: 0.0 <= x ==> 0.0 <= sqrt(x) && sqrt(x) * sqrt(x) == x
  }

  /** What Math.cos is taken to satisfy: its range is [-1, 1]. */
  ghost predicate IsCosine(cos: real -> real) {
    forall x :: -1.0 <= cos(x) <= 1.0
  }

  ghost predicate Lawful(t: Transcendentals) {
    && IsSqrt(t.sqrt)
    && IsCosine(t.cos)
    && (forall x :: 0.0 < t.exp(x))
    && (forall x :: x <= 0.0 ==> t.exp(x) <= 1.0)
  }

  /** Math.min and Math.max on two arguments. */
  function Min(a: real, b: real): real { if a <= b then a else b }
  function Max(a: real, b: real): real { if a >= b then a else b }

  // ---------------------------------------------------------------- vectors

  function Add(a: Vec3, b: Vec3): Vec3 {
    Vec3(a.x + b.x, a.y + b.y, a.z + b.z)
  }

  function Sub(a: Vec3, b: Vec3): Vec3 {
    Vec3(a.x - b.x, a.y - b.y, a.z - b.z)
  }

  function Scale(v: Vec3, s: real): Vec3 {
    Vec3(v.x * s, v.y * s, v.z * s)
  }

  function Dot(a: Vec3, b: Vec3): real {
    a.x * b.x + a.y * b.y + a.z * b.z
  }

  function Cross(a: Vec3, b: Vec3): Vec3 {
    Vec3(a.y * b.z - a.z * b.y,
         a.z * b.x - a.x * b.z,
         a.x * b.y - a.y * b.x)
  }

  function Length(v: Vec3, sqrt: real -> real): real {
    sqrt(v.x * v.x + v.y * v.y + v.z * v.z)
  }

  function Normalize(v: Vec3, sqrt: real -> real): Vec3 {
    var len := Length(v, sqrt);
    if len == 0.0 then Zero else Vec3(v.x / len, v.y / len, v.z / len)
  }

  lemma SubAddCancel(a: Vec3, b: Vec3)
    ensures Sub(Add(a, b), b) == a
  {
  }

  lemma AddSubCancel(a: Vec3, b: Vec3)
    ensures Sub(Add(a, b), a) == b
  {
  }

  lemma ScaleByOne(v: Vec3)
    ensures Scale(v, 1.0) == v
  {
  }

  /** The cross product is orthogonal to both of its operands. */
  lemma CrossOrthogonal(a: Vec3, b: Vec3)
    ensures Dot(Cross(a, b), a) == 0.0
    ensures Dot(Cross(a, b), b) == 0.0
  {
  }

  /** Lagrange's identity: |a x b|^2 = |a|^2 |b|^2 - (a . b)^2. */
  lemma CrossNormSquared(a: Vec3, b: Vec3)
    ensures Dot(Cross(a, b), Cross(a, b)) == Dot(a, a) * Dot(b, b) - Dot(a, b) * Dot(a, b)
  {
  }

  lemma SquareNonNegative(r: real)
    ensures r * r >= 0.0
  {
    if r < 0.0 { assert r * r == (-r) * (-r); }
  }

  /** A sum of squares is zero exactly at the zero vector. */
  lemma DotSelf(v: Vec3)
    ensures Dot(v, v) >= 0.0
    ensures Dot(v, v) == 0.0 <==> v == Zero
  {
    SquareNonNegative(v.x);
    SquareNonNegative(v.y);
    SquareNonNegative(v.z);
    if Dot(v, v) == 0.0 {
      ZeroSquare(v.x);
      ZeroSquare(v.y);
      ZeroSquare(v.z);
    }
  }

  /** A product of non-negative reals is non-negative. */
  lemma MulNonNegative(a: real, b: real)
    requires 0.0 <= a && 0.0 <= b
    ensures 0.0 <= a * b
  {
  }

  /** Scaling a non-negative number by a factor in [0, 1] cannot increase it. */
  lemma ScaleDown(p: real, s: real)
    requires 0.0 <= p && 0.0 <= s <= 1.0
    ensures 0.0 <= p * s <= p
  {
    MulNonNegative(p, s);
    MulNonNegative(p, 1.0 - s);
    assert p * (1.0 - s) == p - p * s;
  }

  /** A product of reals is zero exactly when one of its factors is. */
  lemma ZeroProduct(a: real, b: real)
    ensures a * b == 0.0 <==> a == 0.0 || b == 0.0
  {
  }

  lemma ZeroSquare(r: real)
    ensures r * r == 0.0 <==> r == 0.0
  {
    ZeroProduct(r, r);
  }

  /** A square root of a non-negative number is zero exactly when the number is. */
  lemma SqrtZero(sqrt: real -> real, d: real)
    requires IsSqrt(sqrt) && 0.0 <= d
    ensures sqrt(d) == 0.0 <==> d == 0.0
  {
    assert sqrt(d) * sqrt(d) == d;
    if d == 0.0 { ZeroSquare(sqrt(d)); }
  }

  /** A square root of a non-negative square is the absolute value. */
  lemma SqrtOfSquare(sqrt: real -> real, s: real)
    requires IsSqrt(sqrt) && 0.0 <= s
    ensures sqrt(s * s) == s
  {
    SquareNonNegative(s);
    var r := sqrt(s * s);
    assert 0.0 <= r && r * r == s * s;
    assert (r - s) * (r + s) == r * r - s * s;
    ZeroProduct(r - s, r + s);
  }

  /** vec3Length is zero exactly for the zero vector. */
  lemma LengthZero(v: Vec3, sqrt: real -> real)
    requires IsSqrt(sqrt)
    ensures Length(v, sqrt) >= 0.0
    ensures Length(v, sqrt) == 0.0 <==> v == Zero
  {
    DotSelf(v);
    SqrtZero(sqrt, Dot(v, v));
  }

  /** vec3Normalize returns the zero vector for the zero vector; otherwise it divides every
      component by the same positive length, and the result has unit length. */
  lemma NormalizeSpec(v: Vec3, sqrt: real -> real)
    requires IsSqrt(sqrt)
    ensures v == Zero ==> Normalize(v, sqrt) == Zero
    ensures v != Zero ==>
      && Length(v, sqrt) > 0.0
      && Normalize(v, sqrt) == Scale(v, 1.0 / Length(v, sqrt))
      && Dot(Normalize(v, sqrt), Normalize(v, sqrt)) == 1.0
  {
    LengthZero(v, sqrt);
    if v != Zero {
      var len := Length(v, sqrt);
      var d := Dot(v, v);
      assert len * len == d;
      var r := Normalize(v, sqrt);
      assert r == Vec3(v.x / len, v.y / len, v.z / len);
      assert r == Scale(v, 1.0 / len);
      calc {
        Dot(r, r);
        (v.x * (1.0 / len)) * (v.x * (1.0 / len))
          + (v.y * (1.0 / len)) * (v.y * (1.0 / len))
          + (v.z * (1.0 / len)) * (v.z * (1.0 / len));
        d * ((1.0 / len) * (1.0 / len));
        (len * len) * ((1.0 / len) * (1.0 / len));
        (len * (1.0 / len)) * (len * (1.0 / len));
        1.0;
      }
    }
  }

  /** vec3Length is the square root of v . v. */
  lemma LengthIsSqrtDot(v: Vec3, sqrt: real -> real)
    ensures Length(v, sqrt) == sqrt(Dot(v, v))
  {
  }

  /** A vector with v . v = 1 has length 1. */
  lemma UnitLength(v: Vec3, sqrt: real -> real)
    requires IsSqrt(sqrt) && Dot(v, v) == 1.0
    ensures Length(v, sqrt) == 1.0
  {
    LengthIsSqrtDot(v, sqrt);
    SqrtOfSquare(sqrt, 1.0);
    assert 1.0 * 1.0 == 1.0;
  }

  lemma DotScaleScale(v: Vec3, k: real)
    ensures Dot(Scale(v, k), Scale(v, k)) == (k * k) * Dot(v, v)
  {
  }

  /** Scaling by a non-negative factor scales the length by that factor. */
  lemma ScaleLength(v: Vec3, k: real, sqrt: real -> real)
    requires IsSqrt(sqrt) && 0.0 <= k
    ensures Length(Scale(v, k), sqrt) == k * Length(v, sqrt)
  {
    LengthIsSqrtDot(v, sqrt);
    LengthIsSqrtDot(Scale(v, k), sqrt);
    DotSelf(v);
    DotScaleScale(v, k);
    SqrtScaled(sqrt, k, Dot(v, v));
  }

  /** The square root of k^2 d is k times the square root of d, for k >= 0. */
  lemma SqrtScaled(sqrt: real -> real, k: real, d: real)
    requires IsSqrt(sqrt) && 0.0 <= k && 0.0 <= d
    ensures sqrt((k * k) * d) == k * sqrt(d)
  {
    var r := sqrt(d);
    assert 0.0 <= r && r * r == d;
    var kr := k * r;
    assert (k * k) * d == kr * kr;
    MulNonNegative(k, r);
    SqrtOfSquare(sqrt, kr);
  }

  /** Normalizing a vector of unit length leaves it unchanged. */
  lemma NormalizeOfUnit(v: Vec3, sqrt: real -> real)
    requires IsSqrt(sqrt)
    requires Dot(v, v) == 1.0
    ensures Normalize(v, sqrt) == v
  {
    SqrtOfSquare(sqrt, 1.0);
  }

  // ---------------------------------------------------------------- matrices

  function Identity(): Mat4 {
    [1.0, 0.0, 0.0, 0.0,
     0.0, 1.0, 0.0, 0.0,
     0.0, 0.0, 1.0, 0.0,
     0.0, 0.0, 0.0, 1.0]
  }

  /** The value mat4Multiply stores at index i * 4 + j. */
  function ProductEntry(a: Mat4, b: Mat4, i: nat, j: nat): real
    requires i < 4 && j < 4
  {
    a[i * 4 + 0] * b[0 * 4 + j] +
    a[i * 4 + 1] * b[1 * 4 + j] +
    a[i * 4 + 2] * b[2 * 4 + j] +
    a[i * 4 + 3] * b[3 * 4 + j]
  }

  function Product(a: Mat4, b: Mat4): Mat4 {
    seq(16, k requires 0 <= k < 16 => ProductEntry(a, b, k / 4, k % 4))
  }

  /** mat4Multiply: fills a fresh 16-entry array in two nested loops. */
  method Mat4Multiply(a: Mat4, b: Mat4) returns (r: Mat4)
    ensures r == Product(a, b)
  {
    var result := new real[16];
    for i := 0 to 4
      invariant forall k :: 0 <= k < i * 4 ==> result[k] == ProductEntry(a, b, k / 4, k % 4)
    {
      for j := 0 to 4
        invariant forall k :: 0 <= k < i * 4 + j ==> result[k] == ProductEntry(a, b, k / 4, k % 4)
      {
        result[i * 4 + j] :=
          a[i * 4 + 0] * b[0 * 4 + j] +
          a[i * 4 + 1] * b[1 * 4 + j] +
          a[i * 4 + 2] * b[2 * 4 + j] +
          a[i * 4 + 3] * b[3 * 4 + j];
      }
    }
    r := result[..];
  }

  /** The identity matrix is a neutral element of mat4Multiply on both sides. */
  lemma ProductIdentity(m: Mat4)
    ensures Product(Identity(), m) == m
    ensures Product(m, Identity()) == m
  {
    ProductIdentityLeft(m);
    ProductIdentityRight(m);
  }

  lemma ProductIdentityLeft(m: Mat4)
    ensures Product(Identity(), m) == m
  {
    var p := Product(Identity(), m);
    forall k | 0 <= k < 16 ensures p[k] == m[k] {
      IdentityLeftEntry(m, k / 4, k % 4);
    }
  }

  lemma ProductIdentityRight(m: Mat4)
    ensures Product(m, Identity()) == m
  {
    var p := Product(m, Identity());
    forall k | 0 <= k < 16 ensures p[k] == m[k] {
      IdentityRightEntry(m, k / 4, k % 4);
    }
  }

  lemma IdentityLeftEntry(m: Mat4, i: nat, j: nat)
    requires i < 4 && j < 4
    ensures ProductEntry(Identity(), m, i, j) == m[i * 4 + j]
  {
    var id := Identity();
    if i == 0 {
      assert id[0] == 1.0 && id[1] == 0.0 && id[2] == 0.0 && id[3] == 0.0;
    } else if i == 1 {
      assert id[4] == 0.0 && id[5] == 1.0 && id[6] == 0.0 && id[7] == 0.0;
    } else if i == 2 {
      assert id[8] == 0.0 && id[9] == 0.0 && id[10] == 1.0 && id[11] == 0.0;
    } else {
      assert id[12] == 0.0 && id[13] == 0.0 && id[14] == 0.0 && id[15] == 1.0;
    }
  }

  lemma IdentityRightEntry(m: Mat4, i: nat, j: nat)
    requires i < 4 && j < 4
    ensures ProductEntry(m, Identity(), i, j) == m[i * 4 + j]
  {
    var id := Identity();
    if j == 0 {
      assert id[0] == 1.0 && id[4] == 0.0 && id[8] == 0.0 && id[12] == 0.0;
    } else if j == 1 {
      assert id[1] == 0.0 && id[5] == 1.0 && id[9] == 0.0 && id[13] == 0.0;
    } else if j == 2 {
      assert id[2] == 0.0 && id[6] == 0.0 && id[10] == 1.0 && id[14] == 0.0;
    } else {
      assert id[3] == 0.0 && id[7] == 0.0 && id[11] == 0.0 && id[15] == 1.0;
    }
  }

  /** Entry k of the cofactor array inv that mat4Inverse fills in before dividing by the
      determinant. */
  function Cofactor(m: Mat4, k: nat): real
    requires k < 16
  {
    if k == 0 then
      m[5] * m[10] * m[15] - m[5] * m[11] * m[14] - m[9] * m[6] * m[15] +
      m[9] * m[7] * m[14] + m[13] * m[6] * m[11] - m[13] * m[7] * m[10]
    else if k == 1 then
      -m[1] * m[10] * m[15] + m[1] * m[11] * m[14] + m[9] * m[2] * m[15] -
      m[9] * m[3] * m[14] - m[13] * m[2] * m[11] + m[13] * m[3] * m[10]
    else if k == 2 then
      m[1] * m[6] * m[15] - m[1] * m[7] * m[14] - m[5] * m[2] * m[15] +
      m[5] * m[3] * m[14] + m[13] * m[2] * m[7] - m[13] * m[3] * m[6]
    else if k == 3 then
      -m[1] * m[6] * m[11] + m[1] * m[7] * m[10] + m[5] * m[2] * m[11] -
      m[5] * m[3] * m[10] - m[9] * m[2] * m[7] + m[9] * m[3] * m[6]
    else if k == 4 then
      -m[4] * m[10] * m[15] + m[4] * m[11] * m[14] + m[8] * m[6] * m[15] -
      m[8] * m[7] * m[14] - m[12] * m[6] * m[11] + m[12] * m[7] * m[10]
    else if k == 5 then
      m[0] * m[10] * m[15] - m[0] * m[11] * m[14] - m[8] * m[2] * m[15] +
      m[8] * m[3] * m[14] + m[12] * m[2] * m[11] - m[12] * m[3] * m[10]
    else if k == 6 then
      -m[0] * m[6] * m[15] + m[0] * m[7] * m[14] + m[4] * m[2] * m[15] -
      m[4] * m[3] * m[14] - m[12] * m[2] * m[7] + m[12] * m[3] * m[6]
    else if k == 7 then
      m[0] * m[6] * m[11] - m[0] * m[7] * m[10] - m[4] * m[2] * m[11] +
      m[4] * m[3] * m[10] + m[8] * m[2] * m[7] - m[8] * m[3] * m[6]
    else if k == 8 then
      m[4] * m[9] * m[15] - m[4] * m[11] * m[13] - m[8] * m[5] * m[15] +
      m[8] * m[7] * m[13] + m[12] * m[5] * m[11] - m[12] * m[7] * m[9]
    else if k == 9 then
      -m[0] * m[9] * m[15] + m[0] * m[11] * m[13] + m[8] * m[1] * m[15] -
      m[8] * m[3] * m[13] - m[12] * m[1] * m[11] + m[12] * m[3] * m[9]
    else if k == 10 then
      m[0] * m[5] * m[15] - m[0] * m[7] * m[13] - m[4] * m[1] * m[15] +
      m[4] * m[3] * m[13] + m[12] * m[1] * m[7] - m[12] * m[3] * m[5]
    else if k == 11 then
      -m[0] * m[5] * m[11] + m[0] * m[7] * m[9] + m[4] * m[1] * m[11] -
      m[4] * m[3] * m[9] - m[8] * m[1] * m[7] + m[8] * m[3] * m[5]
    else if k == 12 then
      -m[4] * m[9] * m[14] + m[4] * m[10] * m[13] + m[8] * m[5] * m[14] -
      m[8] * m[6] * m[13] - m[12] * m[5] * m[10] + m[12] * m[6] * m[9]
    else if k == 13 then
      m[0] * m[9] * m[14] - m[0] * m[10] * m[13] - m[8] * m[1] * m[14] +
      m[8] * m[2] * m[13] + m[12] * m[1] * m[10] - m[12] * m[2] * m[9]
    else if k == 14 then
      -m[0] * m[5] * m[14] + m[0] * m[6] * m[13] + m[4] * m[1] * m[14] -
      m[4] * m[2] * m[13] - m[12] * m[1] * m[6] + m[12] * m[2] * m[5]
    else
      m[0] * m[5] * m[10] - m[0] * m[6] * m[9] - m[4] * m[1] * m[10] +
      m[4] * m[2] * m[9] + m[8] * m[1] * m[6] - m[8] * m[2] * m[5]
  }

  function Cofactors(m: Mat4): Mat4 {
    seq(16, k requires 0 <= k < 16 => Cofactor(m, k))
  }

  /** The determinant as mat4Inverse computes it: the first row against its cofactors. */
  function Determinant(m: Mat4): real {
    var inv := Cofactors(m);
    m[0] * inv[0] + m[1] * inv[4] + m[2] * inv[8] + m[3] * inv[12]
  }

  /** Every entry of m multiplied by s. */
  function ScaleEntries(m: Mat4, s: real): Mat4 {
    seq(16, k requires 0 <= k < 16 => m[k] * s)
  }

  /** The scaling loop at the end of mat4Inverse: multiplies each of the 16 entries of a in
      place by s. */
  method ScaleInPlace(a: array<real>, s: real)
    requires a.Length == 16
    modifies a
    ensures a[..] == ScaleEntries(old(a[..]), s)
  {
    for i := 0 to 16
      invariant forall k :: 0 <= k < i ==> a[k] == old(a[k]) * s
      invariant forall k :: i <= k < 16 ==> a[k] == old(a[k])
    {
      a[i] := a[i] * s;
    }
    assert forall k :: 0 <= k < 16 ==> a[..][k] == ScaleEntries(old(a[..]), s)[k];
  }

  /** mat4Inverse: the identity when the determinant is exactly zero, and otherwise every
      cofactor multiplied by 1/det. */
  method Mat4Inverse(m: Mat4) returns (r: Mat4)
    ensures Determinant(m) == 0.0 ==> r == Identity()
    ensures Determinant(m) != 0.0 ==> r == ScaleEntries(Cofactors(m), 1.0 / Determinant(m))
  {
    var cofactors := Cofactors(m);
    var inv := new real[16](k requires 0 <= k < 16 => cofactors[k]);
    assert inv[..] == cofactors;
    var det := m[0] * inv[0] + m[1] * inv[4] + m[2] * inv[8] + m[3] * inv[12];
    assert det == Determinant(m);
    if det == 0.0 {
      return Identity();
    }
    det := 1.0 / det;
    ScaleInPlace(inv, det);
    r := inv[..];
  }

  /** The identity matrix has determinant 1 and is its own cofactor matrix, so mat4Inverse
      maps it to itself. */
  lemma InverseOfIdentity()
    ensures Determinant(Identity()) == 1.0
    ensures Cofactors(Identity()) == Identity()
  {
  }

  /** A matrix whose last column is zero is singular, so mat4Inverse falls back to the identity. */
  lemma ZeroLastColumnIsSingular(m: Mat4)
    requires m[12] == 0.0 && m[13] == 0.0 && m[14] == 0.0 && m[15] == 0.0
    ensures Determinant(m) == 0.0
  {
  }

  // ---------------------------------------------------------------- quaternions

  /** The Hamilton product a * b. */
  function QuatMultiply(a: Quat, b: Quat): Quat {
    Quat(a.w * b.x + a.x * b.w + a.y * b.z - a.z * b.y,
         a.w * b.y - a.x * b.z + a.y * b.w + a.z * b.x,
         a.w * b.z + a.x * b.y - a.y * b.x + a.z * b.w,
         a.w * b.w - a.x * b.x - a.y * b.y - a.z * b.z)
  }

  function NormSquared(q: Quat): real {
    q.x * q.x + q.y * q.y + q.z * q.z + q.w * q.w
  }

  function QuatNormalize(q: Quat, sqrt: real -> real): Quat {
    var len := sqrt(q.x * q.x + q.y * q.y + q.z * q.z + q.w * q.w);
    if len == 0.0 then IdentityQuat else Quat(q.x / len, q.y / len, q.z / len, q.w / len)
  }

  /** The rotation matrix of a quaternion, column-major: right, up, negated forward, and
      the homogeneous column. */
  function QuatToMat4(q: Quat): Mat4 {
    var x, y, z, w := q.x, q.y, q.z, q.w;
    var x2, y2, z2 := x + x, y + y, z + z;
    var xx, xy, xz := x * x2, x * y2, x * z2;
    var yy, yz, zz := y * y2, y * z2, z * z2;
    var wx, wy, wz := w * x2, w * y2, w * z2;
    [1.0 - (yy + zz), xy + wz, xz - wy, 0.0,
     xy - wz, 1.0 - (xx + zz), yz + wx, 0.0,
     xz + wy, yz - wx, 1.0 - (xx + yy), 0.0,
     0.0, 0.0, 0.0, 1.0]
  }

  /** [0,0,0,1] is a neutral element of the Hamilton product on both sides. */
  lemma QuatMultiplyIdentity(q: Quat)
    ensures QuatMultiply(IdentityQuat, q) == q
    ensures QuatMultiply(q, IdentityQuat) == q
  {
  }

  /** The product is not commutative: i * j = k but j * i = -k. */
  lemma QuatMultiplyOrderMatters()
    ensures QuatMultiply(Quat(1.0, 0.0, 0.0, 0.0), Quat(0.0, 1.0, 0.0, 0.0)) == Quat(0.0, 0.0, 1.0, 0.0)
    ensures QuatMultiply(Quat(0.0, 1.0, 0.0, 0.0), Quat(1.0, 0.0, 0.0, 0.0)) == Quat(0.0, 0.0, -1.0, 0.0)
  {
    var i, j := Quat(1.0, 0.0, 0.0, 0.0), Quat(0.0, 1.0, 0.0, 0.0);
    var ij, ji := QuatMultiply(i, j), QuatMultiply(j, i);
    assert ij.x == 0.0 && ij.y == 0.0 && ij.z == 1.0 && ij.w == 0.0;
    assert ji.x == 0.0 && ji.y == 0.0 && ji.z == -1.0 && ji.w == 0.0;
  }

  lemma NormSquaredNonNegative(q: Quat)
    ensures NormSquared(q) >= 0.0
    ensures NormSquared(q) == 0.0 <==> q == Quat(0.0, 0.0, 0.0, 0.0)
  {
    SquareNonNegative(q.x);
    SquareNonNegative(q.y);
    SquareNonNegative(q.z);
    SquareNonNegative(q.w);
    if NormSquared(q) == 0.0 {
      ZeroSquare(q.x);
      ZeroSquare(q.y);
      ZeroSquare(q.z);
      ZeroSquare(q.w);
    }
  }

  /** quatNormalize always returns a unit quaternion: [0,0,0,1] for the zero quaternion,
      and otherwise q divided by its norm. */
  lemma QuatNormalizeSpec(q: Quat, sqrt: real -> real)
    requires IsSqrt(sqrt)
    ensures NormSquared(q) == 0.0 ==> QuatNormalize(q, sqrt) == IdentityQuat
    ensures NormSquared(QuatNormalize(q, sqrt)) == 1.0
  {
    if NormSquared(q) == 0.0 {
      QuatNormalizeOfZero(q, sqrt);
    } else {
      QuatNormalizeOfNonZero(q, sqrt);
    }
  }

  /** The zero quaternion normalizes to the identity [0,0,0,1]. */
  lemma QuatNormalizeOfZero(q: Quat, sqrt: real -> real)
    requires IsSqrt(sqrt)
    requires NormSquared(q) == 0.0
    ensures QuatNormalize(q, sqrt) == IdentityQuat
  {
    SqrtZero(sqrt, NormSquared(q));
  }
  /** For a non-zero quaternion every component is divided by the same positive norm, so
      the result has norm 1. */
  lemma QuatNormalizeOfNonZero(q: Quat, sqrt: real -> real)
    requires IsSqrt(sqrt)
    requires NormSquared(q) != 0.0
    ensures NormSquared(QuatNormalize(q, sqrt)) == 1.0
  {
    NormSquaredNonNegative(q);
    var d := NormSquared(q);
    SqrtZero(sqrt, d);
    var len := sqrt(d);
    assert len > 0.0 && len * len == d;
    QuatNormalizeDivides(q, sqrt, len);
    DivideByNorm(q.x, q.y, q.z, q.w, len);
  }

  lemma QuatNormalizeDivides(q: Quat, sqrt: real -> real, len: real)
    requires len == sqrt(NormSquared(q)) && len != 0.0
    ensures QuatNormalize(q, sqrt) == Quat(q.x / len, q.y / len, q.z / len, q.w / len)
  {
  }

  /** Dividing four components by a positive square root of the sum of their squares gives
      a quaternion of squared norm 1. */
  lemma DivideByNorm(a: real, b: real, c: real, d: real, len: real)
    requires len > 0.0 && len * len == a * a + b * b + c * c + d * d
    ensures NormSquared(Quat(a / len, b / len, c / len, d / len)) == 1.0
  {
    var u := 1.0 / len;
    assert len * u == 1.0;
    assert a / len == a * u && b / len == b * u && c / len == c * u && d / len == d * u;
    calc {
      (a * u) * (a * u) + (b * u) * (b * u) + (c * u) * (c * u) + (d * u) * (d * u);
      (a * a + b * b + c * c + d * d) * (u * u);
      (len * len) * (u * u);
      (len * u) * (len * u);
    }
  }



  /** quatToMat4 always yields an affine matrix with no translation: entries 3, 7, 11, 12,
      13, 14 are 0 and entry 15 is 1. */
  lemma QuatToMat4Affine(q: Quat)
    ensures var m := QuatToMat4(q);
      m[3] == 0.0 && m[7] == 0.0 && m[11] == 0.0 &&
      m[12] == 0.0 && m[13] == 0.0 && m[14] == 0.0 && m[15] == 1.0
  {
  }

  lemma QuatToMat4OfIdentity()
    ensures QuatToMat4(IdentityQuat) == Identity()
  {
  }
}
