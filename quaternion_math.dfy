/** Vector and quaternion helpers of the terrarium demo (the static math
    functions of class Program in opengl/opengl/src/main.cpp).

    The source computes in single-precision `float`; this model computes over
    `real`, so rounding is abstracted away and the ring laws of quaternion
    algebra hold exactly. Helpers built on sin, cos or acos (DotProduct,
    QuaternionSlerp, QuaternionAxisAngle, CalculateRotation) are not part of
    this module. Where the source takes a square root (Normalize, Scale), the
    caller passes the magnitude in together with the fact that it squares to
    the squared norm. */
module QuaternionMath {

  /** Vec3: a point, a direction or a colour; only the first two are used here. */
  datatype Vec3 = Vec3(x: real, y: real, z: real)

  /** Vec4: a quaternion (x, y, z vector part, w scalar part) or a homogeneous
      direction (w == 0). */
  datatype Vec4 = Vec4(x: real, y: real, z: real, w: real)

  const Origin: Vec3 := Vec3(0.0, 0.0, 0.0)
  const Zero4: Vec4 := Vec4(0.0, 0.0, 0.0, 0.0)

  /** The default Orientation of every Object: no rotation at all. */
  const Identity: Vec4 := Vec4(0.0, 0.0, 0.0, 1.0)

  /** The canonical forward axis <0,0,1> embedded as a pure quaternion. */
  const Forward: Vec4 := Vec4(0.0, 0.0, 1.0, 0.0)

  function Add3(a: Vec3, b: Vec3): Vec3 {
    Vec3(a.x + b.x, a.y + b.y, a.z + b.z)
  }

  function Sub3(a: Vec3, b: Vec3): Vec3 {
    Vec3(a.x - b.x, a.y - b.y, a.z - b.z)
  }

  function Mul3(a: Vec3, k: real): Vec3 {
    Vec3(a.x * k, a.y * k, a.z * k)
  }

  function Dot3(a: Vec3, b: Vec3): real {
    a.x * b.x + a.y * b.y + a.z * b.z
  }

  function NormSq3(a: Vec3): real {
    Dot3(a, a)
  }

  function DistSq(a: Vec3, b: Vec3): real {
    NormSq3(Sub3(b, a))
  }

  function Neg4(q: Vec4): Vec4 {
    Vec4(-q.x, -q.y, -q.z, -q.w)
  }

  function Dot4(p: Vec4, q: Vec4): real {
    p.x * q.x + p.y * q.y + p.z * q.z + p.w * q.w
  }

  function NormSq4(q: Vec4): real {
    Dot4(q, q)
  }

  /** Vec4( v, w ) with w == 0: a direction as a pure quaternion. */
  function Pure(v: Vec3): Vec4 {
    Vec4(v.x, v.y, v.z, 0.0)
  }

  /** ToVec3: drop the w component. For a direction (w == 0) nothing is
      lost: Pure gives the quaternion back. */
  function ToVec3(v: Vec4): (r: Vec3)
    ensures v.w == 0.0 ==> Pure(r) == v
  {
    Vec3(v.x, v.y, v.z)
  }

  /** QuaternionMultiply: the Hamilton product p * q. The default
      Orientation (0,0,0,1) is neutral on either side. */
  function QuaternionMultiply(p: Vec4, q: Vec4): (r: Vec4)
    ensures p == Identity ==> r == q
    ensures q == Identity ==> r == p
  {
    Vec4( p.x * q.w + p.y * q.z - p.z * q.y + p.w * q.x,
         -p.x * q.z + p.y * q.w + p.z * q.x + p.w * q.y,
          p.x * q.y - p.y * q.x + p.z * q.w + p.w * q.z,
         -p.x * q.x - p.y * q.y - p.z * q.z + p.w * q.w)
  }

  /** QuaternionConjugate: negate the vector part, keep the scalar part. */
  function QuaternionConjugate(q: Vec4): (r: Vec4)
    ensures NormSq4(r) == NormSq4(q)
    ensures Dot4(r, q) == q.w * q.w - (q.x * q.x + q.y * q.y + q.z * q.z)
  {
    Vec4(-q.x, -q.y, -q.z, q.w)
  }

  /** The sandwich product q * v * conjugate(q), which the source writes out
      wherever it turns a direction by an orientation. */
  function Rotate(q: Vec4, v: Vec4): (r: Vec4)
    ensures q == Identity ==> r == v
  {
    QuaternionMultiply(QuaternionMultiply(q, v), QuaternionConjugate(q))
  }

  /** QuaternionLerp: (1 - t) * q1 + epsilon * t * q2, where epsilon flips q2
      onto q1's hemisphere when their dot product is negative. For t in
      [0, 1] the result therefore never leaves q1's hemisphere. */
  function QuaternionLerp(q1: Vec4, q2: Vec4, t: real): (r: Vec4)
    ensures 0.0 <= t <= 1.0 ==> 0.0 <= Dot4(r, q1)
  {
    var e := if Dot4(q1, q2) < 0.0 then -1.0 else 1.0;
    var r := Vec4((1.0 - t) * q1.x + e * t * q2.x,
                  (1.0 - t) * q1.y + e * t * q2.y,
                  (1.0 - t) * q1.z + e * t * q2.z,
                  (1.0 - t) * q1.w + e * t * q2.w);
    LerpHemisphere(q1, q2, t, e, r);
    r
  }

  /** CrossProduct: the result is perpendicular to both arguments. */
  function CrossProduct(a: Vec3, b: Vec3): (r: Vec3)
    ensures Dot3(r, a) == 0.0 && Dot3(r, b) == 0.0
  {
    Vec3(a.y * b.z - b.y * a.z,
         a.z * b.x - b.z * a.x,
         a.x * b.y - b.x * a.y)
  }

  /** Normalize (the Vec3 overload): divide each component by the magnitude
      `mag`, the sqrt of v's squared norm that the source computes. A zero
      vector divides by zero in the source, so it is excluded. */
  function Normalize(v: Vec3, mag: real): (u: Vec3)
    requires mag > 0.0 && mag * mag == NormSq3(v)
    ensures NormSq3(u) == 1.0
    ensures Mul3(u, mag) == v
  {
    UnitDivision(v.x, v.y, v.z, mag);
    Vec3(v.x / mag, v.y / mag, v.z / mag)
  }

  /** A vector scaled by the inverse of its length has length 1. */
  lemma UnitScale(x: real, y: real, z: real, m: real, k: real)
    requires k * m == 1.0 && m * m == x * x + y * y + z * z
    ensures (x * k) * (x * k) + (y * k) * (y * k) + (z * k) * (z * k) == 1.0
  {
    assert (x * k) * (x * k) + (y * k) * (y * k) + (z * k) * (z * k) == (k * k) * (x * x + y * y + z * z);
    assert (k * k) * (m * m) == (k * m) * (k * m);
  }

  lemma UnitDivision(x: real, y: real, z: real, m: real)
    requires m > 0.0 && m * m == x * x + y * y + z * z
    ensures (x / m) * (x / m) + (y / m) * (y / m) + (z / m) * (z / m) == 1.0
  {
    assert x / m == x * (1.0 / m) && y / m == y * (1.0 / m) && z / m == z * (1.0 / m);
    UnitScale(x, y, z, m, 1.0 / m);
  }

  /** Scale: rescale v to length |s| (pointing along v when s > 0), or return
      the zero vector when s is exactly 0. `mag` is the sqrt of v's squared
      norm that the source computes; a zero vector with a non-zero factor
      divides by zero in the source, so that input is excluded. */
  function Scale(v: Vec4, s: real, mag: real): (r: Vec4)
    requires mag >= 0.0 && mag * mag == NormSq4(v)
    requires s != 0.0 ==> mag > 0.0
    ensures s == 0.0 ==> r == Zero4
    ensures NormSq4(r) == s * s
    ensures Dot4(r, v) == s * mag
  {
    if s == 0.0 then Zero4
    else
      var k := s / mag;
      assert NormSq4(Vec4(v.x * k, v.y * k, v.z * k, v.w * k)) == k * k * NormSq4(v);
      assert k * k * (mag * mag) == s * s;
      Vec4(v.x * k, v.y * k, v.z * k, v.w * k)
  }

  /** QuaternionToMatrix: the 4x4 column-major rotation matrix of q. Entries
      that the source never writes (the translation column and the bottom
      row's first three entries) keep the zero the static buffer starts with. */
  function QuaternionToMatrix(q: Vec4): (m: seq<real>)
    ensures |m| == 16
    ensures m[3] == 0.0 && m[7] == 0.0 && m[11] == 0.0 && m[15] == 1.0
  {
    [1.0 - 2.0 * (q.y * q.y + q.z * q.z), 2.0 * (q.x * q.y + q.z * q.w), 2.0 * (q.x * q.z - q.y * q.w), 0.0,
     2.0 * (q.x * q.y - q.z * q.w), 1.0 - 2.0 * (q.x * q.x + q.z * q.z), 2.0 * (q.y * q.z + q.x * q.w), 0.0,
     2.0 * (q.x * q.z + q.y * q.w), 2.0 * (q.y * q.z - q.x * q.w), 1.0 - 2.0 * (q.x * q.x + q.y * q.y), 0.0,
     0.0, 0.0, 0.0, 1.0]
  }

  /** The homogeneous w that TransformCoord divides by. */
  function HomogeneousW(m: seq<real>, v: Vec3): real
    requires |m| == 16
  {
    m[3] * v.x + m[7] * v.y + m[11] * v.z + m[15]
  }

  /** The column-major product m * (v, 1) before the perspective division. */
  function MatrixApply(m: seq<real>, v: Vec3): Vec3
    requires |m| == 16
  {
    Vec3(m[0] * v.x + m[4] * v.y + m[8] * v.z + m[12],
         m[1] * v.x + m[5] * v.y + m[9] * v.z + m[13],
         m[2] * v.x + m[6] * v.y + m[10] * v.z + m[14])
  }

  /** TransformCoord: transform a point by m and divide by the homogeneous w;
      a point that lands on w == 0 (at infinity) maps to the origin. */
  function TransformCoord(m: seq<real>, v: Vec3): (r: Vec3)
    requires |m| == 16
    ensures HomogeneousW(m, v) == 0.0 ==> r == Origin
    ensures HomogeneousW(m, v) != 0.0 ==> Mul3(r, HomogeneousW(m, v)) == MatrixApply(m, v)
  {
    var norm := HomogeneousW(m, v);
    if norm != 0.0 then
      var p := MatrixApply(m, v);
      Vec3(p.x / norm, p.y / norm, p.z / norm)
    else
      Origin
  }

  // ---------------------------------------------------------------------
  // Polynomial identities over plain reals. Stated without datatypes they
  // stay small for the solver; the quaternion laws below are built on them.

  /** Euler's four-square identity: (x, y, z, w) is the product of
      (a1, b1, c1, d1) and (a2, b2, c2, d2) in the order QuaternionMultiply
      uses. */
  lemma FourSquare(a1: real, b1: real, c1: real, d1: real, a2: real, b2: real, c2: real, d2: real,
                   x: real, y: real, z: real, w: real)
    requires x == a1 * d2 + b1 * c2 - c1 * b2 + d1 * a2
    requires y == -a1 * c2 + b1 * d2 + c1 * a2 + d1 * b2
    requires z == a1 * b2 - b1 * a2 + c1 * d2 + d1 * c2
    requires w == -a1 * a2 - b1 * b2 - c1 * c2 + d1 * d2
    ensures x * x + y * y + z * z + w * w
         == (a1 * a1 + b1 * b1 + c1 * c1 + d1 * d1) * (a2 * a2 + b2 * b2 + c2 * c2 + d2 * d2)
  {
  }

  /** One component each of (p * q) * r == p * (q * r), where u == p * q and
      v == q * r. */
  lemma AssociativePartX(a1: real, b1: real, c1: real, d1: real, a2: real, b2: real, c2: real, d2: real,
                          a3: real, b3: real, c3: real, d3: real,
                          ux: real, uy: real, uz: real, uw: real, vx: real, vy: real, vz: real, vw: real)
    requires ux == a1 * d2 + b1 * c2 - c1 * b2 + d1 * a2 && uy == -a1 * c2 + b1 * d2 + c1 * a2 + d1 * b2
    requires uz == a1 * b2 - b1 * a2 + c1 * d2 + d1 * c2 && uw == -a1 * a2 - b1 * b2 - c1 * c2 + d1 * d2
    requires vx == a2 * d3 + b2 * c3 - c2 * b3 + d2 * a3 && vy == -a2 * c3 + b2 * d3 + c2 * a3 + d2 * b3
    requires vz == a2 * b3 - b2 * a3 + c2 * d3 + d2 * c3 && vw == -a2 * a3 - b2 * b3 - c2 * c3 + d2 * d3
    ensures ux * d3 + uy * c3 - uz * b3 + uw * a3 == a1 * vw + b1 * vz - c1 * vy + d1 * vx
  {
  }

  lemma AssociativePartY(a1: real, b1: real, c1: real, d1: real, a2: real, b2: real, c2: real, d2: real,
                          a3: real, b3: real, c3: real, d3: real,
                          ux: real, uy: real, uz: real, uw: real, vx: real, vy: real, vz: real, vw: real)
    requires ux == a1 * d2 + b1 * c2 - c1 * b2 + d1 * a2 && uy == -a1 * c2 + b1 * d2 + c1 * a2 + d1 * b2
    requires uz == a1 * b2 - b1 * a2 + c1 * d2 + d1 * c2 && uw == -a1 * a2 - b1 * b2 - c1 * c2 + d1 * d2
    requires vx == a2 * d3 + b2 * c3 - c2 * b3 + d2 * a3 && vy == -a2 * c3 + b2 * d3 + c2 * a3 + d2 * b3
    requires vz == a2 * b3 - b2 * a3 + c2 * d3 + d2 * c3 && vw == -a2 * a3 - b2 * b3 - c2 * c3 + d2 * d3
    ensures -ux * c3 + uy * d3 + uz * a3 + uw * b3 == -a1 * vz + b1 * vw + c1 * vx + d1 * vy
  {
  }

  lemma AssociativePartZ(a1: real, b1: real, c1: real, d1: real, a2: real, b2: real, c2: real, d2: real,
                          a3: real, b3: real, c3: real, d3: real,
                          ux: real, uy: real, uz: real, uw: real, vx: real, vy: real, vz: real, vw: real)
    requires ux == a1 * d2 + b1 * c2 - c1 * b2 + d1 * a2 && uy == -a1 * c2 + b1 * d2 + c1 * a2 + d1 * b2
    requires uz == a1 * b2 - b1 * a2 + c1 * d2 + d1 * c2 && uw == -a1 * a2 - b1 * b2 - c1 * c2 + d1 * d2
    requires vx == a2 * d3 + b2 * c3 - c2 * b3 + d2 * a3 && vy == -a2 * c3 + b2 * d3 + c2 * a3 + d2 * b3
    requires vz == a2 * b3 - b2 * a3 + c2 * d3 + d2 * c3 && vw == -a2 * a3 - b2 * b3 - c2 * c3 + d2 * d3
    ensures ux * b3 - uy * a3 + uz * d3 + uw * c3 == a1 * vy - b1 * vx + c1 * vw + d1 * vz
  {
  }

  lemma AssociativePartW(a1: real, b1: real, c1: real, d1: real, a2: real, b2: real, c2: real, d2: real,
                          a3: real, b3: real, c3: real, d3: real,
                          ux: real, uy: real, uz: real, uw: real, vx: real, vy: real, vz: real, vw: real)
    requires ux == a1 * d2 + b1 * c2 - c1 * b2 + d1 * a2 && uy == -a1 * c2 + b1 * d2 + c1 * a2 + d1 * b2
    requires uz == a1 * b2 - b1 * a2 + c1 * d2 + d1 * c2 && uw == -a1 * a2 - b1 * b2 - c1 * c2 + d1 * d2
    requires vx == a2 * d3 + b2 * c3 - c2 * b3 + d2 * a3 && vy == -a2 * c3 + b2 * d3 + c2 * a3 + d2 * b3
    requires vz == a2 * b3 - b2 * a3 + c2 * d3 + d2 * c3 && vw == -a2 * a3 - b2 * b3 - c2 * c3 + d2 * d3
    ensures -ux * a3 - uy * b3 - uz * c3 + uw * d3 == -a1 * vx - b1 * vy - c1 * vz + d1 * vw
  {
  }

  /** The sandwich q * (v, 0) * conjugate(q) multiplied out, where
      a == q * (v, 0). */
  lemma SandwichParts(x: real, y: real, z: real, w: real, vx: real, vy: real, vz: real,
                      ax: real, ay: real, az: real, aw: real)
    requires ax == y * vz - z * vy + w * vx && ay == -x * vz + w * vy + z * vx
    requires az == x * vy - y * vx + w * vz && aw == -x * vx - y * vy - z * vz
    ensures ax * w + ay * -z - az * -y + aw * -x
         == (w * w + x * x - y * y - z * z) * vx + 2.0 * (x * y - w * z) * vy + 2.0 * (x * z + w * y) * vz
    ensures -ax * -z + ay * w + az * -x + aw * -y
         == 2.0 * (x * y + w * z) * vx + (w * w - x * x + y * y - z * z) * vy + 2.0 * (y * z - w * x) * vz
    ensures ax * -y - ay * -x + az * w + aw * -z
         == 2.0 * (x * z - w * y) * vx + 2.0 * (y * z + w * x) * vy + (w * w - x * x - y * y + z * z) * vz
    ensures -ax * -x - ay * -y - az * -z + aw * w == 0.0
  {
  }

  /** Both products of the sandwich q * (v, 0) * c with c == conjugate(q),
      every component passed as a plain number. */
  lemma SandwichComponents(x: real, y: real, z: real, w: real, vx: real, vy: real, vz: real,
                           ax: real, ay: real, az: real, aw: real,
                           cx: real, cy: real, cz: real, cw: real,
                           rx: real, ry: real, rz: real, rw: real)
    requires ax == x * 0.0 + y * vz - z * vy + w * vx && ay == -x * vz + y * 0.0 + z * vx + w * vy
    requires az == x * vy - y * vx + z * 0.0 + w * vz && aw == -x * vx - y * vy - z * vz + w * 0.0
    requires cx == -x && cy == -y && cz == -z && cw == w
    requires rx == ax * cw + ay * cz - az * cy + aw * cx && ry == -ax * cz + ay * cw + az * cx + aw * cy
    requires rz == ax * cy - ay * cx + az * cw + aw * cz && rw == -ax * cx - ay * cy - az * cz + aw * cw
    ensures rx == (w * w + x * x - y * y - z * z) * vx + 2.0 * (x * y - w * z) * vy + 2.0 * (x * z + w * y) * vz
    ensures ry == 2.0 * (x * y + w * z) * vx + (w * w - x * x + y * y - z * z) * vy + 2.0 * (y * z - w * x) * vz
    ensures rz == 2.0 * (x * z - w * y) * vx + 2.0 * (y * z + w * x) * vy + (w * w - x * x - y * y + z * z) * vz
    ensures rw == 0.0
  {
    SandwichParts(x, y, z, w, vx, vy, vz, ax, ay, az, aw);
  }

  // ---------------------------------------------------------------------
  // Algebraic laws

  /** Conjugation is an involution. */
  lemma ConjugateInvolution(q: Vec4)
    ensures QuaternionConjugate(QuaternionConjugate(q)) == q
  {
  }

  /** conjugate(p * q) == conjugate(q) * conjugate(p). */
  lemma ConjugateOfProduct(p: Vec4, q: Vec4)
    ensures QuaternionConjugate(QuaternionMultiply(p, q))
         == QuaternionMultiply(QuaternionConjugate(q), QuaternionConjugate(p))
  {
  }

  /** q * conjugate(q) is the real quaternion |q|^2. */
  lemma MultiplyByConjugate(q: Vec4)
    ensures QuaternionMultiply(q, QuaternionConjugate(q)) == Vec4(0.0, 0.0, 0.0, NormSq4(q))
  {
  }

  /** The Hamilton product is associative. */
  lemma MultiplyAssociative(p: Vec4, q: Vec4, r: Vec4)
    ensures QuaternionMultiply(QuaternionMultiply(p, q), r)
         == QuaternionMultiply(p, QuaternionMultiply(q, r))
  {
    AssociativeX(p, q, r);
    AssociativeY(p, q, r);
    AssociativeZ(p, q, r);
    AssociativeW(p, q, r);
  }

  lemma AssociativeX(p: Vec4, q: Vec4, r: Vec4)
    ensures QuaternionMultiply(QuaternionMultiply(p, q), r).x == QuaternionMultiply(p, QuaternionMultiply(q, r)).x
  {
    var u, v := QuaternionMultiply(p, q), QuaternionMultiply(q, r);
    AssociativePartX(p.x, p.y, p.z, p.w, q.x, q.y, q.z, q.w, r.x, r.y, r.z, r.w,
                      u.x, u.y, u.z, u.w, v.x, v.y, v.z, v.w);
  }

  lemma AssociativeY(p: Vec4, q: Vec4, r: Vec4)
    ensures QuaternionMultiply(QuaternionMultiply(p, q), r).y == QuaternionMultiply(p, QuaternionMultiply(q, r)).y
  {
    var u, v := QuaternionMultiply(p, q), QuaternionMultiply(q, r);
    AssociativePartY(p.x, p.y, p.z, p.w, q.x, q.y, q.z, q.w, r.x, r.y, r.z, r.w,
                      u.x, u.y, u.z, u.w, v.x, v.y, v.z, v.w);
  }

  lemma AssociativeZ(p: Vec4, q: Vec4, r: Vec4)
    ensures QuaternionMultiply(QuaternionMultiply(p, q), r).z == QuaternionMultiply(p, QuaternionMultiply(q, r)).z
  {
    var u, v := QuaternionMultiply(p, q), QuaternionMultiply(q, r);
    AssociativePartZ(p.x, p.y, p.z, p.w, q.x, q.y, q.z, q.w, r.x, r.y, r.z, r.w,
                      u.x, u.y, u.z, u.w, v.x, v.y, v.z, v.w);
  }

  lemma AssociativeW(p: Vec4, q: Vec4, r: Vec4)
    ensures QuaternionMultiply(QuaternionMultiply(p, q), r).w == QuaternionMultiply(p, QuaternionMultiply(q, r)).w
  {
    var u, v := QuaternionMultiply(p, q), QuaternionMultiply(q, r);
    AssociativePartW(p.x, p.y, p.z, p.w, q.x, q.y, q.z, q.w, r.x, r.y, r.z, r.w,
                      u.x, u.y, u.z, u.w, v.x, v.y, v.z, v.w);
  }

  /** The squared norm is multiplicative. */
  lemma NormMultiplicative(p: Vec4, q: Vec4)
    ensures NormSq4(QuaternionMultiply(p, q)) == NormSq4(p) * NormSq4(q)
  {
    var m := QuaternionMultiply(p, q);
    FourSquare(p.x, p.y, p.z, p.w, q.x, q.y, q.z, q.w, m.x, m.y, m.z, m.w);
  }

  /** Turning by q and then by p is turning once by p * q. */
  lemma RotateCompose(p: Vec4, q: Vec4, v: Vec4)
    ensures Rotate(p, Rotate(q, v)) == Rotate(QuaternionMultiply(p, q), v)
  {
    var cp, cq := QuaternionConjugate(p), QuaternionConjugate(q);
    var qv := QuaternionMultiply(q, v);
    var pq := QuaternionMultiply(p, q);
    calc {
      Rotate(p, Rotate(q, v));
      QuaternionMultiply(QuaternionMultiply(p, QuaternionMultiply(qv, cq)), cp);
      { MultiplyAssociative(p, qv, cq); }
      QuaternionMultiply(QuaternionMultiply(QuaternionMultiply(p, qv), cq), cp);
      { MultiplyAssociative(QuaternionMultiply(p, qv), cq, cp); }
      QuaternionMultiply(QuaternionMultiply(p, qv), QuaternionMultiply(cq, cp));
      { MultiplyAssociative(p, q, v); ConjugateOfProduct(p, q); }
      QuaternionMultiply(QuaternionMultiply(pq, v), QuaternionConjugate(pq));
    }
  }

  /** For pure quaternions the product is (a x b, -a . b). */
  lemma PureProduct(a: Vec3, b: Vec3)
    ensures QuaternionMultiply(Pure(a), Pure(b)) == Vec4(CrossProduct(a, b).x, CrossProduct(a, b).y, CrossProduct(a, b).z, -Dot3(a, b))
  {
  }

  /** CrossProduct is anti-commutative. */
  lemma CrossAntiCommutative(a: Vec3, b: Vec3)
    ensures CrossProduct(a, b) == Mul3(CrossProduct(b, a), -1.0)
  {
  }

  /** The sandwich product of a direction, multiplied out: the familiar
      rotation-matrix entries, before |q|^2 == 1 is used. */
  lemma RotateExpanded(q: Vec4, v: Vec3)
    ensures Rotate(q, Pure(v)) == Vec4(
      (q.w * q.w + q.x * q.x - q.y * q.y - q.z * q.z) * v.x + 2.0 * (q.x * q.y - q.w * q.z) * v.y + 2.0 * (q.x * q.z + q.w * q.y) * v.z,
      2.0 * (q.x * q.y + q.w * q.z) * v.x + (q.w * q.w - q.x * q.x + q.y * q.y - q.z * q.z) * v.y + 2.0 * (q.y * q.z - q.w * q.x) * v.z,
      2.0 * (q.x * q.z - q.w * q.y) * v.x + 2.0 * (q.y * q.z + q.w * q.x) * v.y + (q.w * q.w - q.x * q.x - q.y * q.y + q.z * q.z) * v.z,
      0.0)
  {
    var a := QuaternionMultiply(q, Pure(v));
    var c := QuaternionConjugate(q);
    var r := QuaternionMultiply(a, c);
    SandwichComponents(q.x, q.y, q.z, q.w, v.x, v.y, v.z, a.x, a.y, a.z, a.w,
                       c.x, c.y, c.z, c.w, r.x, r.y, r.z, r.w);
  }

  /** Turning a direction by any quaternion yields a direction again (w == 0). */
  lemma RotateKeepsPure(q: Vec4, v: Vec3)
    ensures Rotate(q, Pure(v)).w == 0.0
  {
    RotateExpanded(q, v);
  }

  /** Turning by a unit quaternion preserves length. */
  lemma RotatePreservesNorm(q: Vec4, v: Vec3)
    requires NormSq4(q) == 1.0
    ensures NormSq4(Rotate(q, Pure(v))) == NormSq3(v)
  {
    NormMultiplicative(QuaternionMultiply(q, Pure(v)), QuaternionConjugate(q));
    NormMultiplicative(q, Pure(v));
  }

  /** At t == 0 the interpolation starts at q1; at t == 1 it ends at q2 or,
      when q2 lies in the opposite hemisphere, at -q2 (the same rotation). */
  lemma LerpEndpoints(q1: Vec4, q2: Vec4)
    ensures QuaternionLerp(q1, q2, 0.0) == q1
    ensures QuaternionLerp(q1, q2, 1.0) == if Dot4(q1, q2) < 0.0 then Neg4(q2) else q2
  {
  }

  lemma NonNegativeProduct(a: real, b: real)
    requires 0.0 <= a && 0.0 <= b
    ensures 0.0 <= a * b
  {
  }

  /** A convex combination of two non-negative numbers is non-negative. */
  lemma Blend(t: real, a: real, b: real)
    requires 0.0 <= a && 0.0 <= b
    ensures 0.0 <= t <= 1.0 ==> 0.0 <= (1.0 - t) * a + t * b
  {
    if 0.0 <= t <= 1.0 {
      NonNegativeProduct(1.0 - t, a);
      NonNegativeProduct(t, b);
    }
  }

  /** The dot product of (1 - t) * q1 + e * t * q2 with q1, where e is the
      sign of dot(q1, q2), is a convex combination of two non-negative
      numbers. */
  lemma LerpHemisphere(q1: Vec4, q2: Vec4, t: real, e: real, r: Vec4)
    requires e == if Dot4(q1, q2) < 0.0 then -1.0 else 1.0
    requires r.x == (1.0 - t) * q1.x + e * t * q2.x && r.y == (1.0 - t) * q1.y + e * t * q2.y
    requires r.z == (1.0 - t) * q1.z + e * t * q2.z && r.w == (1.0 - t) * q1.w + e * t * q2.w
    ensures 0.0 <= t <= 1.0 ==> 0.0 <= Dot4(r, q1)
  {
    LerpDot(q1.x, q1.y, q1.z, q1.w, q2.x, q2.y, q2.z, q2.w, t, e, r.x, r.y, r.z, r.w);
    SquaresNonNegative(q1);
    assert 0.0 <= e * Dot4(q1, q2);
    Blend(t, NormSq4(q1), e * Dot4(q1, q2));
    assert Dot4(r, q1) == (1.0 - t) * NormSq4(q1) + t * (e * Dot4(q1, q2));
  }

  lemma SquaresNonNegative(q: Vec4)
    ensures 0.0 <= NormSq4(q)
  {
    assert 0.0 <= q.x * q.x && 0.0 <= q.y * q.y && 0.0 <= q.z * q.z && 0.0 <= q.w * q.w;
  }

  lemma LerpDot(a1: real, b1: real, c1: real, d1: real, a2: real, b2: real, c2: real, d2: real,
                t: real, e: real, rx: real, ry: real, rz: real, rw: real)
    requires rx == (1.0 - t) * a1 + e * t * a2 && ry == (1.0 - t) * b1 + e * t * b2
    requires rz == (1.0 - t) * c1 + e * t * c2 && rw == (1.0 - t) * d1 + e * t * d2
    ensures rx * a1 + ry * b1 + rz * c1 + rw * d1
         == (1.0 - t) * (a1 * a1 + b1 * b1 + c1 * c1 + d1 * d1) + t * (e * (a1 * a2 + b1 * b2 + c1 * c2 + d1 * d2))
  {
  }

  /** A matrix built from a quaternion never takes the w == 0 branch of
      TransformCoord: its bottom row is (0, 0, 0, 1), so the division is by 1. */
  lemma RotationMatrixIsAffine(q: Vec4, v: Vec3)
    ensures HomogeneousW(QuaternionToMatrix(q), v) == 1.0
    ensures TransformCoord(QuaternionToMatrix(q), v) == MatrixApply(QuaternionToMatrix(q), v)
  {
    var m := QuaternionToMatrix(q);
    var r := TransformCoord(m, v);
    assert Mul3(r, 1.0) == r;
  }

  // Each row of a matrix with QuaternionToMatrix's entries, applied to
  // (v, 1), is the matching row of the multiplied-out sandwich product when
  // q has length 1. The matrix is a parameter, so the solver sees only the
  // entries named in the requires.

  lemma MatrixRowX(m: seq<real>, q: Vec4, v: Vec3)
    requires |m| == 16 && NormSq4(q) == 1.0
    requires m[0] == 1.0 - 2.0 * (q.y * q.y + q.z * q.z) && m[4] == 2.0 * (q.x * q.y - q.z * q.w)
    requires m[8] == 2.0 * (q.x * q.z + q.y * q.w) && m[12] == 0.0
    ensures MatrixApply(m, v).x == (q.w * q.w + q.x * q.x - q.y * q.y - q.z * q.z) * v.x + 2.0 * (q.x * q.y - q.w * q.z) * v.y + 2.0 * (q.x * q.z + q.w * q.y) * v.z
  {
    assert m[0] == q.w * q.w + q.x * q.x - q.y * q.y - q.z * q.z;
    assert m[0] * v.x == (q.w * q.w + q.x * q.x - q.y * q.y - q.z * q.z) * v.x;
    assert m[4] * v.y == 2.0 * (q.x * q.y - q.w * q.z) * v.y;
    assert m[8] * v.z == 2.0 * (q.x * q.z + q.w * q.y) * v.z;
  }

  lemma MatrixRowY(m: seq<real>, q: Vec4, v: Vec3)
    requires |m| == 16 && NormSq4(q) == 1.0
    requires m[1] == 2.0 * (q.x * q.y + q.z * q.w) && m[5] == 1.0 - 2.0 * (q.x * q.x + q.z * q.z)
    requires m[9] == 2.0 * (q.y * q.z - q.x * q.w) && m[13] == 0.0
    ensures MatrixApply(m, v).y == 2.0 * (q.x * q.y + q.w * q.z) * v.x + (q.w * q.w - q.x * q.x + q.y * q.y - q.z * q.z) * v.y + 2.0 * (q.y * q.z - q.w * q.x) * v.z
  {
    assert m[5] == q.w * q.w - q.x * q.x + q.y * q.y - q.z * q.z;
    assert m[1] * v.x == 2.0 * (q.x * q.y + q.w * q.z) * v.x;
    assert m[5] * v.y == (q.w * q.w - q.x * q.x + q.y * q.y - q.z * q.z) * v.y;
    assert m[9] * v.z == 2.0 * (q.y * q.z - q.w * q.x) * v.z;
  }

  lemma MatrixRowZ(m: seq<real>, q: Vec4, v: Vec3)
    requires |m| == 16 && NormSq4(q) == 1.0
    requires m[2] == 2.0 * (q.x * q.z - q.y * q.w) && m[6] == 2.0 * (q.y * q.z + q.x * q.w)
    requires m[10] == 1.0 - 2.0 * (q.x * q.x + q.y * q.y) && m[14] == 0.0
    ensures MatrixApply(m, v).z == 2.0 * (q.x * q.z - q.w * q.y) * v.x + 2.0 * (q.y * q.z + q.w * q.x) * v.y + (q.w * q.w - q.x * q.x - q.y * q.y + q.z * q.z) * v.z
  {
    assert m[10] == q.w * q.w - q.x * q.x - q.y * q.y + q.z * q.z;
    assert m[2] * v.x == 2.0 * (q.x * q.z - q.w * q.y) * v.x;
    assert m[6] * v.y == 2.0 * (q.y * q.z + q.w * q.x) * v.y;
    assert m[10] * v.z == (q.w * q.w - q.x * q.x - q.y * q.y + q.z * q.z) * v.z;
  }

  /** For a unit quaternion, transforming a point by QuaternionToMatrix turns
      it exactly as the sandwich product q * (v, 0) * conjugate(q) does. */
  lemma MatrixRotates(q: Vec4, v: Vec3)
    requires NormSq4(q) == 1.0
    ensures TransformCoord(QuaternionToMatrix(q), v) == ToVec3(Rotate(q, Pure(v)))
  {
    var m := QuaternionToMatrix(q);
    RotationMatrixIsAffine(q, v);
    RotateExpanded(q, v);
    MatrixRowX(m, q, v);
    MatrixRowY(m, q, v);
    MatrixRowZ(m, q, v);
  }
}
