/** Vector and quaternion helpers of `astro/quatvec.ts`: three-component vectors, the
    quaternion product, the half-turn rotation q (p, 0) q* and the two half-turns that move
    a point along with one direction onto another. `Math.sqrt` is passed in (see MathFns). */
module QuatVec {
  import opened Js
  import opened MathFns

  datatype Vec = Vec(x: real, y: real, z: real)
  datatype Quat = Quat(x: real, y: real, z: real, w: real)

  const Origin: Vec := Vec(0.0, 0.0, 0.0)

  /** The guard of `move_v3_from_v1_to_v2`: below this dot product the two directions are
      treated as too far apart for the midpoint construction. */
  const ObliqueLimit: real := -0.1

  function VLenSq(v: Vec): real
  {
    v.x * v.x + v.y * v.y + v.z * v.z
  }

  function VLength(m: MathLib, v: Vec): real
  {
    m.sqrt(VLenSq(v))
  }

  /** `vnormalize`: each component divided by the length; a zero length is the division by
      zero of `vnormalize`, reported as `None`. */
  function VNormalize(m: MathLib, v: Vec): Option<Vec>
  {
    var l := VLength(m, v);
    if l == 0.0 then None else Some(Vec(v.x / l, v.y / l, v.z / l))
  }

  function VNeg(v: Vec): Vec
  {
    Vec(-v.x, -v.y, -v.z)
  }

  function VAdd(v: Vec, w: Vec): Vec
  {
    Vec(v.x + w.x, v.y + w.y, v.z + w.z)
  }

  function VSub(v: Vec, w: Vec): Vec
  {
    Vec(v.x - w.x, v.y - w.y, v.z - w.z)
  }

  function VDot(v: Vec, w: Vec): real
  {
    v.x * w.x + v.y * w.y + v.z * w.z
  }

  function VCross(v: Vec, w: Vec): Vec
  {
    Vec(v.y * w.z - v.z * w.y, v.z * w.x - v.x * w.z, v.x * w.y - v.y * w.x)
  }

  /** `vmidpoint`: the normalised componentwise average. */
  function VMidpoint(m: MathLib, v1: Vec, v2: Vec): Option<Vec>
  {
    VNormalize(m, Vec((v1.x + v2.x) / 2.0, (v1.y + v2.y) / 2.0, (v1.z + v2.z) / 2.0))
  }

  /** Scalar multiple, used only to state the properties below. */
  function VScale(k: real, v: Vec): Vec
  {
    Vec(k * v.x, k * v.y, k * v.z)
  }

  function QuatFromAxis180(axis: Vec): Quat
  {
    Quat(axis.x, axis.y, axis.z, 0.0)
  }

  function QuatConj(q: Quat): Quat
  {
    Quat(-q.x, -q.y, -q.z, q.w)
  }

  /** The Hamilton product q1 q2. */
  function QuatMult(q1: Quat, q2: Quat): Quat
  {
    Quat(q1.w * q2.x + q1.x * q2.w + q1.y * q2.z - q1.z * q2.y,
         q1.w * q2.y - q1.x * q2.z + q1.y * q2.w + q1.z * q2.x,
         q1.w * q2.z + q1.x * q2.y - q1.y * q2.x + q1.z * q2.w,
         q1.w * q2.w - q1.x * q2.x - q1.y * q2.y - q1.z * q2.z)
  }

  function QuatLenSq(q: Quat): real
  {
    q.x * q.x + q.y * q.y + q.z * q.z + q.w * q.w
  }

  /** The vector part of a quaternion: what a caller reads when it passes a quaternion where
      a vector is expected. */
  function VecPart(q: Quat): Vec
  {
    Vec(q.x, q.y, q.z)
  }

  function Pure(v: Vec): Quat
  {
    Quat(v.x, v.y, v.z, 0.0)
  }

  /** `rotate_vertex_position_180`: q (p, 0) q* with q the axis itself (w = 0). */
  function Rotate180(position: Vec, axis: Vec): Quat
  {
    var qr := QuatFromAxis180(axis);
    QuatMult(QuatMult(qr, Pure(position)), QuatConj(qr))
  }

  /** Reference definition of the half-turn about `a` scaled by |a|^2:
      2 (a . p) a - |a|^2 p. For a unit axis it is the rotation by 180 degrees. */
  function HalfTurn(p: Vec, a: Vec): Vec
  {
    var d, L := VDot(a, p), VLenSq(a);
    Vec(2.0 * d * a.x - L * p.x, 2.0 * d * a.y - L * p.y, 2.0 * d * a.z - L * p.z)
  }

  /** `move_v3_from_v1_to_v2`: reflect v1 and v3 through the origin when v1 and v2 point
      too far apart, then turn v3 half a turn about the midpoint of the two directions and
      half a turn about v2. A zero vector or a zero midpoint makes a normalisation divide
      by zero, reported as `None`. */
  function MoveV3FromV1ToV2(m: MathLib, v1: Vec, v2: Vec, v3: Vec): Option<Quat>
    decreases if VDot(v1, v2) < ObliqueLimit then 1 else 0
  {
    if VDot(v1, v2) < ObliqueLimit then
      ReflectedGuardFails(v1, v2);
      MoveV3FromV1ToV2(m, VSub(Origin, v1), v2, VSub(Origin, v3))
    else
      match (VNormalize(m, v1), VNormalize(m, v2))
      case (Some(n1), Some(n2)) =>
        (match VMidpoint(m, n1, n2)
         case Some(mp) => Some(Rotate180(VecPart(Rotate180(v3, mp)), v2))
         case None => None)
      case _ => None
  }

  // ---------------------------------------------------------------------------------------
  // Vector identities

  lemma VNegInvolution(v: Vec)
    ensures VNeg(VNeg(v)) == v
  {
  }

  lemma VSubIsAddNeg(v: Vec, w: Vec)
    ensures VSub(v, w) == VAdd(v, VNeg(w))
    ensures VSub(Origin, v) == VNeg(v)
  {
  }

  lemma VDotSymmetric(v: Vec, w: Vec)
    ensures VDot(v, w) == VDot(w, v)
  {
  }

  /** The squared length is the dot product with itself, and is non-negative. */
  lemma VLenSqIsDot(v: Vec)
    ensures VLenSq(v) == VDot(v, v)
    ensures VLenSq(v) >= 0.0
  {
    SumOfSquares(v.x, v.y, v.z);
  }

  /** A sum of three squares is non-negative, and positive when one of them is non-zero. */
  lemma SumOfSquares(x: real, y: real, z: real)
    ensures x * x + y * y + z * z >= 0.0
    ensures x != 0.0 || y != 0.0 || z != 0.0 ==> x * x + y * y + z * z > 0.0
  {
    assert x * x >= 0.0 && y * y >= 0.0 && z * z >= 0.0;
    if x != 0.0 {
      assert x * x > 0.0;
    } else if y != 0.0 {
      assert y * y > 0.0;
    } else if z != 0.0 {
      assert z * z > 0.0;
    }
  }

  lemma VCrossAnticommutative(v: Vec, w: Vec)
    ensures VCross(v, w) == VNeg(VCross(w, v))
  {
  }

  lemma VCrossOrthogonal(v: Vec, w: Vec)
    ensures VDot(v, VCross(v, w)) == 0.0
    ensures VDot(w, VCross(v, w)) == 0.0
  {
  }

  /** A vector of positive squared length can be normalised (by SumOfSquares, that is
      every vector with a non-zero component). */
  lemma VNormalizeDefined(m: MathLib, v: Vec)
    requires SqrtIsRoot(m)
    requires VLenSq(v) > 0.0
    ensures VNormalize(m, v).Some?
  {
    var q := VLength(m, v);
    assert q * q == VLenSq(v);
    RootOfPositive(q, VLenSq(v));
  }

  lemma RootOfPositive(q: real, x: real)
    requires q * q == x && x > 0.0
    ensures q != 0.0
  {
  }

  /** A normalised vector has length 1 and points the same way: scaled back by the
      length it is the original vector. */
  lemma VNormalizeUnit(m: MathLib, v: Vec)
    requires SqrtIsRoot(m)
    requires VNormalize(m, v).Some?
    ensures VLenSq(VNormalize(m, v).value) == 1.0
    ensures VScale(VLength(m, v), VNormalize(m, v).value) == v
  {
    var l := VLength(m, v);
    var n := VNormalize(m, v).value;
    VLenSqIsDot(v);
    assert l * l == VLenSq(v);
    UnitAfterDivision(l, VLenSq(v), v.x, v.y, v.z);
    assert n == Vec(v.x / l, v.y / l, v.z / l);
  }

  /** With l^2 = x^2 + y^2 + z^2 and l != 0, the components divided by l have squares
      summing to 1. */
  lemma UnitAfterDivision(l: real, L: real, x: real, y: real, z: real)
    requires l != 0.0 && l * l == L && L == x * x + y * y + z * z
    ensures (x / l) * (x / l) + (y / l) * (y / l) + (z / l) * (z / l) == 1.0
  {
    var a, b, c := x / l, y / l, z / l;
    assert a * l == x && b * l == y && c * l == z;
    SquareOfScaled(a, l, x, L);
    SquareOfScaled(b, l, y, L);
    SquareOfScaled(c, l, z, L);
    var sum := a * a + b * b + c * c;
    calc {
      (sum * l) * l;
      sum * L;
      a * a * L + b * b * L + c * c * L;
      x * x + y * y + z * z;
      L;
      l * l;
    }
    MulCancel(sum * l, l, l);
    MulCancel(sum, 1.0, l);
  }

  lemma MulCancel(s: real, t: real, l: real)
    requires l != 0.0 && s * l == t * l
    ensures s == t
  {
    assert s == (s * l) / l;
    assert t == (t * l) / l;
  }

  lemma SquareOfScaled(a: real, l: real, x: real, L: real)
    requires a * l == x && l * l == L
    ensures x * x == a * a * L
  {
    assert x * x == (a * a) * (l * l);
  }

  /** Normalising a vector that already has length 1 leaves it unchanged. */
  lemma VNormalizeOfUnit(m: MathLib, v: Vec)
    requires SqrtIsRoot(m)
    requires VLenSq(v) == 1.0
    ensures VNormalize(m, v) == Some(v)
  {
    var l := VLength(m, v);
    assert l >= 0.0 && l * l == 1.0;
    SquareAroundOne(l);
  }

  lemma SquareAroundOne(l: real)
    ensures l > 1.0 ==> l * l > 1.0
    ensures 0.0 <= l < 1.0 ==> l * l < 1.0
  {
    if l > 1.0 {
      assert (l - 1.0) * (l + 1.0) > 0.0;
    } else if 0.0 <= l < 1.0 {
      assert l * l <= l * 1.0;
    }
  }

  // ---------------------------------------------------------------------------------------
  // Quaternion identities

  lemma QuatConjInvolution(q: Quat)
    ensures QuatConj(QuatConj(q)) == q
  {
  }

  /** q q* is the real quaternion |q|^2. */
  lemma QuatMultConj(q: Quat)
    ensures QuatMult(q, QuatConj(q)) == Quat(0.0, 0.0, 0.0, QuatLenSq(q))
    ensures QuatLenSq(q) >= 0.0
  {
  }

  /** The half-turn product is a pure quaternion whose vector part is the reference
      half-turn 2 (a . p) a - |a|^2 p. */
  lemma Rotate180Formula(p: Vec, a: Vec)
    ensures Rotate180(p, a) == Pure(HalfTurn(p, a))
  {
    // (a, 0) (p, 0) = (a x p, -a . p), and then (a x p, -a . p) (-a, 0), one component
    // at a time
    Rotate180X(p, a);
    Rotate180Y(p, a);
    Rotate180Z(p, a);
    Rotate180W(p, a);
  }

  lemma Rotate180X(p: Vec, a: Vec)
    ensures Rotate180(p, a).x == HalfTurn(p, a).x
  {
    var q := QuatMult(QuatFromAxis180(a), Pure(p));
    ConjugateComponent(q.w, q.y, q.z, a.x, a.y, a.z, p.x, p.y, p.z, VDot(a, p), VLenSq(a));
  }

  lemma Rotate180Y(p: Vec, a: Vec)
    ensures Rotate180(p, a).y == HalfTurn(p, a).y
  {
    var q := QuatMult(QuatFromAxis180(a), Pure(p));
    ConjugateComponent(q.w, q.z, q.x, a.y, a.z, a.x, p.y, p.z, p.x, VDot(a, p), VLenSq(a));
  }

  lemma Rotate180Z(p: Vec, a: Vec)
    ensures Rotate180(p, a).z == HalfTurn(p, a).z
  {
    var q := QuatMult(QuatFromAxis180(a), Pure(p));
    ConjugateComponent(q.w, q.x, q.y, a.z, a.x, a.y, p.z, p.x, p.y, VDot(a, p), VLenSq(a));
  }

  lemma Rotate180W(p: Vec, a: Vec)
    ensures Rotate180(p, a).w == 0.0
  {
    var q := QuatMult(QuatFromAxis180(a), Pure(p));
    ConjugateScalar(q.x, q.y, q.z, a.x, a.y, a.z, p.x, p.y, p.z);
  }

  /** One vector component of (a x p, -d) (-a, 0), with the axes taken in cyclic order
      (u, v, w) and s, m, n the scalar, w and v parts of (a x p, -d). */
  lemma ConjugateComponent(s: real, m: real, n: real, au: real, av: real, aw: real, pu: real, pv: real, pw: real,
                           d: real, L: real)
    requires s == -d && m == aw * pu - au * pw && n == au * pv - av * pu
    requires d == au * pu + av * pv + aw * pw
    requires L == au * au + av * av + aw * aw
    ensures s * (-au) + m * (-aw) - n * (-av) == 2.0 * d * au - L * pu
  {
    assert s * (-au) == d * au;
    assert m * (-aw) == au * aw * pw - aw * aw * pu;
    assert n * (-av) == av * av * pu - au * av * pv;
    assert d * au == au * au * pu + au * av * pv + au * aw * pw;
    assert L * pu == au * au * pu + av * av * pu + aw * aw * pu;
  }

  /** The scalar part of (a x p, -d) (-a, 0) vanishes: a . (a x p) = 0. */
  lemma ConjugateScalar(qx: real, qy: real, qz: real, ax: real, ay: real, az: real, px: real, py: real, pz: real)
    requires qx == ay * pz - az * py && qy == az * px - ax * pz && qz == ax * py - ay * px
    ensures qx * (-ax) + qy * (-ay) + qz * (-az) == 0.0
  {
    assert qx * (-ax) == ax * az * py - ax * ay * pz;
    assert qy * (-ay) == ax * ay * pz - ay * az * px;
    assert qz * (-az) == ay * az * px - ax * az * py;
  }

  /** About a unit axis the half-turn keeps the length of the point. */
  lemma HalfTurnPreservesLength(p: Vec, a: Vec)
    requires VLenSq(a) == 1.0
    ensures VLenSq(HalfTurn(p, a)) == VLenSq(p)
  {
    var h := HalfTurn(p, a);
    UnitHalfTurnLength(a.x, a.y, a.z, p.x, p.y, p.z, VDot(a, p), VLenSq(a), h.x, h.y, h.z);
  }

  /** |2 d a - L p|^2 = |p|^2 when L = |a|^2 = 1 and d = a . p. */
  lemma UnitHalfTurnLength(ax: real, ay: real, az: real, px: real, py: real, pz: real, d: real, L: real,
                           hx: real, hy: real, hz: real)
    requires d == ax * px + ay * py + az * pz && L == ax * ax + ay * ay + az * az && L == 1.0
    requires hx == 2.0 * d * ax - L * px && hy == 2.0 * d * ay - L * py && hz == 2.0 * d * az - L * pz
    ensures hx * hx + hy * hy + hz * hz == px * px + py * py + pz * pz
  {
    assert hx == 2.0 * d * ax - px && hy == 2.0 * d * ay - py && hz == 2.0 * d * az - pz;
    assert hx * hx == 4.0 * d * d * (ax * ax) - 4.0 * d * (ax * px) + px * px;
    assert hy * hy == 4.0 * d * d * (ay * ay) - 4.0 * d * (ay * py) + py * py;
    assert hz * hz == 4.0 * d * d * (az * az) - 4.0 * d * (az * pz) + pz * pz;
    assert 4.0 * d * d * (ax * ax) + 4.0 * d * d * (ay * ay) + 4.0 * d * d * (az * az) == 4.0 * d * d * L;
    assert 4.0 * d * (ax * px) + 4.0 * d * (ay * py) + 4.0 * d * (az * pz) == 4.0 * d * d;
  }

  /** About a unit axis the half-turn undoes itself. */
  lemma HalfTurnInvolution(p: Vec, a: Vec)
    requires VLenSq(a) == 1.0
    ensures HalfTurn(HalfTurn(p, a), a) == p
  {
    HalfTurnInvolutionAt(p, a, 0);
    HalfTurnInvolutionAt(p, a, 1);
    HalfTurnInvolutionAt(p, a, 2);
  }

  /** One component of `HalfTurnInvolution`. */
  lemma HalfTurnInvolutionAt(p: Vec, a: Vec, i: nat)
    requires VLenSq(a) == 1.0 && i < 3
    ensures At(HalfTurn(HalfTurn(p, a), a), i) == At(p, i)
  {
    var d, L := VDot(a, p), VLenSq(a);
    var h := HalfTurn(p, a);
    UnitHalfTurnDot(a.x, a.y, a.z, p.x, p.y, p.z, d, L, h.x, h.y, h.z);
    var e := VDot(a, h);
    var g := HalfTurn(h, a);
    if i == 0 {
      InvolutionComponent(d, e, L, a.x, p.x, h.x);
      assert g.x == 2.0 * e * a.x - L * h.x;
    } else if i == 1 {
      InvolutionComponent(d, e, L, a.y, p.y, h.y);
      assert g.y == 2.0 * e * a.y - L * h.y;
    } else {
      InvolutionComponent(d, e, L, a.z, p.z, h.z);
      assert g.z == 2.0 * e * a.z - L * h.z;
    }
  }

  /** a . (2 d a - L p) = d when L = |a|^2 = 1 and d = a . p. */
  lemma UnitHalfTurnDot(ax: real, ay: real, az: real, px: real, py: real, pz: real, d: real, L: real,
                        hx: real, hy: real, hz: real)
    requires d == ax * px + ay * py + az * pz && L == ax * ax + ay * ay + az * az && L == 1.0
    requires hx == 2.0 * d * ax - L * px && hy == 2.0 * d * ay - L * py && hz == 2.0 * d * az - L * pz
    ensures ax * hx + ay * hy + az * hz == d
  {
    assert hx == 2.0 * d * ax - px && hy == 2.0 * d * ay - py && hz == 2.0 * d * az - pz;
    assert ax * hx == 2.0 * d * (ax * ax) - ax * px;
    assert ay * hy == 2.0 * d * (ay * ay) - ay * py;
    assert az * hz == 2.0 * d * (az * az) - az * pz;
    assert 2.0 * d * (ax * ax) + 2.0 * d * (ay * ay) + 2.0 * d * (az * az) == 2.0 * d * L;
  }

  /** One component of the second half-turn: 2 e a_i - L h_i = p_i when e = d, L = 1 and
      h_i = 2 d a_i - L p_i. */
  lemma InvolutionComponent(d: real, e: real, L: real, ai: real, pi: real, hi: real)
    requires e == d && L == 1.0 && hi == 2.0 * d * ai - L * pi
    ensures 2.0 * e * ai - L * hi == pi
  {
  }

  /** The half-turn about a unit axis keeps the axis itself fixed. */
  lemma HalfTurnFixesAxis(a: Vec)
    requires VLenSq(a) == 1.0
    ensures HalfTurn(a, a) == a
  {
  }

  /** For a unit axis, `rotate_vertex_position_180` gives a pure quaternion, keeps the
      length of the point, and applied twice returns the point. */
  lemma Rotate180Properties(p: Vec, a: Vec)
    requires VLenSq(a) == 1.0
    ensures Rotate180(p, a).w == 0.0
    ensures VLenSq(VecPart(Rotate180(p, a))) == VLenSq(p)
    ensures VecPart(Rotate180(VecPart(Rotate180(p, a)), a)) == p
  {
    Rotate180Formula(p, a);
    HalfTurnPreservesLength(p, a);
    Rotate180Formula(HalfTurn(p, a), a);
    HalfTurnInvolution(p, a);
  }

  /** Scaling the axis by k scales the reference half-turn by k^2. */
  lemma HalfTurnScaledAxis(p: Vec, a: Vec, k: real)
    ensures HalfTurn(p, VScale(k, a)) == VScale(k * k, HalfTurn(p, a))
  {
    HalfTurnScaledAt(p, a, k, 0);
    HalfTurnScaledAt(p, a, k, 1);
    HalfTurnScaledAt(p, a, k, 2);
  }

  /** Component `i` of a vector. */
  function At(v: Vec, i: nat): real
    requires i < 3
  {
    if i == 0 then v.x else if i == 1 then v.y else v.z
  }

  /** One component of `HalfTurnScaledAxis`. */
  lemma HalfTurnScaledAt(p: Vec, a: Vec, k: real, i: nat)
    requires i < 3
    ensures At(HalfTurn(p, VScale(k, a)), i) == At(VScale(k * k, HalfTurn(p, a)), i)
  {
    var b, h := VScale(k, a), HalfTurn(p, a);
    var d, L, db, Lb := VDot(a, p), VLenSq(a), VDot(b, p), VLenSq(b);
    var hb, sh := HalfTurn(p, b), VScale(k * k, h);
    if i == 0 {
      assert hb.x == 2.0 * db * b.x - Lb * p.x && sh.x == (k * k) * h.x;
      ScaledDot(k, a, p);
      ScaledLenSq(k, a);
      ScaledComponent(k, d, L, a.x, p.x, db, Lb, b.x, h.x);
    } else if i == 1 {
      assert hb.y == 2.0 * db * b.y - Lb * p.y && sh.y == (k * k) * h.y;
      ScaledDot(k, a, p);
      ScaledLenSq(k, a);
      ScaledComponent(k, d, L, a.y, p.y, db, Lb, b.y, h.y);
    } else {
      assert hb.z == 2.0 * db * b.z - Lb * p.z && sh.z == (k * k) * h.z;
      ScaledDot(k, a, p);
      ScaledLenSq(k, a);
      ScaledComponent(k, d, L, a.z, p.z, db, Lb, b.z, h.z);
    }
  }

  lemma ScaleEqual(c: real, u: real, v: real)
    requires u == v
    ensures c * u == c * v
  {
  }

  lemma ScaleInverse(c: real, L: real, x: real)
    requires c * L == 1.0
    ensures c * (L * x) == x
  {
    assert c * (L * x) == (c * L) * x;
  }

  lemma ScaledDot(k: real, a: Vec, p: Vec)
    ensures VDot(VScale(k, a), p) == k * VDot(a, p)
  {
  }

  lemma ScaledLenSq(k: real, a: Vec)
    ensures VLenSq(VScale(k, a)) == (k * k) * VLenSq(a)
  {
  }

  lemma ScaledComponent(k: real, d: real, L: real, ai: real, pi: real, db: real, Lb: real, bi: real, hi: real)
    requires db == k * d && Lb == (k * k) * L && bi == k * ai && hi == 2.0 * d * ai - L * pi
    ensures 2.0 * db * bi - Lb * pi == (k * k) * hi
  {
    assert 2.0 * db * bi == (k * k) * (2.0 * d * ai);
    assert Lb * pi == (k * k) * (L * pi);
  }

  // ---------------------------------------------------------------------------------------
  // move_v3_from_v1_to_v2

  /** The reflected call's guard fails, so the function recurses at most once. */
  lemma ReflectedGuardFails(v1: Vec, v2: Vec)
    requires VDot(v1, v2) < ObliqueLimit
    ensures VDot(VSub(Origin, v1), v2) == -VDot(v1, v2)
    ensures !(VDot(VSub(Origin, v1), v2) < ObliqueLimit)
  {
  }

  /** Reflecting through the origin keeps the length. */
  lemma ReflectedLength(v: Vec)
    ensures VLenSq(VSub(Origin, v)) == VLenSq(v)
  {
    assert VSub(Origin, v) == Vec(0.0 - v.x, 0.0 - v.y, 0.0 - v.z);
    assert (0.0 - v.x) * (0.0 - v.x) == v.x * v.x;
    assert (0.0 - v.y) * (0.0 - v.y) == v.y * v.y;
    assert (0.0 - v.z) * (0.0 - v.z) == v.z * v.z;
  }

  /** For two unit directions that are not opposite, the half-turn about their midpoint
      carries the first onto the second. */
  lemma MidpointHalfTurn(m: MathLib, n1: Vec, n2: Vec)
    requires SqrtIsRoot(m)
    requires VLenSq(n1) == 1.0 && VLenSq(n2) == 1.0
    requires VDot(n1, n2) > -1.0
    ensures VMidpoint(m, n1, n2).Some?
    ensures VecPart(Rotate180(n1, VMidpoint(m, n1, n2).value)) == n2
  {
    var s := Vec((n1.x + n2.x) / 2.0, (n1.y + n2.y) / 2.0, (n1.z + n2.z) / 2.0);
    MidpointAlgebra(n1, n2, s);
    var k := NormalizeScale(m, s);
    HalfTurnScaledAxis(n1, s, k);
    ScaledBack(k * k, VLenSq(s), n2);
    Rotate180Formula(n1, VScale(k, s));
  }

  /** Normalising a vector of positive length scales it by some k with k^2 |v|^2 = 1. */
  lemma NormalizeScale(m: MathLib, v: Vec) returns (k: real)
    requires SqrtIsRoot(m) && VLenSq(v) > 0.0
    ensures VNormalize(m, v) == Some(VScale(k, v))
    ensures k * k * VLenSq(v) == 1.0
  {
    var l := VLength(m, v);
    assert l * l == VLenSq(v);
    RootOfPositive(l, VLenSq(v));
    k := 1.0 / l;
    InverseSquare(l, k, VLenSq(v));
    DivIsScale(v.x, l, k);
    DivIsScale(v.y, l, k);
    DivIsScale(v.z, l, k);
    assert VNormalize(m, v) == Some(Vec(v.x / l, v.y / l, v.z / l));
    assert Vec(v.x / l, v.y / l, v.z / l) == Vec(k * v.x, k * v.y, k * v.z);
    assert VScale(k, v) == Vec(k * v.x, k * v.y, k * v.z);
  }

  lemma InverseSquare(l: real, k: real, L: real)
    requires l != 0.0 && l * l == L && k == 1.0 / l
    ensures k * k * L == 1.0
  {
    assert k * l == 1.0;
    assert (k * k) * (l * l) == (k * l) * (k * l);
  }

  lemma DivIsScale(x: real, l: real, k: real)
    requires l != 0.0 && k == 1.0 / l
    ensures x / l == k * x
  {
  }

  /** Scaling by L and then by c with c L = 1 gives the vector back. */
  lemma ScaledBack(c: real, L: real, v: Vec)
    requires c * L == 1.0
    ensures VScale(c, VScale(L, v)) == v
  {
    ScaleInverse(c, L, v.x);
    ScaleInverse(c, L, v.y);
    ScaleInverse(c, L, v.z);
  }

  /** With s the average of two unit vectors n1, n2: |s|^2 = s . n1 = (1 + n1 . n2) / 2, and
      the half-turn about s maps n1 to |s|^2 n2. */
  lemma MidpointAlgebra(n1: Vec, n2: Vec, s: Vec)
    requires VLenSq(n1) == 1.0 && VLenSq(n2) == 1.0
    requires VDot(n1, n2) > -1.0
    requires s == Vec((n1.x + n2.x) / 2.0, (n1.y + n2.y) / 2.0, (n1.z + n2.z) / 2.0)
    ensures VLenSq(s) == (1.0 + VDot(n1, n2)) / 2.0 > 0.0
    ensures HalfTurn(n1, s) == VScale(VLenSq(s), n2)
  {
    var c := VDot(n1, n2);
    assert VLenSq(s) == (VLenSq(n1) + 2.0 * c + VLenSq(n2)) / 4.0;
    assert VDot(s, n1) == (VLenSq(n1) + c) / 2.0;
    var L := VLenSq(s);
    var h := HalfTurn(n1, s);
    assert h.x == 2.0 * L * s.x - L * n1.x;
    assert h.y == 2.0 * L * s.y - L * n1.y;
    assert h.z == 2.0 * L * s.z - L * n1.z;
  }

  /** The construction moves v1 onto v2: for unit vectors v1 and v2, moving v1 itself gives
      v2 (as a pure quaternion), whether or not the reflection is taken. */
  lemma MoveCarriesV1OntoV2(m: MathLib, v1: Vec, v2: Vec)
    requires SqrtIsRoot(m)
    requires VLenSq(v1) == 1.0 && VLenSq(v2) == 1.0
    ensures MoveV3FromV1ToV2(m, v1, v2, v1) == Some(Pure(v2))
  {
    if VDot(v1, v2) < ObliqueLimit {
      var r1 := VSub(Origin, v1);
      ReflectedLength(v1);
      ReflectedGuardFails(v1, v2);
      MoveUnreflected(m, r1, v2);
    } else {
      MoveUnreflected(m, v1, v2);
    }
  }

  lemma MoveUnreflected(m: MathLib, v1: Vec, v2: Vec)
    requires SqrtIsRoot(m)
    requires VLenSq(v1) == 1.0 && VLenSq(v2) == 1.0
    requires !(VDot(v1, v2) < ObliqueLimit)
    ensures MoveV3FromV1ToV2(m, v1, v2, v1) == Some(Pure(v2))
  {
    VNormalizeOfUnit(m, v1);
    VNormalizeOfUnit(m, v2);
    MidpointHalfTurn(m, v1, v2);
    Rotate180Formula(v2, v2);
    HalfTurnFixesAxis(v2);
  }

  /** When v2 has length 1 the result is a pure quaternion as long as v3. */
  lemma MovePreservesLength(m: MathLib, v1: Vec, v2: Vec, v3: Vec)
    requires SqrtIsRoot(m)
    requires VLenSq(v2) == 1.0
    requires MoveV3FromV1ToV2(m, v1, v2, v3).Some?
    ensures MoveV3FromV1ToV2(m, v1, v2, v3).value.w == 0.0
    ensures VLenSq(VecPart(MoveV3FromV1ToV2(m, v1, v2, v3).value)) == VLenSq(v3)
    decreases if VDot(v1, v2) < ObliqueLimit then 1 else 0
  {
    if VDot(v1, v2) < ObliqueLimit {
      ReflectedGuardFails(v1, v2);
      var r3 := VSub(Origin, v3);
      ReflectedLength(v3);
      MovePreservesLength(m, VSub(Origin, v1), v2, r3);
    } else {
      var n1 := VNormalize(m, v1).value;
      var n2 := VNormalize(m, v2).value;
      var mp := VMidpoint(m, n1, n2).value;
      VNormalizeUnit(m, Vec((n1.x + n2.x) / 2.0, (n1.y + n2.y) / 2.0, (n1.z + n2.z) / 2.0));
      Rotate180Properties(v3, mp);
      Rotate180Properties(VecPart(Rotate180(v3, mp)), v2);
    }
  }
}
