/** Small linear-algebra vocabulary shared by the LGF assembly and the
    relaxation coupling: 3-vectors, 3x3 matrices, dense matrices stored by
    rows, and the row-major reshape between a flat vector of 3n reals and
    n per-atom 3-vectors (numpy's reshape to (n,3) and back). */
module Numerics {

  datatype Option<+T> = None | Some(value: T)

  datatype Result<+T, +E> = Ok(value: T) | Err(error: E)

  /** A per-atom triple: a displacement, a force or a position. */
  datatype Vec3 = Vec3(x: real, y: real, z: real)

  const Zero3: Vec3 := Vec3(0.0, 0.0, 0.0)

  function Comp(v: Vec3, a: nat): real
    requires a < 3
  {
    if a == 0 then v.x else if a == 1 then v.y else v.z
  }

  /** The unit vector along Cartesian direction d. */
  function Basis(d: nat): (e: Vec3)
    requires d < 3
    ensures Comp(e, d) == 1.0
    ensures forall a :: 0 <= a < 3 && a != d ==> Comp(e, a) == 0.0
  {
    if d == 0 then Vec3(1.0, 0.0, 0.0)
    else if d == 1 then Vec3(0.0, 1.0, 0.0)
    else Vec3(0.0, 0.0, 1.0)
  }

  function Add3(u: Vec3, v: Vec3): Vec3 { Vec3(u.x + v.x, u.y + v.y, u.z + v.z) }
  function Sub3(u: Vec3, v: Vec3): Vec3 { Vec3(u.x - v.x, u.y - v.y, u.z - v.z) }
  function Neg3(v: Vec3): Vec3 { Vec3(-v.x, -v.y, -v.z) }
  function Scale3(s: real, v: Vec3): Vec3 { Vec3(s * v.x, s * v.y, s * v.z) }
  function Dot3(u: Vec3, v: Vec3): real { u.x * v.x + u.y * v.y + u.z * v.z }

  /** Python's abs on a real: the magnitude, x or -x, whichever is non-negative. */
  function Abs(x: real): (r: real)
    ensures r >= 0.0 && (r == x || r == -x)
  {
    if x < 0.0 then -x else x
  }

  /** Squared Euclidean length, numpy's sum(u**2) for one row. */
  function NormSq3(v: Vec3): (r: real)
    ensures r >= 0.0
  {
    v.x * v.x + v.y * v.y + v.z * v.z
  }

  /** A 3x3 real matrix, stored by rows. */
  datatype Mat3 = Mat3(r0: Vec3, r1: Vec3, r2: Vec3)

  function Row3(m: Mat3, a: nat): Vec3
    requires a < 3
  {
    if a == 0 then m.r0 else if a == 1 then m.r1 else m.r2
  }

  function Col3(m: Mat3, b: nat): Vec3
    requires b < 3
  {
    Vec3(Comp(m.r0, b), Comp(m.r1, b), Comp(m.r2, b))
  }

  function Entry(m: Mat3, a: nat, b: nat): real
    requires a < 3 && b < 3
  {
    Comp(Row3(m, a), b)
  }

  /** Matrix times vector, numpy's np.dot(m, v) for a 3x3 m. */
  function Apply3(m: Mat3, v: Vec3): Vec3
  {
    Vec3(Dot3(m.r0, v), Dot3(m.r1, v), Dot3(m.r2, v))
  }

  function Transpose3(m: Mat3): Mat3
  {
    Mat3(Col3(m, 0), Col3(m, 1), Col3(m, 2))
  }

  function Mul3(p: Mat3, q: Mat3): Mat3
  {
    Mat3(Vec3(Dot3(p.r0, Col3(q, 0)), Dot3(p.r0, Col3(q, 1)), Dot3(p.r0, Col3(q, 2))),
         Vec3(Dot3(p.r1, Col3(q, 0)), Dot3(p.r1, Col3(q, 1)), Dot3(p.r1, Col3(q, 2))),
         Vec3(Dot3(p.r2, Col3(q, 0)), Dot3(p.r2, Col3(q, 1)), Dot3(p.r2, Col3(q, 2))))
  }

  /** A matrix applied to a unit force picks out one of its columns. */
  lemma ApplyBasis(m: Mat3, d: nat)
    requires d < 3
    ensures Apply3(m, Basis(d)) == Col3(m, d)
  {
  }

  /** A dense matrix, stored as a sequence of rows. */
  type Matrix = seq<seq<real>>

  predicate IsMatrix(a: Matrix, rows: nat, cols: nat)
  {
    |a| == rows && forall i :: 0 <= i < |a| ==> |a[i]| == cols
  }

  function Dot(u: seq<real>, v: seq<real>): real
    requires |u| == |v|
    decreases |u|
  {
    if |u| == 0 then 0.0 else Dot(u[..|u| - 1], v[..|v| - 1]) + u[|u| - 1] * v[|v| - 1]
  }

  /** Matrix times vector, numpy's A.dot(v) for a dense or sparse A. */
  function MatVec(a: Matrix, v: seq<real>): (r: seq<real>)
    requires forall i :: 0 <= i < |a| ==> |a[i]| == |v|
    ensures |r| == |a|
  {
    seq(|a|, i requires 0 <= i < |a| => Dot(a[i], v))
  }

  function AddVec(u: seq<real>, v: seq<real>): seq<real>
    requires |u| == |v|
  {
    seq(|u|, i requires 0 <= i < |u| => u[i] + v[i])
  }

  function NegVec(u: seq<real>): (r: seq<real>)
    ensures |r| == |u|
  {
    seq(|u|, i requires 0 <= i < |u| => -u[i])
  }

  /** Python's slice v[0:n]: a prefix, silently shorter when v is. */
  function Prefix(v: seq<real>, n: nat): (r: seq<real>)
    ensures |r| == if n <= |v| then n else |v|
    ensures r <= v
  {
    if n <= |v| then v[..n] else v
  }

  /** Row-major flattening of n triples into 3n reals (reshape to (3n,)). */
  function Flatten(u: seq<Vec3>): (r: seq<real>)
    ensures |r| == 3 * |u|
  {
    seq(3 * |u|, i requires 0 <= i < 3 * |u| => Comp(u[i / 3], i % 3))
  }

  /** Row-major reshape of 3n reals into n triples (reshape to (n,3)). */
  function Reshape3(v: seq<real>): (r: seq<Vec3>)
    requires |v| % 3 == 0
    ensures 3 * |r| == |v|
  {
    seq(|v| / 3, k requires 0 <= k < |v| / 3 => Vec3(v[3 * k], v[3 * k + 1], v[3 * k + 2]))
  }

  /** The square-root collaborator is exact on the non-negative reals. The
      model never needs a square root's value except through this property;
      floating-point rounding of np.sqrt is not modelled. */
  ghost predicate ExactSqrt(sqrt: real -> real)
  {
    forall x :: 0.0 <= x ==> 0.0 <= sqrt(x) && sqrt(x) * sqrt(x) == x
  }

  /** What an exact square root gives at one point. */
  lemma SqrtAt(sqrt: real -> real, x: real)
    requires ExactSqrt(sqrt) && 0.0 <= x
    ensures 0.0 <= sqrt(x) && sqrt(x) * sqrt(x) == x
  {
  }

  /** Multiplying by a non-negative factor keeps an inequality. */
  lemma MulMono(c: real, p: real, q: real)
    requires c >= 0.0 && p <= q
    ensures c * p <= c * q
  {
  }

  /** Squaring is strictly monotone on the non-negative reals. */
  lemma SquareMono(s: real, b: real)
    requires 0.0 <= s < b
    ensures s * s < b * b
  {
    var ss, sb, bb := s * s, s * b, b * b;
    assert ss <= sb;
    assert sb < bb;
  }

  /** Comparing a square root with a positive bound is comparing squares. */
  lemma SqrtBelow(sqrt: real -> real, x: real, bound: real)
    requires ExactSqrt(sqrt) && 0.0 <= x && 0.0 < bound
    ensures sqrt(x) < bound <==> x < bound * bound
  {
    var s := sqrt(x);
    assert 0.0 <= s && s * s == x;
    if s < bound {
      SquareMono(s, bound);
    } else if bound < s {
      SquareMono(bound, s);
    }
  }
}
