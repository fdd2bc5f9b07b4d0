/**
 * Vocabulary shared by every variant of the particle tunnel: 3-vectors of
 * reals, an explicit NaN flag, the guarded and unguarded `normalize`
 * helpers, `cross`, clamps, and the oracles that stand for the browser's
 * `Math` object and the three.js Catmull-Rom curve.
 */
module Common {

  datatype Option<T> = None | Some(value: T)

  /** A number that may be the IEEE NaN the source produces by dividing 0 by 0. */
  datatype Num = Finite(value: real) | NaN

  datatype Vec3 = Vec3(x: real, y: real, z: real)

  const Zero: Vec3 := Vec3(0.0, 0.0, 0.0)

  function Add(a: Vec3, b: Vec3): Vec3 { Vec3(a.x + b.x, a.y + b.y, a.z + b.z) }

  function Sub(a: Vec3, b: Vec3): Vec3 { Vec3(a.x - b.x, a.y - b.y, a.z - b.z) }

  function Scale(a: Vec3, k: real): Vec3 { Vec3(a.x * k, a.y * k, a.z * k) }

  function Dot(a: Vec3, b: Vec3): real { a.x * b.x + a.y * b.y + a.z * b.z }

  function Sq(x: real): real { x * x }

  function NormSq(a: Vec3): real { Sq(a.x) + Sq(a.y) + Sq(a.z) }

  /** Euclidean 3-vector cross product, as `cross` in the source writes it out. */
  function Cross(a: Vec3, b: Vec3): Vec3
  {
    Vec3(a.y * b.z - a.z * b.y, a.z * b.x - a.x * b.z, a.x * b.y - a.y * b.x)
  }

  /** The cross product is orthogonal to both factors. */
  lemma CrossIsOrthogonal(a: Vec3, b: Vec3)
    ensures Dot(Cross(a, b), a) == 0.0 && Dot(Cross(a, b), b) == 0.0
  {}

  // Squares.  The solver handles `x * x` poorly once it sits inside a larger
  // fact, so the sign of a square is proved once here and used through `Sq`.

  lemma SqNonNegative(a: real)
    ensures Sq(a) >= 0.0
  {}

  lemma SqOfPositive(a: real)
    requires a > 0.0
    ensures Sq(a) > 0.0
  {
    calc { Sq(a); == a * a; > 0.0; }
  }

  lemma SqOfNegative(a: real)
    requires a < 0.0
    ensures Sq(a) > 0.0
  {
    calc { Sq(a); == a * a; > 0.0; }
  }

  lemma SqPositive(a: real)
    requires a != 0.0
    ensures Sq(a) > 0.0
  {
    if a > 0.0 { SqOfPositive(a); } else { SqOfNegative(a); }
  }

  lemma NormSqZero(v: Vec3)
    ensures 0.0 <= NormSq(v)
    ensures NormSq(v) == 0.0 <==> v == Zero
  {
    SqNonNegative(v.x); SqNonNegative(v.y); SqNonNegative(v.z);
    if v.x != 0.0 { SqPositive(v.x); }
    if v.y != 0.0 { SqPositive(v.y); }
    if v.z != 0.0 { SqPositive(v.z); }
  }

  /**
   * The transcendental functions the source takes from `Math`.  They cannot
   * be computed over the reals, so the model receives them as values and
   * relies only on the ranges stated in `ValidMath`.
   */
  datatype MathLib = MathLib(
    sqrt: real -> real,
    sin: real -> real,
    cos: real -> real,
    exp: real -> real,
    pow: (real, real) -> real,
    pi: real)

  ghost predicate IsSqrt(sqrt: real -> real)
  {
    forall x :: 0.0 <= x ==> 0.0 <= sqrt(x) && Sq(sqrt(x)) == x
  }

  ghost predicate ValidMath(m: MathLib)
  {
    IsSqrt(m.sqrt) &&
    (forall a :: Sq(m.sin(a)) + Sq(m.cos(a)) == 1.0) &&
    (forall x :: x <= 0.0 ==> 0.0 < m.exp(x) <= 1.0) &&
    (forall b, e :: 0.0 <= b <= 1.0 && 0.0 < e ==> 0.0 <= m.pow(b, e) <= 1.0) &&
    3.14 < m.pi < 3.15
  }

  /**
   * The three.js `CatmullRomCurve3` the tunnel follows: `getPointAt` and
   * `getTangentAt` (arc-length parameter) and `getPoint` (raw parameter).
   */
  datatype Curve = Curve(pointAt: real -> Vec3, tangentAt: real -> Vec3, point: real -> Vec3)

  /** `Math.hypot` over three components, through the square-root oracle. */
  function Length(sqrt: real -> real, v: Vec3): (r: real)
    requires IsSqrt(sqrt)
    ensures 0.0 <= r
    ensures r == 0.0 <==> v == Zero
  {
    NormSqZero(v);
    var r := sqrt(NormSq(v));
    SquareRootOfZero(r, NormSq(v));
    r
  }

  /**
   * The length squares to the sum of the squared components.  (Stated as
   * a lemma rather than in `Length`'s contract, so that callers that do
   * not need it are not burdened with the nonlinear fact.)
   */
  lemma LengthSquared(sqrt: real -> real, v: Vec3)
    requires IsSqrt(sqrt)
    ensures Sq(Length(sqrt, v)) == NormSq(v)
  {
    NormSqZero(v);
  }

  lemma SquareRootOfZero(r: real, n: real)
    requires 0.0 <= r && Sq(r) == n
    ensures r == 0.0 <==> n == 0.0
  {
    if r != 0.0 { SqPositive(r); }
  }

  /**
   * Guarded `normalize`: a zero vector stays zero, any other vector is
   * divided by its length and comes out of unit length.  (three.js
   * `Vector3.normalize` behaves the same way: it divides by `length() || 1`.)
   */
  function Normalize(sqrt: real -> real, v: Vec3): (r: Vec3)
    requires IsSqrt(sqrt)
    ensures v == Zero <==> r == Zero
  {
    var len := Length(sqrt, v);
    if len == 0.0 then Zero
    else
      NonzeroAfterScaling(v, len);
      Scale(v, 1.0 / len)
  }

  lemma NonzeroAfterScaling(v: Vec3, len: real)
    requires len > 0.0 && v != Zero
    ensures Scale(v, 1.0 / len) != Zero
  {
    var k := 1.0 / len;
    assert k > 0.0;
    if v.x != 0.0 { assert v.x * k != 0.0; }
    else if v.y != 0.0 { assert v.y * k != 0.0; }
    else { assert v.z * k != 0.0; }
  }

  /** Any nonzero vector comes out of `normalize` with unit length. */
  lemma NormalizeIsUnit(sqrt: real -> real, v: Vec3)
    requires IsSqrt(sqrt) && v != Zero
    ensures NormSq(Normalize(sqrt, v)) == 1.0
  {
    var len := Length(sqrt, v);
    LengthSquared(sqrt, v);
    UnitAfterScaling(v, len);
  }

  /** Dividing by the length keeps a vector orthogonal to whatever it was orthogonal to. */
  lemma NormalizeKeepsOrthogonal(sqrt: real -> real, v: Vec3, w: Vec3)
    requires IsSqrt(sqrt) && Dot(v, w) == 0.0
    ensures Dot(Normalize(sqrt, v), w) == 0.0
  {
    var len := Length(sqrt, v);
    if len != 0.0 {
      var k := 1.0 / len;
      assert Dot(Scale(v, k), w) == k * Dot(v, w);
    }
  }

  lemma UnitAfterScaling(v: Vec3, len: real)
    requires len > 0.0 && Sq(len) == NormSq(v)
    ensures NormSq(Scale(v, 1.0 / len)) == 1.0
  {
    var k := 1.0 / len;
    assert len * k == 1.0;
    SqOfProduct(v.x, k); SqOfProduct(v.y, k); SqOfProduct(v.z, k); SqOfProduct(len, k);
    assert NormSq(Scale(v, k)) == NormSq(v) * Sq(k);
  }

  lemma SqOfProduct(a: real, b: real)
    ensures Sq(a * b) == Sq(a) * Sq(b)
  {}

  /** Result of the unguarded `normalize`: NaN in every component when the input is zero. */
  datatype MaybeVec = Vector(v: Vec3) | NaNVector

  function NormalizeUnguarded(sqrt: real -> real, v: Vec3): (r: MaybeVec)
    requires IsSqrt(sqrt)
    ensures r.NaNVector? <==> v == Zero
    ensures r.Vector? ==> r.v == Normalize(sqrt, v)
  {
    if Length(sqrt, v) == 0.0 then NaNVector else Vector(Normalize(sqrt, v))
  }

  /** `Math.max(lo, Math.min(hi, x))`. */
  function Clamp(x: real, lo: real, hi: real): (r: real)
    requires lo <= hi
    ensures lo <= r <= hi
    ensures lo <= x <= hi ==> r == x
    ensures x < lo ==> r == lo
    ensures hi < x ==> r == hi
  {
    if x < lo then lo else if hi < x then hi else x
  }

  function Min(a: real, b: real): (r: real)
    ensures r <= a && r <= b && (r == a || r == b)
  {
    if a <= b then a else b
  }

  /** `Math.min` on naturals, as the stomach tunnel uses it for slot counts. */
  function MinNat(a: nat, b: nat): (r: nat)
    ensures r <= a && r <= b && (r == a || r == b)
  {
    if a <= b then a else b
  }

  function Max(a: real, b: real): (r: real)
    ensures r >= a && r >= b && (r == a || r == b)
  {
    if a >= b then a else b
  }

  /** JavaScript `x || fallback` on a number read from the options: 0 falls back. */
  function OrDefault(x: real, fallback: real): (r: real)
    ensures x != 0.0 ==> r == x
    ensures x == 0.0 ==> r == fallback
  {
    if x == 0.0 then fallback else x
  }

  /** `Math.floor` of a real in [0, 1) scaled by `n` lands in [0, n). */
  function FloorScaled(r: real, n: nat): (k: int)
    requires 0.0 <= r < 1.0
    ensures 0 <= k
    ensures k < n || (n == 0 && k == 0)
    ensures k as real <= r * n as real < k as real + 1.0
  {
    ScaledBelow(r, n as real);
    var x := r * n as real;
    var k := x.Floor;
    assert k as real <= x < k as real + 1.0;
    assert n == 0 ==> x == 0.0;
    assert n > 0 ==> k as real < n as real;
    k
  }

  lemma ScaledBelow(r: real, n: real)
    requires 0.0 <= r < 1.0 && 0.0 <= n
    ensures 0.0 <= r * n <= n
    ensures 0.0 < n ==> r * n < n
  {
    assert r * n <= 1.0 * n;
    if 0.0 < n { assert r * n < 1.0 * n; }
  }

  /** Components `3 k`, `3 k + 1`, `3 k + 2` of a flat array, as a vector. */
  function At3(s: seq<real>, k: nat): Vec3
    requires 3 * k + 2 < |s|
  {
    Vec3(s[3 * k], s[3 * k + 1], s[3 * k + 2])
  }

  /** `s[3k] = v.x; s[3k+1] = v.y; s[3k+2] = v.z`. */
  function Put3(s: seq<real>, k: nat, v: Vec3): (r: seq<real>)
    requires 3 * k + 2 < |s|
    ensures |r| == |s| && At3(r, k) == v
    ensures forall j: nat :: 3 * j + 2 < |s| && j != k ==> At3(r, j) == At3(s, j)
  {
    s[3 * k := v.x][3 * k + 1 := v.y][3 * k + 2 := v.z]
  }
}
