/**
 * The geometry `move` uses to keep particles inside the tunnel: the
 * progress parameter read from a particle's depth, the radial confinement
 * force with its spiral, the respawn test, and the ring a respawned
 * particle is placed on.  The bands of the confinement force differ
 * between the scroll-driven build and the source build (which the Webflow
 * embed copies); `Bands` carries the difference.
 */
module Tunnel {
  import opened Common

  /**
   * The radial bands: inward force beyond `outer * R`, outward force
   * inside `inner * R`, the outward force measured from `innerRef * R` and
   * scaled by `innerGain`.
   */
  datatype Bands = Bands(outer: real, inner: real, innerRef: real, innerGain: real)

  /** Scroll-driven build: inward beyond R, outward inside 0.8 R toward 0.8 R at half strength. */
  const DistBands: Bands := Bands(1.0, 0.8, 0.8, 0.5)

  /** Source build and Webflow embed: inward beyond 1.2 R, outward inside 0.8 R toward R. */
  const SrcBands: Bands := Bands(1.2, 0.8, 1.0, 1.0)

  /**
   * The signed magnitude of the confinement force along the direction to
   * the path (positive pulls inward), for a particle at radial distance
   * `d` from the path, tunnel radius `r` and strength `k`.
   */
  function RadialMagnitude(b: Bands, d: real, r: real, k: real): real
  {
    if d > r * b.outer then (d - r) * k
    else if d < r * b.inner then -(r * b.innerRef - d) * k * b.innerGain
    else 0.0
  }

  /**
   * With a positive radius and strength, each build pulls inward exactly
   * beyond its outer band edge, pushes outward exactly inside its inner
   * band edge, and leaves the band between alone.
   */
  lemma {:induction false} MagnitudeSign(b: Bands, d: real, r: real, k: real)
    requires b == DistBands || b == SrcBands
    requires 0.0 < r && 0.0 < k
    ensures RadialMagnitude(b, d, r, k) > 0.0 <==> d > r * b.outer
    ensures RadialMagnitude(b, d, r, k) < 0.0 <==> d < r * b.inner
    ensures r * b.inner <= d <= r * b.outer ==> RadialMagnitude(b, d, r, k) == 0.0
  {
    if d > r * b.outer {
      assert d - r > 0.0;
      PositiveProduct(d - r, k);
    } else if d < r * b.inner {
      assert r * b.innerRef - d > 0.0;
      PositiveProduct(r * b.innerRef - d, k * b.innerGain);
      assert -(r * b.innerRef - d) * k * b.innerGain == -((r * b.innerRef - d) * (k * b.innerGain));
    }
  }

  lemma PositiveProduct(a: real, b: real)
    requires 0.0 < a && 0.0 < b
    ensures 0.0 < a * b
  {}

  /**
   * The scroll-driven force grows from zero at both band edges, so it is
   * continuous in `d`: two distances never differ in magnitude by more
   * than `k` times their difference.
   */
  lemma {:induction false} DistMagnitudeIsContinuous(d1: real, d2: real, r: real, k: real)
    requires 0.0 < r && 0.0 < k && d1 <= d2
    ensures RadialMagnitude(DistBands, d2, r, k) - RadialMagnitude(DistBands, d1, r, k) <= (d2 - d1) * k
    ensures 0.0 <= RadialMagnitude(DistBands, d2, r, k) - RadialMagnitude(DistBands, d1, r, k)
  {
    var e1 := Max(0.0, d1 - r) - 0.5 * Max(0.0, 0.8 * r - d1);
    var e2 := Max(0.0, d2 - r) - 0.5 * Max(0.0, 0.8 * r - d2);
    DistMagnitudeIsExcess(d1, r, k);
    DistMagnitudeIsExcess(d2, r, k);
    assert 0.0 <= e2 - e1 <= d2 - d1;
    MonotoneProduct(e2 - e1, d2 - d1, k);
    DifferenceOfProducts(e2, e1, k);
  }

  /** In the scroll-driven build the magnitude is `k` times the excess beyond `R` less half the shortfall below `0.8 R`. */
  lemma DistMagnitudeIsExcess(d: real, r: real, k: real)
    requires 0.0 < r
    ensures RadialMagnitude(DistBands, d, r, k) == (Max(0.0, d - r) - 0.5 * Max(0.0, 0.8 * r - d)) * k
  {
    if d < r * 0.8 {
      assert -(r * 0.8 - d) * k * 0.5 == (0.0 - 0.5 * (0.8 * r - d)) * k;
    }
  }

  lemma DifferenceOfProducts(a: real, b: real, k: real)
    ensures a * k - b * k == (a - b) * k
  {}

  lemma MonotoneProduct(a: real, b: real, k: real)
    requires 0.0 <= a <= b && 0.0 < k
    ensures 0.0 <= a * k <= b * k
  {}

  /**
   * The source build's force jumps at its outer band edge: just beyond
   * `1.2 R` it is already `0.2 R k`, while inside the band it is zero.
   */
  lemma SrcMagnitudeJumpsAtOuterEdge(d: real, r: real, k: real)
    requires 0.0 < r && 0.0 < k && d > 1.2 * r
    ensures RadialMagnitude(SrcBands, d, r, k) > 0.2 * r * k
  {
    assert d - r > 0.2 * r;
    assert (d - r) * k > (0.2 * r) * k;
  }

  /** The `xy` part of a vector, the plane in which the confinement force acts. */
  function Planar(v: Vec3): Vec3 { Vec3(v.x, v.y, 0.0) }

  /**
   * The force `move` adds for a particle whose offset to the path point is
   * `toCenter`: along the unit direction in the `xy` plane, the radial
   * magnitude, plus `spiral` times the perpendicular direction when
   * `spiral` is positive; nothing at all when the particle sits on the axis.
   */
  function ConfinementForce(sqrt: real -> real, b: Bands, toCenter: Vec3, r: real, k: real, spiral: real): Vec3
    requires IsSqrt(sqrt)
  {
    var d := Length(sqrt, Planar(toCenter));
    if d > 0.0 then
      var dir := Scale(Planar(toCenter), 1.0 / d);
      var radial := Scale(dir, RadialMagnitude(b, d, r, k));
      if spiral > 0.0 then Add(radial, Scale(Perpendicular(dir), spiral)) else radial
    else Zero
  }

  /** `(-y, x)`: the direction a quarter turn counter-clockwise in the `xy` plane. */
  function Perpendicular(v: Vec3): (p: Vec3)
    ensures Dot(p, v) == 0.0 && NormSq(p) == NormSq(Planar(v))
  {
    Vec3(-v.y, v.x, 0.0)
  }

  /**
   * The force decomposes as promised: its component toward the path is
   * the radial magnitude, its component a quarter turn around is the
   * spiral factor (or zero when that is not positive), and it has no
   * depth component.
   */
  lemma ForceDecomposes(sqrt: real -> real, b: Bands, toCenter: Vec3, r: real, k: real, spiral: real)
    requires IsSqrt(sqrt) && Planar(toCenter) != Zero
    ensures ConfinementForce(sqrt, b, toCenter, r, k, spiral).z == 0.0
    ensures var d := Length(sqrt, Planar(toCenter));
            var dir := Scale(Planar(toCenter), 1.0 / d);
            var f := ConfinementForce(sqrt, b, toCenter, r, k, spiral);
            Dot(f, dir) == RadialMagnitude(b, d, r, k) &&
            Dot(f, Perpendicular(dir)) == (if spiral > 0.0 then spiral else 0.0)
  {
    var d := Length(sqrt, Planar(toCenter));
    var dir := Scale(Planar(toCenter), 1.0 / d);
    LengthSquared(sqrt, Planar(toCenter));
    UnitAfterScaling(Planar(toCenter), d);
    assert dir.z == 0.0;
    var m := RadialMagnitude(b, d, r, k);
    var perp := Perpendicular(dir);
    assert NormSq(perp) == 1.0;
    ComponentsOfCombination(dir, perp, m, if spiral > 0.0 then spiral else 0.0);
  }

  /** For orthogonal unit vectors `u` and `w`, `m u + s w` has components `m` and `s` along them. */
  lemma ComponentsOfCombination(u: Vec3, w: Vec3, m: real, s: real)
    requires NormSq(u) == 1.0 && NormSq(w) == 1.0 && Dot(u, w) == 0.0
    ensures Dot(Add(Scale(u, m), Scale(w, s)), u) == m
    ensures Dot(Add(Scale(u, m), Scale(w, s)), w) == s
    ensures Dot(Scale(u, m), u) == m
  {
    DotOfCombination(u, w, m, s, u);
    DotOfCombination(u, w, m, s, w);
    DotOfCombination(u, w, m, 0.0, u);
    DotSymmetric(u, w);
    assert Add(Scale(u, m), Scale(w, 0.0)) == Scale(u, m);
  }

  /** A particle on the path's axis feels neither radial nor spiral force. */
  lemma NoForceOnAxis(sqrt: real -> real, b: Bands, toCenter: Vec3, r: real, k: real, spiral: real)
    requires IsSqrt(sqrt) && toCenter.x == 0.0 && toCenter.y == 0.0
    ensures ConfinementForce(sqrt, b, toCenter, r, k, spiral) == Zero
  {
    assert Planar(toCenter) == Zero;
  }

  /**
   * The path parameter read from a particle's depth `z` in a tunnel of
   * length `len` centred on the origin, clamped to `[lo, hi]`: the
   * scroll-driven build keeps it off the ends, `[0.001, 0.999]`, the
   * others use `[0, 1]`.
   */
  function DepthProgress(z: real, len: real, lo: real, hi: real): (u: real)
    requires len != 0.0 && lo <= hi
    ensures lo <= u <= hi
    ensures lo <= (z + len / 2.0) / len <= hi ==> u == (z + len / 2.0) / len
  {
    Clamp((z + len / 2.0) / len, lo, hi)
  }

  /** Within the tunnel, a deeper particle never gets a smaller path parameter. */
  lemma DepthProgressIsMonotone(z1: real, z2: real, len: real, lo: real, hi: real)
    requires 0.0 < len && lo <= hi && z1 <= z2
    ensures DepthProgress(z1, len, lo, hi) <= DepthProgress(z2, len, lo, hi)
  {
    assert (z1 + len / 2.0) / len <= (z2 + len / 2.0) / len by {
      DivideMonotone(z1 + len / 2.0, z2 + len / 2.0, len);
    }
  }

  lemma DivideMonotone(a: real, b: real, c: real)
    requires a <= b && 0.0 < c
    ensures a / c <= b / c
  {
    assert b / c - a / c == (b - a) / c;
  }

  /**
   * The respawn test: too far from the path point, beyond the tunnel's
   * ends by more than `margin` tunnel radii, or past its lifetime.  The
   * scroll-driven build allows a margin of two radii, the others one.
   */
  predicate ShouldRespawn(distFromPath: real, z: real, r: real, len: real, margin: real, time: real, lifetime: real)
  {
    distFromPath > r * 2.0 || z < -len / 2.0 - r * margin || z > len / 2.0 + r * margin || time > lifetime
  }

  /**
   * The frame three.js builds around the path tangent `t` at a respawn
   * point: `right = normalize(t x up)` and `upDir = normalize(right x t)`,
   * with `up` the x axis when the tangent is nearly vertical and the y
   * axis otherwise.
   */
  function Frame(sqrt: real -> real, tangent: Vec3): (f: (Vec3, Vec3))
    requires IsSqrt(sqrt)
  {
    var t := Normalize(sqrt, tangent);
    var up := if t.y > 0.9 || t.y < -0.9 then Vec3(1.0, 0.0, 0.0) else Vec3(0.0, 1.0, 0.0);
    var right := Normalize(sqrt, Cross(t, up));
    (right, Normalize(sqrt, Cross(right, t)))
  }

  /** The offset from the path point: `right * radius * cos(theta) + upDir * radius * sin(theta)`. */
  function RingOffset(m: MathLib, tangent: Vec3, radius: real, theta: real): Vec3
    requires IsSqrt(m.sqrt)
  {
    var frame := Frame(m.sqrt, tangent);
    CirclePoint(frame.0, frame.1, radius, m.cos(theta), m.sin(theta))
  }

  /** `u * r * c + w * r * s`: the point at cosine `c` and sine `s` on the circle of radius `r` spanned by `u` and `w`. */
  function CirclePoint(u: Vec3, w: Vec3, r: real, c: real, s: real): Vec3
  {
    Add(Scale(u, r * c), Scale(w, r * s))
  }

  /** `|a x b|^2 + (a . b)^2 == |a|^2 |b|^2`. */
  lemma LagrangeIdentity(a: Vec3, b: Vec3)
    ensures NormSq(Cross(a, b)) + Sq(Dot(a, b)) == NormSq(a) * NormSq(b)
  {}

  lemma SmallSquare(a: real)
    requires -0.9 <= a <= 0.9
    ensures Sq(a) <= 0.81
  {
    if a >= 0.0 {
      assert a * a <= 0.9 * a;
    } else {
      assert a * a <= -0.9 * a;
    }
  }

  /**
   * The vector `up` is never parallel to a unit tangent: the y axis is
   * used only when `|t.y| <= 0.9`, and the x axis only when `t.y != 0`.
   */
  lemma CrossWithUpIsNonzero(t: Vec3)
    requires NormSq(t) == 1.0
    ensures var up := if t.y > 0.9 || t.y < -0.9 then Vec3(1.0, 0.0, 0.0) else Vec3(0.0, 1.0, 0.0);
            Cross(t, up) != Zero
  {
    if t.y > 0.9 || t.y < -0.9 {
      assert Cross(t, Vec3(1.0, 0.0, 0.0)).z == -t.y;
    } else if t.x == 0.0 && t.z == 0.0 {
      SmallSquare(t.y);
      assert false;
    } else {
      assert Cross(t, Vec3(0.0, 1.0, 0.0)) == Vec3(-t.z, 0.0, t.x);
    }
  }

  /** For a nonzero tangent the frame is two orthonormal vectors, both perpendicular to the tangent. */
  lemma FrameIsOrthonormal(sqrt: real -> real, tangent: Vec3)
    requires IsSqrt(sqrt) && tangent != Zero
    ensures var (right, upDir) := Frame(sqrt, tangent);
            var t := Normalize(sqrt, tangent);
            NormSq(right) == 1.0 && NormSq(upDir) == 1.0 &&
            Dot(right, upDir) == 0.0 && Dot(right, t) == 0.0 && Dot(upDir, t) == 0.0
  {
    var t := Normalize(sqrt, tangent);
    var up := if t.y > 0.9 || t.y < -0.9 then Vec3(1.0, 0.0, 0.0) else Vec3(0.0, 1.0, 0.0);
    var c := Cross(t, up);
    NormalizeIsUnit(sqrt, tangent);
    CrossWithUpIsNonzero(t);
    CrossIsOrthogonal(t, up);
    DotSymmetric(c, t);
    var right := Normalize(sqrt, c);
    NormalizeIsUnit(sqrt, c);
    NormalizeKeepsOrthogonal(sqrt, c, t);
    UnitCrossOfOrthonormal(sqrt, right, t);
  }

  /** `normalize(a x b)` for orthogonal unit vectors is a unit vector orthogonal to both. */
  lemma UnitCrossOfOrthonormal(sqrt: real -> real, a: Vec3, b: Vec3)
    requires IsSqrt(sqrt) && NormSq(a) == 1.0 && NormSq(b) == 1.0 && Dot(a, b) == 0.0
    ensures var w := Normalize(sqrt, Cross(a, b));
            NormSq(w) == 1.0 && Dot(a, w) == 0.0 && Dot(w, b) == 0.0
  {
    var w := Cross(a, b);
    CrossIsOrthogonal(a, b);
    LagrangeIdentity(a, b);
    assert NormSq(w) == 1.0;
    NormalizeIsUnit(sqrt, w);
    NormalizeKeepsOrthogonal(sqrt, w, a);
    NormalizeKeepsOrthogonal(sqrt, w, b);
    DotSymmetric(Normalize(sqrt, w), a);
  }

  lemma DotSymmetric(a: Vec3, b: Vec3)
    ensures Dot(a, b) == Dot(b, a)
  {}

  /**
   * A respawned particle lands on the circle of the chosen radius around
   * the path point, in the plane perpendicular to the path tangent.
   */
  lemma RingOffsetOnCircle(m: MathLib, tangent: Vec3, radius: real, theta: real)
    requires ValidMath(m) && tangent != Zero
    ensures NormSq(RingOffset(m, tangent, radius, theta)) == Sq(radius)
    ensures Dot(RingOffset(m, tangent, radius, theta), Normalize(m.sqrt, tangent)) == 0.0
  {
    var frame := Frame(m.sqrt, tangent);
    FrameIsOrthonormal(m.sqrt, tangent);
    assert Sq(m.sin(theta)) + Sq(m.cos(theta)) == 1.0;
    CircleInFrame(frame.0, frame.1, Normalize(m.sqrt, tangent), radius, m.cos(theta), m.sin(theta));
  }

  /** A point of the circle of radius `r` spanned by two orthonormal vectors is square to a third vector orthogonal to both. */
  lemma CircleInFrame(u: Vec3, w: Vec3, t: Vec3, r: real, c: real, s: real)
    requires NormSq(u) == 1.0 && NormSq(w) == 1.0 && Dot(u, w) == 0.0 && Dot(u, t) == 0.0 && Dot(w, t) == 0.0
    requires Sq(s) + Sq(c) == 1.0
    ensures NormSq(CirclePoint(u, w, r, c, s)) == Sq(r)
    ensures Dot(CirclePoint(u, w, r, c, s), t) == 0.0
  {
    NormOfOrthogonalCombination(u, w, r * c, r * s);
    PolarSquares(r, c, s);
    DotOfCombination(u, w, r * c, r * s, t);
  }

  /** `(r cos)^2 + (r sin)^2 == r^2` when `cos^2 + sin^2 == 1`. */
  lemma PolarSquares(r: real, c: real, s: real)
    requires Sq(s) + Sq(c) == 1.0
    ensures Sq(r * c) + Sq(r * s) == Sq(r)
  {
    SqOfProduct(r, c);
    SqOfProduct(r, s);
    assert Sq(r) * Sq(c) + Sq(r) * Sq(s) == Sq(r) * (Sq(c) + Sq(s));
  }

  lemma DotOfCombination(u: Vec3, w: Vec3, c: real, s: real, t: Vec3)
    ensures Dot(Add(Scale(u, c), Scale(w, s)), t) == c * Dot(u, t) + s * Dot(w, t)
  {}

  lemma NormOfOrthogonalCombination(u: Vec3, w: Vec3, c: real, s: real)
    requires NormSq(u) == 1.0 && NormSq(w) == 1.0 && Dot(u, w) == 0.0
    ensures NormSq(Add(Scale(u, c), Scale(w, s))) == Sq(c) + Sq(s)
  {
    assert NormSq(Add(Scale(u, c), Scale(w, s))) == Sq(c) * NormSq(u) + Sq(s) * NormSq(w) + 2.0 * c * s * Dot(u, w);
  }

  /** `tunnelRadius * (0.7 + random * 0.3)`: a respawn radius in `[0.7 R, R)`. */
  function RespawnRadius(r: real, draw: real): (radius: real)
    requires 0.0 < r && 0.0 <= draw < 1.0
    ensures 0.7 * r <= radius < r
  {
    assert r * (draw * 0.3) < r * 0.3 by { PositiveProduct(r, 0.3 - draw * 0.3); }
    r * (0.7 + draw * 0.3)
  }

  /** The point at angle `theta` on the ring of the given radius around the path point at `u`. */
  function RingPoint(m: MathLib, path: Curve, u: real, radius: real, theta: real): Vec3
    requires IsSqrt(m.sqrt)
  {
    Add(path.pointAt(u), RingOffset(m, path.tangentAt(u), radius, theta))
  }

  /** A ring point is at distance exactly `radius` from its path point, square to the path. */
  lemma RingPointOnCircle(m: MathLib, path: Curve, u: real, radius: real, theta: real)
    requires ValidMath(m) && path.tangentAt(u) != Zero
    ensures var offset := Sub(RingPoint(m, path, u, radius, theta), path.pointAt(u));
            NormSq(offset) == Sq(radius) && Dot(offset, Normalize(m.sqrt, path.tangentAt(u))) == 0.0
  {
    var offset := RingOffset(m, path.tangentAt(u), radius, theta);
    RingOffsetOnCircle(m, path.tangentAt(u), radius, theta);
    assert Sub(Add(path.pointAt(u), offset), path.pointAt(u)) == offset;
  }
}
