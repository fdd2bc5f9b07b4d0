/**
 * `computeCurl` of the three curl-noise variants.  Each samples a scalar
 * noise field by central differences (step `eps = 1e-4`) and combines the
 * differences into a flow direction:
 *
 *  - the scroll-driven build and the source build take the normalized
 *    gradients at the sample and at the sample shifted by 10.5 on every
 *    axis, cross them and normalize the cross product (or, in the
 *    `oldMethod` mode, take the curl of the three-channel `noise3D`
 *    potential);
 *  - the scroll-driven build guards its `normalize` against zero length,
 *    the source build does not, so a zero vector there becomes NaN;
 *  - the Webflow embed returns the raw differences, and in `oldMethod`
 *    mode a three.js vector object with no numeric indices.
 *
 * The noise field is a parameter: `simplex3` over a seeded table for the
 * scroll-driven build, the Webflow `noise3D` for the embed, and the
 * imported `SimplexNoise` module for the source build.
 */
module Curl {
  import opened Common

  /** A scalar noise field `(x, y, z) -> n`. */
  type Field = (real, real, real) -> real

  const Eps: real := 0.0001

  /** The offset between the two gradient samples of the cross-product method. */
  const Shift: real := 10.5

  /**
   * What `move` finds when it reads `curl[0]`, `curl[1]`, `curl[2]`: three
   * numbers, three NaNs, or (for a three.js vector object) three
   * `undefined`s, which `isNaN` also reports.
   */
  datatype CurlValue = Components(v: Vec3) | NaNComponents | VectorObject

  /** `(n(+eps) - n(-eps)) / (2 eps)` along each axis, in the order x, y, z. */
  function Gradient(noise: Field, x: real, y: real, z: real): Vec3
  {
    Vec3((noise(x + Eps, y, z) - noise(x - Eps, y, z)) / (2.0 * Eps),
         (noise(x, y + Eps, z) - noise(x, y - Eps, z)) / (2.0 * Eps),
         (noise(x, y, z + Eps) - noise(x, y, z - Eps)) / (2.0 * Eps))
  }

  /** `noise3D(x, y, z)`: three decorrelated reads of the same field. */
  function Potential(noise: Field, x: real, y: real, z: real): Vec3
  {
    Vec3(noise(x, y, z), noise(x, y, z + 1000.0), noise(x + 1000.0, y, z))
  }

  /** The `oldMethod` branch: the curl of the potential, by central differences. */
  function PotentialCurl(noise: Field, x: real, y: real, z: real): Vec3
  {
    var dx := Sub(Potential(noise, x + Eps, y, z), Potential(noise, x - Eps, y, z));
    var dy := Sub(Potential(noise, x, y + Eps, z), Potential(noise, x, y - Eps, z));
    var dz := Sub(Potential(noise, x, y, z + Eps), Potential(noise, x, y, z - Eps));
    Vec3((dy.z - dz.y) / (2.0 * Eps), (dz.x - dx.z) / (2.0 * Eps), (dx.y - dy.x) / (2.0 * Eps))
  }

  /**
   * The vector the scroll-driven build hands to its final `normalize`:
   * the cross product of the two normalized gradients, or the potential's
   * curl.
   */
  function GuardedRaw(noise: Field, sqrt: real -> real, oldMethod: bool, x: real, y: real, z: real): Vec3
    requires IsSqrt(sqrt)
  {
    if oldMethod then PotentialCurl(noise, x, y, z)
    else
      Cross(Normalize(sqrt, Gradient(noise, x, y, z)),
            Normalize(sqrt, Gradient(noise, x + Shift, y + Shift, z + Shift)))
  }

  /**
   * `computeCurl` of the scroll-driven build.  Every `normalize` is
   * guarded, so the result is never NaN: it is of unit length, or zero
   * when a gradient vanishes or the two gradients are parallel.
   */
  function CurlGuarded(noise: Field, sqrt: real -> real, oldMethod: bool, x: real, y: real, z: real): (c: CurlValue)
    requires IsSqrt(sqrt)
    ensures c.Components?
    ensures c.v == Zero <==> GuardedRaw(noise, sqrt, oldMethod, x, y, z) == Zero
  {
    Components(Normalize(sqrt, GuardedRaw(noise, sqrt, oldMethod, x, y, z)))
  }

  /** The guarded curl is of unit length unless it is zero. */
  lemma GuardedIsUnitOrZero(noise: Field, sqrt: real -> real, oldMethod: bool, x: real, y: real, z: real)
    requires IsSqrt(sqrt)
    ensures var c := CurlGuarded(noise, sqrt, oldMethod, x, y, z).v;
            c == Zero || NormSq(c) == 1.0
  {
    var raw := GuardedRaw(noise, sqrt, oldMethod, x, y, z);
    if raw != Zero {
      NormalizeIsUnit(sqrt, raw);
    }
  }

  /** `cross` applied to two results of the unguarded `normalize`: NaN in, NaN out. */
  function CrossMaybe(a: MaybeVec, b: MaybeVec): (r: MaybeVec)
    ensures r.NaNVector? <==> a.NaNVector? || b.NaNVector?
  {
    if a.NaNVector? || b.NaNVector? then NaNVector else Vector(Cross(a.v, b.v))
  }

  /** The unguarded `normalize` of a vector that may already be NaN. */
  function NormalizeMaybe(sqrt: real -> real, a: MaybeVec): (r: MaybeVec)
    requires IsSqrt(sqrt)
    ensures r.NaNVector? <==> a.NaNVector? || a.v == Zero
  {
    if a.NaNVector? then NaNVector else NormalizeUnguarded(sqrt, a.v)
  }

  /** The vector the source build hands to its final `normalize`, NaN once a gradient was zero. */
  function UnguardedRaw(noise: Field, sqrt: real -> real, oldMethod: bool, x: real, y: real, z: real): MaybeVec
    requires IsSqrt(sqrt)
  {
    if oldMethod then Vector(PotentialCurl(noise, x, y, z))
    else
      CrossMaybe(NormalizeUnguarded(sqrt, Gradient(noise, x, y, z)),
                 NormalizeUnguarded(sqrt, Gradient(noise, x + Shift, y + Shift, z + Shift)))
  }

  /** `computeCurl` of the source build: the same arithmetic, with the unguarded `normalize`. */
  function CurlUnguarded(noise: Field, sqrt: real -> real, oldMethod: bool, x: real, y: real, z: real): (c: CurlValue)
    requires IsSqrt(sqrt)
    ensures c.Components? || c.NaNComponents?
  {
    var r := NormalizeMaybe(sqrt, UnguardedRaw(noise, sqrt, oldMethod, x, y, z));
    if r.NaNVector? then NaNComponents else Components(r.v)
  }

  /** Whenever the unguarded curl is a number, it is of unit length. */
  lemma UnguardedIsUnit(noise: Field, sqrt: real -> real, oldMethod: bool, x: real, y: real, z: real)
    requires IsSqrt(sqrt)
    ensures var c := CurlUnguarded(noise, sqrt, oldMethod, x, y, z);
            c.Components? ==> NormSq(c.v) == 1.0
  {
    var raw := UnguardedRaw(noise, sqrt, oldMethod, x, y, z);
    if raw.Vector? && raw.v != Zero {
      NormalizeIsUnit(sqrt, raw.v);
    }
  }

  /**
   * The two builds agree wherever the source build's curl is a number; it
   * is NaN exactly where the scroll-driven build's curl is the zero vector.
   */
  lemma UnguardedIsNaNExactlyWhereGuardedIsZero(noise: Field, sqrt: real -> real, oldMethod: bool, x: real, y: real, z: real)
    requires IsSqrt(sqrt)
    ensures CurlUnguarded(noise, sqrt, oldMethod, x, y, z) ==
      (if CurlGuarded(noise, sqrt, oldMethod, x, y, z) == Components(Zero) then NaNComponents
       else CurlGuarded(noise, sqrt, oldMethod, x, y, z))
  {
    if !oldMethod {
      var g0 := Gradient(noise, x, y, z);
      var g1 := Gradient(noise, x + Shift, y + Shift, z + Shift);
      if g0 == Zero {
        CrossWithZeroLeft(Normalize(sqrt, g1));
      } else if g1 == Zero {
        CrossWithZeroRight(Normalize(sqrt, g0));
      }
    }
  }

  lemma CrossWithZeroLeft(a: Vec3)
    ensures Cross(Zero, a) == Zero
  {}

  lemma CrossWithZeroRight(a: Vec3)
    ensures Cross(a, Zero) == Zero
  {}

  /**
   * `computeCurl` of the Webflow embed.  The standard mode returns the
   * difference quotients unnormalized; the `oldMethod` mode returns a
   * normalized three.js vector object, which `move` cannot index.
   */
  function CurlWebflow(noise: Field, oldMethod: bool, x: real, y: real, z: real): (c: CurlValue)
    ensures oldMethod <==> c.VectorObject?
    ensures !oldMethod ==> c.Components?
  {
    if oldMethod then VectorObject
    else
      var a := (noise(x, y + Eps, z) - noise(x, y - Eps, z)) / (2.0 * Eps);
      var b := (noise(x + Eps, y, z) - noise(x - Eps, y, z)) / (2.0 * Eps);
      var c := (noise(x, y, z + Eps) - noise(x, y, z - Eps)) / (2.0 * Eps);
      Components(Vec3(a, b, c))
  }

  /**
   * The embed's standard "curl" is the noise gradient with its x and y
   * components exchanged: not a curl, and not normalized.
   */
  lemma WebflowCurlIsSwappedGradient(noise: Field, x: real, y: real, z: real)
    ensures CurlWebflow(noise, false, x, y, z).v ==
      Vec3(Gradient(noise, x, y, z).y, Gradient(noise, x, y, z).x, Gradient(noise, x, y, z).z)
  {}

  /**
   * The stomach tunnel's `computeCurl`: the plain gradient, as a three.js
   * vector.  It is the embed's standard curl with the first two components
   * exchanged back, so neither of the two is a curl.
   */
  function CurlStomach(noise: Field, x: real, y: real, z: real): (c: Vec3)
    ensures c == Gradient(noise, x, y, z)
    ensures var w := CurlWebflow(noise, false, x, y, z).v; c == Vec3(w.y, w.x, w.z)
  {
    WebflowCurlIsSwappedGradient(noise, x, y, z);
    var a := (noise(x + Eps, y, z) - noise(x - Eps, y, z)) / (2.0 * Eps);
    var b := (noise(x, y + Eps, z) - noise(x, y - Eps, z)) / (2.0 * Eps);
    var c := (noise(x, y, z + Eps) - noise(x, y, z - Eps)) / (2.0 * Eps);
    Vec3(a, b, c)
  }

  /**
   * The guard in `move`: when any component reads as NaN (or `undefined`)
   * the curl is replaced by `fallback`; otherwise it is used as it is.
   */
  function UsableCurl(c: CurlValue, fallback: Vec3): (v: Vec3)
    ensures c.Components? ==> v == c.v
    ensures !c.Components? ==> v == fallback
  {
    match c
    case Components(v) => v
    case _ => fallback
  }

  /** In `oldMethod` mode the embed's particles always move along the fallback `(1, 0, 0)`. */
  lemma WebflowOldMethodAlwaysFallsBack(noise: Field, x: real, y: real, z: real)
    ensures UsableCurl(CurlWebflow(noise, true, x, y, z), Vec3(1.0, 0.0, 0.0)) == Vec3(1.0, 0.0, 0.0)
  {}

  /**
   * The scroll-driven build's fallback `(0, 0, 1)` can never fire: its curl
   * is always a number, of unit length or zero.
   */
  lemma GuardedNeverFallsBack(noise: Field, sqrt: real -> real, oldMethod: bool, x: real, y: real, z: real, fallback: Vec3)
    requires IsSqrt(sqrt)
    ensures UsableCurl(CurlGuarded(noise, sqrt, oldMethod, x, y, z), fallback) == CurlGuarded(noise, sqrt, oldMethod, x, y, z).v
  {}

  /** The source build's curl after the guard is of unit length, or exactly the fallback `(1, 0, 0)`. */
  lemma UnguardedAfterFallbackIsUnit(noise: Field, sqrt: real -> real, oldMethod: bool, x: real, y: real, z: real)
    requires IsSqrt(sqrt)
    ensures NormSq(UsableCurl(CurlUnguarded(noise, sqrt, oldMethod, x, y, z), Vec3(1.0, 0.0, 0.0))) == 1.0
  {
    UnguardedIsUnit(noise, sqrt, oldMethod, x, y, z);
  }
}
