/**
 * The per-frame fade of `updateParticleVisibility`.
 *
 * The scroll-driven build computes a target alpha from the distance to the
 * camera (full up to `fogDistance`, fading linearly to zero over the next
 * 1500 units, zero within 10 units or well behind the camera), eases each
 * alpha a tenth of the way towards it and clamps it to `[0, 1]`; it then
 * tints the particle with the first ulcer that covers it.
 *
 * The source build fades with `exp(-(d - fogDistance) * fogDensity)` past
 * `fogDistance` and eases towards that without a clamp; particles behind
 * the camera only decay by a factor of 0.9.
 */
module Visibility {
  import opened Common
  import Ulcers

  /** How far beyond `fogDistance` the scroll-driven fade takes to reach zero. */
  const FogFadeLength: real := 1500.0

  /** Whether the scroll-driven build treats a particle as visible at all: not far behind, not too close. */
  predicate InView(distance: real, dot: real)
  {
    dot > -100.0 && distance > 10.0
  }

  /** The scroll-driven target alpha for a particle at `distance`, with `dot` its offset along the view direction. */
  function TargetAlpha(distance: real, dot: real, fogStart: real): (a: real)
    ensures 0.0 <= a <= 1.0
    ensures !InView(distance, dot) ==> a == 0.0
    ensures InView(distance, dot) && distance < fogStart ==> a == 1.0
    ensures InView(distance, dot) && fogStart + FogFadeLength < distance ==> a == 0.0
  {
    if InView(distance, dot) then
      if distance < fogStart then 1.0
      else if distance > fogStart + FogFadeLength then 0.0
      else 1.0 - (distance - fogStart) / FogFadeLength
    else 0.0
  }

  /** Farther particles in view never get a larger target. */
  lemma TargetAlphaFadesWithDistance(d1: real, d2: real, dot: real, fogStart: real)
    requires InView(d1, dot) && d1 <= d2
    ensures TargetAlpha(d2, dot, fogStart) <= TargetAlpha(d1, dot, fogStart)
  {}

  /**
   * The target has no jumps: two particles in view differ in target by at
   * most their difference in distance over the fade length.
   */
  lemma TargetAlphaIsContinuous(d1: real, d2: real, dot: real, fogStart: real)
    requires InView(d1, dot) && d1 <= d2
    ensures TargetAlpha(d1, dot, fogStart) - TargetAlpha(d2, dot, fogStart) <= (d2 - d1) / FogFadeLength
  {
    var a1 := TargetAlpha(d1, dot, fogStart);
    var a2 := TargetAlpha(d2, dot, fogStart);
    var gap := (d2 - d1) / FogFadeLength;
    if d2 < fogStart {
      assert a1 == 1.0 && a2 == 1.0;
    } else if d2 <= fogStart + FogFadeLength {
      assert a2 == 1.0 - (d2 - fogStart) / FogFadeLength;
      if d1 < fogStart {
        assert a1 - a2 == (d2 - fogStart) / FogFadeLength;
      } else {
        assert a1 - a2 == gap;
      }
    } else {
      assert a2 == 0.0;
      if d1 < fogStart {
        assert a1 == 1.0 && 1.0 < gap;
      } else if d1 <= fogStart + FogFadeLength {
        assert a1 == (fogStart + FogFadeLength - d1) / FogFadeLength;
      }
    }
  }

  /**
   * `alpha * 0.9 + target * 0.1`, clamped to `[0, 1]` (the source's
   * `alpha || 0` reads a number here, so it is the alpha itself).
   */
  function SmoothAlpha(alpha: real, target: real): (r: real)
    ensures 0.0 <= r <= 1.0
  {
    Clamp(alpha * 0.9 + target * 0.1, 0.0, 1.0)
  }

  /**
   * From inside `[0, 1]` the clamp never bites, and each frame closes a
   * tenth of the gap to the target.
   */
  lemma SmoothAlphaApproachesTarget(alpha: real, target: real)
    requires 0.0 <= alpha <= 1.0 && 0.0 <= target <= 1.0
    ensures SmoothAlpha(alpha, target) == alpha * 0.9 + target * 0.1
    ensures SmoothAlpha(alpha, target) - target == (alpha - target) * 0.9
  {}

  /** The source build's opacity: full up to `fogDistance`, exponential falloff beyond. */
  function SourceOpacity(exp: real -> real, distance: real, fogDistance: real, fogDensity: real): real
  {
    if distance < fogDistance then 1.0
    else Max(0.0, exp(-(distance - fogDistance) * fogDensity))
  }

  /** With a valid `exp` and a non-negative density, the opacity lies in `[0, 1]`, full exactly up to the fog. */
  lemma SourceOpacityInUnit(m: MathLib, distance: real, fogDistance: real, fogDensity: real)
    requires ValidMath(m) && 0.0 <= fogDensity
    ensures 0.0 <= SourceOpacity(m.exp, distance, fogDistance, fogDensity) <= 1.0
    ensures distance < fogDistance ==> SourceOpacity(m.exp, distance, fogDistance, fogDensity) == 1.0
  {
    if fogDistance <= distance {
      var x := -(distance - fogDistance) * fogDensity;
      assert x <= 0.0 by { assert (distance - fogDistance) * fogDensity >= 0.0 * fogDensity; }
      assert 0.0 < m.exp(x) <= 1.0;
    }
  }

  /** The source build's new alpha: eased towards the opacity in front of the camera, decayed behind it. */
  function SourceAlpha(alpha: real, inFront: bool, opacity: real): real
  {
    if inFront then alpha * 0.9 + opacity * 0.1 else alpha * 0.9
  }

  /**
   * Without a clamp the source build still keeps alphas in `[0, 1]` as
   * long as the opacity is; behind the camera an alpha only shrinks.
   */
  lemma SourceAlphaStaysInUnit(alpha: real, inFront: bool, opacity: real)
    requires 0.0 <= alpha <= 1.0 && 0.0 <= opacity <= 1.0
    ensures 0.0 <= SourceAlpha(alpha, inFront, opacity) <= 1.0
    ensures !inFront ==> SourceAlpha(alpha, inFront, opacity) <= alpha
  {}

  /**
   * The colour multiplier of an ulcer at `distance < size`: `1` in the outer
   * half, rising linearly to `intensity` at the centre.
   */
  function TintFactor(distance: real, size: real, intensity: real): real
    requires 0.0 < size
  {
    var f := 1.0 - distance / size;
    if f > 0.5 then 1.0 + (intensity - 1.0) * (f - 0.5) * 2.0 else 1.0
  }

  /** The multiplier runs from 1 at half the size to `intensity` at the centre, never beyond either. */
  lemma TintFactorRange(distance: real, size: real, intensity: real)
    requires 0.0 <= distance < size && 1.0 <= intensity
    ensures 1.0 <= TintFactor(distance, size, intensity) <= intensity
    ensures distance == 0.0 ==> TintFactor(distance, size, intensity) == intensity
    ensures size <= 2.0 * distance ==> TintFactor(distance, size, intensity) == 1.0
  {
    var f := 1.0 - distance / size;
    assert 0.0 <= distance / size < 1.0 by { Ratio(distance, size); }
    if f > 0.5 {
      var g := (f - 0.5) * 2.0;
      assert 0.0 < g <= 1.0;
      assert (intensity - 1.0) * g <= (intensity - 1.0) * 1.0;
      assert 0.0 <= (intensity - 1.0) * g;
    } else if distance == 0.0 {
      assert false;
    }
    if size <= 2.0 * distance {
      assert distance / size >= 0.5 by {
        assert (distance / size) * size == distance;
      }
    }
  }

  lemma Ratio(a: real, b: real)
    requires 0.0 <= a < b
    ensures 0.0 <= a / b < 1.0
  {
    assert (a / b) * b == a;
  }

  /** The colour `updateParticleVisibility` gives a particle before applying its alpha. */
  function TintedColor(sqrt: real -> real, pos: Vec3, base: Vec3, enableUlcers: bool, ulcers: seq<Ulcers.Ulcer>, intensity: real): (c: Vec3)
    requires IsSqrt(sqrt)
    ensures !enableUlcers || Ulcers.FirstCovering(sqrt, pos, ulcers, 0).None? ==> c == base
  {
    if enableUlcers && |ulcers| > 0 then
      match Ulcers.FirstCovering(sqrt, pos, ulcers, 0)
      case None => base
      case Some(k) => UlcerTint(sqrt, pos, ulcers[k], intensity)
    else base
  }

  /** The colour of a particle covered by ulcer `u`: the ulcer's colour, brightened towards its centre. */
  function UlcerTint(sqrt: real -> real, pos: Vec3, u: Ulcers.Ulcer, intensity: real): Vec3
    requires IsSqrt(sqrt) && Ulcers.Covers(sqrt, pos, u)
  {
    var distance := Length(sqrt, Sub(pos, u.position));
    if 1.0 - distance / u.size > 0.5 then Scale(u.color, TintFactor(distance, u.size, intensity)) else u.color
  }

  /**
   * A particle covered by an ulcer takes the first covering ulcer's colour,
   * scaled by a factor between 1 and `intensity`.
   */
  lemma CoveredParticleTakesUlcerColor(sqrt: real -> real, pos: Vec3, base: Vec3, ulcers: seq<Ulcers.Ulcer>, intensity: real)
    requires IsSqrt(sqrt) && 1.0 <= intensity
    requires Ulcers.FirstCovering(sqrt, pos, ulcers, 0).Some?
    ensures var k := Ulcers.FirstCovering(sqrt, pos, ulcers, 0).value;
            exists factor :: 1.0 <= factor <= intensity &&
              TintedColor(sqrt, pos, base, true, ulcers, intensity) == Scale(ulcers[k].color, factor)
  {
    var k := Ulcers.FirstCovering(sqrt, pos, ulcers, 0).value;
    var u := ulcers[k];
    var distance := Length(sqrt, Sub(pos, u.position));
    TintFactorRange(distance, u.size, intensity);
    assert TintedColor(sqrt, pos, base, true, ulcers, intensity) == UlcerTint(sqrt, pos, u, intensity);
    if 1.0 - distance / u.size > 0.5 {
      assert UlcerTint(sqrt, pos, u, intensity) == Scale(u.color, TintFactor(distance, u.size, intensity));
    } else {
      assert Scale(u.color, 1.0) == u.color;
    }
  }

  /** What `updateParticleVisibility` reads besides the particles. */
  datatype View = View(
    cameraPos: Vec3,
    direction: Vec3,
    fogDistance: real,
    fogDensity: real,
    baseColor: Vec3,
    enableUlcers: bool,
    ulcers: seq<Ulcers.Ulcer>,
    ulcerIntensity: real)

  /** The scroll-driven target alpha of a particle at `pos`. */
  function ScrollTarget(sqrt: real -> real, view: View, pos: Vec3): real
    requires IsSqrt(sqrt)
  {
    var toParticle := Sub(pos, view.cameraPos);
    TargetAlpha(Length(sqrt, toParticle), Dot(toParticle, view.direction), view.fogDistance)
  }

  /** The source build's new alpha for a particle at `pos` (the direction is normalized first). */
  function SourceAlphaAt(m: MathLib, view: View, pos: Vec3, alpha: real): real
    requires IsSqrt(m.sqrt)
  {
    var toParticle := Sub(pos, view.cameraPos);
    var inFront := Dot(toParticle, Normalize(m.sqrt, view.direction)) > 0.0;
    SourceAlpha(alpha, inFront, SourceOpacity(m.exp, Length(m.sqrt, toParticle), view.fogDistance, view.fogDensity))
  }

  /** With a valid `Math`, a non-negative density and an alpha in `[0, 1]`, the source build's new alpha stays in `[0, 1]`. */
  lemma SourceAlphaAtInUnit(m: MathLib, view: View, pos: Vec3, alpha: real)
    requires ValidMath(m) && 0.0 <= view.fogDensity && 0.0 <= alpha <= 1.0
    ensures 0.0 <= SourceAlphaAt(m, view, pos, alpha) <= 1.0
  {
    var toParticle := Sub(pos, view.cameraPos);
    SourceOpacityInUnit(m, Length(m.sqrt, toParticle), view.fogDistance, view.fogDensity);
    var inFront := Dot(toParticle, Normalize(m.sqrt, view.direction)) > 0.0;
    SourceAlphaStaysInUnit(alpha, inFront, SourceOpacity(m.exp, Length(m.sqrt, toParticle), view.fogDistance, view.fogDensity));
  }
}
