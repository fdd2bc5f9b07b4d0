/**
 * The stomach tunnel's specification functions: where `generateUlcers`
 * puts its ulcers, which particle slot `initParticles` makes a wall, ulcer
 * or scattered particle and what it writes there, what `resetParticles`,
 * `partialResetParticles` and `updateParticles` make of a slot, the fog
 * density clamp and the camera's looping progress.  The class that
 * updates the particle arrays in place is in module `Stomach`.
 */
module StomachPlan {
  import opened Common
  import Ulcers
  import Curl

  /** The settings the stomach tunnel's core reads. */
  datatype StomachSettings = StomachSettings(
    particleCount: nat,
    tunnelRadius: real,
    size: real,
    color: Vec3,
    enableUlcers: bool,
    ulcerCount: nat,
    ulcerSize: real,
    ulcerColor: Vec3,
    ulcerColorVariation: real,
    ulcerDistribution: real,
    ulcerSizeMultiplier: real,
    ulcerDepthFactor: real,
    ulcerCompactness: real,
    ulcerEdgeSoftness: real,
    animationDuration: real,
    speed: real,
    curlNoiseScale: real,
    curlNoiseTimeScale: real,
    curlNoiseStrength: real,
    tunnelForceStrength: real,
    velocityDamping: real,
    resetInterval: real,
    fogDensity: real)

  /** An ulcer of the stomach tunnel; `normal` points from the path out to the ulcer. */
  datatype StomachUlcer = StomachUlcer(position: Vec3, normal: Vec3, size: real, t: real, angle: real, color: Vec3)

  /** The `Math.random()` values one ulcer draws: angle, size, then three colour jitters. */
  datatype StomachUlcerDraws = StomachUlcerDraws(angle: real, size: real, r: real, g: real, b: real)

  predicate ValidStomachUlcerDraws(d: StomachUlcerDraws)
  {
    0.0 <= d.angle < 1.0 && 0.0 <= d.size < 1.0 && 0.0 <= d.r < 1.0 && 0.0 <= d.g < 1.0 && 0.0 <= d.b < 1.0
  }

  // Ulcer placement along the path.

  /**
   * The path parameter of ulcer `i` as written:
   * `i / (ulcerCount - 1) * distribution + (1 - distribution) / 2`.  With a
   * single ulcer this divides 0 by 0.
   */
  function UlcerParamAsWritten(i: nat, count: nat, distribution: real): (t: Num)
    requires i < count
    ensures t.NaN? <==> count == 1
  {
    if count == 1 then NaN
    else Finite(i as real / (count - 1) as real * distribution + (1.0 - distribution) / 2.0)
  }

  /**
   * The path parameter of ulcer `i`, spreading the ulcers evenly over the
   * middle `distribution` of the path, with a single ulcer in the middle.
   */
  function UlcerParam(i: nat, count: nat, distribution: real): real
    requires i < count
  {
    if count == 1 then 0.5
    else i as real / (count - 1) as real * distribution + (1.0 - distribution) / 2.0
  }

  /** With one ulcer the path parameter as written is NaN, where the middle of the range was meant. */
  lemma SingleUlcerParamIsNaN(distribution: real)
    ensures UlcerParamAsWritten(0, 1, distribution) == NaN
    ensures UlcerParam(0, 1, distribution) == 0.5
  {}

  /** With two or more ulcers the formula as written and the corrected one agree. */
  lemma UlcerParamAgreesWhenSeveral(i: nat, count: nat, distribution: real)
    requires i < count && 2 <= count
    ensures UlcerParamAsWritten(i, count, distribution) == Finite(UlcerParam(i, count, distribution))
  {}

  /**
   * The parameters run from `(1 - d) / 2` to `(1 + d) / 2` in equal steps of
   * `d / (count - 1)`.
   */
  lemma UlcerParamsEvenlySpaced(count: nat, d: real)
    requires 2 <= count
    ensures UlcerParam(0, count, d) == (1.0 - d) / 2.0
    ensures UlcerParam(count - 1, count, d) == (1.0 + d) / 2.0
    ensures forall i :: 0 <= i < count - 1 ==> UlcerParam(i + 1, count, d) - UlcerParam(i, count, d) == d / (count - 1) as real
  {
    var c := (count - 1) as real;
    forall i | 0 <= i < count - 1
      ensures UlcerParam(i + 1, count, d) - UlcerParam(i, count, d) == d / c
    {
      assert (i + 1) as real / c * d - i as real / c * d == ((i + 1) as real - i as real) / c * d;
    }
  }

  /** Every parameter, the single-ulcer one included, lies in `[(1 - d) / 2, (1 + d) / 2]` for `d` in `[0, 1]`. */
  lemma UlcerParamInRange(i: nat, count: nat, d: real)
    requires i < count && 0.0 <= d <= 1.0
    ensures (1.0 - d) / 2.0 <= UlcerParam(i, count, d) <= (1.0 + d) / 2.0
    ensures 0.0 <= UlcerParam(i, count, d) <= 1.0
  {
    if count > 1 {
      var f := i as real / (count - 1) as real;
      UnitRatio(i as real, (count - 1) as real);
      FractionOfUnit(f, d);
      assert UlcerParam(i, count, d) == f * d + (1.0 - d) / 2.0;
    }
  }

  lemma UnitRatio(a: real, c: real)
    requires 0.0 <= a <= c && 0.0 < c
    ensures 0.0 <= a / c <= 1.0
  {
    assert a / c * c == a;
  }

  lemma FractionOfUnit(f: real, d: real)
    requires 0.0 <= f <= 1.0 && 0.0 <= d
    ensures 0.0 <= f * d <= d
  {
    assert f * d <= 1.0 * d;
  }

  /** `(cx + cos(a) r, cy + sin(a) r, cz)`: a point on the circle of radius `r` round `center`, in its `z` plane. */
  function CirclePoint(m: MathLib, center: Vec3, angle: real, radius: real): Vec3
  {
    Vec3(center.x + m.cos(angle) * radius, center.y + m.sin(angle) * radius, center.z)
  }

  /** A circle point lies at distance `radius` from the centre, at the centre's depth. */
  lemma CirclePointAtRadius(m: MathLib, center: Vec3, angle: real, radius: real)
    requires ValidMath(m)
    ensures NormSq(Sub(CirclePoint(m, center, angle, radius), center)) == Sq(radius)
    ensures CirclePoint(m, center, angle, radius).z == center.z
  {
    var c, s := m.cos(angle), m.sin(angle);
    assert Sq(s) + Sq(c) == 1.0;
    var off := Sub(CirclePoint(m, center, angle, radius), center);
    assert off == Vec3(c * radius, s * radius, 0.0);
    SqOfProduct(c, radius);
    SqOfProduct(s, radius);
    assert NormSq(off) == Sq(c) * Sq(radius) + Sq(s) * Sq(radius) + Sq(0.0);
    assert Sq(c) * Sq(radius) + Sq(s) * Sq(radius) == (Sq(c) + Sq(s)) * Sq(radius);
  }

  /** One colour channel varied by `(r 2 - 1) variation` and clamped to `[0, 1]`. */
  function VariedChannel(c: real, variation: real, r: real): real
  {
    Clamp(c + (r * 2.0 - 1.0) * variation, 0.0, 1.0)
  }

  /** The ulcer colour: jittered channel by channel when `ulcerColorVariation` is positive. */
  function VariedColor(base: Vec3, variation: real, d: StomachUlcerDraws): Vec3
  {
    if variation > 0.0 then
      Vec3(VariedChannel(base.x, variation, d.r), VariedChannel(base.y, variation, d.g), VariedChannel(base.z, variation, d.b))
    else base
  }

  /** A jittered channel stays in `[0, 1]` and within `variation` of a channel that was in `[0, 1]`. */
  lemma VariedChannelNear(c: real, variation: real, r: real)
    requires 0.0 <= c <= 1.0 && 0.0 < variation && 0.0 <= r < 1.0
    ensures 0.0 <= VariedChannel(c, variation, r) <= 1.0
    ensures c - variation <= VariedChannel(c, variation, r) <= c + variation
  {
    assert -variation <= (r * 2.0 - 1.0) * variation <= variation by {
      assert (r * 2.0 - 1.0) * variation <= 1.0 * variation;
      assert -1.0 * variation <= (r * 2.0 - 1.0) * variation;
    }
  }

  /** Ulcer `i` from its draws. */
  function MakeStomachUlcer(m: MathLib, path: Curve, s: StomachSettings, i: nat, d: StomachUlcerDraws): StomachUlcer
    requires IsSqrt(m.sqrt) && i < s.ulcerCount && ValidStomachUlcerDraws(d)
  {
    var t := UlcerParam(i, s.ulcerCount, s.ulcerDistribution);
    var angle := d.angle * m.pi * 2.0;
    StomachUlcer(
      CirclePoint(m, path.point(t), angle, s.tunnelRadius),
      Normalize(m.sqrt, Vec3(m.cos(angle), m.sin(angle), 0.0)),
      Ulcers.Varied(s.ulcerSize, 0.7, 0.6, d.size),
      t, angle,
      VariedColor(s.ulcerColor, s.ulcerColorVariation, d))
  }

  /**
   * Each ulcer sits on the tunnel wall at the path point of its parameter,
   * its normal is the unit radial direction, and its size lies in
   * `[0.7, 1.3)` times the configured size.
   */
  lemma StomachUlcerOnWall(m: MathLib, path: Curve, s: StomachSettings, i: nat, d: StomachUlcerDraws)
    requires ValidMath(m) && i < s.ulcerCount && ValidStomachUlcerDraws(d) && 0.0 < s.ulcerSize
    ensures var u := MakeStomachUlcer(m, path, s, i, d);
            NormSq(Sub(u.position, path.point(u.t))) == Sq(s.tunnelRadius) &&
            u.normal == Vec3(m.cos(u.angle), m.sin(u.angle), 0.0) &&
            0.7 * s.ulcerSize <= u.size < 1.3 * s.ulcerSize
  {
    var t := UlcerParam(i, s.ulcerCount, s.ulcerDistribution);
    var angle := d.angle * m.pi * 2.0;
    var u := MakeStomachUlcer(m, path, s, i, d);
    assert u.t == t && u.angle == angle && u.position == CirclePoint(m, path.point(t), angle, s.tunnelRadius);
    CirclePointAtRadius(m, path.point(t), angle, s.tunnelRadius);
    RadialIsUnit(m, angle);
  }

  /** `(cos a, sin a, 0)` has length 1, so normalizing leaves it as it is. */
  lemma RadialIsUnit(m: MathLib, angle: real)
    requires ValidMath(m)
    ensures Normalize(m.sqrt, Vec3(m.cos(angle), m.sin(angle), 0.0)) == Vec3(m.cos(angle), m.sin(angle), 0.0)
  {
    var v := Vec3(m.cos(angle), m.sin(angle), 0.0);
    assert Sq(m.sin(angle)) + Sq(m.cos(angle)) == 1.0;
    assert NormSq(v) == 1.0;
    var len := Length(m.sqrt, v);
    assert len == m.sqrt(1.0);
    assert Sq(len) == 1.0 && 0.0 <= len;
    UnitRoot(len);
  }

  lemma UnitRoot(x: real)
    requires 0.0 <= x && Sq(x) == 1.0
    ensures x == 1.0
  {
    if x < 1.0 {
      SquareBelowOne(x);
    } else if x > 1.0 {
      SquareAboveOne(x);
    }
  }

  lemma SquareBelowOne(x: real)
    requires 0.0 <= x < 1.0
    ensures Sq(x) < 1.0
  {
    assert x * x <= x * 1.0;
  }

  lemma SquareAboveOne(x: real)
    requires 1.0 < x
    ensures 1.0 < Sq(x)
  {
    assert x * x > x * 1.0;
  }

  // The slot plan of `initParticles`.

  /** Particles per ring of the wall pass, and rings along the path (`t = 0, 0.01, …, 0.99`). */
  const ParticlesPerSection: nat := 20
  const WallSections: nat := 100

  /** How many slots the wall pass fills: all of them, up to 2000. */
  function WallSlots(n: nat): (w: nat)
    ensures w <= n && w <= WallSections * ParticlesPerSection
    ensures w == n || w == WallSections * ParticlesPerSection
  {
    MinNat(n, WallSections * ParticlesPerSection)
  }

  /** `Math.floor(particleCount * 0.2 / ulcers.length)`. */
  function PerUlcer(n: nat, ulcerTotal: nat): nat
    requires 0 < ulcerTotal
  {
    n / (5 * ulcerTotal)
  }

  /** Where the ulcer pass stops: `particlesPerUlcer` slots per ulcer after the wall slots, within the count. */
  function UlcerSlotsEnd(n: nat, enable: bool, ulcerTotal: nat): (e: nat)
    ensures WallSlots(n) <= e <= n
    ensures !enable || ulcerTotal == 0 ==> e == WallSlots(n)
  {
    if enable && ulcerTotal > 0 then MinNat(n, WallSlots(n) + ulcerTotal * PerUlcer(n, ulcerTotal)) else WallSlots(n)
  }

  /** Which pass writes a slot: a wall ring, an ulcer's disc, or the scattered fill. */
  datatype Phase = Wall(section: nat, around: nat) | OnUlcer(ulcer: nat, member: nat) | Scatter

  /** The pass that writes slot `k` of `n`, and its loop counters there. */
  function PhaseOf(k: nat, n: nat, enable: bool, ulcerTotal: nat): (p: Phase)
    requires k < n
    ensures p.Wall? <==> k < WallSlots(n)
    ensures p.OnUlcer? <==> WallSlots(n) <= k < UlcerSlotsEnd(n, enable, ulcerTotal)
    ensures p.Wall? ==> p.section < WallSections && p.around < ParticlesPerSection &&
                        k == p.section * ParticlesPerSection + p.around
    ensures p.OnUlcer? ==> enable && 0 < ulcerTotal && p.ulcer < ulcerTotal && p.member < PerUlcer(n, ulcerTotal) &&
                           k == WallSlots(n) + p.ulcer * PerUlcer(n, ulcerTotal) + p.member
  {
    if k < WallSlots(n) then
      Wall(k / ParticlesPerSection, k % ParticlesPerSection)
    else if k < UlcerSlotsEnd(n, enable, ulcerTotal) then
      var per := PerUlcer(n, ulcerTotal);
      var j := k - WallSlots(n);
      assert j < ulcerTotal * per;
      DivBelow(j, per, ulcerTotal);
      OnUlcer(j / per, j % per)
    else Scatter
  }

  lemma DivBelow(j: nat, per: nat, count: nat)
    requires j < count * per
    ensures 0 < per && j / per < count
  {
    if per == 0 {
      assert false;
    }
    var q := j / per;
    assert q * per <= j;
    if q >= count {
      MulMono(count, q, per);
    }
  }

  lemma MulMono(a: nat, b: nat, p: nat)
    requires a <= b
    ensures a * p <= b * p
  {}

  /** Slot `section * 20 + around` of the wall pass is written at ring `section`, position `around`. */
  lemma WallPhase(k: nat, n: nat, enable: bool, ulcerTotal: nat, section: nat, around: nat)
    requires k < WallSlots(n) && around < ParticlesPerSection && k == section * ParticlesPerSection + around
    ensures PhaseOf(k, n, enable, ulcerTotal) == Wall(section, around)
  {}

  /** Slot `wall + u * per + j` of the ulcer pass is member `j` of ulcer `u`. */
  lemma UlcerPhase(k: nat, n: nat, ulcerTotal: nat, u: nat, j: nat)
    requires 0 < ulcerTotal && k < n && u < ulcerTotal && j < PerUlcer(n, ulcerTotal)
    requires k == WallSlots(n) + u * PerUlcer(n, ulcerTotal) + j
    ensures PhaseOf(k, n, true, ulcerTotal) == OnUlcer(u, j)
  {
    var per := PerUlcer(n, ulcerTotal);
    MulMono(u + 1, ulcerTotal, per);
    assert k < UlcerSlotsEnd(n, true, ulcerTotal);
    var p := PhaseOf(k, n, true, ulcerTotal);
    MulSplitUnique(p.ulcer, p.member, u, j, per);
  }

  /** Division with remainder is unique: `a p + b == c p + d` with `b, d < p` forces `a == c`. */
  lemma MulSplitUnique(a: nat, b: nat, c: nat, d: nat, p: nat)
    requires b < p && d < p && a * p + b == c * p + d
    ensures a == c && b == d
  {
    if a < c {
      MulMono(a + 1, c, p);
    } else if c < a {
      MulMono(c + 1, a, p);
    }
  }

  /** The `Math.random()` values one particle slot draws (each pass uses some of them). */
  datatype SlotDraws = SlotDraws(t: real, angle: real, radius: real, theta: real, spread: real,
                                 size: real, vx: real, vy: real, vz: real, life: real)

  predicate ValidSlotDraws(d: SlotDraws)
  {
    0.0 <= d.t < 1.0 && 0.0 <= d.angle < 1.0 && 0.0 <= d.radius < 1.0 && 0.0 <= d.theta < 1.0 &&
    0.0 <= d.spread < 1.0 && 0.0 <= d.size < 1.0 && 0.0 <= d.vx < 1.0 && 0.0 <= d.vy < 1.0 &&
    0.0 <= d.vz < 1.0 && 0.0 <= d.life < 1.0
  }

  /**
   * The ulcer-surface geometry (a tangent basis from cross products, a
   * `Math.pow` radial profile and a depth along the normal) that places a
   * particle inside an ulcer's disc: given the ulcer, the disc settings and
   * the two draws, the position and the size factor.
   */
  datatype DiscShape = DiscShape(compactness: real, depthFactor: real, edgeSoftness: real)
  datatype DiscPoint = DiscPoint(position: Vec3, sizeFactor: real)
  type DiscPlacement = (StomachUlcer, DiscShape, real, real) -> DiscPoint

  function ShapeOf(s: StomachSettings): DiscShape
  {
    DiscShape(s.ulcerCompactness, s.ulcerDepthFactor, s.ulcerEdgeSoftness)
  }

  /** Everything stored for one particle slot; `kind` and `assignment` are `particleTypes` and `ulcerAssignments`. */
  datatype Slot = Slot(pos: Vec3, size: real, color: Vec3, vel: Vec3, lifetime: real, alpha: real, kind: int, assignment: int)

  /** `((r - 0.5) spread, …)` for the three velocity draws. */
  function RandomVelocity(d: SlotDraws, spread: real): Vec3
  {
    Vec3((d.vx - 0.5) * spread, (d.vy - 0.5) * spread, (d.vz - 0.5) * spread)
  }

  /** `tunnelRadius * (0.95 + r * 0.05)`. */
  function WallRadius(s: StomachSettings, d: SlotDraws): real
  {
    s.tunnelRadius * (0.95 + d.radius * 0.05)
  }

  /** A point on the wall at a random path parameter and angle, as the fill, reset and partial reset place it. */
  function ScatterPoint(m: MathLib, path: Curve, s: StomachSettings, d: SlotDraws): Vec3
  {
    CirclePoint(m, path.point(d.t), d.angle * m.pi * 2.0, WallRadius(s, d))
  }

  /** A wall or scattered particle: type 0, no ulcer, full opacity. */
  function PlainSlot(pos: Vec3, s: StomachSettings, d: SlotDraws): Slot
  {
    Slot(pos, s.size * (0.8 + d.size * 0.4), s.color, RandomVelocity(d, 0.3), 2.0 + d.life * 3.0, 1.0, 0, -1)
  }

  /** An ulcer particle of ulcer `u`: type 1, assigned to `u`, in the ulcer's colour, nudged inward. */
  function UlcerSlot(disc: DiscPlacement, s: StomachSettings, ulcers: seq<StomachUlcer>, u: nat, d: SlotDraws): Slot
    requires u < |ulcers|
  {
    var ulcer := ulcers[u];
    var p := disc(ulcer, ShapeOf(s), d.theta, d.spread);
    Slot(p.position, s.size * s.ulcerSizeMultiplier * (0.8 + d.size * 0.3) * p.sizeFactor, ulcer.color,
         Add(RandomVelocity(d, 0.3), Scale(ulcer.normal, -0.1)), 2.0 + d.life * 3.0, 1.0, 1, u as int)
  }

  /** The path parameter of wall ring `section`: `t` advances by 0.01 per ring. */
  function WallT(section: nat): real
  {
    section as real / WallSections as real
  }

  /** `(i / particlesPerSection) * Math.PI * 2`: evenly spaced round the ring. */
  function RingAngle(m: MathLib, around: nat): real
  {
    (around as real / ParticlesPerSection as real) * m.pi * 2.0
  }

  /** What `initParticles` writes at slot `k`. */
  function PlannedSlot(m: MathLib, path: Curve, disc: DiscPlacement, s: StomachSettings, ulcers: seq<StomachUlcer>, k: nat, d: SlotDraws): Slot
    requires k < s.particleCount
  {
    match PhaseOf(k, s.particleCount, s.enableUlcers, |ulcers|)
    case Wall(section, around) => PlainSlot(CirclePoint(m, path.point(WallT(section)), RingAngle(m, around), WallRadius(s, d)), s, d)
    case OnUlcer(u, _) => UlcerSlot(disc, s, ulcers, u, d)
    case Scatter => PlainSlot(ScatterPoint(m, path, s, d), s, d)
  }

  /**
   * A slot is an ulcer particle exactly when it is assigned a valid ulcer,
   * exactly when it lies in the ulcer pass, and only with ulcers enabled;
   * every other slot is type 0 with assignment -1.
   */
  lemma PlannedKindsAgree(m: MathLib, path: Curve, disc: DiscPlacement, s: StomachSettings, ulcers: seq<StomachUlcer>, k: nat, d: SlotDraws)
    requires k < s.particleCount
    ensures var q := PlannedSlot(m, path, disc, s, ulcers, k, d);
            (q.kind == 1 <==> 0 <= q.assignment < |ulcers|) &&
            (q.kind == 1 <==> WallSlots(s.particleCount) <= k < UlcerSlotsEnd(s.particleCount, s.enableUlcers, |ulcers|)) &&
            (q.kind == 1 ==> s.enableUlcers) &&
            (q.kind != 1 ==> q.kind == 0 && q.assignment == -1)
  {}

  /**
   * Every planned slot is fully opaque, lives 2 to 5 seconds, and starts
   * with each velocity component within 0.15 (plus a tenth of the ulcer
   * normal for ulcer particles).
   */
  lemma PlannedSlotRanges(m: MathLib, path: Curve, disc: DiscPlacement, s: StomachSettings, ulcers: seq<StomachUlcer>, k: nat, d: SlotDraws)
    requires k < s.particleCount && ValidSlotDraws(d)
    ensures var q := PlannedSlot(m, path, disc, s, ulcers, k, d);
            q.alpha == 1.0 && 2.0 <= q.lifetime < 5.0 &&
            (q.kind == 0 ==> InBox(q.vel, 0.15)) &&
            (q.kind == 1 ==> InBox(Sub(q.vel, Scale(ulcers[q.assignment].normal, -0.1)), 0.15))
  {
    var q := PlannedSlot(m, path, disc, s, ulcers, k, d);
    VelocityInBox(d);
    if q.kind == 1 {
      var v := RandomVelocity(d, 0.3);
      var nrm := Scale(ulcers[q.assignment].normal, -0.1);
      assert Sub(Add(v, nrm), nrm) == v;
    }
  }

  /** Every component of `v` lies in `[-h, h)`. */
  predicate InBox(v: Vec3, h: real)
  {
    -h <= v.x < h && -h <= v.y < h && -h <= v.z < h
  }

  /** Initial velocity components lie within 0.15, reset ones within 0.25. */
  lemma VelocityInBox(d: SlotDraws)
    requires ValidSlotDraws(d)
    ensures InBox(RandomVelocity(d, 0.3), 0.15)
    ensures InBox(RandomVelocity(d, 0.5), 0.25)
  {}

  /** Wall and scattered particles start on a circle of radius `[0.95, 1)` times the tunnel radius. */
  lemma PlainSlotNearWall(m: MathLib, path: Curve, s: StomachSettings, d: SlotDraws)
    requires ValidMath(m) && ValidSlotDraws(d) && 0.0 < s.tunnelRadius
    ensures var p := ScatterPoint(m, path, s, d);
            NormSq(Sub(p, path.point(d.t))) == Sq(WallRadius(s, d)) &&
            0.95 * s.tunnelRadius <= WallRadius(s, d) < s.tunnelRadius
  {
    CirclePointAtRadius(m, path.point(d.t), d.angle * m.pi * 2.0, WallRadius(s, d));
    RadiusFactor(s.tunnelRadius, d.radius);
    assert WallRadius(s, d) == s.tunnelRadius * (0.95 + d.radius * 0.05);
  }

  lemma RadiusFactor(r: real, x: real)
    requires 0.0 < r && 0.0 <= x < 1.0
    ensures 0.95 * r <= r * (0.95 + x * 0.05) < r
  {
    var f := 0.95 + x * 0.05;
    assert 0.95 <= f < 1.0;
    assert r * f < r * 1.0;
    assert r * 0.95 <= r * f;
  }

  // Resets.

  /**
   * What `resetParticles` makes of a slot: an ulcer particle with a valid
   * assignment is placed afresh in its ulcer's disc, in its colour; any
   * other non-ulcer particle is scattered on the wall; an ulcer particle
   * with an invalid assignment keeps its place.  Every velocity is then
   * drawn afresh within 0.25 and every alpha set to 1; type, assignment and
   * lifetime are kept.
   */
  function ResetSlot(m: MathLib, path: Curve, disc: DiscPlacement, s: StomachSettings, ulcers: seq<StomachUlcer>, q: Slot, d: SlotDraws): Slot
  {
    var placed :=
      if q.kind == 1 then
        if 0 <= q.assignment < |ulcers| then
          var u := UlcerSlot(disc, s, ulcers, q.assignment as nat, d);
          q.(pos := u.pos, size := u.size, color := u.color)
        else q
      else q.(pos := ScatterPoint(m, path, s, d));
    placed.(vel := RandomVelocity(d, 0.5), alpha := 1.0)
  }

  /** A reset keeps type, assignment and lifetime, sets alpha to 1 and every velocity component in `[-0.25, 0.25)`. */
  lemma ResetSlotProperties(m: MathLib, path: Curve, disc: DiscPlacement, s: StomachSettings, ulcers: seq<StomachUlcer>, q: Slot, d: SlotDraws)
    requires ValidSlotDraws(d)
    ensures var r := ResetSlot(m, path, disc, s, ulcers, q, d);
            r.kind == q.kind && r.assignment == q.assignment && r.lifetime == q.lifetime &&
            r.alpha == 1.0 && InBox(r.vel, 0.25) &&
            (q.kind != 1 ==> r.size == q.size && r.color == q.color) &&
            (q.kind == 1 && 0 <= q.assignment < |ulcers| ==> r.color == ulcers[q.assignment].color)
  {
    VelocityInBox(d);
  }

  /** One pick of `partialResetParticles`: the slot draw and the draws for its new place. */
  datatype Pick = Pick(index: real, draws: SlotDraws)

  predicate ValidPick(p: Pick)
  {
    0.0 <= p.index < 1.0 && ValidSlotDraws(p.draws)
  }

  /** The number of picks: `Math.floor(particleCount * fraction)`, or none when that is negative. */
  function PickCount(n: nat, fraction: real): (c: nat)
    ensures 0.0 <= fraction ==> c as real <= n as real * fraction < c as real + 1.0
  {
    var f := (n as real * fraction).Floor;
    if f < 0 then 0 else f
  }

  /** The whole-array reset: every slot reset with its own draws. */
  function ResetAll(m: MathLib, path: Curve, disc: DiscPlacement, s: StomachSettings, ulcers: seq<StomachUlcer>, slots: seq<Slot>, draws: nat -> SlotDraws): (r: seq<Slot>)
    ensures |r| == |slots|
  {
    seq(|slots|, k requires 0 <= k < |slots| => ResetSlot(m, path, disc, s, ulcers, slots[k], draws(k)))
  }

  /** A picked wall particle is scattered afresh with a new velocity within 0.25 and full opacity; an ulcer particle is left alone. */
  function PartialResetSlot(m: MathLib, path: Curve, s: StomachSettings, q: Slot, d: SlotDraws): Slot
  {
    if q.kind == 0 then q.(pos := ScatterPoint(m, path, s, d), vel := RandomVelocity(d, 0.5), alpha := 1.0) else q
  }

  /** The slots after applying `picks` in order. */
  function PartialReset(m: MathLib, path: Curve, s: StomachSettings, slots: seq<Slot>, picks: seq<Pick>): (r: seq<Slot>)
    requires forall j :: 0 <= j < |picks| ==> ValidPick(picks[j])
    ensures |r| == |slots|
  {
    if |picks| == 0 then slots
    else
      var init := picks[..|picks| - 1];
      assert forall j :: 0 <= j < |init| ==> init[j] == picks[j];
      ApplyPick(m, path, s, PartialReset(m, path, s, slots, init), picks[|picks| - 1])
  }

  /** One pick: slot `floor(index n)` is partially reset. */
  function ApplyPick(m: MathLib, path: Curve, s: StomachSettings, slots: seq<Slot>, p: Pick): (r: seq<Slot>)
    requires ValidPick(p)
    ensures |r| == |slots|
  {
    if |slots| == 0 then slots
    else
      var k := FloorScaled(p.index, |slots|);
      slots[k := PartialResetSlot(m, path, s, slots[k], p.draws)]
  }

  /**
   * A partial reset changes no type and no assignment, never touches an
   * ulcer particle, and changes only slots that some pick selected.
   */
  lemma {:induction false} PartialResetTouchesOnlyPickedWallSlots(m: MathLib, path: Curve, s: StomachSettings, slots: seq<Slot>, picks: seq<Pick>, k: nat)
    requires forall j :: 0 <= j < |picks| ==> ValidPick(picks[j])
    requires k < |slots|
    ensures var r := PartialReset(m, path, s, slots, picks);
            r[k].kind == slots[k].kind && r[k].assignment == slots[k].assignment &&
            (slots[k].kind != 0 ==> r[k] == slots[k]) &&
            ((forall j :: 0 <= j < |picks| ==> FloorScaled(picks[j].index, |slots|) != k) ==> r[k] == slots[k])
  {
    if |picks| > 0 {
      var init := picks[..|picks| - 1];
      assert forall j :: 0 <= j < |init| ==> init[j] == picks[j];
      PartialResetTouchesOnlyPickedWallSlots(m, path, s, slots, init, k);
    }
  }

  // Runtime ulcer settings.

  /** The fields `updateUlcerSettings` may carry; an absent field is `None`. */
  datatype UlcerUpdate = UlcerUpdate(
    depthFactor: Option<real>,
    compactness: Option<real>,
    edgeSoftness: Option<real>,
    sizeMultiplier: Option<real>,
    color: Option<Vec3>)

  /** The settings with every present field of `u` written in. */
  function UpdatedSettings(s: StomachSettings, u: UlcerUpdate): StomachSettings
  {
    s.(ulcerDepthFactor := if u.depthFactor.Some? then u.depthFactor.value else s.ulcerDepthFactor,
       ulcerCompactness := if u.compactness.Some? then u.compactness.value else s.ulcerCompactness,
       ulcerEdgeSoftness := if u.edgeSoftness.Some? then u.edgeSoftness.value else s.ulcerEdgeSoftness,
       ulcerSizeMultiplier := if u.sizeMultiplier.Some? then u.sizeMultiplier.value else s.ulcerSizeMultiplier,
       ulcerColor := if u.color.Some? then u.color.value else s.ulcerColor)
  }

  /**
   * An update touches only the five ulcer appearance fields, an empty
   * update changes nothing, and applying the same update twice is
   * applying it once.
   */
  lemma UpdatedSettingsProperties(s: StomachSettings, u: UlcerUpdate)
    ensures var r := UpdatedSettings(s, u);
            r.(ulcerDepthFactor := s.ulcerDepthFactor, ulcerCompactness := s.ulcerCompactness,
               ulcerEdgeSoftness := s.ulcerEdgeSoftness, ulcerSizeMultiplier := s.ulcerSizeMultiplier,
               ulcerColor := s.ulcerColor) == s
    ensures u == UlcerUpdate(None, None, None, None, None) ==> UpdatedSettings(s, u) == s
    ensures UpdatedSettings(UpdatedSettings(s, u), u) == UpdatedSettings(s, u)
    ensures u.color.Some? ==> UpdatedSettings(s, u).ulcerColor == u.color.value
    ensures u.sizeMultiplier.Some? ==> UpdatedSettings(s, u).ulcerSizeMultiplier == u.sizeMultiplier.value
  {}

  /** Every ulcer recoloured, nothing else about it changed. */
  function Recolored(ulcers: seq<StomachUlcer>, c: Vec3): (r: seq<StomachUlcer>)
    ensures |r| == |ulcers|
    ensures forall i :: 0 <= i < |r| ==> r[i].color == c && r[i].(color := ulcers[i].color) == ulcers[i]
  {
    seq(|ulcers|, i requires 0 <= i < |ulcers| => ulcers[i].(color := c))
  }

  /** A slot's colour after a recolour: an ulcer particle with a valid ulcer takes the new colour. */
  function RecoloredSlot(q: Slot, ulcerTotal: nat, c: Vec3): Slot
  {
    if q.kind == 1 && 0 <= q.assignment < ulcerTotal then q.(color := c) else q
  }

  // The motion step of `updateParticles`.

  /** The path parameters the closest-point search samples: `t = 0, 0.1, …, 1.0`. */
  const PathSamples: nat := 11

  function SampleT(j: nat): real
  {
    j as real / 10.0
  }

  /** Distance from `pos` to the path point at sample `j`. */
  function SampleDistance(sqrt: real -> real, path: Curve, pos: Vec3, j: nat): real
    requires IsSqrt(sqrt)
  {
    Length(sqrt, Sub(pos, path.point(SampleT(j))))
  }

  /**
   * The first sample at which the distance is smallest: none of the
   * samples is closer, and every earlier sample is strictly farther.
   */
  predicate IsClosestSample(sqrt: real -> real, path: Curve, pos: Vec3, best: nat)
    requires IsSqrt(sqrt)
  {
    best < PathSamples &&
    (forall j :: 0 <= j < PathSamples ==> SampleDistance(sqrt, path, pos, best) <= SampleDistance(sqrt, path, pos, j)) &&
    (forall j :: 0 <= j < best ==> SampleDistance(sqrt, path, pos, best) < SampleDistance(sqrt, path, pos, j))
  }

  /** The sample the search keeps among `0 .. upTo - 1`: a later sample replaces it only when strictly closer. */
  function ClosestAmong(sqrt: real -> real, path: Curve, pos: Vec3, upTo: nat): (best: nat)
    requires IsSqrt(sqrt) && 0 < upTo
    ensures best < upTo
  {
    if upTo == 1 then 0
    else
      var b := ClosestAmong(sqrt, path, pos, upTo - 1);
      if SampleDistance(sqrt, path, pos, upTo - 1) < SampleDistance(sqrt, path, pos, b) then upTo - 1 else b
  }

  /**
   * The kept sample is the first closest: none of the samples below
   * `upTo` is closer, and every earlier sample is strictly farther.
   */
  lemma {:induction false} ClosestAmongIsFirstMinimum(sqrt: real -> real, path: Curve, pos: Vec3, upTo: nat)
    requires IsSqrt(sqrt) && 0 < upTo
    ensures var best := ClosestAmong(sqrt, path, pos, upTo);
            (forall j :: 0 <= j < upTo ==> SampleDistance(sqrt, path, pos, best) <= SampleDistance(sqrt, path, pos, j)) &&
            (forall j :: 0 <= j < best ==> SampleDistance(sqrt, path, pos, best) < SampleDistance(sqrt, path, pos, j))
  {
    if upTo > 1 {
      ClosestAmongIsFirstMinimum(sqrt, path, pos, upTo - 1);
      var b := ClosestAmong(sqrt, path, pos, upTo - 1);
      if SampleDistance(sqrt, path, pos, upTo - 1) < SampleDistance(sqrt, path, pos, b) {
        assert ClosestAmong(sqrt, path, pos, upTo) == upTo - 1;
      } else {
        assert ClosestAmong(sqrt, path, pos, upTo) == b;
      }
    }
  }

  /** The closest sample over all eleven. */
  lemma ClosestIsClosestSample(sqrt: real -> real, path: Curve, pos: Vec3)
    requires IsSqrt(sqrt)
    ensures IsClosestSample(sqrt, path, pos, ClosestAmong(sqrt, path, pos, PathSamples))
  {
    ClosestAmongIsFirstMinimum(sqrt, path, pos, PathSamples);
  }

  /** What one frame of `updateParticles` reads besides the slot itself. */
  datatype Frame = Frame(noise: Curl.Field, sqrt: real -> real, path: Curve, s: StomachSettings, time: real, dT: real)

  /** One frame's random jitter decision and jitter draws. */
  datatype Jitter = Jitter(chance: real, jx: real, jy: real, jz: real)

  /**
   * The wall force on particle `pos`: along the direction from the closest
   * sampled path point, by `(tunnelRadius - distance) tunnelForceStrength speedFactor`.
   */
  function TunnelForce(f: Frame, pos: Vec3): Vec3
    requires IsSqrt(f.sqrt)
  {
    ForceFrom(f, pos, f.path.point(SampleT(ClosestAmong(f.sqrt, f.path, pos, PathSamples))))
  }

  /** The force measured from path point `center`. */
  function ForceFrom(f: Frame, pos: Vec3, center: Vec3): Vec3
    requires IsSqrt(f.sqrt)
  {
    var away := Sub(pos, center);
    Scale(Normalize(f.sqrt, away), (f.s.tunnelRadius - Length(f.sqrt, away)) * f.s.tunnelForceStrength * (f.s.speed * f.dT))
  }

  /**
   * A positive force factor pushes a particle inside the radius outward
   * and one outside the radius inward: the force along the outward
   * direction is `(radius - distance) k` times the distance.
   */
  lemma TunnelForceTowardRadius(sqrt: real -> real, away: Vec3, factor: real)
    requires IsSqrt(sqrt) && away != Zero
    ensures Dot(Scale(Normalize(sqrt, away), factor), away) == factor * Length(sqrt, away)
  {
    var len := Length(sqrt, away);
    LengthSquared(sqrt, away);
    assert Normalize(sqrt, away) == Scale(away, 1.0 / len);
    DotWithUnitOf(away, len, factor);
  }

  lemma DotWithUnitOf(w: Vec3, len: real, factor: real)
    requires len != 0.0 && NormSq(w) == Sq(len)
    ensures Dot(Scale(Scale(w, 1.0 / len), factor), w) == factor * len
  {
    DotOfScaled(Scale(w, 1.0 / len), factor, w);
    DotOfScaled(w, 1.0 / len, w);
    assert Dot(w, w) == NormSq(w);
    InverseTimesSquare(len);
  }

  lemma InverseTimesSquare(x: real)
    requires x != 0.0
    ensures 1.0 / x * Sq(x) == x
  {}

  lemma DotOfScaled(a: Vec3, k: real, b: Vec3)
    ensures Dot(Scale(a, k), b) == k * Dot(a, b)
  {}

  /** The velocity after adding the curl at the particle, scaled by speed factor and strength. */
  function CurlVelocity(f: Frame, q: Slot): Vec3
  {
    var timeInfluence := f.time * f.s.curlNoiseTimeScale;
    var curl := Curl.CurlStomach(f.noise, q.pos.x * f.s.curlNoiseScale, q.pos.y * f.s.curlNoiseScale, q.pos.z * f.s.curlNoiseScale + timeInfluence);
    Add(q.vel, Scale(curl, f.s.speed * f.dT * f.s.curlNoiseStrength))
  }

  /** The position moved by the new velocity times `speed dT`. */
  function Drifted(f: Frame, q: Slot): Vec3
  {
    Add(q.pos, Scale(CurlVelocity(f, q), f.s.speed * f.dT))
  }

  /** The occasional jitter `((r - 0.5) 0.2 speedFactor, …)`. */
  function JitterKick(j: Jitter, speedFactor: real): Vec3
  {
    Vec3((j.jx - 0.5) * 0.2 * speedFactor, (j.jy - 0.5) * 0.2 * speedFactor, (j.jz - 0.5) * 0.2 * speedFactor)
  }

  /**
   * One particle's motion in a frame: velocity gains the curl times speed
   * and strength, position moves by the velocity times `speed dT`, every
   * third particle is pulled toward the wall (measured from its position
   * before the move), velocity is damped and, when the chance draw is
   * below 0.1, jittered, and alpha is reset to 1.
   */
  function MovedSlot(f: Frame, i: nat, q: Slot, j: Jitter): Slot
    requires IsSqrt(f.sqrt)
  {
    q.(pos := MovedPosition(f, i, q), vel := MovedVelocity(f, q, j), alpha := 1.0)
  }

  /** The position after the move, with the wall force for every third particle. */
  function MovedPosition(f: Frame, i: nat, q: Slot): Vec3
    requires IsSqrt(f.sqrt)
  {
    if i % 3 == 0 then Add(Drifted(f, q), TunnelForce(f, q.pos)) else Drifted(f, q)
  }

  /** The new velocity, damped and maybe jittered. */
  function MovedVelocity(f: Frame, q: Slot, j: Jitter): Vec3
  {
    var damped := Scale(CurlVelocity(f, q), f.s.velocityDamping);
    if j.chance < 0.1 then Add(damped, JitterKick(j, f.s.speed * f.dT)) else damped
  }

  /**
   * The motion step changes only position, velocity and alpha, and leaves
   * every particle opaque.  The velocity accumulates: without jitter it is
   * the old velocity plus the scaled curl, damped.  Particles outside the
   * force's third move by exactly their undamped new velocity times
   * `speed dT`.
   */
  lemma MovedSlotKeeps(f: Frame, i: nat, q: Slot, j: Jitter)
    requires IsSqrt(f.sqrt)
    ensures var r := MovedSlot(f, i, q, j);
            r.alpha == 1.0 && r.kind == q.kind && r.assignment == q.assignment &&
            r.size == q.size && r.color == q.color && r.lifetime == q.lifetime
    ensures i % 3 != 0 ==> Sub(MovedSlot(f, i, q, j).pos, q.pos) == Scale(CurlVelocity(f, q), f.s.speed * f.dT)
    ensures j.chance >= 0.1 ==> MovedSlot(f, i, q, j).vel == Scale(CurlVelocity(f, q), f.s.velocityDamping)
  {
    if i % 3 != 0 {
      var v := Scale(CurlVelocity(f, q), f.s.speed * f.dT);
      assert Sub(Add(q.pos, v), q.pos) == v;
    }
  }

  /** The motion step applied to every slot, slot `i` with jitter draws `jitters(i)`. */
  function MovedAll(f: Frame, slots: seq<Slot>, jitters: nat -> Jitter): (r: seq<Slot>)
    requires IsSqrt(f.sqrt)
    ensures |r| == |slots|
  {
    seq(|slots|, i requires 0 <= i < |slots| => MovedSlot(f, i, slots[i], jitters(i)))
  }

  // Fog and camera.

  /** `Math.min(Math.max(density, 0.0001), 0.01)`. */
  function SafeFogDensity(density: real): (r: real)
    ensures 0.0001 <= r <= 0.01
    ensures 0.0001 <= density <= 0.01 ==> r == density
    ensures density < 0.0001 ==> r == 0.0001
    ensures 0.01 < density ==> r == 0.01
  {
    Min(Max(density, 0.0001), 0.01)
  }

  /** Clamping twice is clamping once. */
  lemma SafeFogDensityIdempotent(density: real)
    ensures SafeFogDensity(SafeFogDensity(density)) == SafeFogDensity(density)
  {
    var once := SafeFogDensity(density);
    assert 0.0001 <= once <= 0.01;
  }

  /** `Math.min(elapsedSeconds / animationDuration, 1)`. */
  function CameraProgress(now: real, start: real, duration: real): (p: real)
    requires 0.0 < duration
    ensures p <= 1.0
    ensures start <= now ==> 0.0 <= p
    ensures (now - start) / 1000.0 < duration ==> p == (now - start) / 1000.0 / duration && p < 1.0
  {
    var elapsed := (now - start) / 1000.0;
    QuotientAgainstOne(elapsed, duration);
    Min(elapsed / duration, 1.0)
  }

  lemma QuotientAgainstOne(e: real, d: real)
    requires 0.0 < d
    ensures e < d ==> e / d < 1.0
    ensures d <= e ==> 1.0 <= e / d
    ensures 0.0 <= e ==> 0.0 <= e / d
  {
    assert e / d * d == e;
  }

  /** The look-at parameter `Math.min(progress + 0.05, 1)` lies between the progress and 1. */
  function LookAhead(progress: real): (r: real)
    ensures r <= 1.0
    ensures progress <= 1.0 ==> progress <= r
    ensures r <= progress + 0.05
  {
    Min(progress + 0.05, 1.0)
  }

  /** The stomach tunnel caps a frame at a tenth of a second. */
  const StomachFrameCap: real := 0.1
}
