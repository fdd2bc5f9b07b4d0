/**
 * `move`, the per-frame particle step of the three curl-noise variants.
 * The particle state lives in parallel JavaScript arrays: `particles`,
 * `positions` and `velocities` hold three numbers per particle, `times`,
 * `lifetimes` and `alphas` one.  For each of the first `particleCount`
 * particles, `move` reads the curl at the particle, overwrites its
 * velocity with curl, confinement force and forward flow, advances its
 * position, ages it, and respawns it on a ring around the path when it
 * strays, leaves the tunnel or outlives its lifetime.
 *
 * `Step` is the effect on one particle; `CurlNoiseSystem.Move` runs the
 * loop over the arrays and is proved to apply `Step` to every particle.
 */
module Particles {
  import opened Common
  import Curl
  import Tunnel
  import Ulcers
  import Visibility

  /** The scroll-driven build, the source build, and the Webflow embed. */
  datatype Variant = ScrollDriven | SourceBuild | WebflowEmbed

  /** The settings `move` reads. */
  datatype MoveSettings = MoveSettings(
    tunnelRadius: real,
    depth: real,
    tunnelForceStrength: real,
    flowSpeed: real,
    spiralFactor: real,
    speed: real,
    step: real,
    oldMethod: bool,
    particleCount: nat)

  /** The oracles: `Math`, the tunnel's Catmull-Rom path, and the noise field behind `computeCurl`. */
  datatype Env = Env(math: MathLib, path: Curve, noise: Curl.Field)

  /** One particle's slots across the six arrays. */
  datatype Particle = Particle(pos: Vec3, home: Vec3, vel: Vec3, time: real, lifetime: real, alpha: real)

  /**
   * The `Math.random()` values one respawn draws, in the order it draws
   * them: path parameter, angle, radius and (scroll-driven build only)
   * lifetime.
   */
  datatype Draws = Draws(path: real, theta: real, radius: real, lifetime: real)

  predicate ValidDraws(d: Draws)
  {
    0.0 <= d.path < 1.0 && 0.0 <= d.theta < 1.0 && 0.0 <= d.radius < 1.0 && 0.0 <= d.lifetime < 1.0
  }

  /** What `move` requires of its inputs beyond the oracles: nothing divides by zero. */
  predicate Sane(st: MoveSettings)
  {
    st.step != 0.0 && st.depth != 0.0
  }

  /** The vector `move` substitutes when a curl component is NaN. */
  function Fallback(v: Variant): Vec3
  {
    if v == ScrollDriven then Vec3(0.0, 0.0, 1.0) else Vec3(1.0, 0.0, 0.0)
  }

  /** `computeCurl` of the variant at the particle's position divided by `step`. */
  function CurlAt(v: Variant, st: MoveSettings, env: Env, pos: Vec3): Curl.CurlValue
    requires IsSqrt(env.math.sqrt) && st.step != 0.0
  {
    var (x, y, z) := (pos.x / st.step, pos.y / st.step, pos.z / st.step);
    match v
    case ScrollDriven => Curl.CurlGuarded(env.noise, env.math.sqrt, st.oldMethod, x, y, z)
    case SourceBuild => Curl.CurlUnguarded(env.noise, env.math.sqrt, st.oldMethod, x, y, z)
    case WebflowEmbed => Curl.CurlWebflow(env.noise, st.oldMethod, x, y, z)
  }

  /** The path parameter read from the depth: kept off the ends in the scroll-driven build. */
  function PathParam(v: Variant, st: MoveSettings, pos: Vec3): (u: real)
    requires st.depth != 0.0
    ensures 0.0 <= u <= 1.0
    ensures v == ScrollDriven ==> 0.001 <= u <= 0.999
  {
    if v == ScrollDriven then Tunnel.DepthProgress(pos.z, st.depth, 0.001, 0.999)
    else Tunnel.DepthProgress(pos.z, st.depth, 0.0, 1.0)
  }

  function BandsOf(v: Variant): Tunnel.Bands
  {
    if v == ScrollDriven then Tunnel.DistBands else Tunnel.SrcBands
  }

  /**
   * The forward flow: along the path tangent in the scroll-driven build,
   * straight down the z axis in the others.
   */
  function Flow(v: Variant, st: MoveSettings, env: Env, u: real): Vec3
  {
    if v == ScrollDriven then Scale(env.path.tangentAt(u), st.flowSpeed * 5.0)
    else Vec3(0.0, 0.0, st.flowSpeed * 5.0)
  }

  /** The velocity `move` writes: half the curl times `speed`, plus confinement force, plus flow. */
  function Velocity(v: Variant, st: MoveSettings, env: Env, pos: Vec3): Vec3
    requires IsSqrt(env.math.sqrt) && Sane(st)
  {
    var curl := Curl.UsableCurl(CurlAt(v, st, env, pos), Fallback(v));
    var u := PathParam(v, st, pos);
    var toCenter := Sub(env.path.pointAt(u), pos);
    var force := Tunnel.ConfinementForce(env.math.sqrt, BandsOf(v), toCenter, st.tunnelRadius, st.tunnelForceStrength, st.spiralFactor);
    Add(Add(Scale(curl, st.speed * 0.5), force), Flow(v, st, env, u))
  }

  /** The position change for velocity `vel`: scaled by `dT * 60` in the scroll-driven build only. */
  function Displacement(v: Variant, vel: Vec3, dT: real): Vec3
  {
    if v == ScrollDriven then Scale(vel, dT * 60.0) else vel
  }

  /** How many tunnel radii past either end a particle may go: two in the scroll-driven build, one in the others. */
  function EndMargin(v: Variant): real
  {
    if v == ScrollDriven then 2.0 else 1.0
  }

  /**
   * The respawn test after the move: `before` is the position the path
   * point was looked up from, `pos` and `time` the moved values.
   */
  predicate Respawns(v: Variant, st: MoveSettings, env: Env, before: Vec3, pos: Vec3, time: real, lifetime: real)
    requires IsSqrt(env.math.sqrt) && st.depth != 0.0
  {
    var pathPoint := env.path.pointAt(PathParam(v, st, before));
    Tunnel.ShouldRespawn(Length(env.math.sqrt, Sub(pos, pathPoint)), pos.z, st.tunnelRadius, st.depth, EndMargin(v), time, lifetime)
  }

  /** The path parameter a respawn picks: in `[0.1, 0.9)` for the scroll-driven build, `[0, 1)` otherwise. */
  function RespawnParam(v: Variant, d: Draws): (u: real)
    requires ValidDraws(d)
    ensures v == ScrollDriven ==> 0.1 <= u < 0.9
    ensures v != ScrollDriven ==> 0.0 <= u < 1.0
  {
    if v == ScrollDriven then d.path * 0.8 + 0.1 else d.path
  }

  /** `tunnelRadius * (0.7 + random * 0.3)`. */
  function RespawnRadius(r: real, draw: real): (radius: real)
    requires 0.0 <= draw < 1.0
    ensures 0.0 < r ==> 0.7 * r <= radius < r
  {
    if 0.0 < r then Tunnel.RespawnRadius(r, draw) else r * (0.7 + draw * 0.3)
  }

  /** `random * Math.PI * 2`: the angle round the ring. */
  function RespawnAngle(m: MathLib, d: Draws): real
  {
    d.theta * m.pi * 2.0
  }

  /** The respawn position: on the ring around the path point at the respawn parameter. */
  function RespawnPoint(v: Variant, st: MoveSettings, env: Env, d: Draws): Vec3
    requires IsSqrt(env.math.sqrt) && ValidDraws(d)
  {
    var u := RespawnParam(v, d);
    Tunnel.RingPoint(env.math, env.path, u, RespawnRadius(st.tunnelRadius, d.radius), RespawnAngle(env.math, d))
  }

  /**
   * The slots after a respawn.  The scroll-driven build resets position,
   * home, velocity, time, lifetime and alpha; the others reset position,
   * home and time only, keeping the velocity just computed.
   */
  function Respawned(v: Variant, st: MoveSettings, env: Env, moved: Particle, d: Draws): Particle
    requires IsSqrt(env.math.sqrt) && ValidDraws(d)
  {
    var p := RespawnPoint(v, st, env, d);
    if v == ScrollDriven then
      Particle(p, p, Vec3(0.0, 0.0, st.flowSpeed * 2.0), 0.0, 2.0 + d.lifetime * 2.0, 0.0)
    else
      moved.(pos := p, home := p, time := 0.0)
  }

  /** The particle after the first half of the iteration: velocity `vel` written, position moved, time advanced. */
  function Advanced(v: Variant, p: Particle, vel: Vec3, dT: real): Particle
  {
    p.(pos := Add(p.pos, Displacement(v, vel, dT)), vel := vel, time := p.time + dT)
  }

  /** One iteration of `move` once the new velocity `vel` is known: advance, then respawn if the test says so. */
  function StepWith(v: Variant, st: MoveSettings, env: Env, dT: real, p: Particle, d: Draws, vel: Vec3): Particle
    requires IsSqrt(env.math.sqrt) && Sane(st) && ValidDraws(d)
  {
    var moved := Advanced(v, p, vel, dT);
    if Respawns(v, st, env, p.pos, moved.pos, moved.time, p.lifetime) then Respawned(v, st, env, moved, d)
    else moved
  }

  /** The effect of one iteration of `move` on one particle. */
  function Step(v: Variant, st: MoveSettings, env: Env, dT: real, p: Particle, d: Draws): Particle
    requires IsSqrt(env.math.sqrt) && Sane(st) && ValidDraws(d)
  {
    StepWith(v, st, env, dT, p, d, Velocity(v, st, env, p.pos))
  }

  // Properties of one step.

  /**
   * A particle that is not respawned moves by its new velocity (scaled by
   * `dT * 60` in the scroll-driven build), ages by `dT`, and keeps its home,
   * lifetime and alpha.
   */
  lemma SurvivorAdvances(v: Variant, st: MoveSettings, env: Env, dT: real, p: Particle, d: Draws)
    requires IsSqrt(env.math.sqrt) && Sane(st) && ValidDraws(d)
    requires !Respawns(v, st, env, p.pos, Add(p.pos, Displacement(v, Velocity(v, st, env, p.pos), dT)), p.time + dT, p.lifetime)
    ensures var q := Step(v, st, env, dT, p, d);
            q.vel == Velocity(v, st, env, p.pos) &&
            q.pos == Add(p.pos, if v == ScrollDriven then Scale(q.vel, dT * 60.0) else q.vel) &&
            q.time == p.time + dT && q.home == p.home && q.lifetime == p.lifetime && q.alpha == p.alpha
  {
    SurvivorAdvancesWith(v, st, env, dT, p, d, Velocity(v, st, env, p.pos));
  }

  /**
   * One iteration keeps the moved particle exactly when it lies within twice
   * the tunnel radius of the path point looked up before the move, within
   * `EndMargin(v)` radii of either end, and within its lifetime; otherwise
   * it respawns.
   */
  lemma StepRespawnsExactlyOutsideBounds(v: Variant, st: MoveSettings, env: Env, dT: real, p: Particle, d: Draws)
    requires IsSqrt(env.math.sqrt) && Sane(st) && ValidDraws(d)
    ensures var moved := Advanced(v, p, Velocity(v, st, env, p.pos), dT);
            var dist := Length(env.math.sqrt, Sub(moved.pos, env.path.pointAt(PathParam(v, st, p.pos))));
            var margin := EndMargin(v) * st.tunnelRadius;
            var inside := dist <= 2.0 * st.tunnelRadius && -st.depth / 2.0 - margin <= moved.pos.z <= st.depth / 2.0 + margin &&
                          moved.time <= moved.lifetime;
            Step(v, st, env, dT, p, d) == if inside then moved else Respawned(v, st, env, moved, d)
  {}

  /** `SurvivorAdvances` for any velocity the first half of the iteration writes. */
  lemma SurvivorAdvancesWith(v: Variant, st: MoveSettings, env: Env, dT: real, p: Particle, d: Draws, vel: Vec3)
    requires IsSqrt(env.math.sqrt) && Sane(st) && ValidDraws(d)
    requires !Respawns(v, st, env, p.pos, Add(p.pos, Displacement(v, vel, dT)), p.time + dT, p.lifetime)
    ensures var q := StepWith(v, st, env, dT, p, d, vel);
            q.vel == vel && q.pos == Add(p.pos, if v == ScrollDriven then Scale(vel, dT * 60.0) else vel) &&
            q.time == p.time + dT && q.home == p.home && q.lifetime == p.lifetime && q.alpha == p.alpha
  {}

  /**
   * The scroll-driven respawn: time and alpha go to zero, the velocity to
   * `(0, 0, 2 flowSpeed)`, the lifetime into `[2, 4)`, and the particle
   * lands at its home, at distance exactly `radius` in `[0.7 R, R)` from
   * the path point of a parameter in `[0.1, 0.9)`, square to the path.
   */
  lemma ScrollDrivenRespawnResets(st: MoveSettings, env: Env, dT: real, p: Particle, d: Draws)
    requires ValidMath(env.math) && Sane(st) && ValidDraws(d) && 0.0 < st.tunnelRadius
    requires var vel := Velocity(ScrollDriven, st, env, p.pos);
             Respawns(ScrollDriven, st, env, p.pos, Add(p.pos, Displacement(ScrollDriven, vel, dT)), p.time + dT, p.lifetime)
    requires env.path.tangentAt(RespawnParam(ScrollDriven, d)) != Zero
    ensures var q := Step(ScrollDriven, st, env, dT, p, d);
            var u := RespawnParam(ScrollDriven, d);
            var radius := RespawnRadius(st.tunnelRadius, d.radius);
            q.time == 0.0 && q.alpha == 0.0 && q.vel == Vec3(0.0, 0.0, 2.0 * st.flowSpeed) &&
            2.0 <= q.lifetime < 4.0 && q.home == q.pos &&
            0.1 <= u < 0.9 && 0.7 * st.tunnelRadius <= radius < st.tunnelRadius &&
            NormSq(Sub(q.pos, env.path.pointAt(u))) == Sq(radius) &&
            Dot(Sub(q.pos, env.path.pointAt(u)), Normalize(env.math.sqrt, env.path.tangentAt(u))) == 0.0
  {
    RespawnOnRing(ScrollDriven, st, env, d);
  }

  /**
   * The respawn of the source build and the Webflow embed resets only the
   * time (and the position and home): the velocity just computed, the
   * lifetime and the alpha survive.
   */
  lemma OtherRespawnKeepsLifetimeAndAlpha(v: Variant, st: MoveSettings, env: Env, dT: real, p: Particle, d: Draws)
    requires v != ScrollDriven
    requires IsSqrt(env.math.sqrt) && Sane(st) && ValidDraws(d)
    requires var vel := Velocity(v, st, env, p.pos);
             Respawns(v, st, env, p.pos, Add(p.pos, Displacement(v, vel, dT)), p.time + dT, p.lifetime)
    ensures var q := Step(v, st, env, dT, p, d);
            q.time == 0.0 && q.lifetime == p.lifetime && q.alpha == p.alpha &&
            q.vel == Velocity(v, st, env, p.pos) && q.home == q.pos &&
            q.pos == RespawnPoint(v, st, env, d)
  {}

  /**
   * A respawned particle lands at distance exactly the drawn radius from
   * the path point of the respawn parameter, square to the path.
   */
  lemma RespawnOnRing(v: Variant, st: MoveSettings, env: Env, d: Draws)
    requires ValidMath(env.math) && ValidDraws(d)
    requires env.path.tangentAt(RespawnParam(v, d)) != Zero
    ensures var u := RespawnParam(v, d);
            var offset := Sub(RespawnPoint(v, st, env, d), env.path.pointAt(u));
            NormSq(offset) == Sq(RespawnRadius(st.tunnelRadius, d.radius)) &&
            Dot(offset, Normalize(env.math.sqrt, env.path.tangentAt(u))) == 0.0
  {
    Tunnel.RingPointOnCircle(env.math, env.path, RespawnParam(v, d), RespawnRadius(st.tunnelRadius, d.radius), RespawnAngle(env.math, d));
  }

  /**
   * Velocity is overwritten, not accumulated: the step does not depend on
   * the velocity the particle had.
   */
  lemma VelocityIsOverwritten(v: Variant, st: MoveSettings, env: Env, dT: real, p: Particle, d: Draws, oldVel: Vec3)
    requires IsSqrt(env.math.sqrt) && Sane(st) && ValidDraws(d)
    ensures Step(v, st, env, dT, p.(vel := oldVel), d) == Step(v, st, env, dT, p, d)
  {
    assert p.(vel := oldVel).pos == p.pos;
    StepWithOverwritesVelocity(v, st, env, dT, p, d, Velocity(v, st, env, p.pos), oldVel);
  }

  /** `VelocityIsOverwritten` for any velocity the first half of the iteration writes. */
  lemma StepWithOverwritesVelocity(v: Variant, st: MoveSettings, env: Env, dT: real, p: Particle, d: Draws, vel: Vec3, oldVel: Vec3)
    requires IsSqrt(env.math.sqrt) && Sane(st) && ValidDraws(d)
    ensures StepWith(v, st, env, dT, p.(vel := oldVel), d, vel) == StepWith(v, st, env, dT, p, d, vel)
  {
    assert Advanced(v, p.(vel := oldVel), vel, dT) == Advanced(v, p, vel, dT);
  }

  /**
   * The Webflow embed's `oldMethod` mode drives every particle with the
   * fallback `(1, 0, 0)` scaled by `speed / 2`.
   */
  lemma WebflowOldMethodUsesFallback(st: MoveSettings, env: Env, pos: Vec3)
    requires IsSqrt(env.math.sqrt) && Sane(st) && st.oldMethod
    ensures Curl.UsableCurl(CurlAt(WebflowEmbed, st, env, pos), Fallback(WebflowEmbed)) == Vec3(1.0, 0.0, 0.0)
  {}

  /** The scroll-driven build's curl is always a number of unit length or zero: its fallback `(0, 0, 1)` never fires. */
  lemma ScrollDrivenCurlNeverFallsBack(st: MoveSettings, env: Env, pos: Vec3)
    requires IsSqrt(env.math.sqrt) && Sane(st)
    ensures CurlAt(ScrollDriven, st, env, pos).Components?
    ensures var c := Curl.UsableCurl(CurlAt(ScrollDriven, st, env, pos), Fallback(ScrollDriven));
            c == Zero || NormSq(c) == 1.0
  {
    var (x, y, z) := (pos.x / st.step, pos.y / st.step, pos.z / st.step);
    assert CurlAt(ScrollDriven, st, env, pos) == Curl.CurlGuarded(env.noise, env.math.sqrt, st.oldMethod, x, y, z);
    Curl.GuardedIsUnitOrZero(env.noise, env.math.sqrt, st.oldMethod, x, y, z);
  }

  /**
   * The particle arrays of one system.  `variant` fixes which build's
   * `move` runs; the arrays are reassigned element by element.
   */
  class CurlNoiseSystem {
    const variant: Variant
    var particles: seq<real>
    var positions: seq<real>
    var velocities: seq<real>
    var times: seq<real>
    var lifetimes: seq<real>
    var alphas: seq<real>

    ghost predicate Valid()
      reads this
    {
      |particles| == 3 * |times| && |positions| == |particles| && |velocities| == |particles| &&
      |lifetimes| == |times| && |alphas| == |times|
    }

    function Count(): nat
      reads this
    {
      |times|
    }

    /** Particle `k` read out of the six arrays. */
    function Get(k: nat): Particle
      reads this
      requires Valid() && k < Count()
    {
      Particle(At3(particles, k), At3(positions, k), At3(velocities, k), times[k], lifetimes[k], alphas[k])
    }

    constructor (variant: Variant, particles: seq<real>, velocities: seq<real>, lifetimes: seq<real>)
      requires |particles| == 3 * |lifetimes| && |velocities| == |particles|
      ensures Valid() && this.variant == variant && Count() == |lifetimes|
      ensures this.particles == particles && positions == particles && this.velocities == velocities
      ensures this.lifetimes == lifetimes
      ensures forall k :: 0 <= k < Count() ==> times[k] == 0.0 && alphas[k] == 0.0
    {
      this.variant := variant;
      this.particles := particles;
      this.positions := particles;
      this.velocities := velocities;
      this.times := seq(|lifetimes|, _ => 0.0);
      this.lifetimes := lifetimes;
      this.alphas := seq(|lifetimes|, _ => 0.0);
    }

    /** `move(dT)`: one `Step` for each of the first `particleCount` particles, in place. */
    method Move(st: MoveSettings, env: Env, dT: real, draws: seq<Draws>)
      requires Valid() && IsSqrt(env.math.sqrt) && Sane(st)
      requires st.particleCount <= Count() && |draws| == st.particleCount
      requires forall k :: 0 <= k < |draws| ==> ValidDraws(draws[k])
      modifies this
      ensures Valid() && Count() == old(Count())
      ensures forall k :: 0 <= k < st.particleCount ==> Get(k) == Step(variant, st, env, dT, old(Get(k)), draws[k])
      ensures forall k :: st.particleCount <= k < Count() ==> Get(k) == old(Get(k))
    {
      var n := 0;
      while n < st.particleCount
        invariant 0 <= n <= st.particleCount
        invariant Valid() && Count() == old(Count())
        invariant forall k :: 0 <= k < n ==> Get(k) == Step(variant, st, env, dT, old(Get(k)), draws[k])
        invariant forall k :: n <= k < Count() ==> Get(k) == old(Get(k))
      {
        MoveOne(n, st, env, dT, draws[n]);
        n := n + 1;
      }
    }

    /**
     * The body of `move`'s loop for particle `n`, whose components start at
     * `3 n`: the new velocity and the moved position are written first, and
     * the respawn then overwrites them.
     */
    method MoveOne(n: nat, st: MoveSettings, env: Env, dT: real, d: Draws)
      requires Valid() && IsSqrt(env.math.sqrt) && Sane(st) && ValidDraws(d)
      requires n < Count()
      modifies this
      ensures Valid() && Count() == old(Count())
      ensures Get(n) == Step(variant, st, env, dT, old(Get(n)), d)
      ensures forall k :: 0 <= k < Count() && k != n ==> Get(k) == old(Get(k))
    {
      var p := Get(n);
      var vel := Velocity(variant, st, env, p.pos);
      var moved := Advanced(variant, p, vel, dT);
      Put(n, moved);
      if Respawns(variant, st, env, p.pos, moved.pos, moved.time, p.lifetime) {
        Put(n, Respawned(variant, st, env, moved, d));
      }
    }

    /**
     * The source build's `updateParticleVisibility`: each of the first
     * `count` alphas is eased towards its fog opacity in front of the
     * camera, or decayed behind it.
     */
    method UpdateVisibilitySource(m: MathLib, view: Visibility.View, count: nat)
      requires Valid() && IsSqrt(m.sqrt) && count <= Count()
      modifies this`alphas
      ensures Valid() && Count() == old(Count())
      ensures forall k :: 0 <= k < count ==> alphas[k] == Visibility.SourceAlphaAt(m, view, At3(particles, k), old(alphas[k]))
      ensures forall k :: count <= k < Count() ==> alphas[k] == old(alphas[k])
    {
      var i := 0;
      while i < count
        invariant 0 <= i <= count && Valid()
        invariant forall k :: 0 <= k < i ==> alphas[k] == Visibility.SourceAlphaAt(m, view, At3(particles, k), old(alphas[k]))
        invariant forall k :: i <= k < Count() ==> alphas[k] == old(alphas[k])
      {
        alphas := alphas[i := Visibility.SourceAlphaAt(m, view, At3(particles, i), alphas[i])];
        i := i + 1;
      }
    }

    /**
     * The scroll-driven build's `updateParticleVisibility` for one particle
     * system: for the `j`-th of its original indices, the position is copied
     * into the group's position buffer, the alpha is eased towards the
     * target and clamped, and the tinted colour times the alpha goes into
     * the group's colour buffer.
     */
    method UpdateGroupVisibility(sqrt: real -> real, view: Visibility.View, indices: seq<nat>,
                                 groupPositions: array<real>, groupColors: array<real>)
      requires Valid() && IsSqrt(sqrt)
      requires forall j :: 0 <= j < |indices| ==> indices[j] < Count()
      requires forall j, k :: 0 <= j < k < |indices| ==> indices[j] != indices[k]
      requires groupPositions.Length == 3 * |indices| && groupColors.Length == 3 * |indices|
      requires groupPositions != groupColors
      modifies this`alphas, groupPositions, groupColors
      ensures Valid() && Count() == old(Count())
      ensures forall j :: 0 <= j < |indices| ==>
        alphas[indices[j]] == Visibility.SmoothAlpha(old(alphas[indices[j]]), Visibility.ScrollTarget(sqrt, view, At3(particles, indices[j])))
      ensures forall k :: 0 <= k < Count() && k !in indices ==> alphas[k] == old(alphas[k])
      ensures forall j :: 0 <= j < |indices| ==> At3(groupPositions[..], j) == At3(particles, indices[j])
      ensures forall j :: 0 <= j < |indices| ==>
        At3(groupColors[..], j) == Scale(GroupColor(sqrt, view, At3(particles, indices[j])), alphas[indices[j]])
    {
      var j := 0;
      while j < |indices|
        invariant 0 <= j <= |indices| && Valid()
        invariant forall i :: 0 <= i < j ==>
          alphas[indices[i]] == Visibility.SmoothAlpha(old(alphas[indices[i]]), Visibility.ScrollTarget(sqrt, view, At3(particles, indices[i])))
        invariant forall k :: 0 <= k < Count() && k !in indices[..j] ==> alphas[k] == old(alphas[k])
        invariant forall i :: 0 <= i < j ==> At3(groupPositions[..], i) == At3(particles, indices[i])
        invariant forall i :: 0 <= i < j ==>
          At3(groupColors[..], i) == Scale(GroupColor(sqrt, view, At3(particles, indices[i])), alphas[indices[i]])
      {
        ShowOne(sqrt, view, indices[j], j, groupPositions, groupColors);
        j := j + 1;
      }
    }

    /** One pass of the loop: particle `k`'s alpha eased, its position and shaded colour written to slot `j` of the group. */
    method ShowOne(sqrt: real -> real, view: Visibility.View, k: nat, j: nat, groupPositions: array<real>, groupColors: array<real>)
      requires Valid() && IsSqrt(sqrt) && k < Count()
      requires 3 * j + 2 < groupPositions.Length && 3 * j + 2 < groupColors.Length && groupPositions != groupColors
      modifies this`alphas, groupPositions, groupColors
      ensures Valid() && Count() == old(Count())
      ensures alphas == old(alphas)[k := Visibility.SmoothAlpha(old(alphas[k]), Visibility.ScrollTarget(sqrt, view, At3(particles, k)))]
      ensures At3(groupPositions[..], j) == At3(particles, k)
      ensures At3(groupColors[..], j) == Scale(GroupColor(sqrt, view, At3(particles, k)), alphas[k])
      ensures forall i: nat :: 3 * i + 2 < groupPositions.Length && i != j ==> At3(groupPositions[..], i) == At3(old(groupPositions[..]), i)
      ensures forall i: nat :: 3 * i + 2 < groupColors.Length && i != j ==> At3(groupColors[..], i) == At3(old(groupColors[..]), i)
    {
      var pos := At3(particles, k);
      var alpha := Visibility.SmoothAlpha(alphas[k], Visibility.ScrollTarget(sqrt, view, pos));
      alphas := alphas[k := alpha];
      var color := TintOf(sqrt, view, pos);
      WriteTriple(groupPositions, j, pos);
      WriteTriple(groupColors, j, Scale(color, alpha));
    }

    /** Writes particle `k`'s slots in all six arrays. */
    method Put(k: nat, q: Particle)
      requires Valid() && k < Count()
      modifies this
      ensures Valid() && Count() == old(Count())
      ensures Get(k) == q
      ensures forall j :: 0 <= j < Count() && j != k ==> Get(j) == old(Get(j))
    {
      particles := Put3(particles, k, q.pos);
      positions := Put3(positions, k, q.home);
      velocities := Put3(velocities, k, q.vel);
      times := times[k := q.time];
      lifetimes := lifetimes[k := q.lifetime];
      alphas := alphas[k := q.alpha];
    }
  }

  /** The tinted colour of a particle at `pos` in the scroll-driven build. */
  function GroupColor(sqrt: real -> real, view: Visibility.View, pos: Vec3): Vec3
    requires IsSqrt(sqrt)
  {
    Visibility.TintedColor(sqrt, pos, view.baseColor, view.enableUlcers, view.ulcers, view.ulcerIntensity)
  }

  /** The colour search: the base colour, or the tint of the first ulcer found by the `break` loop. */
  method TintOf(sqrt: real -> real, view: Visibility.View, pos: Vec3) returns (color: Vec3)
    requires IsSqrt(sqrt)
    ensures color == GroupColor(sqrt, view, pos)
  {
    color := view.baseColor;
    if view.enableUlcers && |view.ulcers| > 0 {
      var k := Ulcers.FindCovering(sqrt, pos, view.ulcers);
      if k.Some? {
        color := Visibility.UlcerTint(sqrt, pos, view.ulcers[k.value], view.ulcerIntensity);
      }
    }
  }

  /** `a[3j] = v.x; a[3j+1] = v.y; a[3j+2] = v.z` on a geometry buffer. */
  method WriteTriple(a: array<real>, j: nat, v: Vec3)
    requires 3 * j + 2 < a.Length
    modifies a
    ensures At3(a[..], j) == v
    ensures forall i: nat :: 3 * i + 2 < a.Length && i != j ==> At3(a[..], i) == At3(old(a[..]), i)
  {
    a[3 * j] := v.x;
    a[3 * j + 1] := v.y;
    a[3 * j + 2] := v.z;
  }
}
