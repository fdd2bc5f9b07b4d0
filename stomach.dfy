/**
 * The stomach tunnel's particle system: the buffers `initParticles`
 * fills, and the methods that rewrite them in place each frame, on a
 * camera loop, on a partial reset and on a runtime colour change.  Each
 * method is proved against the specification functions of module
 * `StomachPlan`.
 */
module Stomach {
  import opened Common
  import opened StomachPlan
  import Camera
  import Curl

  /** Slot `k` of a set of buffers: components `3k .. 3k+2` of the vector buffers, index `k` of the others. */
  function SlotAt(positions: seq<real>, sizes: seq<real>, colors: seq<real>, alphas: seq<real>, velocities: seq<Vec3>,
                  lifetimes: seq<real>, types: seq<int>, assignments: seq<int>, k: nat): Slot
    requires 3 * k + 2 < |positions| && 3 * k + 2 < |colors| && k < |sizes| && k < |alphas|
    requires k < |velocities| && k < |lifetimes| && k < |types| && k < |assignments|
  {
    Slot(At3(positions, k), sizes[k], At3(colors, k), velocities[k], lifetimes[k], alphas[k], types[k], assignments[k])
  }

  /**
   * Filling slot `k` while the velocity and lifetime lists are `k` long
   * stores `q` there and leaves every earlier slot as it was.
   */
  lemma SlotAtPush(positions: seq<real>, sizes: seq<real>, colors: seq<real>, alphas: seq<real>, velocities: seq<Vec3>,
                   lifetimes: seq<real>, types: seq<int>, assignments: seq<int>, newTypes: seq<int>, newAssignments: seq<int>,
                   n: nat, k: nat, q: Slot)
    requires |positions| == 3 * n && |colors| == 3 * n && |sizes| == n && |alphas| == n
    requires |velocities| == k && |lifetimes| == k && |types| == n && |assignments| == n && k < n
    requires |newTypes| == n && |newAssignments| == n && newTypes[k] == q.kind && newAssignments[k] == q.assignment
    requires forall j :: 0 <= j < k ==> newTypes[j] == types[j] && newAssignments[j] == assignments[j]
    ensures SlotAt(Put3(positions, k, q.pos), sizes[k := q.size], Put3(colors, k, q.color), alphas[k := q.alpha],
                   velocities + [q.vel], lifetimes + [q.lifetime], newTypes, newAssignments, k) == q
    ensures forall j :: 0 <= j < k ==>
              SlotAt(Put3(positions, k, q.pos), sizes[k := q.size], Put3(colors, k, q.color), alphas[k := q.alpha],
                     velocities + [q.vel], lifetimes + [q.lifetime], newTypes, newAssignments, j) ==
              SlotAt(positions, sizes, colors, alphas, velocities, lifetimes, types, assignments, j)
  {}

  /**
   * The `StomachTunnelAnimation` object's particle state.  The typed
   * arrays are fields of type `seq` that the methods reassign element by
   * element; slot `k` owns `positions[3k..3k+3]`, `colors[3k..3k+3]` and
   * index `k` of every other array.  Each method names in its `modifies`
   * clause exactly the fields the source writes.
   */
  class StomachTunnel {
    var settings: StomachSettings
    var ulcers: seq<StomachUlcer>
    var positions: seq<real>
    var sizes: seq<real>
    var colors: seq<real>
    var alphas: seq<real>
    var velocities: seq<Vec3>
    var lifetimes: seq<real>
    var particleTypes: seq<int>
    var ulcerAssignments: seq<int>
    var progress: real
    var startTime: Option<real>
    var time: real
    var lastFrame: real
    var lastPartialReset: real

    /** The fixed-size buffers have room for `particleCount` slots. */
    ghost predicate Shaped()
      reads this
    {
      var n := settings.particleCount;
      |positions| == 3 * n && |colors| == 3 * n && |sizes| == n && |alphas| == n &&
      |particleTypes| == n && |ulcerAssignments| == n
    }

    /** Every slot is filled: the growing `velocities` and `lifetimes` lists have reached the count too. */
    ghost predicate Valid()
      reads this
    {
      Shaped() && |velocities| == settings.particleCount && |lifetimes| == settings.particleCount
    }

    /** Slot `k` read out of the arrays. */
    function Get(k: nat): Slot
      reads this
      requires Shaped() && k < settings.particleCount && k < |velocities| && k < |lifetimes|
    {
      SlotAt(positions, sizes, colors, alphas, velocities, lifetimes, particleTypes, ulcerAssignments, k)
    }

    /** All slots. */
    ghost function Slots(): (r: seq<Slot>)
      reads this
      requires Valid()
      ensures |r| == settings.particleCount
      ensures forall k :: 0 <= k < |r| ==> r[k] == Get(k)
    {
      seq(settings.particleCount, k requires 0 <= k < settings.particleCount && Valid() reads this => Get(k))
    }

    /**
     * `new StomachTunnelAnimation(options)` followed by the core of `init()`:
     * the settings are stored and the clocks start at `now`, then `init()`
     * runs `generateUlcers` and `initParticles`.
     */
    constructor (s: StomachSettings, m: MathLib, path: Curve, disc: DiscPlacement,
                 ulcerDraws: seq<StomachUlcerDraws>, draws: nat -> SlotDraws, now: real)
      requires IsSqrt(m.sqrt) && |ulcerDraws| == s.ulcerCount
      requires forall i :: 0 <= i < |ulcerDraws| ==> ValidStomachUlcerDraws(ulcerDraws[i])
      ensures Valid() && settings == s && progress == 0.0 && startTime == None
      ensures time == 0.0 && lastFrame == now && lastPartialReset == now
      ensures |ulcers| == s.ulcerCount
      ensures forall i :: 0 <= i < |ulcers| ==> ulcers[i] == MakeStomachUlcer(m, path, s, i, ulcerDraws[i])
      ensures forall k :: 0 <= k < s.particleCount ==> Get(k) == PlannedSlot(m, path, disc, s, ulcers, k, draws(k))
    {
      settings := s;
      progress := 0.0;
      startTime := None;
      lastFrame := now;
      time := 0.0;
      lastPartialReset := now;
      ulcers := [];
      positions, sizes, colors, alphas := [], [], [], [];
      velocities, lifetimes, particleTypes, ulcerAssignments := [], [], [], [];
      new;
      GenerateUlcers(m, path, ulcerDraws);
      InitParticles(m, path, disc, draws);
    }

    /** `generateUlcers`: ulcer `i` made from draws `i`, whether or not ulcers are enabled. */
    method GenerateUlcers(m: MathLib, path: Curve, draws: seq<StomachUlcerDraws>)
      requires IsSqrt(m.sqrt) && |draws| == settings.ulcerCount
      requires forall i :: 0 <= i < |draws| ==> ValidStomachUlcerDraws(draws[i])
      modifies this`ulcers
      ensures |ulcers| == settings.ulcerCount
      ensures forall i :: 0 <= i < |ulcers| ==> ulcers[i] == MakeStomachUlcer(m, path, settings, i, draws[i])
    {
      var generated := [];
      var i := 0;
      while i < settings.ulcerCount
        invariant i <= settings.ulcerCount && |generated| == i
        invariant forall j :: 0 <= j < i ==> generated[j] == MakeStomachUlcer(m, path, settings, j, draws[j])
      {
        generated := generated + [MakeStomachUlcer(m, path, settings, i, draws[i])];
        i := i + 1;
      }
      ulcers := generated;
    }

    /**
     * `initParticles`: fresh zeroed buffers, every slot type 0 and
     * unassigned, then the wall rings, the ulcer discs (when enabled) and
     * the scattered fill, each slot written once as `PlannedSlot` says.
     */
    method InitParticles(m: MathLib, path: Curve, disc: DiscPlacement, draws: nat -> SlotDraws)
      modifies this`positions, this`sizes, this`colors, this`alphas, this`velocities, this`lifetimes
      modifies this`particleTypes, this`ulcerAssignments
      ensures Valid()
      ensures forall k :: 0 <= k < settings.particleCount ==> Get(k) == PlannedSlot(m, path, disc, settings, ulcers, k, draws(k))
    {
      var n := settings.particleCount;
      positions := seq(3 * n, _ => 0.0);
      sizes := seq(n, _ => 0.0);
      colors := seq(3 * n, _ => 0.0);
      alphas := seq(n, _ => 0.0);
      velocities := [];
      lifetimes := [];
      particleTypes := seq(n, _ => 0);
      ulcerAssignments := seq(n, _ => -1);
      var particleIndex := WallPass(m, path, disc, draws);
      particleIndex := UlcerPass(m, path, disc, draws, particleIndex);
      FillPass(m, path, disc, draws, particleIndex);
    }

    /**
     * `initParticles` part way: slots below `k` hold their planned values
     * and the slots above still hold the initial type 0 and assignment -1.
     */
    ghost predicate Building(m: MathLib, path: Curve, disc: DiscPlacement, draws: nat -> SlotDraws, k: nat)
      reads this
    {
      Shaped() && k <= settings.particleCount && |velocities| == k && |lifetimes| == k &&
      (forall j :: 0 <= j < k ==> Get(j) == PlannedSlot(m, path, disc, settings, ulcers, j, draws(j))) &&
      (forall j :: k <= j < settings.particleCount ==> particleTypes[j] == 0 && ulcerAssignments[j] == -1)
    }

    /** The wall rings of `initParticles`: `t = 0, 0.01, …`, twenty slots round each, until the count is reached. */
    method WallPass(m: MathLib, path: Curve, disc: DiscPlacement, draws: nat -> SlotDraws) returns (particleIndex: nat)
      requires Building(m, path, disc, draws, 0)
      modifies this`positions, this`sizes, this`colors, this`alphas, this`velocities, this`lifetimes
      modifies this`particleTypes, this`ulcerAssignments
      ensures particleIndex == WallSlots(settings.particleCount) && Building(m, path, disc, draws, particleIndex)
    {
      var n := settings.particleCount;
      particleIndex := 0;
      var section := 0;
      while section < WallSections
        invariant section <= WallSections && particleIndex == MinNat(n, section * ParticlesPerSection)
        invariant Building(m, path, disc, draws, particleIndex)
      {
        var pathPoint := path.point(WallT(section));
        var i := 0;
        while i < ParticlesPerSection
          invariant i <= ParticlesPerSection && particleIndex == MinNat(n, section * ParticlesPerSection + i)
          invariant Building(m, path, disc, draws, particleIndex)
        {
          if particleIndex >= n {
            break;
          }
          var d := draws(particleIndex);
          var q := PlainSlot(CirclePoint(m, pathPoint, RingAngle(m, i), WallRadius(settings, d)), settings, d);
          WallPhase(particleIndex, n, settings.enableUlcers, |ulcers|, section, i);
          PlacePlanned(m, path, disc, draws, particleIndex, q);
          particleIndex := particleIndex + 1;
          i := i + 1;
        }
        section := section + 1;
      }
    }

    /** The ulcer discs of `initParticles`: `particlesPerUlcer` slots for each ulcer in turn, when ulcers are enabled. */
    method UlcerPass(m: MathLib, path: Curve, disc: DiscPlacement, draws: nat -> SlotDraws, start: nat) returns (particleIndex: nat)
      requires start == WallSlots(settings.particleCount) && Building(m, path, disc, draws, start)
      modifies this`positions, this`sizes, this`colors, this`alphas, this`velocities, this`lifetimes
      modifies this`particleTypes, this`ulcerAssignments
      ensures particleIndex == UlcerSlotsEnd(settings.particleCount, settings.enableUlcers, |ulcers|)
      ensures Building(m, path, disc, draws, particleIndex)
    {
      var n := settings.particleCount;
      particleIndex := start;
      if settings.enableUlcers && |ulcers| > 0 {
        var perUlcer := PerUlcer(n, |ulcers|);
        var u := 0;
        while u < |ulcers|
          invariant u <= |ulcers| && particleIndex == MinNat(n, start + u * perUlcer)
          invariant Building(m, path, disc, draws, particleIndex)
        {
          var i := 0;
          while i < perUlcer
            invariant i <= perUlcer && particleIndex == MinNat(n, start + u * perUlcer + i)
            invariant Building(m, path, disc, draws, particleIndex)
          {
            if particleIndex >= n {
              break;
            }
            var q := UlcerSlot(disc, settings, ulcers, u, draws(particleIndex));
            UlcerPhase(particleIndex, n, |ulcers|, u, i);
            PlacePlanned(m, path, disc, draws, particleIndex, q);
            particleIndex := particleIndex + 1;
            i := i + 1;
          }
          assert (u + 1) * perUlcer == u * perUlcer + perUlcer;
          u := u + 1;
        }
      }
    }

    /** The scattered fill of `initParticles`: the remaining slots at random places on the wall. */
    method FillPass(m: MathLib, path: Curve, disc: DiscPlacement, draws: nat -> SlotDraws, start: nat)
      requires start == UlcerSlotsEnd(settings.particleCount, settings.enableUlcers, |ulcers|)
      requires Building(m, path, disc, draws, start)
      modifies this`positions, this`sizes, this`colors, this`alphas, this`velocities, this`lifetimes
      modifies this`particleTypes, this`ulcerAssignments
      ensures Valid()
      ensures forall k :: 0 <= k < settings.particleCount ==> Get(k) == PlannedSlot(m, path, disc, settings, ulcers, k, draws(k))
    {
      var particleIndex := start;
      while particleIndex < settings.particleCount
        invariant start <= particleIndex <= settings.particleCount
        invariant Building(m, path, disc, draws, particleIndex)
      {
        var d := draws(particleIndex);
        PlacePlanned(m, path, disc, draws, particleIndex, PlainSlot(ScatterPoint(m, path, settings, d), settings, d));
        particleIndex := particleIndex + 1;
      }
    }

    /** One slot of `initParticles` written as planned. */
    method PlacePlanned(m: MathLib, path: Curve, disc: DiscPlacement, draws: nat -> SlotDraws, k: nat, q: Slot)
      requires Building(m, path, disc, draws, k) && k < settings.particleCount
      requires q == PlannedSlot(m, path, disc, settings, ulcers, k, draws(k))
      modifies this`positions, this`sizes, this`colors, this`alphas, this`velocities, this`lifetimes
      modifies this`particleTypes, this`ulcerAssignments
      ensures Building(m, path, disc, draws, k + 1)
    {
      PlannedKindsAgree(m, path, disc, settings, ulcers, k, draws(k));
      var types, assignments := particleTypes, ulcerAssignments;
      if q.kind == 1 {
        types, assignments := types[k := 1], assignments[k := q.assignment];
      }
      SlotAtPush(positions, sizes, colors, alphas, velocities, lifetimes, particleTypes, ulcerAssignments,
                 types, assignments, settings.particleCount, k, q);
      Place(k, q);
    }

    /**
     * One slot of `initParticles`: position, size, colour and alpha are
     * written, velocity and lifetime pushed, and only an ulcer particle
     * marks its type and assignment.
     */
    method Place(k: nat, q: Slot)
      requires Shaped() && k < settings.particleCount && |velocities| == k && |lifetimes| == k
      modifies this`positions, this`sizes, this`colors, this`alphas, this`velocities, this`lifetimes
      modifies this`particleTypes, this`ulcerAssignments
      ensures positions == Put3(old(positions), k, q.pos) && colors == Put3(old(colors), k, q.color)
      ensures sizes == old(sizes)[k := q.size] && alphas == old(alphas)[k := q.alpha]
      ensures velocities == old(velocities) + [q.vel] && lifetimes == old(lifetimes) + [q.lifetime]
      ensures q.kind == 1 ==> particleTypes == old(particleTypes)[k := 1] && ulcerAssignments == old(ulcerAssignments)[k := q.assignment]
      ensures q.kind != 1 ==> particleTypes == old(particleTypes) && ulcerAssignments == old(ulcerAssignments)
    {
      positions, sizes, colors := Put3(positions, k, q.pos), sizes[k := q.size], Put3(colors, k, q.color);
      velocities, lifetimes, alphas := velocities + [q.vel], lifetimes + [q.lifetime], alphas[k := q.alpha];
      if q.kind == 1 {
        particleTypes, ulcerAssignments := particleTypes[k := 1], ulcerAssignments[k := q.assignment];
      }
    }

    /**
     * `resetParticles`: every slot reset in place, ulcer particles back
     * into their ulcer's disc and wall particles to a new scattered place.
     */
    method ResetParticles(m: MathLib, path: Curve, disc: DiscPlacement, draws: nat -> SlotDraws)
      requires Valid()
      modifies this`positions, this`sizes, this`colors, this`alphas, this`velocities
      ensures Valid()
      ensures Slots() == ResetAll(m, path, disc, settings, ulcers, old(Slots()), draws)
    {
      ghost var before := Slots();
      var i := 0;
      while i < settings.particleCount
        invariant i <= settings.particleCount && Valid()
        invariant forall j :: 0 <= j < i ==> Get(j) == ResetSlot(m, path, disc, settings, ulcers, before[j], draws(j))
        invariant forall j :: i <= j < settings.particleCount ==> Get(j) == before[j]
      {
        var q := ResetSlot(m, path, disc, settings, ulcers, Get(i), draws(i));
        Rewrite(i, q);
        i := i + 1;
      }
    }

    /**
     * One slot of `resetParticles`: position, size, colour, velocity and
     * alpha rewritten; type, assignment and lifetime are the slot's own.
     */
    method Rewrite(k: nat, q: Slot)
      requires Valid() && k < settings.particleCount
      requires q.kind == particleTypes[k] && q.assignment == ulcerAssignments[k] && q.lifetime == lifetimes[k]
      modifies this`positions, this`sizes, this`colors, this`alphas, this`velocities
      ensures Valid() && Get(k) == q
      ensures forall j :: 0 <= j < settings.particleCount && j != k ==> Get(j) == old(Get(j))
    {
      positions, sizes, colors := Put3(positions, k, q.pos), sizes[k := q.size], Put3(colors, k, q.color);
      velocities, alphas := velocities[k := q.vel], alphas[k := q.alpha];
    }

    /**
     * `partialResetParticles(fraction)`: `floor(particleCount fraction)`
     * picks in order, each partially resetting the slot it lands on.
     */
    method PartialResetParticles(m: MathLib, path: Curve, fraction: real, picks: seq<Pick>)
      requires Valid() && PickCount(settings.particleCount, fraction) <= |picks|
      requires forall j :: 0 <= j < |picks| ==> ValidPick(picks[j])
      modifies this`positions, this`alphas, this`velocities
      ensures Valid()
      ensures Slots() == PartialReset(m, path, settings, old(Slots()), picks[..PickCount(settings.particleCount, fraction)])
    {
      var particlesToReset := PickCount(settings.particleCount, fraction);
      ghost var before := Slots();
      var i := 0;
      while i < particlesToReset
        invariant i <= particlesToReset && Valid()
        invariant Slots() == PartialReset(m, path, settings, before, picks[..i])
      {
        ghost var mid := Slots();
        var particleIndex := FloorScaled(picks[i].index, settings.particleCount);
        if particleTypes[particleIndex] == 0 {
          var d := picks[i].draws;
          Move(particleIndex, ScatterPoint(m, path, settings, d), RandomVelocity(d, 0.5));
        }
        assert Slots() == ApplyPick(m, path, settings, mid, picks[i]);
        assert picks[..i + 1][..i] == picks[..i];
        i := i + 1;
      }
    }

    /** Slot `k` given a new position and velocity and made opaque; no other slot changes. */
    method Move(k: nat, pos: Vec3, vel: Vec3)
      requires Valid() && k < settings.particleCount
      modifies this`positions, this`alphas, this`velocities
      ensures Valid() && Get(k) == old(Get(k)).(pos := pos, vel := vel, alpha := 1.0)
      ensures forall j :: 0 <= j < settings.particleCount && j != k ==> Get(j) == old(Get(j))
    {
      positions, velocities, alphas := Put3(positions, k, pos), velocities[k := vel], alphas[k := 1.0];
    }

    /**
     * `updateParticles(deltaTime)` at clock reading `now`: when more than
     * `resetInterval` seconds have passed since the last partial reset, 5%
     * of the slots are partially reset and the reset time moves to `now`;
     * then every slot takes one motion step.
     */
    method UpdateParticles(m: MathLib, noise: Curl.Field, path: Curve, now: real, dT: real,
                           picks: seq<Pick>, jitters: nat -> Jitter)
      requires Valid() && IsSqrt(m.sqrt) && PickCount(settings.particleCount, 0.05) <= |picks|
      requires forall j :: 0 <= j < |picks| ==> ValidPick(picks[j])
      modifies this`positions, this`alphas, this`velocities, this`lastPartialReset
      ensures Valid()
      ensures var due := (now - old(lastPartialReset)) / 1000.0 > settings.resetInterval;
              lastPartialReset == (if due then now else old(lastPartialReset)) &&
              Slots() == MovedAll(Frame(noise, m.sqrt, path, settings, time, dT),
                                  if due then PartialReset(m, path, settings, old(Slots()), picks[..PickCount(settings.particleCount, 0.05)])
                                  else old(Slots()),
                                  jitters)
    {
      if (now - lastPartialReset) / 1000.0 > settings.resetInterval {
        PartialResetParticles(m, path, 0.05, picks);
        lastPartialReset := now;
      }
      MoveAll(Frame(noise, m.sqrt, path, settings, time, dT), jitters);
    }

    /** The loop of `updateParticles`: every slot takes one motion step. */
    method MoveAll(f: Frame, jitters: nat -> Jitter)
      requires Valid() && IsSqrt(f.sqrt)
      modifies this`positions, this`alphas, this`velocities
      ensures Valid() && Slots() == MovedAll(f, old(Slots()), jitters)
    {
      ghost var before := Slots();
      var i := 0;
      while i < settings.particleCount
        invariant i <= settings.particleCount && Valid()
        invariant forall j :: 0 <= j < i ==> Get(j) == MovedSlot(f, j, before[j], jitters(j))
        invariant forall j :: i <= j < settings.particleCount ==> Get(j) == before[j]
      {
        MoveOne(f, i, jitters(i));
        i := i + 1;
      }
    }

    /**
     * The body of `updateParticles`' loop for slot `i`: the curl is added
     * to the velocity, the position moves, every third particle is pushed
     * toward the wall from its closest sampled path point, and the velocity
     * is damped and occasionally jittered.
     */
    method MoveOne(f: Frame, i: nat, j: Jitter)
      requires Valid() && IsSqrt(f.sqrt) && i < settings.particleCount
      modifies this`positions, this`alphas, this`velocities
      ensures Valid() && Get(i) == MovedSlot(f, i, old(Get(i)), j)
      ensures forall k :: 0 <= k < settings.particleCount && k != i ==> Get(k) == old(Get(k))
    {
      var q := Get(i);
      var pos, vel := Step(f, i, q, j);
      Move(i, pos, vel);
    }

    /** The arithmetic of one pass of `updateParticles`' loop on slot `q`, which sits at index `i`. */
    static method Step(f: Frame, i: nat, q: Slot, j: Jitter) returns (pos: Vec3, vel: Vec3)
      requires IsSqrt(f.sqrt)
      ensures q.(pos := pos, vel := vel, alpha := 1.0) == MovedSlot(f, i, q, j)
    {
      vel := CurlVelocity(f, q);
      pos := Drift(f, i, q, vel);
      vel := Damp(f, q, vel, j);
    }

    /** The position update of the loop body, with the wall force on every third particle. */
    static method Drift(f: Frame, i: nat, q: Slot, vel: Vec3) returns (pos: Vec3)
      requires IsSqrt(f.sqrt) && vel == CurlVelocity(f, q)
      ensures pos == MovedPosition(f, i, q)
    {
      var speedFactor := f.s.speed * f.dT;
      pos := Add(q.pos, Scale(vel, speedFactor));
      assert pos == Drifted(f, q);
      if i % 3 == 0 {
        var force := WallForce(f, q.pos);
        pos := Add(pos, force);
      }
    }

    /** The end of the loop body: the velocity is damped and, when the chance draw is below 0.1, jittered. */
    static method Damp(f: Frame, q: Slot, v: Vec3, j: Jitter) returns (vel: Vec3)
      requires v == CurlVelocity(f, q)
      ensures vel == MovedVelocity(f, q, j)
    {
      vel := Scale(v, f.s.velocityDamping);
      if j.chance < 0.1 {
        vel := Add(vel, JitterKick(j, f.s.speed * f.dT));
      }
    }

    /**
     * The wall force of `updateParticles` on a particle at `pos`, measured
     * from the closest sampled path point.
     */
    static method WallForce(f: Frame, pos: Vec3) returns (force: Vec3)
      requires IsSqrt(f.sqrt)
      ensures force == TunnelForce(f, pos)
    {
      var closestT := ClosestSample(f.sqrt, f.path, pos);
      var closestPoint := f.path.point(SampleT(closestT));
      force := ForceFrom(f, pos, closestPoint);
    }

    /** The closest-point search of `updateParticles`: eleven samples, keeping the first strict minimum. */
    static method ClosestSample(sqrt: real -> real, path: Curve, pos: Vec3) returns (closestT: nat)
      requires IsSqrt(sqrt)
      ensures closestT == ClosestAmong(sqrt, path, pos, PathSamples)
      ensures IsClosestSample(sqrt, path, pos, closestT)
    {
      closestT := 0;
      var minDist := SampleDistance(sqrt, path, pos, 0);
      var j := 1;
      while j < PathSamples
        invariant 1 <= j <= PathSamples
        invariant closestT == ClosestAmong(sqrt, path, pos, j) && minDist == SampleDistance(sqrt, path, pos, closestT)
      {
        var dist := SampleDistance(sqrt, path, pos, j);
        if dist < minDist {
          minDist := dist;
          closestT := j;
        }
        j := j + 1;
      }
      ClosestIsClosestSample(sqrt, path, pos);
    }

    /**
     * `updateCamera` at clock reading `now`: the start time is set on the
     * first call (or when it is 0), the camera and look-at parameters are
     * returned, and once progress reaches 1 the loop restarts at `now` with
     * every particle reset.
     */
    method UpdateCamera(m: MathLib, path: Curve, disc: DiscPlacement, now: real, draws: nat -> SlotDraws)
      returns (cameraAt: real, lookAt: real)
      requires Valid() && 0.0 < settings.animationDuration
      modifies this`startTime, this`progress, this`positions, this`sizes, this`colors, this`alphas, this`velocities
      ensures Valid()
      ensures var start := if old(startTime).None? || old(startTime).value == 0.0 then now else old(startTime).value;
              cameraAt == CameraProgress(now, start, settings.animationDuration) &&
              (cameraAt < 1.0 ==> progress == cameraAt && startTime == Some(start) && Slots() == old(Slots())) &&
              (cameraAt >= 1.0 ==> progress == 0.0 && startTime == Some(now) &&
                                   Slots() == ResetAll(m, path, disc, settings, ulcers, old(Slots()), draws))
      ensures lookAt == LookAhead(cameraAt) && cameraAt <= lookAt <= 1.0
      ensures progress < 1.0
    {
      if startTime.None? || startTime.value == 0.0 {
        startTime := Some(now);
      }
      progress := CameraProgress(now, startTime.value, settings.animationDuration);
      cameraAt := progress;
      lookAt := LookAhead(progress);
      if progress >= 1.0 {
        startTime := Some(now);
        progress := 0.0;
        ResetParticles(m, path, disc, draws);
      }
    }

    /** The clock step of `animate`: `deltaTime` is the capped time since the last frame, and `time` advances by it. */
    method AdvanceClock(now: real) returns (dT: real)
      modifies this`lastFrame, this`time
      ensures dT == Camera.FrameDelta(now, old(lastFrame), StomachFrameCap) && dT <= StomachFrameCap
      ensures lastFrame == now && time == old(time) + dT
    {
      dT := Camera.FrameDelta(now, lastFrame, StomachFrameCap);
      lastFrame := now;
      time := time + dT;
    }

    /**
     * `updateUlcerSettings(update)`: the present fields are written into
     * the settings; a new colour also recolours every ulcer and every
     * ulcer particle assigned to a valid ulcer.
     */
    method UpdateUlcerSettings(update: UlcerUpdate)
      requires Valid()
      modifies this`settings, this`ulcers, this`colors
      ensures Valid()
      ensures settings == UpdatedSettings(old(settings), update)
      ensures update.color.None? ==> ulcers == old(ulcers) && Slots() == old(Slots())
      ensures update.color.Some? ==>
                ulcers == Recolored(old(ulcers), update.color.value) &&
                forall k :: 0 <= k < settings.particleCount ==>
                  Get(k) == RecoloredSlot(old(Get(k)), |ulcers|, update.color.value)
    {
      UpdatedSettingsProperties(settings, update);
      settings := UpdatedSettings(settings, update);
      if update.color.Some? {
        RecolorUlcers(update.color.value);
        RecolorParticles(update.color.value);
      }
    }

    /** The ulcer half of a recolour: every ulcer takes the new colour. */
    method RecolorUlcers(c: Vec3)
      modifies this`ulcers
      ensures ulcers == Recolored(old(ulcers), c)
    {
      ghost var before := ulcers;
      var i := 0;
      while i < |ulcers|
        invariant i <= |ulcers| == |before|
        invariant ulcers == Recolored(before, c)[..i] + before[i..]
      {
        ulcers := ulcers[i := ulcers[i].(color := c)];
        i := i + 1;
      }
    }

    /** The particle half of a recolour: each ulcer particle with a valid ulcer takes that ulcer's colour. */
    method RecolorParticles(c: Vec3)
      requires Valid() && forall u :: 0 <= u < |ulcers| ==> ulcers[u].color == c
      modifies this`colors
      ensures Valid()
      ensures forall k :: 0 <= k < settings.particleCount ==> Get(k) == RecoloredSlot(old(Get(k)), |ulcers|, c)
    {
      var i := 0;
      while i < settings.particleCount
        invariant i <= settings.particleCount && Valid()
        invariant forall k :: 0 <= k < i ==> Get(k) == RecoloredSlot(old(Get(k)), |ulcers|, c)
        invariant forall k :: i <= k < settings.particleCount ==> Get(k) == old(Get(k))
      {
        if particleTypes[i] == 1 {
          var ulcerIndex := ulcerAssignments[i];
          if 0 <= ulcerIndex < |ulcers| {
            colors := Put3(colors, i, ulcers[ulcerIndex].color);
          }
        }
        i := i + 1;
      }
    }
  }
}
