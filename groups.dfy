/**
 * Particle groups: `createMultipleSizedParticleSystems` splits the particle
 * indices into a "normal" and an "ulcer" group, each with its own copy of
 * the positions (three numbers per member) and colours, and makes one
 * particle system per non-empty group, remembering the group's original
 * indices.  The scroll-driven and source builds split by particle size;
 * the Webflow embed puts everything in "normal" at first and re-splits by
 * distance to the mouse in `rebuildParticleGroups`, which then shows or
 * hides the existing systems.
 */
module Groups {
  import opened Common
  import Ulcers

  /** A group: positions and colours three numbers per member, and each member's original index. */
  datatype Group = Group(positions: seq<real>, colors: seq<real>, indices: seq<nat>)

  const EmptyGroup: Group := Group([], [], [])

  /**
   * `g` holds, in ascending order, exactly the indices below `n` whose flag
   * is `want`, each with its position copied from `particles`.
   */
  ghost predicate Collects(g: Group, particles: seq<real>, flags: seq<bool>, n: nat, want: bool)
    requires n <= |flags| && 3 * n <= |particles|
  {
    |g.positions| == 3 * |g.indices| && |g.colors| == 3 * |g.indices| &&
    (forall j :: 0 <= j < |g.indices| ==> g.indices[j] < n && flags[g.indices[j]] == want) &&
    (forall j, k :: 0 <= j < k < |g.indices| ==> g.indices[j] < g.indices[k]) &&
    (forall i :: 0 <= i < n && flags[i] == want ==> i in g.indices) &&
    (forall j :: 0 <= j < |g.indices| ==> At3(g.positions, j) == At3(particles, g.indices[j]))
  }

  /** `group.positions.push(x, y, z); group.colors.push(r, g, b); group.indices.push(i)`. */
  function Push(g: Group, particles: seq<real>, i: nat, color: Vec3): (r: Group)
    requires 3 * i + 2 < |particles|
  {
    Group(g.positions + [particles[3 * i], particles[3 * i + 1], particles[3 * i + 2]],
          g.colors + [color.x, color.y, color.z],
          g.indices + [i])
  }

  /** Appending a triple leaves the earlier triples alone and reads back as the new last one. */
  lemma AppendTriple(s: seq<real>, a: real, b: real, c: real)
    requires |s| % 3 == 0
    ensures forall j: nat :: 3 * j + 2 < |s| ==> At3(s + [a, b, c], j) == At3(s, j)
    ensures At3(s + [a, b, c], |s| / 3) == Vec3(a, b, c)
  {}

  /** Pushing index `n` (with flag `want`) onto a group that collects below `n` makes it collect below `n + 1`. */
  lemma PushCollects(g: Group, particles: seq<real>, flags: seq<bool>, n: nat, want: bool, color: Vec3)
    requires n < |flags| && 3 * (n + 1) <= |particles|
    requires Collects(g, particles, flags, n, want) && flags[n] == want
    ensures Collects(Push(g, particles, n, color), particles, flags, n + 1, want)
    ensures var r := Push(g, particles, n, color);
            At3(r.colors, |g.indices|) == color &&
            forall j :: 0 <= j < |g.indices| ==> At3(r.colors, j) == At3(g.colors, j)
  {
    AppendTriple(g.colors, color.x, color.y, color.z);
    PushKeepsIndices(g.indices, flags, n, want);
    PushKeepsPositions(g.positions, g.indices, particles, n);
  }

  /** The position part of `PushCollects`. */
  lemma PushKeepsPositions(positions: seq<real>, indices: seq<nat>, particles: seq<real>, n: nat)
    requires |positions| == 3 * |indices| && 3 * (n + 1) <= |particles|
    requires forall j :: 0 <= j < |indices| ==> indices[j] <= n && At3(positions, j) == At3(particles, indices[j])
    ensures var r := positions + [particles[3 * n], particles[3 * n + 1], particles[3 * n + 2]];
            forall j :: 0 <= j < |indices| + 1 ==> At3(r, j) == At3(particles, (indices + [n])[j])
  {
    AppendTriple(positions, particles[3 * n], particles[3 * n + 1], particles[3 * n + 2]);
  }

  /** The index part of `PushCollects`. */
  lemma PushKeepsIndices(indices: seq<nat>, flags: seq<bool>, n: nat, want: bool)
    requires n < |flags| && flags[n] == want
    requires forall j :: 0 <= j < |indices| ==> indices[j] < n && flags[indices[j]] == want
    requires forall j, k :: 0 <= j < k < |indices| ==> indices[j] < indices[k]
    requires forall i :: 0 <= i < n && flags[i] == want ==> i in indices
    ensures var r := indices + [n];
            (forall j :: 0 <= j < |r| ==> r[j] < n + 1 && flags[r[j]] == want) &&
            (forall j, k :: 0 <= j < k < |r| ==> r[j] < r[k]) &&
            (forall i :: 0 <= i < n + 1 && flags[i] == want ==> i in r)
  {}

  /** A group that collects below `n` is unchanged as a collector below `n + 1` when index `n` has the other flag. */
  lemma SkipCollects(g: Group, particles: seq<real>, flags: seq<bool>, n: nat, want: bool)
    requires n < |flags| && 3 * (n + 1) <= |particles|
    requires Collects(g, particles, flags, n, want) && flags[n] != want
    ensures Collects(g, particles, flags, n + 1, want)
  {}

  /** Index `i` is in exactly one of the two groups of a split. */
  lemma SplitIsPartition(normal: Group, ulcer: Group, particles: seq<real>, flags: seq<bool>, n: nat, i: nat)
    requires n <= |flags| && 3 * n <= |particles| && i < n
    requires Collects(normal, particles, flags, n, false) && Collects(ulcer, particles, flags, n, true)
    ensures (i in normal.indices) != (i in ulcer.indices)
    ensures i in ulcer.indices <==> flags[i]
  {
    if i in normal.indices {
      var j :| 0 <= j < |normal.indices| && normal.indices[j] == i;
    }
    if i in ulcer.indices {
      var j :| 0 <= j < |ulcer.indices| && ulcer.indices[j] == i;
    }
  }

  /** The size rule of the split: a particle is an ulcer particle when it is more than 1.2 times the base size. */
  function SizeFlags(sizes: seq<real>, size: real): (flags: seq<bool>)
    ensures |flags| == |sizes|
    ensures forall i :: 0 <= i < |sizes| ==> (flags[i] <==> sizes[i] > size * 1.2)
  {
    seq(|sizes|, i requires 0 <= i < |sizes| => sizes[i] > size * 1.2)
  }

  /**
   * The categorising loop of `createMultipleSizedParticleSystems` in the
   * scroll-driven and source builds.  Colours come from the geometry's
   * colour attribute, multiplied by `brightness` (1.5 in the scroll-driven
   * build, 1 in the source build).
   */
  method SplitBySize(particles: seq<real>, colors: seq<real>, sizes: seq<real>, size: real, n: nat, brightness: real)
    returns (normal: Group, ulcer: Group)
    requires 3 * n <= |particles| && 3 * n <= |colors| && n <= |sizes|
    ensures Collects(normal, particles, SizeFlags(sizes, size), n, false)
    ensures Collects(ulcer, particles, SizeFlags(sizes, size), n, true)
    ensures |normal.indices| + |ulcer.indices| == n
    ensures forall j :: 0 <= j < |normal.indices| ==> At3(normal.colors, j) == Scale(At3(colors, normal.indices[j]), brightness)
    ensures forall j :: 0 <= j < |ulcer.indices| ==> At3(ulcer.colors, j) == Scale(At3(colors, ulcer.indices[j]), brightness)
  {
    var flags := SizeFlags(sizes, size);
    ghost var palette := seq(n, k requires 0 <= k < n => Scale(At3(colors, k), brightness));
    normal, ulcer := EmptyGroup, EmptyGroup;
    var i := 0;
    while i < n
      invariant 0 <= i <= n
      invariant Collects(normal, particles, flags, i, false) && Collects(ulcer, particles, flags, i, true)
      invariant |normal.indices| + |ulcer.indices| == i
      invariant Painted(normal, palette) && Painted(ulcer, palette)
    {
      var color := Scale(At3(colors, i), brightness);
      normal, ulcer := Route(normal, ulcer, particles, flags, i, sizes[i] > size * 1.2, color, color, palette, palette);
      i := i + 1;
    }
  }

  /** Member `j` of `g` has the colour its original index has in `palette`. */
  ghost predicate Painted(g: Group, palette: seq<Vec3>)
  {
    |g.colors| == 3 * |g.indices| &&
    forall j :: 0 <= j < |g.indices| ==> g.indices[j] < |palette| && At3(g.colors, j) == palette[g.indices[j]]
  }

  /**
   * One pass of a splitting loop: particle `i` is pushed onto the ulcer
   * group in colour `ulcerColor` when `toUlcer`, otherwise onto the normal
   * group in colour `normalColor`.
   */
  method Route(normal: Group, ulcer: Group, particles: seq<real>, flags: seq<bool>, i: nat, toUlcer: bool,
               normalColor: Vec3, ulcerColor: Vec3, ghost normalPalette: seq<Vec3>, ghost ulcerPalette: seq<Vec3>)
    returns (normal': Group, ulcer': Group)
    requires i < |flags| && 3 * (i + 1) <= |particles| && toUlcer == flags[i]
    requires i < |normalPalette| && i < |ulcerPalette| && normalPalette[i] == normalColor && ulcerPalette[i] == ulcerColor
    requires Collects(normal, particles, flags, i, false) && Collects(ulcer, particles, flags, i, true)
    requires |normal.indices| + |ulcer.indices| == i
    requires Painted(normal, normalPalette) && Painted(ulcer, ulcerPalette)
    ensures Collects(normal', particles, flags, i + 1, false) && Collects(ulcer', particles, flags, i + 1, true)
    ensures |normal'.indices| + |ulcer'.indices| == i + 1
    ensures Painted(normal', normalPalette) && Painted(ulcer', ulcerPalette)
  {
    if toUlcer {
      PushCollects(ulcer, particles, flags, i, true, ulcerColor);
      SkipCollects(normal, particles, flags, i, false);
      normal', ulcer' := normal, Push(ulcer, particles, i, ulcerColor);
    } else {
      PushCollects(normal, particles, flags, i, false, normalColor);
      SkipCollects(ulcer, particles, flags, i, true);
      normal', ulcer' := Push(normal, particles, i, normalColor), ulcer;
    }
  }

  /** The `isUlcerParticle` test of the source build's `resetParticles`: ulcers enabled and one covers `pos`. */
  predicate IsUlcerParticle(sqrt: real -> real, pos: Vec3, enableUlcers: bool, ulcers: seq<Ulcers.Ulcer>)
    requires IsSqrt(sqrt)
  {
    enableUlcers && |ulcers| > 0 && Ulcers.FirstCovering(sqrt, pos, ulcers, 0).Some?
  }

  /** The size `resetParticles` gives a particle: multiplied by `ulcerSizeMultiplier` for an ulcer particle. */
  function SourceSize(isUlcer: bool, size: real, multiplier: real): real
  {
    if isUlcer then size * multiplier else size
  }

  /** The `isUlcerParticle` search of `resetParticles`, and the size it picks. */
  method SourceParticleSize(sqrt: real -> real, pos: Vec3, enableUlcers: bool, ulcers: seq<Ulcers.Ulcer>, size: real, multiplier: real)
    returns (particleSize: real)
    requires IsSqrt(sqrt)
    ensures particleSize == SourceSize(IsUlcerParticle(sqrt, pos, enableUlcers, ulcers), size, multiplier)
  {
    var isUlcerParticle := false;
    if enableUlcers && |ulcers| > 0 {
      var k := Ulcers.FindCovering(sqrt, pos, ulcers);
      isUlcerParticle := k.Some?;
    }
    particleSize := if isUlcerParticle then size * multiplier else size;
  }

  /**
   * With a positive base size, the split by size puts exactly the ulcer
   * particles in the ulcer group provided the multiplier exceeds 1.2; with
   * a multiplier of 1.2 or less the ulcer group stays empty.
   */
  lemma SizeRuleMatchesSplit(isUlcer: bool, size: real, multiplier: real)
    requires 0.0 < size
    ensures 1.2 < multiplier ==> (SourceSize(isUlcer, size, multiplier) > size * 1.2 <==> isUlcer)
    ensures multiplier <= 1.2 ==> !(SourceSize(isUlcer, size, multiplier) > size * 1.2)
  {
    assert size < size * 1.2;
    if 1.2 < multiplier {
      assert size * multiplier > size * 1.2 by { assert size * (multiplier - 1.2) > 0.0; }
    } else {
      assert size * multiplier <= size * 1.2 by { assert size * (1.2 - multiplier) >= 0.0; }
    }
  }

  // The particle systems made from the groups.

  datatype GroupName = Normal | UlcerGroup

  /** One particle system: its group's name, the original indices it shows, and whether it is drawn. */
  datatype SystemEntry = SystemEntry(name: GroupName, originalIndices: seq<nat>, visible: bool)

  /** The systems made from `groups`, one per non-empty group, in order. */
  function CreatedSystems(groups: seq<(GroupName, Group)>): (systems: seq<SystemEntry>)
    ensures |systems| <= |groups|
    ensures forall s :: s in systems ==> s.visible && exists g :: g in groups && |g.1.positions| > 0 && s == SystemEntry(g.0, g.1.indices, true)
    ensures forall g :: g in groups && |g.1.positions| > 0 ==> SystemEntry(g.0, g.1.indices, true) in systems
  {
    if |groups| == 0 then []
    else
      var last := groups[|groups| - 1];
      var before := CreatedSystems(groups[..|groups| - 1]);
      assert forall g :: g in groups ==> g in groups[..|groups| - 1] || g == last;
      if |last.1.positions| == 0 then before else before + [SystemEntry(last.0, last.1.indices, true)]
  }

  /** The system-creating loop: `if (group.positions.length === 0) continue;` then push a system. */
  method CreateSystems(groups: seq<(GroupName, Group)>) returns (systems: seq<SystemEntry>)
    ensures systems == CreatedSystems(groups)
  {
    systems := [];
    var i := 0;
    while i < |groups|
      invariant 0 <= i <= |groups|
      invariant systems == CreatedSystems(groups[..i])
    {
      var (name, g) := groups[i];
      assert groups[..i + 1][..i] == groups[..i];
      if |g.positions| != 0 {
        systems := systems + [SystemEntry(name, g.indices, true)];
      }
      i := i + 1;
    }
    assert groups[..|groups|] == groups;
  }

  /** How many visible systems draw particle `i`. */
  function DisplayCount(systems: seq<SystemEntry>, i: nat): nat
  {
    if |systems| == 0 then 0 else Draws(systems[0], i) + DisplayCount(systems[1..], i)
  }

  /** 1 when the system is visible and draws particle `i`, else 0. */
  function Draws(e: SystemEntry, i: nat): nat
  {
    if e.visible && i in e.originalIndices then 1 else 0
  }

  lemma DisplayCountOfPair(a: SystemEntry, b: SystemEntry, i: nat)
    ensures DisplayCount([a], i) == Draws(a, i)
    ensures DisplayCount([a, b], i) == Draws(a, i) + Draws(b, i)
  {
    assert [a][1..] == [];
    assert [b][1..] == [];
    assert [a, b][1..] == [b];
    assert DisplayCount([b], i) == Draws(b, i);
  }

  /** Every particle below `n` is drawn by exactly one visible system of `systems`. */
  lemma {:induction false} SplitSystemsDrawEachOnce(normal: Group, ulcer: Group, particles: seq<real>, flags: seq<bool>, n: nat, i: nat)
    requires n <= |flags| && 3 * n <= |particles| && i < n
    requires Collects(normal, particles, flags, n, false) && Collects(ulcer, particles, flags, n, true)
    ensures DisplayCount(CreatedSystems([(Normal, normal), (UlcerGroup, ulcer)]), i) == 1
  {
    SplitIsPartition(normal, ulcer, particles, flags, n, i);
    var groups := [(Normal, normal), (UlcerGroup, ulcer)];
    assert groups[..1] == [(Normal, normal)];
    assert CreatedSystems(groups[..0]) == [];
    var systems := CreatedSystems(groups);
    var sn := SystemEntry(Normal, normal.indices, true);
    var su := SystemEntry(UlcerGroup, ulcer.indices, true);
    DisplayCountOfPair(sn, su, i);
    DisplayCountOfPair(su, sn, i);
    if i in normal.indices {
      assert |normal.positions| > 0;
      if |ulcer.positions| == 0 {
        assert systems == [sn];
      } else {
        assert systems == [sn, su];
      }
    } else {
      assert |ulcer.positions| > 0;
      if |normal.positions| == 0 {
        assert systems == [su];
      } else {
        assert systems == [sn, su];
      }
    }
  }

  // The Webflow embed.

  /** The embed's first split: every particle starts in the "normal" group. */
  method InitialGroups(particles: seq<real>, colors: seq<real>, n: nat) returns (normal: Group, ulcer: Group)
    requires 3 * n <= |particles| && 3 * n <= |colors|
    ensures Collects(normal, particles, seq(n, _ => false), n, false)
    ensures ulcer == EmptyGroup
    ensures forall j :: 0 <= j < |normal.indices| ==> At3(normal.colors, j) == At3(colors, normal.indices[j])
  {
    var flags: seq<bool> := seq(n, _ => false);
    normal, ulcer := EmptyGroup, EmptyGroup;
    var i := 0;
    while i < n
      invariant 0 <= i <= n
      invariant Collects(normal, particles, flags, i, false)
      invariant forall j :: 0 <= j < |normal.indices| ==> At3(normal.colors, j) == At3(colors, normal.indices[j])
    {
      PushCollects(normal, particles, flags, i, false, At3(colors, i));
      normal := Push(normal, particles, i, At3(colors, i));
      i := i + 1;
    }
  }

  /** Whether particle `i` lies within one and a half ulcer radii of the mouse's point in the tunnel. */
  predicate NearMouse(sqrt: real -> real, particles: seq<real>, i: nat, mouse: Vec3, ulcerRadius: real)
    requires IsSqrt(sqrt) && 3 * i + 2 < |particles|
  {
    Length(sqrt, Sub(At3(particles, i), mouse)) < ulcerRadius * 1.5
  }

  /** The mouse-proximity flags of the first `n` particles. */
  function MouseFlags(sqrt: real -> real, particles: seq<real>, n: nat, mouse: Vec3, ulcerRadius: real): (flags: seq<bool>)
    requires IsSqrt(sqrt) && 3 * n <= |particles|
    ensures |flags| == n
    ensures forall i :: 0 <= i < n ==> (flags[i] <==> NearMouse(sqrt, particles, i, mouse, ulcerRadius))
  {
    seq(n, i requires 0 <= i < n => NearMouse(sqrt, particles, i, mouse, ulcerRadius))
  }

  /** What `rebuildParticleGroups` reads besides the particles. */
  datatype MouseSettings = MouseSettings(mouse: Vec3, ulcerRadius: real, color: Vec3, ulcerColor: Vec3, ulcerIntensity: real)

  /**
   * The splitting loop of `rebuildParticleGroups`: particles near the mouse
   * go to the ulcer group in the ulcer colour times `1.5 ulcerIntensity`
   * (whatever their distance), the rest to the normal group in the base
   * colour.
   */
  method MouseSplit(sqrt: real -> real, particles: seq<real>, n: nat, s: MouseSettings) returns (normal: Group, ulcer: Group)
    requires IsSqrt(sqrt) && 3 * n <= |particles|
    ensures Collects(normal, particles, MouseFlags(sqrt, particles, n, s.mouse, s.ulcerRadius), n, false)
    ensures Collects(ulcer, particles, MouseFlags(sqrt, particles, n, s.mouse, s.ulcerRadius), n, true)
    ensures |normal.indices| + |ulcer.indices| == n
    ensures forall j :: 0 <= j < |normal.indices| ==> At3(normal.colors, j) == s.color
    ensures forall j :: 0 <= j < |ulcer.indices| ==> At3(ulcer.colors, j) == Scale(s.ulcerColor, s.ulcerIntensity * 1.5)
  {
    var flags := MouseFlags(sqrt, particles, n, s.mouse, s.ulcerRadius);
    var highlighted := Scale(s.ulcerColor, s.ulcerIntensity * 1.5);
    ghost var plain, marked := seq(n, _ => s.color), seq(n, _ => highlighted);
    normal, ulcer := EmptyGroup, EmptyGroup;
    var i := 0;
    while i < n
      invariant 0 <= i <= n
      invariant Collects(normal, particles, flags, i, false) && Collects(ulcer, particles, flags, i, true)
      invariant |normal.indices| + |ulcer.indices| == i
      invariant Painted(normal, plain) && Painted(ulcer, marked)
    {
      var near := Length(sqrt, Sub(At3(particles, i), s.mouse)) < s.ulcerRadius * 1.5;
      normal, ulcer := Route(normal, ulcer, particles, flags, i, near, s.color, highlighted, plain, marked);
      i := i + 1;
    }
  }

  /**
   * One system after `rebuildParticleGroups`: hidden when its group is
   * empty, otherwise shown with its group's indices.
   */
  function RebuiltEntry(e: SystemEntry, normal: Group, ulcer: Group): SystemEntry
  {
    var data := if e.name == Normal then normal else ulcer;
    if |data.positions| == 0 then e.(visible := false) else e.(visible := true, originalIndices := data.indices)
  }

  /** Every system after `rebuildParticleGroups`. */
  function RebuiltSystems(systems: seq<SystemEntry>, normal: Group, ulcer: Group): (r: seq<SystemEntry>)
    ensures |r| == |systems|
    ensures forall k :: 0 <= k < |systems| ==> r[k] == RebuiltEntry(systems[k], normal, ulcer)
  {
    seq(|systems|, k requires 0 <= k < |systems| => RebuiltEntry(systems[k], normal, ulcer))
  }

  /** A rebuilt system is shown exactly when its group has members, and then shows exactly them. */
  lemma RebuiltEntryShowsItsGroup(e: SystemEntry, normal: Group, ulcer: Group)
    requires |normal.positions| == 3 * |normal.indices| && |ulcer.positions| == 3 * |ulcer.indices|
    ensures var data := if e.name == Normal then normal else ulcer;
            var r := RebuiltEntry(e, normal, ulcer);
            r.name == e.name && (r.visible <==> |data.indices| > 0) && (r.visible ==> r.originalIndices == data.indices)
  {}

  /** The embed's particle systems, which `rebuildParticleGroups` updates in place. */
  class WebflowSystems {
    var systems: seq<SystemEntry>

    constructor (systems: seq<SystemEntry>)
      ensures this.systems == systems
    {
      this.systems := systems;
    }

    /** The system-updating loop of `rebuildParticleGroups`. */
    method Rebuild(normal: Group, ulcer: Group)
      modifies this
      ensures systems == RebuiltSystems(old(systems), normal, ulcer)
    {
      var k := 0;
      while k < |systems|
        invariant 0 <= k <= |systems| == |old(systems)|
        invariant forall j :: 0 <= j < k ==> systems[j] == RebuiltEntry(old(systems)[j], normal, ulcer)
        invariant forall j :: k <= j < |systems| ==> systems[j] == old(systems)[j]
      {
        var e := systems[k];
        var data := if e.name == Normal then normal else ulcer;
        if |data.positions| == 0 {
          systems := systems[k := e.(visible := false)];
        } else {
          systems := systems[k := e.(visible := true, originalIndices := data.indices)];
        }
        k := k + 1;
      }
    }
  }

  /**
   * As written, the embed creates its systems from the first split, in
   * which the ulcer group is empty and so gets no system.  After any
   * rebuild, a particle near the mouse belongs to the ulcer group only, and
   * no visible system draws it: it vanishes instead of being highlighted.
   */
  lemma NearMouseParticleIsNotDrawn(particles: seq<real>, n: nat, normal0: Group, flags: seq<bool>, normal: Group, ulcer: Group, i: nat)
    requires |flags| == n && 3 * n <= |particles| && i < n && flags[i]
    requires Collects(normal0, particles, seq(n, _ => false), n, false)
    requires Collects(normal, particles, flags, n, false) && Collects(ulcer, particles, flags, n, true)
    ensures DisplayCount(RebuiltSystems(CreatedSystems([(Normal, normal0), (UlcerGroup, EmptyGroup)]), normal, ulcer), i) == 0
  {
    var groups := [(Normal, normal0), (UlcerGroup, EmptyGroup)];
    assert groups[..1] == [(Normal, normal0)];
    assert CreatedSystems(groups[..0]) == [];
    assert seq(n, _ => false)[i] == false;
    assert i in normal0.indices;
    var created := CreatedSystems(groups);
    assert created == [SystemEntry(Normal, normal0.indices, true)];
    var rebuilt := RebuiltSystems(created, normal, ulcer);
    SplitIsPartition(normal, ulcer, particles, flags, n, i);
    assert rebuilt[1..] == [];
  }

  /** A concrete case: one particle, sitting at the mouse, is flagged as near it ... */
  lemma ParticleAtMouseIsNear(sqrt: real -> real)
    requires IsSqrt(sqrt)
    ensures MouseFlags(sqrt, [0.0, 0.0, 0.0], 1, Zero, 1.0) == [true]
  {
    var particles := [0.0, 0.0, 0.0];
    assert At3(particles, 0) == Zero;
    assert Sub(Zero, Zero) == Zero;
    assert NearMouse(sqrt, particles, 0, Zero, 1.0);
  }

  /** ... and, with the groups the embed builds for it, no system draws it. */
  lemma ParticleAtMouseIsNotDrawn()
    ensures var particles := [0.0, 0.0, 0.0];
            var group := Group(particles, particles, [0]);
            Collects(group, particles, [false], 1, false) &&
            Collects(group, particles, [true], 1, true) && Collects(EmptyGroup, particles, [true], 1, false) &&
            DisplayCount(RebuiltSystems(CreatedSystems([(Normal, group), (UlcerGroup, EmptyGroup)]), EmptyGroup, group), 0) == 0
  {
    var particles := [0.0, 0.0, 0.0];
    var group := Group(particles, particles, [0]);
    assert seq(1, _ => false) == [false];
    NearMouseParticleIsNotDrawn(particles, 1, group, [true], EmptyGroup, group, 0);
  }

  /**
   * The evident intent: create a system for every group, hidden while its
   * group is empty, so that `rebuildParticleGroups` has an ulcer system to
   * show.
   */
  function CreatedSystemsKeepingEmpty(groups: seq<(GroupName, Group)>): (systems: seq<SystemEntry>)
    ensures |systems| == |groups|
    ensures forall k :: 0 <= k < |groups| ==>
      systems[k] == SystemEntry(groups[k].0, groups[k].1.indices, |groups[k].1.positions| > 0)
  {
    seq(|groups|, k requires 0 <= k < |groups| => SystemEntry(groups[k].0, groups[k].1.indices, |groups[k].1.positions| > 0))
  }

  /** With both systems kept, every particle is drawn by exactly one visible system after any rebuild. */
  lemma KeptSystemsDrawEachOnce(particles: seq<real>, n: nat, normal0: Group, flags: seq<bool>, normal: Group, ulcer: Group, i: nat)
    requires |flags| == n && 3 * n <= |particles| && i < n
    requires Collects(normal, particles, flags, n, false) && Collects(ulcer, particles, flags, n, true)
    ensures DisplayCount(RebuiltSystems(CreatedSystemsKeepingEmpty([(Normal, normal0), (UlcerGroup, EmptyGroup)]), normal, ulcer), i) == 1
  {
    var rebuilt := RebuiltSystems(CreatedSystemsKeepingEmpty([(Normal, normal0), (UlcerGroup, EmptyGroup)]), normal, ulcer);
    SplitIsPartition(normal, ulcer, particles, flags, n, i);
    assert rebuilt[0] == RebuiltEntry(SystemEntry(Normal, normal0.indices, |normal0.positions| > 0), normal, ulcer);
    assert rebuilt[1] == RebuiltEntry(SystemEntry(UlcerGroup, [], false), normal, ulcer);
    assert rebuilt == [rebuilt[0], rebuilt[1]];
    DisplayCountOfPair(rebuilt[0], rebuilt[1], i);
    if i in normal.indices {
      assert |normal.positions| > 0;
    } else {
      assert |ulcer.positions| > 0;
    }
  }
}
