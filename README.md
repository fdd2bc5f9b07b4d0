# ParticlesV2 particle tunnels, modelled in Dafny

ParticlesV2 draws a tunnel of particles that drift along a curl-noise
field. The particles are confined to a ring around a three.js path, and
"ulcers" (patches on the tunnel wall) recolour and enlarge the particles
near them. The repository ships four variants of the same idea:

- **scroll-driven build** (`dist/webflow-particles.js`): the camera moves
  along the path as the page scrolls, with easing. The particles are split
  by size into a "normal" system and an "ulcer" system.
- **source build** (`src/js/CurlNoiseParticleSystem.js`): the same system
  without scroll control. It has a different curl guard, different
  confinement bands and an exponential fog opacity.
- **Webflow embed** (`webflow-file.js`): a copy of the source build with
  shared module-level simplex tables. The particles are split each frame by
  distance to the mouse.
- **stomach tunnel** (`stomach-tunnel-animation.js`): a separate class. It
  lays particles out in planned slots (wall rings, ulcer discs, fill),
  pushes them toward the wall radius and loops the camera on a timer.

The model covers these parts:

- The simplex noise tables and their seeding: the class in the
  scroll-driven and stomach builds, and the shared tables of the Webflow
  embed.
- The per-variant curl computation and its NaN handling.
- The confinement force, the respawn rule and the respawn ring.
- `move` as a per-particle step proved against a step function.
- The visibility and alpha rules, and the ulcer tint.
- Ulcer generation and the first-covering-ulcer search.
- Splitting particles into systems, and the Webflow regrouping.
- The scroll camera's easing and progress.
- The stomach tunnel's ulcer layout, slot plan, resets, particle update,
  camera loop and settings update.

Stateful objects are classes whose fields the methods reassign:

- `Noise.SimplexNoise`
- `SharedSimplex.Tables` and `SharedSimplex.Simplex`
- `Particles.CurlNoiseSystem`
- `Camera.ScrollCamera`
- `Groups.WebflowSystems`
- `Stomach.StomachTunnel`

Each method's contract ties its new state to a pure function of the old state. The
properties are proved about those functions.

The model works on exact real numbers, with these conventions:

- `Math.sqrt`, `sin`, `cos`, `exp` and `pi` come in as a `MathLib`
  parameter whose stated properties are all the proofs use (a square root
  is non-negative and squares back).
- The three.js path comes in as a `Curve` parameter.
- Every `Math.random()` value is an explicit draw in `[0, 1)` passed in by
  the caller.
- A JavaScript NaN is modelled explicitly where the code can produce one:
  the `Num` and `MaybeVec` types and the `NaNComponents` curl value.

Facts about the code that the model keeps as written:

- The NaN handling of the curl differs by variant. The scroll-driven build
  guards the zero vector (`dist/webflow-particles.js:880-885`) and never
  produces NaN. The source build and the Webflow embed replace a curl with
  any NaN component by `(1, 0, 0)`
  (`src/js/CurlNoiseParticleSystem.js:674-678`, `webflow-file.js:781-785`);
  the scroll-driven build's own check, which would substitute `(0, 0, 1)`
  (`dist/webflow-particles.js:998-1000`), never fires. The Webflow embed's `oldMethod` path returns a vector object,
  which always takes the fallback.
- No variant checks for a negative time step. The scroll-driven build caps
  the step at 1/30 s (`dist/webflow-particles.js:1112`) and the stomach
  tunnel at 0.1 s (`stomach-tunnel-animation.js:1043`).
- The seeding differs by variant. The scroll-driven build seeds with a sine
  hash (`dist/webflow-particles.js:161-164`). The Webflow embed seeds with a
  linear congruential step `(s * 22695477 + 1) % 1`
  (`webflow-file.js:21-24`), including that a whole-number seed gives an
  all-zero table.

The one place where the model departs from the code is the stomach ulcer
parameter: at `ulcerCount` 1 the code divides 0 by 0
(`stomach-tunnel-animation.js:479`; see Findings), and the stomach class
places its ulcers with the corrected parameter (see "Left out").

## Model

| member | source | states |
|---|---|---|
| Common.Normalize | dist/webflow-particles.js:880-885 | the guarded normalisation gives the zero vector exactly for the zero vector |
| Common.NormalizeIsUnit | dist/webflow-particles.js:880-885 | a non-zero vector normalises to a unit vector |
| Common.NormalizeUnguarded | src/js/CurlNoiseParticleSystem.js:560-563 | the unguarded `divideScalar(length)` yields a NaN vector exactly for the zero vector, and otherwise the guarded result |
| Common.CrossIsOrthogonal | dist/webflow-particles.js:887-893 | the cross product is orthogonal to both of its arguments |
| Common.Clamp | dist/webflow-particles.js:1005 | `Math.max(lo, Math.min(hi, x))` lies in `[lo, hi]`, is `x` inside the range and the nearer bound outside it |
| Common.OrDefault | webflow-file.js:15-17 | `x \|\| fallback` keeps a non-zero `x` and replaces zero by the fallback |
| Common.FloorScaled | stomach-tunnel-animation.js:1071-1073 | `Math.floor(r * n)` for `r` in `[0, 1)` is an index below `n` with `k <= r n < k + 1` |
| Common.Put3 | dist/webflow-particles.js:1043-1045 | writing a triple into a flat `[x, y, z, ...]` array changes that triple and no other |
| Camera.EaseEndpoints | dist/webflow-particles.js:5-31 | every easing curve maps 0 to 0 and 1 to 1 |
| Camera.InOutHalvesMeet | dist/webflow-particles.js:17-32 | the two halves of the in-out quadratic and cubic curves agree at 0.5 |
| Camera.EaseInUnit | dist/webflow-particles.js:5-31 | every easing curve maps `[0, 1]` into `[0, 1]` |
| Camera.FrameDelta | dist/webflow-particles.js:1111-1112 | the frame step is the elapsed seconds, capped at the cap and equal to the cap when exceeded |
| Camera.NextLinearProgress | dist/webflow-particles.js:1207-1211 | linear progress advances by `dT / duration`, clamped to `[0, stopPosition]` |
| Camera.EasedProgressInRange | dist/webflow-particles.js:1214-1245 | eased progress stays within `[0, stopPosition]` |
| Camera.EasedProgressEnds | dist/webflow-particles.js:1214-1245 | eased progress is 0 at the start and `stopPosition` at the stop position |
| Camera.LookAtProgress | dist/webflow-particles.js:1251-1252 | the look-at parameter never exceeds 0.99, is at most `lookAhead` past the progress, and is not behind it while progress is at most 0.99 |
| Camera.ScrollCamera.constructor | dist/webflow-particles.js:1193-1252 | both progress values start at 0 |
| Camera.ScrollCamera.UpdateFromScroll | dist/webflow-particles.js:1193-1252 | the new linear and eased progress follow `NextLinearProgress` and `EasedProgress` from the old progress, both in `[0, stopPosition]`, and the look-at parameter is at most 0.99 |
| Camera.StopIsAbsorbing | dist/webflow-particles.js:1207-1245 | once progress reaches the stop position it stays there, eased and linear |
| Camera.LinearProgressIsMonotone | dist/webflow-particles.js:1207-1211 | a non-negative frame step never moves the camera backward |
| Curl.CurlGuarded | dist/webflow-particles.js:903-978 | the scroll-driven curl never yields NaN components, and it is zero exactly when its raw cross product is zero |
| Curl.GuardedIsUnitOrZero | dist/webflow-particles.js:903-978 | the scroll-driven curl is a unit vector or zero |
| Curl.CrossMaybe | src/js/CurlNoiseParticleSystem.js:565-571 | a cross product is NaN exactly when an argument is NaN |
| Curl.NormalizeMaybe | src/js/CurlNoiseParticleSystem.js:560-563 | unguarded normalisation is NaN exactly for a NaN or zero argument |
| Curl.CurlUnguarded | src/js/CurlNoiseParticleSystem.js:581-656 | the source-build curl is a component triple or NaN, never a vector object |
| Curl.UnguardedIsUnit | src/js/CurlNoiseParticleSystem.js:581-656 | a source-build curl that is not NaN is a unit vector |
| Curl.UnguardedIsNaNExactlyWhereGuardedIsZero | src/js/CurlNoiseParticleSystem.js:560-563 | the source-build curl equals the scroll-driven curl except that it is NaN exactly where that one is zero |
| Curl.CurlWebflow | webflow-file.js:723-763 | the Webflow curl is a vector object exactly when `oldMethod` is on, and a component triple otherwise |
| Curl.WebflowCurlIsSwappedGradient | webflow-file.js:726-762 | without `oldMethod`, the Webflow curl is the noise gradient with x and y swapped |
| Curl.CurlStomach | stomach-tunnel-animation.js:763-781 | the stomach curl is the Webflow embed's standard curl with its x and y components exchanged back, i.e. the noise gradient; neither is a curl |
| Curl.UsableCurl | dist/webflow-particles.js:998-1000 | a component triple is used as is, and anything else is replaced by the fallback |
| Curl.WebflowOldMethodAlwaysFallsBack | webflow-file.js:781-785 | with `oldMethod`, every Webflow particle moves along the `(1, 0, 0)` fallback |
| Curl.GuardedNeverFallsBack | dist/webflow-particles.js:998-1000 | the scroll-driven curl never takes the fallback |
| Curl.UnguardedAfterFallbackIsUnit | src/js/CurlNoiseParticleSystem.js:674-678 | after the NaN guard, the source-build curl is always a unit vector |
| Tunnel.RadialMagnitude | src/js/CurlNoiseParticleSystem.js:711-725 | definition of the radial force magnitude for either band set; properties in Tunnel.MagnitudeSign, Tunnel.DistMagnitudeIsContinuous, Tunnel.DistMagnitudeIsExcess and Tunnel.SrcMagnitudeJumpsAtOuterEdge |
| Tunnel.MagnitudeSign | src/js/CurlNoiseParticleSystem.js:711-725 | in both band sets the force pulls inward exactly beyond the outer edge, pushes outward exactly inside the inner edge, and is zero between |
| Tunnel.DistMagnitudeIsContinuous | dist/webflow-particles.js:1013-1027 | the scroll-driven radial magnitude is continuous and non-decreasing in distance, with slope at most the strength |
| Tunnel.DistMagnitudeIsExcess | dist/webflow-particles.js:1013-1027 | the scroll-driven magnitude is the excess beyond `R` minus half the shortfall below `0.8 R`, times the strength |
| Tunnel.SrcMagnitudeJumpsAtOuterEdge | src/js/CurlNoiseParticleSystem.js:718-720 | just beyond `1.2 R`, the source-build force already exceeds `0.2 R k`, so it jumps there |
| Tunnel.ConfinementForce | dist/webflow-particles.js:1013-1034 | definition of the confinement force (also src/js/CurlNoiseParticleSystem.js:711-736); properties in Tunnel.ForceDecomposes and Tunnel.NoForceOnAxis |
| Tunnel.Perpendicular | src/js/CurlNoiseParticleSystem.js:729-735 | the spiral direction is orthogonal to the radial direction and has the same planar length |
| Tunnel.ForceDecomposes | src/js/CurlNoiseParticleSystem.js:711-736 | the confinement force has the radial magnitude toward the path, the spiral factor (when positive) around it, and no depth component |
| Tunnel.NoForceOnAxis | src/js/CurlNoiseParticleSystem.js:711 | a particle on the path's axis feels no confinement force |
| Tunnel.DepthProgress | dist/webflow-particles.js:1004-1005 | the path parameter read from depth lies in the clamp range and equals the raw ratio inside it |
| Tunnel.DepthProgressIsMonotone | src/js/CurlNoiseParticleSystem.js:688-689 | a deeper particle never gets a smaller path parameter |
| Tunnel.ShouldRespawn | dist/webflow-particles.js:1054-1057 | definition of the respawn test (also src/js/CurlNoiseParticleSystem.js:766-769); properties in Particles.StepRespawnsExactlyOutsideBounds |
| Particles.StepRespawnsExactlyOutsideBounds | src/js/CurlNoiseParticleSystem.js:766-769 | one step keeps the moved particle exactly when it is within twice the tunnel radius of its path point, within the build's end margin (two radii scroll-driven, one otherwise) of either end, and within its lifetime; otherwise it respawns |
| Tunnel.FrameIsOrthonormal | src/js/CurlNoiseParticleSystem.js:776-782 | `right` and `upDir` built from the tangent are unit vectors, orthogonal to each other and to the tangent |
| Tunnel.RingOffsetOnCircle | src/js/CurlNoiseParticleSystem.js:785-793 | the respawn offset has length exactly the radius and is square to the path |
| Tunnel.RespawnRadius | dist/webflow-particles.js:1066 | the respawn radius lies in `[0.7 R, R)` |
| Tunnel.RingPointOnCircle | dist/webflow-particles.js:1059-1075 | a respawn point lies on the circle of that radius around its path point, in the plane square to the path |
| Ulcers.UlcerSize | dist/webflow-particles.js:1432 | an ulcer's size is in `[0.7, 1.3)` times the setting in the scroll-driven build and `[0.5, 1.5)` in the source build |
| Ulcers.MakeUlcer | src/js/CurlNoiseParticleSystem.js:1189-1221 | every ulcer sits at a path parameter in `[0.1, 0.9)` |
| Ulcers.GenerateUlcers | src/js/CurlNoiseParticleSystem.js:1183-1237 | `generateUlcers` yields none when ulcers are disabled, otherwise `ulcerCount` ulcers, the `i`-th built from the `i`-th draws |
| Ulcers.WallRadius | src/js/CurlNoiseParticleSystem.js:1207 | definition of the ulcer ring radius per build (also dist/webflow-particles.js:1428); properties in Ulcers.UlcerOnWall |
| Ulcers.UlcerColor | src/js/CurlNoiseParticleSystem.js:1226-1232 | definition of the ulcer colour per build (also dist/webflow-particles.js:1434); the HSL shift is a parameter, so no property beyond the case split is stated |
| Ulcers.UlcerOnWall | dist/webflow-particles.js:1414-1444 | each ulcer lies exactly on its build's wall radius around its path point, square to the path |
| Ulcers.UlcerSizeInRange | src/js/CurlNoiseParticleSystem.js:1214 | each generated ulcer's size is within its build's range of the setting |
| Ulcers.Covers | dist/webflow-particles.js:1390-1391 | definition of "closer to the ulcer than its size" (also src/js/CurlNoiseParticleSystem.js:936-937); properties in Ulcers.FirstCovering and Ulcers.FindCovering |
| Ulcers.FirstCovering | dist/webflow-particles.js:1389-1397 | the result is the first ulcer closer to the particle than its size, and it is None exactly when no ulcer covers the particle |
| Ulcers.FindCovering | src/js/CurlNoiseParticleSystem.js:935-941 | the `for ... break` search returns the first covering ulcer |
| Visibility.InView | dist/webflow-particles.js:1366-1372 | definition of "in front and beyond 10 units"; properties in Visibility.TargetAlpha |
| Visibility.TargetAlpha | dist/webflow-particles.js:1368-1379 | the target alpha is in `[0, 1]`: 0 out of view, 1 before the fog, 0 past the fog's end |
| Visibility.TargetAlphaFadesWithDistance | dist/webflow-particles.js:1372-1378 | for a particle in view, the target alpha never grows with distance |
| Visibility.TargetAlphaIsContinuous | dist/webflow-particles.js:1372-1378 | the target alpha drops no faster than `1 / fogFadeLength` per unit of distance, so there are no jumps at the fog edges |
| Visibility.SmoothAlpha | dist/webflow-particles.js:1381-1384 | the smoothed and clamped alpha stays in `[0, 1]` |
| Visibility.SmoothAlphaApproachesTarget | dist/webflow-particles.js:1381-1384 | each frame the alpha closes 10% of its gap to the target |
| Visibility.SourceOpacity | src/js/CurlNoiseParticleSystem.js:1090-1101 | definition of the source-build fog opacity; properties in Visibility.SourceOpacityInUnit |
| Visibility.SourceOpacityInUnit | src/js/CurlNoiseParticleSystem.js:1090-1101 | the source-build fog opacity is in `[0, 1]` and is 1 before the fog distance |
| Visibility.SourceAlpha | src/js/CurlNoiseParticleSystem.js:1103-1108 | definition of the source-build alpha update; properties in Visibility.SourceAlphaStaysInUnit and Visibility.SourceAlphaAtInUnit |
| Visibility.SourceAlphaStaysInUnit | src/js/CurlNoiseParticleSystem.js:1103-1108 | the source-build alpha stays in `[0, 1]` and never grows for a particle behind the camera |
| Visibility.TintFactorRange | dist/webflow-particles.js:1393-1396 | the ulcer brightening factor lies in `[1, intensity]`: it is `intensity` at the centre and 1 in the outer half |
| Visibility.TintedColor | dist/webflow-particles.js:1386-1398 | a particle that no ulcer covers, or any particle when ulcers are off, keeps its base colour |
| Visibility.CoveredParticleTakesUlcerColor | dist/webflow-particles.js:1386-1398 | a covered particle takes the colour of its first covering ulcer, brightened by a factor in `[1, intensity]` |
| Visibility.SourceAlphaAtInUnit | src/js/CurlNoiseParticleSystem.js:1059-1108 | the source build's per-particle alpha update stays in `[0, 1]` |
| Particles.PathParam | dist/webflow-particles.js:1004-1005 | the path parameter is in `[0, 1]`, and in `[0.001, 0.999]` for the scroll-driven build |
| Particles.RespawnParam | dist/webflow-particles.js:1059-1060 | a respawn picks a path parameter in `[0.1, 0.9)` in the scroll-driven build and in `[0, 1)` otherwise |
| Particles.RespawnRadius | src/js/CurlNoiseParticleSystem.js:788 | the respawn radius is in `[0.7 R, R)` |
| Particles.Step | dist/webflow-particles.js:980-1085 | definition of one iteration of `move` for every build (also src/js/CurlNoiseParticleSystem.js:658-806 and webflow-file.js:765-912); properties in Particles.SurvivorAdvances, Particles.StepRespawnsExactlyOutsideBounds, Particles.ScrollDrivenRespawnResets, Particles.OtherRespawnKeepsLifetimeAndAlpha and Particles.VelocityIsOverwritten |
| Particles.StepWith | src/js/CurlNoiseParticleSystem.js:658-806 | definition of one iteration of `move` once its velocity is known (also webflow-file.js:765-912); properties in Particles.SurvivorAdvancesWith and Particles.StepWithOverwritesVelocity |
| Particles.SurvivorAdvances | dist/webflow-particles.js:1036-1047 | a particle that does not respawn takes the new curl velocity and moves by it (times `dT * 60` in the scroll-driven build), with everything else unchanged except its clock |
| Particles.SurvivorAdvancesWith | src/js/CurlNoiseParticleSystem.js:742-753 | the same, stated for any velocity the step is given |
| Particles.ScrollDrivenRespawnResets | dist/webflow-particles.js:1054-1083 | a scroll-driven respawn resets the clock and alpha to 0, the velocity to forward flow and the lifetime to `[2, 4)`, and places the particle on the respawn ring |
| Particles.OtherRespawnKeepsLifetimeAndAlpha | src/js/CurlNoiseParticleSystem.js:766-806 | a source-build or Webflow respawn resets only the clock and the position, keeping the lifetime, alpha and velocity |
| Particles.RespawnOnRing | webflow-file.js:870-910 | the respawn point lies on the respawn circle around its path point, square to the path |
| Particles.VelocityIsOverwritten | dist/webflow-particles.js:1036-1040 | a particle's previous velocity has no influence on its step |
| Particles.StepWithOverwritesVelocity | src/js/CurlNoiseParticleSystem.js:742-749 | the same, for a step given its velocity |
| Particles.WebflowOldMethodUsesFallback | webflow-file.js:743-753 | with `oldMethod`, the Webflow step always uses the `(1, 0, 0)` fallback curl |
| Particles.ScrollDrivenCurlNeverFallsBack | dist/webflow-particles.js:998-1000 | the scroll-driven step always uses a real curl, which is a unit vector or zero |
| Particles.CurlNoiseSystem.constructor | dist/webflow-particles.js:398-452 | the particles start at their home positions, with clocks and alphas at 0 |
| Particles.CurlNoiseSystem.Move | dist/webflow-particles.js:980-1085 | `move(dT)` replaces each of the first `particleCount` particles by its step and leaves the rest untouched |
| Particles.CurlNoiseSystem.MoveOne | src/js/CurlNoiseParticleSystem.js:658-806 | one loop iteration replaces that particle by its step and changes no other |
| Particles.CurlNoiseSystem.UpdateVisibilitySource | src/js/CurlNoiseParticleSystem.js:1059-1108 | every counted particle's alpha becomes its source-build alpha update and the others keep theirs |
| Particles.CurlNoiseSystem.UpdateGroupVisibility | dist/webflow-particles.js:1331-1405 | for a system's particles, alphas are smoothed toward their targets, positions are copied and colours are the tint times the alpha; no other alpha changes |
| Particles.CurlNoiseSystem.ShowOne | dist/webflow-particles.js:1357-1403 | one particle's alpha, position and colour are written and no other slot changes |
| Particles.TintOf | dist/webflow-particles.js:1386-1398 | the colour loop computes the tinted colour |
| Groups.PushCollects | dist/webflow-particles.js:589-597 | appending a particle to its group keeps the group an ordered, complete record of the particles routed to it |
| Groups.SplitIsPartition | dist/webflow-particles.js:580-620 | every particle is in exactly one of the two groups, the ulcer group exactly when its flag is set |
| Groups.SizeFlags | dist/webflow-particles.js:586 | a particle is an ulcer particle exactly when its size exceeds `1.2 * size` |
| Groups.SplitBySize | dist/webflow-particles.js:580-620 | the categorising loop splits the particles by size into two ordered groups that partition them, with colours brightened by the factor |
| Groups.Route | src/js/CurlNoiseParticleSystem.js:333-361 | one loop iteration routes the particle to the group its flag names |
| Groups.SourceParticleSize | src/js/CurlNoiseParticleSystem.js:931-948 | a particle's size is the ulcer size when some ulcer covers it and the base size otherwise |
| Groups.SizeRuleMatchesSplit | src/js/CurlNoiseParticleSystem.js:944-948 | with a multiplier above 1.2, the size split recovers exactly the ulcer particles; at 1.2 or below it finds none |
| Groups.CreatedSystems | dist/webflow-particles.js:632-666 | a system is created for each non-empty group, and only for those |
| Groups.CreateSystems | dist/webflow-particles.js:632-666 | the system loop computes those systems |
| Groups.SplitSystemsDrawEachOnce | dist/webflow-particles.js:632-666 | after a size split, every particle is drawn exactly once |
| Groups.InitialGroups | webflow-file.js:513-535 | the Webflow embed starts with every particle in the normal group and the ulcer group empty |
| Groups.MouseFlags | webflow-file.js:642-693 | a particle is flagged exactly when it is near the mouse |
| Groups.MouseSplit | webflow-file.js:642-693 | the mouse loop splits the particles into two ordered groups that partition them, in the base colour and in the ulcer colour times `1.5 * intensity` |
| Groups.RebuiltSystems | webflow-file.js:696-720 | the rebuild updates each existing system from its group, in place |
| Groups.RebuiltEntryShowsItsGroup | webflow-file.js:696-720 | a rebuilt system shows its group's indices, and it is visible exactly when that group is non-empty |
| Groups.WebflowSystems.constructor | webflow-file.js:541-572 | the system list is the one created |
| Groups.WebflowSystems.Rebuild | webflow-file.js:619-720 | the system list becomes the rebuilt list |
| Groups.NearMouseParticleIsNotDrawn | webflow-file.js:541-543 | as written, a particle near the mouse is drawn by no system after a rebuild |
| Groups.ParticleAtMouseIsNotDrawn | webflow-file.js:696-720 | a concrete case: a particle at the mouse position is drawn zero times |
| Groups.CreatedSystemsKeepingEmpty | webflow-file.js:541-572 | corrected: a system is kept for every group, visible exactly when the group is non-empty |
| Groups.KeptSystemsDrawEachOnce | webflow-file.js:696-720 | corrected: after a rebuild every particle is drawn exactly once |
| Noise.DoubledTableIsPermTable | dist/webflow-particles.js:50-54 | doubling a byte table gives a 512-entry table of bytes whose halves agree |
| Noise.ByteOf | dist/webflow-particles.js:46-48 | `Math.floor(r * 256)` is a byte with `b <= 256 r < b + 1` |
| Noise.Frac | dist/webflow-particles.js:161-164 | `x - Math.floor(x)` is in `[0, 1)` and differs from `x` by a whole number |
| Noise.SeededRandom | dist/webflow-particles.js:161-164 | the seeded random value is in `[0, 1)` |
| Noise.SeededTable | dist/webflow-particles.js:166-168 | the seeded table is a 256-entry byte table |
| Noise.Wrap255 | dist/webflow-particles.js:115-117 | `c & 255` is a byte congruent to `c` modulo 256 |
| Noise.HashGradient | dist/webflow-particles.js:115-121 | the hashed gradient index is in `[0, 12)` |
| Noise.Simplex3 | dist/webflow-particles.js:67-155 | definition of `simplex3`; properties in Noise.SimplexCorners, Noise.CornerGradients, Noise.CornerTerm and SharedSimplex.Noise3DIsSimplex3 |
| Noise.SimplexCorners | dist/webflow-particles.js:90-98 | the second and third corners are unit steps of size 1 and 2, nested, and follow the order of the cell offsets |
| Noise.CornerTerm | dist/webflow-particles.js:124-150 | a corner outside its falloff radius contributes nothing |
| Noise.CornerGradients | dist/webflow-particles.js:115-121 | all four corner gradient indices are in `[0, 12)` |
| Noise.SimplexNoise.Table | dist/webflow-particles.js:50-54 | the valid table read is the `perm` field |
| Noise.SimplexNoise.constructor | dist/webflow-particles.js:38-55 | `p[i]` is `Math.floor(r_i * 256)` and `perm` is `p` doubled |
| Noise.SimplexNoise.DoublePerm | dist/webflow-particles.js:50-54 | the doubling loop makes `perm` the doubled `p` |
| Noise.SimplexNoise.Seed | dist/webflow-particles.js:160-173 | seeding makes `p` the seeded table and keeps the doubling invariant |
| Noise.SeededPermEntries | dist/webflow-particles.js:160-173 | after seeding, each `perm` entry is the byte of its seeded random value, and both halves agree |
| SharedSimplex.FlatGradientsAgree | webflow-file.js:184-186 | `dot3D` on the flat `grad3` array is the dot product with the gradient vector |
| SharedSimplex.ToUint8 | webflow-file.js:11-13 | storing into a `Uint8Array` yields a byte and keeps bytes unchanged |
| SharedSimplex.Trunc | webflow-file.js:23 | the truncation toward zero behind JavaScript's `% 1`: an integer of the sign of `x` whose magnitude is at most that of `x` and within one of it |
| SharedSimplex.JsMod1 | webflow-file.js:23 | JavaScript `% 1` keeps the sign of its operand and removes a whole number |
| SharedSimplex.SeededByte | webflow-file.js:21-24 | each seeded entry is a byte |
| SharedSimplex.SeededTable | webflow-file.js:21-24 | the seeded table is a 256-entry byte table |
| SharedSimplex.StatesStayInUnitInterval | webflow-file.js:21-24 | from a seed in `[0, 1)`, every state stays in `[0, 1)` and each entry is `Math.floor(state * 256)` |
| SharedSimplex.WholeSeedGivesZeroTable | webflow-file.js:21-24 | a whole-number seed gives a zero table, since `% 1` sends the next state to 0 |
| SharedSimplex.Tables.View | webflow-file.js:11-13 | the seeded tables read as their current contents |
| SharedSimplex.Tables.constructor | webflow-file.js:11-13 | the module tables start zero-filled |
| SharedSimplex.Simplex.constructor | webflow-file.js:15-17 | a new `Simplex` seeds the shared tables with `seed \|\| random` |
| SharedSimplex.Simplex.Seed | webflow-file.js:20-29 | seeding fills `p` with the seeded table and `perm` and `permMod12` from it |
| SharedSimplex.LastSeedWins | webflow-file.js:11-29 | two instances share the tables, so the later seed decides them for both |
| SharedSimplex.Hash3 | webflow-file.js:151-154 | `permMod12` hashing gives the same gradient index as the class version |
| SharedSimplex.Gradients3AreCornerGradients | webflow-file.js:151-154 | the four corner gradients agree with the class version |
| SharedSimplex.Contribution3D | webflow-file.js:155-178 | each corner contribution agrees with the class version |
| SharedSimplex.Noise3D | webflow-file.js:77-180 | definition of `noise3D` over the shared tables; properties in SharedSimplex.Noise3DIsSimplex3 |
| SharedSimplex.Noise3DIsSimplex3 | webflow-file.js:77-180 | `noise3D` over the shared tables equals `simplex3` over the same permutation |
| SharedSimplex.Corner2D | webflow-file.js:41-47 | the 2D middle corner is `(1, 0)` exactly when `x0 > y0`, and `(0, 1)` otherwise |
| SharedSimplex.Hash2 | webflow-file.js:52-56 | the 2D gradient index is in `[0, 12)` |
| StomachPlan.UlcerParamAsWritten | stomach-tunnel-animation.js:479 | as written, the ulcer's path parameter is NaN exactly when `ulcerCount` is 1 |
| StomachPlan.SingleUlcerParamIsNaN | stomach-tunnel-animation.js:479 | a single ulcer gets NaN as written and 0.5 in the corrected rule |
| StomachPlan.UlcerParamAgreesWhenSeveral | stomach-tunnel-animation.js:479 | with two or more ulcers, the corrected rule is the code's value |
| StomachPlan.UlcerParamsEvenlySpaced | stomach-tunnel-animation.js:476-479 | the ulcers run from `(1 - d) / 2` to `(1 + d) / 2` in equal steps of `d / (count - 1)` |
| StomachPlan.UlcerParamInRange | stomach-tunnel-animation.js:479 | every ulcer parameter is within `[(1 - d) / 2, (1 + d) / 2]`, inside `[0, 1]` |
| StomachPlan.CirclePointAtRadius | stomach-tunnel-animation.js:486-489 | the wall point is at exactly the radius from the path point, at the same depth |
| StomachPlan.VariedChannelNear | stomach-tunnel-animation.js:501-511 | a varied colour channel stays in `[0, 1]` and within the variation of the base |
| StomachPlan.StomachUlcerOnWall | stomach-tunnel-animation.js:469-522 | each stomach ulcer built with the corrected parameter sits on the wall radius, with the radial unit normal and a size in `[0.7, 1.3)` of the setting |
| StomachPlan.RadialIsUnit | stomach-tunnel-animation.js:492-496 | the normalised normal is the radial direction itself |
| StomachPlan.WallSlots | stomach-tunnel-animation.js:548-553 | the wall pass fills `min(n, 100 * 20)` slots |
| StomachPlan.UlcerSlotsEnd | stomach-tunnel-animation.js:596-600 | the ulcer pass ends between the wall slots and `n`, and adds nothing when ulcers are off or absent |
| StomachPlan.PhaseOf | stomach-tunnel-animation.js:544-600 | each slot belongs to the wall pass, an ulcer disc or the fill, with its ring, angle, ulcer and member index |
| StomachPlan.WallPhase | stomach-tunnel-animation.js:548-556 | a slot the wall pass fills is found at its ring and angle |
| StomachPlan.UlcerPhase | stomach-tunnel-animation.js:596-600 | a slot an ulcer disc fills is found at its ulcer and member |
| StomachPlan.PlannedSlot | stomach-tunnel-animation.js:524-708 | definition of the contents `initParticles` gives slot `k`; properties in StomachPlan.PlannedKindsAgree, StomachPlan.PlannedSlotRanges and StomachPlan.PlainSlotNearWall |
| StomachPlan.PlannedKindsAgree | stomach-tunnel-animation.js:524-708 | a slot is an ulcer particle exactly when it has an ulcer assignment, exactly in the ulcer pass, and only when ulcers are on |
| StomachPlan.PlannedSlotRanges | stomach-tunnel-animation.js:524-708 | each planned slot has full alpha, a lifetime in `[2, 5)`, and a velocity within its jitter box around the drift (inward for ulcers) |
| StomachPlan.VelocityInBox | stomach-tunnel-animation.js:574-578 | a random velocity of spread `s` lies within `s / 2` on each axis |
| StomachPlan.PlainSlotNearWall | stomach-tunnel-animation.js:555-565 | a wall particle sits at a radius in `[0.95 R, R)` from its path point |
| StomachPlan.ResetSlot | stomach-tunnel-animation.js:929-1023 | definition of one slot after `resetParticles`; properties in StomachPlan.ResetSlotProperties |
| StomachPlan.ResetSlotProperties | stomach-tunnel-animation.js:929-1023 | a reset keeps kind, assignment and lifetime, sets alpha 1, gives a velocity within 0.25 per axis, keeps plain particles' size and colour, and gives ulcer particles their ulcer's colour |
| StomachPlan.PickCount | stomach-tunnel-animation.js:1068 | `Math.floor(n * fraction)` particles are picked |
| StomachPlan.ResetAll | stomach-tunnel-animation.js:929-1023 | a full reset keeps the particle count |
| StomachPlan.PartialReset | stomach-tunnel-animation.js:1062-1106 | a partial reset keeps the particle count |
| StomachPlan.ApplyPick | stomach-tunnel-animation.js:1071-1101 | one pick keeps the particle count |
| StomachPlan.PartialResetSlot | stomach-tunnel-animation.js:1062-1106 | definition of one picked slot after `partialResetParticles`; properties in StomachPlan.PartialResetTouchesOnlyPickedWallSlots |
| StomachPlan.PartialResetTouchesOnlyPickedWallSlots | stomach-tunnel-animation.js:1062-1106 | a partial reset never changes an ulcer particle or an unpicked particle, and never changes a kind or assignment |
| StomachPlan.UpdatedSettings | stomach-tunnel-animation.js:1166-1185 | definition of the settings after `updateUlcerSettings`; properties in StomachPlan.UpdatedSettingsProperties |
| StomachPlan.UpdatedSettingsProperties | stomach-tunnel-animation.js:1166-1207 | the update changes only the five ulcer settings, only those given, and applying it twice is the same as once |
| StomachPlan.Recolored | stomach-tunnel-animation.js:1184-1190 | recolouring gives every ulcer the new colour and changes nothing else |
| StomachPlan.ClosestAmong | stomach-tunnel-animation.js:835-842 | the closest-sample search returns one of the samples it scanned |
| StomachPlan.ClosestAmongIsFirstMinimum | stomach-tunnel-animation.js:835-842 | the result is at least as close as every scanned sample and strictly closer than every earlier one |
| StomachPlan.ClosestIsClosestSample | stomach-tunnel-animation.js:835-842 | the eleven-sample search finds the closest sample |
| StomachPlan.TunnelForce | stomach-tunnel-animation.js:826-864 | definition of the wall force from the closest path sample; properties in StomachPlan.TunnelForceTowardRadius and StomachPlan.ClosestIsClosestSample |
| StomachPlan.TunnelForceTowardRadius | stomach-tunnel-animation.js:846-864 | the wall force along the outward direction is exactly the force factor times the distance |
| StomachPlan.MovedSlot | stomach-tunnel-animation.js:801-877 | definition of one slot after the particle update; properties in StomachPlan.MovedSlotKeeps |
| StomachPlan.MovedSlotKeeps | stomach-tunnel-animation.js:783-883 | a moved particle keeps kind, assignment, size, colour and lifetime, and gets alpha 1; off the force rows it moves by curl velocity times `speed * dT`; without jitter its velocity is the damped curl velocity |
| StomachPlan.MovedAll | stomach-tunnel-animation.js:800-880 | the update keeps the particle count |
| StomachPlan.SafeFogDensity | stomach-tunnel-animation.js:1109-1116 | the fog density is clamped into `[0.0001, 0.01]` and kept when already inside |
| StomachPlan.SafeFogDensityIdempotent | stomach-tunnel-animation.js:1109-1116 | clamping twice is the same as clamping once |
| StomachPlan.CameraProgress | stomach-tunnel-animation.js:887-895 | camera progress is at most 1, non-negative once started, and the elapsed fraction while below 1 |
| StomachPlan.LookAhead | stomach-tunnel-animation.js:906-910 | the look-at parameter is at most 1, not behind the camera, and at most 0.05 ahead |
| Common.MinNat | stomach-tunnel-animation.js:548-553 | the minimum is one of its arguments and at most both |
| Stomach.SlotAtPush | stomach-tunnel-animation.js:555-590 | writing one slot's attributes reads back as that slot and leaves earlier slots unchanged |
| Stomach.StomachTunnel.constructor | stomach-tunnel-animation.js:334-430 | the constructor followed by the core of `init()`: `generateUlcers` makes `ulcerCount` ulcers and `initParticles` fills every slot with its planned contents, with the camera and clocks at their start values |
| Stomach.StomachTunnel.GenerateUlcers | stomach-tunnel-animation.js:469-522 | `generateUlcers` produces `ulcerCount` ulcers, the `i`-th from its draws, placed with the corrected parameter |
| Stomach.StomachTunnel.InitParticles | stomach-tunnel-animation.js:524-708 | `initParticles` fills every slot with its planned contents |
| Stomach.StomachTunnel.WallPass | stomach-tunnel-animation.js:549-593 | the wall loops fill exactly the wall slots as planned |
| Stomach.StomachTunnel.UlcerPass | stomach-tunnel-animation.js:596-668 | the ulcer loops fill exactly the ulcer slots as planned |
| Stomach.StomachTunnel.FillPass | stomach-tunnel-animation.js:671-708 | the fill loop completes the plan for every slot |
| Stomach.StomachTunnel.PlacePlanned | stomach-tunnel-animation.js:555-590 | placing the next planned slot extends the completed prefix by one |
| Stomach.StomachTunnel.Place | stomach-tunnel-animation.js:555-590 | one placement writes that slot's attributes and appends its velocity and lifetime |
| Stomach.StomachTunnel.ResetParticles | stomach-tunnel-animation.js:929-1023 | `resetParticles` replaces every slot by its reset |
| Stomach.StomachTunnel.Rewrite | stomach-tunnel-animation.js:929-1023 | rewriting one slot changes only that slot |
| Stomach.StomachTunnel.PartialResetParticles | stomach-tunnel-animation.js:1062-1106 | `partialResetParticles(fraction)` applies the first `floor(n * fraction)` picks |
| Stomach.StomachTunnel.Move | stomach-tunnel-animation.js:820-877 | one particle gets its new position and velocity and alpha 1, and no other slot changes |
| Stomach.StomachTunnel.UpdateParticles | stomach-tunnel-animation.js:783-883 | when the reset interval has passed, 5% of the particles are partially reset and the clock is stamped; then every particle is moved |
| Stomach.StomachTunnel.MoveAll | stomach-tunnel-animation.js:800-880 | the particle loop moves every slot by the step function |
| Stomach.StomachTunnel.MoveOne | stomach-tunnel-animation.js:801-877 | one iteration moves that slot and no other |
| Stomach.StomachTunnel.Step | stomach-tunnel-animation.js:801-877 | the step computes the moved slot |
| Stomach.StomachTunnel.Drift | stomach-tunnel-animation.js:820-864 | drift plus the wall force on every third row gives the moved position |
| Stomach.StomachTunnel.Damp | stomach-tunnel-animation.js:866-874 | damping and jitter give the moved velocity |
| Stomach.StomachTunnel.WallForce | stomach-tunnel-animation.js:826-864 | the force block computes the wall force |
| Stomach.StomachTunnel.ClosestSample | stomach-tunnel-animation.js:835-842 | the sampling loop returns the closest of the eleven path samples |
| Stomach.StomachTunnel.UpdateCamera | stomach-tunnel-animation.js:885-925 | the camera progresses with time, the look-at point is at most 0.05 ahead, and when progress reaches 1 the loop restarts and every particle is reset |
| Stomach.StomachTunnel.AdvanceClock | stomach-tunnel-animation.js:1042-1045 | the frame step is the elapsed seconds capped at 0.1, and the clock advances by it |
| Stomach.StomachTunnel.UpdateUlcerSettings | stomach-tunnel-animation.js:1166-1207 | the settings take the update; a new colour recolours every ulcer and every ulcer particle, and without one nothing else changes |
| Stomach.StomachTunnel.RecolorUlcers | stomach-tunnel-animation.js:1187-1190 | every ulcer takes the new colour |
| Stomach.StomachTunnel.RecolorParticles | stomach-tunnel-animation.js:1192-1205 | every ulcer particle takes the new colour and other particles keep theirs |

## Left out

- Stomach.StomachTunnel.GenerateUlcers places ulcers with the corrected parameter `StomachPlan.UlcerParam`. At `ulcerCount` 1 the code gives the one ulcer a NaN path parameter, and so a NaN position that its disc particles inherit; the class puts that ulcer at the path point 0.5 instead.
- StomachPlan.StomachUlcerOnWall is stated for ulcers built with the corrected parameter; at `ulcerCount` 1 the code's ulcer has a NaN position and is on no wall.
- Stomach.StomachTunnel.constructor models the constructor's stored settings and clocks and, from `init()`, only `generateUlcers` and `initParticles`. The rest of `init()` (the WebGL check, container and canvas, renderer, particle texture, scene, fog, camera, lights, `getPoints(1000)` and the resize listener) is not modelled.
- Rendering, three.js scene setup, GUI controls, DOM and scroll listeners, stats, and console logging are not modelled. They have no effect on particle state beyond what the model takes as input.
- `Math.random()`, `Date.now()`, `Math.sqrt`, `sin`, `cos`, `exp` and the three.js path (`getPoint`, `getPointAt`, `getTangentAt`) are parameters. Only their stated ranges and identities are used.
- `Color.offsetHSL` and the HSL colour maths are a foreign function parameter.
- The disc-and-depression placement of stomach ulcer particles (a tangent basis from cross products, a `Math.pow` radial profile and a depth along the wall normal) is a `DiscPlacement` parameter.
- Floating point is not modelled: rounding, `Float32Array` storage and infinities are absent. NaN is modelled where the code can produce one when normalising a zero vector and in the curl guard. The stomach ulcer parameter's 0/0 is modelled only by `StomachPlan.UlcerParamAsWritten`; the stomach class does not carry it (see below).
- Typed arrays and `BufferAttribute` arrays are `seq` fields, except the shared Webflow tables and the per-system group buffers, which stay arrays. Aliasing between renderer attributes and the particle arrays is not modelled.
- The float loops `for (t = 0; t < 1; t += 0.01)` and `t += 0.1` are modelled as exactly 100 and 11 iterations, which is how many times they run in IEEE doubles.
- `Math.floor(particleCount * 0.2 / ulcers.length)` is modelled with whole-number division `n / (5 * ulcers)`.
- `Math.pow` in the easing curves is a repeated product. Only whole exponents occur.
- The scroll-driven build's early return when `tunnelPath` or the camera is missing is not modelled.
- The scroll-driven visibility update's outer loop over systems and its `!system.points` guard are not modelled. `UpdateGroupVisibility` is one system's pass.
- In the scroll-driven build, the branch for a system without a colour attribute is not modelled.
- The source build and the Webflow embed do not cap the time step; the model takes `dT` as given.
- Camera shake, `camera.lookAt`, `camera.position` and the fog object are not modelled. The camera methods return the path parameters they would pass to `getPoint`.
- Particles.CurlNoiseSystem.Move: `move` is proved per particle against `Step`. `animate` composing move, visibility and rendering is not modelled as one method.
- Camera.ScrollCamera.UpdateFromScroll requires a positive duration and stop position. The code divides by both, and with zero it would produce Infinity or NaN.
- StomachPlan.CameraProgress requires a positive `animationDuration` for the same reason.
- `options.x || default` can turn an explicit 0 into the default. Settings are taken after that substitution (`Common.OrDefault` states the rule).
- SharedSimplex.Noise2D has no contract. The Webflow embed calls only `noise3D`, and only the 2D corner choice (`Corner2D`) and hashing (`Hash2`) are stated.
- `updateUlcerSettings` also updates the shader materials' uniforms and sizes. Only the settings, the ulcer colours and the particle colours are modelled.
- `regenerateUlcers`, `updateUlcerSizes`, window resize and fullscreen handlers are not modelled. They re-run modelled operations or only touch rendering.

## Findings

| source | as written | input that shows it | evidently intended | confidence | as-written member | corrected member |
|---|---|---|---|---|---|---|
| webflow-file.js:513-543 | every particle starts in the normal group, and the system loop skips empty groups, so no ulcer system is ever created; `rebuildParticleGroups` then only updates existing systems | one particle at the mouse position: after a rebuild it is in the ulcer group, which no system draws, so it disappears | keep a system for every group, so near-mouse particles are drawn by the ulcer system | not executed | Groups.NearMouseParticleIsNotDrawn, Groups.ParticleAtMouseIsNotDrawn | Groups.CreatedSystemsKeepingEmpty, Groups.KeptSystemsDrawEachOnce |
| stomach-tunnel-animation.js:479 | `t = i / (ulcerCount - 1) * distribution + (1 - distribution) / 2` divides 0 by 0 when `ulcerCount` is 1, which `ulcerCount \|\| 6` lets through | `ulcerCount = 1`: the one ulcer's path parameter is NaN | a single ulcer placed at the middle of its range, 0.5 | not executed | StomachPlan.UlcerParamAsWritten, StomachPlan.SingleUlcerParamIsNaN | StomachPlan.UlcerParam, StomachPlan.UlcerParamInRange, StomachPlan.UlcerParamsEvenlySpaced |
