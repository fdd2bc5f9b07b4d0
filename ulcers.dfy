/**
 * Ulcers: patches on the tunnel wall that recolour (and in the source
 * build enlarge) the particles close to them.  `generateUlcers` of the
 * scroll-driven build and of the source build places each at a random
 * path parameter and angle on the ring around the path, with a random size
 * and a colour varied by `Color.offsetHSL`.  A particle is covered by an
 * ulcer when it is closer to the ulcer than the ulcer's size; the first
 * covering ulcer in list order is the one that counts.
 */
module Ulcers {
  import opened Common
  import Tunnel

  /** The two builds whose `generateUlcers` differ: radius, size range and colour variation. */
  datatype Build = ScrollBuild | SourceBuild

  /** An ulcer; `color` is an `(r, g, b)` triple. */
  datatype Ulcer = Ulcer(position: Vec3, size: real, pathPos: real, color: Vec3)

  /** three.js `Color.offsetHSL(h, s, l)` applied to a copy of a colour: foreign. */
  type HslShift = (Vec3, real, real, real) -> Vec3

  /**
   * The `Math.random()` values one ulcer draws, in order: path parameter,
   * angle, size, then up to three for the colour (hue, saturation and
   * lightness offsets in the scroll-driven build; the two choices between
   * yellowish and reddish in the source build).
   */
  datatype UlcerDraws = UlcerDraws(path: real, theta: real, size: real, c1: real, c2: real, c3: real)

  predicate ValidUlcerDraws(d: UlcerDraws)
  {
    0.0 <= d.path < 1.0 && 0.0 <= d.theta < 1.0 && 0.0 <= d.size < 1.0 &&
    0.0 <= d.c1 < 1.0 && 0.0 <= d.c2 < 1.0 && 0.0 <= d.c3 < 1.0
  }

  /** The ring radius: on the wall in the scroll-driven build, 2% inside it in the source build. */
  function WallRadius(b: Build, tunnelRadius: real): real
  {
    if b == ScrollBuild then tunnelRadius else tunnelRadius * 0.98
  }

  /** `ulcerSize * (0.7 + r * 0.6)` in the scroll-driven build, `ulcerSize * (0.5 + r)` in the source build. */
  function UlcerSize(b: Build, ulcerSize: real, draw: real): (size: real)
    requires 0.0 <= draw < 1.0
    ensures b == ScrollBuild && 0.0 < ulcerSize ==> 0.7 * ulcerSize <= size < 1.3 * ulcerSize
    ensures b == SourceBuild && 0.0 < ulcerSize ==> 0.5 * ulcerSize <= size < 1.5 * ulcerSize
  {
    if b == ScrollBuild then Varied(ulcerSize, 0.7, 0.6, draw) else Varied(ulcerSize, 0.5, 1.0, draw)
  }

  /** `s * (lo + r * w)`: lies in `[lo s, (lo + w) s)` for a positive `s` and `r` in `[0, 1)`. */
  function Varied(s: real, lo: real, w: real, r: real): (x: real)
    requires 0.0 < w && 0.0 <= r < 1.0
    ensures 0.0 < s ==> lo * s <= x < (lo + w) * s
  {
    if 0.0 < s then
      assert 0.0 <= r * w < w by { assert r * w < 1.0 * w; }
      Tunnel.PositiveProduct(s, w - r * w);
      s * (lo + r * w)
    else s * (lo + r * w)
  }

  /**
   * The colour variation.  The scroll-driven build offsets hue, saturation
   * and lightness by small amounts; the source build makes three in ten
   * ulcers yellowish and half of the rest reddish and darker.
   */
  function UlcerColor(b: Build, base: Vec3, shift: HslShift, d: UlcerDraws): Vec3
  {
    if b == ScrollBuild then shift(base, (d.c1 - 0.5) * 0.1, (d.c2 - 0.3) * 0.2, (d.c3 - 0.5) * 0.1)
    else if d.c1 < 0.3 then shift(base, 0.05, 0.3, 0.0)
    else if d.c2 < 0.5 then shift(base, -0.05, 0.2, -0.1)
    else base
  }

  /** The settings `generateUlcers` reads. */
  datatype UlcerSettings = UlcerSettings(
    enableUlcers: bool,
    ulcerCount: nat,
    tunnelRadius: real,
    ulcerSize: real,
    ulcerColor: Vec3)

  /** One ulcer, from its draws. */
  function MakeUlcer(b: Build, m: MathLib, path: Curve, shift: HslShift, s: UlcerSettings, d: UlcerDraws): (u: Ulcer)
    requires IsSqrt(m.sqrt) && ValidUlcerDraws(d)
    ensures 0.1 <= u.pathPos < 0.9
  {
    var pathPos := 0.1 + d.path * 0.8;
    var theta := WallAngle(m, d);
    Ulcer(Tunnel.RingPoint(m, path, pathPos, WallRadius(b, s.tunnelRadius), theta), UlcerSize(b, s.ulcerSize, d.size), pathPos, UlcerColor(b, s.ulcerColor, shift, d))
  }

  /**
   * `generateUlcers`: no ulcers when they are disabled, otherwise
   * `ulcerCount` of them, the `i`-th made from the `i`-th draws.
   */
  method GenerateUlcers(b: Build, m: MathLib, path: Curve, shift: HslShift, s: UlcerSettings, draws: seq<UlcerDraws>)
    returns (ulcers: seq<Ulcer>)
    requires IsSqrt(m.sqrt) && s.ulcerCount <= |draws|
    requires forall i :: 0 <= i < |draws| ==> ValidUlcerDraws(draws[i])
    ensures !s.enableUlcers ==> ulcers == []
    ensures s.enableUlcers ==> |ulcers| == s.ulcerCount
    ensures forall i :: 0 <= i < |ulcers| ==> ulcers[i] == MakeUlcer(b, m, path, shift, s, draws[i])
  {
    ulcers := [];
    if !s.enableUlcers {
      return;
    }
    var i := 0;
    while i < s.ulcerCount
      invariant 0 <= i <= s.ulcerCount && |ulcers| == i
      invariant forall k :: 0 <= k < i ==> ulcers[k] == MakeUlcer(b, m, path, shift, s, draws[k])
    {
      ulcers := ulcers + [MakeUlcer(b, m, path, shift, s, draws[i])];
      i := i + 1;
    }
  }

  /** `WallAngle`: `random * Math.PI * 2`, the angle round the ring. */
  function WallAngle(m: MathLib, d: UlcerDraws): real
  {
    d.theta * m.pi * 2.0
  }

  /**
   * Each ulcer sits at distance exactly the wall radius from the path point
   * at its parameter, square to the path.
   */
  lemma UlcerOnWall(b: Build, m: MathLib, path: Curve, shift: HslShift, s: UlcerSettings, d: UlcerDraws)
    requires ValidMath(m) && ValidUlcerDraws(d)
    requires path.tangentAt(0.1 + d.path * 0.8) != Zero
    ensures var u := MakeUlcer(b, m, path, shift, s, d);
            var offset := Sub(u.position, path.pointAt(u.pathPos));
            NormSq(offset) == Sq(WallRadius(b, s.tunnelRadius)) &&
            Dot(offset, Normalize(m.sqrt, path.tangentAt(u.pathPos))) == 0.0
  {
    Tunnel.RingPointOnCircle(m, path, 0.1 + d.path * 0.8, WallRadius(b, s.tunnelRadius), WallAngle(m, d));
  }

  /** Each ulcer's size lies in its build's range of the configured size. */
  lemma UlcerSizeInRange(b: Build, m: MathLib, path: Curve, shift: HslShift, s: UlcerSettings, d: UlcerDraws)
    requires IsSqrt(m.sqrt) && ValidUlcerDraws(d) && 0.0 < s.ulcerSize
    ensures var u := MakeUlcer(b, m, path, shift, s, d);
            (b == ScrollBuild ==> 0.7 * s.ulcerSize <= u.size < 1.3 * s.ulcerSize) &&
            (b == SourceBuild ==> 0.5 * s.ulcerSize <= u.size < 1.5 * s.ulcerSize)
  {}

  /** Whether `pos` is closer to the ulcer than the ulcer's size. */
  predicate Covers(sqrt: real -> real, pos: Vec3, u: Ulcer)
    requires IsSqrt(sqrt)
  {
    Length(sqrt, Sub(pos, u.position)) < u.size
  }

  /** The first ulcer at index `from` or later that covers `pos`. */
  function FirstCovering(sqrt: real -> real, pos: Vec3, ulcers: seq<Ulcer>, from: nat): (k: Option<nat>)
    requires IsSqrt(sqrt) && from <= |ulcers|
    ensures k.Some? ==> from <= k.value < |ulcers| && Covers(sqrt, pos, ulcers[k.value])
    ensures k.Some? ==> forall j :: from <= j < k.value ==> !Covers(sqrt, pos, ulcers[j])
    ensures k.None? <==> forall j :: from <= j < |ulcers| ==> !Covers(sqrt, pos, ulcers[j])
    decreases |ulcers| - from
  {
    if from == |ulcers| then None
    else if Covers(sqrt, pos, ulcers[from]) then Some(from)
    else FirstCovering(sqrt, pos, ulcers, from + 1)
  }

  /** The `for (const ulcer of ulcers) { if (distance < ulcer.size) { …; break; } }` search. */
  method FindCovering(sqrt: real -> real, pos: Vec3, ulcers: seq<Ulcer>) returns (k: Option<nat>)
    requires IsSqrt(sqrt)
    ensures k == FirstCovering(sqrt, pos, ulcers, 0)
  {
    var i := 0;
    while i < |ulcers|
      invariant 0 <= i <= |ulcers|
      invariant FirstCovering(sqrt, pos, ulcers, 0) == FirstCovering(sqrt, pos, ulcers, i)
    {
      if Length(sqrt, Sub(pos, ulcers[i].position)) < ulcers[i].size {
        return Some(i);
      }
      i := i + 1;
    }
    return None;
  }
}
