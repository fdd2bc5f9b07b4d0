/**
 * The `SimplexNoise` class shared (line for line) by the scroll-driven
 * tunnel and the stomach tunnel: a 256-entry byte table `p`, its doubled
 * copy `perm`, the 3D simplex noise `simplex3` that hashes lattice corners
 * through `perm`, and `seed`, which refills both tables from a sine-based
 * generator.
 */
module Noise {
  import opened Common

  /** The 12 gradient directions (edge midpoints of a cube). */
  const Grad3: seq<Vec3> := [
    Vec3( 1.0,  1.0,  0.0), Vec3(-1.0,  1.0,  0.0), Vec3( 1.0, -1.0,  0.0), Vec3(-1.0, -1.0,  0.0),
    Vec3( 1.0,  0.0,  1.0), Vec3(-1.0,  0.0,  1.0), Vec3( 1.0,  0.0, -1.0), Vec3(-1.0,  0.0, -1.0),
    Vec3( 0.0,  1.0,  1.0), Vec3( 0.0, -1.0,  1.0), Vec3( 0.0,  1.0, -1.0), Vec3( 0.0, -1.0, -1.0)]

  /** Skew and unskew factors of 3D simplex noise. */
  const F3: real := 1.0 / 3.0
  const G3: real := 1.0 / 6.0

  predicate IsByte(v: int) { 0 <= v < 256 }

  /** `p`: 256 byte-valued entries. */
  predicate IsByteTable(p: seq<int>)
  {
    |p| == 256 && forall i :: 0 <= i < 256 ==> IsByte(p[i])
  }

  /** `perm[i] == p[i & 255]` for every index of the 512-entry table. */
  predicate IsDoubled(p: seq<int>, perm: seq<int>)
  {
    |p| == 256 && |perm| == 512 && forall i :: 0 <= i < 512 ==> perm[i] == p[i % 256]
  }

  /** What `simplex3` needs of `perm`: 512 entries, each a byte. */
  predicate IsPermTable(perm: seq<int>)
  {
    |perm| == 512 && forall i :: 0 <= i < 512 ==> IsByte(perm[i])
  }

  type PermTable = perm: seq<int> | IsPermTable(perm) witness seq(512, _ => 0)

  lemma DoubledTableIsPermTable(p: seq<int>, perm: seq<int>)
    requires IsByteTable(p) && IsDoubled(p, perm)
    ensures IsPermTable(perm)
  {
    forall i | 0 <= i < 512 ensures IsByte(perm[i]) {
      assert perm[i] == p[i % 256];
    }
  }

  /** `Math.floor(r * 256)` for a draw `r` in [0, 1): always a byte. */
  function ByteOf(r: real): (b: int)
    requires 0.0 <= r < 1.0
    ensures IsByte(b)
    ensures b as real <= r * 256.0 < b as real + 1.0
  {
    FloorScaled(r, 256)
  }

  /** `x - Math.floor(x)`: the fractional part, in [0, 1) whatever `x` is. */
  function Frac(x: real): (f: real)
    ensures 0.0 <= f < 1.0
    ensures (x - f).Floor as real == x - f
  {
    x - x.Floor as real
  }

  /**
   * The `i`-th value of the generator `seed(s)` builds: the closure calls
   * `Math.sin(seed++)`, so its `i`-th call reads `sin(s + i)`.
   */
  function SeededRandom(sin: real -> real, s: real, i: nat): (r: real)
    ensures 0.0 <= r < 1.0
  {
    Frac(sin(s + i as real) * 10000.0)
  }

  /** The table `seed(s)` writes into `p`, entry by entry. */
  function SeededTable(sin: real -> real, s: real): (p: seq<int>)
    ensures IsByteTable(p)
  {
    seq(256, i requires 0 <= i < 256 => ByteOf(SeededRandom(sin, s, i)))
  }

  /** `i & 255`: in two's complement this is the non-negative remainder modulo 256. */
  function Wrap255(c: int): (r: int)
    ensures IsByte(r)
    ensures (c - r) % 256 == 0
  {
    c % 256
  }

  /**
   * `perm[a + perm[b + perm[c]]] % 12` for lattice coordinates already
   * wrapped to a byte and stepped by at most one: every nested index stays
   * below 512, and the result picks one of the 12 gradients.
   */
  function HashGradient(perm: PermTable, a: int, b: int, c: int): (g: int)
    requires 0 <= a <= 256 && 0 <= b <= 256 && 0 <= c <= 256
    ensures 0 <= g < 12
  {
    perm[a + perm[b + perm[c]]] % 12
  }

  /** A step from the cell origin to another simplex corner, in lattice units. */
  datatype Offset = Offset(i: int, j: int, k: int)

  predicate IsUnitStep(o: Offset)
  {
    0 <= o.i <= 1 && 0 <= o.j <= 1 && 0 <= o.k <= 1
  }

  function StepCount(o: Offset): int { o.i + o.j + o.k }

  /**
   * The choice of the second and third simplex corners from the position
   * `(x0, y0, z0)` inside the cell.  The simplex is walked along the axes in
   * decreasing order of the coordinates: the second corner steps along an
   * axis of a largest coordinate, and the third corner adds the next axis,
   * leaving out an axis of a smallest coordinate.
   */
  function SimplexCorners(x0: real, y0: real, z0: real): (r: (Offset, Offset))
    ensures IsUnitStep(r.0) && StepCount(r.0) == 1
    ensures IsUnitStep(r.1) && StepCount(r.1) == 2
    ensures r.0.i <= r.1.i && r.0.j <= r.1.j && r.0.k <= r.1.k
    ensures r.0.i == 1 ==> x0 >= y0 && x0 >= z0
    ensures r.0.j == 1 ==> y0 >= x0 && y0 >= z0
    ensures r.0.k == 1 ==> z0 >= x0 && z0 >= y0
    ensures r.1.i == 0 ==> x0 <= y0 && x0 <= z0
    ensures r.1.j == 0 ==> y0 <= x0 && y0 <= z0
    ensures r.1.k == 0 ==> z0 <= x0 && z0 <= y0
  {
    if x0 >= y0 then
      if y0 >= z0 then (Offset(1, 0, 0), Offset(1, 1, 0))
      else if x0 >= z0 then (Offset(1, 0, 0), Offset(1, 0, 1))
      else (Offset(0, 0, 1), Offset(1, 0, 1))
    else
      if y0 < z0 then (Offset(0, 0, 1), Offset(0, 1, 1))
      else if x0 < z0 then (Offset(0, 1, 0), Offset(0, 1, 1))
      else (Offset(0, 1, 0), Offset(1, 1, 0))
  }

  /** The radial falloff `0.6 - x^2 - y^2 - z^2` of one corner. */
  function Falloff(d: Vec3): real
  {
    0.6 - d.x * d.x - d.y * d.y - d.z * d.z
  }

  /**
   * One corner's contribution: zero outside the falloff radius, otherwise
   * `t^4` times the dot product of the corner's gradient with `d`.  The
   * gradient enters only through that dot product, `dot`.
   */
  function CornerTerm(t: real, dot: real): (n: real)
    ensures t < 0.0 ==> n == 0.0
  {
    if t < 0.0 then 0.0
    else
      var t2 := t * t;
      t2 * t2 * dot
  }

  /** The distance from a corner reached by `o` to the sample, given the distance `d0` from the cell origin. */
  function FromCorner(d0: Vec3, o: Offset, unskew: real): Vec3
  {
    Vec3(d0.x - o.i as real + unskew, d0.y - o.j as real + unskew, d0.z - o.k as real + unskew)
  }

  /** The skewed cell origin `(i, j, k)` and the sample's distance from its unskewed position. */
  function Cell(xin: real, yin: real, zin: real): (c: (Offset, Vec3))
  {
    var s := (xin + yin + zin) * F3;
    var i := (xin + s).Floor;
    var j := (yin + s).Floor;
    var k := (zin + s).Floor;
    var t := (i + j + k) as real * G3;
    (Offset(i, j, k), Vec3(xin - (i as real - t), yin - (j as real - t), zin - (k as real - t)))
  }

  /** One corner's contribution with the gradient picked by the hash `g`. */
  function Contribution(g: int, d: Vec3): real
    requires 0 <= g < 12
  {
    CornerTerm(Falloff(d), Dot(Grad3[g], d))
  }

  /**
   * The gradient indices `gi0 .. gi3` of the four corners of the simplex
   * whose origin is the lattice cell `cell` and whose middle corners are
   * reached by `o1` and `o2`.
   */
  function CornerGradients(perm: PermTable, cell: Offset, o1: Offset, o2: Offset): (g: (int, int, int, int))
    requires IsUnitStep(o1) && IsUnitStep(o2)
    ensures 0 <= g.0 < 12 && 0 <= g.1 < 12 && 0 <= g.2 < 12 && 0 <= g.3 < 12
  {
    var ii := Wrap255(cell.i);
    var jj := Wrap255(cell.j);
    var kk := Wrap255(cell.k);
    (HashGradient(perm, ii, jj, kk),
     HashGradient(perm, ii + o1.i, jj + o1.j, kk + o1.k),
     HashGradient(perm, ii + o2.i, jj + o2.j, kk + o2.k),
     HashGradient(perm, ii + 1, jj + 1, kk + 1))
  }

  /** `simplex3(xin, yin, zin)` over the table `perm`. */
  function Simplex3(perm: PermTable, xin: real, yin: real, zin: real): real
  {
    var (cell, d0) := Cell(xin, yin, zin);
    var (o1, o2) := SimplexCorners(d0.x, d0.y, d0.z);
    var g := CornerGradients(perm, cell, o1, o2);
    32.0 * (Contribution(g.0, d0)
          + Contribution(g.1, FromCorner(d0, o1, G3))
          + Contribution(g.2, FromCorner(d0, o2, 2.0 * G3))
          + Contribution(g.3, FromCorner(d0, Offset(1, 1, 1), 3.0 * G3)))
  }

  /**
   * The noise object: `p` and `perm` are JavaScript arrays that the
   * constructor builds and `seed` overwrites in place.
   */
  class SimplexNoise {
    var p: seq<int>
    var perm: seq<int>

    ghost predicate Valid()
      reads this
    {
      IsByteTable(p) && IsDoubled(p, perm)
    }

    /** The table `simplex3` reads. */
    function Table(): (t: PermTable)
      reads this
      requires Valid()
      ensures t == perm
    {
      DoubledTableIsPermTable(p, perm);
      perm
    }

    /** `new SimplexNoise(random)`: `draws` are the 256 values of `random.random()`. */
    constructor (draws: seq<real>)
      requires |draws| == 256 && forall i :: 0 <= i < 256 ==> 0.0 <= draws[i] < 1.0
      ensures Valid()
      ensures forall i :: 0 <= i < 256 ==> p[i] == ByteOf(draws[i])
    {
      p := [];
      perm := [];
      new;
      var i := 0;
      while i < 256
        invariant 0 <= i <= 256 && |p| == i
        invariant forall k :: 0 <= k < i ==> p[k] == ByteOf(draws[k])
      {
        p := p + [ByteOf(draws[i])];
        i := i + 1;
      }
      DoublePerm();
    }

    /** The loop `perm[i] = p[i & 255]` for `i` below 512. */
    method DoublePerm()
      requires IsByteTable(p)
      modifies this`perm
      ensures Valid()
    {
      var q: seq<int> := [];
      var i := 0;
      while i < 512
        invariant 0 <= i <= 512 && |q| == i
        invariant forall k :: 0 <= k < i ==> q[k] == p[k % 256]
      {
        q := q + [p[Wrap255(i)]];
        i := i + 1;
      }
      perm := q;
    }

    /** `seed(s)`: refill `p` from the sine generator in place, then rebuild `perm`. */
    method Seed(sin: real -> real, s: real)
      requires Valid()
      modifies this
      ensures Valid()
      ensures p == SeededTable(sin, s)
    {
      var i := 0;
      while i < 256
        invariant 0 <= i <= 256 && |p| == 256
        invariant forall k :: 0 <= k < i ==> p[k] == ByteOf(SeededRandom(sin, s, k))
        invariant forall k :: 0 <= k < 256 ==> IsByte(p[k])
      {
        p := p[i := ByteOf(SeededRandom(sin, s, i))];
        i := i + 1;
      }
      DoublePerm();
    }
  }

  /** After `seed(s)`, every entry `simplex3` can reach is the byte the generator produced for it. */
  lemma SeededPermEntries(n: SimplexNoise, sin: real -> real, s: real, i: int)
    requires n.Valid() && n.p == SeededTable(sin, s) && 0 <= i < 512
    ensures n.perm[i] == ByteOf(SeededRandom(sin, s, i % 256))
    ensures n.perm[i] == n.perm[(i + 256) % 512]
  {
  }
}
