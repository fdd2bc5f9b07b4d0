/**
 * The simplex noise bundled with the mouse-driven Webflow embed.  Its
 * tables `p`, `perm` and `permMod12` are `Uint8Array`s created once at
 * module level: every `Simplex` object reads and reseeds the same three
 * buffers.  `seed` fills `p` from a linear congruential sequence, each store
 * into a `Uint8Array` keeping the value modulo 256.
 */
module SharedSimplex {
  import opened Common
  import Noise

  /** The 12 gradients flattened into 36 numbers, as the `grad3` Float32Array lays them out. */
  const Grad3Flat: seq<real> := [
     1.0,  1.0,  0.0,  -1.0,  1.0,  0.0,   1.0, -1.0,  0.0,  -1.0, -1.0,  0.0,
     1.0,  0.0,  1.0,  -1.0,  0.0,  1.0,   1.0,  0.0, -1.0,  -1.0,  0.0, -1.0,
     0.0,  1.0,  1.0,   0.0, -1.0,  1.0,   0.0,  1.0, -1.0,   0.0, -1.0, -1.0]

  /** `dot3D(grad3, gi, x, y, z)`: reads entries `3 gi .. 3 gi + 2`, all below 36. */
  function Dot3D(gi: int, d: Vec3): real
    requires 0 <= gi < 12
  {
    Grad3Flat[gi * 3] * d.x + Grad3Flat[gi * 3 + 1] * d.y + Grad3Flat[gi * 3 + 2] * d.z
  }

  /** `dot2D(grad3, gi, x, y)`: the first two components of the same gradient. */
  function Dot2D(gi: int, x: real, y: real): real
    requires 0 <= gi < 12
  {
    Grad3Flat[gi * 3] * x + Grad3Flat[gi * 3 + 1] * y
  }

  /** The flat table holds the same 12 gradients as the nested one of the other variants. */
  lemma FlatGradientsAgree(gi: int, d: Vec3)
    requires 0 <= gi < 12
    ensures Dot3D(gi, d) == Dot(Noise.Grad3[gi], d)
  {
    assert gi in {0, 1, 2, 3, 4, 5, 6, 7, 8, 9, 10, 11};
  }

  /** Storing the integer `n` into a `Uint8Array` keeps `n` modulo 256. */
  function ToUint8(n: int): (b: int)
    ensures Noise.IsByte(b)
    ensures 0 <= n < 256 ==> b == n
  {
    n % 256
  }

  /**
   * Truncation toward zero: the integer of the same sign as `x` whose
   * magnitude is within one below that of `x`.
   */
  function Trunc(x: real): (n: int)
    ensures 0.0 <= x ==> 0 <= n && n as real <= x < n as real + 1.0
    ensures x < 0.0 ==> n <= 0 && n as real - 1.0 < x <= n as real
  {
    if 0.0 <= x then x.Floor else -((-x).Floor)
  }

  /** JavaScript `x % 1`: the part after the point, carrying the sign of `x`. */
  function JsMod1(x: real): (r: real)
    ensures 0.0 <= x ==> 0.0 <= r < 1.0
    ensures x < 0.0 ==> -1.0 < r <= 0.0
    ensures (x - r).Floor as real == x - r
  {
    x - Trunc(x) as real
  }

  /** The generator's state after `i` steps of `seed = (seed * 22695477 + 1) % 1`. */
  function LcgState(s: real, i: nat): real
  {
    if i == 0 then s else JsMod1(LcgState(s, i - 1) * 22695477.0 + 1.0)
  }

  /** The byte `seed(s)` writes into `p[i]`: `Math.floor(state * 256)` stored into a `Uint8Array`. */
  function SeededByte(s: real, i: nat): (b: int)
    ensures Noise.IsByte(b)
  {
    ToUint8((LcgState(s, i) * 256.0).Floor)
  }

  function SeededTable(s: real): (p: seq<int>)
    ensures Noise.IsByteTable(p)
  {
    seq(256, i requires 0 <= i < 256 => SeededByte(s, i))
  }

  /**
   * A seed in [0, 1), which is what the embed always passes (`Math.random()`),
   * keeps every later state in [0, 1), so no store into `p` wraps.
   */
  lemma {:induction false} StatesStayInUnitInterval(s: real, i: nat)
    requires 0.0 <= s < 1.0
    ensures 0.0 <= LcgState(s, i) < 1.0
    ensures SeededByte(s, i) == (LcgState(s, i) * 256.0).Floor
  {
    if i > 0 {
      StatesStayInUnitInterval(s, i - 1);
      var prev := LcgState(s, i - 1);
      assert 0.0 <= prev * 22695477.0;
    }
    var b := Noise.ByteOf(LcgState(s, i));
  }

  /**
   * A whole-number seed is degenerate: `seed * 256` is a multiple of 256,
   * which the byte store turns into 0, and the next state is exactly 0, so
   * the table is all zeros.
   */
  lemma {:induction false} WholeSeedGivesZeroTable(n: int, i: nat)
    requires 0 <= n
    ensures LcgState(n as real, i) == (if i == 0 then n as real else 0.0)
    ensures SeededByte(n as real, i) == 0
  {
    if i > 0 {
      WholeSeedGivesZeroTable(n, i - 1);
      var prev := LcgState(n as real, i - 1);
      if i == 1 {
        assert prev * 22695477.0 + 1.0 == (n * 22695477 + 1) as real;
      } else {
        assert prev * 22695477.0 + 1.0 == 1.0;
      }
    } else {
      assert (n as real * 256.0).Floor == n * 256;
    }
  }

  /** The contents `noise2D` and `noise3D` read: `perm` and `permMod12`. */
  datatype TableView = TableView(perm: seq<int>, permMod12: seq<int>)

  predicate IsModTables(v: TableView)
  {
    Noise.IsPermTable(v.perm) && |v.permMod12| == 512 &&
    forall i :: 0 <= i < 512 ==> v.permMod12[i] == v.perm[i] % 12
  }

  type ModTables = v: TableView | IsModTables(v) witness TableView(seq(512, _ => 0), seq(512, _ => 0))

  /** The module-level buffers `p`, `perm` and `permMod12`, allocated once. */
  class Tables {
    const p: array<int>
    const perm: array<int>
    const permMod12: array<int>

    ghost predicate Valid()
      reads this
    {
      p.Length == 256 && perm.Length == 512 && permMod12.Length == 512 &&
      p != perm && p != permMod12 && perm != permMod12
    }

    /** The three tables after a completed `seed`. */
    ghost predicate Seeded()
      reads this, p, perm, permMod12
    {
      Valid() && Noise.IsByteTable(p[..]) && Noise.IsDoubled(p[..], perm[..]) &&
      forall i :: 0 <= i < 512 ==> permMod12[i] == perm[i] % 12
    }

    function View(): (v: ModTables)
      reads this, p, perm, permMod12
      requires Seeded()
      ensures v.perm == perm[..] && v.permMod12 == permMod12[..]
    {
      Noise.DoubledTableIsPermTable(p[..], perm[..]);
      TableView(perm[..], permMod12[..])
    }

    /** `new Uint8Array(256)` and twice `new Uint8Array(512)`: zero-filled. */
    constructor ()
      ensures Valid() && fresh(p) && fresh(perm) && fresh(permMod12)
      ensures forall i :: 0 <= i < 256 ==> p[i] == 0
      ensures forall i :: 0 <= i < 512 ==> perm[i] == 0 && permMod12[i] == 0
    {
      p := new int[256](_ => 0);
      perm := new int[512](_ => 0);
      permMod12 := new int[512](_ => 0);
    }
  }

  /** A `Simplex` object: it owns no tables, only a reference to the module's. */
  class Simplex {
    const tables: Tables

    /** `new Simplex(seed)`: seeds the shared tables with `seed || Math.random()`. */
    constructor (tables: Tables, seed: real, random: real)
      requires tables.Valid() && 0.0 <= random < 1.0
      modifies tables.p, tables.perm, tables.permMod12
      ensures this.tables == tables && tables.Seeded()
      ensures tables.p[..] == SeededTable(OrDefault(seed, random))
    {
      this.tables := tables;
      new;
      Seed(OrDefault(seed, random));
    }

    /** `seed(s)`: overwrite `p`, then rebuild `perm` and `permMod12`, in the shared buffers. */
    method Seed(s: real)
      requires tables.Valid()
      modifies tables.p, tables.perm, tables.permMod12
      ensures tables.Seeded()
      ensures tables.p[..] == SeededTable(s)
    {
      var p, perm, permMod12 := tables.p, tables.perm, tables.permMod12;
      var state := s;
      var i := 0;
      while i < 256
        invariant 0 <= i <= 256 && state == LcgState(s, i)
        invariant forall k :: 0 <= k < i ==> p[k] == SeededByte(s, k)
      {
        p[i] := ToUint8((state * 256.0).Floor);
        state := JsMod1(state * 22695477.0 + 1.0);
        i := i + 1;
      }
      assert p[..] == SeededTable(s);
      i := 0;
      while i < 512
        invariant 0 <= i <= 512
        invariant p[..] == SeededTable(s)
        invariant forall k :: 0 <= k < i ==> perm[k] == p[k % 256] && permMod12[k] == perm[k] % 12
      {
        perm[i] := p[Noise.Wrap255(i)];
        permMod12[i] := perm[i] % 12;
        i := i + 1;
      }
    }
  }

  /**
   * Because the tables belong to the module, seeding one object reseeds
   * every other: after `a.seed(s1)` and then `b.seed(s2)`, `a` samples the
   * tables of `s2`.
   */
  method LastSeedWins(a: Simplex, b: Simplex, s1: real, s2: real)
    requires a.tables == b.tables && a.tables.Valid()
    modifies a.tables.p, a.tables.perm, a.tables.permMod12
    ensures a.tables.Seeded() && a.tables.p[..] == SeededTable(s2)
  {
    a.Seed(s1);
    b.Seed(s2);
  }

  /** `permMod12[a + perm[b + perm[c]]]`: every nested index stays below 512. */
  function Hash3(v: ModTables, a: int, b: int, c: int): (g: int)
    requires 0 <= a <= 256 && 0 <= b <= 256 && 0 <= c <= 256
    ensures 0 <= g < 12
    ensures g == Noise.HashGradient(v.perm, a, b, c)
  {
    v.permMod12[a + v.perm[b + v.perm[c]]]
  }

  /** The hashed gradient indices of the four corners, read through `permMod12`. */
  function Gradients3(v: ModTables, cell: Noise.Offset, o1: Noise.Offset, o2: Noise.Offset): (g: (int, int, int, int))
    requires Noise.IsUnitStep(o1) && Noise.IsUnitStep(o2)
    ensures 0 <= g.0 < 12 && 0 <= g.1 < 12 && 0 <= g.2 < 12 && 0 <= g.3 < 12
  {
    var ii := Noise.Wrap255(cell.i);
    var jj := Noise.Wrap255(cell.j);
    var kk := Noise.Wrap255(cell.k);
    (Hash3(v, ii, jj, kk),
     Hash3(v, ii + o1.i, jj + o1.j, kk + o1.k),
     Hash3(v, ii + o2.i, jj + o2.j, kk + o2.k),
     Hash3(v, ii + 1, jj + 1, kk + 1))
  }

  /** Reading `permMod12` picks the same four gradients as `perm[...] % 12`. */
  lemma Gradients3AreCornerGradients(v: ModTables, cell: Noise.Offset, o1: Noise.Offset, o2: Noise.Offset)
    requires Noise.IsUnitStep(o1) && Noise.IsUnitStep(o2)
    ensures Gradients3(v, cell, o1, o2) == Noise.CornerGradients(v.perm, cell, o1, o2)
  {
    var g := Gradients3(v, cell, o1, o2);
    var h := Noise.CornerGradients(v.perm, cell, o1, o2);
    assert g.0 == h.0 && g.1 == h.1;
    assert g.2 == h.2 && g.3 == h.3;
  }

  /** One corner's contribution, with the gradient read from the flat table. */
  function Contribution3D(gi: int, d: Vec3): (n: real)
    requires 0 <= gi < 12
    ensures n == Noise.Contribution(gi, d)
  {
    FlatGradientsAgree(gi, d);
    Noise.CornerTerm(Noise.Falloff(d), Dot3D(gi, d))
  }

  /** `noise3D(xin, yin, zin)`. */
  function Noise3D(v: ModTables, xin: real, yin: real, zin: real): real
  {
    var (cell, d0) := Noise.Cell(xin, yin, zin);
    var (o1, o2) := Noise.SimplexCorners(d0.x, d0.y, d0.z);
    var g := Gradients3(v, cell, o1, o2);
    32.0 * (Contribution3D(g.0, d0)
          + Contribution3D(g.1, Noise.FromCorner(d0, o1, Noise.G3))
          + Contribution3D(g.2, Noise.FromCorner(d0, o2, 2.0 * Noise.G3))
          + Contribution3D(g.3, Noise.FromCorner(d0, Noise.Offset(1, 1, 1), 3.0 * Noise.G3)))
  }

  /**
   * The Webflow `noise3D`, with its `permMod12` table and flat gradient
   * array, computes exactly the `simplex3` of the other two variants over
   * the same `perm`.
   */
  lemma Noise3DIsSimplex3(v: ModTables, xin: real, yin: real, zin: real)
    ensures Noise3D(v, xin, yin, zin) == Noise.Simplex3(v.perm, xin, yin, zin)
  {
    var (cell, d0) := Noise.Cell(xin, yin, zin);
    var (o1, o2) := Noise.SimplexCorners(d0.x, d0.y, d0.z);
    Gradients3AreCornerGradients(v, cell, o1, o2);
  }

  /** The 2D corner choice: step along x first exactly when `x0 > y0`. */
  function Corner2D(x0: real, y0: real): (o: (int, int))
    ensures o == (1, 0) || o == (0, 1)
    ensures o == (1, 0) <==> x0 > y0
  {
    if x0 > y0 then (1, 0) else (0, 1)
  }

  /** `permMod12[a + perm[b]]`: both indices stay below 512. */
  function Hash2(v: ModTables, a: int, b: int): (g: int)
    requires 0 <= a <= 256 && 0 <= b <= 256
    ensures 0 <= g < 12
  {
    v.permMod12[a + v.perm[b]]
  }

  /** One corner of `noise2D`: radius 0.5 falloff. */
  function Corner2DTerm(gi: int, x: real, y: real): real
    requires 0 <= gi < 12
  {
    Noise.CornerTerm(0.5 - x * x - y * y, Dot2D(gi, x, y))
  }

  /** `noise2D(xin, yin)`; `sqrt` supplies `Math.sqrt(3)` for the skew factors. */
  function Noise2D(v: ModTables, sqrt: real -> real, xin: real, yin: real): real
  {
    var r3 := sqrt(3.0);
    var f2 := 0.5 * (r3 - 1.0);
    var g2 := (3.0 - r3) / 6.0;
    var s := (xin + yin) * f2;
    var i := (xin + s).Floor;
    var j := (yin + s).Floor;
    var t := (i + j) as real * g2;
    var x0 := xin - (i as real - t);
    var y0 := yin - (j as real - t);
    var (i1, j1) := Corner2D(x0, y0);
    var ii := Noise.Wrap255(i);
    var jj := Noise.Wrap255(j);
    70.0 * (Corner2DTerm(Hash2(v, ii, jj), x0, y0)
          + Corner2DTerm(Hash2(v, ii + i1, jj + j1), x0 - i1 as real + g2, y0 - j1 as real + g2)
          + Corner2DTerm(Hash2(v, ii + 1, jj + 1), x0 - 1.0 + 2.0 * g2, y0 - 1.0 + 2.0 * g2))
  }
}
