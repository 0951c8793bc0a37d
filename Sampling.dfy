/** The public entry points noise and pnoise (warp/native/noise.h:549-867): a
    coordinate is mapped to the lattice cell around it and the cell evaluator is
    called.  `noise` takes the cell [floor(x), floor(x) + 1]; `pnoise` wraps both
    corner indices of each axis with `mod` and a per-axis period.  The gradient
    versions used by the adjoints and by curl noise pick each axis' selector
    ("heaviside") by comparing the fractional offset with an epsilon.

    `mod` and the epsilon (_EPSILON) come from outside noise.h, so they are
    parameters; `IsTrueMod` states the modulo the periodic variant relies on. */
module Sampling {
  import opened Fade
  import opened Lattice
  import opened Perlin

  // ---------------------------------------------------------------------------
  // Cells

  /** One axis of a lattice cell: low and high corner index and the fractional
      offset of the coordinate from the low corner. */
  datatype Cell = Cell(i0: int, i1: int, f: real)

  /** The cell of `noise` (noise.h:553-556): x0 = floor(x), x1 = x0 + 1, dx = x - floor(x). */
  function NoiseCell(x: real): (c: Cell)
    ensures c.i1 == c.i0 + 1
    ensures 0.0 <= c.f < 1.0
    ensures c.i0 as real + c.f == x
  {
    Cell(x.Floor, x.Floor + 1, x - x.Floor as real)
  }

  /** The three conditions of `NoiseCell` pin the cell down: any cell meeting them
      is the one `noise` uses. */
  lemma NoiseCellUnique(x: real, c: Cell)
    requires c.i1 == c.i0 + 1
    requires 0.0 <= c.f < 1.0
    requires c.i0 as real + c.f == x
    ensures c == NoiseCell(x)
  {
    var d := NoiseCell(x);
    FloorUnique(x, c.i0, d.i0);
  }

  /** Two integers within less than 1 below x, each with x below it plus 1, are equal. */
  lemma FloorUnique(x: real, i: int, j: int)
    requires i as real <= x < i as real + 1.0
    requires j as real <= x < j as real + 1.0
    ensures i == j
  {
  }

  /** Moving x inside its cell keeps the corner indices and moves the offset. */
  lemma NoiseCellShift(x: real, h: real)
    requires 0.0 <= NoiseCell(x).f + h < 1.0
    ensures NoiseCell(x + h) == Cell(NoiseCell(x).i0, NoiseCell(x).i1, NoiseCell(x).f + h)
  {
    var c := NoiseCell(x);
    NoiseCellUnique(x + h, Cell(c.i0, c.i1, c.f + h));
  }

  /** The modulo pnoise needs: for every period p >= 1, the mathematical remainder
      in [0, p) (Dafny's `%` on int is that remainder). */
  ghost predicate IsTrueMod(mod: (int, int) -> int)
  {
    forall a: int, p: int :: p >= 1 ==> mod(a, p) == a % p
  }

  /** The Euclidean remainder, extended to p = 0 so that it is total. */
  function EuclideanMod(a: int, p: int): int
  {
    if p == 0 then a else a % p
  }

  /** `IsTrueMod` can be met. */
  lemma EuclideanModIsTrueMod()
    ensures IsTrueMod(EuclideanMod)
  {
  }

  /** The cell of `pnoise` (noise.h:713-716): x0 = mod(floor(x), p) and
      x1 = mod(x0 + 1, p), with the same offset as `noise`. */
  function PeriodicCell(mod: (int, int) -> int, x: real, p: int): Cell
  {
    var x0 := mod(x.Floor, p);
    Cell(x0, mod(x0 + 1, p), x - x.Floor as real)
  }

  /** With a true modulo and p >= 1 both corner indices lie in [0, p); the high
      index follows the low one, wrapping to 0 after p - 1. */
  lemma PeriodicCellRange(mod: (int, int) -> int, x: real, p: int)
    requires IsTrueMod(mod) && p >= 1
    ensures 0 <= PeriodicCell(mod, x, p).i0 < p
    ensures 0 <= PeriodicCell(mod, x, p).i1 < p
    ensures PeriodicCell(mod, x, p).i0 < p - 1 ==> PeriodicCell(mod, x, p).i1 == PeriodicCell(mod, x, p).i0 + 1
    ensures PeriodicCell(mod, x, p).i0 == p - 1 ==> PeriodicCell(mod, x, p).i1 == 0
    ensures PeriodicCell(mod, x, p).f == NoiseCell(x).f
  {
    var a := x.Floor;
    var r := a % p;
    assert mod(a, p) == r;
    assert mod(r + 1, p) == (r + 1) % p;
    if r < p - 1 {
      DivModUnique(r + 1, 0, r + 1, p);
    } else {
      DivModUnique(r + 1, 1, 0, p);
    }
  }

  /** pnoise's cell is noise's cell with both indices reduced modulo p. */
  lemma PeriodicCellIsReduced(mod: (int, int) -> int, x: real, p: int)
    requires IsTrueMod(mod) && p >= 1
    ensures PeriodicCell(mod, x, p).i0 == NoiseCell(x).i0 % p
    ensures PeriodicCell(mod, x, p).i1 == NoiseCell(x).i1 % p
  {
    var a := x.Floor;
    assert mod(a, p) == a % p;
    assert mod(a % p + 1, p) == (a % p + 1) % p;
    ModSuccessor(a, p);
  }

  lemma ModSuccessor(a: int, p: int)
    requires p >= 1
    ensures (a % p + 1) % p == (a + 1) % p
  {
    var q := a / p;
    assert a == q * p + a % p;
    ModShift(a % p + 1, q, p);
  }

  /** Adding a multiple of p does not change the remainder. */
  lemma ModShift(a: int, k: int, p: int)
    requires p >= 1
    ensures (a + k * p) % p == a % p
  {
    var r := a % p;
    var q := a / p;
    assert a + k * p == (q + k) * p + r;
    DivModUnique(a + k * p, q + k, r, p);
  }

  /** n = q*p + r with r in [0, p) fixes n % p = r. */
  lemma DivModUnique(n: int, q: int, r: int, p: int)
    requires p >= 1 && 0 <= r < p && n == q * p + r
    ensures n % p == r
  {
    var q' := n / p;
    var r' := n % p;
    assert q' * p + r' == q * p + r;
    if q' > q {
      assert (q' - q) * p == r - r';
      MulAtLeast(q' - q, p);
    } else if q' < q {
      assert (q - q') * p == r' - r;
      MulAtLeast(q - q', p);
    }
  }

  lemma MulAtLeast(k: int, p: int)
    requires k >= 1 && p >= 1
    ensures k * p >= p
  {
  }

  /** Shifting x by k whole periods leaves pnoise's cell unchanged. */
  lemma PeriodicCellPeriodic(mod: (int, int) -> int, x: real, p: int, k: int)
    requires IsTrueMod(mod) && p >= 1
    ensures PeriodicCell(mod, x + (k * p) as real, p) == PeriodicCell(mod, x, p)
  {
    var a := x.Floor;
    var b := (x + (k * p) as real).Floor;
    FloorShift(x, k * p);
    assert b == a + k * p;
    assert mod(b, p) == b % p;
    assert mod(a, p) == a % p;
    ModShift(a, k, p);
  }

  /** floor(x + n) = floor(x) + n for an integer n. */
  lemma FloorShift(x: real, n: int)
    ensures (x + n as real).Floor == x.Floor + n
    ensures (x + n as real) - (x + n as real).Floor as real == x - x.Floor as real
  {
    FloorUnique(x + n as real, (x + n as real).Floor, x.Floor + n);
  }

  /** Inside one period, away from its last cell, pnoise uses noise's cell. */
  lemma PeriodicCellInsidePeriod(mod: (int, int) -> int, x: real, p: int)
    requires IsTrueMod(mod)
    requires 0.0 <= x && x.Floor + 1 < p
    ensures PeriodicCell(mod, x, p) == NoiseCell(x)
  {
    var a := x.Floor;
    assert a >= 0 by {
      assert x < a as real + 1.0;
    }
    assert mod(a, p) == a % p;
    assert mod(a + 1, p) == (a + 1) % p;
    DivModUnique(a, 0, a, p);
    DivModUnique(a + 1, 0, a + 1, p);
  }

  // ---------------------------------------------------------------------------
  // Selectors

  /** heaviside_* (noise.h:565-566): 0 below the epsilon, otherwise 1. */
  function Heaviside(f: real, eps: real): (s: real)
    ensures s == 0.0 <==> f < eps
    ensures s == 1.0 <==> eps <= f
  {
    if f < eps then 0.0 else 1.0
  }

  // ---------------------------------------------------------------------------
  // noise

  /** noise(seed, x) (noise.h:551-559). */
  function Noise1(rng: Rng, seed: bv32, x: real): real
  {
    var c := NoiseCell(x);
    Noise1d(rng, seed, c.i0, c.i1, c.f)
  }

  /** noise(seed, xy) (noise.h:575-587). */
  function Noise2(rng: Rng, seed: bv32, xy: Vec2): real
  {
    var cx := NoiseCell(xy.x);
    var cy := NoiseCell(xy.y);
    Noise2d(rng, seed, cx.i0, cy.i0, cx.i1, cy.i1, cx.f, cy.f)
  }

  /** noise(seed, xyz) (noise.h:611-626). */
  function Noise3(rng: Rng, seed: bv32, xyz: Vec3): real
  {
    var cx := NoiseCell(xyz.x);
    var cy := NoiseCell(xyz.y);
    var cz := NoiseCell(xyz.z);
    Noise3d(rng, seed, cx.i0, cy.i0, cz.i0, cx.i1, cy.i1, cz.i1, cx.f, cy.f, cz.f)
  }

  /** noise(seed, xyzt) (noise.h:655-673). */
  function Noise4(rng: Rng, seed: bv32, xyzt: Vec4): real
  {
    var cx := NoiseCell(xyzt.x);
    var cy := NoiseCell(xyzt.y);
    var cz := NoiseCell(xyzt.z);
    var ct := NoiseCell(xyzt.w);
    Noise4d(rng, seed, cx.i0, cy.i0, cz.i0, ct.i0, cx.i1, cy.i1, cz.i1, ct.i1, cx.f, cy.f, cz.f, ct.f)
  }

  /** The gradient adj_noise(seed, x, ...) reads (noise.h:563-571). */
  function NoiseGradient1(rng: Rng, eps: real, seed: bv32, x: real): real
  {
    var c := NoiseCell(x);
    Noise1dGradient(rng, seed, c.i0, c.i1, c.f, Heaviside(c.f, eps))
  }

  /** The gradient adj_noise(seed, xy, ...) and curlnoise(seed, xy) read
      (noise.h:591-605, 873-886). */
  function NoiseGradient2(rng: Rng, eps: real, seed: bv32, xy: Vec2): Vec2
  {
    var cx := NoiseCell(xy.x);
    var cy := NoiseCell(xy.y);
    Noise2dGradient(rng, seed, cx.i0, cy.i0, cx.i1, cy.i1, cx.f, cy.f, Heaviside(cx.f, eps), Heaviside(cy.f, eps))
  }

  /** The gradient adj_noise(seed, xyz, ...) and curlnoise(seed, xyz) read
      (noise.h:630-649, 894-917). */
  function NoiseGradient3(rng: Rng, eps: real, seed: bv32, xyz: Vec3): Vec3
  {
    var cx := NoiseCell(xyz.x);
    var cy := NoiseCell(xyz.y);
    var cz := NoiseCell(xyz.z);
    Noise3dGradient(rng, seed, cx.i0, cy.i0, cz.i0, cx.i1, cy.i1, cz.i1, cx.f, cy.f, cz.f,
                    Heaviside(cx.f, eps), Heaviside(cy.f, eps), Heaviside(cz.f, eps))
  }

  /** The gradient adj_noise(seed, xyzt, ...) and curlnoise(seed, xyzt) read
      (noise.h:677-701, 929-957). */
  function NoiseGradient4(rng: Rng, eps: real, seed: bv32, xyzt: Vec4): Vec4
  {
    var cx := NoiseCell(xyzt.x);
    var cy := NoiseCell(xyzt.y);
    var cz := NoiseCell(xyzt.z);
    var ct := NoiseCell(xyzt.w);
    Noise4dGradient(rng, seed, cx.i0, cy.i0, cz.i0, ct.i0, cx.i1, cy.i1, cz.i1, ct.i1, cx.f, cy.f, cz.f, ct.f,
                    Heaviside(cx.f, eps), Heaviside(cy.f, eps), Heaviside(cz.f, eps), Heaviside(ct.f, eps))
  }

  // ---------------------------------------------------------------------------
  // pnoise

  /** pnoise(seed, x, px) (noise.h:711-719). */
  function Pnoise1(rng: Rng, mod: (int, int) -> int, seed: bv32, x: real, px: int): real
  {
    var c := PeriodicCell(mod, x, px);
    Noise1d(rng, seed, c.i0, c.i1, c.f)
  }

  /** pnoise(seed, xy, px, py) (noise.h:735-747). */
  function Pnoise2(rng: Rng, mod: (int, int) -> int, seed: bv32, xy: Vec2, px: int, py: int): real
  {
    var cx := PeriodicCell(mod, xy.x, px);
    var cy := PeriodicCell(mod, xy.y, py);
    Noise2d(rng, seed, cx.i0, cy.i0, cx.i1, cy.i1, cx.f, cy.f)
  }

  /** pnoise(seed, xyz, px, py, pz) (noise.h:771-786). */
  function Pnoise3(rng: Rng, mod: (int, int) -> int, seed: bv32, xyz: Vec3, px: int, py: int, pz: int): real
  {
    var cx := PeriodicCell(mod, xyz.x, px);
    var cy := PeriodicCell(mod, xyz.y, py);
    var cz := PeriodicCell(mod, xyz.z, pz);
    Noise3d(rng, seed, cx.i0, cy.i0, cz.i0, cx.i1, cy.i1, cz.i1, cx.f, cy.f, cz.f)
  }

  /** pnoise(seed, xyzt, px, py, pz, pt) (noise.h:815-833). */
  function Pnoise4(rng: Rng, mod: (int, int) -> int, seed: bv32, xyzt: Vec4,
                   px: int, py: int, pz: int, pt: int): real
  {
    var cx := PeriodicCell(mod, xyzt.x, px);
    var cy := PeriodicCell(mod, xyzt.y, py);
    var cz := PeriodicCell(mod, xyzt.z, pz);
    var ct := PeriodicCell(mod, xyzt.w, pt);
    Noise4d(rng, seed, cx.i0, cy.i0, cz.i0, ct.i0, cx.i1, cy.i1, cz.i1, ct.i1, cx.f, cy.f, cz.f, ct.f)
  }

  /** The gradient adj_pnoise(seed, x, px, ...) reads (noise.h:723-730). */
  function PnoiseGradient1(rng: Rng, mod: (int, int) -> int, eps: real, seed: bv32, x: real, px: int): real
  {
    var c := PeriodicCell(mod, x, px);
    Noise1dGradient(rng, seed, c.i0, c.i1, c.f, Heaviside(c.f, eps))
  }

  /** The gradient adj_pnoise(seed, xy, px, py, ...) reads (noise.h:751-765). */
  function PnoiseGradient2(rng: Rng, mod: (int, int) -> int, eps: real, seed: bv32, xy: Vec2,
                           px: int, py: int): Vec2
  {
    var cx := PeriodicCell(mod, xy.x, px);
    var cy := PeriodicCell(mod, xy.y, py);
    Noise2dGradient(rng, seed, cx.i0, cy.i0, cx.i1, cy.i1, cx.f, cy.f, Heaviside(cx.f, eps), Heaviside(cy.f, eps))
  }

  /** The gradient adj_pnoise(seed, xyz, px, py, pz, ...) reads (noise.h:790-808). */
  function PnoiseGradient3(rng: Rng, mod: (int, int) -> int, eps: real, seed: bv32, xyz: Vec3,
                           px: int, py: int, pz: int): Vec3
  {
    var cx := PeriodicCell(mod, xyz.x, px);
    var cy := PeriodicCell(mod, xyz.y, py);
    var cz := PeriodicCell(mod, xyz.z, pz);
    Noise3dGradient(rng, seed, cx.i0, cy.i0, cz.i0, cx.i1, cy.i1, cz.i1, cx.f, cy.f, cz.f,
                    Heaviside(cx.f, eps), Heaviside(cy.f, eps), Heaviside(cz.f, eps))
  }

  /** The gradient adj_pnoise(seed, xyzt, px, py, pz, pt, ...) reads (noise.h:837-861). */
  function PnoiseGradient4(rng: Rng, mod: (int, int) -> int, eps: real, seed: bv32, xyzt: Vec4,
                           px: int, py: int, pz: int, pt: int): Vec4
  {
    var cx := PeriodicCell(mod, xyzt.x, px);
    var cy := PeriodicCell(mod, xyzt.y, py);
    var cz := PeriodicCell(mod, xyzt.z, pz);
    var ct := PeriodicCell(mod, xyzt.w, pt);
    Noise4dGradient(rng, seed, cx.i0, cy.i0, cz.i0, ct.i0, cx.i1, cy.i1, cz.i1, ct.i1, cx.f, cy.f, cz.f, ct.f,
                    Heaviside(cx.f, eps), Heaviside(cy.f, eps), Heaviside(cz.f, eps), Heaviside(ct.f, eps))
  }

  // ---------------------------------------------------------------------------
  // Periodicity

  /** pnoise is periodic: shifting each coordinate by a whole number of its
      periods gives the same value. */
  lemma Pnoise1Periodic(rng: Rng, mod: (int, int) -> int, seed: bv32, x: real, px: int, k: int)
    requires IsTrueMod(mod) && px >= 1
    ensures Pnoise1(rng, mod, seed, x + (k * px) as real, px) == Pnoise1(rng, mod, seed, x, px)
  {
    PeriodicCellPeriodic(mod, x, px, k);
  }

  lemma Pnoise2Periodic(rng: Rng, mod: (int, int) -> int, seed: bv32, xy: Vec2, px: int, py: int,
                        kx: int, ky: int)
    requires IsTrueMod(mod) && px >= 1 && py >= 1
    ensures Pnoise2(rng, mod, seed, Vec2(xy.x + (kx * px) as real, xy.y + (ky * py) as real), px, py)
         == Pnoise2(rng, mod, seed, xy, px, py)
  {
    var shifted := Vec2(xy.x + (kx * px) as real, xy.y + (ky * py) as real);
    PeriodicCellPeriodic(mod, xy.x, px, kx);
    PeriodicCellPeriodic(mod, xy.y, py, ky);
    assert PeriodicCell(mod, shifted.x, px) == PeriodicCell(mod, xy.x, px);
    assert PeriodicCell(mod, shifted.y, py) == PeriodicCell(mod, xy.y, py);
  }

  lemma Pnoise3Periodic(rng: Rng, mod: (int, int) -> int, seed: bv32, xyz: Vec3, px: int, py: int, pz: int,
                        kx: int, ky: int, kz: int)
    requires IsTrueMod(mod) && px >= 1 && py >= 1 && pz >= 1
    ensures Pnoise3(rng, mod, seed, Vec3(xyz.x + (kx * px) as real, xyz.y + (ky * py) as real,
                                         xyz.z + (kz * pz) as real), px, py, pz)
         == Pnoise3(rng, mod, seed, xyz, px, py, pz)
  {
    var shifted := Vec3(xyz.x + (kx * px) as real, xyz.y + (ky * py) as real, xyz.z + (kz * pz) as real);
    PeriodicCellPeriodic(mod, xyz.x, px, kx);
    PeriodicCellPeriodic(mod, xyz.y, py, ky);
    PeriodicCellPeriodic(mod, xyz.z, pz, kz);
    assert PeriodicCell(mod, shifted.x, px) == PeriodicCell(mod, xyz.x, px);
    assert PeriodicCell(mod, shifted.y, py) == PeriodicCell(mod, xyz.y, py);
    assert PeriodicCell(mod, shifted.z, pz) == PeriodicCell(mod, xyz.z, pz);
  }

  lemma Pnoise4Periodic(rng: Rng, mod: (int, int) -> int, seed: bv32, xyzt: Vec4,
                        px: int, py: int, pz: int, pt: int, kx: int, ky: int, kz: int, kt: int)
    requires IsTrueMod(mod) && px >= 1 && py >= 1 && pz >= 1 && pt >= 1
    ensures Pnoise4(rng, mod, seed, Vec4(xyzt.x + (kx * px) as real, xyzt.y + (ky * py) as real,
                                         xyzt.z + (kz * pz) as real, xyzt.w + (kt * pt) as real),
                    px, py, pz, pt)
         == Pnoise4(rng, mod, seed, xyzt, px, py, pz, pt)
  {
    var shifted := Vec4(xyzt.x + (kx * px) as real, xyzt.y + (ky * py) as real, xyzt.z + (kz * pz) as real, xyzt.w + (kt * pt) as real);
    PeriodicCellPeriodic(mod, xyzt.x, px, kx);
    PeriodicCellPeriodic(mod, xyzt.y, py, ky);
    PeriodicCellPeriodic(mod, xyzt.z, pz, kz);
    PeriodicCellPeriodic(mod, xyzt.w, pt, kt);
    assert PeriodicCell(mod, shifted.x, px) == PeriodicCell(mod, xyzt.x, px);
    assert PeriodicCell(mod, shifted.y, py) == PeriodicCell(mod, xyzt.y, py);
    assert PeriodicCell(mod, shifted.z, pz) == PeriodicCell(mod, xyzt.z, pz);
    assert PeriodicCell(mod, shifted.w, pt) == PeriodicCell(mod, xyzt.w, pt);
  }

  /** The gradients adj_pnoise reads are periodic in the same way. */
  lemma PnoiseGradient1Periodic(rng: Rng, mod: (int, int) -> int, eps: real, seed: bv32, x: real, px: int, k: int)
    requires IsTrueMod(mod) && px >= 1
    ensures PnoiseGradient1(rng, mod, eps, seed, x + (k * px) as real, px) == PnoiseGradient1(rng, mod, eps, seed, x, px)
  {
    PeriodicCellPeriodic(mod, x, px, k);
  }

  lemma PnoiseGradient2Periodic(rng: Rng, mod: (int, int) -> int, eps: real, seed: bv32, xy: Vec2,
                                px: int, py: int, kx: int, ky: int)
    requires IsTrueMod(mod) && px >= 1 && py >= 1
    ensures PnoiseGradient2(rng, mod, eps, seed, Vec2(xy.x + (kx * px) as real, xy.y + (ky * py) as real), px, py)
         == PnoiseGradient2(rng, mod, eps, seed, xy, px, py)
  {
    var shifted := Vec2(xy.x + (kx * px) as real, xy.y + (ky * py) as real);
    PeriodicCellPeriodic(mod, xy.x, px, kx);
    PeriodicCellPeriodic(mod, xy.y, py, ky);
    assert PeriodicCell(mod, shifted.x, px) == PeriodicCell(mod, xy.x, px);
    assert PeriodicCell(mod, shifted.y, py) == PeriodicCell(mod, xy.y, py);
  }

  lemma PnoiseGradient3Periodic(rng: Rng, mod: (int, int) -> int, eps: real, seed: bv32, xyz: Vec3,
                                px: int, py: int, pz: int, kx: int, ky: int, kz: int)
    requires IsTrueMod(mod) && px >= 1 && py >= 1 && pz >= 1
    ensures PnoiseGradient3(rng, mod, eps, seed, Vec3(xyz.x + (kx * px) as real, xyz.y + (ky * py) as real,
                                                      xyz.z + (kz * pz) as real), px, py, pz)
         == PnoiseGradient3(rng, mod, eps, seed, xyz, px, py, pz)
  {
    var shifted := Vec3(xyz.x + (kx * px) as real, xyz.y + (ky * py) as real, xyz.z + (kz * pz) as real);
    PeriodicCellPeriodic(mod, xyz.x, px, kx);
    PeriodicCellPeriodic(mod, xyz.y, py, ky);
    PeriodicCellPeriodic(mod, xyz.z, pz, kz);
    assert PeriodicCell(mod, shifted.x, px) == PeriodicCell(mod, xyz.x, px);
    assert PeriodicCell(mod, shifted.y, py) == PeriodicCell(mod, xyz.y, py);
    assert PeriodicCell(mod, shifted.z, pz) == PeriodicCell(mod, xyz.z, pz);
  }

  lemma PnoiseGradient4Periodic(rng: Rng, mod: (int, int) -> int, eps: real, seed: bv32, xyzt: Vec4,
                                px: int, py: int, pz: int, pt: int, kx: int, ky: int, kz: int, kt: int)
    requires IsTrueMod(mod) && px >= 1 && py >= 1 && pz >= 1 && pt >= 1
    ensures PnoiseGradient4(rng, mod, eps, seed, Vec4(xyzt.x + (kx * px) as real, xyzt.y + (ky * py) as real,
                                                      xyzt.z + (kz * pz) as real, xyzt.w + (kt * pt) as real),
                            px, py, pz, pt)
         == PnoiseGradient4(rng, mod, eps, seed, xyzt, px, py, pz, pt)
  {
    var shifted := Vec4(xyzt.x + (kx * px) as real, xyzt.y + (ky * py) as real, xyzt.z + (kz * pz) as real, xyzt.w + (kt * pt) as real);
    PeriodicCellPeriodic(mod, xyzt.x, px, kx);
    PeriodicCellPeriodic(mod, xyzt.y, py, ky);
    PeriodicCellPeriodic(mod, xyzt.z, pz, kz);
    PeriodicCellPeriodic(mod, xyzt.w, pt, kt);
    assert PeriodicCell(mod, shifted.x, px) == PeriodicCell(mod, xyzt.x, px);
    assert PeriodicCell(mod, shifted.y, py) == PeriodicCell(mod, xyzt.y, py);
    assert PeriodicCell(mod, shifted.z, pz) == PeriodicCell(mod, xyzt.z, pz);
    assert PeriodicCell(mod, shifted.w, pt) == PeriodicCell(mod, xyzt.w, pt);
  }

  /** Inside one period pnoise agrees with noise. */
  lemma Pnoise1InsidePeriod(rng: Rng, mod: (int, int) -> int, seed: bv32, x: real, px: int)
    requires IsTrueMod(mod)
    requires 0.0 <= x && x.Floor + 1 < px
    ensures Pnoise1(rng, mod, seed, x, px) == Noise1(rng, seed, x)
  {
    PeriodicCellInsidePeriod(mod, x, px);
  }

  // ---------------------------------------------------------------------------
  // Selectors and slopes at the coordinate level

  /** On a cell boundary (offset below the epsilon) the gradient is 0: the
      one-sided convention of the selectors. */
  lemma NoiseGradient1Flat(rng: Rng, eps: real, seed: bv32, x: real)
    requires NoiseCell(x).f < eps
    ensures NoiseGradient1(rng, eps, seed, x) == 0.0
  {
    var c := NoiseCell(x);
    Noise1dGradientOff(rng, seed, c.i0, c.i1, c.f);
  }

  /** Away from the low boundary the gradient is the slope of noise: moving x by h
      inside its cell moves noise by h times the gradient, up to an h^2 term. */
  lemma NoiseGradient1IsSlope(rng: Rng, eps: real, seed: bv32, x: real, h: real)
    requires eps <= NoiseCell(x).f
    requires 0.0 <= NoiseCell(x).f + h < 1.0
    ensures Noise1(rng, seed, x + h)
         == Eval(Jet(Noise1(rng, seed, x), NoiseGradient1(rng, eps, seed, x),
                     Noise1dRemainder(rng, seed, NoiseCell(x).i0, NoiseCell(x).i1, NoiseCell(x).f, 1.0, h)), h)
  {
    var c := NoiseCell(x);
    NoiseCellShift(x, h);
    Noise1dMoved(rng, seed, c.i0, c.i1, c.f, 1.0, h, c.f + h);
  }

  lemma NoiseGradient2Flat(rng: Rng, eps: real, seed: bv32, xy: Vec2)
    ensures NoiseCell(xy.x).f < eps ==> NoiseGradient2(rng, eps, seed, xy).x == 0.0
    ensures NoiseCell(xy.y).f < eps ==> NoiseGradient2(rng, eps, seed, xy).y == 0.0
  {
    var cx := NoiseCell(xy.x);
    var cy := NoiseCell(xy.y);
    Noise2dGradientOff(rng, seed, cx.i0, cy.i0, cx.i1, cy.i1, cx.f, cy.f, Heaviside(cx.f, eps), Heaviside(cy.f, eps));
  }

  lemma NoiseGradient2IsSlopeX(rng: Rng, eps: real, seed: bv32, xy: Vec2, h: real)
    requires eps <= NoiseCell(xy.x).f
    requires 0.0 <= NoiseCell(xy.x).f + h < 1.0
    ensures Noise2(rng, seed, Vec2(xy.x + h, xy.y))
         == Eval(Jet(Noise2(rng, seed, xy), NoiseGradient2(rng, eps, seed, xy).x,
                     Noise2Remainder(rng, seed, xy, 1.0, 0.0, h)), h)
  {
    var cx := NoiseCell(xy.x);
    var cy := NoiseCell(xy.y);
    NoiseCellShift(xy.x, h);
    Noise2dMoved(rng, seed, cx.i0, cy.i0, cx.i1, cy.i1, cx.f, cy.f, 1.0, 0.0, h, cx.f + h, cy.f);
  }

  lemma NoiseGradient2IsSlopeY(rng: Rng, eps: real, seed: bv32, xy: Vec2, h: real)
    requires eps <= NoiseCell(xy.y).f
    requires 0.0 <= NoiseCell(xy.y).f + h < 1.0
    ensures Noise2(rng, seed, Vec2(xy.x, xy.y + h))
         == Eval(Jet(Noise2(rng, seed, xy), NoiseGradient2(rng, eps, seed, xy).y,
                     Noise2Remainder(rng, seed, xy, 0.0, 1.0, h)), h)
  {
    var cx := NoiseCell(xy.x);
    var cy := NoiseCell(xy.y);
    NoiseCellShift(xy.y, h);
    Noise2dMoved(rng, seed, cx.i0, cy.i0, cx.i1, cy.i1, cx.f, cy.f, 0.0, 1.0, h, cx.f, cy.f + h);
  }

  /** The h^2 coefficient of noise at xyz moved by h along (ex, ey, ez) inside its cell. */
  function Noise3Remainder(rng: Rng, seed: bv32, xyz: Vec3, ex: real, ey: real, ez: real, h: real): real
  {
    var cx := NoiseCell(xyz.x);
    var cy := NoiseCell(xyz.y);
    var cz := NoiseCell(xyz.z);
    Noise3dRemainder(rng, seed, cx.i0, cy.i0, cz.i0, cx.i1, cy.i1, cz.i1, cx.f, cy.f, cz.f, ex, ey, ez, h)
  }

  lemma NoiseGradient3Flat(rng: Rng, eps: real, seed: bv32, xyz: Vec3)
    ensures NoiseCell(xyz.x).f < eps ==> NoiseGradient3(rng, eps, seed, xyz).y == 0.0
    ensures NoiseCell(xyz.y).f < eps ==> NoiseGradient3(rng, eps, seed, xyz).x == 0.0
    ensures NoiseCell(xyz.z).f < eps ==> NoiseGradient3(rng, eps, seed, xyz).z == 0.0
  {
    var cx := NoiseCell(xyz.x);
    var cy := NoiseCell(xyz.y);
    var cz := NoiseCell(xyz.z);
    Noise3dGradientOff(rng, seed, cx.i0, cy.i0, cz.i0, cx.i1, cy.i1, cz.i1, cx.f, cy.f, cz.f,
                       Heaviside(cx.f, eps), Heaviside(cy.f, eps), Heaviside(cz.f, eps));
  }

  /** Moving x by h inside its cell moves noise by h times the gradient's y
      component (the component order of noise_3d_gradient), and likewise for y
      and the x component; z keeps its own component. */
  lemma NoiseGradient3IsSlopeX(rng: Rng, eps: real, seed: bv32, xyz: Vec3, h: real)
    requires eps <= NoiseCell(xyz.x).f
    requires 0.0 <= NoiseCell(xyz.x).f + h < 1.0
    ensures Noise3(rng, seed, Vec3(xyz.x + h, xyz.y, xyz.z))
         == Eval(Jet(Noise3(rng, seed, xyz), NoiseGradient3(rng, eps, seed, xyz).y,
                     Noise3Remainder(rng, seed, xyz, 1.0, 0.0, 0.0, h)), h)
  {
    var cx := NoiseCell(xyz.x);
    var cy := NoiseCell(xyz.y);
    var cz := NoiseCell(xyz.z);
    NoiseCellShift(xyz.x, h);
    Noise3dMoved(rng, seed, cx.i0, cy.i0, cz.i0, cx.i1, cy.i1, cz.i1, cx.f, cy.f, cz.f, 1.0, 0.0, 0.0, h, cx.f + h, cy.f, cz.f);
  }

  lemma NoiseGradient3IsSlopeY(rng: Rng, eps: real, seed: bv32, xyz: Vec3, h: real)
    requires eps <= NoiseCell(xyz.y).f
    requires 0.0 <= NoiseCell(xyz.y).f + h < 1.0
    ensures Noise3(rng, seed, Vec3(xyz.x, xyz.y + h, xyz.z))
         == Eval(Jet(Noise3(rng, seed, xyz), NoiseGradient3(rng, eps, seed, xyz).x,
                     Noise3Remainder(rng, seed, xyz, 0.0, 1.0, 0.0, h)), h)
  {
    var cx := NoiseCell(xyz.x);
    var cy := NoiseCell(xyz.y);
    var cz := NoiseCell(xyz.z);
    NoiseCellShift(xyz.y, h);
    Noise3dMoved(rng, seed, cx.i0, cy.i0, cz.i0, cx.i1, cy.i1, cz.i1, cx.f, cy.f, cz.f, 0.0, 1.0, 0.0, h, cx.f, cy.f + h, cz.f);
  }

  lemma NoiseGradient3IsSlopeZ(rng: Rng, eps: real, seed: bv32, xyz: Vec3, h: real)
    requires eps <= NoiseCell(xyz.z).f
    requires 0.0 <= NoiseCell(xyz.z).f + h < 1.0
    ensures Noise3(rng, seed, Vec3(xyz.x, xyz.y, xyz.z + h))
         == Eval(Jet(Noise3(rng, seed, xyz), NoiseGradient3(rng, eps, seed, xyz).z,
                     Noise3Remainder(rng, seed, xyz, 0.0, 0.0, 1.0, h)), h)
  {
    var cx := NoiseCell(xyz.x);
    var cy := NoiseCell(xyz.y);
    var cz := NoiseCell(xyz.z);
    NoiseCellShift(xyz.z, h);
    Noise3dMoved(rng, seed, cx.i0, cy.i0, cz.i0, cx.i1, cy.i1, cz.i1, cx.f, cy.f, cz.f, 0.0, 0.0, 1.0, h, cx.f, cy.f, cz.f + h);
  }


  /** The h^2 coefficient of noise at xyzt moved by h along (ex, ey, ez, et) inside its cell. */
  function Noise4Remainder(rng: Rng, seed: bv32, xyzt: Vec4, ex: real, ey: real, ez: real, et: real, h: real): real
  {
    var cx := NoiseCell(xyzt.x);
    var cy := NoiseCell(xyzt.y);
    var cz := NoiseCell(xyzt.z);
    var ct := NoiseCell(xyzt.w);
    Noise4dRemainder(rng, seed, cx.i0, cy.i0, cz.i0, ct.i0, cx.i1, cy.i1, cz.i1, ct.i1, cx.f, cy.f, cz.f, ct.f,
                     ex, ey, ez, et, h)
  }

  lemma NoiseGradient4Flat(rng: Rng, eps: real, seed: bv32, xyzt: Vec4)
    ensures NoiseCell(xyzt.x).f < eps ==> NoiseGradient4(rng, eps, seed, xyzt).x == 0.0
    ensures NoiseCell(xyzt.y).f < eps ==> NoiseGradient4(rng, eps, seed, xyzt).y == 0.0
    ensures NoiseCell(xyzt.z).f < eps ==> NoiseGradient4(rng, eps, seed, xyzt).z == 0.0
    ensures NoiseCell(xyzt.w).f < eps ==> NoiseGradient4(rng, eps, seed, xyzt).w == 0.0
  {
    var cx := NoiseCell(xyzt.x);
    var cy := NoiseCell(xyzt.y);
    var cz := NoiseCell(xyzt.z);
    var ct := NoiseCell(xyzt.w);
    Noise4dGradientOff(rng, seed, cx.i0, cy.i0, cz.i0, ct.i0, cx.i1, cy.i1, cz.i1, ct.i1, cx.f, cy.f, cz.f, ct.f,
                       Heaviside(cx.f, eps), Heaviside(cy.f, eps), Heaviside(cz.f, eps), Heaviside(ct.f, eps));
  }

  // ---------------------------------------------------------------------------
  // Directional slopes at the coordinate level

  /** The slope of noise at xy along (ex, ey), inside xy's cell. */
  function Noise2Slope(rng: Rng, seed: bv32, xy: Vec2, ex: real, ey: real): real
  {
    var cx := NoiseCell(xy.x);
    var cy := NoiseCell(xy.y);
    Noise2dChain(rng, seed, cx.i0, cy.i0, cx.i1, cy.i1, cx.f, cy.f, ex, ey)
  }

  /** The h^2 coefficient of noise at xy moved by h along (ex, ey) inside its cell. */
  function Noise2Remainder(rng: Rng, seed: bv32, xy: Vec2, ex: real, ey: real, h: real): real
  {
    var cx := NoiseCell(xy.x);
    var cy := NoiseCell(xy.y);
    Noise2dRemainder(rng, seed, cx.i0, cy.i0, cx.i1, cy.i1, cx.f, cy.f, ex, ey, h)
  }

  /** noise at a point whose cells are known, as the cell-level evaluator. */
  lemma Noise2AtCells(rng: Rng, seed: bv32, xy: Vec2, cx: Cell, cy: Cell)
    requires NoiseCell(xy.x) == cx && NoiseCell(xy.y) == cy
    ensures Noise2(rng, seed, xy) == Noise2d(rng, seed, cx.i0, cy.i0, cx.i1, cy.i1, cx.f, cy.f)
  {
  }

  lemma Noise3AtCells(rng: Rng, seed: bv32, xyz: Vec3, cx: Cell, cy: Cell, cz: Cell)
    requires NoiseCell(xyz.x) == cx && NoiseCell(xyz.y) == cy && NoiseCell(xyz.z) == cz
    ensures Noise3(rng, seed, xyz) == Noise3d(rng, seed, cx.i0, cy.i0, cz.i0, cx.i1, cy.i1, cz.i1, cx.f, cy.f, cz.f)
  {
  }

  lemma Noise4AtCells(rng: Rng, seed: bv32, xyzt: Vec4, cx: Cell, cy: Cell, cz: Cell, ct: Cell)
    requires NoiseCell(xyzt.x) == cx && NoiseCell(xyzt.y) == cy && NoiseCell(xyzt.z) == cz && NoiseCell(xyzt.w) == ct
    ensures Noise4(rng, seed, xyzt)
         == Noise4d(rng, seed, cx.i0, cy.i0, cz.i0, ct.i0, cx.i1, cy.i1, cz.i1, ct.i1, cx.f, cy.f, cz.f, ct.f)
  {
  }

  /** noise at a point moved inside its cell, as the cell-level evaluator at the
      moved offsets. */
  lemma Noise2Shifted(rng: Rng, seed: bv32, xy: Vec2, ex: real, ey: real, h: real,
                      cx: Cell, cy: Cell, px: real, py: real)
    requires cx == NoiseCell(xy.x) && cy == NoiseCell(xy.y)
    requires px == cx.f + h * ex && py == cy.f + h * ey
    requires 0.0 <= px < 1.0 && 0.0 <= py < 1.0
    ensures Noise2(rng, seed, Vec2(xy.x + h * ex, xy.y + h * ey))
         == Noise2d(rng, seed, cx.i0, cy.i0, cx.i1, cy.i1, px, py)
  {
    var moved := Vec2(xy.x + h * ex, xy.y + h * ey);
    NoiseCellShift(xy.x, h * ex);
    NoiseCellShift(xy.y, h * ey);
    Noise2AtCells(rng, seed, moved, Cell(cx.i0, cx.i1, px), Cell(cy.i0, cy.i1, py));
  }

  /** Moving xy by h along (ex, ey) without leaving its cell moves noise by h
      times the slope along (ex, ey), up to an h^2 term. */
  lemma Noise2SlopeIsRate(rng: Rng, seed: bv32, xy: Vec2, ex: real, ey: real, h: real)
    requires 0.0 <= NoiseCell(xy.x).f + h * ex < 1.0
    requires 0.0 <= NoiseCell(xy.y).f + h * ey < 1.0
    ensures Noise2(rng, seed, Vec2(xy.x + h * ex, xy.y + h * ey))
         == Eval(Jet(Noise2(rng, seed, xy), Noise2Slope(rng, seed, xy, ex, ey),
                     Noise2Remainder(rng, seed, xy, ex, ey, h)), h)
  {
    var cx := NoiseCell(xy.x);
    var cy := NoiseCell(xy.y);
    var px := cx.f + h * ex;
    var py := cy.f + h * ey;
    Noise2Shifted(rng, seed, xy, ex, ey, h, cx, cy, px, py);
    Noise2AtCells(rng, seed, xy, cx, cy);
    Noise2dMoved(rng, seed, cx.i0, cy.i0, cx.i1, cy.i1, cx.f, cy.f, ex, ey, h, px, py);
  }

  /** A direction of slope 0 keeps noise constant to first order: moving along it
      inside the cell changes noise only by an h^2 term. */
  lemma Noise2LevelDirection(rng: Rng, seed: bv32, xy: Vec2, ex: real, ey: real, h: real)
    requires Noise2Slope(rng, seed, xy, ex, ey) == 0.0
    requires 0.0 <= NoiseCell(xy.x).f + h * ex < 1.0
    requires 0.0 <= NoiseCell(xy.y).f + h * ey < 1.0
    ensures Noise2(rng, seed, Vec2(xy.x + h * ex, xy.y + h * ey))
         == Eval(Jet(Noise2(rng, seed, xy), 0.0, Noise2Remainder(rng, seed, xy, ex, ey, h)), h)
  {
    Noise2SlopeIsRate(rng, seed, xy, ex, ey, h);
  }

  /** With its selector on, each component of the 2D gradient is the slope along
      its own axis. */
  lemma NoiseGradient2Slopes(rng: Rng, eps: real, seed: bv32, xy: Vec2)
    ensures eps <= NoiseCell(xy.x).f ==> NoiseGradient2(rng, eps, seed, xy).x == Noise2Slope(rng, seed, xy, 1.0, 0.0)
    ensures eps <= NoiseCell(xy.y).f ==> NoiseGradient2(rng, eps, seed, xy).y == Noise2Slope(rng, seed, xy, 0.0, 1.0)
  {
  }

  /** Away from the cell's low boundaries both selectors are on. */
  lemma NoiseGradient2AllOn(rng: Rng, eps: real, seed: bv32, xy: Vec2)
    requires eps <= NoiseCell(xy.x).f && eps <= NoiseCell(xy.y).f
    ensures NoiseGradient2(rng, eps, seed, xy)
         == Noise2dGradient(rng, seed, NoiseCell(xy.x).i0, NoiseCell(xy.y).i0, NoiseCell(xy.x).i1, NoiseCell(xy.y).i1,
                            NoiseCell(xy.x).f, NoiseCell(xy.y).f, 1.0, 1.0)
  {
  }

  /** The slope of noise at xyz along (ex, ey, ez), inside xyz's cell. */
  function Noise3Slope(rng: Rng, seed: bv32, xyz: Vec3, ex: real, ey: real, ez: real): real
  {
    var cx := NoiseCell(xyz.x);
    var cy := NoiseCell(xyz.y);
    var cz := NoiseCell(xyz.z);
    Noise3dChain(rng, seed, cx.i0, cy.i0, cz.i0, cx.i1, cy.i1, cz.i1, cx.f, cy.f, cz.f, ex, ey, ez)
  }

  /** noise at a point moved inside its cell, as the cell-level evaluator at the
      moved offsets. */
  lemma Noise3Shifted(rng: Rng, seed: bv32, xyz: Vec3, ex: real, ey: real, ez: real, h: real,
                      cx: Cell, cy: Cell, cz: Cell, px: real, py: real, pz: real)
    requires cx == NoiseCell(xyz.x) && cy == NoiseCell(xyz.y) && cz == NoiseCell(xyz.z)
    requires px == cx.f + h * ex && py == cy.f + h * ey && pz == cz.f + h * ez
    requires 0.0 <= px < 1.0 && 0.0 <= py < 1.0 && 0.0 <= pz < 1.0
    ensures Noise3(rng, seed, Vec3(xyz.x + h * ex, xyz.y + h * ey, xyz.z + h * ez))
         == Noise3d(rng, seed, cx.i0, cy.i0, cz.i0, cx.i1, cy.i1, cz.i1, px, py, pz)
  {
    var moved := Vec3(xyz.x + h * ex, xyz.y + h * ey, xyz.z + h * ez);
    NoiseCellShift(xyz.x, h * ex);
    NoiseCellShift(xyz.y, h * ey);
    NoiseCellShift(xyz.z, h * ez);
    Noise3AtCells(rng, seed, moved, Cell(cx.i0, cx.i1, px), Cell(cy.i0, cy.i1, py), Cell(cz.i0, cz.i1, pz));
  }

  lemma Noise3SlopeIsRate(rng: Rng, seed: bv32, xyz: Vec3, ex: real, ey: real, ez: real, h: real)
    requires 0.0 <= NoiseCell(xyz.x).f + h * ex < 1.0
    requires 0.0 <= NoiseCell(xyz.y).f + h * ey < 1.0
    requires 0.0 <= NoiseCell(xyz.z).f + h * ez < 1.0
    ensures Noise3(rng, seed, Vec3(xyz.x + h * ex, xyz.y + h * ey, xyz.z + h * ez))
         == Eval(Jet(Noise3(rng, seed, xyz), Noise3Slope(rng, seed, xyz, ex, ey, ez),
                     Noise3Remainder(rng, seed, xyz, ex, ey, ez, h)), h)
  {
    var cx := NoiseCell(xyz.x);
    var cy := NoiseCell(xyz.y);
    var cz := NoiseCell(xyz.z);
    var px := cx.f + h * ex;
    var py := cy.f + h * ey;
    var pz := cz.f + h * ez;
    Noise3Shifted(rng, seed, xyz, ex, ey, ez, h, cx, cy, cz, px, py, pz);
    Noise3AtCells(rng, seed, xyz, cx, cy, cz);
    Noise3dMoved(rng, seed, cx.i0, cy.i0, cz.i0, cx.i1, cy.i1, cz.i1, cx.f, cy.f, cz.f, ex, ey, ez, h, px, py, pz);
  }

  /** With its selector on, the 3D gradient's y component is the slope along x and
      its x component the slope along y (the order noise_3d_gradient returns them
      in); z is the slope along z. */
  lemma NoiseGradient3Slopes(rng: Rng, eps: real, seed: bv32, xyz: Vec3)
    ensures eps <= NoiseCell(xyz.x).f ==> NoiseGradient3(rng, eps, seed, xyz).y == Noise3Slope(rng, seed, xyz, 1.0, 0.0, 0.0)
    ensures eps <= NoiseCell(xyz.y).f ==> NoiseGradient3(rng, eps, seed, xyz).x == Noise3Slope(rng, seed, xyz, 0.0, 1.0, 0.0)
    ensures eps <= NoiseCell(xyz.z).f ==> NoiseGradient3(rng, eps, seed, xyz).z == Noise3Slope(rng, seed, xyz, 0.0, 0.0, 1.0)
  {
  }

  /** The slope of noise at xyzt along (ex, ey, ez, et), inside xyzt's cell. */
  function Noise4Slope(rng: Rng, seed: bv32, xyzt: Vec4, ex: real, ey: real, ez: real, et: real): real
  {
    var cx := NoiseCell(xyzt.x);
    var cy := NoiseCell(xyzt.y);
    var cz := NoiseCell(xyzt.z);
    var ct := NoiseCell(xyzt.w);
    Noise4dChain(rng, seed, cx.i0, cy.i0, cz.i0, ct.i0, cx.i1, cy.i1, cz.i1, ct.i1, cx.f, cy.f, cz.f, ct.f,
                 ex, ey, ez, et)
  }

  /** noise at a point moved inside its cell, as the cell-level evaluator at the
      moved offsets. */
  lemma Noise4Shifted(rng: Rng, seed: bv32, xyzt: Vec4, ex: real, ey: real, ez: real, et: real, h: real,
                      cx: Cell, cy: Cell, cz: Cell, ct: Cell, px: real, py: real, pz: real, pt: real)
    requires cx == NoiseCell(xyzt.x) && cy == NoiseCell(xyzt.y) && cz == NoiseCell(xyzt.z) && ct == NoiseCell(xyzt.w)
    requires px == cx.f + h * ex && py == cy.f + h * ey && pz == cz.f + h * ez && pt == ct.f + h * et
    requires 0.0 <= px < 1.0 && 0.0 <= py < 1.0 && 0.0 <= pz < 1.0 && 0.0 <= pt < 1.0
    ensures Noise4(rng, seed, Vec4(xyzt.x + h * ex, xyzt.y + h * ey, xyzt.z + h * ez, xyzt.w + h * et))
         == Noise4d(rng, seed, cx.i0, cy.i0, cz.i0, ct.i0, cx.i1, cy.i1, cz.i1, ct.i1, px, py, pz, pt)
  {
    var moved := Vec4(xyzt.x + h * ex, xyzt.y + h * ey, xyzt.z + h * ez, xyzt.w + h * et);
    NoiseCellShift(xyzt.x, h * ex);
    NoiseCellShift(xyzt.y, h * ey);
    NoiseCellShift(xyzt.z, h * ez);
    NoiseCellShift(xyzt.w, h * et);
    Noise4AtCells(rng, seed, moved, Cell(cx.i0, cx.i1, px), Cell(cy.i0, cy.i1, py),
                  Cell(cz.i0, cz.i1, pz), Cell(ct.i0, ct.i1, pt));
  }

  lemma Noise4SlopeIsRate(rng: Rng, seed: bv32, xyzt: Vec4, ex: real, ey: real, ez: real, et: real, h: real)
    requires 0.0 <= NoiseCell(xyzt.x).f + h * ex < 1.0
    requires 0.0 <= NoiseCell(xyzt.y).f + h * ey < 1.0
    requires 0.0 <= NoiseCell(xyzt.z).f + h * ez < 1.0
    requires 0.0 <= NoiseCell(xyzt.w).f + h * et < 1.0
    ensures Noise4(rng, seed, Vec4(xyzt.x + h * ex, xyzt.y + h * ey, xyzt.z + h * ez, xyzt.w + h * et))
         == Eval(Jet(Noise4(rng, seed, xyzt), Noise4Slope(rng, seed, xyzt, ex, ey, ez, et),
                     Noise4Remainder(rng, seed, xyzt, ex, ey, ez, et, h)), h)
  {
    var cx := NoiseCell(xyzt.x);
    var cy := NoiseCell(xyzt.y);
    var cz := NoiseCell(xyzt.z);
    var ct := NoiseCell(xyzt.w);
    var px := cx.f + h * ex;
    var py := cy.f + h * ey;
    var pz := cz.f + h * ez;
    var pt := ct.f + h * et;
    Noise4Shifted(rng, seed, xyzt, ex, ey, ez, et, h, cx, cy, cz, ct, px, py, pz, pt);
    Noise4AtCells(rng, seed, xyzt, cx, cy, cz, ct);
    assert Noise4Slope(rng, seed, xyzt, ex, ey, ez, et)
        == Noise4dChain(rng, seed, cx.i0, cy.i0, cz.i0, ct.i0, cx.i1, cy.i1, cz.i1, ct.i1, cx.f, cy.f, cz.f, ct.f,
                        ex, ey, ez, et);
    assert Noise4Remainder(rng, seed, xyzt, ex, ey, ez, et, h)
        == Noise4dRemainder(rng, seed, cx.i0, cy.i0, cz.i0, ct.i0, cx.i1, cy.i1, cz.i1, ct.i1, cx.f, cy.f, cz.f, ct.f,
                            ex, ey, ez, et, h);
    Noise4dMoved(rng, seed, cx.i0, cy.i0, cz.i0, ct.i0, cx.i1, cy.i1, cz.i1, ct.i1, cx.f, cy.f, cz.f, ct.f,
                 ex, ey, ez, et, h, px, py, pz, pt);
  }

  /** With its selector on, each component of the 4D gradient is the slope along
      its own axis. */
  lemma NoiseGradient4Slopes(rng: Rng, eps: real, seed: bv32, xyzt: Vec4)
    ensures eps <= NoiseCell(xyzt.x).f ==> NoiseGradient4(rng, eps, seed, xyzt).x == Noise4Slope(rng, seed, xyzt, 1.0, 0.0, 0.0, 0.0)
    ensures eps <= NoiseCell(xyzt.y).f ==> NoiseGradient4(rng, eps, seed, xyzt).y == Noise4Slope(rng, seed, xyzt, 0.0, 1.0, 0.0, 0.0)
    ensures eps <= NoiseCell(xyzt.z).f ==> NoiseGradient4(rng, eps, seed, xyzt).z == Noise4Slope(rng, seed, xyzt, 0.0, 0.0, 1.0, 0.0)
    ensures eps <= NoiseCell(xyzt.w).f ==> NoiseGradient4(rng, eps, seed, xyzt).w == Noise4Slope(rng, seed, xyzt, 0.0, 0.0, 0.0, 1.0)
  {
  }
}
