/** Lattice corners (warp/native/noise.h:38-136): the 32-bit index mixing that turns
    a seed and an integer corner into a random-number state, the pseudo-random
    gradient drawn from that state, and the dot product of the gradient with the
    offset from the corner.

    The draws themselves (randf, randn, rand_init, cos, sin, normalize) are defined
    outside noise.h; they are the fields of an `Rng` value that every operation
    takes as a parameter, so nothing is assumed about them. */
module Lattice {

  /** warp's vec2, vec3 and vec4, with floats as reals. */
  datatype Vec2 = Vec2(x: real, y: real)
  datatype Vec3 = Vec3(x: real, y: real, z: real)
  datatype Vec4 = Vec4(x: real, y: real, z: real, w: real)

  /** The primitives noise.h calls but does not define.  `randn` takes its state by
      reference in warp, so here it returns the draw together with the advanced
      state; `pi` is the float constant M_PI. */
  datatype Rng = Rng(
    randf: (bv32, real, real) -> real,
    randn: bv32 -> (real, bv32),
    randInit: (bv32, bv32) -> bv32,
    cos: real -> real,
    sin: real -> real,
    normalize3: Vec3 -> Vec3,
    normalize4: Vec4 -> Vec4,
    pi: real)

  // ---------------------------------------------------------------------------
  // Index mixing

  /** The four odd primes that scramble the axes (noise.h:40, 48-49, 60-62, 75-78). */
  const P1: bv32 := 73856093
  const P2: bv32 := 19349663
  const P3: bv32 := 53471161
  const P4: bv32 := 10000019

  const TwoTo32: int := 0x1_0000_0000

  /** The conversion of a signed corner index to uint32 that C++ performs before
      multiplying by an unsigned prime: the index modulo 2^32. */
  function ToU32(i: int): bv32
  {
    (i % TwoTo32) as bv32
  }

  /** random_gradient_1d's mixed index ix*p1 (noise.h:41), with the corner index
      already converted to uint32; the product wraps at 2^32. */
  function MixIndex1(ux: bv32): bv32
  {
    ux * P1
  }

  /** random_gradient_2d's mixed index ix*p1 ^ iy*p2 (noise.h:50). */
  function MixIndex2(ux: bv32, uy: bv32): bv32
  {
    (ux * P1) ^ (uy * P2)
  }

  /** random_gradient_3d's mixed index ix*p1 ^ iy*p2 ^ iz*p3 (noise.h:63). */
  function MixIndex3(ux: bv32, uy: bv32, uz: bv32): bv32
  {
    (ux * P1) ^ (uy * P2) ^ (uz * P3)
  }

  /** random_gradient_4d's mixed index ix*p1 ^ iy*p2 ^ iz*p3 ^ it*p4 (noise.h:79). */
  function MixIndex4(ux: bv32, uy: bv32, uz: bv32, ut: bv32): bv32
  {
    (ux * P1) ^ (uy * P2) ^ (uz * P3) ^ (ut * P4)
  }

  /** The state a corner's draw starts from: seed + idx, wrapping at 2^32
      (noise.h:42, 51, 64, 80). */
  function CornerState(seed: bv32, idx: bv32): bv32
  {
    seed + idx
  }

  // ---------------------------------------------------------------------------
  // Gradients drawn from the state

  /** random_gradient_1d: a uniform draw in [-1, 1] from the corner's state. */
  function RandomGradient1(rng: Rng, seed: bv32, ix: int): real
  {
    rng.randf(CornerState(seed, MixIndex1(ToU32(ix))), -1.0, 1.0)
  }

  /** random_gradient_2d: the unit vector at an angle drawn uniformly in [0, 2*pi]. */
  function RandomGradient2(rng: Rng, seed: bv32, ix: int, iy: int): Vec2
  {
    var phi := rng.randf(CornerState(seed, MixIndex2(ToU32(ix), ToU32(iy))), 0.0, 2.0 * rng.pi);
    Vec2(rng.cos(phi), rng.sin(phi))
  }

  /** random_gradient_3d: three successive normal draws, normalized. */
  function RandomGradient3(rng: Rng, seed: bv32, ix: int, iy: int, iz: int): Vec3
  {
    var dx := rng.randn(CornerState(seed, MixIndex3(ToU32(ix), ToU32(iy), ToU32(iz))));
    var dy := rng.randn(dx.1);
    var dz := rng.randn(dy.1);
    rng.normalize3(Vec3(dx.0, dy.0, dz.0))
  }

  /** random_gradient_4d: four successive normal draws, normalized. */
  function RandomGradient4(rng: Rng, seed: bv32, ix: int, iy: int, iz: int, it: int): Vec4
  {
    var dx := rng.randn(CornerState(seed, MixIndex4(ToU32(ix), ToU32(iy), ToU32(iz), ToU32(it))));
    var dy := rng.randn(dx.1);
    var dz := rng.randn(dy.1);
    var dt := rng.randn(dz.1);
    rng.normalize4(Vec4(dx.0, dy.0, dz.0, dt.0))
  }

  // ---------------------------------------------------------------------------
  // Properties of the mixing

  /** A corner index only matters modulo 2^32. */
  lemma ToU32Periodic(i: int, k: int)
    ensures ToU32(i + k * TwoTo32) == ToU32(i)
  {
    assert (i + k * TwoTo32) % TwoTo32 == i % TwoTo32;
  }

  /** Shifting any corner coordinate by a multiple of 2^32 gives the same gradient,
      so every dimension's gradient field repeats with that period. */
  lemma RandomGradientPeriodic(rng: Rng, seed: bv32, ix: int, iy: int, iz: int, it: int,
                               kx: int, ky: int, kz: int, kt: int)
    ensures RandomGradient1(rng, seed, ix + kx * TwoTo32) == RandomGradient1(rng, seed, ix)
    ensures RandomGradient2(rng, seed, ix + kx * TwoTo32, iy + ky * TwoTo32)
         == RandomGradient2(rng, seed, ix, iy)
    ensures RandomGradient3(rng, seed, ix + kx * TwoTo32, iy + ky * TwoTo32, iz + kz * TwoTo32)
         == RandomGradient3(rng, seed, ix, iy, iz)
    ensures RandomGradient4(rng, seed, ix + kx * TwoTo32, iy + ky * TwoTo32, iz + kz * TwoTo32,
                            it + kt * TwoTo32)
         == RandomGradient4(rng, seed, ix, iy, iz, it)
  {
    ToU32Periodic(ix, kx);
    ToU32Periodic(iy, ky);
    ToU32Periodic(iz, kz);
    ToU32Periodic(it, kt);
  }

  /** A zero coordinate contributes nothing to the mix: each dimension's index on
      the hyperplane of its last axis is the index of the dimension below. */
  lemma MixIndexDropAxis(ux: bv32, uy: bv32, uz: bv32)
    ensures MixIndex2(ux, 0) == MixIndex1(ux)
    ensures MixIndex3(ux, uy, 0) == MixIndex2(ux, uy)
    ensures MixIndex4(ux, uy, uz, 0) == MixIndex3(ux, uy, uz)
  {
  }

  /** A corner whose last coordinate is 0 starts its draw from the same state as
      the corner of the dimension below with the remaining coordinates. */
  lemma CornerStateDropAxis(seed: bv32, ix: int, iy: int, iz: int)
    ensures CornerState(seed, MixIndex2(ToU32(ix), ToU32(0))) == CornerState(seed, MixIndex1(ToU32(ix)))
    ensures CornerState(seed, MixIndex3(ToU32(ix), ToU32(iy), ToU32(0)))
         == CornerState(seed, MixIndex2(ToU32(ix), ToU32(iy)))
    ensures CornerState(seed, MixIndex4(ToU32(ix), ToU32(iy), ToU32(iz), ToU32(0)))
         == CornerState(seed, MixIndex3(ToU32(ix), ToU32(iy), ToU32(iz)))
  {
    assert ToU32(0) == 0;
    MixIndexDropAxis(ToU32(ix), ToU32(iy), ToU32(iz));
  }

  /** The contract of randf: a draw in [lo, hi] whenever lo <= hi. */
  ghost predicate RandfWithin(rng: Rng)
  {
    forall state: bv32, lo: real, hi: real :: lo <= hi ==> lo <= rng.randf(state, lo, hi) <= hi
  }

  /** Under that contract every 1D corner gradient lies in [-1, 1]. */
  lemma RandomGradient1Bounded(rng: Rng, seed: bv32, ix: int)
    requires RandfWithin(rng)
    ensures -1.0 <= RandomGradient1(rng, seed, ix) <= 1.0
  {
  }

  // ---------------------------------------------------------------------------
  // Corner dot products

  /** dot_grid_gradient_1d: the offset times the corner gradient. */
  function DotGridGradient1d(rng: Rng, seed: bv32, ix: int, dx: real): real
  {
    dx * RandomGradient1(rng, seed, ix)
  }

  /** dot_grid_gradient_1d_gradient: the tangent offset times the corner gradient. */
  function DotGridGradient1dGradient(rng: Rng, seed: bv32, ix: int, d_dx: real): real
  {
    d_dx * RandomGradient1(rng, seed, ix)
  }

  function DotGridGradient2d(rng: Rng, seed: bv32, ix: int, iy: int, dx: real, dy: real): real
  {
    var g := RandomGradient2(rng, seed, ix, iy);
    dx * g.x + dy * g.y
  }

  function DotGridGradient2dGradient(rng: Rng, seed: bv32, ix: int, iy: int, d_dx: real, d_dy: real): real
  {
    var g := RandomGradient2(rng, seed, ix, iy);
    d_dx * g.x + d_dy * g.y
  }

  function DotGridGradient3d(rng: Rng, seed: bv32, ix: int, iy: int, iz: int,
                             dx: real, dy: real, dz: real): real
  {
    var g := RandomGradient3(rng, seed, ix, iy, iz);
    dx * g.x + dy * g.y + dz * g.z
  }

  function DotGridGradient3dGradient(rng: Rng, seed: bv32, ix: int, iy: int, iz: int,
                                     d_dx: real, d_dy: real, d_dz: real): real
  {
    var g := RandomGradient3(rng, seed, ix, iy, iz);
    d_dx * g.x + d_dy * g.y + d_dz * g.z
  }

  function DotGridGradient4d(rng: Rng, seed: bv32, ix: int, iy: int, iz: int, it: int,
                             dx: real, dy: real, dz: real, dt: real): real
  {
    var g := RandomGradient4(rng, seed, ix, iy, iz, it);
    dx * g.x + dy * g.y + dz * g.z + dt * g.w
  }

  function DotGridGradient4dGradient(rng: Rng, seed: bv32, ix: int, iy: int, iz: int, it: int,
                                     d_dx: real, d_dy: real, d_dz: real, d_dt: real): real
  {
    var g := RandomGradient4(rng, seed, ix, iy, iz, it);
    d_dx * g.x + d_dy * g.y + d_dz * g.z + d_dt * g.w
  }

  // ---------------------------------------------------------------------------
  // Properties of the corner dot products

  /** Each tangent version is its value counterpart at the tangent offsets. */
  lemma DotGridGradientIsValue(rng: Rng, seed: bv32, ix: int, iy: int, iz: int, it: int,
                               a: real, b: real, c: real, d: real)
    ensures DotGridGradient1dGradient(rng, seed, ix, a) == DotGridGradient1d(rng, seed, ix, a)
    ensures DotGridGradient2dGradient(rng, seed, ix, iy, a, b) == DotGridGradient2d(rng, seed, ix, iy, a, b)
    ensures DotGridGradient3dGradient(rng, seed, ix, iy, iz, a, b, c)
         == DotGridGradient3d(rng, seed, ix, iy, iz, a, b, c)
    ensures DotGridGradient4dGradient(rng, seed, ix, iy, iz, it, a, b, c, d)
         == DotGridGradient4d(rng, seed, ix, iy, iz, it, a, b, c, d)
  {
  }

  /** The corner dot products are linear in the offset: moving the offset by k
      times a direction moves the value by k times the tangent value. */
  lemma DotGridGradient1dLinear(rng: Rng, seed: bv32, ix: int, a: real, ea: real, k: real)
    ensures DotGridGradient1d(rng, seed, ix, a + k * ea)
         == DotGridGradient1d(rng, seed, ix, a) + k * DotGridGradient1dGradient(rng, seed, ix, ea)
  {
    LinearDot(a, 0.0, 0.0, 0.0, ea, 0.0, 0.0, 0.0, k, RandomGradient1(rng, seed, ix), 0.0, 0.0, 0.0);
  }

  lemma DotGridGradient2dLinear(rng: Rng, seed: bv32, ix: int, iy: int,
                                a: real, b: real, ea: real, eb: real, k: real)
    ensures DotGridGradient2d(rng, seed, ix, iy, a + k * ea, b + k * eb)
         == DotGridGradient2d(rng, seed, ix, iy, a, b)
            + k * DotGridGradient2dGradient(rng, seed, ix, iy, ea, eb)
  {
    var g := RandomGradient2(rng, seed, ix, iy);
    LinearDot(a, b, 0.0, 0.0, ea, eb, 0.0, 0.0, k, g.x, g.y, 0.0, 0.0);
  }

  lemma DotGridGradient3dLinear(rng: Rng, seed: bv32, ix: int, iy: int, iz: int,
                                a: real, b: real, c: real, ea: real, eb: real, ec: real, k: real)
    ensures DotGridGradient3d(rng, seed, ix, iy, iz, a + k * ea, b + k * eb, c + k * ec)
         == DotGridGradient3d(rng, seed, ix, iy, iz, a, b, c)
            + k * DotGridGradient3dGradient(rng, seed, ix, iy, iz, ea, eb, ec)
  {
    var g := RandomGradient3(rng, seed, ix, iy, iz);
    LinearDot(a, b, c, 0.0, ea, eb, ec, 0.0, k, g.x, g.y, g.z, 0.0);
  }

  lemma DotGridGradient4dLinear(rng: Rng, seed: bv32, ix: int, iy: int, iz: int, it: int,
                                a: real, b: real, c: real, d: real,
                                ea: real, eb: real, ec: real, ed: real, k: real)
    ensures DotGridGradient4d(rng, seed, ix, iy, iz, it, a + k * ea, b + k * eb, c + k * ec, d + k * ed)
         == DotGridGradient4d(rng, seed, ix, iy, iz, it, a, b, c, d)
            + k * DotGridGradient4dGradient(rng, seed, ix, iy, iz, it, ea, eb, ec, ed)
  {
    var g := RandomGradient4(rng, seed, ix, iy, iz, it);
    LinearDot(a, b, c, d, ea, eb, ec, ed, k, g.x, g.y, g.z, g.w);
  }

  /** The 2D tangent dot product along (ex, ey) splits into its two axis parts. */
  lemma DotGridGradient2dGradientSplit(rng: Rng, seed: bv32, ix: int, iy: int, ex: real, ey: real)
    ensures DotGridGradient2dGradient(rng, seed, ix, iy, ex, ey)
         == ex * DotGridGradient2dGradient(rng, seed, ix, iy, 1.0, 0.0)
            + ey * DotGridGradient2dGradient(rng, seed, ix, iy, 0.0, 1.0)
  {
    var g := RandomGradient2(rng, seed, ix, iy);
    SplitDot(ex, ey, g.x, g.y);
  }

  lemma SplitDot(ex: real, ey: real, gx: real, gy: real)
    ensures ex * gx + ey * gy == ex * (1.0 * gx + 0.0 * gy) + ey * (0.0 * gx + 1.0 * gy)
  {
  }

  /** The ring identity behind the four linearity lemmas. */
  lemma LinearDot(a: real, b: real, c: real, d: real, ea: real, eb: real, ec: real, ed: real,
                  k: real, gx: real, gy: real, gz: real, gw: real)
    ensures (a + k * ea) * gx + (b + k * eb) * gy + (c + k * ec) * gz + (d + k * ed) * gw
         == (a * gx + b * gy + c * gz + d * gw) + k * (ea * gx + eb * gy + ec * gz + ed * gw)
  {
  }

  /** With all tangent offsets zero the tangent versions return 0. */
  lemma DotGridGradientZero(rng: Rng, seed: bv32, ix: int, iy: int, iz: int, it: int)
    ensures DotGridGradient1dGradient(rng, seed, ix, 0.0) == 0.0
    ensures DotGridGradient2dGradient(rng, seed, ix, iy, 0.0, 0.0) == 0.0
    ensures DotGridGradient3dGradient(rng, seed, ix, iy, iz, 0.0, 0.0, 0.0) == 0.0
    ensures DotGridGradient4dGradient(rng, seed, ix, iy, iz, it, 0.0, 0.0, 0.0, 0.0) == 0.0
  {
  }
}
