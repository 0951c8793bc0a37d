/** The adjoint bindings of noise, pnoise and curlnoise (warp/native/noise.h:561-867,
    890, 925, 964).

    adj_noise and adj_pnoise add the noise gradient, scaled by the incoming adjoint
    adj_ret, to the caller's coordinate adjoint and leave every other adjoint
    alone: the seed's adjoint and the periods' adjoints are never written.  Each
    axis' selector ("heaviside") is set to 1 and then cleared when the fractional
    offset is below the epsilon.  The by-reference adjoints of the source are
    passed in and returned updated.  adj_curlnoise has an empty body. */
module Adjoint {
  import opened Lattice
  import opened Perlin
  import opened Sampling

  /** One `adj += gradient * adj_ret` step. */
  function Accumulate(adj: real, gradient: real, adjRet: real): real
  {
    adj + gradient * adjRet
  }

  // ---------------------------------------------------------------------------
  // adj_noise

  /** adj_noise in 1D (noise.h:561-573). */
  method AdjNoise1(rng: Rng, eps: real, seed: bv32, x: real,
                   adjSeed: bv32, adjX: real, adjRet: real)
    returns (adjSeed': bv32, adjX': real)
    ensures adjSeed' == adjSeed
    ensures adjX' == Accumulate(adjX, NoiseGradient1(rng, eps, seed, x), adjRet)
  {
    var dx := x - x.Floor as real;
    var heavisideX := 1.0;
    if dx < eps { heavisideX := 0.0; }
    assert heavisideX == Heaviside(dx, eps);
    var x0 := x.Floor;
    var x1 := x0 + 1;
    assert NoiseCell(x) == Cell(x0, x1, dx);
    var gradient := Noise1dGradient(rng, seed, x0, x1, dx,
                                     heavisideX);
    assert gradient == NoiseGradient1(rng, eps, seed, x);
    adjSeed' := adjSeed;
    adjX' := Accumulate(adjX, gradient, adjRet);
  }

  /** adj_noise in 2D (noise.h:589-609). */
  method AdjNoise2(rng: Rng, eps: real, seed: bv32, xy: Vec2,
                   adjSeed: bv32, adjXY: Vec2, adjRet: real)
    returns (adjSeed': bv32, adjXY': Vec2)
    ensures adjSeed' == adjSeed
    ensures var g := NoiseGradient2(rng, eps, seed, xy);
            adjXY' == Vec2(Accumulate(adjXY.x, g.x, adjRet),
                          Accumulate(adjXY.y, g.y, adjRet))
  {
    var dx := xy.x - xy.x.Floor as real;
    var dy := xy.y - xy.y.Floor as real;
    var heavisideX := 1.0;
    var heavisideY := 1.0;
    if dx < eps { heavisideX := 0.0; }
    if dy < eps { heavisideY := 0.0; }
    assert heavisideX == Heaviside(dx, eps) && heavisideY == Heaviside(dy, eps);
    var x0 := xy.x.Floor;
    var y0 := xy.y.Floor;
    var x1 := x0 + 1;
    var y1 := y0 + 1;
    assert NoiseCell(xy.x) == Cell(x0, x1, dx) &&
           NoiseCell(xy.y) == Cell(y0, y1, dy);
    var gradient := Noise2dGradient(rng, seed, x0, y0, x1, y1, dx, dy,
                                     heavisideX, heavisideY);
    assert gradient == NoiseGradient2(rng, eps, seed, xy);
    adjSeed' := adjSeed;
    adjXY' := adjXY;
    adjXY' := adjXY'.(x := Accumulate(adjXY'.x, gradient.x, adjRet));
    adjXY' := adjXY'.(y := Accumulate(adjXY'.y, gradient.y, adjRet));
  }

  /** adj_noise in 3D (noise.h:628-653). */
  method AdjNoise3(rng: Rng, eps: real, seed: bv32, xyz: Vec3,
                   adjSeed: bv32, adjXYZ: Vec3, adjRet: real)
    returns (adjSeed': bv32, adjXYZ': Vec3)
    ensures adjSeed' == adjSeed
    ensures var g := NoiseGradient3(rng, eps, seed, xyz);
            adjXYZ' == Vec3(Accumulate(adjXYZ.x, g.x, adjRet),
                           Accumulate(adjXYZ.y, g.y, adjRet),
                           Accumulate(adjXYZ.z, g.z, adjRet))
  {
    var dx := xyz.x - xyz.x.Floor as real;
    var dy := xyz.y - xyz.y.Floor as real;
    var dz := xyz.z - xyz.z.Floor as real;
    var heavisideX := 1.0;
    var heavisideY := 1.0;
    var heavisideZ := 1.0;
    if dx < eps { heavisideX := 0.0; }
    if dy < eps { heavisideY := 0.0; }
    if dz < eps { heavisideZ := 0.0; }
    assert heavisideX == Heaviside(dx, eps) && heavisideY == Heaviside(dy, eps) && heavisideZ == Heaviside(dz, eps);
    var x0 := xyz.x.Floor;
    var y0 := xyz.y.Floor;
    var z0 := xyz.z.Floor;
    var x1 := x0 + 1;
    var y1 := y0 + 1;
    var z1 := z0 + 1;
    assert NoiseCell(xyz.x) == Cell(x0, x1, dx) &&
           NoiseCell(xyz.y) == Cell(y0, y1, dy) &&
           NoiseCell(xyz.z) == Cell(z0, z1, dz);
    var gradient := Noise3dGradient(rng, seed, x0, y0, z0, x1, y1, z1, dx, dy, dz,
                                     heavisideX, heavisideY, heavisideZ);
    assert gradient == NoiseGradient3(rng, eps, seed, xyz);
    adjSeed' := adjSeed;
    adjXYZ' := adjXYZ;
    adjXYZ' := adjXYZ'.(x := Accumulate(adjXYZ'.x, gradient.x, adjRet));
    adjXYZ' := adjXYZ'.(y := Accumulate(adjXYZ'.y, gradient.y, adjRet));
    adjXYZ' := adjXYZ'.(z := Accumulate(adjXYZ'.z, gradient.z, adjRet));
  }

  /** adj_noise in 4D (noise.h:675-707). */
  method AdjNoise4(rng: Rng, eps: real, seed: bv32, xyzt: Vec4,
                   adjSeed: bv32, adjXYZT: Vec4, adjRet: real)
    returns (adjSeed': bv32, adjXYZT': Vec4)
    ensures adjSeed' == adjSeed
    ensures var g := NoiseGradient4(rng, eps, seed, xyzt);
            adjXYZT' == Vec4(Accumulate(adjXYZT.x, g.x, adjRet),
                            Accumulate(adjXYZT.y, g.y, adjRet),
                            Accumulate(adjXYZT.z, g.z, adjRet),
                            Accumulate(adjXYZT.w, g.w, adjRet))
  {
    var dx := xyzt.x - xyzt.x.Floor as real;
    var dy := xyzt.y - xyzt.y.Floor as real;
    var dz := xyzt.z - xyzt.z.Floor as real;
    var dt := xyzt.w - xyzt.w.Floor as real;
    var heavisideX := 1.0;
    var heavisideY := 1.0;
    var heavisideZ := 1.0;
    var heavisideT := 1.0;
    if dx < eps { heavisideX := 0.0; }
    if dy < eps { heavisideY := 0.0; }
    if dz < eps { heavisideZ := 0.0; }
    if dt < eps { heavisideT := 0.0; }
    assert heavisideX == Heaviside(dx, eps) && heavisideY == Heaviside(dy, eps) && heavisideZ == Heaviside(dz, eps) && heavisideT == Heaviside(dt, eps);
    var x0 := xyzt.x.Floor;
    var y0 := xyzt.y.Floor;
    var z0 := xyzt.z.Floor;
    var t0 := xyzt.w.Floor;
    var x1 := x0 + 1;
    var y1 := y0 + 1;
    var z1 := z0 + 1;
    var t1 := t0 + 1;
    assert NoiseCell(xyzt.x) == Cell(x0, x1, dx) &&
           NoiseCell(xyzt.y) == Cell(y0, y1, dy) &&
           NoiseCell(xyzt.z) == Cell(z0, z1, dz) &&
           NoiseCell(xyzt.w) == Cell(t0, t1, dt);
    var gradient := Noise4dGradient(rng, seed, x0, y0, z0, t0, x1, y1, z1, t1, dx, dy, dz, dt,
                                     heavisideX, heavisideY, heavisideZ, heavisideT);
    assert gradient == NoiseGradient4(rng, eps, seed, xyzt);
    adjSeed' := adjSeed;
    adjXYZT' := adjXYZT;
    adjXYZT' := adjXYZT'.(x := Accumulate(adjXYZT'.x, gradient.x, adjRet));
    adjXYZT' := adjXYZT'.(y := Accumulate(adjXYZT'.y, gradient.y, adjRet));
    adjXYZT' := adjXYZT'.(z := Accumulate(adjXYZT'.z, gradient.z, adjRet));
    adjXYZT' := adjXYZT'.(w := Accumulate(adjXYZT'.w, gradient.w, adjRet));
  }

  // ---------------------------------------------------------------------------
  // adj_pnoise

  /** adj_pnoise in 1D (noise.h:721-733). */
  method AdjPnoise1(rng: Rng, mod: (int, int) -> int, eps: real, seed: bv32, x: real, px: int,
                    adjSeed: bv32, adjX: real, adjPx: int, adjRet: real)
    returns (adjSeed': bv32, adjX': real, adjPx': int)
    ensures adjSeed' == adjSeed
    ensures adjX' == Accumulate(adjX, PnoiseGradient1(rng, mod, eps, seed, x, px), adjRet)
    ensures adjPx' == adjPx
  {
    var dx := x - x.Floor as real;
    var heavisideX := 1.0;
    if dx < eps { heavisideX := 0.0; }
    assert heavisideX == Heaviside(dx, eps);
    var x0 := mod(x.Floor, px);
    var x1 := mod(x0 + 1, px);
    assert PeriodicCell(mod, x, px) == Cell(x0, x1, dx);
    var gradient := Noise1dGradient(rng, seed, x0, x1, dx,
                                     heavisideX);
    assert gradient == PnoiseGradient1(rng, mod, eps, seed, x, px);
    adjSeed' := adjSeed;
    adjX' := Accumulate(adjX, gradient, adjRet);
    adjPx' := adjPx;
  }

  /** adj_pnoise in 2D (noise.h:749-769). */
  method AdjPnoise2(rng: Rng, mod: (int, int) -> int, eps: real, seed: bv32, xy: Vec2, px: int, py: int,
                    adjSeed: bv32, adjXY: Vec2, adjPx: int, adjPy: int, adjRet: real)
    returns (adjSeed': bv32, adjXY': Vec2, adjPx': int, adjPy': int)
    ensures adjSeed' == adjSeed
    ensures var g := PnoiseGradient2(rng, mod, eps, seed, xy, px, py);
            adjXY' == Vec2(Accumulate(adjXY.x, g.x, adjRet),
                          Accumulate(adjXY.y, g.y, adjRet))
    ensures adjPx' == adjPx && adjPy' == adjPy
  {
    var dx := xy.x - xy.x.Floor as real;
    var dy := xy.y - xy.y.Floor as real;
    var heavisideX := 1.0;
    var heavisideY := 1.0;
    if dx < eps { heavisideX := 0.0; }
    if dy < eps { heavisideY := 0.0; }
    assert heavisideX == Heaviside(dx, eps) && heavisideY == Heaviside(dy, eps);
    var x0 := mod(xy.x.Floor, px);
    var y0 := mod(xy.y.Floor, py);
    var x1 := mod(x0 + 1, px);
    var y1 := mod(y0 + 1, py);
    assert PeriodicCell(mod, xy.x, px) == Cell(x0, x1, dx) &&
           PeriodicCell(mod, xy.y, py) == Cell(y0, y1, dy);
    var gradient := Noise2dGradient(rng, seed, x0, y0, x1, y1, dx, dy,
                                     heavisideX, heavisideY);
    assert gradient == PnoiseGradient2(rng, mod, eps, seed, xy, px, py);
    adjSeed' := adjSeed;
    adjXY' := adjXY;
    adjXY' := adjXY'.(x := Accumulate(adjXY'.x, gradient.x, adjRet));
    adjXY' := adjXY'.(y := Accumulate(adjXY'.y, gradient.y, adjRet));
    adjPx' := adjPx;
    adjPy' := adjPy;
  }

  /** adj_pnoise in 3D (noise.h:788-813). */
  method AdjPnoise3(rng: Rng, mod: (int, int) -> int, eps: real, seed: bv32, xyz: Vec3, px: int, py: int, pz: int,
                    adjSeed: bv32, adjXYZ: Vec3, adjPx: int, adjPy: int, adjPz: int, adjRet: real)
    returns (adjSeed': bv32, adjXYZ': Vec3, adjPx': int, adjPy': int, adjPz': int)
    ensures adjSeed' == adjSeed
    ensures var g := PnoiseGradient3(rng, mod, eps, seed, xyz, px, py, pz);
            adjXYZ' == Vec3(Accumulate(adjXYZ.x, g.x, adjRet),
                           Accumulate(adjXYZ.y, g.y, adjRet),
                           Accumulate(adjXYZ.z, g.z, adjRet))
    ensures adjPx' == adjPx && adjPy' == adjPy && adjPz' == adjPz
  {
    var dx := xyz.x - xyz.x.Floor as real;
    var dy := xyz.y - xyz.y.Floor as real;
    var dz := xyz.z - xyz.z.Floor as real;
    var heavisideX := 1.0;
    var heavisideY := 1.0;
    var heavisideZ := 1.0;
    if dx < eps { heavisideX := 0.0; }
    if dy < eps { heavisideY := 0.0; }
    if dz < eps { heavisideZ := 0.0; }
    assert heavisideX == Heaviside(dx, eps) && heavisideY == Heaviside(dy, eps) && heavisideZ == Heaviside(dz, eps);
    var x0 := mod(xyz.x.Floor, px);
    var y0 := mod(xyz.y.Floor, py);
    var z0 := mod(xyz.z.Floor, pz);
    var x1 := mod(x0 + 1, px);
    var y1 := mod(y0 + 1, py);
    var z1 := mod(z0 + 1, pz);
    assert PeriodicCell(mod, xyz.x, px) == Cell(x0, x1, dx) &&
           PeriodicCell(mod, xyz.y, py) == Cell(y0, y1, dy) &&
           PeriodicCell(mod, xyz.z, pz) == Cell(z0, z1, dz);
    var gradient := Noise3dGradient(rng, seed, x0, y0, z0, x1, y1, z1, dx, dy, dz,
                                     heavisideX, heavisideY, heavisideZ);
    assert gradient == PnoiseGradient3(rng, mod, eps, seed, xyz, px, py, pz);
    adjSeed' := adjSeed;
    adjXYZ' := adjXYZ;
    adjXYZ' := adjXYZ'.(x := Accumulate(adjXYZ'.x, gradient.x, adjRet));
    adjXYZ' := adjXYZ'.(y := Accumulate(adjXYZ'.y, gradient.y, adjRet));
    adjXYZ' := adjXYZ'.(z := Accumulate(adjXYZ'.z, gradient.z, adjRet));
    adjPx' := adjPx;
    adjPy' := adjPy;
    adjPz' := adjPz;
  }

  /** adj_pnoise in 4D (noise.h:835-867). */
  method AdjPnoise4(rng: Rng, mod: (int, int) -> int, eps: real, seed: bv32, xyzt: Vec4, px: int, py: int, pz: int, pt: int,
                    adjSeed: bv32, adjXYZT: Vec4, adjPx: int, adjPy: int, adjPz: int, adjPt: int, adjRet: real)
    returns (adjSeed': bv32, adjXYZT': Vec4, adjPx': int, adjPy': int, adjPz': int, adjPt': int)
    ensures adjSeed' == adjSeed
    ensures var g := PnoiseGradient4(rng, mod, eps, seed, xyzt, px, py, pz, pt);
            adjXYZT' == Vec4(Accumulate(adjXYZT.x, g.x, adjRet),
                            Accumulate(adjXYZT.y, g.y, adjRet),
                            Accumulate(adjXYZT.z, g.z, adjRet),
                            Accumulate(adjXYZT.w, g.w, adjRet))
    ensures adjPx' == adjPx && adjPy' == adjPy && adjPz' == adjPz && adjPt' == adjPt
  {
    var dx := xyzt.x - xyzt.x.Floor as real;
    var dy := xyzt.y - xyzt.y.Floor as real;
    var dz := xyzt.z - xyzt.z.Floor as real;
    var dt := xyzt.w - xyzt.w.Floor as real;
    var heavisideX := 1.0;
    var heavisideY := 1.0;
    var heavisideZ := 1.0;
    var heavisideT := 1.0;
    if dx < eps { heavisideX := 0.0; }
    if dy < eps { heavisideY := 0.0; }
    if dz < eps { heavisideZ := 0.0; }
    if dt < eps { heavisideT := 0.0; }
    assert heavisideX == Heaviside(dx, eps) && heavisideY == Heaviside(dy, eps) && heavisideZ == Heaviside(dz, eps) && heavisideT == Heaviside(dt, eps);
    var x0 := mod(xyzt.x.Floor, px);
    var y0 := mod(xyzt.y.Floor, py);
    var z0 := mod(xyzt.z.Floor, pz);
    var t0 := mod(xyzt.w.Floor, pt);
    var x1 := mod(x0 + 1, px);
    var y1 := mod(y0 + 1, py);
    var z1 := mod(z0 + 1, pz);
    var t1 := mod(t0 + 1, pt);
    assert PeriodicCell(mod, xyzt.x, px) == Cell(x0, x1, dx) &&
           PeriodicCell(mod, xyzt.y, py) == Cell(y0, y1, dy) &&
           PeriodicCell(mod, xyzt.z, pz) == Cell(z0, z1, dz) &&
           PeriodicCell(mod, xyzt.w, pt) == Cell(t0, t1, dt);
    var gradient := Noise4dGradient(rng, seed, x0, y0, z0, t0, x1, y1, z1, t1, dx, dy, dz, dt,
                                     heavisideX, heavisideY, heavisideZ, heavisideT);
    assert gradient == PnoiseGradient4(rng, mod, eps, seed, xyzt, px, py, pz, pt);
    adjSeed' := adjSeed;
    adjXYZT' := adjXYZT;
    adjXYZT' := adjXYZT'.(x := Accumulate(adjXYZT'.x, gradient.x, adjRet));
    adjXYZT' := adjXYZT'.(y := Accumulate(adjXYZT'.y, gradient.y, adjRet));
    adjXYZT' := adjXYZT'.(z := Accumulate(adjXYZT'.z, gradient.z, adjRet));
    adjXYZT' := adjXYZT'.(w := Accumulate(adjXYZT'.w, gradient.w, adjRet));
    adjPx' := adjPx;
    adjPy' := adjPy;
    adjPz' := adjPz;
    adjPt' := adjPt;
  }

  // ---------------------------------------------------------------------------
  // adj_curlnoise: no adjoint is propagated

  /** adj_curlnoise in 2D (noise.h:890): every adjoint comes back unchanged. */
  method AdjCurlNoise2(seed: bv32, xy: Vec2, adjSeed: bv32, adjXY: Vec2, adjRet: Vec2)
    returns (adjSeed': bv32, adjXY': Vec2)
    ensures adjSeed' == adjSeed && adjXY' == adjXY
  {
    adjSeed' := adjSeed;
    adjXY' := adjXY;
  }

  /** adj_curlnoise in 3D (noise.h:925). */
  method AdjCurlNoise3(seed: bv32, xyz: Vec3, adjSeed: bv32, adjXYZ: Vec3, adjRet: Vec3)
    returns (adjSeed': bv32, adjXYZ': Vec3)
    ensures adjSeed' == adjSeed && adjXYZ' == adjXYZ
  {
    adjSeed' := adjSeed;
    adjXYZ' := adjXYZ;
  }

  /** adj_curlnoise in 4D (noise.h:964). */
  method AdjCurlNoise4(seed: bv32, xyzt: Vec4, adjSeed: bv32, adjXYZT: Vec4, adjRet: Vec3)
    returns (adjSeed': bv32, adjXYZT': Vec4)
    ensures adjSeed' == adjSeed && adjXYZT' == adjXYZT
  {
    adjSeed' := adjSeed;
    adjXYZT' := adjXYZT;
  }
}
