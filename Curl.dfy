/** Curl noise (warp/native/noise.h:869-964).

    In 2D the field is the noise gradient turned by a quarter turn.  In 3D and 4D
    three gradient fields are drawn from three seeds: the caller's seed, that
    seed re-initialised with 10019689, and the result re-initialised again with
    13112221 (the second re-initialisation is applied to the already changed
    seed).  The three gradients are combined component-wise into a curl.

    noise_3d_gradient returns its x and y partials swapped (see Perlin), so the
    3D combination is the curl of the three fields with the x and y partials
    exchanged; the 4D combination is the curl of the first three field
    components over x, y and z. */
module Curl {
  import opened Fade
  import opened Lattice
  import opened Perlin
  import opened Sampling

  /** The constants curlnoise re-initialises its seed with (noise.h:914, 916). */
  const CurlReseed1: bv32 := 10019689
  const CurlReseed2: bv32 := 13112221

  // ---------------------------------------------------------------------------
  // 2D

  /** A quarter turn of a plane vector: perpendicular to it and as long. */
  function QuarterTurn(g: Vec2): (r: Vec2)
    ensures r.x * g.x + r.y * g.y == 0.0
    ensures r.x * r.x + r.y * r.y == g.x * g.x + g.y * g.y
  {
    Vec2(-g.y, g.x)
  }

  /** curlnoise(seed, xy) (noise.h:871-889): the gradient turned by a quarter turn. */
  function CurlNoise2(rng: Rng, eps: real, seed: bv32, xy: Vec2): Vec2
  {
    QuarterTurn(NoiseGradient2(rng, eps, seed, xy))
  }

  /** Away from the cell's low boundaries the 2D curl is (-d/dy, d/dx) of noise. */
  lemma CurlNoise2Slopes(rng: Rng, eps: real, seed: bv32, xy: Vec2)
    requires eps <= NoiseCell(xy.x).f && eps <= NoiseCell(xy.y).f
    ensures CurlNoise2(rng, eps, seed, xy).x == -Noise2Slope(rng, seed, xy, 0.0, 1.0)
    ensures CurlNoise2(rng, eps, seed, xy).y == Noise2Slope(rng, seed, xy, 1.0, 0.0)
  {
    NoiseGradient2Slopes(rng, eps, seed, xy);
  }

  /** Away from the cell's low boundaries noise has slope 0 along the 2D curl: the
      curl field runs along the level lines of noise. */
  lemma CurlNoise2Tangent(rng: Rng, eps: real, seed: bv32, xy: Vec2)
    requires eps <= NoiseCell(xy.x).f && eps <= NoiseCell(xy.y).f
    ensures Noise2Slope(rng, seed, xy, CurlNoise2(rng, eps, seed, xy).x, CurlNoise2(rng, eps, seed, xy).y) == 0.0
  {
    var cx := NoiseCell(xy.x);
    var cy := NoiseCell(xy.y);
    NoiseGradient2AllOn(rng, eps, seed, xy);
    Noise2dTurnedGradientIsLevel(rng, seed, cx.i0, cy.i0, cx.i1, cy.i1, cx.f, cy.f);
  }

  /** Following the 2D curl (ex, ey) for a step h that stays in the cell changes
      noise only by an h^2 term. */
  lemma CurlNoise2FollowsLevelLine(rng: Rng, eps: real, seed: bv32, xy: Vec2, ex: real, ey: real, h: real)
    requires eps <= NoiseCell(xy.x).f && eps <= NoiseCell(xy.y).f
    requires CurlNoise2(rng, eps, seed, xy) == Vec2(ex, ey)
    requires 0.0 <= NoiseCell(xy.x).f + h * ex < 1.0
    requires 0.0 <= NoiseCell(xy.y).f + h * ey < 1.0
    ensures Noise2(rng, seed, Vec2(xy.x + h * ex, xy.y + h * ey))
         == Eval(Jet(Noise2(rng, seed, xy), 0.0, Noise2Remainder(rng, seed, xy, ex, ey, h)), h)
  {
    CurlNoise2Tangent(rng, eps, seed, xy);
    Noise2LevelDirection(rng, seed, xy, ex, ey, h);
  }

  // ---------------------------------------------------------------------------
  // 3D and 4D

  /** The component-wise combination curlnoise returns (noise.h:920-923, 959-962). */
  function Curl3(g1: Vec3, g2: Vec3, g3: Vec3): Vec3
  {
    Vec3(g3.y - g2.z, g1.z - g3.x, g2.x - g1.y)
  }

  function Curl4(g1: Vec4, g2: Vec4, g3: Vec4): Vec3
  {
    Vec3(g3.y - g2.z, g1.z - g3.x, g2.x - g1.y)
  }

  /** The value curlnoise(seed, xyz) computes, with the chained seeds written out. */
  function CurlNoise3Field(rng: Rng, eps: real, seed: bv32, xyz: Vec3): Vec3
  {
    var seed2 := rng.randInit(seed, CurlReseed1);
    var seed3 := rng.randInit(seed2, CurlReseed2);
    Curl3(NoiseGradient3(rng, eps, seed, xyz), NoiseGradient3(rng, eps, seed2, xyz), NoiseGradient3(rng, eps, seed3, xyz))
  }

  /** The value curlnoise(seed, xyzt) computes, with the chained seeds written out. */
  function CurlNoise4Field(rng: Rng, eps: real, seed: bv32, xyzt: Vec4): Vec3
  {
    var seed2 := rng.randInit(seed, CurlReseed1);
    var seed3 := rng.randInit(seed2, CurlReseed2);
    Curl4(NoiseGradient4(rng, eps, seed, xyzt), NoiseGradient4(rng, eps, seed2, xyzt), NoiseGradient4(rng, eps, seed3, xyzt))
  }

  /** curlnoise(seed, xyz) (noise.h:892-924): three gradients, the seed re-set
      between them, combined into a curl. */
  method CurlNoise3(rng: Rng, eps: real, seed: bv32, xyz: Vec3) returns (r: Vec3)
    ensures r == Curl3(NoiseGradient3(rng, eps, seed, xyz),
                       NoiseGradient3(rng, eps, rng.randInit(seed, 10019689), xyz),
                       NoiseGradient3(rng, eps, rng.randInit(rng.randInit(seed, 10019689), 13112221), xyz))
    ensures r == CurlNoise3Field(rng, eps, seed, xyz)
  {
    var s := seed;
    var gradField1 := NoiseGradient3(rng, eps, s, xyz);
    s := rng.randInit(s, CurlReseed1);
    var gradField2 := NoiseGradient3(rng, eps, s, xyz);
    s := rng.randInit(s, CurlReseed2);
    var gradField3 := NoiseGradient3(rng, eps, s, xyz);
    r := Curl3(gradField1, gradField2, gradField3);
  }

  /** curlnoise(seed, xyzt) (noise.h:927-963). */
  method CurlNoise4(rng: Rng, eps: real, seed: bv32, xyzt: Vec4) returns (r: Vec3)
    ensures r == Curl4(NoiseGradient4(rng, eps, seed, xyzt),
                       NoiseGradient4(rng, eps, rng.randInit(seed, 10019689), xyzt),
                       NoiseGradient4(rng, eps, rng.randInit(rng.randInit(seed, 10019689), 13112221), xyzt))
    ensures r == CurlNoise4Field(rng, eps, seed, xyzt)
  {
    var s := seed;
    var gradField1 := NoiseGradient4(rng, eps, s, xyzt);
    s := rng.randInit(s, CurlReseed1);
    var gradField2 := NoiseGradient4(rng, eps, s, xyzt);
    s := rng.randInit(s, CurlReseed2);
    var gradField3 := NoiseGradient4(rng, eps, s, xyzt);
    r := Curl4(gradField1, gradField2, gradField3);
  }

  /** Away from the cell's low boundaries, 3D curl noise in terms of the slopes of
      the three noise fields psi1, psi2, psi3: because noise_3d_gradient swaps its
      x and y partials, the result is (d psi3/dx - d psi2/dz, d psi1/dz - d psi3/dy,
      d psi2/dy - d psi1/dx) rather than the curl of (psi1, psi2, psi3). */
  lemma CurlNoise3Slopes(rng: Rng, eps: real, seed: bv32, xyz: Vec3)
    requires eps <= NoiseCell(xyz.x).f && eps <= NoiseCell(xyz.y).f && eps <= NoiseCell(xyz.z).f
    ensures CurlNoise3Field(rng, eps, seed, xyz).x
         == Noise3Slope(rng, rng.randInit(rng.randInit(seed, 10019689), 13112221), xyz, 1.0, 0.0, 0.0)
            - Noise3Slope(rng, rng.randInit(seed, 10019689), xyz, 0.0, 0.0, 1.0)
    ensures CurlNoise3Field(rng, eps, seed, xyz).y
         == Noise3Slope(rng, seed, xyz, 0.0, 0.0, 1.0)
            - Noise3Slope(rng, rng.randInit(rng.randInit(seed, 10019689), 13112221), xyz, 0.0, 1.0, 0.0)
    ensures CurlNoise3Field(rng, eps, seed, xyz).z
         == Noise3Slope(rng, rng.randInit(seed, 10019689), xyz, 0.0, 1.0, 0.0)
            - Noise3Slope(rng, seed, xyz, 1.0, 0.0, 0.0)
  {
    var seed2 := rng.randInit(seed, CurlReseed1);
    var seed3 := rng.randInit(seed2, CurlReseed2);
    NoiseGradient3Slopes(rng, eps, seed, xyz);
    NoiseGradient3Slopes(rng, eps, seed2, xyz);
    NoiseGradient3Slopes(rng, eps, seed3, xyz);
  }

  /** Away from the cell's low boundaries, 4D curl noise is the curl over x, y, z
      of the three noise fields psi1, psi2, psi3: (d psi3/dy - d psi2/dz,
      d psi1/dz - d psi3/dx, d psi2/dx - d psi1/dy). */
  lemma CurlNoise4Slopes(rng: Rng, eps: real, seed: bv32, xyzt: Vec4)
    requires eps <= NoiseCell(xyzt.x).f && eps <= NoiseCell(xyzt.y).f && eps <= NoiseCell(xyzt.z).f
    ensures CurlNoise4Field(rng, eps, seed, xyzt).x
         == Noise4Slope(rng, rng.randInit(rng.randInit(seed, 10019689), 13112221), xyzt, 0.0, 1.0, 0.0, 0.0)
            - Noise4Slope(rng, rng.randInit(seed, 10019689), xyzt, 0.0, 0.0, 1.0, 0.0)
    ensures CurlNoise4Field(rng, eps, seed, xyzt).y
         == Noise4Slope(rng, seed, xyzt, 0.0, 0.0, 1.0, 0.0)
            - Noise4Slope(rng, rng.randInit(rng.randInit(seed, 10019689), 13112221), xyzt, 1.0, 0.0, 0.0, 0.0)
    ensures CurlNoise4Field(rng, eps, seed, xyzt).z
         == Noise4Slope(rng, rng.randInit(seed, 10019689), xyzt, 1.0, 0.0, 0.0, 0.0)
            - Noise4Slope(rng, seed, xyzt, 0.0, 1.0, 0.0, 0.0)
  {
    var seed2 := rng.randInit(seed, CurlReseed1);
    var seed3 := rng.randInit(seed2, CurlReseed2);
    NoiseGradient4Slopes(rng, eps, seed, xyzt);
    NoiseGradient4Slopes(rng, eps, seed2, xyzt);
    NoiseGradient4Slopes(rng, eps, seed3, xyzt);
  }
}
