/** The cell evaluators noise_1d .. noise_4d and their gradients
    (warp/native/noise.h:138-547).

    An evaluator takes the integer corner indices of a cell on every axis (low and
    high) and the offset of the point from the low corner, and blends the corner
    dot products.  A gradient evaluator takes in addition one selector per axis
    (the "heaviside" value, 0 or 1 in practice) and returns one partial per axis.

    The main results are `Noise1dGradientIsSlope` .. `Noise4dGradientIsSlope`:
    moving the offset along one axis by h times that axis' selector changes the
    value by h times the corresponding partial, up to an explicit h^2 term.  In 3D
    the first two partials come out exchanged, as written in noise.h. */
module Perlin {
  import opened Fade
  import opened Lattice
  import opened Multilinear

  // ---------------------------------------------------------------------------
  // 1D

  /** noise_1d: the two corner dot products blended by the offset (noise.h:138-145). */
  function Noise1d(rng: Rng, seed: bv32, x0: int, x1: int, dx: real): real
  {
    var v0 := DotGridGradient1d(rng, seed, x0, dx);
    var v1 := DotGridGradient1d(rng, seed, x1, dx - 1.0);
    Interpolate(v0, v1, dx)
  }

  /** noise_1d_gradient (noise.h:147-156). */
  function Noise1dGradient(rng: Rng, seed: bv32, x0: int, x1: int, dx: real, hx: real): real
  {
    var v0 := DotGridGradient1d(rng, seed, x0, dx);
    var d_v0 := DotGridGradient1dGradient(rng, seed, x0, hx);
    var v1 := DotGridGradient1d(rng, seed, x1, dx - 1.0);
    var d_v1 := DotGridGradient1dGradient(rng, seed, x1, hx);
    InterpolateGradient(v0, v1, dx, d_v0, d_v1, hx)
  }

  /** A corner dot product and its tangent along the direction ea. */
  function CornerJet1(rng: Rng, seed: bv32, ix: int, a: real, ea: real): Jet
  {
    LinearJet(DotGridGradient1d(rng, seed, ix, a), DotGridGradient1dGradient(rng, seed, ix, ea))
  }

  lemma CornerJet1Exact(rng: Rng, seed: bv32, ix: int, a: real, ea: real, h: real, pa: real)
    requires pa == a + h * ea
    ensures Eval(CornerJet1(rng, seed, ix, a, ea), h) == DotGridGradient1d(rng, seed, ix, pa)
  {
    DotGridGradient1dLinear(rng, seed, ix, a, ea, h);
  }

  /** noise_1d carried along the direction ex. */
  function Noise1dJet(rng: Rng, seed: bv32, x0: int, x1: int, dx: real, ex: real, h: real): Jet
  {
    BlendJet(CornerJet1(rng, seed, x0, dx, ex), CornerJet1(rng, seed, x1, dx - 1.0, ex), dx, ex, h)
  }

  lemma Noise1dJetExact(rng: Rng, seed: bv32, x0: int, x1: int, dx: real, ex: real, h: real, px: real)
    requires px == dx + h * ex
    ensures Noise1d(rng, seed, x0, x1, px) == Eval(Noise1dJet(rng, seed, x0, x1, dx, ex, h), h)
  {
    CornerJet1Exact(rng, seed, x0, dx, ex, h, px);
    CornerJet1Exact(rng, seed, x1, dx - 1.0, ex, h, px - 1.0);
    BlendJetAt(CornerJet1(rng, seed, x0, dx, ex), CornerJet1(rng, seed, x1, dx - 1.0, ex), dx, ex, h, px);
  }

  /** The second-order term of noise_1d moved by h*ex. */
  function Noise1dRemainder(rng: Rng, seed: bv32, x0: int, x1: int, dx: real, ex: real, h: real): real
  {
    Noise1dJet(rng, seed, x0, x1, dx, ex, h).r
  }

  /** The jet is noise_1d, noise_1d_gradient and the remainder. */
  lemma Noise1dJetParts(rng: Rng, seed: bv32, x0: int, x1: int, dx: real, ex: real, h: real)
    ensures Noise1dJet(rng, seed, x0, x1, dx, ex, h)
         == Jet(Noise1d(rng, seed, x0, x1, dx), Noise1dGradient(rng, seed, x0, x1, dx, ex),
                Noise1dRemainder(rng, seed, x0, x1, dx, ex, h))
  {
  }

  /** noise_1d moved by h*ex: its first-order term is noise_1d_gradient with
      selector ex. */
  lemma Noise1dMoved(rng: Rng, seed: bv32, x0: int, x1: int, dx: real, ex: real, h: real, px: real)
    requires px == dx + h * ex
    ensures Noise1d(rng, seed, x0, x1, px)
         == Eval(Jet(Noise1d(rng, seed, x0, x1, dx), Noise1dGradient(rng, seed, x0, x1, dx, ex),
                     Noise1dRemainder(rng, seed, x0, x1, dx, ex, h)), h)
  {
    Noise1dJetParts(rng, seed, x0, x1, dx, ex, h);
    Noise1dJetExact(rng, seed, x0, x1, dx, ex, h, px);
  }

  /** noise_1d_gradient is the slope of noise_1d: moving the offset by h times the
      selector gives the value plus h times the gradient plus h^2 times the
      remainder, i.e. Eval(Jet(value, gradient, remainder), h). */
  lemma Noise1dGradientIsSlope(rng: Rng, seed: bv32, x0: int, x1: int, dx: real, hx: real, h: real)
    ensures Noise1d(rng, seed, x0, x1, dx + h * hx)
         == Eval(Jet(Noise1d(rng, seed, x0, x1, dx), Noise1dGradient(rng, seed, x0, x1, dx, hx),
                     Noise1dRemainder(rng, seed, x0, x1, dx, hx, h)), h)
  {
    Noise1dMoved(rng, seed, x0, x1, dx, hx, h, dx + h * hx);
  }

  /** With selector 1 the gradient is the textbook derivative of the blend:
      g0 + (g1 - g0)*S(dx) + (v1 - v0)*S'(dx), with g the corner gradients and v
      the corner dot products. */
  lemma Noise1dGradientClosedForm(rng: Rng, seed: bv32, x0: int, x1: int, dx: real)
    ensures
      var g0 := RandomGradient1(rng, seed, x0);
      var g1 := RandomGradient1(rng, seed, x1);
      Noise1dGradient(rng, seed, x0, x1, dx, 1.0)
      == g0 + (g1 - g0) * Smootherstep(dx) + ((dx - 1.0) * g1 - dx * g0) * SmootherstepGradient(dx)
  {
    var g0 := RandomGradient1(rng, seed, x0);
    var g1 := RandomGradient1(rng, seed, x1);
  }

  /** With selector 0 the gradient is 0. */
  lemma Noise1dGradientOff(rng: Rng, seed: bv32, x0: int, x1: int, dx: real)
    ensures Noise1dGradient(rng, seed, x0, x1, dx, 0.0) == 0.0
  {
    DotGridGradientZero(rng, seed, x0, 0, 0, 0);
    DotGridGradientZero(rng, seed, x1, 0, 0, 0);
    InterpolateGradientCases(DotGridGradient1d(rng, seed, x0, dx), DotGridGradient1d(rng, seed, x1, dx - 1.0),
                             dx, 0.0, 0.0, 0.0);
  }

  /** When every corner gradient lies in [-1, 1], so does the noise inside the cell. */
  lemma Noise1dBounded(rng: Rng, seed: bv32, x0: int, x1: int, dx: real)
    requires RandfWithin(rng)
    requires 0.0 <= dx <= 1.0
    ensures -1.0 <= Noise1d(rng, seed, x0, x1, dx) <= 1.0
  {
    var g0 := RandomGradient1(rng, seed, x0);
    var g1 := RandomGradient1(rng, seed, x1);
    RandomGradient1Bounded(rng, seed, x0);
    RandomGradient1Bounded(rng, seed, x1);
    OffsetProducts(dx, g0, g1);
    InterpolateWithin(DotGridGradient1d(rng, seed, x0, dx), DotGridGradient1d(rng, seed, x1, dx - 1.0),
                      dx, -1.0, 1.0);
  }

  /** Both corner dot products of a 1D cell lie in [-1, 1]. */
  lemma OffsetProducts(dx: real, g0: real, g1: real)
    requires 0.0 <= dx <= 1.0 && -1.0 <= g0 <= 1.0 && -1.0 <= g1 <= 1.0
    ensures -1.0 <= dx * g0 <= 1.0
    ensures -1.0 <= (dx - 1.0) * g1 <= 1.0
  {
    ProductOfUnits(dx, g0);
    ProductOfUnits(1.0 - dx, -g1);
    assert (dx - 1.0) * g1 == (1.0 - dx) * -g1;
  }

  /** |s*g| <= 1 for s in [0, 1] and g in [-1, 1]. */
  lemma ProductOfUnits(s: real, g: real)
    requires 0.0 <= s <= 1.0 && -1.0 <= g <= 1.0
    ensures -1.0 <= s * g <= 1.0
  {
    if g >= 0.0 {
      MulNonNegative(s, g);
      MulNonNegative(1.0 - s, g);
    } else {
      MulNonNegative(s, -g);
      MulNonNegative(1.0 - s, -g);
    }
  }

  // ---------------------------------------------------------------------------
  // 2D

  /** The four corner dot products of noise_2d (noise.h:161-166), each taken with
      the offset from its own corner. */
  function Corners2(rng: Rng, seed: bv32, x0: int, y0: int, x1: int, y1: int, dx: real, dy: real): Square<real>
  {
    Square(DotGridGradient2d(rng, seed, x0, y0, dx, dy),
           DotGridGradient2d(rng, seed, x1, y0, dx - 1.0, dy),
           DotGridGradient2d(rng, seed, x0, y1, dx, dy - 1.0),
           DotGridGradient2d(rng, seed, x1, y1, dx - 1.0, dy - 1.0))
  }

  /** The corner partials d_v.._dx or d_v.._dy (noise.h:175-187): every corner's
      tangent dot product with the same tangent (ex, ey). */
  function Partials2(rng: Rng, seed: bv32, x0: int, y0: int, x1: int, y1: int, ex: real, ey: real): Square<real>
  {
    Square(DotGridGradient2dGradient(rng, seed, x0, y0, ex, ey),
           DotGridGradient2dGradient(rng, seed, x1, y0, ex, ey),
           DotGridGradient2dGradient(rng, seed, x0, y1, ex, ey),
           DotGridGradient2dGradient(rng, seed, x1, y1, ex, ey))
  }

  /** noise_2d (noise.h:158-170). */
  function Noise2d(rng: Rng, seed: bv32, x0: int, y0: int, x1: int, y1: int, dx: real, dy: real): real
  {
    Bilerp(Corners2(rng, seed, x0, y0, x1, y1, dx, dy), dx, dy)
  }

  /** noise_2d_gradient (noise.h:172-202): the x chain uses the tangent (hx, 0) and
      selector hx at the x stage; the y chain uses (0, hy) and hy at the y stage. */
  function Noise2dGradient(rng: Rng, seed: bv32, x0: int, y0: int, x1: int, y1: int, dx: real, dy: real,
                           hx: real, hy: real): Vec2
  {
    var gradientX := Noise2dChain(rng, seed, x0, y0, x1, y1, dx, dy, hx, 0.0);
    var gradientY := Noise2dChain(rng, seed, x0, y0, x1, y1, dx, dy, 0.0, hy);
    Vec2(gradientX, gradientY)
  }

  /** One chain of partials of noise_2d_gradient: the corner partials with the
      tangent (ex, ey), blended with selector ex at the x stage and ey at the y
      stage (noise.h:189-199). */
  function Noise2dChain(rng: Rng, seed: bv32, x0: int, y0: int, x1: int, y1: int, dx: real, dy: real,
                        ex: real, ey: real): real
  {
    BilerpGradient(Corners2(rng, seed, x0, y0, x1, y1, dx, dy), Partials2(rng, seed, x0, y0, x1, y1, ex, ey),
                   dx, ex, dy, ey)
  }

  function CornerJet2(rng: Rng, seed: bv32, ix: int, iy: int, a: real, b: real, ea: real, eb: real): Jet
  {
    LinearJet(DotGridGradient2d(rng, seed, ix, iy, a, b), DotGridGradient2dGradient(rng, seed, ix, iy, ea, eb))
  }

  lemma CornerJet2Exact(rng: Rng, seed: bv32, ix: int, iy: int, a: real, b: real, ea: real, eb: real,
                        h: real, pa: real, pb: real)
    requires pa == a + h * ea && pb == b + h * eb
    ensures Eval(CornerJet2(rng, seed, ix, iy, a, b, ea, eb), h) == DotGridGradient2d(rng, seed, ix, iy, pa, pb)
  {
    DotGridGradient2dLinear(rng, seed, ix, iy, a, b, ea, eb, h);
  }

  function CornerJets2(rng: Rng, seed: bv32, x0: int, y0: int, x1: int, y1: int, dx: real, dy: real,
                       ex: real, ey: real): (s: Square<Jet>)
    ensures ValuesSquare(s) == Corners2(rng, seed, x0, y0, x1, y1, dx, dy)
    ensures SlopesSquare(s) == Partials2(rng, seed, x0, y0, x1, y1, ex, ey)
  {
    Square(CornerJet2(rng, seed, x0, y0, dx, dy, ex, ey),
           CornerJet2(rng, seed, x1, y0, dx - 1.0, dy, ex, ey),
           CornerJet2(rng, seed, x0, y1, dx, dy - 1.0, ex, ey),
           CornerJet2(rng, seed, x1, y1, dx - 1.0, dy - 1.0, ex, ey))
  }

  lemma CornerJets2Exact(rng: Rng, seed: bv32, x0: int, y0: int, x1: int, y1: int, dx: real, dy: real,
                         ex: real, ey: real, h: real, px: real, py: real)
    requires px == dx + h * ex && py == dy + h * ey
    ensures EvalSquare(CornerJets2(rng, seed, x0, y0, x1, y1, dx, dy, ex, ey), h)
         == Corners2(rng, seed, x0, y0, x1, y1, px, py)
  {
    CornerJet2Exact(rng, seed, x0, y0, dx, dy, ex, ey, h, px, py);
    CornerJet2Exact(rng, seed, x1, y0, dx - 1.0, dy, ex, ey, h, px - 1.0, py);
    CornerJet2Exact(rng, seed, x0, y1, dx, dy - 1.0, ex, ey, h, px, py - 1.0);
    CornerJet2Exact(rng, seed, x1, y1, dx - 1.0, dy - 1.0, ex, ey, h, px - 1.0, py - 1.0);
  }

  /** noise_2d carried along the direction (ex, ey). */
  function Noise2dJet(rng: Rng, seed: bv32, x0: int, y0: int, x1: int, y1: int, dx: real, dy: real,
                      ex: real, ey: real, h: real): Jet
  {
    BilerpJet(CornerJets2(rng, seed, x0, y0, x1, y1, dx, dy, ex, ey), dx, ex, dy, ey, h)
  }

  lemma Noise2dJetExact(rng: Rng, seed: bv32, x0: int, y0: int, x1: int, y1: int, dx: real, dy: real,
                        ex: real, ey: real, h: real, px: real, py: real)
    requires px == dx + h * ex && py == dy + h * ey
    ensures Noise2d(rng, seed, x0, y0, x1, y1, px, py)
         == Eval(Noise2dJet(rng, seed, x0, y0, x1, y1, dx, dy, ex, ey, h), h)
  {
    CornerJets2Exact(rng, seed, x0, y0, x1, y1, dx, dy, ex, ey, h, px, py);
    BilerpJetExact(CornerJets2(rng, seed, x0, y0, x1, y1, dx, dy, ex, ey), dx, ex, dy, ey, h, px, py);
  }

  function Noise2dRemainder(rng: Rng, seed: bv32, x0: int, y0: int, x1: int, y1: int, dx: real, dy: real,
                            ex: real, ey: real, h: real): real
  {
    Noise2dJet(rng, seed, x0, y0, x1, y1, dx, dy, ex, ey, h).r
  }

  /** The jet is noise_2d, the chain with the same direction and the remainder. */
  lemma Noise2dJetParts(rng: Rng, seed: bv32, x0: int, y0: int, x1: int, y1: int, dx: real, dy: real,
                        ex: real, ey: real, h: real)
    ensures Noise2dJet(rng, seed, x0, y0, x1, y1, dx, dy, ex, ey, h)
         == Jet(Noise2d(rng, seed, x0, y0, x1, y1, dx, dy), Noise2dChain(rng, seed, x0, y0, x1, y1, dx, dy, ex, ey),
                Noise2dRemainder(rng, seed, x0, y0, x1, y1, dx, dy, ex, ey, h))
  {
  }

  /** noise_2d moved along any direction (ex, ey): its first-order term is the
      chain with that tangent and those selectors. */
  lemma Noise2dMoved(rng: Rng, seed: bv32, x0: int, y0: int, x1: int, y1: int, dx: real, dy: real,
                     ex: real, ey: real, h: real, px: real, py: real)
    requires px == dx + h * ex && py == dy + h * ey
    ensures Noise2d(rng, seed, x0, y0, x1, y1, px, py)
         == Eval(Jet(Noise2d(rng, seed, x0, y0, x1, y1, dx, dy),
                     Noise2dChain(rng, seed, x0, y0, x1, y1, dx, dy, ex, ey),
                     Noise2dRemainder(rng, seed, x0, y0, x1, y1, dx, dy, ex, ey, h)), h)
  {
    Noise2dJetParts(rng, seed, x0, y0, x1, y1, dx, dy, ex, ey, h);
    Noise2dJetExact(rng, seed, x0, y0, x1, y1, dx, dy, ex, ey, h, px, py);
  }

  /** Each partial of noise_2d_gradient is the slope of noise_2d along its axis,
      scaled by that axis' selector: moving the offset by h times the selector
      gives Eval(Jet(value, partial, remainder), h). */
  lemma Noise2dGradientIsSlope(rng: Rng, seed: bv32, x0: int, y0: int, x1: int, y1: int, dx: real, dy: real,
                               hx: real, hy: real, h: real)
    ensures Noise2d(rng, seed, x0, y0, x1, y1, dx + h * hx, dy)
         == Eval(Jet(Noise2d(rng, seed, x0, y0, x1, y1, dx, dy),
                     Noise2dGradient(rng, seed, x0, y0, x1, y1, dx, dy, hx, hy).x,
                     Noise2dRemainder(rng, seed, x0, y0, x1, y1, dx, dy, hx, 0.0, h)), h)
    ensures Noise2d(rng, seed, x0, y0, x1, y1, dx, dy + h * hy)
         == Eval(Jet(Noise2d(rng, seed, x0, y0, x1, y1, dx, dy),
                     Noise2dGradient(rng, seed, x0, y0, x1, y1, dx, dy, hx, hy).y,
                     Noise2dRemainder(rng, seed, x0, y0, x1, y1, dx, dy, 0.0, hy, h)), h)
  {
    Noise2dMoved(rng, seed, x0, y0, x1, y1, dx, dy, hx, 0.0, h, dx + h * hx, dy);
    Noise2dMoved(rng, seed, x0, y0, x1, y1, dx, dy, 0.0, hy, h, dx, dy + h * hy);
  }

  /** With a zero selector the partial along that axis is 0. */
  lemma Noise2dGradientOff(rng: Rng, seed: bv32, x0: int, y0: int, x1: int, y1: int, dx: real, dy: real,
                           hx: real, hy: real)
    ensures Noise2dGradient(rng, seed, x0, y0, x1, y1, dx, dy, 0.0, hy).x == 0.0
    ensures Noise2dGradient(rng, seed, x0, y0, x1, y1, dx, dy, hx, 0.0).y == 0.0
  {
    var v := Corners2(rng, seed, x0, y0, x1, y1, dx, dy);
    DotGridGradientZero(rng, seed, x0, y0, 0, 0);
    DotGridGradientZero(rng, seed, x1, y0, 0, 0);
    DotGridGradientZero(rng, seed, x0, y1, 0, 0);
    DotGridGradientZero(rng, seed, x1, y1, 0, 0);
    BilerpGradientZero(v, dx, dy);
  }

  /** The corner partials along (ex, ey) are ex times those along x plus ey times
      those along y. */
  lemma Partials2Split(rng: Rng, seed: bv32, x0: int, y0: int, x1: int, y1: int, ex: real, ey: real,
                       p: Square<real>, q: Square<real>)
    requires p == Partials2(rng, seed, x0, y0, x1, y1, 1.0, 0.0)
    requires q == Partials2(rng, seed, x0, y0, x1, y1, 0.0, 1.0)
    ensures Partials2(rng, seed, x0, y0, x1, y1, ex, ey)
         == Square(ex * p.c00 + ey * q.c00, ex * p.c10 + ey * q.c10, ex * p.c01 + ey * q.c01, ex * p.c11 + ey * q.c11)
  {
    DotGridGradient2dGradientSplit(rng, seed, x0, y0, ex, ey);
    DotGridGradient2dGradientSplit(rng, seed, x1, y0, ex, ey);
    DotGridGradient2dGradientSplit(rng, seed, x0, y1, ex, ey);
    DotGridGradient2dGradientSplit(rng, seed, x1, y1, ex, ey);
    var d := Partials2(rng, seed, x0, y0, x1, y1, ex, ey);
    assert d.c00 == ex * p.c00 + ey * q.c00;
    assert d.c10 == ex * p.c10 + ey * q.c10;
    assert d.c01 == ex * p.c01 + ey * q.c01;
    assert d.c11 == ex * p.c11 + ey * q.c11;
  }

  /** The slope of noise_2d along (ex, ey) is the combination ex * (slope along x)
      + ey * (slope along y) of the two unit-selector chains. */
  lemma Noise2dChainCombination(rng: Rng, seed: bv32, x0: int, y0: int, x1: int, y1: int, dx: real, dy: real,
                                ex: real, ey: real)
    ensures Noise2dChain(rng, seed, x0, y0, x1, y1, dx, dy, ex, ey)
         == ex * Noise2dChain(rng, seed, x0, y0, x1, y1, dx, dy, 1.0, 0.0)
            + ey * Noise2dChain(rng, seed, x0, y0, x1, y1, dx, dy, 0.0, 1.0)
  {
    var c := Corners2(rng, seed, x0, y0, x1, y1, dx, dy);
    var d := Partials2(rng, seed, x0, y0, x1, y1, ex, ey);
    var p := Partials2(rng, seed, x0, y0, x1, y1, 1.0, 0.0);
    var q := Partials2(rng, seed, x0, y0, x1, y1, 0.0, 1.0);
    Partials2Split(rng, seed, x0, y0, x1, y1, ex, ey, p, q);
    BilerpGradientCombination(c, d, p, q, dx, dy, ex, ey, 1.0, 0.0, 0.0, 1.0, ex, ey);
  }

  /** With both selectors on, noise_2d has slope 0 along the gradient turned by a
      quarter turn (-d/dy, d/dx). */
  lemma Noise2dTurnedGradientIsLevel(rng: Rng, seed: bv32, x0: int, y0: int, x1: int, y1: int, dx: real, dy: real)
    ensures Noise2dChain(rng, seed, x0, y0, x1, y1, dx, dy,
                         -Noise2dGradient(rng, seed, x0, y0, x1, y1, dx, dy, 1.0, 1.0).y,
                         Noise2dGradient(rng, seed, x0, y0, x1, y1, dx, dy, 1.0, 1.0).x) == 0.0
  {
    var sx := Noise2dChain(rng, seed, x0, y0, x1, y1, dx, dy, 1.0, 0.0);
    var sy := Noise2dChain(rng, seed, x0, y0, x1, y1, dx, dy, 0.0, 1.0);
    Noise2dChainCombination(rng, seed, x0, y0, x1, y1, dx, dy, -sy, sx);
    TurnAlgebra(sx, sy);
  }

  lemma TurnAlgebra(sx: real, sy: real)
    ensures -sy * sx + sx * sy == 0.0
  {
  }

  // ---------------------------------------------------------------------------
  // 3D

  /** The four corner dot products of one z face of a 3D cell, at z index iz and
      z offset oz (dz for the low face, dz - 1 for the high one). */
  function Face3(rng: Rng, seed: bv32, x0: int, x1: int, y0: int, y1: int, iz: int,
                 dx: real, dy: real, oz: real): Square<real>
  {
    Square(DotGridGradient3d(rng, seed, x0, y0, iz, dx, dy, oz),
           DotGridGradient3d(rng, seed, x1, y0, iz, dx - 1.0, dy, oz),
           DotGridGradient3d(rng, seed, x0, y1, iz, dx, dy - 1.0, oz),
           DotGridGradient3d(rng, seed, x1, y1, iz, dx - 1.0, dy - 1.0, oz))
  }

  /** The eight corner dot products of noise_3d (noise.h:207-224). */
  function Corners3(rng: Rng, seed: bv32, x0: int, y0: int, z0: int, x1: int, y1: int, z1: int,
                    dx: real, dy: real, dz: real): Cube<real>
  {
    Cube(Face3(rng, seed, x0, x1, y0, y1, z0, dx, dy, dz),
         Face3(rng, seed, x0, x1, y0, y1, z1, dx, dy, dz - 1.0))
  }

  function FacePartials3(rng: Rng, seed: bv32, x0: int, x1: int, y0: int, y1: int, iz: int,
                         ex: real, ey: real, ez: real): Square<real>
  {
    Square(DotGridGradient3dGradient(rng, seed, x0, y0, iz, ex, ey, ez),
           DotGridGradient3dGradient(rng, seed, x1, y0, iz, ex, ey, ez),
           DotGridGradient3dGradient(rng, seed, x0, y1, iz, ex, ey, ez),
           DotGridGradient3dGradient(rng, seed, x1, y1, iz, ex, ey, ez))
  }

  /** The corner partials d_v..._dx, d_v..._dy or d_v..._dz (noise.h:232-270). */
  function Partials3(rng: Rng, seed: bv32, x0: int, y0: int, z0: int, x1: int, y1: int, z1: int,
                     ex: real, ey: real, ez: real): Cube<real>
  {
    Cube(FacePartials3(rng, seed, x0, x1, y0, y1, z0, ex, ey, ez),
         FacePartials3(rng, seed, x0, x1, y0, y1, z1, ex, ey, ez))
  }

  /** noise_3d (noise.h:204-228). */
  function Noise3d(rng: Rng, seed: bv32, x0: int, y0: int, z0: int, x1: int, y1: int, z1: int,
                   dx: real, dy: real, dz: real): real
  {
    Trilerp(Corners3(rng, seed, x0, y0, z0, x1, y1, z1, dx, dy, dz), dx, dy, dz)
  }

  /** noise_3d_gradient (noise.h:230-307).  The three chains are built as in 2D, but
      the result takes gradient_x from the y chain and gradient_y from the x chain
      (noise.h:302-303); this model keeps that. */
  function Noise3dGradient(rng: Rng, seed: bv32, x0: int, y0: int, z0: int, x1: int, y1: int, z1: int,
                           dx: real, dy: real, dz: real, hx: real, hy: real, hz: real): Vec3
  {
    var chainX := Noise3dChain(rng, seed, x0, y0, z0, x1, y1, z1, dx, dy, dz, hx, 0.0, 0.0);
    var chainY := Noise3dChain(rng, seed, x0, y0, z0, x1, y1, z1, dx, dy, dz, 0.0, hy, 0.0);
    var chainZ := Noise3dChain(rng, seed, x0, y0, z0, x1, y1, z1, dx, dy, dz, 0.0, 0.0, hz);
    Vec3(chainY, chainX, chainZ)
  }

  /** One chain of partials of noise_3d_gradient: the corner partials with the
      tangent (ex, ey, ez), blended with selector ex at the x stage, ey at the y
      stage and ez at the z stage (noise.h:272-305). */
  function Noise3dChain(rng: Rng, seed: bv32, x0: int, y0: int, z0: int, x1: int, y1: int, z1: int,
                        dx: real, dy: real, dz: real, ex: real, ey: real, ez: real): real
  {
    TrilerpGradient(Corners3(rng, seed, x0, y0, z0, x1, y1, z1, dx, dy, dz),
                    Partials3(rng, seed, x0, y0, z0, x1, y1, z1, ex, ey, ez), dx, ex, dy, ey, dz, ez)
  }

  function CornerJet3(rng: Rng, seed: bv32, ix: int, iy: int, iz: int, a: real, b: real, c: real,
                      ea: real, eb: real, ec: real): Jet
  {
    LinearJet(DotGridGradient3d(rng, seed, ix, iy, iz, a, b, c),
              DotGridGradient3dGradient(rng, seed, ix, iy, iz, ea, eb, ec))
  }

  lemma CornerJet3Exact(rng: Rng, seed: bv32, ix: int, iy: int, iz: int, a: real, b: real, c: real,
                        ea: real, eb: real, ec: real, h: real, pa: real, pb: real, pc: real)
    requires pa == a + h * ea && pb == b + h * eb && pc == c + h * ec
    ensures Eval(CornerJet3(rng, seed, ix, iy, iz, a, b, c, ea, eb, ec), h)
         == DotGridGradient3d(rng, seed, ix, iy, iz, pa, pb, pc)
  {
    DotGridGradient3dLinear(rng, seed, ix, iy, iz, a, b, c, ea, eb, ec, h);
  }

  function FaceJets3(rng: Rng, seed: bv32, x0: int, x1: int, y0: int, y1: int, iz: int,
                     dx: real, dy: real, oz: real, ex: real, ey: real, ez: real): (s: Square<Jet>)
    ensures ValuesSquare(s) == Face3(rng, seed, x0, x1, y0, y1, iz, dx, dy, oz)
    ensures SlopesSquare(s) == FacePartials3(rng, seed, x0, x1, y0, y1, iz, ex, ey, ez)
  {
    Square(CornerJet3(rng, seed, x0, y0, iz, dx, dy, oz, ex, ey, ez),
           CornerJet3(rng, seed, x1, y0, iz, dx - 1.0, dy, oz, ex, ey, ez),
           CornerJet3(rng, seed, x0, y1, iz, dx, dy - 1.0, oz, ex, ey, ez),
           CornerJet3(rng, seed, x1, y1, iz, dx - 1.0, dy - 1.0, oz, ex, ey, ez))
  }

  lemma FaceJets3Exact(rng: Rng, seed: bv32, x0: int, x1: int, y0: int, y1: int, iz: int,
                       dx: real, dy: real, oz: real, ex: real, ey: real, ez: real,
                       h: real, px: real, py: real, pz: real)
    requires px == dx + h * ex && py == dy + h * ey && pz == oz + h * ez
    ensures EvalSquare(FaceJets3(rng, seed, x0, x1, y0, y1, iz, dx, dy, oz, ex, ey, ez), h)
         == Face3(rng, seed, x0, x1, y0, y1, iz, px, py, pz)
  {
    CornerJet3Exact(rng, seed, x0, y0, iz, dx, dy, oz, ex, ey, ez, h, px, py, pz);
    CornerJet3Exact(rng, seed, x1, y0, iz, dx - 1.0, dy, oz, ex, ey, ez, h, px - 1.0, py, pz);
    CornerJet3Exact(rng, seed, x0, y1, iz, dx, dy - 1.0, oz, ex, ey, ez, h, px, py - 1.0, pz);
    CornerJet3Exact(rng, seed, x1, y1, iz, dx - 1.0, dy - 1.0, oz, ex, ey, ez, h, px - 1.0, py - 1.0, pz);
  }

  function CornerJets3(rng: Rng, seed: bv32, x0: int, y0: int, z0: int, x1: int, y1: int, z1: int,
                       dx: real, dy: real, dz: real, ex: real, ey: real, ez: real): (c: Cube<Jet>)
    ensures ValuesCube(c) == Corners3(rng, seed, x0, y0, z0, x1, y1, z1, dx, dy, dz)
    ensures SlopesCube(c) == Partials3(rng, seed, x0, y0, z0, x1, y1, z1, ex, ey, ez)
  {
    Cube(FaceJets3(rng, seed, x0, x1, y0, y1, z0, dx, dy, dz, ex, ey, ez),
         FaceJets3(rng, seed, x0, x1, y0, y1, z1, dx, dy, dz - 1.0, ex, ey, ez))
  }

  lemma CornerJets3Exact(rng: Rng, seed: bv32, x0: int, y0: int, z0: int, x1: int, y1: int, z1: int,
                         dx: real, dy: real, dz: real, ex: real, ey: real, ez: real,
                         h: real, px: real, py: real, pz: real)
    requires px == dx + h * ex && py == dy + h * ey && pz == dz + h * ez
    ensures EvalCube(CornerJets3(rng, seed, x0, y0, z0, x1, y1, z1, dx, dy, dz, ex, ey, ez), h)
         == Corners3(rng, seed, x0, y0, z0, x1, y1, z1, px, py, pz)
  {
    FaceJets3Exact(rng, seed, x0, x1, y0, y1, z0, dx, dy, dz, ex, ey, ez, h, px, py, pz);
    FaceJets3Exact(rng, seed, x0, x1, y0, y1, z1, dx, dy, dz - 1.0, ex, ey, ez, h, px, py, pz - 1.0);
  }

  /** noise_3d carried along the direction (ex, ey, ez). */
  function Noise3dJet(rng: Rng, seed: bv32, x0: int, y0: int, z0: int, x1: int, y1: int, z1: int,
                      dx: real, dy: real, dz: real, ex: real, ey: real, ez: real, h: real): Jet
  {
    TrilerpJet(CornerJets3(rng, seed, x0, y0, z0, x1, y1, z1, dx, dy, dz, ex, ey, ez),
               dx, ex, dy, ey, dz, ez, h)
  }

  lemma Noise3dJetExact(rng: Rng, seed: bv32, x0: int, y0: int, z0: int, x1: int, y1: int, z1: int,
                        dx: real, dy: real, dz: real, ex: real, ey: real, ez: real,
                        h: real, px: real, py: real, pz: real)
    requires px == dx + h * ex && py == dy + h * ey && pz == dz + h * ez
    ensures Noise3d(rng, seed, x0, y0, z0, x1, y1, z1, px, py, pz)
         == Eval(Noise3dJet(rng, seed, x0, y0, z0, x1, y1, z1, dx, dy, dz, ex, ey, ez, h), h)
  {
    CornerJets3Exact(rng, seed, x0, y0, z0, x1, y1, z1, dx, dy, dz, ex, ey, ez, h, px, py, pz);
    TrilerpJetExact(CornerJets3(rng, seed, x0, y0, z0, x1, y1, z1, dx, dy, dz, ex, ey, ez),
                    dx, ex, dy, ey, dz, ez, h, px, py, pz);
  }

  function Noise3dRemainder(rng: Rng, seed: bv32, x0: int, y0: int, z0: int, x1: int, y1: int, z1: int,
                            dx: real, dy: real, dz: real, ex: real, ey: real, ez: real, h: real): real
  {
    Noise3dJet(rng, seed, x0, y0, z0, x1, y1, z1, dx, dy, dz, ex, ey, ez, h).r
  }

  /** noise_3d_gradient as written: moving the offset along x by h times the x
      selector changes noise_3d by h times the result's y component (noise.h:303). */
  lemma Noise3dSlopeAlongX(rng: Rng, seed: bv32, x0: int, y0: int, z0: int, x1: int, y1: int, z1: int,
                           dx: real, dy: real, dz: real, hx: real, hy: real, hz: real, h: real, px: real)
    requires px == dx + h * hx
    ensures Noise3d(rng, seed, x0, y0, z0, x1, y1, z1, px, dy, dz)
         == Eval(Jet(Noise3d(rng, seed, x0, y0, z0, x1, y1, z1, dx, dy, dz),
                     Noise3dGradient(rng, seed, x0, y0, z0, x1, y1, z1, dx, dy, dz, hx, hy, hz).y,
                     Noise3dRemainder(rng, seed, x0, y0, z0, x1, y1, z1, dx, dy, dz, hx, 0.0, 0.0, h)), h)
  {
    Noise3dMoved(rng, seed, x0, y0, z0, x1, y1, z1, dx, dy, dz, hx, 0.0, 0.0, h, px, dy, dz);
  }

  /** Moving the offset along y by h times the y selector changes noise_3d by h
      times the result's x component (noise.h:302). */
  lemma Noise3dSlopeAlongY(rng: Rng, seed: bv32, x0: int, y0: int, z0: int, x1: int, y1: int, z1: int,
                           dx: real, dy: real, dz: real, hx: real, hy: real, hz: real, h: real, py: real)
    requires py == dy + h * hy
    ensures Noise3d(rng, seed, x0, y0, z0, x1, y1, z1, dx, py, dz)
         == Eval(Jet(Noise3d(rng, seed, x0, y0, z0, x1, y1, z1, dx, dy, dz),
                     Noise3dGradient(rng, seed, x0, y0, z0, x1, y1, z1, dx, dy, dz, hx, hy, hz).x,
                     Noise3dRemainder(rng, seed, x0, y0, z0, x1, y1, z1, dx, dy, dz, 0.0, hy, 0.0, h)), h)
  {
    Noise3dMoved(rng, seed, x0, y0, z0, x1, y1, z1, dx, dy, dz, 0.0, hy, 0.0, h, dx, py, dz);
  }

  /** Moving the offset along z by h times the z selector changes noise_3d by h
      times the result's z component (noise.h:304). */
  lemma Noise3dSlopeAlongZ(rng: Rng, seed: bv32, x0: int, y0: int, z0: int, x1: int, y1: int, z1: int,
                           dx: real, dy: real, dz: real, hx: real, hy: real, hz: real, h: real, pz: real)
    requires pz == dz + h * hz
    ensures Noise3d(rng, seed, x0, y0, z0, x1, y1, z1, dx, dy, pz)
         == Eval(Jet(Noise3d(rng, seed, x0, y0, z0, x1, y1, z1, dx, dy, dz),
                     Noise3dGradient(rng, seed, x0, y0, z0, x1, y1, z1, dx, dy, dz, hx, hy, hz).z,
                     Noise3dRemainder(rng, seed, x0, y0, z0, x1, y1, z1, dx, dy, dz, 0.0, 0.0, hz, h)), h)
  {
    Noise3dMoved(rng, seed, x0, y0, z0, x1, y1, z1, dx, dy, dz, 0.0, 0.0, hz, h, dx, dy, pz);
  }

  /** The jet is noise_3d, the chain with the same direction and the remainder. */
  lemma Noise3dJetParts(rng: Rng, seed: bv32, x0: int, y0: int, z0: int, x1: int, y1: int, z1: int,
                        dx: real, dy: real, dz: real, ex: real, ey: real, ez: real, h: real)
    ensures Noise3dJet(rng, seed, x0, y0, z0, x1, y1, z1, dx, dy, dz, ex, ey, ez, h)
         == Jet(Noise3d(rng, seed, x0, y0, z0, x1, y1, z1, dx, dy, dz),
                Noise3dChain(rng, seed, x0, y0, z0, x1, y1, z1, dx, dy, dz, ex, ey, ez),
                Noise3dRemainder(rng, seed, x0, y0, z0, x1, y1, z1, dx, dy, dz, ex, ey, ez, h))
  {
  }

  /** noise_3d moved along any direction (ex, ey, ez): its first-order term is the
      chain with that tangent and those selectors. */
  lemma Noise3dMoved(rng: Rng, seed: bv32, x0: int, y0: int, z0: int, x1: int, y1: int, z1: int,
                     dx: real, dy: real, dz: real, ex: real, ey: real, ez: real,
                     h: real, px: real, py: real, pz: real)
    requires px == dx + h * ex && py == dy + h * ey && pz == dz + h * ez
    ensures Noise3d(rng, seed, x0, y0, z0, x1, y1, z1, px, py, pz)
         == Eval(Jet(Noise3d(rng, seed, x0, y0, z0, x1, y1, z1, dx, dy, dz),
                     Noise3dChain(rng, seed, x0, y0, z0, x1, y1, z1, dx, dy, dz, ex, ey, ez),
                     Noise3dRemainder(rng, seed, x0, y0, z0, x1, y1, z1, dx, dy, dz, ex, ey, ez, h)), h)
  {
    Noise3dJetParts(rng, seed, x0, y0, z0, x1, y1, z1, dx, dy, dz, ex, ey, ez, h);
    Noise3dJetExact(rng, seed, x0, y0, z0, x1, y1, z1, dx, dy, dz, ex, ey, ez, h, px, py, pz);
  }

  /** With a zero selector the partial of that axis' chain is 0; because of the
      exchange, the x selector switches off the y component and vice versa. */
  lemma Noise3dGradientOff(rng: Rng, seed: bv32, x0: int, y0: int, z0: int, x1: int, y1: int, z1: int,
                           dx: real, dy: real, dz: real, hx: real, hy: real, hz: real)
    ensures Noise3dGradient(rng, seed, x0, y0, z0, x1, y1, z1, dx, dy, dz, 0.0, hy, hz).y == 0.0
    ensures Noise3dGradient(rng, seed, x0, y0, z0, x1, y1, z1, dx, dy, dz, hx, 0.0, hz).x == 0.0
    ensures Noise3dGradient(rng, seed, x0, y0, z0, x1, y1, z1, dx, dy, dz, hx, hy, 0.0).z == 0.0
  {
    var v := Corners3(rng, seed, x0, y0, z0, x1, y1, z1, dx, dy, dz);
    Partials3Zero(rng, seed, x0, y0, z0, x1, y1, z1);
    TrilerpGradientZero(v, dx, dy, dz);
  }

  lemma Partials3Zero(rng: Rng, seed: bv32, x0: int, y0: int, z0: int, x1: int, y1: int, z1: int)
    ensures Partials3(rng, seed, x0, y0, z0, x1, y1, z1, 0.0, 0.0, 0.0) == ZeroCube()
  {
    DotGridGradientZero(rng, seed, x0, y0, z0, 0);
    DotGridGradientZero(rng, seed, x1, y0, z0, 0);
    DotGridGradientZero(rng, seed, x0, y1, z0, 0);
    DotGridGradientZero(rng, seed, x1, y1, z0, 0);
    DotGridGradientZero(rng, seed, x0, y0, z1, 0);
    DotGridGradientZero(rng, seed, x1, y0, z1, 0);
    DotGridGradientZero(rng, seed, x0, y1, z1, 0);
    DotGridGradientZero(rng, seed, x1, y1, z1, 0);
  }

  // ---------------------------------------------------------------------------
  // 4D

  /** The four corner dot products of one (z, t) face of a 4D cell. */
  function Face4(rng: Rng, seed: bv32, x0: int, x1: int, y0: int, y1: int, iz: int, it: int,
                 dx: real, dy: real, oz: real, ot: real): Square<real>
  {
    Square(DotGridGradient4d(rng, seed, x0, y0, iz, it, dx, dy, oz, ot),
           DotGridGradient4d(rng, seed, x1, y0, iz, it, dx - 1.0, dy, oz, ot),
           DotGridGradient4d(rng, seed, x0, y1, iz, it, dx, dy - 1.0, oz, ot),
           DotGridGradient4d(rng, seed, x1, y1, iz, it, dx - 1.0, dy - 1.0, oz, ot))
  }

  /** The eight corner dot products at one t index of a 4D cell. */
  function Cube4(rng: Rng, seed: bv32, x0: int, x1: int, y0: int, y1: int, z0: int, z1: int, it: int,
                 dx: real, dy: real, dz: real, ot: real): Cube<real>
  {
    Cube(Face4(rng, seed, x0, x1, y0, y1, z0, it, dx, dy, dz, ot),
         Face4(rng, seed, x0, x1, y0, y1, z1, it, dx, dy, dz - 1.0, ot))
  }

  /** The sixteen corner dot products of noise_4d (noise.h:312-353). */
  function Corners4(rng: Rng, seed: bv32, x0: int, y0: int, z0: int, t0: int, x1: int, y1: int, z1: int, t1: int, dx: real, dy: real, dz: real, dt: real): Tesseract<real>
  {
    Tesseract(Cube4(rng, seed, x0, x1, y0, y1, z0, z1, t0, dx, dy, dz, dt),
              Cube4(rng, seed, x0, x1, y0, y1, z0, z1, t1, dx, dy, dz, dt - 1.0))
  }

  function FacePartials4(rng: Rng, seed: bv32, x0: int, x1: int, y0: int, y1: int, iz: int, it: int,
                         ex: real, ey: real, ez: real, et: real): Square<real>
  {
    Square(DotGridGradient4dGradient(rng, seed, x0, y0, iz, it, ex, ey, ez, et),
           DotGridGradient4dGradient(rng, seed, x1, y0, iz, it, ex, ey, ez, et),
           DotGridGradient4dGradient(rng, seed, x0, y1, iz, it, ex, ey, ez, et),
           DotGridGradient4dGradient(rng, seed, x1, y1, iz, it, ex, ey, ez, et))
  }

  function CubePartials4(rng: Rng, seed: bv32, x0: int, x1: int, y0: int, y1: int, z0: int, z1: int, it: int,
                         ex: real, ey: real, ez: real, et: real): Cube<real>
  {
    Cube(FacePartials4(rng, seed, x0, x1, y0, y1, z0, it, ex, ey, ez, et),
         FacePartials4(rng, seed, x0, x1, y0, y1, z1, it, ex, ey, ez, et))
  }

  /** The corner partials d_v...._dx .. d_v...._dt (noise.h:361-441). */
  function Partials4(rng: Rng, seed: bv32, x0: int, y0: int, z0: int, t0: int, x1: int, y1: int, z1: int, t1: int, ex: real, ey: real, ez: real, et: real): Tesseract<real>
  {
    Tesseract(CubePartials4(rng, seed, x0, x1, y0, y1, z0, z1, t0, ex, ey, ez, et),
              CubePartials4(rng, seed, x0, x1, y0, y1, z0, z1, t1, ex, ey, ez, et))
  }

  /** noise_4d (noise.h:309-357). */
  function Noise4d(rng: Rng, seed: bv32, x0: int, y0: int, z0: int, t0: int, x1: int, y1: int, z1: int, t1: int, dx: real, dy: real, dz: real, dt: real): real
  {
    Quadlerp(Corners4(rng, seed, x0, y0, z0, t0, x1, y1, z1, t1, dx, dy, dz, dt), dx, dy, dz, dt)
  }

  /** noise_4d_gradient (noise.h:359-547): one chain per axis, with the tangent and
      the selector of that axis only; unlike 3D the components come out in axis
      order. */
  function Noise4dGradient(rng: Rng, seed: bv32, x0: int, y0: int, z0: int, t0: int, x1: int, y1: int, z1: int, t1: int, dx: real, dy: real, dz: real, dt: real, hx: real, hy: real, hz: real, ht: real): Vec4
  {
    var gradientX := Noise4dChain(rng, seed, x0, y0, z0, t0, x1, y1, z1, t1, dx, dy, dz, dt, hx, 0.0, 0.0, 0.0);
    var gradientY := Noise4dChain(rng, seed, x0, y0, z0, t0, x1, y1, z1, t1, dx, dy, dz, dt, 0.0, hy, 0.0, 0.0);
    var gradientZ := Noise4dChain(rng, seed, x0, y0, z0, t0, x1, y1, z1, t1, dx, dy, dz, dt, 0.0, 0.0, hz, 0.0);
    var gradientT := Noise4dChain(rng, seed, x0, y0, z0, t0, x1, y1, z1, t1, dx, dy, dz, dt, 0.0, 0.0, 0.0, ht);
    Vec4(gradientX, gradientY, gradientZ, gradientT)
  }

  /** One chain of partials of noise_4d_gradient: the corner partials with the
      tangent (ex, ey, ez, et), blended with selector ex at the x stage, ey at the
      y stage, ez at the z stage and et at the t stage (noise.h:444-544). */
  function Noise4dChain(rng: Rng, seed: bv32, x0: int, y0: int, z0: int, t0: int, x1: int, y1: int, z1: int, t1: int, dx: real, dy: real, dz: real, dt: real, ex: real, ey: real, ez: real, et: real): real
  {
    QuadlerpGradient(Corners4(rng, seed, x0, y0, z0, t0, x1, y1, z1, t1, dx, dy, dz, dt), Partials4(rng, seed, x0, y0, z0, t0, x1, y1, z1, t1, ex, ey, ez, et), dx, ex, dy, ey, dz, ez, dt, et)
  }

  function CornerJet4(rng: Rng, seed: bv32, ix: int, iy: int, iz: int, it: int,
                      a: real, b: real, c: real, d: real, ea: real, eb: real, ec: real, ed: real): Jet
  {
    LinearJet(DotGridGradient4d(rng, seed, ix, iy, iz, it, a, b, c, d),
              DotGridGradient4dGradient(rng, seed, ix, iy, iz, it, ea, eb, ec, ed))
  }

  lemma CornerJet4Exact(rng: Rng, seed: bv32, ix: int, iy: int, iz: int, it: int,
                        a: real, b: real, c: real, d: real, ea: real, eb: real, ec: real, ed: real,
                        h: real, pa: real, pb: real, pc: real, pd: real)
    requires pa == a + h * ea && pb == b + h * eb && pc == c + h * ec && pd == d + h * ed
    ensures Eval(CornerJet4(rng, seed, ix, iy, iz, it, a, b, c, d, ea, eb, ec, ed), h)
         == DotGridGradient4d(rng, seed, ix, iy, iz, it, pa, pb, pc, pd)
  {
    DotGridGradient4dLinear(rng, seed, ix, iy, iz, it, a, b, c, d, ea, eb, ec, ed, h);
  }

  function FaceJets4(rng: Rng, seed: bv32, x0: int, x1: int, y0: int, y1: int, iz: int, it: int,
                     dx: real, dy: real, oz: real, ot: real, ex: real, ey: real, ez: real, et: real): (s: Square<Jet>)
    ensures ValuesSquare(s) == Face4(rng, seed, x0, x1, y0, y1, iz, it, dx, dy, oz, ot)
    ensures SlopesSquare(s) == FacePartials4(rng, seed, x0, x1, y0, y1, iz, it, ex, ey, ez, et)
  {
    Square(CornerJet4(rng, seed, x0, y0, iz, it, dx, dy, oz, ot, ex, ey, ez, et),
           CornerJet4(rng, seed, x1, y0, iz, it, dx - 1.0, dy, oz, ot, ex, ey, ez, et),
           CornerJet4(rng, seed, x0, y1, iz, it, dx, dy - 1.0, oz, ot, ex, ey, ez, et),
           CornerJet4(rng, seed, x1, y1, iz, it, dx - 1.0, dy - 1.0, oz, ot, ex, ey, ez, et))
  }

  lemma FaceJets4Exact(rng: Rng, seed: bv32, x0: int, x1: int, y0: int, y1: int, iz: int, it: int,
                       dx: real, dy: real, oz: real, ot: real, ex: real, ey: real, ez: real, et: real,
                       h: real, px: real, py: real, pz: real, pt: real)
    requires px == dx + h * ex && py == dy + h * ey && pz == oz + h * ez && pt == ot + h * et
    ensures EvalSquare(FaceJets4(rng, seed, x0, x1, y0, y1, iz, it, dx, dy, oz, ot, ex, ey, ez, et), h)
         == Face4(rng, seed, x0, x1, y0, y1, iz, it, px, py, pz, pt)
  {
    CornerJet4Exact(rng, seed, x0, y0, iz, it, dx, dy, oz, ot, ex, ey, ez, et, h, px, py, pz, pt);
    CornerJet4Exact(rng, seed, x1, y0, iz, it, dx - 1.0, dy, oz, ot, ex, ey, ez, et, h, px - 1.0, py, pz, pt);
    CornerJet4Exact(rng, seed, x0, y1, iz, it, dx, dy - 1.0, oz, ot, ex, ey, ez, et, h, px, py - 1.0, pz, pt);
    CornerJet4Exact(rng, seed, x1, y1, iz, it, dx - 1.0, dy - 1.0, oz, ot, ex, ey, ez, et, h, px - 1.0, py - 1.0, pz, pt);
  }

  function CubeJets4(rng: Rng, seed: bv32, x0: int, x1: int, y0: int, y1: int, z0: int, z1: int, it: int,
                     dx: real, dy: real, dz: real, ot: real, ex: real, ey: real, ez: real, et: real): (c: Cube<Jet>)
    ensures ValuesCube(c) == Cube4(rng, seed, x0, x1, y0, y1, z0, z1, it, dx, dy, dz, ot)
    ensures SlopesCube(c) == CubePartials4(rng, seed, x0, x1, y0, y1, z0, z1, it, ex, ey, ez, et)
  {
    Cube(FaceJets4(rng, seed, x0, x1, y0, y1, z0, it, dx, dy, dz, ot, ex, ey, ez, et),
         FaceJets4(rng, seed, x0, x1, y0, y1, z1, it, dx, dy, dz - 1.0, ot, ex, ey, ez, et))
  }

  lemma CubeJets4Exact(rng: Rng, seed: bv32, x0: int, x1: int, y0: int, y1: int, z0: int, z1: int, it: int,
                       dx: real, dy: real, dz: real, ot: real, ex: real, ey: real, ez: real, et: real,
                       h: real, px: real, py: real, pz: real, pt: real)
    requires px == dx + h * ex && py == dy + h * ey && pz == dz + h * ez && pt == ot + h * et
    ensures EvalCube(CubeJets4(rng, seed, x0, x1, y0, y1, z0, z1, it, dx, dy, dz, ot, ex, ey, ez, et), h)
         == Cube4(rng, seed, x0, x1, y0, y1, z0, z1, it, px, py, pz, pt)
  {
    FaceJets4Exact(rng, seed, x0, x1, y0, y1, z0, it, dx, dy, dz, ot, ex, ey, ez, et, h, px, py, pz, pt);
    FaceJets4Exact(rng, seed, x0, x1, y0, y1, z1, it, dx, dy, dz - 1.0, ot, ex, ey, ez, et, h, px, py, pz - 1.0, pt);
  }

  function CornerJets4(rng: Rng, seed: bv32, x0: int, y0: int, z0: int, t0: int, x1: int, y1: int, z1: int, t1: int, dx: real, dy: real, dz: real, dt: real, ex: real, ey: real, ez: real, et: real): (q: Tesseract<Jet>)
    ensures ValuesTesseract(q) == Corners4(rng, seed, x0, y0, z0, t0, x1, y1, z1, t1, dx, dy, dz, dt)
    ensures SlopesTesseract(q) == Partials4(rng, seed, x0, y0, z0, t0, x1, y1, z1, t1, ex, ey, ez, et)
  {
    Tesseract(CubeJets4(rng, seed, x0, x1, y0, y1, z0, z1, t0, dx, dy, dz, dt, ex, ey, ez, et),
              CubeJets4(rng, seed, x0, x1, y0, y1, z0, z1, t1, dx, dy, dz, dt - 1.0, ex, ey, ez, et))
  }

  lemma CornerJets4Exact(rng: Rng, seed: bv32, x0: int, y0: int, z0: int, t0: int, x1: int, y1: int, z1: int, t1: int, dx: real, dy: real, dz: real, dt: real, ex: real, ey: real, ez: real, et: real,
                         h: real, px: real, py: real, pz: real, pt: real)
    requires px == dx + h * ex && py == dy + h * ey && pz == dz + h * ez && pt == dt + h * et
    ensures EvalTesseract(CornerJets4(rng, seed, x0, y0, z0, t0, x1, y1, z1, t1, dx, dy, dz, dt, ex, ey, ez, et), h) == Corners4(rng, seed, x0, y0, z0, t0, x1, y1, z1, t1, px, py, pz, pt)
  {
    CubeJets4Exact(rng, seed, x0, x1, y0, y1, z0, z1, t0, dx, dy, dz, dt, ex, ey, ez, et, h, px, py, pz, pt);
    CubeJets4Exact(rng, seed, x0, x1, y0, y1, z0, z1, t1, dx, dy, dz, dt - 1.0, ex, ey, ez, et, h, px, py, pz, pt - 1.0);
  }

  /** noise_4d carried along the direction (ex, ey, ez, et). */
  function Noise4dJet(rng: Rng, seed: bv32, x0: int, y0: int, z0: int, t0: int, x1: int, y1: int, z1: int, t1: int, dx: real, dy: real, dz: real, dt: real, ex: real, ey: real, ez: real, et: real, h: real): Jet
  {
    QuadlerpJet(CornerJets4(rng, seed, x0, y0, z0, t0, x1, y1, z1, t1, dx, dy, dz, dt, ex, ey, ez, et), dx, ex, dy, ey, dz, ez, dt, et, h)
  }

  lemma Noise4dJetExact(rng: Rng, seed: bv32, x0: int, y0: int, z0: int, t0: int, x1: int, y1: int, z1: int, t1: int, dx: real, dy: real, dz: real, dt: real, ex: real, ey: real, ez: real, et: real,
                        h: real, px: real, py: real, pz: real, pt: real)
    requires px == dx + h * ex && py == dy + h * ey && pz == dz + h * ez && pt == dt + h * et
    ensures Noise4d(rng, seed, x0, y0, z0, t0, x1, y1, z1, t1, px, py, pz, pt) == Eval(Noise4dJet(rng, seed, x0, y0, z0, t0, x1, y1, z1, t1, dx, dy, dz, dt, ex, ey, ez, et, h), h)
  {
    CornerJets4Exact(rng, seed, x0, y0, z0, t0, x1, y1, z1, t1, dx, dy, dz, dt, ex, ey, ez, et, h, px, py, pz, pt);
    QuadlerpJetExact(CornerJets4(rng, seed, x0, y0, z0, t0, x1, y1, z1, t1, dx, dy, dz, dt, ex, ey, ez, et), dx, ex, dy, ey, dz, ez, dt, et, h, px, py, pz, pt);
  }

  function Noise4dRemainder(rng: Rng, seed: bv32, x0: int, y0: int, z0: int, t0: int, x1: int, y1: int, z1: int, t1: int, dx: real, dy: real, dz: real, dt: real, ex: real, ey: real, ez: real, et: real, h: real): real
  {
    Noise4dJet(rng, seed, x0, y0, z0, t0, x1, y1, z1, t1, dx, dy, dz, dt, ex, ey, ez, et, h).r
  }

  /** The jet is noise_4d, the chain with the same direction and the remainder. */
  lemma Noise4dJetParts(rng: Rng, seed: bv32, x0: int, y0: int, z0: int, t0: int, x1: int, y1: int, z1: int, t1: int, dx: real, dy: real, dz: real, dt: real, ex: real, ey: real, ez: real, et: real, h: real)
    ensures Noise4dJet(rng, seed, x0, y0, z0, t0, x1, y1, z1, t1, dx, dy, dz, dt, ex, ey, ez, et, h)
         == Jet(Noise4d(rng, seed, x0, y0, z0, t0, x1, y1, z1, t1, dx, dy, dz, dt), Noise4dChain(rng, seed, x0, y0, z0, t0, x1, y1, z1, t1, dx, dy, dz, dt, ex, ey, ez, et), Noise4dRemainder(rng, seed, x0, y0, z0, t0, x1, y1, z1, t1, dx, dy, dz, dt, ex, ey, ez, et, h))
  {
  }

  /** noise_4d moved along any direction (ex, ey, ez, et): its first-order term is
      the chain with that tangent and those selectors. */
  lemma Noise4dMoved(rng: Rng, seed: bv32, x0: int, y0: int, z0: int, t0: int, x1: int, y1: int, z1: int, t1: int, dx: real, dy: real, dz: real, dt: real, ex: real, ey: real, ez: real, et: real,
                     h: real, px: real, py: real, pz: real, pt: real)
    requires px == dx + h * ex && py == dy + h * ey && pz == dz + h * ez && pt == dt + h * et
    ensures Noise4d(rng, seed, x0, y0, z0, t0, x1, y1, z1, t1, px, py, pz, pt)
         == Eval(Jet(Noise4d(rng, seed, x0, y0, z0, t0, x1, y1, z1, t1, dx, dy, dz, dt), Noise4dChain(rng, seed, x0, y0, z0, t0, x1, y1, z1, t1, dx, dy, dz, dt, ex, ey, ez, et), Noise4dRemainder(rng, seed, x0, y0, z0, t0, x1, y1, z1, t1, dx, dy, dz, dt, ex, ey, ez, et, h)), h)
  {
    Noise4dJetParts(rng, seed, x0, y0, z0, t0, x1, y1, z1, t1, dx, dy, dz, dt, ex, ey, ez, et, h);
    Noise4dJetExact(rng, seed, x0, y0, z0, t0, x1, y1, z1, t1, dx, dy, dz, dt, ex, ey, ez, et, h, px, py, pz, pt);
  }

  /** Each component of noise_4d_gradient is the slope of noise_4d along its own
      axis: moving the offset along x by h times the x selector changes noise_4d by
      h times the result's x component (noise.h:542-546). */
  lemma Noise4dSlopeAlongX(rng: Rng, seed: bv32, x0: int, y0: int, z0: int, t0: int, x1: int, y1: int, z1: int, t1: int, dx: real, dy: real, dz: real, dt: real, hx: real, hy: real, hz: real, ht: real, h: real, px: real)
    requires px == dx + h * hx
    ensures Noise4d(rng, seed, x0, y0, z0, t0, x1, y1, z1, t1, px, dy, dz, dt)
         == Eval(Jet(Noise4d(rng, seed, x0, y0, z0, t0, x1, y1, z1, t1, dx, dy, dz, dt), Noise4dGradient(rng, seed, x0, y0, z0, t0, x1, y1, z1, t1, dx, dy, dz, dt, hx, hy, hz, ht).x,
                     Noise4dRemainder(rng, seed, x0, y0, z0, t0, x1, y1, z1, t1, dx, dy, dz, dt, hx, 0.0, 0.0, 0.0, h)), h)
  {
    Noise4dMoved(rng, seed, x0, y0, z0, t0, x1, y1, z1, t1, dx, dy, dz, dt, hx, 0.0, 0.0, 0.0, h, px, dy, dz, dt);
  }

  /** Moving the offset along y by h times the y selector changes noise_4d by h
      times the result's y component (noise.h:542-546). */
  lemma Noise4dSlopeAlongY(rng: Rng, seed: bv32, x0: int, y0: int, z0: int, t0: int, x1: int, y1: int, z1: int, t1: int, dx: real, dy: real, dz: real, dt: real, hx: real, hy: real, hz: real, ht: real, h: real, py: real)
    requires py == dy + h * hy
    ensures Noise4d(rng, seed, x0, y0, z0, t0, x1, y1, z1, t1, dx, py, dz, dt)
         == Eval(Jet(Noise4d(rng, seed, x0, y0, z0, t0, x1, y1, z1, t1, dx, dy, dz, dt), Noise4dGradient(rng, seed, x0, y0, z0, t0, x1, y1, z1, t1, dx, dy, dz, dt, hx, hy, hz, ht).y,
                     Noise4dRemainder(rng, seed, x0, y0, z0, t0, x1, y1, z1, t1, dx, dy, dz, dt, 0.0, hy, 0.0, 0.0, h)), h)
  {
    Noise4dMoved(rng, seed, x0, y0, z0, t0, x1, y1, z1, t1, dx, dy, dz, dt, 0.0, hy, 0.0, 0.0, h, dx, py, dz, dt);
  }

  /** Moving the offset along z by h times the z selector changes noise_4d by h
      times the result's z component (noise.h:542-546). */
  lemma Noise4dSlopeAlongZ(rng: Rng, seed: bv32, x0: int, y0: int, z0: int, t0: int, x1: int, y1: int, z1: int, t1: int, dx: real, dy: real, dz: real, dt: real, hx: real, hy: real, hz: real, ht: real, h: real, pz: real)
    requires pz == dz + h * hz
    ensures Noise4d(rng, seed, x0, y0, z0, t0, x1, y1, z1, t1, dx, dy, pz, dt)
         == Eval(Jet(Noise4d(rng, seed, x0, y0, z0, t0, x1, y1, z1, t1, dx, dy, dz, dt), Noise4dGradient(rng, seed, x0, y0, z0, t0, x1, y1, z1, t1, dx, dy, dz, dt, hx, hy, hz, ht).z,
                     Noise4dRemainder(rng, seed, x0, y0, z0, t0, x1, y1, z1, t1, dx, dy, dz, dt, 0.0, 0.0, hz, 0.0, h)), h)
  {
    Noise4dMoved(rng, seed, x0, y0, z0, t0, x1, y1, z1, t1, dx, dy, dz, dt, 0.0, 0.0, hz, 0.0, h, dx, dy, pz, dt);
  }

  /** Moving the offset along t by h times the t selector changes noise_4d by h
      times the result's w component (noise.h:542-546). */
  lemma Noise4dSlopeAlongT(rng: Rng, seed: bv32, x0: int, y0: int, z0: int, t0: int, x1: int, y1: int, z1: int, t1: int, dx: real, dy: real, dz: real, dt: real, hx: real, hy: real, hz: real, ht: real, h: real, pt: real)
    requires pt == dt + h * ht
    ensures Noise4d(rng, seed, x0, y0, z0, t0, x1, y1, z1, t1, dx, dy, dz, pt)
         == Eval(Jet(Noise4d(rng, seed, x0, y0, z0, t0, x1, y1, z1, t1, dx, dy, dz, dt), Noise4dGradient(rng, seed, x0, y0, z0, t0, x1, y1, z1, t1, dx, dy, dz, dt, hx, hy, hz, ht).w,
                     Noise4dRemainder(rng, seed, x0, y0, z0, t0, x1, y1, z1, t1, dx, dy, dz, dt, 0.0, 0.0, 0.0, ht, h)), h)
  {
    Noise4dMoved(rng, seed, x0, y0, z0, t0, x1, y1, z1, t1, dx, dy, dz, dt, 0.0, 0.0, 0.0, ht, h, dx, dy, dz, pt);
  }

  /** With a zero selector the partial along that axis is 0. */
  lemma Noise4dGradientOff(rng: Rng, seed: bv32, x0: int, y0: int, z0: int, t0: int, x1: int, y1: int, z1: int, t1: int, dx: real, dy: real, dz: real, dt: real, hx: real, hy: real, hz: real, ht: real)
    ensures Noise4dGradient(rng, seed, x0, y0, z0, t0, x1, y1, z1, t1, dx, dy, dz, dt, 0.0, hy, hz, ht).x == 0.0
    ensures Noise4dGradient(rng, seed, x0, y0, z0, t0, x1, y1, z1, t1, dx, dy, dz, dt, hx, 0.0, hz, ht).y == 0.0
    ensures Noise4dGradient(rng, seed, x0, y0, z0, t0, x1, y1, z1, t1, dx, dy, dz, dt, hx, hy, 0.0, ht).z == 0.0
    ensures Noise4dGradient(rng, seed, x0, y0, z0, t0, x1, y1, z1, t1, dx, dy, dz, dt, hx, hy, hz, 0.0).w == 0.0
  {
    var v := Corners4(rng, seed, x0, y0, z0, t0, x1, y1, z1, t1, dx, dy, dz, dt);
    Partials4Zero(rng, seed, x0, y0, z0, t0, x1, y1, z1, t1);
    LerpGradientZero(v.t0.z0, v.t0, v, dx, dy, dz, dt);
  }

  lemma Partials4Zero(rng: Rng, seed: bv32, x0: int, y0: int, z0: int, t0: int, x1: int, y1: int, z1: int, t1: int)
    ensures Partials4(rng, seed, x0, y0, z0, t0, x1, y1, z1, t1, 0.0, 0.0, 0.0, 0.0) == Tesseract(ZeroCube(), ZeroCube())
  {
    DotGridGradientZero(rng, seed, x0, y0, z0, t0);
    DotGridGradientZero(rng, seed, x1, y0, z0, t0);
    DotGridGradientZero(rng, seed, x0, y1, z0, t0);
    DotGridGradientZero(rng, seed, x1, y1, z0, t0);
    DotGridGradientZero(rng, seed, x0, y0, z1, t0);
    DotGridGradientZero(rng, seed, x1, y0, z1, t0);
    DotGridGradientZero(rng, seed, x0, y1, z1, t0);
    DotGridGradientZero(rng, seed, x1, y1, z1, t0);
    DotGridGradientZero(rng, seed, x0, y0, z0, t1);
    DotGridGradientZero(rng, seed, x1, y0, z0, t1);
    DotGridGradientZero(rng, seed, x0, y1, z0, t1);
    DotGridGradientZero(rng, seed, x1, y1, z0, t1);
    DotGridGradientZero(rng, seed, x0, y0, z1, t1);
    DotGridGradientZero(rng, seed, x1, y0, z1, t1);
    DotGridGradientZero(rng, seed, x0, y1, z1, t1);
    DotGridGradientZero(rng, seed, x1, y1, z1, t1);
  }

  // ---------------------------------------------------------------------------
  // Lattice points

  /** At the low corner of its cell (all offsets 0) noise is 0 in every dimension:
      the blend returns the low corner's dot product, taken with a zero offset. */
  lemma Noise1dZeroAtLowCorner(rng: Rng, seed: bv32, x0: int, x1: int)
    ensures Noise1d(rng, seed, x0, x1, 0.0) == 0.0
  {
    InterpolateEndpoints(DotGridGradient1d(rng, seed, x0, 0.0), DotGridGradient1d(rng, seed, x1, -1.0));
  }

  lemma Noise2dZeroAtLowCorner(rng: Rng, seed: bv32, x0: int, y0: int, x1: int, y1: int)
    ensures Noise2d(rng, seed, x0, y0, x1, y1, 0.0, 0.0) == 0.0
  {
    BilerpAtLowCorner(Corners2(rng, seed, x0, y0, x1, y1, 0.0, 0.0));
  }

  lemma Noise3dZeroAtLowCorner(rng: Rng, seed: bv32, x0: int, y0: int, z0: int, x1: int, y1: int, z1: int)
    ensures Noise3d(rng, seed, x0, y0, z0, x1, y1, z1, 0.0, 0.0, 0.0) == 0.0
  {
    TrilerpAtLowCorner(Corners3(rng, seed, x0, y0, z0, x1, y1, z1, 0.0, 0.0, 0.0));
  }

  lemma Noise4dZeroAtLowCorner(rng: Rng, seed: bv32, x0: int, y0: int, z0: int, t0: int,
                               x1: int, y1: int, z1: int, t1: int)
    ensures Noise4d(rng, seed, x0, y0, z0, t0, x1, y1, z1, t1, 0.0, 0.0, 0.0, 0.0) == 0.0
  {
    var v := Corners4(rng, seed, x0, y0, z0, t0, x1, y1, z1, t1, 0.0, 0.0, 0.0, 0.0);
    LerpAtLowCorner(v.t0.z0, v.t0, v);
  }
}
