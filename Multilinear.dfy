/** The interpolation trees of noise_2d .. noise_4d (warp/native/noise.h:158-547).

    Every evaluator blends its corner values first along x, then along y, then z,
    then t, always with `interpolate`; every gradient evaluator runs the same tree
    once per axis, blending partials with `interpolate_gradient` and passing the
    axis' selector to the stage that blends along that axis and 0 to the others.
    This module states those trees once, over corner squares, cubes and
    tesseracts, and proves that the partial tree is the first-order coefficient of
    the value tree: the jet versions below carry a value, a first-order coefficient
    and an explicit remainder through the same tree. */
module Multilinear {
  import opened Fade

  /** The corner values of a cell face in the order noise.h names them:
      c<x><y> is the corner at the low (0) or high (1) index on each axis. */
  datatype Square<T> = Square(c00: T, c10: T, c01: T, c11: T)

  /** A cell of the 3D lattice: the face at the low z index, then the high one. */
  datatype Cube<T> = Cube(z0: Square<T>, z1: Square<T>)

  /** A cell of the 4D lattice: the cube at the low t index, then the high one. */
  datatype Tesseract<T> = Tesseract(t0: Cube<T>, t1: Cube<T>)

  // ---------------------------------------------------------------------------
  // Value trees

  /** xi0 = interpolate(v00, v10, dx), xi1 = interpolate(v01, v11, dx), then
      interpolate(xi0, xi1, dy) (noise.h:161-169). */
  function Bilerp(s: Square<real>, tx: real, ty: real): real
  {
    Interpolate(Interpolate(s.c00, s.c10, tx), Interpolate(s.c01, s.c11, tx), ty)
  }

  /** The two faces blended along x and y, then along z (noise.h:207-227). */
  function Trilerp(c: Cube<real>, tx: real, ty: real, tz: real): real
  {
    Interpolate(Bilerp(c.z0, tx, ty), Bilerp(c.z1, tx, ty), tz)
  }

  /** The two cubes blended along x, y and z, then along t (noise.h:312-356). */
  function Quadlerp(q: Tesseract<real>, tx: real, ty: real, tz: real, tt: real): real
  {
    Interpolate(Trilerp(q.t0, tx, ty, tz), Trilerp(q.t1, tx, ty, tz), tt)
  }

  // ---------------------------------------------------------------------------
  // Partial trees: one axis' chain of interpolate_gradient calls

  /** The chain d_xi0, d_xi1, then the outer interpolate_gradient (noise.h:190-199):
      `d` holds the corner partials, `sx` and `sy` the selectors passed to the x
      and y stages. */
  function BilerpGradient(s: Square<real>, d: Square<real>, tx: real, sx: real, ty: real, sy: real): real
  {
    InterpolateGradient(Interpolate(s.c00, s.c10, tx), Interpolate(s.c01, s.c11, tx), ty,
                        InterpolateGradient(s.c00, s.c10, tx, d.c00, d.c10, sx),
                        InterpolateGradient(s.c01, s.c11, tx, d.c01, d.c11, sx), sy)
  }

  /** The chain through d_xi.., d_yi.. and the outer stage (noise.h:275-305). */
  function TrilerpGradient(c: Cube<real>, d: Cube<real>, tx: real, sx: real, ty: real, sy: real,
                           tz: real, sz: real): real
  {
    InterpolateGradient(Bilerp(c.z0, tx, ty), Bilerp(c.z1, tx, ty), tz,
                        BilerpGradient(c.z0, d.z0, tx, sx, ty, sy),
                        BilerpGradient(c.z1, d.z1, tx, sx, ty, sy), sz)
  }

  /** The chain through d_xi..., d_yi.., d_zi. and the outer stage (noise.h:444-544). */
  function QuadlerpGradient(q: Tesseract<real>, d: Tesseract<real>, tx: real, sx: real, ty: real, sy: real,
                            tz: real, sz: real, tt: real, st: real): real
  {
    InterpolateGradient(Trilerp(q.t0, tx, ty, tz), Trilerp(q.t1, tx, ty, tz), tt,
                        TrilerpGradient(q.t0, d.t0, tx, sx, ty, sy, tz, sz),
                        TrilerpGradient(q.t1, d.t1, tx, sx, ty, sy, tz, sz), st)
  }

  // ---------------------------------------------------------------------------
  // Jet trees

  function ValuesSquare(s: Square<Jet>): Square<real>
  {
    Square(s.c00.v, s.c10.v, s.c01.v, s.c11.v)
  }

  function SlopesSquare(s: Square<Jet>): Square<real>
  {
    Square(s.c00.d, s.c10.d, s.c01.d, s.c11.d)
  }

  function EvalSquare(s: Square<Jet>, h: real): Square<real>
  {
    Square(Eval(s.c00, h), Eval(s.c10, h), Eval(s.c01, h), Eval(s.c11, h))
  }

  function ValuesCube(c: Cube<Jet>): Cube<real>
  {
    Cube(ValuesSquare(c.z0), ValuesSquare(c.z1))
  }

  function SlopesCube(c: Cube<Jet>): Cube<real>
  {
    Cube(SlopesSquare(c.z0), SlopesSquare(c.z1))
  }

  function EvalCube(c: Cube<Jet>, h: real): Cube<real>
  {
    Cube(EvalSquare(c.z0, h), EvalSquare(c.z1, h))
  }

  function ValuesTesseract(q: Tesseract<Jet>): Tesseract<real>
  {
    Tesseract(ValuesCube(q.t0), ValuesCube(q.t1))
  }

  function SlopesTesseract(q: Tesseract<Jet>): Tesseract<real>
  {
    Tesseract(SlopesCube(q.t0), SlopesCube(q.t1))
  }

  function EvalTesseract(q: Tesseract<Jet>, h: real): Tesseract<real>
  {
    Tesseract(EvalCube(q.t0, h), EvalCube(q.t1, h))
  }

  /** The value tree over jets, moving the blend parameters along (ex, ey).  Its
      value is the value tree of the corner values and its first-order
      coefficient is the partial tree of the corner coefficients. */
  function BilerpJet(s: Square<Jet>, tx: real, ex: real, ty: real, ey: real, h: real): (j: Jet)
    ensures j.v == Bilerp(ValuesSquare(s), tx, ty)
    ensures j.d == BilerpGradient(ValuesSquare(s), SlopesSquare(s), tx, ex, ty, ey)
  {
    BlendJet(BlendJet(s.c00, s.c10, tx, ex, h), BlendJet(s.c01, s.c11, tx, ex, h), ty, ey, h)
  }

  function TrilerpJet(c: Cube<Jet>, tx: real, ex: real, ty: real, ey: real, tz: real, ez: real,
                      h: real): (j: Jet)
    ensures j.v == Trilerp(ValuesCube(c), tx, ty, tz)
    ensures j.d == TrilerpGradient(ValuesCube(c), SlopesCube(c), tx, ex, ty, ey, tz, ez)
  {
    BlendJet(BilerpJet(c.z0, tx, ex, ty, ey, h), BilerpJet(c.z1, tx, ex, ty, ey, h), tz, ez, h)
  }

  function QuadlerpJet(q: Tesseract<Jet>, tx: real, ex: real, ty: real, ey: real, tz: real, ez: real,
                       tt: real, et: real, h: real): (j: Jet)
    ensures j.v == Quadlerp(ValuesTesseract(q), tx, ty, tz, tt)
    ensures j.d == QuadlerpGradient(ValuesTesseract(q), SlopesTesseract(q), tx, ex, ty, ey, tz, ez, tt, et)
  {
    BlendJet(TrilerpJet(q.t0, tx, ex, ty, ey, tz, ez, h), TrilerpJet(q.t1, tx, ex, ty, ey, tz, ez, h),
             tt, et, h)
  }

  /** `BlendJetExact` with the moved blend parameter given by name. */
  lemma BlendJetAt(a: Jet, b: Jet, t: real, dt: real, h: real, pt: real)
    requires pt == t + h * dt
    ensures Interpolate(Eval(a, h), Eval(b, h), pt) == Eval(BlendJet(a, b, t, dt, h), h)
  {
    BlendJetExact(a, b, t, dt, h);
  }

  /** Blending the moved corner values at the moved parameters gives the jet tree
      evaluated at h, exactly. */
  lemma BilerpJetExact(s: Square<Jet>, tx: real, ex: real, ty: real, ey: real, h: real,
                       px: real, py: real)
    requires px == tx + h * ex && py == ty + h * ey
    ensures Bilerp(EvalSquare(s, h), px, py) == Eval(BilerpJet(s, tx, ex, ty, ey, h), h)
  {
    var a := BlendJet(s.c00, s.c10, tx, ex, h);
    var b := BlendJet(s.c01, s.c11, tx, ex, h);
    BlendJetAt(s.c00, s.c10, tx, ex, h, px);
    BlendJetAt(s.c01, s.c11, tx, ex, h, px);
    BlendJetAt(a, b, ty, ey, h, py);
  }

  lemma TrilerpJetExact(c: Cube<Jet>, tx: real, ex: real, ty: real, ey: real, tz: real, ez: real,
                        h: real, px: real, py: real, pz: real)
    requires px == tx + h * ex && py == ty + h * ey && pz == tz + h * ez
    ensures Trilerp(EvalCube(c, h), px, py, pz) == Eval(TrilerpJet(c, tx, ex, ty, ey, tz, ez, h), h)
  {
    BilerpJetExact(c.z0, tx, ex, ty, ey, h, px, py);
    BilerpJetExact(c.z1, tx, ex, ty, ey, h, px, py);
    BlendJetAt(BilerpJet(c.z0, tx, ex, ty, ey, h), BilerpJet(c.z1, tx, ex, ty, ey, h), tz, ez, h, pz);
  }

  lemma QuadlerpJetExact(q: Tesseract<Jet>, tx: real, ex: real, ty: real, ey: real, tz: real, ez: real,
                         tt: real, et: real, h: real, px: real, py: real, pz: real, pt: real)
    requires px == tx + h * ex && py == ty + h * ey && pz == tz + h * ez && pt == tt + h * et
    ensures Quadlerp(EvalTesseract(q, h), px, py, pz, pt)
         == Eval(QuadlerpJet(q, tx, ex, ty, ey, tz, ez, tt, et, h), h)
  {
    TrilerpJetExact(q.t0, tx, ex, ty, ey, tz, ez, h, px, py, pz);
    TrilerpJetExact(q.t1, tx, ex, ty, ey, tz, ez, h, px, py, pz);
    BlendJetAt(TrilerpJet(q.t0, tx, ex, ty, ey, tz, ez, h), TrilerpJet(q.t1, tx, ex, ty, ey, tz, ez, h),
               tt, et, h, pt);
  }

  // ---------------------------------------------------------------------------
  // Properties of the trees

  /** At the low corner of every axis the value tree returns the low corner value. */
  lemma LerpAtLowCorner(s: Square<real>, c: Cube<real>, q: Tesseract<real>)
    ensures Bilerp(s, 0.0, 0.0) == s.c00
    ensures Trilerp(c, 0.0, 0.0, 0.0) == c.z0.c00
    ensures Quadlerp(q, 0.0, 0.0, 0.0, 0.0) == q.t0.z0.c00
  {
    BilerpAtLowCorner(s);
    TrilerpAtLowCorner(c);
    TrilerpAtLowCorner(q.t0);
    InterpolateEndpoints(Trilerp(q.t0, 0.0, 0.0, 0.0), Trilerp(q.t1, 0.0, 0.0, 0.0));
  }

  lemma BilerpAtLowCorner(s: Square<real>)
    ensures Bilerp(s, 0.0, 0.0) == s.c00
  {
    InterpolateEndpoints(s.c00, s.c10);
    InterpolateEndpoints(s.c01, s.c11);
    InterpolateEndpoints(Interpolate(s.c00, s.c10, 0.0), Interpolate(s.c01, s.c11, 0.0));
  }

  lemma TrilerpAtLowCorner(c: Cube<real>)
    ensures Trilerp(c, 0.0, 0.0, 0.0) == c.z0.c00
  {
    BilerpAtLowCorner(c.z0);
    InterpolateEndpoints(Bilerp(c.z0, 0.0, 0.0), Bilerp(c.z1, 0.0, 0.0));
  }

  /** With every corner partial and every selector zero, each partial tree is 0. */
  lemma LerpGradientZero(s: Square<real>, c: Cube<real>, q: Tesseract<real>,
                         tx: real, ty: real, tz: real, tt: real)
    ensures BilerpGradient(s, Square(0.0, 0.0, 0.0, 0.0), tx, 0.0, ty, 0.0) == 0.0
    ensures TrilerpGradient(c, ZeroCube(), tx, 0.0, ty, 0.0, tz, 0.0) == 0.0
    ensures QuadlerpGradient(q, Tesseract(ZeroCube(), ZeroCube()), tx, 0.0, ty, 0.0, tz, 0.0, tt, 0.0) == 0.0
  {
    BilerpGradientZero(s, tx, ty);
    BilerpGradientZero(c.z0, tx, ty);
    BilerpGradientZero(c.z1, tx, ty);
    InterpolateGradientCases(Bilerp(c.z0, tx, ty), Bilerp(c.z1, tx, ty), tz, 0.0, 0.0, 0.0);
    TrilerpGradientZero(q.t0, tx, ty, tz);
    TrilerpGradientZero(q.t1, tx, ty, tz);
    InterpolateGradientCases(Trilerp(q.t0, tx, ty, tz), Trilerp(q.t1, tx, ty, tz), tt, 0.0, 0.0, 0.0);
  }

  function ZeroCube(): Cube<real>
  {
    Cube(Square(0.0, 0.0, 0.0, 0.0), Square(0.0, 0.0, 0.0, 0.0))
  }

  lemma BilerpGradientZero(s: Square<real>, tx: real, ty: real)
    ensures BilerpGradient(s, Square(0.0, 0.0, 0.0, 0.0), tx, 0.0, ty, 0.0) == 0.0
  {
    InterpolateGradientCases(s.c00, s.c10, tx, 0.0, 0.0, 0.0);
    InterpolateGradientCases(s.c01, s.c11, tx, 0.0, 0.0, 0.0);
    InterpolateGradientCases(Interpolate(s.c00, s.c10, tx), Interpolate(s.c01, s.c11, tx), ty, 0.0, 0.0, 0.0);
  }

  lemma TrilerpGradientZero(c: Cube<real>, tx: real, ty: real, tz: real)
    ensures TrilerpGradient(c, ZeroCube(), tx, 0.0, ty, 0.0, tz, 0.0) == 0.0
  {
    BilerpGradientZero(c.z0, tx, ty);
    BilerpGradientZero(c.z1, tx, ty);
    InterpolateGradientCases(Bilerp(c.z0, tx, ty), Bilerp(c.z1, tx, ty), tz, 0.0, 0.0, 0.0);
  }

  /** The partial tree is linear in the corner partials and the selectors together:
      the tree of a*p + b*q with selectors a*(px, py) + b*(qx, qy) is the same
      combination of the two trees. */
  lemma BilerpGradientCombination(s: Square<real>, d: Square<real>, p: Square<real>, q: Square<real>,
                                  tx: real, ty: real, sx: real, sy: real,
                                  px: real, py: real, qx: real, qy: real, a: real, b: real)
    requires d == Square(a * p.c00 + b * q.c00, a * p.c10 + b * q.c10, a * p.c01 + b * q.c01, a * p.c11 + b * q.c11)
    requires sx == a * px + b * qx && sy == a * py + b * qy
    ensures BilerpGradient(s, d, tx, sx, ty, sy)
         == a * BilerpGradient(s, p, tx, px, ty, py) + b * BilerpGradient(s, q, tx, qx, ty, qy)
  {
    var i0 := Interpolate(s.c00, s.c10, tx);
    var i1 := Interpolate(s.c01, s.c11, tx);
    var p0 := InterpolateGradient(s.c00, s.c10, tx, p.c00, p.c10, px);
    var p1 := InterpolateGradient(s.c01, s.c11, tx, p.c01, p.c11, px);
    var q0 := InterpolateGradient(s.c00, s.c10, tx, q.c00, q.c10, qx);
    var q1 := InterpolateGradient(s.c01, s.c11, tx, q.c01, q.c11, qx);
    var r0 := InterpolateGradient(s.c00, s.c10, tx, d.c00, d.c10, sx);
    var r1 := InterpolateGradient(s.c01, s.c11, tx, d.c01, d.c11, sx);
    InterpolateGradientCombination(s.c00, s.c10, tx, p.c00, p.c10, px, q.c00, q.c10, qx, a, b, d.c00, d.c10, sx);
    InterpolateGradientCombination(s.c01, s.c11, tx, p.c01, p.c11, px, q.c01, q.c11, qx, a, b, d.c01, d.c11, sx);
    InterpolateGradientCombination(i0, i1, ty, p0, p1, py, q0, q1, qy, a, b, r0, r1, sy);
    assert BilerpGradient(s, d, tx, sx, ty, sy) == InterpolateGradient(i0, i1, ty, r0, r1, sy);
    assert BilerpGradient(s, p, tx, px, ty, py) == InterpolateGradient(i0, i1, ty, p0, p1, py);
    assert BilerpGradient(s, q, tx, qx, ty, qy) == InterpolateGradient(i0, i1, ty, q0, q1, qy);
  }
}
