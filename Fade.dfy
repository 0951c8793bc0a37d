/** The fade curve and the blend built on it (warp/native/noise.h:18-36).

    Floats are modelled as `real`.  Besides the four kernels of the source this
    module defines `Jet`, an exact first-order expansion `v + h*d + h*h*r` of a
    quantity along a perturbation of size `h`.  `BlendJet` carries jets through
    `Interpolate` and proves that `InterpolateGradient` is the coefficient of `h`:
    since the remainder `r` is a polynomial in `h`, that coefficient is exactly the
    derivative at `h = 0`. */
module Fade {

  /** smootherstep: 6t^5 - 15t^4 + 10t^3, in the source's Horner form. */
  function Smootherstep(t: real): real
  {
    t * t * t * (t * (t * 6.0 - 15.0) + 10.0)
  }

  /** smootherstep_gradient: 30t^2(t^2 - 2t + 1), never negative. */
  function SmootherstepGradient(t: real): real
  {
    30.0 * t * t * (t * (t - 2.0) + 1.0)
  }

  /** interpolate: blends a0 and a1 with the fade weight of t. */
  function Interpolate(a0: real, a1: real, t: real): real
  {
    (a1 - a0) * Smootherstep(t) + a0
  }

  /** interpolate_gradient: the derivative of `Interpolate` when a0, a1 and t move
      with speeds d_a0, d_a1 and d_t. */
  function InterpolateGradient(a0: real, a1: real, t: real, d_a0: real, d_a1: real, d_t: real): real
  {
    (d_a1 - d_a0) * Smootherstep(t) + (a1 - a0) * SmootherstepGradient(t) * d_t + d_a0
  }

  // ---------------------------------------------------------------------------
  // Properties of the fade curve

  /** smootherstep_gradient(t) = 30 (t (t - 1))^2, so it is never negative. */
  lemma SmootherstepGradientNonNegative(t: real)
    ensures SmootherstepGradient(t) == 30.0 * ((t * (t - 1.0)) * (t * (t - 1.0)))
    ensures SmootherstepGradient(t) >= 0.0
  {
    SquareNonNegative(t * (t - 1.0));
  }

  lemma SmootherstepEndpoints()
    ensures Smootherstep(0.0) == 0.0 && Smootherstep(1.0) == 1.0
    ensures SmootherstepGradient(0.0) == 0.0 && SmootherstepGradient(1.0) == 0.0
  {
  }

  /** The curve is point-symmetric about (1/2, 1/2). */
  lemma SmootherstepSymmetric(t: real)
    ensures Smootherstep(t) + Smootherstep(1.0 - t) == 1.0
  {
    var u := 1.0 - t;
    assert u * u * u == 1.0 - 3.0 * t + 3.0 * t * t - t * t * t;
    assert u * u * u * u == 1.0 - 4.0 * t + 6.0 * t * t - 4.0 * t * t * t + t * t * t * t;
  }

  /** The fade weight of a parameter in [0, 1] lies in [0, 1]. */
  lemma SmootherstepRange(t: real)
    requires 0.0 <= t <= 1.0
    ensures 0.0 <= Smootherstep(t) <= 1.0
  {
    SmootherstepNonNegative(t);
    SmootherstepNonNegative(1.0 - t);
    SmootherstepSymmetric(t);
  }

  /** 6t^2 - 15t + 10 = 6(t - 5/4)^2 + 5/8 is positive, so the weight has the sign of t^3. */
  lemma SmootherstepNonNegative(t: real)
    requires 0.0 <= t
    ensures 0.0 <= Smootherstep(t)
  {
    var q := t * (t * 6.0 - 15.0) + 10.0;
    assert q == 6.0 * ((t - 1.25) * (t - 1.25)) + 0.625;
    SquareNonNegative(t - 1.25);
    MulNonNegative(t * t, t);
    MulNonNegative(t * t * t, q);
  }

  lemma SquareNonNegative(x: real)
    ensures x * x >= 0.0
  {
    if x < 0.0 {
      MulNonNegative(-x, -x);
    } else {
      MulNonNegative(x, x);
    }
  }

  lemma MulNonNegative(x: real, y: real)
    requires x >= 0.0 && y >= 0.0
    ensures x * y >= 0.0
  {
  }

  /** The curve never decreases: S(b) - S(a) is (b - a) times 30 times the mean of
      (u(1 - u))^2 over u in [a, b], and that mean is a sum of squares. */
  lemma SmootherstepMonotone(a: real, b: real)
    requires a <= b
    ensures Smootherstep(a) <= Smootherstep(b)
  {
    SmootherstepDifference(a, b);
    MeanSquareNonNegative(a, b);
    MulNonNegative(b - a, 30.0 * MeanSquare(a, b));
  }

  /** The mean of (u(1 - u))^2 over u in [a, b], as a quadratic form in the
      coefficients p0 + p1*s + p2*s^2 of u(1 - u) at u = a + s(b - a). */
  function MeanSquare(a: real, b: real): real
  {
    var d := b - a;
    var p0 := a - a * a;
    var p1 := d * (1.0 - 2.0 * a);
    var p2 := -(d * d);
    var s0 := p0 + p1 / 2.0 + p2 / 3.0;
    var s1 := p1 + p2;
    s0 * s0 + s1 * s1 / 12.0 + p2 * p2 / 180.0
  }

  lemma MeanSquareNonNegative(a: real, b: real)
    ensures MeanSquare(a, b) >= 0.0
  {
    var d := b - a;
    var p2 := -(d * d);
    var s0 := (a - a * a) + d * (1.0 - 2.0 * a) / 2.0 + p2 / 3.0;
    var s1 := d * (1.0 - 2.0 * a) + p2;
    SquareNonNegative(s0);
    SquareNonNegative(s1);
    SquareNonNegative(p2);
    SumOfSquares(s0 * s0, s1 * s1, p2 * p2, MeanSquare(a, b));
  }

  lemma SumOfSquares(x: real, y: real, z: real, m: real)
    requires x >= 0.0 && y >= 0.0 && z >= 0.0
    requires m == x + y / 12.0 + z / 180.0
    ensures m >= 0.0
  {
  }

  /** The polynomial identity behind `SmootherstepMonotone`. */
  lemma SmootherstepDifference(a: real, b: real)
    ensures Smootherstep(b) - Smootherstep(a) == (b - a) * (30.0 * MeanSquare(a, b))
  {
    var q := DifferenceQuotient(a, b);
    SmootherstepFactor(a, b);
    MeanSquareQuotient(a, b);
    assert 30.0 * MeanSquare(a, b) == q;
  }

  /** (S(b) - S(a)) / (b - a) as a polynomial in a and b. */
  function DifferenceQuotient(a: real, b: real): real
  {
    6.0 * (b * b * b * b + b * b * b * a + b * b * a * a + b * a * a * a + a * a * a * a)
    - 15.0 * (b * b * b + b * b * a + b * a * a + a * a * a)
    + 10.0 * (b * b + b * a + a * a)
  }

  lemma SmootherstepFactor(a: real, b: real)
    ensures Smootherstep(b) - Smootherstep(a) == (b - a) * DifferenceQuotient(a, b)
  {
  }

  lemma MeanSquareQuotient(a: real, b: real)
    ensures 30.0 * MeanSquare(a, b) == DifferenceQuotient(a, b)
  {
  }

  /** The second-order remainder of the fade curve:
      S(t + h) = S(t) + h * S'(t) + h^2 * SmootherstepRemainder(t, h). */
  function SmootherstepRemainder(t: real, h: real): real
  {
    6.0 * (10.0 * t * t * t + 10.0 * t * t * h + 5.0 * t * h * h + h * h * h)
    - 15.0 * (6.0 * t * t + 4.0 * t * h + h * h)
    + 10.0 * (3.0 * t + h)
  }

  /** `SmootherstepGradient` is the derivative of `Smootherstep`: the error of the
      tangent line is h^2 times a polynomial. */
  lemma SmootherstepExpansion(t: real, h: real)
    ensures Smootherstep(t + h) == Smootherstep(t) + h * SmootherstepGradient(t) + h * h * SmootherstepRemainder(t, h)
  {
  }

  /** The same expansion along a direction: the step is h * dt. */
  lemma SmootherstepAlong(t: real, dt: real, h: real)
    ensures Smootherstep(t + h * dt)
         == Smootherstep(t) + (h * dt) * SmootherstepGradient(t)
            + (h * dt) * (h * dt) * SmootherstepRemainder(t, h * dt)
  {
  }

  // ---------------------------------------------------------------------------
  // Properties of the blend

  lemma InterpolateEndpoints(a0: real, a1: real)
    ensures Interpolate(a0, a1, 0.0) == a0 && Interpolate(a0, a1, 1.0) == a1
  {
  }

  /** For a parameter in [0, 1] the blend lies between its two end values. */
  lemma InterpolateBetween(a0: real, a1: real, t: real)
    requires 0.0 <= t <= 1.0
    ensures a0 <= a1 ==> a0 <= Interpolate(a0, a1, t) <= a1
    ensures a1 <= a0 ==> a1 <= Interpolate(a0, a1, t) <= a0
  {
    SmootherstepRange(t);
    BlendBetween(a0, a1, Smootherstep(t), Interpolate(a0, a1, t));
  }

  /** Blending two values of an interval stays in the interval. */
  lemma InterpolateWithin(a0: real, a1: real, t: real, lo: real, hi: real)
    requires 0.0 <= t <= 1.0
    requires lo <= a0 <= hi && lo <= a1 <= hi
    ensures lo <= Interpolate(a0, a1, t) <= hi
  {
    InterpolateBetween(a0, a1, t);
  }

  /** A weight in [0, 1] keeps the blend between its end values. */
  lemma BlendBetween(a0: real, a1: real, s: real, v: real)
    requires 0.0 <= s <= 1.0
    requires v == (a1 - a0) * s + a0
    ensures a0 <= a1 ==> a0 <= v <= a1
    ensures a1 <= a0 ==> a1 <= v <= a0
  {
    if a0 <= a1 {
      MulNonNegative(a1 - a0, s);
      MulNonNegative(a1 - a0, 1.0 - s);
    } else {
      MulNonNegative(a0 - a1, s);
      MulNonNegative(a0 - a1, 1.0 - s);
    }
  }

  /** The blend of a value with itself is that value. */
  lemma InterpolateSame(a: real, t: real)
    ensures Interpolate(a, a, t) == a
  {
  }

  /** interpolate_gradient of a combination a*p + b*q of two speed triples is the
      same combination of the two gradients. */
  lemma InterpolateGradientCombination(a0: real, a1: real, t: real,
                                       p0: real, p1: real, pt: real,
                                       q0: real, q1: real, qt: real,
                                       a: real, b: real, r0: real, r1: real, rt: real)
    requires r0 == a * p0 + b * q0 && r1 == a * p1 + b * q1 && rt == a * pt + b * qt
    ensures InterpolateGradient(a0, a1, t, r0, r1, rt)
         == a * InterpolateGradient(a0, a1, t, p0, p1, pt) + b * InterpolateGradient(a0, a1, t, q0, q1, qt)
  {
    CombinationAlgebra(a1 - a0, Smootherstep(t), SmootherstepGradient(t), p0, p1, pt, q0, q1, qt, a, b, r0, r1, rt);
  }

  /** The ring identity behind `InterpolateGradientCombination`. */
  lemma CombinationAlgebra(u: real, s: real, g: real, p0: real, p1: real, pt: real,
                           q0: real, q1: real, qt: real, a: real, b: real, r0: real, r1: real, rt: real)
    requires r0 == a * p0 + b * q0 && r1 == a * p1 + b * q1 && rt == a * pt + b * qt
    ensures (r1 - r0) * s + u * g * rt + r0
         == a * ((p1 - p0) * s + u * g * pt + p0) + b * ((q1 - q0) * s + u * g * qt + q0)
  {
  }

  /** With t held still the gradient blends the end speeds like the values; with the
      end values held still it is the chain rule through the fade curve. */
  lemma InterpolateGradientCases(a0: real, a1: real, t: real, d_a0: real, d_a1: real, d_t: real)
    ensures InterpolateGradient(a0, a1, t, d_a0, d_a1, 0.0) == Interpolate(d_a0, d_a1, t)
    ensures InterpolateGradient(a0, a1, t, 0.0, 0.0, d_t) == (a1 - a0) * SmootherstepGradient(t) * d_t
    ensures InterpolateGradient(a0, a1, t, 0.0, 0.0, 0.0) == 0.0
  {
  }

  // ---------------------------------------------------------------------------
  // First-order expansions

  /** The quantity v + h*d + h^2*r: value v, first-order coefficient d and
      second-order remainder r along a perturbation of size h. */
  datatype Jet = Jet(v: real, d: real, r: real)

  function Eval(j: Jet, h: real): real
  {
    j.v + h * j.d + h * h * j.r
  }

  /** A quantity that moves linearly: v + h*d exactly. */
  function LinearJet(v: real, d: real): (j: Jet)
    ensures forall h :: Eval(j, h) == v + h * d
  {
    Jet(v, d, 0.0)
  }

  /** The jet of a difference b - a. */
  function JetDiff(a: Jet, b: Jet): Jet
  {
    Jet(b.v - a.v, b.d - a.d, b.r - a.r)
  }

  /** The jet of a sum a + b. */
  function JetSum(a: Jet, b: Jet): Jet
  {
    Jet(a.v + b.v, a.d + b.d, a.r + b.r)
  }

  /** The jet of a product a * b at the perturbation size h: the terms of order
      two and more in h are folded into the remainder. */
  function JetProduct(a: Jet, b: Jet, h: real): Jet
  {
    Jet(a.v * b.v, a.v * b.d + a.d * b.v,
        a.v * b.r + a.d * b.d + a.r * b.v + h * (a.d * b.r + a.r * b.d) + h * h * (a.r * b.r))
  }

  lemma JetDiffExact(a: Jet, b: Jet, h: real)
    ensures Eval(JetDiff(a, b), h) == Eval(b, h) - Eval(a, h)
  {
  }

  lemma JetSumExact(a: Jet, b: Jet, h: real)
    ensures Eval(JetSum(a, b), h) == Eval(a, h) + Eval(b, h)
  {
  }

  lemma JetProductExact(a: Jet, b: Jet, h: real)
    ensures Eval(JetProduct(a, b, h), h) == Eval(a, h) * Eval(b, h)
  {
    ProductAlgebra(a.v, a.d, a.r, b.v, b.d, b.r, h);
  }

  lemma ProductAlgebra(av: real, ad: real, ar: real, bv: real, bd: real, br: real, h: real)
    ensures (av + h * ad + h * h * ar) * (bv + h * bd + h * h * br)
         == av * bv + h * (av * bd + ad * bv)
            + h * h * (av * br + ad * bd + ar * bv + h * (ad * br + ar * bd) + h * h * (ar * br))
  {
  }

  /** The jet of the fade weight at t + h*dt. */
  function FadeJet(t: real, dt: real, h: real): Jet
  {
    Jet(Smootherstep(t), SmootherstepGradient(t) * dt, dt * dt * SmootherstepRemainder(t, h * dt))
  }

  lemma FadeJetExact(t: real, dt: real, h: real)
    ensures Eval(FadeJet(t, dt, h), h) == Smootherstep(t + h * dt)
  {
    SmootherstepAlong(t, dt, h);
  }

  /** Blends two jets with the fade weight of t + h*dt.  Its value is the blend of
      the values and its first-order coefficient is `InterpolateGradient` of the
      coefficients. */
  function BlendJet(a: Jet, b: Jet, t: real, dt: real, h: real): (j: Jet)
    ensures j.v == Interpolate(a.v, b.v, t)
    ensures j.d == InterpolateGradient(a.v, b.v, t, a.d, b.d, dt)
  {
    BlendSlope(a.v, b.v, a.d, b.d, t, dt, Smootherstep(t), SmootherstepGradient(t));
    JetSum(JetProduct(JetDiff(a, b), FadeJet(t, dt, h), h), a)
  }

  /** The first-order coefficient of the blended jet, with the fade weight s and its
      slope g as plain numbers. */
  lemma BlendSlope(av: real, bv: real, ad: real, bd: real, t: real, dt: real, s: real, g: real)
    requires s == Smootherstep(t) && g == SmootherstepGradient(t)
    ensures (bv - av) * (g * dt) + (bd - ad) * s + ad == InterpolateGradient(av, bv, t, ad, bd, dt)
  {
  }

  /** The expansion is exact: blending the perturbed quantities with the perturbed
      weight gives the blended jet evaluated at h. */
  lemma BlendJetExact(a: Jet, b: Jet, t: real, dt: real, h: real)
    ensures Interpolate(Eval(a, h), Eval(b, h), t + h * dt) == Eval(BlendJet(a, b, t, dt, h), h)
  {
    var w := FadeJet(t, dt, h);
    var e := JetDiff(a, b);
    JetSumExact(JetProduct(e, w, h), a, h);
    JetProductExact(e, w, h);
    JetDiffExact(a, b, h);
    FadeJetExact(t, dt, h);
    InterpolateVia(Eval(a, h), Eval(b, h), t + h * dt, Eval(e, h), Eval(w, h));
  }

  /** interpolate_gradient is the slope of interpolate: when the end values and the
      parameter move along (d_a0, d_a1, d_t) by a step of size h, the blend moves by
      h times the gradient plus h^2 times a remainder that is a polynomial in h. */
  lemma InterpolateGradientIsSlope(a0: real, a1: real, t: real, d_a0: real, d_a1: real, d_t: real,
                                   h: real, p0: real, p1: real, pt: real)
    requires p0 == a0 + h * d_a0 && p1 == a1 + h * d_a1 && pt == t + h * d_t
    ensures Interpolate(p0, p1, pt)
         == Eval(Jet(Interpolate(a0, a1, t), InterpolateGradient(a0, a1, t, d_a0, d_a1, d_t),
                     BlendJet(LinearJet(a0, d_a0), LinearJet(a1, d_a1), t, d_t, h).r), h)
  {
    var e0 := LinearJet(a0, d_a0);
    var e1 := LinearJet(a1, d_a1);
    var j := BlendJet(e0, e1, t, d_t, h);
    assert Eval(e0, h) == p0;
    assert Eval(e1, h) == p1;
    BlendJetExact(e0, e1, t, d_t, h);
    assert j == Jet(Interpolate(a0, a1, t), InterpolateGradient(a0, a1, t, d_a0, d_a1, d_t), j.r);
  }

  /** `Interpolate` written with its difference and its weight already computed. */
  lemma InterpolateVia(a0: real, a1: real, t: real, d: real, s: real)
    requires d == a1 - a0 && s == Smootherstep(t)
    ensures Interpolate(a0, a1, t) == d * s + a0
  {
  }
}
