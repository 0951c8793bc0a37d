# Perlin noise of warp (noise.h) in Dafny

This project models `warp/native/noise.h`, the lattice ("Perlin") noise that
warp kernels call. Its parts follow the header:

- **Fade** models the fade curve `smootherstep`, its derivative, and the blends
  `interpolate` and `interpolate_gradient`. It also holds a small algebra of
  second-order jets (value, slope, h² coefficient). The jets let the model say
  exactly how a blend changes when its inputs move.
- **Lattice** models the corner gradients `random_gradient_1d` … `_4d`. This
  covers the uint32 index mixing with the primes 73856093, 19349663, 53471161
  and 10000019, and the seed-offset state. It also models the corner dot
  products `dot_grid_gradient_*` and their `_gradient` versions.
- **Multilinear** models the nested blends of 2, 3 and 4 axes (`Bilerp`,
  `Trilerp`, `Quadlerp`) and their gradient chains. This is the shape that
  `noise_2d` … `noise_4d` write out corner by corner.
- **Perlin** models the cell evaluators `noise_1d` … `noise_4d` and
  `noise_*_gradient`.
- **Sampling** models the entry points `noise(seed, x)` and
  `pnoise(seed, x, p)` in 1 to 4 dimensions:
  - the lattice cell of a coordinate;
  - the periodic wrap of `pnoise`;
  - the epsilon-based "heaviside" selectors that the gradient paths use.
- **Curl** models `curlnoise` in 2, 3 and 4 dimensions. The 3D and 4D versions
  are methods, because the source reassigns `seed` between its three gradient
  evaluations.
- **Adjoint** models the adjoints `adj_noise`, `adj_pnoise` and
  `adj_curlnoise`. Each is a method that takes the by-reference adjoints and
  returns them updated.

Floats are modelled as `real` and `uint32` as `bv32`. The primitives the header
calls but does not define are fields of an `Rng` value passed in as a
parameter: `randf`, `randn`, `rand_init`, `cos`, `sin`, `normalize` and `M_PI`.
The integer `mod` and `_EPSILON` are parameters too. `IsTrueMod` states the
remainder that `pnoise` relies on, and `EuclideanModIsTrueMod` shows that it
can be met.

The central results are slope statements. Each gradient function of the header
is related to the value function it differentiates by an exact second-order
expansion. Moving the offset by `h` along a direction changes the value by
`h` times the computed partial plus `h²` times an explicit remainder:
`N(x + h·e) == Eval(Jet(N(x), slope, remainder), h)`. In 3D, `noise_3d_gradient`
returns its x and y partials exchanged (noise.h:302-303). The model keeps that
exchange, and its lemmas state which component is the slope along which axis.

Every remainder in these statements is built from `JetProduct`, `JetSum`,
`JetDiff` and `FadeJet`, so it is a polynomial in `h` with coefficients fixed by
the point and the direction. The error term `h²·remainder` therefore vanishes
faster than `h`, and the computed slope is the derivative.

## Model

| member | source | states |
|---|---|---|
| `Fade.Smootherstep` | warp/native/noise.h:18-21 | the fade curve 6t⁵ − 15t⁴ + 10t³; `SmootherstepEndpoints`, `SmootherstepRange`, `SmootherstepMonotone` and `SmootherstepSymmetric` state its shape |
| `Fade.SmootherstepGradient` | warp/native/noise.h:23-26 | the slope of the fade curve; `SmootherstepExpansion` proves it is the exact derivative of `Smootherstep` |
| `Fade.SmootherstepEndpoints` | warp/native/noise.h:18-26 | the fade curve is 0 at 0 and 1 at 1, and its derivative is 0 at both ends |
| `Fade.SmootherstepGradientNonNegative` | warp/native/noise.h:23-26 | smootherstep_gradient is 30·(t(t−1))², so it is never negative |
| `Fade.SmootherstepSymmetric` | warp/native/noise.h:18-21 | S(t) + S(1−t) = 1 |
| `Fade.SmootherstepRange` | warp/native/noise.h:18-21 | S maps [0,1] into [0,1] |
| `Fade.SmootherstepNonNegative` | warp/native/noise.h:18-21 | S(t) ≥ 0 for t ≥ 0 |
| `Fade.SmootherstepMonotone` | warp/native/noise.h:18-21 | S is monotone on all reals |
| `Fade.SmootherstepDifference` | warp/native/noise.h:18-21 | S(b) − S(a) = (b − a) · 30 · a mean square of a and b, which is the source of monotonicity |
| `Fade.SmootherstepExpansion` | warp/native/noise.h:18-26 | S(t+h) = S(t) + h·smootherstep_gradient(t) + h²·R(t,h): the gradient function is the exact derivative |
| `Fade.SmootherstepAlong` | warp/native/noise.h:18-26 | the same expansion along t + h·dt, with slope S'(t)·dt |
| `Fade.Interpolate` | warp/native/noise.h:28-31 | the blend of a0 and a1 by the fade weight of t; `InterpolateEndpoints`, `InterpolateBetween` and `InterpolateSame` state what it returns |
| `Fade.InterpolateEndpoints` | warp/native/noise.h:28-31 | interpolate returns a0 at t = 0 and a1 at t = 1 |
| `Fade.InterpolateBetween` | warp/native/noise.h:28-31 | for t in [0,1] the blend lies between a0 and a1, in either order |
| `Fade.InterpolateWithin` | warp/native/noise.h:28-31 | two values inside [lo, hi] blend to a value inside [lo, hi] |
| `Fade.BlendBetween` | warp/native/noise.h:28-31 | a blend weight in [0,1] keeps the result between the two values |
| `Fade.InterpolateSame` | warp/native/noise.h:28-31 | blending a value with itself returns it for every t |
| `Fade.InterpolateGradient` | warp/native/noise.h:33-36 | the tangent of the blend; `InterpolateGradientIsSlope` proves it is the slope of `Interpolate` |
| `Fade.InterpolateGradientCombination` | warp/native/noise.h:33-36 | interpolate_gradient is linear in its tangent inputs (d_a0, d_a1, d_t) |
| `Fade.InterpolateGradientIsSlope` | warp/native/noise.h:28-36 | when a0, a1 and t move by h·(d_a0, d_a1, d_t), interpolate moves by h·interpolate_gradient plus h² times a remainder that is a polynomial in h: interpolate_gradient is the exact slope of interpolate |
| `Fade.InterpolateGradientCases` | warp/native/noise.h:33-36 | with d_t = 0 it blends the tangents; with zero corner tangents it is (a1 − a0)·S'(t)·d_t; with all tangents zero it is 0 |
| `Fade.FadeJetExact` | warp/native/noise.h:18-26 | the jet of S along dt evaluates exactly to S(t + h·dt) |
| `Fade.BlendJet` | warp/native/noise.h:28-36 | the blended jet's value is interpolate and its slope is interpolate_gradient |
| `Fade.BlendJetExact` | warp/native/noise.h:28-36 | blending two moved values at a moved t is exactly the blended jet evaluated at h |
| `Lattice.ToU32` | warp/native/noise.h:41 | the signed corner index converted to uint32; `ToU32Periodic` states its period |
| `Lattice.MixIndex1` | warp/native/noise.h:40-41 | ix·73856093, wrapping at 2³²; `MixIndexDropAxis` relates it to the 2D mix |
| `Lattice.MixIndex2` | warp/native/noise.h:48-50 | ix·73856093 ⊕ iy·19349663; `MixIndexDropAxis` relates it to the 1D and 3D mixes |
| `Lattice.MixIndex3` | warp/native/noise.h:60-63 | the 2D mix ⊕ iz·53471161; `MixIndexDropAxis` relates it to the 2D and 4D mixes |
| `Lattice.MixIndex4` | warp/native/noise.h:75-79 | the 3D mix ⊕ it·10000019; `MixIndexDropAxis` relates it to the 3D mix |
| `Lattice.CornerState` | warp/native/noise.h:42 | seed + idx, wrapping at 2³² (also lines 51, 64, 80); `CornerStateDropAxis` states which corners share a state |
| `Lattice.RandomGradient1` | warp/native/noise.h:38-44 | a uniform draw in [−1, 1] from the corner state; `RandomGradient1Bounded` states its range and `RandomGradientPeriodic` its period |
| `Lattice.RandomGradient2` | warp/native/noise.h:46-56 | the unit vector at an angle drawn in [0, 2π] from the corner state; `RandomGradientPeriodic` states its period |
| `Lattice.RandomGradient3` | warp/native/noise.h:58-71 | three successive normal draws from the corner state, normalized; `RandomGradientPeriodic` states its period |
| `Lattice.RandomGradient4` | warp/native/noise.h:73-88 | four successive normal draws from the corner state, normalized; `RandomGradientPeriodic` states its period |
| `Lattice.ToU32Periodic` | warp/native/noise.h:41 | the uint32 conversion of the model's unbounded corner index has period 2³²; a C++ int is 32 bits wide (noise.h:38, 555), so in the source this only says that the conversion keeps the index bits |
| `Lattice.RandomGradientPeriodic` | warp/native/noise.h:38-88 | for the model's unbounded indices, the corner gradients repeat when any index moves by a multiple of 2³²; because the source's int indices are 32 bits wide (noise.h:38, 555), this says the gradients depend only on the uint32 value of each index |
| `Lattice.MixIndexDropAxis` | warp/native/noise.h:41-79 | a zero index on the last axis reduces the n-axis mix to the (n−1)-axis mix |
| `Lattice.CornerStateDropAxis` | warp/native/noise.h:41-80 | a corner whose last index is 0 starts its draws from the same state as the corner of the dimension below with the remaining indices |
| `Lattice.RandomGradient1Bounded` | warp/native/noise.h:38-44 | when randf stays in its range, the 1D corner gradient lies in [−1, 1] |
| `Lattice.DotGridGradient1d` | warp/native/noise.h:90-94 | the corner gradient times the offset; `DotGridGradient1dLinear` states how it moves with the offset |
| `Lattice.DotGridGradient1dGradient` | warp/native/noise.h:96-100 | the corner gradient times a tangent; `DotGridGradient1dLinear` makes it the slope of `DotGridGradient1d` |
| `Lattice.DotGridGradient2d` | warp/native/noise.h:102-106 | the dot product of the corner gradient with the offset; `DotGridGradient2dLinear` states how it moves |
| `Lattice.DotGridGradient2dGradient` | warp/native/noise.h:108-112 | the same dot product with a tangent; `DotGridGradient2dLinear` makes it the slope of `DotGridGradient2d` |
| `Lattice.DotGridGradient3d` | warp/native/noise.h:114-118 | the 3D dot product with the offset; `DotGridGradient3dLinear` states how it moves |
| `Lattice.DotGridGradient3dGradient` | warp/native/noise.h:120-124 | the 3D dot product with a tangent; `DotGridGradient3dLinear` makes it the slope of `DotGridGradient3d` |
| `Lattice.DotGridGradient4d` | warp/native/noise.h:126-130 | the 4D dot product with the offset; `DotGridGradient4dLinear` states how it moves |
| `Lattice.DotGridGradient4dGradient` | warp/native/noise.h:132-136 | the 4D dot product with a tangent; `DotGridGradient4dLinear` makes it the slope of `DotGridGradient4d` |
| `Lattice.DotGridGradientIsValue` | warp/native/noise.h:90-136 | every dot_grid_gradient_*_gradient is the same dot product as dot_grid_gradient_* |
| `Lattice.DotGridGradient1dLinear` | warp/native/noise.h:90-100 | moving the offset by k·e moves the 1D dot product by k times the gradient version at e |
| `Lattice.DotGridGradient2dLinear` | warp/native/noise.h:102-112 | the same in 2D |
| `Lattice.DotGridGradient3dLinear` | warp/native/noise.h:114-124 | the same in 3D |
| `Lattice.DotGridGradient4dLinear` | warp/native/noise.h:126-136 | the same in 4D |
| `Lattice.DotGridGradient2dGradientSplit` | warp/native/noise.h:108-112 | the 2D corner tangent along (ex, ey) is ex times the tangent along x plus ey times the tangent along y |
| `Lattice.DotGridGradientZero` | warp/native/noise.h:96-136 | a zero tangent gives a zero corner partial in every dimension |
| `Multilinear.Bilerp` | warp/native/noise.h:158-170 | interpolate along x on both rows of corners, then along y; `BilerpJetExact` relates it to its jet |
| `Multilinear.BilerpGradient` | warp/native/noise.h:189-199 | the chain of interpolate_gradient calls for one partial; `BilerpJet` makes it the slope of `Bilerp` |
| `Multilinear.Trilerp` | warp/native/noise.h:204-228 | the same nesting over 3 axes; `TrilerpJetExact` relates it to its jet |
| `Multilinear.TrilerpGradient` | warp/native/noise.h:272-304 | the 3-axis chain; `TrilerpJet` makes it the slope of `Trilerp` |
| `Multilinear.Quadlerp` | warp/native/noise.h:309-357 | the same nesting over 4 axes; `QuadlerpJetExact` relates it to its jet |
| `Multilinear.QuadlerpGradient` | warp/native/noise.h:458-544 | the 4-axis chain; `QuadlerpJet` makes it the slope of `Quadlerp` |
| `Multilinear.BilerpJet` | warp/native/noise.h:158-202 | the jet of the 2-axis blend has the blend as value and the gradient chain as slope |
| `Multilinear.TrilerpJet` | warp/native/noise.h:204-307 | the same for the 3-axis blend |
| `Multilinear.QuadlerpJet` | warp/native/noise.h:309-547 | the same for the 4-axis blend |
| `Multilinear.BilerpJetExact` | warp/native/noise.h:158-202 | the 2-axis blend of moved corners at moved offsets is exactly its jet evaluated at h |
| `Multilinear.TrilerpJetExact` | warp/native/noise.h:204-307 | the same for 3 axes |
| `Multilinear.QuadlerpJetExact` | warp/native/noise.h:309-547 | the same for 4 axes |
| `Multilinear.BilerpGradientCombination` | warp/native/noise.h:189-199 | the 2-axis gradient chain is linear in its corner tangents and selectors together |
| `Multilinear.BilerpGradientZero` | warp/native/noise.h:189-199 | zero corner tangents and zero selectors give a zero 2-axis chain |
| `Multilinear.TrilerpGradientZero` | warp/native/noise.h:272-304 | the same for 3 axes |
| `Perlin.Noise1d` | warp/native/noise.h:138-145 | the blend of the two corner dot products by the offset; `Noise1dBounded` and `Noise1dZeroAtLowCorner` state its values |
| `Perlin.Noise1dGradient` | warp/native/noise.h:147-156 | `Noise1dGradientIsSlope` proves it is the slope of `Noise1d` along the selector |
| `Perlin.Noise1dGradientIsSlope` | warp/native/noise.h:138-156 | noise_1d at dx + h·hx is noise_1d plus h·noise_1d_gradient(hx) plus an explicit h² term |
| `Perlin.Noise1dMoved` | warp/native/noise.h:138-156 | the same expansion, with the moved offset given as a parameter |
| `Perlin.Noise1dGradientClosedForm` | warp/native/noise.h:147-156 | with selector 1 the gradient is g0 + (g1 − g0)·S(dx) + (v1 − v0)·S'(dx) |
| `Perlin.Noise1dGradientOff` | warp/native/noise.h:147-156 | with selector 0 the gradient is 0 |
| `Perlin.Noise1dBounded` | warp/native/noise.h:138-145 | with corner gradients in [−1,1] and dx in [0,1], noise_1d lies in [−1, 1] |
| `Perlin.Noise2d` | warp/native/noise.h:158-170 | the 2-axis blend of the four corner dot products; `Noise2dMoved` and `Noise2dZeroAtLowCorner` state how it moves and where it is 0 |
| `Perlin.Noise2dGradient` | warp/native/noise.h:172-202 | `Noise2dGradientIsSlope` proves each component is the slope of `Noise2d` along its axis |
| `Perlin.Noise2dGradientIsSlope` | warp/native/noise.h:158-202 | each partial of noise_2d_gradient is the slope of noise_2d along its own axis times that axis' selector, with an explicit h² term |
| `Perlin.Noise2dMoved` | warp/native/noise.h:158-202 | noise_2d moved along any (ex, ey) changes by h times the gradient chain with tangent (ex, ey) |
| `Perlin.Noise2dGradientOff` | warp/native/noise.h:172-202 | a zero selector zeroes that axis' partial |
| `Perlin.Partials2Split` | warp/native/noise.h:175-188 | the corner partials along (ex, ey) are ex times the x partials plus ey times the y partials |
| `Perlin.Noise2dChainCombination` | warp/native/noise.h:189-199 | the slope along (ex, ey) is ex·(slope along x) + ey·(slope along y) |
| `Perlin.Noise2dTurnedGradientIsLevel` | warp/native/noise.h:172-202 | with both selectors on, noise_2d has slope 0 along the gradient turned a quarter turn |
| `Perlin.Noise3d` | warp/native/noise.h:204-228 | the 3-axis blend of the eight corner dot products; `Noise3dMoved` and `Noise3dZeroAtLowCorner` state how it moves and where it is 0 |
| `Perlin.Noise3dGradient` | warp/native/noise.h:230-307 | `Noise3dSlopeAlongX`, `…Y` and `…Z` prove which component is the slope of `Noise3d` along which axis |
| `Perlin.Noise3dSlopeAlongX` | warp/native/noise.h:230-307 | moving dx by h·hx changes noise_3d by h times the result's y component (the exchange at lines 302-303) |
| `Perlin.Noise3dSlopeAlongY` | warp/native/noise.h:230-307 | moving dy by h·hy changes noise_3d by h times the result's x component |
| `Perlin.Noise3dSlopeAlongZ` | warp/native/noise.h:230-307 | moving dz by h·hz changes noise_3d by h times the result's z component |
| `Perlin.Noise3dMoved` | warp/native/noise.h:204-307 | noise_3d moved along any direction changes by h times the 3-axis chain with that tangent |
| `Perlin.Noise3dGradientOff` | warp/native/noise.h:230-307 | a zero selector zeroes its chain; the x selector zeroes the y component and the y selector the x component |
| `Perlin.Partials3Zero` | warp/native/noise.h:232-270 | zero tangents give eight zero corner partials |
| `Perlin.Noise4d` | warp/native/noise.h:309-357 | the 4-axis blend of the sixteen corner dot products; `Noise4dMoved` and `Noise4dZeroAtLowCorner` state how it moves and where it is 0 |
| `Perlin.Noise4dGradient` | warp/native/noise.h:359-547 | `Noise4dSlopeAlongX`, `…Y`, `…Z` and `…T` prove each component is the slope of `Noise4d` along its axis |
| `Perlin.Noise4dSlopeAlongX` | warp/native/noise.h:359-547 | moving dx by h·hx changes noise_4d by h times the result's x component |
| `Perlin.Noise4dSlopeAlongY` | warp/native/noise.h:359-547 | the same for dy and the y component |
| `Perlin.Noise4dSlopeAlongZ` | warp/native/noise.h:359-547 | the same for dz and the z component |
| `Perlin.Noise4dSlopeAlongT` | warp/native/noise.h:359-547 | the same for dt and the w component |
| `Perlin.Noise4dMoved` | warp/native/noise.h:309-547 | noise_4d moved along any direction changes by h times the 4-axis chain with that tangent |
| `Perlin.Noise4dGradientOff` | warp/native/noise.h:359-547 | a zero selector zeroes that axis' component |
| `Perlin.Partials4Zero` | warp/native/noise.h:361-455 | zero tangents give sixteen zero corner partials |
| `Perlin.Noise1dZeroAtLowCorner` | warp/native/noise.h:138-145 | noise_1d is 0 at offset 0 |
| `Perlin.Noise2dZeroAtLowCorner` | warp/native/noise.h:158-170 | noise_2d is 0 at offset (0, 0) |
| `Perlin.Noise3dZeroAtLowCorner` | warp/native/noise.h:204-228 | noise_3d is 0 at the low corner |
| `Perlin.Noise4dZeroAtLowCorner` | warp/native/noise.h:309-357 | noise_4d is 0 at the low corner |
| `Sampling.NoiseCell` | warp/native/noise.h:553-556 | the cell of x has x1 = x0 + 1, offset in [0, 1) and x0 + offset = x |
| `Sampling.NoiseCellUnique` | warp/native/noise.h:553-556 | those three conditions determine the cell |
| `Sampling.NoiseCellShift` | warp/native/noise.h:553-556 | moving x inside its cell keeps the corners and moves the offset |
| `Sampling.EuclideanModIsTrueMod` | warp/native/noise.h:715-716 | a modulo with the property pnoise needs exists |
| `Sampling.PeriodicCell` | warp/native/noise.h:713-716 | the wrapped corners and the offset of pnoise; `PeriodicCellRange`, `PeriodicCellIsReduced` and `PeriodicCellPeriodic` state what they are |
| `Sampling.PeriodicCellRange` | warp/native/noise.h:713-716 | with p ≥ 1 both wrapped indices lie in [0, p), x1 = x0 + 1 except that p − 1 wraps to 0, and the offset is noise's |
| `Sampling.PeriodicCellIsReduced` | warp/native/noise.h:713-716 | pnoise's corners are noise's corners reduced modulo p |
| `Sampling.PeriodicCellPeriodic` | warp/native/noise.h:713-716 | shifting x by k·p leaves pnoise's cell unchanged |
| `Sampling.PeriodicCellInsidePeriod` | warp/native/noise.h:713-716 | for 0 ≤ x with floor(x) + 1 < p, pnoise's cell is noise's cell |
| `Sampling.Heaviside` | warp/native/noise.h:565-566 | the selector is 0 exactly when the offset is below the epsilon and 1 otherwise |
| `Sampling.Pnoise1` | warp/native/noise.h:711-719 | noise_1d on the periodic cell of x; `Pnoise1Periodic` and `Pnoise1InsidePeriod` state its period and its agreement with noise |
| `Sampling.Pnoise2` | warp/native/noise.h:735-747 | noise_2d on the periodic cell of xy; `Pnoise2Periodic` states its periods |
| `Sampling.Pnoise3` | warp/native/noise.h:771-786 | noise_3d on the periodic cell of xyz; `Pnoise3Periodic` states its periods |
| `Sampling.Pnoise4` | warp/native/noise.h:815-833 | noise_4d on the periodic cell of xyzt; `Pnoise4Periodic` states its periods |
| `Sampling.PnoiseGradient1` | warp/native/noise.h:721-733 | the gradient adj_pnoise reads; `PnoiseGradient1Periodic` states its period |
| `Sampling.PnoiseGradient2` | warp/native/noise.h:749-769 | the same in 2D; `PnoiseGradient2Periodic` |
| `Sampling.PnoiseGradient3` | warp/native/noise.h:788-813 | the same in 3D; `PnoiseGradient3Periodic` |
| `Sampling.PnoiseGradient4` | warp/native/noise.h:835-867 | the same in 4D; `PnoiseGradient4Periodic` |
| `Sampling.Pnoise1Periodic` | warp/native/noise.h:711-719 | 1D pnoise repeats with period px |
| `Sampling.Pnoise2Periodic` | warp/native/noise.h:735-747 | 2D pnoise repeats with periods px, py |
| `Sampling.Pnoise3Periodic` | warp/native/noise.h:771-786 | 3D pnoise repeats with periods px, py, pz |
| `Sampling.Pnoise4Periodic` | warp/native/noise.h:815-833 | 4D pnoise repeats with periods px, py, pz, pt |
| `Sampling.PnoiseGradient1Periodic` | warp/native/noise.h:721-733 | the gradient adj_pnoise reads repeats with period px |
| `Sampling.PnoiseGradient2Periodic` | warp/native/noise.h:749-769 | the same in 2D |
| `Sampling.PnoiseGradient3Periodic` | warp/native/noise.h:788-813 | the same in 3D |
| `Sampling.PnoiseGradient4Periodic` | warp/native/noise.h:835-867 | the same in 4D |
| `Sampling.Pnoise1InsidePeriod` | warp/native/noise.h:711-719 | inside one period, away from its last cell, pnoise equals noise |
| `Sampling.Noise1` | warp/native/noise.h:551-559 | noise_1d on the cell of x; `NoiseGradient1IsSlope` states how it moves inside the cell |
| `Sampling.Noise2` | warp/native/noise.h:575-587 | noise_2d on the cell of xy; `Noise2SlopeIsRate` states how it moves inside the cell |
| `Sampling.Noise3` | warp/native/noise.h:611-626 | noise_3d on the cell of xyz; `Noise3SlopeIsRate` states how it moves inside the cell |
| `Sampling.Noise4` | warp/native/noise.h:655-673 | noise_4d on the cell of xyzt; `Noise4SlopeIsRate` states how it moves inside the cell |
| `Sampling.NoiseGradient1` | warp/native/noise.h:561-573 | the gradient adj_noise reads; `NoiseGradient1IsSlope` and `NoiseGradient1Flat` state its value |
| `Sampling.NoiseGradient2` | warp/native/noise.h:589-609 | the same in 2D; `NoiseGradient2Slopes`, `NoiseGradient2IsSlopeX`, `…Y` and `NoiseGradient2Flat` |
| `Sampling.NoiseGradient3` | warp/native/noise.h:628-653 | the same in 3D; `NoiseGradient3Slopes`, `NoiseGradient3IsSlopeX`, `…Y`, `…Z` and `NoiseGradient3Flat` |
| `Sampling.NoiseGradient4` | warp/native/noise.h:675-707 | the same in 4D; `NoiseGradient4Slopes` and `NoiseGradient4Flat` |
| `Sampling.NoiseGradient1Flat` | warp/native/noise.h:561-573 | at an offset below the epsilon the 1D gradient is 0 |
| `Sampling.NoiseGradient1IsSlope` | warp/native/noise.h:551-573 | away from the low boundary, moving x by h in its cell moves noise by h·gradient plus an h² term |
| `Sampling.NoiseGradient2Flat` | warp/native/noise.h:589-609 | each 2D component is 0 when its axis' offset is below the epsilon |
| `Sampling.NoiseGradient2IsSlopeX` | warp/native/noise.h:575-609 | moving x inside its cell moves 2D noise by h times the gradient's x component |
| `Sampling.NoiseGradient2IsSlopeY` | warp/native/noise.h:575-609 | the same for y |
| `Sampling.NoiseGradient3Flat` | warp/native/noise.h:628-653 | on a low boundary the matching 3D component is 0 (x boundary → y component, y boundary → x component) |
| `Sampling.NoiseGradient3IsSlopeX` | warp/native/noise.h:611-653 | moving x inside its cell moves 3D noise by h times the gradient's y component |
| `Sampling.NoiseGradient3IsSlopeY` | warp/native/noise.h:611-653 | moving y inside its cell moves 3D noise by h times the gradient's x component |
| `Sampling.NoiseGradient3IsSlopeZ` | warp/native/noise.h:611-653 | moving z inside its cell moves 3D noise by h times the gradient's z component |
| `Sampling.NoiseGradient4Flat` | warp/native/noise.h:675-707 | each 4D component is 0 when its axis' offset is below the epsilon |
| `Sampling.Noise2SlopeIsRate` | warp/native/noise.h:575-587 | moving xy along (ex, ey) inside its cell moves noise by h times the directional slope plus an h² term |
| `Sampling.Noise2LevelDirection` | warp/native/noise.h:575-587 | along a direction of slope 0, noise changes only by an h² term |
| `Sampling.NoiseGradient2Slopes` | warp/native/noise.h:589-609 | with its selector on, each 2D component is the slope along its own axis |
| `Sampling.NoiseGradient2AllOn` | warp/native/noise.h:594-605 | away from the low boundaries the 2D gradient is the cell gradient with both selectors 1 |
| `Sampling.Noise3SlopeIsRate` | warp/native/noise.h:611-626 | moving xyz along any direction inside its cell moves noise by h times the directional slope |
| `Sampling.NoiseGradient3Slopes` | warp/native/noise.h:628-653 | with its selector on: y component = slope along x, x component = slope along y, z = slope along z |
| `Sampling.Noise4SlopeIsRate` | warp/native/noise.h:655-673 | moving xyzt along any direction inside its cell moves noise by h times the directional slope |
| `Sampling.NoiseGradient4Slopes` | warp/native/noise.h:675-707 | with its selector on, each 4D component is the slope along its own axis |
| `Curl.CurlNoise2` | warp/native/noise.h:871-889 | the 2D noise gradient turned a quarter turn; `CurlNoise2Slopes`, `CurlNoise2Tangent` and `CurlNoise2FollowsLevelLine` state what it is |
| `Curl.QuarterTurn` | warp/native/noise.h:888 | the turned vector is perpendicular to the gradient and as long |
| `Curl.CurlNoise2Slopes` | warp/native/noise.h:871-889 | away from the low boundaries the 2D curl is (−∂noise/∂y, ∂noise/∂x) |
| `Curl.CurlNoise2Tangent` | warp/native/noise.h:871-889 | away from the low boundaries noise has slope 0 along the 2D curl |
| `Curl.CurlNoise2FollowsLevelLine` | warp/native/noise.h:871-889 | a step along the 2D curl inside the cell changes noise only by an h² term |
| `Curl.Curl3` | warp/native/noise.h:920-923 | (g3.y − g2.z, g1.z − g3.x, g2.x − g1.y); `CurlNoise3Slopes` reads it as a curl of noise slopes |
| `Curl.Curl4` | warp/native/noise.h:959-962 | the same combination of 4-vectors into a 3-vector; `CurlNoise4Slopes` reads it as a curl of noise slopes |
| `Curl.CurlNoise3Field` | warp/native/noise.h:892-924 | the value curlnoise computes with the seed chain written out; the method `CurlNoise3` is proved to return it |
| `Curl.CurlNoise4Field` | warp/native/noise.h:927-963 | the same in 4D; the method `CurlNoise4` is proved to return it |
| `Curl.CurlNoise3` | warp/native/noise.h:892-924 | the result combines the gradients at seed, rand_init(seed, 10019689) and rand_init of that with 13112221 into (g3.y − g2.z, g1.z − g3.x, g2.x − g1.y) |
| `Curl.CurlNoise4` | warp/native/noise.h:927-963 | the same combination of three 4D gradients with the same seed chain, returning a 3-vector |
| `Curl.CurlNoise3Slopes` | warp/native/noise.h:892-924 | away from the low boundaries each 3D curl component is a difference of noise slopes of the three fields, with x and y exchanged as written |
| `Curl.CurlNoise4Slopes` | warp/native/noise.h:927-963 | away from the low boundaries of x, y and z the 4D result is the curl over x, y, z of the three noise fields |
| `Adjoint.AdjNoise1` | warp/native/noise.h:561-573 | adj_x gains gradient·adj_ret and adj_seed is unchanged |
| `Adjoint.AdjNoise2` | warp/native/noise.h:589-609 | each component of adj_xy gains its gradient component times adj_ret; adj_seed is unchanged |
| `Adjoint.AdjNoise3` | warp/native/noise.h:628-653 | the same in 3D, with the gradient's components in the order noise_3d_gradient returns them |
| `Adjoint.AdjNoise4` | warp/native/noise.h:675-707 | the same in 4D |
| `Adjoint.AdjPnoise1` | warp/native/noise.h:721-733 | adj_x gains the periodic gradient times adj_ret; adj_seed and adj_px are unchanged |
| `Adjoint.AdjPnoise2` | warp/native/noise.h:749-769 | the same in 2D, with the period adjoints unchanged |
| `Adjoint.AdjPnoise3` | warp/native/noise.h:788-813 | the same in 3D |
| `Adjoint.AdjPnoise4` | warp/native/noise.h:835-867 | the same in 4D |
| `Adjoint.AdjCurlNoise2` | warp/native/noise.h:890 | every adjoint is returned unchanged |
| `Adjoint.AdjCurlNoise3` | warp/native/noise.h:925 | every adjoint is returned unchanged |
| `Adjoint.AdjCurlNoise4` | warp/native/noise.h:964 | every adjoint is returned unchanged |

## Left out

- Floating point: every `float` is an exact `real`. Rounding, overflow to
  infinity and NaN are not modelled.
- `randf`, `randn`, `rand_init`, `cos`, `sin`, `normalize` and `M_PI` are
  defined outside noise.h. They are fields of `Rng`, so the model draws no
  conclusion that depends on their values. The one exception is
  `RandfWithin`, the stated range contract of `randf`, which
  `Lattice.RandomGradient1Bounded` and `Perlin.Noise1dBounded` require.
- `_EPSILON` and the integer `mod` are defined outside noise.h, so they are
  parameters. The periodic results assume `IsTrueMod` and period ≥ 1. For a
  period ≤ 0 the model only passes the values through the given `mod`.
- A `mod` whose result takes the sign of the dividend, as C++'s `%` does, is
  not covered. The periodic results hold only under `IsTrueMod`. With such a
  `mod`, pnoise at a negative coordinate uses negative corner indices
  (noise.h:715-716): at x = −0.5 with px = 4 the corners are (−1, 0), while at
  x = 3.5 they are (3, 0). The model establishes nothing about that case,
  including whether pnoise still repeats there.
- `(int)floor(x)` is an exact integer. The model leaves out the undefined
  behaviour of the float-to-int conversion for coordinates beyond the int
  range. The uint32 products of the index mixing wrap modulo 2³² explicitly.
- Derivatives are stated as exact expansions inside one lattice cell. The
  model proves nothing about continuity across cells, about the value of the
  one-sided gradient at a cell boundary (beyond its being 0 there), or about
  curl noise being divergence-free.
- The coordinate-level slope along one axis of 4D noise is not stated as a
  separate lemma. It follows from `Sampling.NoiseGradient4Slopes` together
  with `Sampling.Noise4SlopeIsRate`.
- Only a 3-vector is returned by 4D curl noise. The model computes the same
  3-vector, and its lemmas say nothing about the unused w partials.
- Bounds on noise in 2 to 4 dimensions are not proved, because they depend on
  `cos`, `sin` and `normalize`. Only the 1D bound, which needs only randf's
  range, is proved.
- `CUDA_CALLABLE`, inlining and the kernel dispatch around these functions
  have no counterpart.
