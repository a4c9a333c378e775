# Paramak core, modelled in Dafny

Paramak builds parametric fusion-reactor geometry. It lays out 2D profiles of
points, each tagged with how it joins the next point (`spline`, `straight`
or `circle`). It then hands the profiles to the CadQuery CAD kernel to be
extruded, rotated or swept into solids. This project models the parts of
Paramak that decide *what* is built, and proves properties of them:

- **Ball reactor radial and vertical build.** The radial build is a chain of
  layer intervals: inner bore, inboard TF leg, centre-column shield,
  divertor, first wall, blanket and blanket rear wall. It also covers the
  plasma's major and minor radii, the layer heights above the plasma's high
  point, and the poloidal-field (PF) coil layout: equally spaced coil
  centres, the coils' start and end radius, and the outboard TF-coil radius
  (module `BallReactorBuild`).
- **Princeton-D toroidal-field coil.**
  - The inner curve is assembled from two integrated segments: flipped,
    concatenated and mirrored.
  - The outer curve is offset from it by the magnet thickness.
  - The profile is tagged, and the four inner-leg corners, the azimuthal
    placement angles and the drawing instructions of `create_solid` are
    derived from it.
  - Modules `PrincetonD` and `PrincetonDCoil`.
- **Grouping the drawing instructions.** Consecutive profile points are
  grouped into runs that share a connection type, and the outline is closed
  back to its first point. Both the Princeton-D coil and the mixed sweep
  shape do this (module `Connections`).
- **Azimuthal placement.** `numpy.linspace(0, 360, n, endpoint=False)`
  spreads `n` angles evenly around the machine (module `Azimuth`).
- **The two sweep shapes** (modules `Sweeps`, `SweepMixed`, `SweepCircle`):
  - the `path_workplane` validation;
  - the signed sweep distance;
  - the attribute fingerprint that `get_hash` digests;
  - the rebuild-on-change cache of the `solid` getter;
  - the mixed shape's interpretation of circle runs as three-point arcs;
  - the circle shape's refusal of `points`.
- **Flat inner TF coils.** The rule settles the placement angles and the
  coil count from either one; the coil's four-corner profile is derived;
  and the extrusion distance is forced to the height (module
  `InnerTfCoils`).

Python exceptions are results: `Result<T>` with `Ok(value)` or `Err(error)`,
and `Outcome` with `Pass` or `Fail(error)`. The error is one of `ValueError`,
which carries the repository's own message, `IndexError`, `TypeError` and
`ZeroDivisionError`. Floats are modelled as reals.

The following are parameters, because Dafny cannot compute them:

- The two integrated segments of the Princeton-D coil. They come from
  `scipy.integrate.odeint` and `scipy.optimize.minimize`.
- The square roots that normalise the offset normals. These are a sequence
  `norms` with `norms[i] > 0` and `norms[i]^2 == dz_dr[i]^2 + 1`, which
  pins each one down as that square root (`PrincetonD.NormsFor`).
- The plasma's high point, which comes from the `Plasma` component.
- Sine, cosine and arcsine (`InnerTfCoils.Trig`). Lemmas that need an
  identity take it as a precondition: `Pythagorean`, `SineOfNegatedArcsine`.
- The textual forms Python's `str` gives lists, numbers and CAD objects, and
  the blake2b digest (`Sweeps.Renderer`).

A state-changing method is stated against a pure function of its inputs
and old state. For example, `BallReactor.BuildPfCoils` ensures
`(o, PfCoils()) == PfCoilsOf(...)`. The properties are then proved about
that function.

Source behaviours modelled as written:

- `compute_outer_points` offsets `R[i], Z[i]` along the normal of
  `dz_dr[i]` for `i < len(dz_dr)`, mirrors the result, and raises
  IndexError when the curve is shorter than its slope list. The
  indices of the assembled curve and of `dz_dr` are not aligned. The first
  half of `dz_dr` lines up with the curve's first quarter, but the second
  half is shifted by one sample against the curve, because the curve leaves
  out the shared point `R0`. The model keeps this pairing.
- The outboard TF coil starts at the PF coils' end radius plus
  `pf_coil_to_rear_blanket_radial_gap`, not `pf_coil_to_tf_coil_radial_gap`.
  The TF gap is compared with `None` but never used
  (`BallReactorBuild.TfCoilIgnoresTfGap`).
- When there are more PF coils (vertical thicknesses) than radial
  thicknesses, the placing loop raises IndexError part-way. The coils it
  placed before that stay stored, and so does the coil count.
- `max([])` raises ValueError with CPython's message "max() arg is an empty
  sequence". By then the PF start radius is already stored.
- `create_solid` records the new digest before building. A build that fails
  therefore leaves the new digest next to the old cached solid, and the next
  read of `solid` serves the stale solid.
- The sweep constructors validate the workplanes through the
  `path_workplane` setter. Python's `__init__` may raise, so
  `NewSweepMixedShape`, `NewSweepCircleShape`, `NewBallReactor` and
  `NewInnerTfCoilsFlat` build the object and then run the checking steps.
  Each of them returns a `Result`. Until `path_workplane` is set, the class
  constructors leave it empty.

## Model

| member | source | states |
|---|---|---|
| Azimuth.EvenlySpacedAngles | paramak/parametric_components/toroidal_field_coil_princeton_d.py:212-222 | a negative count raises numpy's ValueError with the count in its message; otherwise exactly `n` angles, all in `[0, 360)` |
| Azimuth.AnglesEvenlySpaced | paramak/parametric_components/toroidal_field_coil_princeton_d.py:215-220 | the first angle is 0, angle `i` is `360 i / n`, neighbours are `360 / n` apart, and one more step closes the full turn |
| Azimuth.AnglesIncreasing | paramak/parametric_components/toroidal_field_coil_princeton_d.py:215-220 | the angles strictly increase, so no two coils share a placement |
| Azimuth.AnglesInRange | paramak/parametric_components/toroidal_field_coil_princeton_d.py:215-220 | every angle lies in `[0, 360)` |
| Azimuth.SixCoils | tests/test_parametric_components/test_InnerTfCoilsCircular.py:34-35 | six coils sit at 0, 60, 120, 180, 240 and 300 degrees |
| Azimuth.NatToString | paramak/parametric_components/toroidal_field_coil_princeton_d.py:215-220 | the decimal digits of a natural number: `DigitsValue` of them is the number, and only 0 starts with the digit 0 |
| Azimuth.IntToString | paramak/parametric_components/toroidal_field_coil_princeton_d.py:215-220 | Python's decimal form of an integer, for the linspace message: a leading minus exactly for negatives, then digits whose decimal value (`DigitsValue`) is the magnitude, with no leading zero except for 0 itself |
| Connections.Group | paramak/parametric_components/toroidal_field_coil_princeton_d.py:238-250 | grouping a non-empty list of tagged points gives at least one run; the last run has the last point's tag and ends at its point |
| Connections.Close | paramak/parametric_components/toroidal_field_coil_princeton_d.py:252-254 | closing keeps all runs but the last, keeps the last run's tag and points, and appends at most one point, so that it ends at the start point |
| Connections.GroupConnections | paramak/parametric_components/toroidal_field_coil_princeton_d.py:233-254 | the grouping loop: IndexError exactly when there are fewer than two points (no connection to read); otherwise the closed grouping of all points but the last |
| Connections.GroupShape | paramak/parametric_components/toroidal_field_coil_princeton_d.py:242-250 | adjacent runs carry different tags, each run after the first begins where the previous one ended, and the first run starts at the first point |
| Connections.GroupCount | paramak/parametric_components/toroidal_field_coil_princeton_d.py:242-250 | the number of runs is one more than the number of tag changes between consecutive points |
| Connections.ExtendShape | paramak/parametric_components/toroidal_field_coil_princeton_d.py:243-249 | one loop step keeps runs alternating and chained, keeps the first point, and leaves the new point at the end of a run with its tag |
| Connections.UngroupGroup | paramak/parametric_components/toroidal_field_coil_princeton_d.py:242-250 | flattening the runs and dropping the duplicated boundary points gives back every point but the last |
| Connections.UngroupClose | paramak/parametric_components/toroidal_field_coil_princeton_d.py:242-254 | after closing, the flattened runs are all the points, or all but the last when the last already equals the start |
| Connections.CloseShape | paramak/parametric_components/toroidal_field_coil_princeton_d.py:252-254 | closing keeps the runs alternating and chained and keeps the first point |
| Connections.GroupedProfile | paramak/parametric_components/toroidal_field_coil_princeton_d.py:233-254 | for a profile of at least two points, the instructions alternate and chain, count one run per tag change plus one, start and end at the first point, and cover every point except the final entry, which contributes neither tag nor coordinates |
| PrincetonD.CurveLengths | paramak/parametric_components/toroidal_field_coil_princeton_d.py:141-145 | segments of `n` samples give a closed curve of `4n - 3` points and `2n` slopes |
| PrincetonD.CurveBlocks | paramak/parametric_components/toroidal_field_coil_princeton_d.py:141-144 | the curve is segment 1 reversed, segment 2 without its first point, segment 2 reversed and negated without its first point, then segment 1 negated without its first point |
| PrincetonD.CurveMirror | paramak/parametric_components/toroidal_field_coil_princeton_d.py:141-144 | when the segments share their first point, the lower half of the curve is the upper half reflected in the midplane |
| PrincetonD.SlopeBlocks | paramak/parametric_components/toroidal_field_coil_princeton_d.py:145 | the slopes are segment 1's reversed, then segment 2's |
| PrincetonD.OuterPointOffset | paramak/parametric_components/toroidal_field_coil_princeton_d.py:162-171 | the offset point lies at distance `thickness` from the curve point, along the normal to slope `d`, on the upper side for a positive thickness |
| PrincetonD.OffsetShape | paramak/parametric_components/toroidal_field_coil_princeton_d.py:161-176 | the outer curve has twice as many points as slopes; its first half is the offset points and its second half their mirror image in reverse order |
| PrincetonD.ComputeOuterPoints | paramak/parametric_components/toroidal_field_coil_princeton_d.py:148-176 | the offset loop: IndexError exactly when there are more slopes than curve points, otherwise the offset outline |
| PrincetonD.Tagging | paramak/parametric_components/toroidal_field_coil_princeton_d.py:186-193 | IndexError on an empty list; otherwise one entry per zipped pair, at that pair's coordinates, tagged spline except the last, which is straight |
| PrincetonD.TagProfile | paramak/parametric_components/toroidal_field_coil_princeton_d.py:186-193 | the tagging loop computes the tagging |
| PrincetonD.ShortSegmentsFail | paramak/parametric_components/toroidal_field_coil_princeton_d.py:161-176 | segments of fewer than two samples give more slopes than curve points, so the profile raises IndexError |
| PrincetonD.CurveEnds | paramak/parametric_components/toroidal_field_coil_princeton_d.py:141-145 | the curve starts at segment 1's far sample and ends at its reflection |
| PrincetonD.OffsetEnds | paramak/parametric_components/toroidal_field_coil_princeton_d.py:161-176 | the outer curve starts at the first offset point and ends at its reflection |
| PrincetonD.CoilProfileOk | paramak/parametric_components/toroidal_field_coil_princeton_d.py:178-210 | for segments of at least two samples the profile succeeds: `4n - 3` inner points, then `4n` outer points in reverse order, and the four inner-leg corners are the ends of the two halves |
| PrincetonD.TaggedHalves | paramak/parametric_components/toroidal_field_coil_princeton_d.py:186-195 | joined halves carry no circle tag and are straight exactly at the end of each half |
| PrincetonD.ProfileShape | paramak/parametric_components/toroidal_field_coil_princeton_d.py:178-197 | the profile has `8n - 3` points, no circle tags, and straight tags exactly at indices `4n - 4` and `8n - 4` |
| PrincetonD.InnerLegSymmetric | paramak/parametric_components/toroidal_field_coil_princeton_d.py:199-210 | the inner-leg corners are `P`, `P` mirrored, `Q` mirrored and `Q`, where `P` is segment 1's far sample and `Q` its offset; they are the profile's points 0, `4n - 4`, `4n - 3` and last |
| PrincetonD.ComputeProfile | paramak/parametric_components/toroidal_field_coil_princeton_d.py:178-210 | the steps of `find_points` compute the specified profile |
| PrincetonDCoil.ToroidalFieldCoilPrincetonD.constructor | paramak/parametric_components/toroidal_field_coil_princeton_d.py:43-94 | the arguments are stored, the workplane is XZ, no points yet, and a single placement angle of 0 |
| PrincetonDCoil.ToroidalFieldCoilPrincetonD.FindPoints | paramak/parametric_components/toroidal_field_coil_princeton_d.py:178-210 | stores the profile and the inner-leg points when the profile succeeds; otherwise raises its error and changes neither |
| PrincetonDCoil.ToroidalFieldCoilPrincetonD.AzimuthPlacementAngle | paramak/parametric_components/toroidal_field_coil_princeton_d.py:96-99 | the getter recomputes the evenly spaced angles for the coil count, stores them when they exist, and returns them |
| PrincetonDCoil.ToroidalFieldCoilPrincetonD.CreateSolid | paramak/parametric_components/toroidal_field_coil_princeton_d.py:224-296 | TypeError without points and IndexError with fewer than two; otherwise the closed grouping drawn from the first point, extruded by half the distance both ways, with the inner leg when asked for, at every evenly spaced angle; the stored angles are those angles on success and unchanged on every error |
| BallReactorBuild.MajorRadius | paramak/parametric_reactors/ball_reactor.py:102-110 | the major radius is the inner equatorial point plus half the plasma thickness |
| BallReactorBuild.MinorRadius | paramak/parametric_reactors/ball_reactor.py:108-113 | the minor radius is half the plasma thickness |
| BallReactorBuild.RadialBuildOf | paramak/parametric_reactors/ball_reactor.py:184-225 | the layers start at 0 and each starts where the previous one ends; across the plasma the first wall starts after both gaps and the plasma; every layer is as wide as its thickness |
| BallReactorBuild.RadialBuildMonotone | paramak/parametric_reactors/ball_reactor.py:184-225 | with non-negative thicknesses the layer boundaries never decrease outward |
| BallReactorBuild.DivertorIndependent | paramak/parametric_reactors/ball_reactor.py:205-215 | the divertor thickness moves only the divertor's end; every other layer stays put |
| BallReactorBuild.PlasmaFitsRadialBuild | paramak/parametric_reactors/ball_reactor.py:102-113 | the plasma's inner edge lies one inner gap beyond the centre-column shield, and its outer edge one outer gap inside the first wall |
| BallReactorBuild.VerticalBuildOf | paramak/parametric_reactors/ball_reactor.py:232-249 | the first wall starts one outer gap above the plasma's high point, the layers stack with their thicknesses, the TF coil reaches the rear wall's top, and the centre-column shield is twice as high |
| BallReactorBuild.OutboardLayersMatch | paramak/parametric_reactors/ball_reactor.py:216-246 | each outboard layer is as thick vertically as radially |
| BallReactorBuild.PfCoilCentres | paramak/parametric_reactors/ball_reactor.py:266-280 | coil `i` is centred half its radial thickness beyond the base radius, at height `top - step (i + 1)` |
| BallReactorBuild.PfCoilSpacing | paramak/parametric_reactors/ball_reactor.py:258-274 | neighbouring coils are one step `2 top / (n + 1)` apart vertically |
| BallReactorBuild.PfCoilSymmetry | paramak/parametric_reactors/ball_reactor.py:258-274 | the coil heights are symmetric about the midplane |
| BallReactorBuild.PfCoilsInside | paramak/parametric_reactors/ball_reactor.py:258-274 | every coil centre lies strictly between `-top` and `top` |
| BallReactorBuild.Max | paramak/parametric_reactors/ball_reactor.py:285-287 | the maximum is an element and bounds every element |
| BallReactorBuild.TfCoilRadius | paramak/parametric_reactors/ball_reactor.py:289-298 | exists exactly when the TF gap and outboard thickness are given; starts at the PF end radius plus the rear-blanket gap, and is as wide as the outboard thickness |
| BallReactorBuild.TfCoilIgnoresTfGap | paramak/parametric_reactors/ball_reactor.py:289-298 | the TF coil's radii do not depend on the value of `pf_coil_to_tf_coil_radial_gap` |
| BallReactorBuild.PfCoilsOf | paramak/parametric_reactors/ball_reactor.py:251-298 | without PF inputs nothing changes; with them, the count is stored, IndexError exactly when there are more coils than radial thicknesses, ValueError exactly for an empty radial list, and on success the centres, start radius, end radius (start plus the largest thickness) and the TF coil radius placed one rear-blanket gap beyond the end radius; on IndexError the centres placed before the missing thickness and nothing else; on ValueError no centres and the start radius, nothing else |
| BallReactorBuild.BallReactor.constructor | paramak/parametric_reactors/ball_reactor.py:77-119 | the arguments are stored with the major and minor radius, and no PF or TF data yet |
| BallReactorBuild.BallReactor.MakeRadialBuild | paramak/parametric_reactors/ball_reactor.py:184-225 | the stored layers are the radial build |
| BallReactorBuild.BallReactor.PlacePfCoils | paramak/parametric_reactors/ball_reactor.py:256-280 | the placing loop stores the count and the spaced centres, or raises IndexError keeping the centres placed so far |
| BallReactorBuild.BallReactor.SetPfCoilRadii | paramak/parametric_reactors/ball_reactor.py:282-298 | stores the start radius, then the end radius and the TF coil radius, or raises ValueError for an empty radial list |
| BallReactorBuild.BallReactor.BuildPfCoils | paramak/parametric_reactors/ball_reactor.py:251-298 | the PF block of the vertical build leaves the layout its specification gives |
| BallReactorBuild.BallReactor.MakeVerticalBuild | paramak/parametric_reactors/ball_reactor.py:227-298 | the gap, the stored heights and the PF layout are the vertical build's and the PF specification's |
| BallReactorBuild.NewBallReactor | paramak/parametric_reactors/ball_reactor.py:77-126 | construction fails exactly when the PF block raises, with its error; otherwise radii, radial build, vertical build and PF layout are those specified |
| Sweeps.StrOrNone | paramak/parametric_shapes/sweep_mixed_shape.py:129-132 | `str` of an optional string is `"None"` or the string |
| Sweeps.CheckPathWorkplane | paramak/parametric_shapes/sweep_mixed_shape.py:102-113 | passes exactly for a value with the workplane's first letter that is not the workplane; IndexError for an empty name, ValueError with the source's two messages otherwise |
| Sweeps.AcceptedPathPlanes | paramak/parametric_shapes/sweep_mixed_shape.py:102-113 | among the six plane names, a path plane is accepted exactly when it shares the first axis and not the second, so each workplane admits exactly one path plane |
| Sweeps.SamePlaneRefused | tests/test_SweepStraightShape.py:179-193 | asking for path plane XY along workplane XY raises ValueError "workplane and path_workplane must be different" |
| Sweeps.SweepDistance | paramak/parametric_shapes/sweep_mixed_shape.py:151-156 | IndexError for an empty path; otherwise the last point's second coordinate minus the first's, negated for XZ, YX and ZY |
| Sweeps.ReversedPathDistance | paramak/parametric_shapes/sweep_mixed_shape.py:151-156 | the reversed path sweeps the opposite distance |
| Sweeps.TranslatedPathDistance | paramak/parametric_shapes/sweep_mixed_shape.py:151-156 | a translated path sweeps the same distance |
| Sweeps.EndsDecideDistance | paramak/parametric_shapes/sweep_mixed_shape.py:151-156 | only the path's two ends matter |
| Sweeps.RisingPathSign | paramak/parametric_shapes/sweep_mixed_shape.py:153-156 | a rising path sweeps a negative distance exactly in the flipped planes |
| Sweeps.ReversePath | paramak/parametric_shapes/sweep_mixed_shape.py:151 | the reversed path has the same points in opposite order |
| SweepMixed.DrawRun | paramak/parametric_shapes/sweep_mixed_shape.py:184-193 | a spline run becomes a spline, a straight run a polyline, both through all its points; a circle run is an arc through its first three points, and IndexError when it has fewer |
| SweepMixed.DrawRuns | paramak/parametric_shapes/sweep_mixed_shape.py:184-193 | the face fails exactly when some run fails, with IndexError; otherwise one drawing operation per run |
| SweepMixed.ArcUsesThreePoints | paramak/parametric_shapes/sweep_mixed_shape.py:189-193 | points of a circle run after the third do not change the arc |
| SweepMixed.DrawRunsFailsOnPrefix | paramak/parametric_shapes/sweep_mixed_shape.py:184-193 | a failing run fails the whole face |
| SweepMixed.SweepOf | paramak/parametric_shapes/sweep_mixed_shape.py:148-206 | succeeds exactly when the path is non-empty, the profile has at least two points and every run of the closed grouping can be drawn; every failure is IndexError, for an empty path first, then for fewer than two points; on success the closed grouping drawn run by run, the signed distance, and the stored attributes |
| SweepMixed.SweepFace | paramak/parametric_shapes/sweep_mixed_shape.py:159-193 | the swept face's runs alternate and chain, count one run per tag change plus one, start and end at the first point, and cover the profile except its final entry |
| SweepMixed.SweepMixedShape.constructor | paramak/parametric_shapes/sweep_mixed_shape.py:41-70 | the attributes are stored, with no solid cached |
| SweepMixed.SweepMixedShape.SetPathWorkplane | paramak/parametric_shapes/sweep_mixed_shape.py:102-113 | stores the value exactly when `CheckPathWorkplane` passes, and otherwise returns its error |
| SweepMixed.SweepMixedShape.DrawFace | paramak/parametric_shapes/sweep_mixed_shape.py:184-193 | the drawing loop computes the face drawing |
| SweepMixed.SweepMixedShape.CreateSolid | paramak/parametric_shapes/sweep_mixed_shape.py:139-208 | records the current digest, returns the sweep, and caches it only when it succeeds |
| SweepMixed.SweepMixedShape.Solid | paramak/parametric_shapes/sweep_mixed_shape.py:80-84 | rebuilds exactly when the current digest differs from the recorded one; otherwise returns the cached solid untouched |
| SweepMixed.HashDependsOnAttributes | paramak/parametric_shapes/sweep_mixed_shape.py:123-137 | shapes that agree on points, path points, path workplane, workplane, name, color, material tag, STEP file name, placement and cut have the same hash, whatever their recorded hash and cached solid |
| SweepMixed.NewSweepMixedShape | paramak/parametric_shapes/sweep_mixed_shape.py:41-71 | construction fails exactly when the path workplane is refused, with that error |
| SweepMixed.ReadAfterCreate | paramak/parametric_shapes/sweep_mixed_shape.py:80-84 | after a build, reading `solid` returns what was built, or the stale solid when the build failed, and a second read returns the same |
| SweepCircle.CircleSweepOf | paramak/parametric_shapes/sweep_circle_shape.py:175-198 | IndexError for an empty path; otherwise a circle of the radius at both ends, the signed distance apart |
| SweepCircle.SweepCircleShape.constructor | paramak/parametric_shapes/sweep_circle_shape.py:42-73 | the attributes are stored, with no points and no solid |
| SweepCircle.SweepCircleShape.SetPoints | paramak/parametric_shapes/sweep_circle_shape.py:81-88 | only `None` is stored; anything else raises ValueError with the source's message |
| SweepCircle.SweepCircleShape.SetPathWorkplane | paramak/parametric_shapes/sweep_circle_shape.py:128-139 | stores the value exactly when `CheckPathWorkplane` passes |
| SweepCircle.SweepCircleShape.CreateSolid | paramak/parametric_shapes/sweep_circle_shape.py:166-198 | records the digest, returns the sweep, and caches it only when it succeeds |
| SweepCircle.SweepCircleShape.Solid | paramak/parametric_shapes/sweep_circle_shape.py:98-102 | rebuilds exactly when the digest changed |
| SweepCircle.FingerprintAddsRadius | paramak/parametric_shapes/sweep_circle_shape.py:149-164 | the circle fingerprint is the mixed shape's fingerprint of the same attributes with the radius inserted after the profile |
| SweepCircle.HashDependsOnAttributes | paramak/parametric_shapes/sweep_circle_shape.py:149-164 | shapes that agree on the eleven hashed attributes, the radius among them, have the same hash |
| SweepCircle.SweepCircleShape.SetRadius | paramak/parametric_shapes/sweep_circle_shape.py:112-114 | stores the radius |
| SweepCircle.NewSweepCircleShape | paramak/parametric_shapes/sweep_circle_shape.py:42-73 | `points` other than `None` raises ValueError first; then construction fails exactly when the path workplane is refused |
| SweepCircle.ResizeAfterCreate | paramak/parametric_shapes/sweep_circle_shape.py:98-114 | after a new radius, a read rebuilds with that radius when the digest changed, and serves the cached solid when it did not |
| InnerTfCoils.PlacementFor | paramak/parametric_components/inner_tf_coils_flat.py:196-216 | ValueError when neither is given; a count alone gives evenly spaced angles; a single angle raises TypeError; a list alone fixes the count; a list and a count must agree; on success one angle per coil |
| InnerTfCoils.PlacementSettled | paramak/parametric_components/inner_tf_coils_flat.py:196-216 | once settled, the angles and the count settle to themselves again |
| InnerTfCoils.CountOnly | paramak/parametric_components/inner_tf_coils_flat.py:201-209 | a count alone succeeds exactly when it is non-negative, and then angle `i` is `360 i / n` |
| InnerTfCoils.SixFlatCoils | tests/test_parametric_components/test_InnerTfCoilsCircular.py:34-35 | six coils by count sit at 0, 60, 120, 180, 240 and 300 degrees |
| InnerTfCoils.AnglesOnly | paramak/parametric_components/inner_tf_coils_flat.py:212-213 | a list alone is kept and sets the count to its length |
| InnerTfCoils.FlatProfile | paramak/parametric_components/inner_tf_coils_flat.py:145-192 | ZeroDivisionError and the arcsine's domain error exactly in their cases, inner circle first; success exactly when neither applies to either circle, with four corners: inner start, inner start turned by the inner sector angle, outer start turned by the outer sector angle, outer start |
| InnerTfCoils.ArcsFillCircumference | paramak/parametric_components/inner_tf_coils_flat.py:145-152 | `n` coil arcs and `n` gaps go exactly once around each circle |
| InnerTfCoils.StartSideLevel | paramak/parametric_components/inner_tf_coils_flat.py:145-175 | the first side is level: both its corners lie half a gap off the mid-plane of the gap before the coil |
| InnerTfCoils.CornersOnCircles | paramak/parametric_components/inner_tf_coils_flat.py:156-185 | the two inner corners lie on the inner circle and the two outer corners on the outer circle |
| InnerTfCoils.RotationKeepsNorm | paramak/parametric_components/inner_tf_coils_flat.py:160-185 | turning a corner keeps its distance from the axis |
| InnerTfCoils.InnerTfCoilsFlat.constructor | paramak/parametric_components/inner_tf_coils_flat.py:84-89 | the extrusion distance is the height, whatever distance was passed |
| InnerTfCoils.InnerTfCoilsFlat.FindAzimuthPlacementAngle | paramak/parametric_components/inner_tf_coils_flat.py:196-216 | stores the settled angles and count, or returns the error and changes neither |
| InnerTfCoils.InnerTfCoilsFlat.FindPoints | paramak/parametric_components/inner_tf_coils_flat.py:142-194 | stores the four-corner profile, or returns its error; a missing count raises TypeError |
| InnerTfCoils.NewInnerTfCoilsFlat | paramak/parametric_components/inner_tf_coils_flat.py:84-92 | fails with the placement rule's error, then with the profile's; otherwise angles, count, points and distance are those specified |

## Left out

- All CadQuery work is left out: workplanes, spline, polyline and arc drawing, extrusion, sweep, rotation, union, cut and intersect, volumes, and the STEP export of the cutting wedge. These are foreign kernel calls and file I/O. Drawings are recorded as data (`CoilSketch`, `MixedSweep`, `CircleSweep`).
- The Princeton-D segments come from `odeint` and `minimize`. They are inputs, and the model assumes nothing about their values.
- The offset normals' square roots are inputs constrained by `NormsFor`.
- Sine, cosine and arcsine are given functions. Their identities are preconditions of the lemmas that need them.
- The blake2b digest and Python's `str` of lists, numbers and CAD objects are given functions (`Sweeps.Renderer`). So the model proves only that the hash is a function of the listed attributes in their order, not that different attributes give different hashes.
- Floating-point rounding is not modelled, because reals are exact.
- `BlanketFP`, `Plasma`, `CenterColumnShieldCylinder`, `PoloidalFieldCoilSet`, `ToroidalFieldCoilRectangle` and the other components a ball reactor assembles are left out. So are their construction and the reactor's component list. The plasma's high point is an input.
- The self-recursive `pf_coil_radial_thickness` and `pf_coil_vertical_thickness` properties of the ball reactor (ball_reactor.py:135-159) are left out. The constructor never reaches them, and they would never return.
- The 360-degree rotation warning of the ball reactor is left out, because it is output only.
- The `Shape` base class is not part of this model. That includes its setters for `points`, `workplane` and `azimuth_placement_angle`, its `azimuth_start_angle`, and the `ExtrudeStraightShape` base of the flat coils. The modelled attributes are stored as given.
- Python's dynamic typing is modelled only where the source relies on it: a single placement angle versus a list, and a missing coil count. Other wrongly typed arguments are excluded by the types.
- The gaps of the Princeton-D profile between the inner and outer curves, and the placement of each rotated copy, are left to the CAD kernel. The recorded drawing (`CoilSketch`) keeps the start point, the runs, the extrusion depth, the inner leg and the angles.
- extruded_spline_shape.py is not part of this model.
- The far side of a flat inner TF coil (its second and third corners) is characterised only as a rotation of the first side. The model does not prove how far it lies from the next gap's mid-plane, which with the source's formulas is not exactly half a gap.
