# Leo Triplet 3D view: a Dafny model of its arithmetic

The program draws the Leo Triplet galaxy group (NGC 3628, M66, M65) in 3D.
It takes each galaxy's right ascension (hours), declination (degrees) and
recession velocity (km/s) from a fixed table. It turns them into offsets
from NGC 3628 in kpc: +x East, +y North, +z away from Earth. Then it
re-centres the three offsets on their centroid.

Beside the galaxies it draws a marker at the centroid, a marker toward
Earth, a synthetic tidal tail leaving NGC 3628 and a dashed triangle joining
the galaxies, each edge labelled with its length. A scroll-wheel handler
zooms by rescaling the three axis intervals.

This project models that arithmetic over Dafny's `real`:

- `vectors.dfy` (module `Vectors`): 3-vectors, sums, means and translations,
  and the norm as a relation `IsNormOf(n, v)`.
- `galaxy_data.dfy` (module `GalaxyData`): the catalogue and the offset
  transform. It has the two dictionary-filling loops as methods, the
  centroid, and the sign checks of `verify_conventions`.
- `tidal_tail.dfy` (module `TidalTail`): `TidalTail.generate`. The Beta and
  Gaussian draws are parameters. The noise array is corrected in place.
- `plotter.dfy` (module `Plotter`): the size and opacity ramp of the tail
  points, and the triangle's edges, midpoints and lengths. It also has the
  scroll zoom, as a class `Axes3D` that holds the axis limits.

Two values are parameters because they come from transcendental functions.
`cosRefDec` is cos(radians(dec of the reference galaxy)); only
`cosRefDec > 0` is ever assumed. `dirNorm` is the norm of the configured
tail direction; it is required to satisfy `IsNormOf`.

Tail points farther from NGC 3628 are drawn larger and more opaque
(`leo_triplet_3d.py:448-451`); `Plotter.RampMonotone` and
`Plotter.RampAtFarthest` state this.

## Model

| member | source | states |
|---|---|---|
| `Vectors.Mean` | leo_triplet_3d.py:226-227 | the centroid is the vector whose n-fold multiple is the sum of the n offsets |
| `Vectors.SumAboutMeanIsZero` | leo_triplet_3d.py:224-239 | subtracting the mean from every vector leaves vectors that sum to the zero vector |
| `Vectors.MeanOfShift` | leo_triplet_3d.py:226-227 | translating every vector by d translates the mean by d |
| `Vectors.NormUnique` | leo_triplet_3d.py:430 | a norm value is determined by its vector, so each printed distance is well defined |
| `GalaxyData.Offset` | leo_triplet_3d.py:208-217 | the transform of one galaxy: y is positive (negative) exactly when its declination is larger (smaller) than the reference's, z likewise for the velocity, and x is zero when the right ascensions agree; the x sign rule is `OffsetSignConventions` |
| `GalaxyData.OffsetOfReferenceIsZero` | leo_triplet_3d.py:199-219 | NGC 3628's offset from itself before centring is the zero vector |
| `GalaxyData.OffsetSignConventions` | leo_triplet_3d.py:207-217 | with a positive cosine factor, x > 0 iff the galaxy is east of the reference (larger RA), y > 0 iff north (larger Dec), z > 0 iff receding faster; likewise for < 0 |
| `GalaxyData.Offsets` | leo_triplet_3d.py:206-219 | one offset per catalogue row, in catalogue order (the definition; its sum is what `Center` and `CenteredSumIsZero` are about) |
| `GalaxyData.Center` | leo_triplet_3d.py:224-227 | the centroid times the number of galaxies equals the sum of the offsets |
| `GalaxyData.PositionsRelativeTo` | leo_triplet_3d.py:194-221 | the dictionary filled by the loop has exactly the catalogue's names as keys, and each holds that galaxy's offset (RA hours x15 x187 x cos, Dec x187, velocity x0.1, each minus the reference's) |
| `GalaxyData.SubtractCenter` | leo_triplet_3d.py:235-238 | the dictionary filled by the loop has the catalogue's names as keys, and each holds the galaxy's offset minus the centroid |
| `GalaxyData.GetPositions` | leo_triplet_3d.py:230-239 | the positions are the offsets minus their centroid, keyed by name, and they sum to the zero vector |
| `GalaxyData.Centered` | leo_triplet_3d.py:235-237 | position i is offset i minus the centroid, in catalogue order (the definition; `CenteredSumIsZero` states its property) |
| `GalaxyData.CenteredSumIsZero` | leo_triplet_3d.py:224-239 | after the centroid is subtracted, the three position vectors sum to the zero vector |
| `GalaxyData.OffsetChangeOfReference` | leo_triplet_3d.py:197-217 | changing the reference galaxy from r1 to r2 moves every offset by minus r2's offset from r1 |
| `GalaxyData.CenteringIndependentOfReference` | leo_triplet_3d.py:224-239 | for the same cosine factor, the centred positions do not depend on which galaxy is the reference |
| `GalaxyData.TripletConventions` | leo_triplet_3d.py:278-287 | for the fixed RA/Dec/velocity constants and any positive cosine factor, NGC 3628 is north of the centroid, M66 east and south, M65 west and south |
| `GalaxyData.CheckConvention` | leo_triplet_3d.py:278-287 | a position passes exactly when it is on the asserted side of the centroid: NGC 3628 north, M66 east and south, M65 west and south; any other name passes |
| `GalaxyData.VerifyConventions` | leo_triplet_3d.py:242-297 | the check passes iff every per-galaxy assertion holds on the centred positions, and it always passes when the cosine factor is positive; otherwise it fails with the message of the first failed assertion |
| `TidalTail.Curvature` | leo_triplet_3d.py:345-350 | the curvature's z component (the flaring) is never negative, and the curvature vanishes exactly at t = 0.5 |
| `TidalTail.CurvatureSymmetric` | leo_triplet_3d.py:346-350 | the curvature at 0.5 + s and at 0.5 - s have opposite x and y and equal z |
| `TidalTail.Direction` | leo_triplet_3d.py:328-329 | for a positive norm and length, the scaled direction has the sign of the configured direction on every axis; its length is `DirectionHasTailLength` |
| `TidalTail.UnitDirection` | leo_triplet_3d.py:342 | for a positive norm and length, the unit direction has the sign of the configured direction on every axis; its unit length is `UnitDirectionIsUnit` |
| `TidalTail.DefaultDirectionEastNorth` | leo_triplet_3d.py:99-100 | the configured tail, as scaled at line 329 and as the unit vector of line 342, heads East (+x), North (+y) and slightly toward Earth (-z), for whatever value the norm takes |
| `TidalTail.DirectionHasTailLength` | leo_triplet_3d.py:328-329 | the normalised direction scaled by TAIL_LENGTH has norm TAIL_LENGTH |
| `TidalTail.UnitDirectionIsUnit` | leo_triplet_3d.py:341-342 | the direction divided by its norm is a unit vector |
| `TidalTail.Perpendicular` | leo_triplet_3d.py:343 | adding the removed component back gives the noise, and the remainder's component along u is the noise's times 1 - u.u |
| `TidalTail.PerpendicularIsOrthogonal` | leo_triplet_3d.py:341-343 | for a unit u, the projected noise n - (n.u)u has zero dot product with u |
| `TidalTail.TailPoint` | leo_triplet_3d.py:334-352 | for any unit vector u and any noise, a point's component along u, with the curvature and the anchor removed, is t times the direction's: the projected noise adds nothing along u (`TailPointAlongAxis` applies it to the tail's unit direction) |
| `TidalTail.SecondNormIsTailLength` | leo_triplet_3d.py:329-342 | any norm value of the scaled direction is TAIL_LENGTH, so dividing by TAIL_LENGTH is dividing by the second norm call's result |
| `TidalTail.DefaultTailIsUsable` | leo_triplet_3d.py:328-342 | for the configured direction (1, 0.15, -0.1) and length 86, every norm value is positive and the length is positive, so the divisions in generate are defined |
| `TidalTail.TailPointAlongAxis` | leo_triplet_3d.py:334-352 | without the curvature, a tail point lies exactly t x TAIL_LENGTH along the unit direction from NGC 3628; the noise adds nothing along the tail |
| `TidalTail.Generate` | leo_triplet_3d.py:315-352 | returns exactly TAIL_POINTS points, point i being the anchor plus t_i x direction plus the projected noise i plus the curvature at t_i; without the curvature, each lies t_i x TAIL_LENGTH along the tail |
| `Plotter.MaxOf` | leo_triplet_3d.py:448 | the maximum distance is one of the distances and no distance exceeds it |
| `Plotter.Sizes` | leo_triplet_3d.py:448 | one size per distance (the ramp 1 + 3 d/max; its bounds, order and maximum are `RampBounds`, `RampMonotone`, `RampAtFarthest`) |
| `Plotter.Alphas` | leo_triplet_3d.py:451 | one opacity per distance (the ramp TAIL_ALPHA (0.5 + 0.5 d/max); its bounds, order and maximum are `RampBounds`, `RampMonotone`, `RampAtFarthest`) |
| `Plotter.TailDistances` | leo_triplet_3d.py:447-448 | when each distance is the norm of a tail point's offset from NGC 3628, the distances are non-negative and their maximum is zero exactly when every tail point sits on the galaxy |
| `Plotter.RampBounds` | leo_triplet_3d.py:446-451 | with non-negative distances and a positive maximum, every size lies in [1, 4] and every alpha in [0.5 x TAIL_ALPHA, TAIL_ALPHA] |
| `Plotter.DefaultRampBounds` | leo_triplet_3d.py:446-451 | with the configured TAIL_ALPHA of 0.2, every opacity lies in [0.1, 0.2] and every size in [1, 4] |
| `Plotter.RampMonotone` | leo_triplet_3d.py:448-451 | a farther point gets a size and an alpha at least those of a nearer one |
| `Plotter.RampAtFarthest` | leo_triplet_3d.py:448-451 | the farthest point gets size 4 and alpha TAIL_ALPHA |
| `Plotter.EdgesVisitEachPairOnce` | leo_triplet_3d.py:414 | the edges (0,1), (1,2), (2,0) join distinct galaxies and cover each unordered pair of the three exactly once |
| `Plotter.Midpoint` | leo_triplet_3d.py:429 | the label point is halfway along the edge: it is as far from p1 as p2 is from it |
| `Plotter.Label` | leo_triplet_3d.py:429-430 | a label sits at the edge's midpoint, and its squared length is non-negative and zero exactly when the endpoints coincide |
| `Plotter.TriangleLabels` | leo_triplet_3d.py:414-430 | one label per edge, in edge order, each at its edge's midpoint and with zero length exactly when the edge's endpoints coincide |
| `Plotter.LabelIsDistance` | leo_triplet_3d.py:429-430 | each edge label's squared length is non-negative, is zero iff the endpoints coincide, and n is the edge's norm iff n is its non-negative root; such a norm is zero iff the endpoints coincide |
| `Plotter.LabelSymmetric` | leo_triplet_3d.py:429-430 | swapping an edge's endpoints changes neither its label point nor its distance |
| `Plotter.ScrollScale` | leo_triplet_3d.py:541 | the scale is positive, and it is below one (a zoom in) exactly when the button is "up" |
| `Plotter.ScrollScalesReciprocal` | leo_triplet_3d.py:541 | the factors for scrolling up and for any other button multiply to one |
| `Plotter.Rescale` | leo_triplet_3d.py:548-551 | rescaling keeps the interval's midpoint and multiplies its width by the scale |
| `Plotter.RescaleCompose` | leo_triplet_3d.py:548-551 | two rescalings in a row equal one rescaling by the product of the scales |
| `Plotter.RescaleAll` | leo_triplet_3d.py:543-551 | every axis interval keeps its midpoint and has its width multiplied by the scale |
| `Plotter.ScrollRoundTrip` | leo_triplet_3d.py:540-551 | scrolling up then down, or down then up, restores every axis interval |
| `Plotter.Axes3D.constructor` | leo_triplet_3d.py:500-504 | the axes start as the cube [-AXIS_LIMIT, AXIS_LIMIT] on x, y and z |
| `Plotter.Axes3D.OnScroll` | leo_triplet_3d.py:540-551 | each of the three axis intervals is replaced by its rescaled version, which keeps the midpoint and multiplies the width by the scale; nothing else changes |

## Left out

- Drawing is not modelled. That covers `setup_figure`, the galaxy markers and labels, `plot_center`, `plot_earth`, and `setup_axes` apart from its axis limits. It also covers `tight_layout`, `show`, `save`, `draw_idle` and `mpl_connect`. These are calls into the plotting library, which is not part of this model.
- Random number generation is not modelled. The Beta samples `t` and the Gaussian noise vectors are parameters of `TidalTail.Generate`. So `TAIL_WIDTH`, their standard deviation, is not modelled. So nothing is proved about where the random tail points fall as a whole. The docstring of `generate` (leo_triplet_3d.py:317) says the tail extends East and North. The model proves two deterministic parts of that: `TidalTail.DefaultDirectionEastNorth` gives the direction, and `TidalTail.TailPointAlongAxis` gives the distance along it.
- Floating-point rounding is not modelled; all arithmetic is exact over `real`.
- cos(radians(dec)) is not computed. It is the parameter `cosRefDec`.
- `np.linalg.norm` is not computed, and its three calls are treated differently:
  - The norm of the configured direction (line 329) is the parameter `dirNorm` of `TidalTail.Generate`, required to satisfy `IsNormOf`.
  - The second call (line 342) is not made. `TidalTail.Generate` divides by `TAIL_LENGTH` instead. `TidalTail.SecondNormIsTailLength` proves every norm value of the scaled direction equals `TAIL_LENGTH`, but `Generate` itself does not call it.
  - The distances of the size and opacity ramp (line 447) are an arbitrary sequence `ds` in `Plotter.Sizes` and `Plotter.Alphas`. The ramp lemmas only require them to be non-negative. `Plotter.TailDistances` shows norms of the tail offsets meet that requirement.
- The square root in the triangle's distance labels is not computed. A label carries the squared length, and `Plotter.LabelIsDistance` ties any norm value to it.
- Plotter.MaxOf, Plotter.Sizes, Plotter.Alphas: require at least one distance. On an empty array, `distances.max()` raises ValueError, which is not modelled. With TAIL_POINTS = 2500 the case does not arise.
- Plotter.Sizes, Plotter.Alphas: require a non-zero maximum distance. With every distance zero, numpy divides by zero and yields NaN, which is not modelled.
- GalaxyData.Center, GalaxyData.GetPositions: require a non-empty catalogue. The mean of no vectors is NaN in numpy, which is not modelled.
- TidalTail.Generate: requires a non-zero configured direction and a positive tail length. With a zero direction or length, numpy divides by a zero norm and yields NaN. The requirement also rules out a negative length, which yields no NaN in the program: it reverses the unit direction. The configured length is 86, and `TidalTail.DefaultTailIsUsable` shows the configuration meets the requirement.
- TidalTail.Generate: takes the anchor from the position map, which must hold "NGC 3628"; the program always passes such a map.
- GalaxyData.CenteringIndependentOfReference: holds for one fixed cosine factor. In the program the factor is the cosine of the reference's own declination, so it changes with the reference.
- The printed report of `verify_conventions` and `main` is not modelled: banners, formatted coordinates, references and the final checklist. Neither is the top-level catch-and-re-raise. `get_tail_direction` is only printed and is left out too.
- Configuration used only for drawing is left out: figure size, marker sizes, colours and the tail colour. `TAIL_ALPHA` is kept in `TidalTail.DefaultTail` and used by `Plotter.DefaultRampBounds`. `DISTANCE` is kept as a constant but, as in the program, nothing uses it.
- Scroll event dispatch and redrawing are not modelled. `OnScroll` takes the event's button name.
- GalaxyData.GetPositions: its re-centring loop is a method of its own, `SubtractCenter`.
- TidalTail.Generate: fills the curvature row by row, where the program assigns its three columns in three vectorised statements; the values are the same.
