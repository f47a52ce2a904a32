# Terrain curvatures from an elevation raster

This project models the curvature kernel of the JGrasstools `OmsCurvatures`
module in Dafny. The kernel makes one row-major pass over an elevation
raster (a DEM, digital elevation model). At every interior cell it applies a
3x3 finite-difference stencil and writes three derived rasters:

- profile curvature, the change of slope along the steepest descent;
- planar curvature, the curvature of the contour line;
- tangential curvature, the curvature across the slope.

Files:

- `raster.dfy` (module `Raster`): cells are `NoData | Val(real)`. It also holds
  the region geometry (columns, rows, x and y resolution), the elevation
  model, and the no-data-filled output raster.
- `stencils.dfy` (module `Stencils`): the per-cell part. It holds the first
  and second central differences, the `p == 0` guard, the three curvature
  formulas, and the algebraic properties of these formulas.
- `oms_curvatures.dfy` (module `OmsCurvatures`): the pass. It covers the
  interior-only sweep, the centre-cell no-data test, per-row cancellation,
  progress reporting, and the properties of the three output layers.

Modelling choices:

- Elevations and results are `real`. `Math.pow(x, 2.0)` is `Square(x)`, which is `x * x`.
- The fractional powers `Math.pow(p, 1.5)`, `Math.pow(q, 0.5)` and
  `Math.pow(q, 1.5)` come from a parameter `pow`. The only requirement on
  it (`PositivePow`) is that it is positive for positive arguments.
- The numeric value of the no-data constant `doubleNovalue` lives in
  `JGTConstants`, which is not part of this model. It is the parameter
  `novalue`. The sampler returns it for a no-data cell, and a no-data
  neighbour then enters the arithmetic as that number. Only the centre cell
  is tested for no-data (lines 109-114 and 127-130).
- A double raster cannot tell a value equal to `novalue` from no-data. So
  `IsNovalue` treats `Val(novalue)` as no-data, as the centre test
  `isNovalue(elevation)` at line 110 does. `Store` writes a result equal to
  `novalue` as `NoData`, which is how `setSample` at lines 147-149 reads
  back.
- As in `OmsCurvatures.process`, `sx` comes from the row neighbours `r±1` and is divided
  by `xRes`, and `sy` comes from the column neighbours `c±1` and is divided
  by `yRes` (lines 118-119).
- Cancellation is an oracle `canceled: nat -> bool`. Poll `k < RowCount`
  comes before row `k+1`, and poll `RowCount` comes after `pm.done()`.
  `RowCount` is `nRows-2`, or 0 when the raster has fewer than two rows.
  Progress calls are returned as a trace of `BeginTask`, `Worked` and
  `TaskDone` events.
- `checkNull(inElev)` is modelled by an `Option<Dem>` input. A missing input
  gives the outcome `NullInput` with no progress events.
- Rasters are `seq<seq<Cell>>` values, indexed `cells[r][c]`. This is the
  sample `OmsCurvatures.process` reads at `(c, r)`.

## Model

| member | source | states |
|---|---|---|
| Raster.Blank | hortonmachine/src/main/java/org/jgrasstools/hortonmachine/modules/geomorphology/curvatures/OmsCurvatures.java:91-93 | a new output raster has the input's rows and columns, and every cell is no-data |
| Raster.Store | hortonmachine/src/main/java/org/jgrasstools/hortonmachine/modules/geomorphology/curvatures/OmsCurvatures.java:147-149 | a result written to a double raster reads back as the same number, and it reads as no-data exactly when it equals the no-data value |
| Stencils.StencilByOffsets | hortonmachine/src/main/java/org/jgrasstools/hortonmachine/modules/geomorphology/curvatures/OmsCurvatures.java:109-130 | a neighbourhood is fully determined by its nine samples at row and column offsets -1, 0 and 1 |
| Stencils.Slope2ZeroIff | hortonmachine/src/main/java/org/jgrasstools/hortonmachine/modules/geomorphology/curvatures/OmsCurvatures.java:118-122 | `p = sx² + sy²` is never negative, and it is zero exactly when both central first differences are zero (both directions) |
| Stencils.DenominatorsPositive | hortonmachine/src/main/java/org/jgrasstools/hortonmachine/modules/geomorphology/curvatures/OmsCurvatures.java:136-144 | once `p > 0`, the denominators `p^1.5`, `p·q^0.5` and `p·q^1.5` are all positive, so none of the three divisions can be by zero |
| Stencils.Combine | hortonmachine/src/main/java/org/jgrasstools/hortonmachine/modules/geomorphology/curvatures/OmsCurvatures.java:122-145 | if `p == 0`, all three values are 0; otherwise each value times its denominator gives back its numerator, and each value has its numerator's sign |
| Stencils.Curvature | hortonmachine/src/main/java/org/jgrasstools/hortonmachine/modules/geomorphology/curvatures/OmsCurvatures.java:118-145 | for one cell: a zero gradient gives three zeros; otherwise planar and tangential both carry the sign of the shared contour numerator, profile carries the sign of its own numerator, and each value times its denominator gives back its numerator |
| Stencils.LevelTakesGuard | hortonmachine/src/main/java/org/jgrasstools/hortonmachine/modules/geomorphology/curvatures/OmsCurvatures.java:118-125 | a level neighbourhood has `p == 0`, so it takes the guarded branch |
| Stencils.TiltedPlaneSkipsGuard | hortonmachine/src/main/java/org/jgrasstools/hortonmachine/modules/geomorphology/curvatures/OmsCurvatures.java:118-122 | a plane that rises along rows or columns has `p > 0`, so it reaches the formulas |
| Stencils.PlaneIsLevel | hortonmachine/src/main/java/org/jgrasstools/hortonmachine/modules/geomorphology/curvatures/OmsCurvatures.java:132-144 | on any plane, tilted or level, all three curvatures are 0: the second differences sxx, syy and sxy vanish |
| Stencils.GuardIgnoresDiagonals | hortonmachine/src/main/java/org/jgrasstools/hortonmachine/modules/geomorphology/curvatures/OmsCurvatures.java:122-130 | when `p == 0`, the result does not depend on the four diagonal samples and is all zeros |
| Stencils.PlanarTangentialAgree | hortonmachine/src/main/java/org/jgrasstools/hortonmachine/modules/geomorphology/curvatures/OmsCurvatures.java:136-141 | planar and tangential curvature always have the same sign; planar is zero exactly when `p` or the shared numerator is zero |
| Stencils.RaiseInvariant | hortonmachine/src/main/java/org/jgrasstools/hortonmachine/modules/geomorphology/curvatures/OmsCurvatures.java:118-144 | adding a constant to all nine samples leaves all three curvatures unchanged |
| Stencils.InvertNegates | hortonmachine/src/main/java/org/jgrasstools/hortonmachine/modules/geomorphology/curvatures/OmsCurvatures.java:118-144 | negating all nine samples negates all three curvatures |
| Stencils.TransposeInvariant | hortonmachine/src/main/java/org/jgrasstools/hortonmachine/modules/geomorphology/curvatures/OmsCurvatures.java:118-144 | exchanging rows with columns, together with `xRes` and `yRes`, leaves all three curvatures unchanged |
| OmsCurvatures.StencilAt | hortonmachine/src/main/java/org/jgrasstools/hortonmachine/modules/geomorphology/curvatures/OmsCurvatures.java:109-130 | the neighbour at row offset `dr` and column offset `dc` is the raster sample at `(c + dc, r + dr)`, read as a number with no no-data test; this covers the four orthogonal neighbours and the four diagonal ones |
| OmsCurvatures.ComputeRow | hortonmachine/src/main/java/org/jgrasstools/hortonmachine/modules/geomorphology/curvatures/OmsCurvatures.java:108-151 | the inner column loop of one interior row gives no-data at both ends and at centres that read as no-data, and the cell's stored curvatures elsewhere, in all three rows |
| OmsCurvatures.ExpectedIsLayer | hortonmachine/src/main/java/org/jgrasstools/hortonmachine/modules/geomorphology/curvatures/OmsCurvatures.java:91-150 | a raster matches the per-cell reference `Expected` at every cell exactly when it is the layer `IsCurvatureLayer` describes |
| OmsCurvatures.Process | hortonmachine/src/main/java/org/jgrasstools/hortonmachine/modules/geomorphology/curvatures/OmsCurvatures.java:82-161 | a null input fails with no progress. A cancel at any poll gives `Cancelled`, and no cancel gives three rasters. Each raster keeps every border cell no-data, keeps no-data at interior cells whose centre reads as no-data (including a value equal to `novalue`), and holds the cell's curvature elsewhere, with a result equal to `novalue` reading as no-data. Progress is `beginTask(nRows-2)`, then one `worked(1)` per finished row, then `done`; a cancel before row `k+1` stops the trace after `k` ticks, with no `done` from `process()` itself |
| OmsCurvatures.LayerUnique | hortonmachine/src/main/java/org/jgrasstools/hortonmachine/modules/geomorphology/curvatures/OmsCurvatures.java:104-153 | a layer is determined by its input, so repeated runs over the same input publish identical rasters |
| OmsCurvatures.Locality | hortonmachine/src/main/java/org/jgrasstools/hortonmachine/modules/geomorphology/curvatures/OmsCurvatures.java:109-149 | an output cell depends only on the 3x3 neighbourhood of its input cell, plus the resolution; two rasters of different sizes agree at a cell that is interior in both whenever these agree |
| OmsCurvatures.LinearSurfaceIsLevel | hortonmachine/src/main/java/org/jgrasstools/hortonmachine/modules/geomorphology/curvatures/OmsCurvatures.java:109-149 | on a raster whose elevation is affine in row and column, every interior cell of every layer whose elevation is not the no-data value holds 0 |
| OmsCurvatures.FlatFieldIsLevel | hortonmachine/src/main/java/org/jgrasstools/hortonmachine/modules/geomorphology/curvatures/OmsCurvatures.java:109-125 | on a constant-elevation raster, every interior cell takes the `p == 0` branch, and every interior cell of every layer holds 0, or no-data when the elevation itself is the no-data value |

## Left out

- Raster I/O and coverage building are foreign library calls, so they are
  reduced to the region's dimensions and resolution plus a grid of cells.
  This covers `getRegionParamsFromGridCoverage`, `getRandomIterator`,
  `createDoubleWritableRaster`, `buildCoverage` and the coordinate reference
  system. Publishing the three coverages is the `Computed` outcome.
- The `concatOr(outProf == null, doReset)` skip at lines 79-81 is
  framework caching. The OMS annotations and message lookup are framework
  metadata.
- IEEE-754 behaviour is not modelled: rounding, overflow, and NaN or
  Infinity from a near-zero `p` or from a `Math.pow` underflow. Arithmetic
  is over `real`. If `doubleNovalue` is NaN, a no-data neighbour would
  poison the result to NaN; the model instead lets `novalue` enter the
  arithmetic as an ordinary number.
- Stencils.Curvature: the fractional powers are only known to be positive
  for positive arguments. So the contract gives each value through its
  numerator and denominator, not as a closed-form number.
- The model requires positive `xRes` and `yRes`, as the region metadata
  provides them. `OmsCurvatures.process` does not check this itself; a zero resolution
  would divide by zero in floating point. That case is not modelled.
- `isCanceled(pm)` (lines 105 and 156) belongs to the framework base class
  and is not part of this model. It is treated as a side-effect-free poll of
  the monitor. So the trace of a cancelled run covers only the progress
  calls `process()` itself makes; any call `isCanceled` might make on the
  monitor, such as a `done`, is not in it.
- Row-parallel execution is not modelled. The pass is the sequential loop
  of `OmsCurvatures.process`. `Locality` states the independence that a parallel
  version would rely on.
- Other modules of the repository are not modelled.
