/** Raster values the curvature kernel reads and writes: a cell is either a
    measured value or the no-data marker, and a grid is a dense row-major
    sequence of rows. Rows are indexed by `r` (the raster's y) and columns by
    `c` (the raster's x), so the sample `OmsCurvatures.process` reads at
    `(c, r)` is `cells[r][c]` here.
 */
module Raster {

  /** A nullable input field of `OmsCurvatures`: `None` is a coverage that
      was never set. */
  datatype Option<T> = None | Some(value: T)

  /** One raster sample: a value or the no-data marker. */
  datatype Cell = NoData | Val(v: real)

  type Grid = seq<seq<Cell>>

  /** Grid geometry as the region parameters of a coverage report it. */
  datatype Region = Region(nCols: nat, nRows: nat, xRes: real, yRes: real)

  /** An elevation model: its geometry and its samples. */
  datatype Dem = Dem(region: Region, cells: Grid)

  predicate IsGrid(g: Grid, nRows: nat, nCols: nat)
  {
    |g| == nRows && forall r :: 0 <= r < nRows ==> |g[r]| == nCols
  }

  /** What the geometry provider guarantees: the samples fill the region and
      the cell spacing is positive. */
  predicate WellFormed(dem: Dem)
  {
    IsGrid(dem.cells, dem.region.nRows, dem.region.nCols)
    && dem.region.xRes > 0.0 && dem.region.yRes > 0.0
  }

  predicate InGrid(region: Region, r: int, c: int)
  {
    0 <= r < region.nRows && 0 <= c < region.nCols
  }

  /** Cells with a full 3x3 neighbourhood: the only ones the kernel visits. */
  predicate Interior(region: Region, r: int, c: int)
  {
    1 <= r <= region.nRows - 2 && 1 <= c <= region.nCols - 2
  }

  predicate OnBorder(region: Region, r: int, c: int)
  {
    InGrid(region, r, c)
    && (r == 0 || r == region.nRows - 1 || c == 0 || c == region.nCols - 1)
  }

  /** The number a sampler returns for a cell: the value itself, or the
      no-data constant `novalue` that then takes part in any arithmetic. */
  function Sample(cell: Cell, novalue: real): real
  {
    match cell
    case Val(v) => v
    case NoData => novalue
  }

  /** Whether a cell reads as no-data: the marker itself, or a value equal
      to the no-data constant, which a double raster cannot tell apart from
      the marker. */
  predicate IsNovalue(cell: Cell, novalue: real)
  {
    cell.NoData? || cell.v == novalue
  }

  /** The cell a double raster holds after `setSample(x)`: a value equal to
      the no-data constant reads back as no-data. */
  function Store(x: real, novalue: real): (cell: Cell)
    ensures Sample(cell, novalue) == x
    ensures IsNovalue(cell, novalue) <==> x == novalue
    ensures cell.Val? <==> x != novalue
  {
    if x == novalue then NoData else Val(x)
  }

  /** Storing what a cell samples to gives the cell back, for every cell in
      the one representation `Store` produces (no `Val(novalue)`). */
  lemma StoreSample(cell: Cell, novalue: real)
    requires cell != Val(novalue)
    ensures Store(Sample(cell, novalue), novalue) == cell
  {
  }

  /** A freshly allocated output raster, every cell set to no-data. */
  function Blank(nRows: nat, nCols: nat): (g: Grid)
    ensures IsGrid(g, nRows, nCols)
    ensures forall r, c :: 0 <= r < nRows && 0 <= c < nCols ==> g[r][c] == NoData
  {
    seq(nRows, _ => seq(nCols, _ => NoData))
  }
}
