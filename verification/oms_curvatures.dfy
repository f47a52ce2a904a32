/** The grid pass of the curvatures module: one row-major sweep over the
    interior of an elevation raster that fills three output rasters (profile,
    planar and tangential curvature), polling for cancellation once per row
    and reporting one unit of progress per finished row.
 */
module OmsCurvatures {
  import opened Raster
  import opened Stencils

  datatype Kind = Profile | Planar | Tangential

  /** The component of a cell's curvatures that one output raster holds. */
  function Component(k: CellCurvature, kind: Kind): real
  {
    match kind
    case Profile => k.prof
    case Planar => k.plan
    case Tangential => k.tang
  }

  /** The 3x3 neighbourhood of an interior cell as the sampler returns it:
      every neighbour is read as a number, with no no-data test, so a
      no-data neighbour contributes `novalue` to the arithmetic. Sample
      `(c + dc, r + dr)` of the raster is `cells[r + dr][c + dc]`. */
  function StencilAt(dem: Dem, novalue: real, r: int, c: int): (s: Stencil)
    requires WellFormed(dem) && Interior(dem.region, r, c)
    ensures forall dr, dc :: -1 <= dr <= 1 && -1 <= dc <= 1 ==>
      At(s, dr, dc) == Sample(dem.cells[r + dr][c + dc], novalue)
  {
    var g := dem.cells;
    Stencil(Sample(g[r][c], novalue),
            Sample(g[r + 1][c], novalue), Sample(g[r - 1][c], novalue),
            Sample(g[r][c + 1], novalue), Sample(g[r][c - 1], novalue),
            Sample(g[r + 1][c + 1], novalue), Sample(g[r - 1][c + 1], novalue),
            Sample(g[r + 1][c - 1], novalue), Sample(g[r - 1][c - 1], novalue))
  }

  function CurvatureAt(dem: Dem, novalue: real, pow: Pow, r: int, c: int): CellCurvature
    requires WellFormed(dem) && Interior(dem.region, r, c) && PositivePow(pow)
  {
    Curvature(StencilAt(dem, novalue, r, c), dem.region.xRes, dem.region.yRes, pow)
  }

  /** What one output raster must hold: the geometry of the input, no-data
      on the border and wherever the centre elevation reads as no-data, and
      the chosen curvature, as a double raster stores it, everywhere else. */
  ghost predicate IsCurvatureLayer(dem: Dem, novalue: real, pow: Pow, kind: Kind, g: Grid)
    requires WellFormed(dem) && PositivePow(pow)
  {
    var region := dem.region;
    IsGrid(g, region.nRows, region.nCols)
    && (forall r, c :: OnBorder(region, r, c) ==> g[r][c] == NoData)
    && (forall r, c :: Interior(region, r, c) && IsNovalue(dem.cells[r][c], novalue) ==> g[r][c] == NoData)
    && (forall r, c :: Interior(region, r, c) && !IsNovalue(dem.cells[r][c], novalue) ==>
          g[r][c] == Store(Component(CurvatureAt(dem, novalue, pow, r, c), kind), novalue))
  }

  /** The value one output cell ends up with: a per-cell reference that
      describes the same layer as `IsCurvatureLayer`. */
  function Expected(dem: Dem, novalue: real, pow: Pow, kind: Kind, r: int, c: int): Cell
    requires WellFormed(dem) && PositivePow(pow)
  {
    if !Interior(dem.region, r, c) || IsNovalue(dem.cells[r][c], novalue) then NoData
    else Store(Component(CurvatureAt(dem, novalue, pow, r, c), kind), novalue)
  }

  /** Progress-monitor calls, in the order the pass makes them. */
  datatype Progress = BeginTask(total: int) | Worked(units: int) | TaskDone

  /** The result of one run: the input was never set, the run was cancelled
      and published nothing, or three curvature rasters. */
  datatype Outcome = NullInput | Cancelled | Computed(prof: Grid, plan: Grid, tang: Grid)

  /** How many rows the pass visits: `nRows - 2`, and none for fewer than
      three rows. */
  function RowCount(region: Region): nat
  {
    if region.nRows >= 2 then region.nRows - 2 else 0
  }

  /** `n` progress ticks of one unit each. */
  function Ticks(n: nat): (t: seq<Progress>)
    ensures |t| == n && forall i :: 0 <= i < n ==> t[i] == Worked(1)
  {
    seq(n, _ => Worked(1))
  }

  /** One output row of the sweep, for interior row `r`: no-data at both
      ends and at no-data centres, the cell's curvatures elsewhere. */
  method ComputeRow(dem: Dem, novalue: real, pow: Pow, r: int)
    returns (prof: seq<Cell>, plan: seq<Cell>, tang: seq<Cell>)
    requires WellFormed(dem) && PositivePow(pow)
    requires 1 <= r <= dem.region.nRows - 2
    ensures |prof| == |plan| == |tang| == dem.region.nCols
    ensures forall c :: 0 <= c < dem.region.nCols ==>
      prof[c] == Expected(dem, novalue, pow, Profile, r, c)
      && plan[c] == Expected(dem, novalue, pow, Planar, r, c)
      && tang[c] == Expected(dem, novalue, pow, Tangential, r, c)
  {
    var nCols: int := dem.region.nCols;
    prof := seq(nCols, _ => NoData);
    plan := seq(nCols, _ => NoData);
    tang := seq(nCols, _ => NoData);
    var c := 1;
    while c < nCols - 1
      invariant 1 <= c && (nCols >= 2 ==> c <= nCols - 1)
      invariant |prof| == |plan| == |tang| == nCols
      invariant forall j :: 0 <= j < nCols && (j < c || j == nCols - 1) ==>
        prof[j] == Expected(dem, novalue, pow, Profile, r, j)
        && plan[j] == Expected(dem, novalue, pow, Planar, r, j)
        && tang[j] == Expected(dem, novalue, pow, Tangential, r, j)
      invariant forall j :: c <= j < nCols ==> prof[j] == plan[j] == tang[j] == NoData
    {
      if !IsNovalue(dem.cells[r][c], novalue) {
        var k := CurvatureAt(dem, novalue, pow, r, c);
        prof := prof[c := Store(k.prof, novalue)];
        tang := tang[c := Store(k.tang, novalue)];
        plan := plan[c := Store(k.plan, novalue)];
      }
      c := c + 1;
    }
  }

  /** A grid whose rows below `r` are the finished layer and whose other
      rows are still no-data. */
  ghost predicate FilledBelow(dem: Dem, novalue: real, pow: Pow, kind: Kind, g: Grid, r: int)
    requires WellFormed(dem) && PositivePow(pow)
  {
    IsGrid(g, dem.region.nRows, dem.region.nCols)
    && forall i, j :: InGrid(dem.region, i, j) ==>
         g[i][j] == (if i < r then Expected(dem, novalue, pow, kind, i, j) else NoData)
  }

  /** Matching the per-cell reference everywhere is the same as being the
      layer `IsCurvatureLayer` describes. */
  lemma ExpectedIsLayer(dem: Dem, novalue: real, pow: Pow, kind: Kind, g: Grid)
    requires WellFormed(dem) && PositivePow(pow)
    requires IsGrid(g, dem.region.nRows, dem.region.nCols)
    ensures IsCurvatureLayer(dem, novalue, pow, kind, g) <==>
      forall r, c :: InGrid(dem.region, r, c) ==> g[r][c] == Expected(dem, novalue, pow, kind, r, c)
  {
  }

  /** The whole kernel. `canceled(k)` answers the `k`-th cancellation poll,
      a side-effect-free look at the monitor: polls `0 .. RowCount - 1` come
      before each row, poll `RowCount` after the sweep. A null input fails
      before any progress is reported. A poll that answers yes ends the run
      with nothing published; one before a row also skips the `done` that
      `process` itself reports. Otherwise the three rasters are the
      curvature layers of the input. */
  method Process(inElev: Option<Dem>, novalue: real, pow: Pow, canceled: nat -> bool)
    returns (outcome: Outcome, events: seq<Progress>)
    requires inElev.Some? ==> WellFormed(inElev.value)
    requires PositivePow(pow)
    ensures inElev.None? <==> outcome == NullInput
    ensures inElev.None? ==> events == []
    ensures inElev.Some? ==>
      (outcome.Cancelled? <==> exists k :: 0 <= k <= RowCount(inElev.value.region) && canceled(k))
    ensures inElev.Some? && outcome.Computed? ==>
      var dem := inElev.value;
      IsCurvatureLayer(dem, novalue, pow, Profile, outcome.prof)
      && IsCurvatureLayer(dem, novalue, pow, Planar, outcome.plan)
      && IsCurvatureLayer(dem, novalue, pow, Tangential, outcome.tang)
    ensures inElev.Some? && (forall k :: 0 <= k < RowCount(inElev.value.region) ==> !canceled(k)) ==>
      events == [BeginTask(inElev.value.region.nRows - 2)] + Ticks(RowCount(inElev.value.region)) + [TaskDone]
    ensures inElev.Some? ==>
      forall k :: 0 <= k < RowCount(inElev.value.region) && canceled(k)
                  && (forall j :: 0 <= j < k ==> !canceled(j)) ==>
        events == [BeginTask(inElev.value.region.nRows - 2)] + Ticks(k)
  {
    if inElev.None? {
      return NullInput, [];
    }
    var dem := inElev.value;
    var nRows: int, nCols: int := dem.region.nRows, dem.region.nCols;
    var rows := RowCount(dem.region);
    var prof, plan, tang := Blank(nRows, nCols), Blank(nRows, nCols), Blank(nRows, nCols);
    events := [BeginTask(nRows - 2)];
    var r := 1;
    while r < nRows - 1
      invariant 1 <= r <= rows + 1
      invariant forall k :: 0 <= k < r - 1 ==> !canceled(k)
      invariant events == [BeginTask(nRows - 2)] + Ticks(r - 1)
      invariant FilledBelow(dem, novalue, pow, Profile, prof, r)
      invariant FilledBelow(dem, novalue, pow, Planar, plan, r)
      invariant FilledBelow(dem, novalue, pow, Tangential, tang, r)
    {
      if canceled(r - 1) {
        return Cancelled, events;
      }
      var rowProf, rowPlan, rowTang := ComputeRow(dem, novalue, pow, r);
      prof := prof[r := rowProf];
      plan := plan[r := rowPlan];
      tang := tang[r := rowTang];
      events := events + [Worked(1)];
      r := r + 1;
    }
    events := events + [TaskDone];
    if canceled(rows) {
      return Cancelled, events;
    }
    ExpectedIsLayer(dem, novalue, pow, Profile, prof);
    ExpectedIsLayer(dem, novalue, pow, Planar, plan);
    ExpectedIsLayer(dem, novalue, pow, Tangential, tang);
    outcome := Computed(prof, plan, tang);
  }

  // ---------------------------------------------------------------------------
  // Properties of the output layers.

  /** A layer is fixed by its input: two rasters that both satisfy
      `IsCurvatureLayer` for the same input are equal, so repeated runs over
      the same input publish identical rasters. */
  lemma LayerUnique(dem: Dem, novalue: real, pow: Pow, kind: Kind, g: Grid, h: Grid)
    requires WellFormed(dem) && PositivePow(pow)
    requires IsCurvatureLayer(dem, novalue, pow, kind, g)
    requires IsCurvatureLayer(dem, novalue, pow, kind, h)
    ensures g == h
  {
    ExpectedIsLayer(dem, novalue, pow, kind, g);
    ExpectedIsLayer(dem, novalue, pow, kind, h);
    forall r | 0 <= r < |g|
      ensures g[r] == h[r]
    {
      assert |g[r]| == |h[r]| == dem.region.nCols;
      forall c | 0 <= c < |g[r]|
        ensures g[r][c] == h[r][c]
      {
        assert InGrid(dem.region, r, c);
      }
    }
  }

  /** An output cell depends only on the 3x3 neighbourhood of its input
      cell and the resolution: two inputs that agree there give the same
      output cell in every layer, whatever their sizes. */
  lemma Locality(a: Dem, b: Dem, novalue: real, pow: Pow, kind: Kind, r: int, c: int)
    requires WellFormed(a) && WellFormed(b) && PositivePow(pow)
    requires a.region.xRes == b.region.xRes && a.region.yRes == b.region.yRes
    requires Interior(a.region, r, c) && Interior(b.region, r, c)
    requires forall i, j :: r - 1 <= i <= r + 1 && c - 1 <= j <= c + 1 ==> a.cells[i][j] == b.cells[i][j]
    ensures Expected(a, novalue, pow, kind, r, c) == Expected(b, novalue, pow, kind, r, c)
  {
    StencilByOffsets(StencilAt(a, novalue, r, c), StencilAt(b, novalue, r, c));
  }

  /** Real-valued height of the plane `h + gr * r + gc * c`. */
  function PlaneHeight(h: real, gr: real, gc: real, r: int, c: int): real
  {
    h + gr * (r as real) + gc * (c as real)
  }

  lemma PlaneSteps(h: real, gr: real, gc: real, r: int, c: int)
    ensures PlaneHeight(h, gr, gc, r + 1, c) == PlaneHeight(h, gr, gc, r, c) + gr
    ensures PlaneHeight(h, gr, gc, r - 1, c) == PlaneHeight(h, gr, gc, r, c) - gr
    ensures PlaneHeight(h, gr, gc, r, c + 1) == PlaneHeight(h, gr, gc, r, c) + gc
    ensures PlaneHeight(h, gr, gc, r, c - 1) == PlaneHeight(h, gr, gc, r, c) - gc
    ensures PlaneHeight(h, gr, gc, r + 1, c + 1) == PlaneHeight(h, gr, gc, r, c) + gr + gc
    ensures PlaneHeight(h, gr, gc, r - 1, c + 1) == PlaneHeight(h, gr, gc, r, c) - gr + gc
    ensures PlaneHeight(h, gr, gc, r + 1, c - 1) == PlaneHeight(h, gr, gc, r, c) + gr - gc
    ensures PlaneHeight(h, gr, gc, r - 1, c - 1) == PlaneHeight(h, gr, gc, r, c) - gr - gc
  {
    var x, y := r as real, c as real;
    assert gr * (x + 1.0) == gr * x + gr;
    assert gr * (x - 1.0) == gr * x - gr;
    assert gc * (y + 1.0) == gc * y + gc;
    assert gc * (y - 1.0) == gc * y - gc;
  }

  /** On a linear surface every interior cell of every layer whose
      elevation is not the no-data value holds zero (which reads as no-data
      only when zero is the no-data value), whether or not the surface is
      tilted: a tilt gives `p != 0` but zero second differences. */
  lemma LinearSurfaceIsLevel(dem: Dem, novalue: real, pow: Pow, kind: Kind, g: Grid, h: real, gr: real, gc: real)
    requires WellFormed(dem) && PositivePow(pow)
    requires forall r, c :: InGrid(dem.region, r, c) ==> dem.cells[r][c] == Val(PlaneHeight(h, gr, gc, r, c))
    requires IsCurvatureLayer(dem, novalue, pow, kind, g)
    ensures forall r, c :: Interior(dem.region, r, c) && PlaneHeight(h, gr, gc, r, c) != novalue ==>
      g[r][c] == Store(0.0, novalue)
  {
    forall r, c | Interior(dem.region, r, c) && PlaneHeight(h, gr, gc, r, c) != novalue
      ensures g[r][c] == Store(0.0, novalue)
    {
      PlaneSteps(h, gr, gc, r, c);
      assert InGrid(dem.region, r - 1, c - 1) && InGrid(dem.region, r + 1, c + 1);
      assert InGrid(dem.region, r - 1, c + 1) && InGrid(dem.region, r + 1, c - 1);
      assert StencilAt(dem, novalue, r, c) == PlaneStencil(PlaneHeight(h, gr, gc, r, c), gr, gc);
      PlaneIsLevel(PlaneHeight(h, gr, gc, r, c), gr, gc, dem.region.xRes, dem.region.yRes, pow);
    }
  }

  /** On a constant-elevation raster every interior cell takes the `p == 0`
      branch, so every interior cell of every layer holds zero, unless the
      elevation itself is the no-data value. */
  lemma FlatFieldIsLevel(dem: Dem, novalue: real, pow: Pow, kind: Kind, g: Grid, h: real)
    requires WellFormed(dem) && PositivePow(pow)
    requires forall r, c :: InGrid(dem.region, r, c) ==> dem.cells[r][c] == Val(h)
    requires IsCurvatureLayer(dem, novalue, pow, kind, g)
    ensures forall r, c :: Interior(dem.region, r, c) ==>
      Slope2(StencilAt(dem, novalue, r, c), dem.region.xRes, dem.region.yRes) == 0.0
    ensures forall r, c :: Interior(dem.region, r, c) ==>
      g[r][c] == (if h == novalue then NoData else Store(0.0, novalue))
  {
    forall r, c | Interior(dem.region, r, c)
      ensures Slope2(StencilAt(dem, novalue, r, c), dem.region.xRes, dem.region.yRes) == 0.0
      ensures g[r][c] == (if h == novalue then NoData else Store(0.0, novalue))
    {
      assert InGrid(dem.region, r - 1, c - 1) && InGrid(dem.region, r + 1, c + 1);
      assert InGrid(dem.region, r - 1, c + 1) && InGrid(dem.region, r + 1, c - 1);
      assert StencilAt(dem, novalue, r, c) == PlaneStencil(h, 0.0, 0.0);
      LevelTakesGuard(h, dem.region.xRes, dem.region.yRes);
    }
  }
}
