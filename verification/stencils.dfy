/** The per-cell part of the curvature kernel: central finite differences over
    a 3x3 neighbourhood and the three curvature formulas built from them.

    Elevations are reals. `Math.pow(x, 2.0)` is written as `x * x`; the
    fractional powers `Math.pow(x, 1.5)` and `Math.pow(x, 0.5)` go through a
    caller-supplied `pow` of which only positivity on positive arguments is
    assumed.
 */
module Stencils {

  type Pow = (real, real) -> real

  /** The one fact about the fractional power the formulas rely on. */
  ghost predicate PositivePow(pow: Pow)
  {
    forall x: real, e: real :: x > 0.0 ==> pow(x, e) > 0.0
  }

  /** The nine samples around a cell. `rPlus` is row r+1 (same column),
      `cPlus` is column c+1 (same row), `cPlusRMinus` is column c+1 of
      row r-1, and so on. */
  datatype Stencil = Stencil(
    centre: real,
    rPlus: real, rMinus: real, cPlus: real, cMinus: real,
    cPlusRPlus: real, cPlusRMinus: real, cMinusRPlus: real, cMinusRMinus: real)

  /** The sample at row offset `dr` and column offset `dc` from the centre. */
  function At(s: Stencil, dr: int, dc: int): real
    requires -1 <= dr <= 1 && -1 <= dc <= 1
  {
    match (dr, dc)
    case (0, 0) => s.centre
    case (1, 0) => s.rPlus
    case (-1, 0) => s.rMinus
    case (0, 1) => s.cPlus
    case (0, -1) => s.cMinus
    case (1, 1) => s.cPlusRPlus
    case (-1, 1) => s.cPlusRMinus
    case (1, -1) => s.cMinusRPlus
    case (-1, -1) => s.cMinusRMinus
    case _ => assert false; 0.0
  }

  /** A stencil is determined by its nine samples by offset. */
  lemma StencilByOffsets(s: Stencil, t: Stencil)
    requires forall dr, dc :: -1 <= dr <= 1 && -1 <= dc <= 1 ==> At(s, dr, dc) == At(t, dr, dc)
    ensures s == t
  {
    assert At(s, 0, 0) == At(t, 0, 0);
    assert At(s, 1, 0) == At(t, 1, 0) && At(s, -1, 0) == At(t, -1, 0);
    assert At(s, 0, 1) == At(t, 0, 1) && At(s, 0, -1) == At(t, 0, -1);
    assert At(s, 1, 1) == At(t, 1, 1) && At(s, -1, 1) == At(t, -1, 1);
    assert At(s, 1, -1) == At(t, 1, -1) && At(s, -1, -1) == At(t, -1, -1);
  }

  /** Profile, planar and tangential curvature of one cell. */
  datatype CellCurvature = CellCurvature(prof: real, plan: real, tang: real)

  const Level := CellCurvature(0.0, 0.0, 0.0)

  /** First difference along the rows, scaled by the x resolution
      (`OmsCurvatures.process` pairs the row neighbours with `xRes`). */
  function Sx(s: Stencil, xRes: real): real
    requires xRes != 0.0
  {
    0.5 * (s.rPlus - s.rMinus) / xRes
  }

  /** First difference along the columns, scaled by the y resolution. */
  function Sy(s: Stencil, yRes: real): real
    requires yRes != 0.0
  {
    0.5 * (s.cPlus - s.cMinus) / yRes
  }

  /** `Math.pow(x, 2.0)`. */
  function Square(x: real): real
  {
    x * x
  }

  /** A square is never negative, and zero only at zero. */
  lemma SquareSign(x: real)
    ensures Square(x) >= 0.0
    ensures x != 0.0 ==> Square(x) > 0.0
  {
    if x > 0.0 {
      calc { Square(x); x * x; > 0.0 * x; 0.0; }
    } else if x < 0.0 {
      calc { Square(x); x * x; (-x) * (-x); > 0.0 * (-x); 0.0; }
    } else {
      calc { Square(x); x * x; 0.0 * 0.0; 0.0; }
    }
  }

  /** Squared gradient magnitude, `p` in `OmsCurvatures.process`. */
  function Slope2(s: Stencil, xRes: real, yRes: real): real
    requires xRes != 0.0 && yRes != 0.0
  {
    Square(Sx(s, xRes)) + Square(Sy(s, yRes))
  }

  function Sxx(s: Stencil, xRes: real): real
    requires xRes != 0.0
  {
    SquareSign(xRes);
    (s.rPlus - 2.0 * s.centre + s.rMinus) / Square(xRes)
  }

  function Syy(s: Stencil, yRes: real): real
    requires yRes != 0.0
  {
    SquareSign(yRes);
    (s.cPlus - 2.0 * s.centre + s.cMinus) / Square(yRes)
  }

  function Sxy(s: Stencil, xRes: real, yRes: real): real
    requires xRes != 0.0 && yRes != 0.0
  {
    0.25 * ((s.cPlusRPlus - s.cPlusRMinus - s.cMinusRPlus + s.cMinusRMinus) / (xRes * yRes))
  }

  /** The numerator planar and tangential curvature share, from the first
      and second differences. */
  function ContourTerm(sx: real, sy: real, sxx: real, syy: real, sxy: real): real
  {
    sxx * Square(sy) - 2.0 * sxy * sx * sy + syy * Square(sx)
  }

  /** The numerator of profile curvature, from the first and second
      differences. */
  function ProfileTerm(sx: real, sy: real, sxx: real, syy: real, sxy: real): real
  {
    sxx * Square(sx) + 2.0 * sxy * sx * sy + syy * Square(sy)
  }

  function ContourNumerator(s: Stencil, xRes: real, yRes: real): real
    requires xRes != 0.0 && yRes != 0.0
  {
    ContourTerm(Sx(s, xRes), Sy(s, yRes), Sxx(s, xRes), Syy(s, yRes), Sxy(s, xRes, yRes))
  }

  function ProfileNumerator(s: Stencil, xRes: real, yRes: real): real
    requires xRes != 0.0 && yRes != 0.0
  {
    ProfileTerm(Sx(s, xRes), Sy(s, yRes), Sxx(s, xRes), Syy(s, yRes), Sxy(s, xRes, yRes))
  }

  /** -1, 0 or 1 as `x` is negative, zero or positive. */
  function Sign(x: real): int
  {
    if x > 0.0 then 1 else if x < 0.0 then -1 else 0
  }

  /** Dividing by a positive number keeps the sign. */
  lemma QuotientSign(n: real, d: real)
    requires d > 0.0
    ensures Sign(n / d) == Sign(n)
    ensures (n / d) * d == n
  {
    assert n == (n / d) * d;
  }

  lemma NegatedQuotient(n: real, d: real)
    requires d != 0.0
    ensures (-n) / d == -(n / d)
  {
  }

  lemma ProductPositive(a: real, b: real)
    requires a > 0.0 && b > 0.0
    ensures a * b > 0.0
  {
  }

  /** `p` is never negative, and it is zero exactly when both first
      differences are. */
  lemma Slope2ZeroIff(s: Stencil, xRes: real, yRes: real)
    requires xRes != 0.0 && yRes != 0.0
    ensures Slope2(s, xRes, yRes) >= 0.0
    ensures Slope2(s, xRes, yRes) == 0.0 <==> Sx(s, xRes) == 0.0 && Sy(s, yRes) == 0.0
  {
    SquareSign(Sx(s, xRes));
    SquareSign(Sy(s, yRes));
  }

  /** `Math.pow(p, 1.5)`, the planar denominator. */
  function PlanarDenominator(p: real, pow: Pow): real
  {
    pow(p, 1.5)
  }

  /** `p * Math.pow(q, 0.5)` with `q = p + 1`, the tangential denominator. */
  function TangentialDenominator(p: real, pow: Pow): real
  {
    p * pow(p + 1.0, 0.5)
  }

  /** `p * Math.pow(q, 1.5)` with `q = p + 1`, the profile denominator. */
  function ProfileDenominator(p: real, pow: Pow): real
  {
    p * pow(p + 1.0, 1.5)
  }

  /** Past the `p == 0` guard no denominator can vanish. */
  lemma DenominatorsPositive(p: real, pow: Pow)
    requires p > 0.0 && PositivePow(pow)
    ensures PlanarDenominator(p, pow) > 0.0
    ensures TangentialDenominator(p, pow) > 0.0
    ensures ProfileDenominator(p, pow) > 0.0
  {
    ProductPositive(p, pow(p + 1.0, 0.5));
    ProductPositive(p, pow(p + 1.0, 1.5));
  }

  /** The three formulas from the squared gradient `p` and the two
      numerators. When `p` is zero the guard gives all three as zero;
      otherwise each value times its positive denominator is its numerator,
      so each has the sign of its numerator. */
  function Combine(p: real, contour: real, profile: real, pow: Pow): (k: CellCurvature)
    requires p >= 0.0 && PositivePow(pow)
    ensures p == 0.0 ==> k == Level
    ensures p != 0.0 ==>
      k.plan * PlanarDenominator(p, pow) == contour
      && k.tang * TangentialDenominator(p, pow) == contour
      && k.prof * ProfileDenominator(p, pow) == profile
    ensures p != 0.0 ==>
      Sign(k.plan) == Sign(contour) && Sign(k.tang) == Sign(contour) && Sign(k.prof) == Sign(profile)
  {
    if p == 0.0 then
      Level
    else
      DenominatorsPositive(p, pow);
      QuotientSign(contour, PlanarDenominator(p, pow));
      QuotientSign(contour, TangentialDenominator(p, pow));
      QuotientSign(profile, ProfileDenominator(p, pow));
      CellCurvature(profile / ProfileDenominator(p, pow),
                    contour / PlanarDenominator(p, pow),
                    contour / TangentialDenominator(p, pow))
  }

  /** The curvatures of one cell: `Combine` applied to this neighbourhood's
      squared gradient and numerators. A zero gradient gives three zeros;
      otherwise planar and tangential curvature both carry the sign of the
      shared contour numerator and profile curvature that of its own. */
  function Curvature(s: Stencil, xRes: real, yRes: real, pow: Pow): (k: CellCurvature)
    requires xRes > 0.0 && yRes > 0.0 && PositivePow(pow)
    ensures Slope2(s, xRes, yRes) == 0.0 ==> k == Level
    ensures Slope2(s, xRes, yRes) != 0.0 ==>
      var p := Slope2(s, xRes, yRes);
      k.plan * PlanarDenominator(p, pow) == ContourNumerator(s, xRes, yRes)
      && k.tang * TangentialDenominator(p, pow) == ContourNumerator(s, xRes, yRes)
      && k.prof * ProfileDenominator(p, pow) == ProfileNumerator(s, xRes, yRes)
    ensures Slope2(s, xRes, yRes) != 0.0 ==>
      Sign(k.plan) == Sign(ContourNumerator(s, xRes, yRes))
      && Sign(k.tang) == Sign(ContourNumerator(s, xRes, yRes))
      && Sign(k.prof) == Sign(ProfileNumerator(s, xRes, yRes))
  {
    Slope2ZeroIff(s, xRes, yRes);
    Combine(Slope2(s, xRes, yRes), ContourNumerator(s, xRes, yRes), ProfileNumerator(s, xRes, yRes), pow)
  }

  // ---------------------------------------------------------------------------
  // Stencils built from simple surfaces, and transformations of a stencil.

  /** The neighbourhood of a cell at height `h` on a plane that rises by `gr`
      per row and by `gc` per column. */
  function PlaneStencil(h: real, gr: real, gc: real): Stencil
  {
    Stencil(h,
            h + gr, h - gr, h + gc, h - gc,
            h + gr + gc, h - gr + gc, h + gr - gc, h - gr - gc)
  }

  /** Every sample negated: the terrain turned upside down. */
  function Invert(s: Stencil): Stencil
  {
    Stencil(-s.centre, -s.rPlus, -s.rMinus, -s.cPlus, -s.cMinus,
            -s.cPlusRPlus, -s.cPlusRMinus, -s.cMinusRPlus, -s.cMinusRMinus)
  }

  /** Every sample raised by `h`. */
  function Raise(s: Stencil, h: real): Stencil
  {
    Stencil(s.centre + h, s.rPlus + h, s.rMinus + h, s.cPlus + h, s.cMinus + h,
            s.cPlusRPlus + h, s.cPlusRMinus + h, s.cMinusRPlus + h, s.cMinusRMinus + h)
  }

  /** The neighbourhood seen with rows and columns exchanged. */
  function Transpose(s: Stencil): Stencil
  {
    Stencil(s.centre, s.cPlus, s.cMinus, s.rPlus, s.rMinus,
            s.cPlusRPlus, s.cMinusRPlus, s.cPlusRMinus, s.cMinusRMinus)
  }

  function Negate(k: CellCurvature): CellCurvature
  {
    CellCurvature(-k.prof, -k.plan, -k.tang)
  }

  // ---------------------------------------------------------------------------
  // Properties of the per-cell formula.

  /** A level neighbourhood takes the `p == 0` branch. */
  lemma LevelTakesGuard(h: real, xRes: real, yRes: real)
    requires xRes > 0.0 && yRes > 0.0
    ensures Slope2(PlaneStencil(h, 0.0, 0.0), xRes, yRes) == 0.0
  {
    var s := PlaneStencil(h, 0.0, 0.0);
    assert Sx(s, xRes) == 0.0;
    assert Sy(s, yRes) == 0.0;
  }

  /** Zero numerators give zero curvatures on either side of the guard. */
  lemma CombineOfZero(p: real, pow: Pow)
    requires p >= 0.0 && PositivePow(pow)
    ensures Combine(p, 0.0, 0.0, pow) == Level
  {
  }

  /** A tilted plane does not take the guard: its gradient is the tilt
      scaled by the resolution, so `p` is non-zero as soon as the plane rises
      along either axis. */
  lemma TiltedPlaneSkipsGuard(h: real, gr: real, gc: real, xRes: real, yRes: real)
    requires xRes > 0.0 && yRes > 0.0
    requires gr != 0.0 || gc != 0.0
    ensures Slope2(PlaneStencil(h, gr, gc), xRes, yRes) > 0.0
  {
    var s := PlaneStencil(h, gr, gc);
    assert s.rPlus - s.rMinus == 2.0 * gr;
    assert s.cPlus - s.cMinus == 2.0 * gc;
    if gr != 0.0 {
      assert 0.5 * (s.rPlus - s.rMinus) != 0.0;
      assert Sx(s, xRes) != 0.0;
    } else {
      assert 0.5 * (s.cPlus - s.cMinus) != 0.0;
      assert Sy(s, yRes) != 0.0;
    }
    Slope2ZeroIff(s, xRes, yRes);
  }

  /** On any plane, tilted or not, all three curvatures vanish: the second
      differences are zero whether or not the gradient is. */
  lemma PlaneIsLevel(h: real, gr: real, gc: real, xRes: real, yRes: real, pow: Pow)
    requires xRes > 0.0 && yRes > 0.0 && PositivePow(pow)
    ensures Curvature(PlaneStencil(h, gr, gc), xRes, yRes, pow) == Level
  {
    var s := PlaneStencil(h, gr, gc);
    assert s.rPlus - 2.0 * s.centre + s.rMinus == 0.0;
    assert s.cPlus - 2.0 * s.centre + s.cMinus == 0.0;
    assert s.cPlusRPlus - s.cPlusRMinus - s.cMinusRPlus + s.cMinusRMinus == 0.0;
    SquareSign(xRes);
    SquareSign(yRes);
    assert xRes * yRes != 0.0;
    assert Sxx(s, xRes) == 0.0;
    assert Syy(s, yRes) == 0.0;
    assert Sxy(s, xRes, yRes) == 0.0;
    assert ContourNumerator(s, xRes, yRes) == 0.0;
    assert ProfileNumerator(s, xRes, yRes) == 0.0;
    Slope2ZeroIff(s, xRes, yRes);
    CombineOfZero(Slope2(s, xRes, yRes), pow);
  }

  /** With a zero gradient the diagonal samples are never consulted: any two
      neighbourhoods that agree on the centre and the four orthogonal samples
      get the same (zero) curvatures. */
  lemma GuardIgnoresDiagonals(s: Stencil, t: Stencil, xRes: real, yRes: real, pow: Pow)
    requires xRes > 0.0 && yRes > 0.0 && PositivePow(pow)
    requires s.centre == t.centre && s.rPlus == t.rPlus && s.rMinus == t.rMinus
    requires s.cPlus == t.cPlus && s.cMinus == t.cMinus
    requires Slope2(s, xRes, yRes) == 0.0
    ensures Curvature(s, xRes, yRes, pow) == Curvature(t, xRes, yRes, pow) == Level
  {
    assert Sx(s, xRes) == Sx(t, xRes) && Sy(s, yRes) == Sy(t, yRes);
  }

  /** Planar and tangential curvature differ only in their positive
      denominators: they vanish together, exactly when `p` or the shared
      numerator is zero, and otherwise have the same sign. */
  lemma PlanarTangentialAgree(s: Stencil, xRes: real, yRes: real, pow: Pow)
    requires xRes > 0.0 && yRes > 0.0 && PositivePow(pow)
    ensures var k := Curvature(s, xRes, yRes, pow);
      (k.plan == 0.0 <==> ContourNumerator(s, xRes, yRes) == 0.0 || Slope2(s, xRes, yRes) == 0.0)
      && Sign(k.plan) == Sign(k.tang)
  {
  }

  /** Raising the whole neighbourhood by a constant changes nothing: only
      differences of samples enter the formulas. */
  lemma RaiseInvariant(s: Stencil, h: real, xRes: real, yRes: real, pow: Pow)
    requires xRes > 0.0 && yRes > 0.0 && PositivePow(pow)
    ensures Curvature(Raise(s, h), xRes, yRes, pow) == Curvature(s, xRes, yRes, pow)
  {
    var t := Raise(s, h);
    assert Sx(t, xRes) == Sx(s, xRes);
    assert Sy(t, yRes) == Sy(s, yRes);
    assert t.rPlus - 2.0 * t.centre + t.rMinus == s.rPlus - 2.0 * s.centre + s.rMinus;
    assert t.cPlus - 2.0 * t.centre + t.cMinus == s.cPlus - 2.0 * s.centre + s.cMinus;
    assert Sxx(t, xRes) == Sxx(s, xRes);
    assert Syy(t, yRes) == Syy(s, yRes);
    assert Sxy(t, xRes, yRes) == Sxy(s, xRes, yRes);
    assert Slope2(t, xRes, yRes) == Slope2(s, xRes, yRes);
    assert ContourNumerator(t, xRes, yRes) == ContourNumerator(s, xRes, yRes);
    assert ProfileNumerator(t, xRes, yRes) == ProfileNumerator(s, xRes, yRes);
  }

  lemma NegatedTerms(sx: real, sy: real, sxx: real, syy: real, sxy: real)
    ensures ContourTerm(-sx, -sy, -sxx, -syy, -sxy) == -ContourTerm(sx, sy, sxx, syy, sxy)
    ensures ProfileTerm(-sx, -sy, -sxx, -syy, -sxy) == -ProfileTerm(sx, sy, sxx, syy, sxy)
  {
  }

  lemma CombineNegatesLevel(contour: real, profile: real, pow: Pow)
    requires PositivePow(pow)
    ensures Combine(0.0, -contour, -profile, pow) == Negate(Combine(0.0, contour, profile, pow))
  {
  }

  lemma CombineNegatesSloped(p: real, contour: real, profile: real, pow: Pow)
    requires p > 0.0 && PositivePow(pow)
    ensures Combine(p, -contour, -profile, pow) == Negate(Combine(p, contour, profile, pow))
  {
    DenominatorsPositive(p, pow);
    NegatedQuotient(contour, PlanarDenominator(p, pow));
    NegatedQuotient(contour, TangentialDenominator(p, pow));
    NegatedQuotient(profile, ProfileDenominator(p, pow));
  }

  lemma CombineNegates(p: real, contour: real, profile: real, pow: Pow)
    requires p >= 0.0 && PositivePow(pow)
    ensures Combine(p, -contour, -profile, pow) == Negate(Combine(p, contour, profile, pow))
  {
    if p == 0.0 {
      CombineNegatesLevel(contour, profile, pow);
    } else {
      CombineNegatesSloped(p, contour, profile, pow);
    }
  }

  lemma InvertedDifferences(s: Stencil, xRes: real, yRes: real)
    requires xRes > 0.0 && yRes > 0.0
    ensures Sx(Invert(s), xRes) == -Sx(s, xRes) && Sy(Invert(s), yRes) == -Sy(s, yRes)
    ensures Sxx(Invert(s), xRes) == -Sxx(s, xRes) && Syy(Invert(s), yRes) == -Syy(s, yRes)
    ensures Sxy(Invert(s), xRes, yRes) == -Sxy(s, xRes, yRes)
  {
    var t := Invert(s);
    NegatedQuotient(0.5 * (s.rPlus - s.rMinus), xRes);
    NegatedQuotient(0.5 * (s.cPlus - s.cMinus), yRes);
    SquareSign(xRes);
    SquareSign(yRes);
    NegatedQuotient(s.rPlus - 2.0 * s.centre + s.rMinus, Square(xRes));
    NegatedQuotient(s.cPlus - 2.0 * s.centre + s.cMinus, Square(yRes));
    assert xRes * yRes != 0.0;
  }

  /** Turning the terrain upside down negates all three curvatures: a
      convex cell becomes a concave one of the same magnitude. */
  lemma InvertNegates(s: Stencil, xRes: real, yRes: real, pow: Pow)
    requires xRes > 0.0 && yRes > 0.0 && PositivePow(pow)
    ensures Curvature(Invert(s), xRes, yRes, pow) == Negate(Curvature(s, xRes, yRes, pow))
  {
    var t := Invert(s);
    var sx, sy := Sx(s, xRes), Sy(s, yRes);
    var sxx, syy, sxy := Sxx(s, xRes), Syy(s, yRes), Sxy(s, xRes, yRes);
    InvertedDifferences(s, xRes, yRes);
    NegatedTerms(sx, sy, sxx, syy, sxy);
    assert ContourNumerator(t, xRes, yRes) == -ContourNumerator(s, xRes, yRes);
    assert ProfileNumerator(t, xRes, yRes) == -ProfileNumerator(s, xRes, yRes);
    assert Slope2(t, xRes, yRes) == Slope2(s, xRes, yRes) by {
      assert Square(-sx) == Square(sx) && Square(-sy) == Square(sy);
    }
    Slope2ZeroIff(s, xRes, yRes);
    CombineNegates(Slope2(s, xRes, yRes), ContourNumerator(s, xRes, yRes), ProfileNumerator(s, xRes, yRes), pow);
  }

  lemma SwappedTerms(sx: real, sy: real, sxx: real, syy: real, sxy: real)
    ensures ContourTerm(sy, sx, syy, sxx, sxy) == ContourTerm(sx, sy, sxx, syy, sxy)
    ensures ProfileTerm(sy, sx, syy, sxx, sxy) == ProfileTerm(sx, sy, sxx, syy, sxy)
  {
  }

  /** Exchanging rows with columns, together with the two resolutions,
      leaves all three curvatures unchanged. */
  lemma TransposeInvariant(s: Stencil, xRes: real, yRes: real, pow: Pow)
    requires xRes > 0.0 && yRes > 0.0 && PositivePow(pow)
    ensures Curvature(Transpose(s), yRes, xRes, pow) == Curvature(s, xRes, yRes, pow)
  {
    var t := Transpose(s);
    var sx, sy := Sx(s, xRes), Sy(s, yRes);
    var sxx, syy, sxy := Sxx(s, xRes), Syy(s, yRes), Sxy(s, xRes, yRes);
    assert Sx(t, yRes) == sy;
    assert Sy(t, xRes) == sx;
    assert Sxx(t, yRes) == syy;
    assert Syy(t, xRes) == sxx;
    assert yRes * xRes == xRes * yRes;
    assert Sxy(t, yRes, xRes) == sxy;
    SwappedTerms(sx, sy, sxx, syy, sxy);
    assert Slope2(t, yRes, xRes) == Slope2(s, xRes, yRes);
  }
}
