/**
 * The base of the dimension scalers that rescale an NMD profile set from the
 * dimensions it was defined for to the dimensions of a building element
 * (src/org/opensourcebim/nmd/NmdBaseScaler.java).
 */
module NmdScalers {

  import opened Wrappers
  import opened Doubles

  /**
   * A scaler: its unit, coefficients, bounds [x_min, x_max, y_min, y_max] and
   * the dimensions the profile set is defined for.  `calculate` is the curve
   * y(x) each concrete scaler supplies.
   */
  datatype NmdBaseScaler = NmdBaseScaler(
    unit: string,
    coefficients: seq<Dbl>,
    bounds: seq<Dbl>,
    currentValues: seq<Dbl>,
    calculate: Dbl -> Dbl)
  {
    /** Two dimensions when a y range and a current y value exist and are numbers, else one. */
    function GetNumberOfDimensions(): (n: nat)
      ensures n == 1 || n == 2
      ensures n == 2 ==> |bounds| == 4 && |currentValues| == 2
    {
      if |bounds| == 4 && bounds[3].Val? && |currentValues| == 2 && currentValues[1].Val? then 2 else 1
    }

    /** Inclusive range test; NaN is never within any range, and a NaN bound admits nothing. */
    static function IsWithinBounds(x: Dbl, xMin: Dbl, xMax: Dbl): (r: bool)
      ensures r <==> x.Val? && xMin.Val? && xMax.Val? && xMin.r <= x.r <= xMax.r
    {
      Le(x, xMax) && Le(xMin, x)
    }

    /**
     * The bounds test for x alone (one dimension) or for x and y (two); the
     * one-dimensional test reads bounds[0] and bounds[1], which must exist.
     */
    function AreDimsWithinBounds(x: Dbl, y: Dbl): (r: Result<bool>)
      ensures r.Throws? <==> GetNumberOfDimensions() == 1 && |bounds| < 2
      ensures r.Throws? ==> r.exception == IndexOutOfBounds
      ensures r.Ok? ==> (r.value ==> x.Val? && bounds[0].Val? && bounds[1].Val? && bounds[0].r <= x.r <= bounds[1].r)
      ensures r.Ok? && GetNumberOfDimensions() == 1 ==> (r.value <==> IsWithinBounds(x, bounds[0], bounds[1]))
      ensures r.Ok? && GetNumberOfDimensions() == 2 ==>
        (r.value <==> IsWithinBounds(x, bounds[0], bounds[1]) && IsWithinBounds(y, bounds[2], bounds[3]))
    {
      if GetNumberOfDimensions() == 1 then
        if |bounds| < 2 then Throws(IndexOutOfBounds) else Ok(IsWithinBounds(x, bounds[0], bounds[1]))
      else
        Ok(IsWithinBounds(x, bounds[0], bounds[1]) && IsWithinBounds(y, bounds[2], bounds[3]))
    }

    /** The correction factor from the current to the desired dimension value. */
    function GetScaleFactor(xDesired: Dbl, xCurrent: Dbl): (f: Dbl)
      ensures calculate(xCurrent) == NaN || calculate(xCurrent) == Val(0.0) ==> f == NaN
      ensures calculate(xDesired) == NaN ==> f == NaN
      ensures calculate(xDesired) == calculate(xCurrent) && calculate(xCurrent).Val? && calculate(xCurrent).r != 0.0 ==>
        f == Val(1.0)
      ensures f.Val? <==> calculate(xDesired).Val? && calculate(xCurrent).Val? && calculate(xCurrent).r != 0.0
      ensures f.Val? ==> f.r * calculate(xCurrent).r == calculate(xDesired).r
    {
      var c := calculate(xCurrent);
      var d := calculate(xDesired);
      assert c.Val? && c.r != 0.0 ==> c.r / c.r == 1.0;
      assert c.Val? && c.r != 0.0 && d.Val? ==> (d.r / c.r) * c.r == d.r;
      Div(d, c)
    }

    /** scale(x): the factor for the first dimension, with no bounds test. */
    function Scale1(x: Dbl): (r: Result<Dbl>)
      ensures r.Throws? <==> |currentValues| == 0
      ensures r.Throws? ==> r.exception == IndexOutOfBounds
      ensures r.Ok? ==> r.value == GetScaleFactor(x, currentValues[0])
    {
      if |currentValues| == 0 then Throws(IndexOutOfBounds)
      else Ok(GetScaleFactor(x, currentValues[0]))
    }

    /** scale(x, y): NaN outside the bounds, else the first factor, times the second in two dimensions. */
    function Scale2(x: Dbl, y: Dbl): (r: Result<Dbl>)
      ensures AreDimsWithinBounds(x, y) == Ok(false) ==> r == Ok(NaN)
      ensures r.Throws? ==> r.exception == IndexOutOfBounds
    {
      match AreDimsWithinBounds(x, y)
      case Throws(e) => Throws(e)
      case Ok(within) =>
        if !within then Ok(NaN)
        else if GetNumberOfDimensions() == 1 then Scale1(x)
        else Ok(Mul(Scale1(x).value, GetScaleFactor(y, currentValues[1])))
    }

    /** Multiplies each dimension by the factor, then scales one or two dimensions; other lengths give NaN. */
    function ScaleWithConversion(dims: seq<Dbl>, conversionFactor: Dbl): (r: Result<Dbl>)
      ensures |dims| != 1 && |dims| != 2 ==> r == Ok(NaN)
      ensures |dims| == 1 ==> r == Scale1(Mul(dims[0], conversionFactor))
      ensures |dims| == 2 ==> r == Scale2(Mul(dims[0], conversionFactor), Mul(dims[1], conversionFactor))
    {
      if |dims| == 1 then Scale1(Mul(dims[0], conversionFactor))
      else if |dims| == 2 then Scale2(Mul(dims[0], conversionFactor), Mul(dims[1], conversionFactor))
      else Ok(NaN)
    }
  }

  /** The scaler is two-dimensional exactly when all four of its conditions hold. */
  lemma DimensionsRule(s: NmdBaseScaler)
    ensures s.GetNumberOfDimensions() == 1 || s.GetNumberOfDimensions() == 2
    ensures s.GetNumberOfDimensions() == 2 <==>
      |s.bounds| == 4 && s.bounds[3] != NaN && |s.currentValues| == 2 && s.currentValues[1] != NaN
  {
  }

  /** Both ends of a numeric range lie within it; NaN never does. */
  lemma BoundsAreInclusive(lo: real, hi: real, x: Dbl)
    requires lo <= hi
    ensures NmdBaseScaler.IsWithinBounds(Val(lo), Val(lo), Val(hi))
    ensures NmdBaseScaler.IsWithinBounds(Val(hi), Val(lo), Val(hi))
    ensures !NmdBaseScaler.IsWithinBounds(NaN, Val(lo), Val(hi))
    ensures NmdBaseScaler.IsWithinBounds(x, Val(lo), Val(hi)) <==> x.Val? && lo <= x.r <= hi
  {
  }

  /** A two-dimensional scaler never indexes out of range. */
  lemma TwoDimensionalNeverThrows(s: NmdBaseScaler, x: Dbl, y: Dbl)
    requires s.GetNumberOfDimensions() == 2
    ensures s.AreDimsWithinBounds(x, y).Ok?
    ensures s.Scale2(x, y).Ok?
  {
  }

  /** Scaling to the dimension the profile set is defined for is the identity. */
  lemma ScaleAtReference(s: NmdBaseScaler)
    requires |s.currentValues| >= 1
    requires s.calculate(s.currentValues[0]).Val? && s.calculate(s.currentValues[0]).r != 0.0
    ensures s.Scale1(s.currentValues[0]) == Ok(Val(1.0))
  {
    var c := s.calculate(s.currentValues[0]).r;
    assert c / c == 1.0;
  }

  /** In one dimension and within bounds, the second dimension is ignored. */
  lemma OneDimensionalIgnoresY(s: NmdBaseScaler, x: Dbl, y1: Dbl, y2: Dbl)
    requires s.GetNumberOfDimensions() == 1
    requires s.AreDimsWithinBounds(x, y1) == Ok(true)
    ensures s.Scale2(x, y1) == s.Scale2(x, y2) == s.Scale1(x)
  {
  }

  /** In two dimensions and within bounds, the factor is the product of the per-axis factors. */
  lemma TwoDimensionalIsProduct(s: NmdBaseScaler, x: Dbl, y: Dbl)
    requires s.GetNumberOfDimensions() == 2
    requires s.AreDimsWithinBounds(x, y) == Ok(true)
    ensures s.Scale2(x, y) == Ok(Mul(s.GetScaleFactor(x, s.currentValues[0]), s.GetScaleFactor(y, s.currentValues[1])))
  {
  }

  /**
   * Scaling a two-dimensional profile set to its own reference point gives 1,
   * when that point lies within the bounds and the curve is defined and
   * non-zero there.
   */
  lemma TwoDimensionalScaleAtReference(s: NmdBaseScaler)
    requires s.GetNumberOfDimensions() == 2
    requires s.AreDimsWithinBounds(s.currentValues[0], s.currentValues[1]) == Ok(true)
    requires s.calculate(s.currentValues[0]).Val? && s.calculate(s.currentValues[0]).r != 0.0
    requires s.calculate(s.currentValues[1]).Val? && s.calculate(s.currentValues[1]).r != 0.0
    ensures s.Scale2(s.currentValues[0], s.currentValues[1]) == Ok(Val(1.0))
  {
    TwoDimensionalIsProduct(s, s.currentValues[0], s.currentValues[1]);
    ScaleAtReference(s);
    var c := s.calculate(s.currentValues[1]).r;
    assert c / c == 1.0;
  }

  /** With unit conversion 1, one or two dimensions (NaN included) scale as they are. */
  lemma UnitConversionIsNeutral(s: NmdBaseScaler, a: Dbl, b: Dbl)
    ensures s.ScaleWithConversion([a], Val(1.0)) == s.Scale1(a)
    ensures s.ScaleWithConversion([a, b], Val(1.0)) == s.Scale2(a, b)
  {
  }

  /** A one-dimensional scaler on [0, 10]: 15 lies outside (NaN), 5 and the bound 10 itself are scaled. */
  lemma BoundsExample(curve: Dbl -> Dbl)
    requires curve(Val(5.0)) == Val(2.0) && curve(Val(1.0)) == Val(4.0)
    ensures NmdBaseScaler("m", [], [Val(0.0), Val(10.0)], [Val(1.0)], curve).Scale2(Val(15.0), NaN) == Ok(NaN)
    ensures NmdBaseScaler("m", [], [Val(0.0), Val(10.0)], [Val(1.0)], curve).Scale2(Val(5.0), NaN) == Ok(Val(0.5))
    ensures NmdBaseScaler("m", [], [Val(0.0), Val(10.0)], [Val(1.0)], curve).Scale2(Val(10.0), NaN) ==
            Ok(Div(curve(Val(10.0)), Val(4.0)))
  {
  }
}
