/**
 * The measured geometry of a building object and its scaling types
 * (src/org/opensourcebim/ifccollection/MpgGeometry.java).
 */
module MpgGeometries {

  import opened Wrappers
  import opened Doubles

  /**
   * A scaling type: either one measured on the geometry itself, or one
   * derived from another geometry's scaling type with a volume ratio
   * (`new MpgScalingType(st, scaleFactor)`).
   */
  datatype MpgScalingType =
    | Measured(dims: seq<Dbl>)
    | Rescaled(original: MpgScalingType, factor: Dbl)

  /**
   * getScaleDims of a scaling type.  A measured one reports its own dims.  What
   * a derived one reports is decided by the scaling type's own class, which is
   * not part of this model, so it is the parameter `derived` of the original
   * and the factor.
   */
  function ScaleDimsOf(st: MpgScalingType, derived: (MpgScalingType, Dbl) -> seq<Dbl>): (dims: seq<Dbl>)
    ensures st.Measured? ==> dims == st.dims
    ensures st.Rescaled? ==> dims == derived(st.original, st.factor)
  {
    match st
    case Measured(dims) => dims
    case Rescaled(original, factor) => derived(original, factor)
  }

  /** Java's `a % 2` on int: the remainder takes the sign of the dividend. */
  function JavaRem2(a: int): (r: int)
    ensures a % 2 == 0 ==> r == 0
    ensures a % 2 == 1 ==> r == if a > 0 then 1 else -1
  {
    if a >= 0 then a % 2 else -((-a) % 2)
  }

  /** The scaling types derived from `sts`, in their order, each with `factor`. */
  function RescaleAll(sts: seq<MpgScalingType>, factor: Dbl): (r: seq<MpgScalingType>)
    ensures |r| == |sts|
    ensures forall i :: 0 <= i < |sts| ==> r[i] == Rescaled(sts[i], factor)
    ensures forall derived: (MpgScalingType, Dbl) -> seq<Dbl>, i :: 0 <= i < |sts| ==>
      ScaleDimsOf(r[i], derived) == derived(sts[i], factor)
  {
    seq(|sts|, i requires 0 <= i < |sts| => Rescaled(sts[i], factor))
  }

  /**
   * Collections.max over the principal dimensions, in the natural order of
   * Double (NaN above every number).  Java's array slots start out null
   * (None): comparing with a null throws, and an empty list has no maximum.
   */
  function CollectionsMax(dims: seq<Option<Dbl>>): (r: Result<Option<Dbl>>)
    ensures r == Throws(NoSuchElement) <==> |dims| == 0
    ensures |dims| == 1 ==> r == Ok(dims[0])
  {
    if |dims| == 0 then Throws(NoSuchElement) else MaxFrom(dims[0], dims[1..])
  }

  /** The loop of Collections.max: the next element replaces the candidate when it compares greater. */
  function MaxFrom(candidate: Option<Dbl>, rest: seq<Option<Dbl>>): (r: Result<Option<Dbl>>)
    ensures r.Throws? ==> r.exception == NullPointer
    ensures r.Ok? ==> r.value in [candidate] + rest
    decreases |rest|
  {
    if rest == [] then Ok(candidate)
    else if rest[0].None? || candidate.None? then Throws(NullPointer)
    else
      var next := if Compare(rest[0].value, candidate.value) > 0 then rest[0] else candidate;
      MaxFrom(next, rest[1..])
  }

  /** The loop throws exactly when it has a comparison to make and a null takes part. */
  lemma {:induction false} MaxFromThrows(candidate: Option<Dbl>, rest: seq<Option<Dbl>>)
    ensures MaxFrom(candidate, rest).Throws? ==> MaxFrom(candidate, rest) == Throws(NullPointer)
    ensures MaxFrom(candidate, rest).Throws? <==> |rest| > 0 && None in [candidate] + rest
    decreases |rest|
  {
    if rest != [] && rest[0].Some? && candidate.Some? {
      var next := if Compare(rest[0].value, candidate.value) > 0 then rest[0] else candidate;
      MaxFromThrows(next, rest[1..]);
      assert [candidate] + rest == [candidate, rest[0]] + rest[1..];
      assert None in rest[1..] <==> None in [next] + rest[1..];
    }
  }

  /** What the loop returns is one of the elements, and no element compares greater. */
  lemma {:induction false} MaxFromIsMaximum(candidate: Option<Dbl>, rest: seq<Option<Dbl>>)
    requires MaxFrom(candidate, rest).Ok?
    ensures MaxFrom(candidate, rest).value in [candidate] + rest
    ensures |rest| > 0 ==>
      var m := MaxFrom(candidate, rest).value;
      m.Some? && candidate.Some? && Compare(candidate.value, m.value) <= 0 &&
      forall i :: 0 <= i < |rest| ==> rest[i].Some? && Compare(rest[i].value, m.value) <= 0
    decreases |rest|
  {
    if rest != [] {
      var next := if Compare(rest[0].value, candidate.value) > 0 then rest[0] else candidate;
      MaxFromIsMaximum(next, rest[1..]);
      var m := MaxFrom(candidate, rest).value;
      assert m in [next] + rest[1..];
      assert m.Some? by {
        if rest[1..] == [] { assert m == next; }
      }
      assert Compare(next.value, m.value) <= 0 by {
        if rest[1..] == [] { assert m == next; CompareAntisymmetric(next.value, next.value); }
      }
      assert Compare(candidate.value, next.value) <= 0 && Compare(rest[0].value, next.value) <= 0 by {
        CompareAntisymmetric(rest[0].value, candidate.value);
        CompareAntisymmetric(next.value, next.value);
      }
      CompareTransitive(candidate.value, next.value, m.value);
      CompareTransitive(rest[0].value, next.value, m.value);
      forall i | 1 <= i < |rest|
        ensures rest[i].Some? && Compare(rest[i].value, m.value) <= 0
      {
        assert rest[i] == rest[1..][i - 1];
      }
    }
  }

  /**
   * Collections.max throws NoSuchElementException on no elements and a
   * NullPointerException when a null has to be compared; otherwise it
   * returns an element that no element exceeds.
   */
  lemma CollectionsMaxSpec(dims: seq<Option<Dbl>>)
    ensures CollectionsMax(dims) == Throws(NoSuchElement) <==> |dims| == 0
    ensures CollectionsMax(dims) == Throws(NullPointer) <==> |dims| >= 2 && None in dims
    ensures CollectionsMax(dims).Ok? ==> CollectionsMax(dims).value in dims
    ensures CollectionsMax(dims).Ok? && |dims| >= 2 ==>
      var m := CollectionsMax(dims).value;
      m.Some? && forall i :: 0 <= i < |dims| ==> dims[i].Some? && Compare(dims[i].value, m.value) <= 0
  {
    if |dims| > 0 {
      assert dims == [dims[0]] + dims[1..];
      MaxFromThrows(dims[0], dims[1..]);
      if MaxFrom(dims[0], dims[1..]).Ok? {
        MaxFromIsMaximum(dims[0], dims[1..]);
        if |dims| >= 2 {
          forall i | 1 <= i < |dims|
            ensures dims[i].Some?
          {
            assert dims[i] == dims[1..][i - 1];
          }
        }
      }
    }
  }

  /** A fresh geometry's three dimension slots are null: asking for the principal dimension throws. */
  lemma UnsetDimensionsThrow()
    ensures CollectionsMax([None, None, None]) == Throws(NullPointer)
  {
    CollectionsMaxSpec([None, None, None]);
  }

  class MpgGeometry {
    var volume: Dbl
    var floorArea: Dbl
    var faceArea: Dbl
    var maxDimensions: array<Option<Dbl>>
    var isComplete: bool
    var scaleParams: seq<MpgScalingType>

    /** Measurements start out undefined, with three empty dimension slots and no scaling types. */
    constructor ()
      ensures volume == NaN && floorArea == NaN && faceArea == NaN
      ensures !isComplete
      ensures fresh(maxDimensions) && maxDimensions.Length == 3
      ensures forall i :: 0 <= i < maxDimensions.Length ==> maxDimensions[i] == None
      ensures scaleParams == []
    {
      volume := NaN;
      floorArea := NaN;
      faceArea := NaN;
      isComplete := false;
      maxDimensions := new Option<Dbl>[3](_ => None);
      scaleParams := [];
    }

    method SetVolume(value: Dbl)
      modifies this`volume
      ensures volume == value
    {
      volume := value;
    }

    method SetFloorArea(value: Dbl)
      modifies this`floorArea
      ensures floorArea == value
    {
      floorArea := value;
    }

    method SetFaceArea(value: Dbl)
      modifies this`faceArea
      ensures faceArea == value
    {
      faceArea := value;
    }

    method SetIsComplete(value: bool)
      modifies this`isComplete
      ensures isComplete == value
    {
      isComplete := value;
    }

    /** setPrincipalDimensions: the geometry now holds the caller's array itself. */
    method SetPrincipalDimensions(values: array<Option<Dbl>>)
      modifies this`maxDimensions
      ensures maxDimensions == values
    {
      maxDimensions := values;
    }

    /** Collections.max over the three slots, with the exceptions of CollectionsMaxSpec. */
    function GetPrincipalDimension(): (r: Result<Option<Dbl>>)
      reads this, maxDimensions
      ensures r == Throws(NoSuchElement) <==> maxDimensions.Length == 0
      ensures r == Throws(NullPointer) <==> maxDimensions.Length >= 2 && None in maxDimensions[..]
      ensures r.Ok? ==> r.value in maxDimensions[..]
      ensures r.Ok? && maxDimensions.Length >= 2 ==>
        r.value.Some? && forall i :: 0 <= i < maxDimensions.Length ==>
          maxDimensions[i].Some? && Compare(maxDimensions[i].value, r.value.value) <= 0
    {
      CollectionsMaxSpec(maxDimensions[..]);
      CollectionsMax(maxDimensions[..])
    }

    method AddScalingType(scaleData: MpgScalingType)
      modifies this`scaleParams
      ensures scaleParams == old(scaleParams) + [scaleData]
    {
      scaleParams := scaleParams + [scaleData];
    }

    /**
     * addScalingTypesFromGeometry: one derived scaling type per scaling type of
     * `geom`, in its order, each with factor volume / geom.volume; `geom` keeps
     * its list.  Called on itself with a non-empty list, ArrayList.forEach
     * sees its own list grow after the first element and throws.
     */
    method AddScalingTypesFromGeometry(geom: MpgGeometry) returns (outcome: Outcome)
      modifies this`scaleParams
      ensures geom != this ==> outcome == Completed && geom.scaleParams == old(geom.scaleParams)
      ensures geom != this ==>
        scaleParams == old(scaleParams) + RescaleAll(old(geom.scaleParams), Div(volume, geom.volume))
      ensures geom == this && old(scaleParams) == [] ==> outcome == Completed && scaleParams == []
      ensures geom == this && old(scaleParams) != [] ==>
        outcome == Threw(ConcurrentModification) &&
        scaleParams == old(scaleParams) + [Rescaled(old(scaleParams)[0], Div(volume, volume))]
    {
      var scaleFactor := Div(volume, geom.volume);
      var source := geom.scaleParams;
      var i := 0;
      var modified := false;
      while i < |source| && !modified
        invariant 0 <= i <= |source|
        invariant geom != this ==> !modified && geom.scaleParams == source
        invariant scaleParams == old(scaleParams) + RescaleAll(source[..i], scaleFactor)
        invariant geom == this ==> (modified <==> i > 0) && i <= 1
      {
        AddScalingType(Rescaled(source[i], scaleFactor));
        assert source[..i + 1] == source[..i] + [source[i]];
        if geom == this {
          modified := true;
        }
        i := i + 1;
      }
      if modified {
        outcome := Threw(ConcurrentModification);
      } else {
        outcome := Completed;
      }
      assert i == |source| || modified;
      assert source[..|source|] == source;
    }

    /**
     * getScaleDims: the dims of scaling type number dim % 2 (the first for
     * even, the second for odd dimensionality); Java's remainder of a negative
     * odd number is -1, an index that does not exist.  `derived` is as for
     * ScaleDimsOf.
     */
    function GetScaleDims(dim: int, derived: (MpgScalingType, Dbl) -> seq<Dbl>): (r: Result<seq<Dbl>>)
      reads this
      ensures dim % 2 == 0 ==>
        r == if |scaleParams| >= 1 then Ok(ScaleDimsOf(scaleParams[0], derived)) else Throws(IndexOutOfBounds)
      ensures dim % 2 == 1 && dim > 0 ==>
        r == if |scaleParams| >= 2 then Ok(ScaleDimsOf(scaleParams[1], derived)) else Throws(IndexOutOfBounds)
      ensures dim % 2 == 1 && dim < 0 ==> r == Throws(IndexOutOfBounds)
    {
      var scalerIndex := JavaRem2(dim);
      if 0 <= scalerIndex < |scaleParams| then Ok(ScaleDimsOf(scaleParams[scalerIndex], derived))
      else Throws(IndexOutOfBounds)
    }
  }
}
