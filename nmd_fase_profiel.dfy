/**
 * The coefficients of one lifecycle phase of a profile set, one per
 * environmental impact category, and the cost factors they produce
 * (src/org/opensourcebim/nmd/NmdFaseProfielImpl.java).
 */
module NmdFaseProfielen {

  import opened Wrappers
  import opened Doubles

  /** An impact category of the reference data: its description and its weighting. */
  datatype NmdMilieuCategorie = NmdMilieuCategorie(description: string, weight: Dbl)

  /** One weighted cost of one phase in one impact category. */
  datatype MpgCostFactor = MpgCostFactor(fase: string, description: string, value: Dbl)

  /** The descriptions of the reference categories. */
  function Descriptions(categories: seq<NmdMilieuCategorie>): set<string> {
    set i | 0 <= i < |categories| :: categories[i].description
  }

  /** The coefficient map after every description in `ds` is set to `value`. */
  function Fill(coefs: map<string, Dbl>, ds: set<string>, value: Dbl): map<string, Dbl> {
    coefs + map d | d in ds :: value
  }

  /** getProfielCoefficient: the stored coefficient, 0.0 when there is none. */
  function CoefficientOf(coefs: map<string, Dbl>, description: string): (v: Dbl)
    ensures description in coefs ==> v == coefs[description]
    ensures description !in coefs ==> v == Val(0.0)
  {
    if description in coefs then coefs[description] else Val(0.0)
  }

  /** A category yields a cost factor when its coefficient is stored and is a number. */
  predicate Yields(coefs: map<string, Dbl>, category: NmdMilieuCategorie) {
    category.description in coefs && coefs[category.description] != NaN
  }

  /** The factor of a category: cost times coefficient times weight, multiplied left to right. */
  function FactorFor(fase: string, coefs: map<string, Dbl>, cost: Dbl, category: NmdMilieuCategorie): MpgCostFactor
    requires category.description in coefs
  {
    MpgCostFactor(fase, category.description, Mul(Mul(cost, coefs[category.description]), category.weight))
  }

  /**
   * The cost factors of the categories, one per yielding category.  Each is a
   * new object of the result set, so equal values are kept apart: a multiset.
   */
  function CostFactors(fase: string, coefs: map<string, Dbl>, cost: Dbl, categories: seq<NmdMilieuCategorie>): (r: multiset<MpgCostFactor>)
    ensures |r| <= |categories|
    ensures forall m :: m in r ==> m.fase == fase
    decreases |categories|
  {
    if categories == [] then multiset{}
    else
      var last := categories[|categories| - 1];
      CostFactors(fase, coefs, cost, categories[..|categories| - 1]) +
      (if Yields(coefs, last) then multiset{FactorFor(fase, coefs, cost, last)} else multiset{})
  }

  /** The number of yielding categories. */
  function CountYielding(coefs: map<string, Dbl>, categories: seq<NmdMilieuCategorie>): (n: nat)
    ensures n <= |categories|
    ensures n == |categories| <==> forall i :: 0 <= i < |categories| ==> Yields(coefs, categories[i])
    ensures n == 0 <==> forall i :: 0 <= i < |categories| ==> !Yields(coefs, categories[i])
    decreases |categories|
  {
    if categories == [] then 0
    else
      var front := categories[..|categories| - 1];
      var n := CountYielding(coefs, front) + if Yields(coefs, categories[|categories| - 1]) then 1 else 0;
      assert forall i :: 0 <= i < |front| ==> front[i] == categories[i];
      n
  }

  /** The result holds one factor per yielding category. */
  lemma {:induction false} CostFactorsSize(fase: string, coefs: map<string, Dbl>, cost: Dbl, categories: seq<NmdMilieuCategorie>)
    ensures |CostFactors(fase, coefs, cost, categories)| == CountYielding(coefs, categories)
    decreases |categories|
  {
    if categories != [] {
      CostFactorsSize(fase, coefs, cost, categories[..|categories| - 1]);
    }
  }

  /** A factor is in the result exactly when some yielding category produces it. */
  lemma {:induction false} CostFactorsMembers(fase: string, coefs: map<string, Dbl>, cost: Dbl, categories: seq<NmdMilieuCategorie>)
    ensures forall m :: m in CostFactors(fase, coefs, cost, categories) <==>
      exists i :: 0 <= i < |categories| && Yields(coefs, categories[i]) && FactorFor(fase, coefs, cost, categories[i]) == m
    decreases |categories|
  {
    if categories != [] {
      var n := |categories| - 1;
      var front := categories[..n];
      CostFactorsMembers(fase, coefs, cost, front);
      var last := categories[n];
      assert CostFactors(fase, coefs, cost, categories) ==
        CostFactors(fase, coefs, cost, front) + (if Yields(coefs, last) then multiset{FactorFor(fase, coefs, cost, last)} else multiset{});
      forall m | m in CostFactors(fase, coefs, cost, categories)
        ensures exists i :: 0 <= i < |categories| && Yields(coefs, categories[i]) && FactorFor(fase, coefs, cost, categories[i]) == m
      {
        if m in CostFactors(fase, coefs, cost, front) {
          var i :| 0 <= i < n && Yields(coefs, front[i]) && FactorFor(fase, coefs, cost, front[i]) == m;
          assert categories[i] == front[i];
        } else {
          assert Yields(coefs, last) && m == FactorFor(fase, coefs, cost, last);
        }
      }
      forall i | 0 <= i < |categories| && Yields(coefs, categories[i])
        ensures FactorFor(fase, coefs, cost, categories[i]) in CostFactors(fase, coefs, cost, categories)
      {
        if i < n {
          assert front[i] == categories[i];
        }
      }
    }
  }

  /** A stored coefficient reads back, and setting one leaves every other description's unchanged. */
  lemma CoefficientRoundTrip(coefs: map<string, Dbl>, d: string, v: Dbl, other: string)
    ensures CoefficientOf(coefs[d := v], d) == v
    ensures other != d ==> CoefficientOf(coefs[d := v], other) == CoefficientOf(coefs, other)
    ensures other !in coefs ==> CoefficientOf(coefs, other) == Val(0.0)
  {
  }

  /** After setAll(NaN) no category yields a factor. */
  lemma SetAllNaNYieldsNothing(fase: string, coefs: map<string, Dbl>, cost: Dbl, categories: seq<NmdMilieuCategorie>)
    ensures CostFactors(fase, Fill(coefs, Descriptions(categories), NaN), cost, categories) == multiset{}
  {
    var filled := Fill(coefs, Descriptions(categories), NaN);
    CostFactorsSize(fase, filled, cost, categories);
    forall i | 0 <= i < |categories|
      ensures !Yields(filled, categories[i])
    {
      assert categories[i].description in Descriptions(categories);
    }
  }

  /** After setAll(v) with v a number every category yields its factor cost * v * weight. */
  lemma SetAllNumberYieldsAll(fase: string, coefs: map<string, Dbl>, v: real, cost: Dbl, categories: seq<NmdMilieuCategorie>)
    ensures |CostFactors(fase, Fill(coefs, Descriptions(categories), Val(v)), cost, categories)| == |categories|
    ensures forall i :: 0 <= i < |categories| ==>
      MpgCostFactor(fase, categories[i].description, Mul(Mul(cost, Val(v)), categories[i].weight))
        in CostFactors(fase, Fill(coefs, Descriptions(categories), Val(v)), cost, categories)
  {
    var filled := Fill(coefs, Descriptions(categories), Val(v));
    CostFactorsSize(fase, filled, cost, categories);
    CostFactorsMembers(fase, filled, cost, categories);
    forall i | 0 <= i < |categories|
      ensures Yields(filled, categories[i]) && filled[categories[i].description] == Val(v)
    {
      assert categories[i].description in Descriptions(categories);
    }
  }

  class NmdFaseProfielImpl {
    var profielCoefficienten: map<string, Dbl>
    const fase: string
    /** The impact categories of the reference data, in the iteration order of its table. */
    const milieuCategorieMapping: seq<NmdMilieuCategorie>
    var category: Option<int>

    /** Every reference category starts with coefficient 0. */
    constructor (fase: string, milieuCategorieMapping: seq<NmdMilieuCategorie>)
      ensures this.fase == fase && this.milieuCategorieMapping == milieuCategorieMapping
      ensures profielCoefficienten == Fill(map[], Descriptions(milieuCategorieMapping), Val(0.0))
      ensures profielCoefficienten.Keys == Descriptions(milieuCategorieMapping)
      ensures forall i :: 0 <= i < |milieuCategorieMapping| ==>
        CoefficientOf(profielCoefficienten, milieuCategorieMapping[i].description) == Val(0.0)
      ensures category == None
    {
      profielCoefficienten := map[];
      this.milieuCategorieMapping := milieuCategorieMapping;
      this.fase := fase;
      category := None;
      new;
      SetAll(Val(0.0));
      forall i | 0 <= i < |milieuCategorieMapping|
        ensures CoefficientOf(profielCoefficienten, milieuCategorieMapping[i].description) == Val(0.0)
      {
        assert milieuCategorieMapping[i].description in Descriptions(milieuCategorieMapping);
      }
    }

    /** Sets the coefficient of every reference category; other descriptions keep theirs. */
    method SetAll(value: Dbl)
      modifies this`profielCoefficienten
      ensures profielCoefficienten == Fill(old(profielCoefficienten), Descriptions(milieuCategorieMapping), value)
    {
      ghost var done: set<string> := {};
      for i := 0 to |milieuCategorieMapping|
        invariant done == Descriptions(milieuCategorieMapping[..i])
        invariant forall d :: d in done ==> d in profielCoefficienten && profielCoefficienten[d] == value
        invariant forall d :: d !in done ==> (d in profielCoefficienten <==> d in old(profielCoefficienten))
        invariant forall d :: d !in done && d in profielCoefficienten ==> profielCoefficienten[d] == old(profielCoefficienten)[d]
      {
        var description := milieuCategorieMapping[i].description;
        SetProfielCoefficient(description, value);
        assert Descriptions(milieuCategorieMapping[..i + 1]) == done + {description} by {
          assert milieuCategorieMapping[..i + 1][i] == milieuCategorieMapping[i];
          forall j | 0 <= j < i ensures milieuCategorieMapping[..i + 1][j] == milieuCategorieMapping[..i][j] {}
        }
        done := done + {description};
      }
      assert milieuCategorieMapping[..|milieuCategorieMapping|] == milieuCategorieMapping;
      assert profielCoefficienten == Fill(old(profielCoefficienten), done, value);
    }

    function GetProfielCoefficient(description: string): (v: Dbl)
      reads this
      ensures description in profielCoefficienten ==> v == profielCoefficienten[description]
      ensures description !in profielCoefficienten ==> v == Val(0.0)
    {
      CoefficientOf(profielCoefficienten, description)
    }

    method SetProfielCoefficient(description: string, value: Dbl)
      modifies this`profielCoefficienten
      ensures profielCoefficienten == old(profielCoefficienten)[description := value]
      ensures GetProfielCoefficient(description) == value
    {
      profielCoefficienten := profielCoefficienten[description := value];
    }

    method SetCategory(category: Option<int>)
      modifies this`category
      ensures this.category == category
    {
      this.category := category;
    }

    /**
     * The cost factors of this phase for a cost: one for each reference
     * category whose coefficient is stored and is a number, in any order.
     */
    method CalculateFactors(cost: Dbl) returns (results: multiset<MpgCostFactor>)
      ensures results == CostFactors(fase, profielCoefficienten, cost, milieuCategorieMapping)
      ensures |results| == CountYielding(profielCoefficienten, milieuCategorieMapping) <= |milieuCategorieMapping|
    {
      results := multiset{};
      for i := 0 to |milieuCategorieMapping|
        invariant results == CostFactors(fase, profielCoefficienten, cost, milieuCategorieMapping[..i])
      {
        var entry := milieuCategorieMapping[i];
        var description := entry.description;
        var profielValue := if description in profielCoefficienten then profielCoefficienten[description] else NaN;
        assert milieuCategorieMapping[..i + 1][..i] == milieuCategorieMapping[..i];
        if profielValue != NaN {
          results := results + multiset{MpgCostFactor(fase, description, Mul(Mul(cost, profielValue), entry.weight))};
        }
      }
      assert milieuCategorieMapping[..|milieuCategorieMapping|] == milieuCategorieMapping;
      CostFactorsSize(fase, profielCoefficienten, cost, milieuCategorieMapping);
    }
  }
}
