/**
 * What the calculator promises, proved about the pure model in module Dosing:
 * pill counts round up, coverage figures round down, the absence rules and
 * the linked food-item setters.
 */
module DosingProperties {
  import opened KotlinMath
  import opened Dosing

  // ---------------------------------------------------------------------------
  // Scaling an inequality between quotients by a positive divisor

  lemma ScaleStrict(a: real, b: real, c: real)
    requires a < b && c > 0.0
    ensures a * c < b * c
  {
  }

  lemma ScaleWeak(a: real, b: real, c: real)
    requires a <= b && c > 0.0
    ensures a * c <= b * c
  {
  }

  // ---------------------------------------------------------------------------
  // Pill counts round up

  /** k pills of `dose` units each supply `unitsNeeded`, and k - 1 pills would not. */
  predicate FewestPillsCovering(k: int, dose: int, unitsNeeded: real) {
    (k - 1) as real * dose as real < unitsNeeded <= k as real * dose as real
  }

  /**
   * The pills of one potency never supply less than the need, and one pill
   * fewer would.
   */
  lemma PillsCoverNeed(unitsNeeded: real, dose: int)
    requires dose > 0 && CeilFits(unitsNeeded / dose as real)
    ensures FewestPillsCovering(PillsForDose(unitsNeeded, dose), dose, unitsNeeded)
  {
    var d := dose as real;
    var q := unitsNeeded / d;
    var k := PillsForDose(unitsNeeded, dose);
    assert q * d == unitsNeeded;
    ScaleStrict((k - 1) as real, q, d);
    ScaleWeak(q, k as real, d);
  }

  /**
   * Every entry of the list the four pill queries share rounds the need up to
   * whole pills of its own potency.
   */
  lemma PillCountsRoundUp(unitsNeeded: real, doses: seq<int>, i: int)
    requires ValidDoses(doses) && 0 <= i < |doses|
    requires CeilFits(unitsNeeded / doses[i] as real)
    ensures FewestPillsCovering(PillCounts(unitsNeeded, doses)[i], doses[i], unitsNeeded)
  {
    PillsCoverNeed(unitsNeeded, doses[i]);
    assert FewestPillsCovering(PillsForDose(unitsNeeded, doses[i]), doses[i], unitsNeeded);
  }

  /** The pills for one portion cover the portion's need, and one pill fewer would not. */
  lemma PortionPillsRoundUp(s: Inputs, dosingFactor: real, doses: seq<int>, i: int)
    requires ValidDoses(doses) && 0 <= i < |doses|
    requires s.fatPer100g.Some? && s.directWeight.Some?
    requires CeilFits(UnitsNeeded(s.fatPer100g.value, s.directWeight.value, dosingFactor) / doses[i] as real)
    ensures PortionPills(s, dosingFactor, doses).Some?
    ensures FewestPillsCovering(PortionPills(s, dosingFactor, doses).value[i], doses[i],
                                UnitsNeeded(s.fatPer100g.value, s.directWeight.value, dosingFactor))
  {
    PillCountsRoundUp(UnitsNeeded(s.fatPer100g.value, s.directWeight.value, dosingFactor), doses, i);
  }

  /** The pills for one sub-portion of the package cover its need, and one pill fewer would not. */
  lemma SubPackagePillsRoundUp(s: Inputs, dosingFactor: real, doses: seq<int>, i: int)
    requires ValidDoses(doses) && 0 <= i < |doses|
    requires s.fatPer100g.Some? && s.packageWeight.Some? && Positive(s.portions)
    requires CeilFits(UnitsNeeded(s.fatPer100g.value, PortionWeightFromPackage(s).value, dosingFactor) / doses[i] as real)
    ensures SubPackagePills(s, dosingFactor, doses).Some?
    ensures FewestPillsCovering(SubPackagePills(s, dosingFactor, doses).value[i], doses[i],
                                UnitsNeeded(s.fatPer100g.value, s.packageWeight.value / s.portions.value, dosingFactor))
  {
    PillCountsRoundUp(UnitsNeeded(s.fatPer100g.value, PortionWeightFromPackage(s).value, dosingFactor), doses, i);
  }

  /** The pills for the whole package cover its need, and one pill fewer would not. */
  lemma PackagePillsRoundUp(s: Inputs, dosingFactor: real, doses: seq<int>, i: int)
    requires ValidDoses(doses) && 0 <= i < |doses|
    requires s.fatPer100g.Some? && s.packageWeight.Some?
    requires CeilFits(UnitsNeeded(s.fatPer100g.value, s.packageWeight.value, dosingFactor) / doses[i] as real)
    ensures PackagePills(s, dosingFactor, doses).Some?
    ensures FewestPillsCovering(PackagePills(s, dosingFactor, doses).value[i], doses[i],
                                UnitsNeeded(s.fatPer100g.value, s.packageWeight.value, dosingFactor))
  {
    PillCountsRoundUp(UnitsNeeded(s.fatPer100g.value, s.packageWeight.value, dosingFactor), doses, i);
  }

  /** The pills for one food item cover the item's need, and one pill fewer would not. */
  lemma PillsPerFoodItemRoundUp(s: Inputs, dosingFactor: real, doses: seq<int>, i: int)
    requires ValidDoses(doses) && 0 <= i < |doses|
    requires ItemUnitsNeeded(s, dosingFactor).Some?
    requires CeilFits(ItemUnitsNeeded(s, dosingFactor).value / doses[i] as real)
    ensures PillsPerFoodItem(s, dosingFactor, doses).Some?
    ensures FewestPillsCovering(PillsPerFoodItem(s, dosingFactor, doses).value[i], doses[i],
                                ItemUnitsNeeded(s, dosingFactor).value)
  {
    PillCountsRoundUp(ItemUnitsNeeded(s, dosingFactor).value, doses, i);
  }

  /** A product without fat needs no pills, whenever its weight is known. */
  lemma ZeroFatNeedsNoPills(s: Inputs, weight: Option<real>, dosingFactor: real, doses: seq<int>)
    requires ValidDoses(doses)
    requires s.fatPer100g == Some(0.0) && weight.Some?
    ensures PillsForWeight(s, weight, dosingFactor, doses).Some?
    ensures forall i :: 0 <= i < |doses| ==> PillsForWeight(s, weight, dosingFactor, doses).value[i] == 0
  {
  }

  /** More fat or more product never needs fewer pills. */
  lemma PillsMonotone(fat1: real, fat2: real, weight1: real, weight2: real, dosingFactor: real, dose: int)
    requires 0.0 <= fat1 <= fat2 && 0.0 <= weight1 <= weight2 && dosingFactor >= 0.0 && dose > 0
    ensures PillsForDose(UnitsNeeded(fat1, weight1, dosingFactor), dose)
         <= PillsForDose(UnitsNeeded(fat2, weight2, dosingFactor), dose)
  {
    var d := dose as real;
    var u1 := UnitsNeeded(fat1, weight1, dosingFactor);
    var u2 := UnitsNeeded(fat2, weight2, dosingFactor);
    assert (fat1 / 100.0) * weight1 <= (fat2 / 100.0) * weight2 by {
      ScaleWeak(fat1 / 100.0, fat2 / 100.0, weight1 + 1.0);
    }
    assert u1 <= u2;
    assert u1 / d <= u2 / d;
    CeilMonotone(u1 / d, u2 / d);
    ToIntMonotone(Ceil(u1 / d), Ceil(u2 / d));
  }

  // ---------------------------------------------------------------------------
  // Coverage figures round down

  /**
   * For fat > 0, the grams one pill covers never need more units than the
   * pill has, and one gram more would.
   */
  lemma GramsPerPillCovered(fat: real, dosingFactor: real, dose: int)
    requires fat > 0.0 && dosingFactor > 0.0 && dose > 0
    ensures GramsForDose(fat, dosingFactor, dose) >= 0.0
    ensures UnitsNeeded(fat, GramsForDose(fat, dosingFactor, dose), dosingFactor) <= dose as real
    ensures dose as real < UnitsNeeded(fat, GramsForDose(fat, dosingFactor, dose) + 1.0, dosingFactor)
  {
    var g := GramsForDose(fat, dosingFactor, dose);
    var c := (fat / 100.0) * dosingFactor;
    var q := (dose as real / dosingFactor) / (fat / 100.0);
    assert q * c == dose as real;
    ScaleWeak(g, q, c);
    ScaleStrict(q, g + 1.0, c);
  }

  /**
   * For a positive need per item, the items one pill covers never need more
   * units than the pill has, and one item more would.
   */
  lemma FoodItemsPerPillCovered(unitsNeeded: real, dose: int)
    requires unitsNeeded > 0.0 && dose > 0 && FloorFits(dose as real / unitsNeeded)
    ensures ItemsForDose(unitsNeeded, dose) >= 0
    ensures ItemsForDose(unitsNeeded, dose) as real * unitsNeeded <= dose as real
    ensures dose as real < (ItemsForDose(unitsNeeded, dose) + 1) as real * unitsNeeded
  {
    var k := ItemsForDose(unitsNeeded, dose);
    var q := dose as real / unitsNeeded;
    assert q * unitsNeeded == dose as real;
    ScaleWeak(k as real, q, unitsNeeded);
    ScaleStrict(q, (k + 1) as real, unitsNeeded);
    assert dose as real < (k + 1) as real * unitsNeeded;
  }

  /** The grams `GramsPerPill` reports for potency i are covered by one such pill, and one gram more is not. */
  lemma GramsPerPillQueryCovered(s: Inputs, dosingFactor: real, doses: seq<int>, i: int)
    requires 0 <= i < |doses| && doses[i] > 0 && dosingFactor > 0.0
    requires s.fatPer100g.Some? && s.fatPer100g.value > 0.0
    ensures GramsPerPill(s, dosingFactor, doses).Some?
    ensures UnitsNeeded(s.fatPer100g.value, GramsPerPill(s, dosingFactor, doses).value[i], dosingFactor) <= doses[i] as real
    ensures doses[i] as real < UnitsNeeded(s.fatPer100g.value, GramsPerPill(s, dosingFactor, doses).value[i] + 1.0, dosingFactor)
  {
    GramsPerPillCovered(s.fatPer100g.value, dosingFactor, doses[i]);
  }

  /** The items `FoodItemsPerPill` reports for potency i are covered by one such pill, and one item more is not. */
  lemma FoodItemsPerPillQueryCovered(s: Inputs, dosingFactor: real, doses: seq<int>, i: int)
    requires 0 <= i < |doses| && doses[i] > 0
    requires ItemUnitsNeeded(s, dosingFactor).Some? && ItemUnitsNeeded(s, dosingFactor).value > 0.0
    requires FloorFits(doses[i] as real / ItemUnitsNeeded(s, dosingFactor).value)
    ensures FoodItemsPerPill(s, dosingFactor, doses).Some?
    ensures FoodItemsPerPill(s, dosingFactor, doses).value[i] as real * ItemUnitsNeeded(s, dosingFactor).value <= doses[i] as real
    ensures doses[i] as real < (FoodItemsPerPill(s, dosingFactor, doses).value[i] + 1) as real * ItemUnitsNeeded(s, dosingFactor).value
  {
    FoodItemsPerPillCovered(ItemUnitsNeeded(s, dosingFactor).value, doses[i]);
  }

  // ---------------------------------------------------------------------------
  // Absence rules

  /** Each availability flag is set exactly when its query has an answer. */
  lemma FlagsMatchQueries(s: Inputs, dosingFactor: real, doses: seq<int>)
    requires ValidDoses(doses)
    ensures HasDirectWeight(s) <==> PortionPills(s, dosingFactor, doses).Some?
    ensures HasPackageDivision(s) <==> SubPackagePills(s, dosingFactor, doses).Some?
    ensures HasPackage(s) <==> PackagePills(s, dosingFactor, doses).Some?
    ensures HasFoodItem(s) <==> PillsPerFoodItem(s, dosingFactor, doses).Some?
    ensures HasFoodItem(s) <==> ItemUnitsNeeded(s, dosingFactor).Some?
  {
  }

  /** Without the fat content no query has an answer, whatever else is known. */
  lemma NoFatNoAnswers(s: Inputs, dosingFactor: real, doses: seq<int>)
    requires ValidDoses(doses) && dosingFactor > 0.0
    requires s.fatPer100g.None?
    ensures PortionPills(s, dosingFactor, doses).None?
    ensures GramsPerPill(s, dosingFactor, doses).None?
    ensures SubPackagePills(s, dosingFactor, doses).None?
    ensures PackagePills(s, dosingFactor, doses).None?
    ensures PillsPerFoodItem(s, dosingFactor, doses).None?
    ensures FoodItemsPerPill(s, dosingFactor, doses).None?
    ensures !HasDirectWeight(s) && !HasPackageDivision(s) && !HasFoodItem(s) && !HasPackage(s)
  {
  }

  /** A missing, zero or negative number of portions leaves the package undivided. */
  lemma NoPositivePortionsNoDivision(s: Inputs, dosingFactor: real, doses: seq<int>)
    requires ValidDoses(doses)
    requires !Positive(s.portions)
    ensures PortionWeightFromPackage(s).None?
    ensures SubPackagePills(s, dosingFactor, doses).None?
    ensures !HasPackageDivision(s)
  {
  }

  /** A cleared calculator offers no figure and no flag. */
  lemma EmptyOffersNothing(dosingFactor: real, doses: seq<int>)
    requires ValidDoses(doses) && dosingFactor > 0.0
    ensures EffectiveFoodItemWeight(Empty).None? && PortionWeightFromPackage(Empty).None?
    ensures PortionPills(Empty, dosingFactor, doses).None?
    ensures GramsPerPill(Empty, dosingFactor, doses).None?
    ensures SubPackagePills(Empty, dosingFactor, doses).None?
    ensures PackagePills(Empty, dosingFactor, doses).None?
    ensures PillsPerFoodItem(Empty, dosingFactor, doses).None?
    ensures FoodItemsPerPill(Empty, dosingFactor, doses).None?
    ensures !HasDirectWeight(Empty) && !HasPackageDivision(Empty) && !HasFoodItem(Empty) && !HasPackage(Empty)
  {
    NoFatNoAnswers(Empty, dosingFactor, doses);
  }

  // ---------------------------------------------------------------------------
  // The linked food-item setters

  /** After setting a positive item weight under a positive package weight, the effective item weight is that weight. */
  lemma EffectiveWeightAfterSettingItemWeight(s: Inputs, x: real)
    requires Positive(s.packageWeight) && x > 0.0
    ensures WithFoodItemWeight(s, Some(x)).foodItems == Some(s.packageWeight.value / x)
    ensures EffectiveFoodItemWeight(WithFoodItemWeight(s, Some(x))) == Some(x)
  {
    var w := s.packageWeight.value;
    var n := w / x;
    assert n > 0.0;
    assert w / n == x by {
      assert n * x == w;
    }
  }

  /** After setting a positive item count under a positive package weight, item weight and effective weight are the package's share. */
  lemma EffectiveWeightAfterSettingItems(s: Inputs, n: real)
    requires Positive(s.packageWeight) && n > 0.0
    ensures WithFoodItems(s, Some(n)).foodItemWeight == Some(s.packageWeight.value / n)
    ensures EffectiveFoodItemWeight(WithFoodItems(s, Some(n))) == Some(s.packageWeight.value / n)
  {
  }

  /**
   * Under a positive package weight, a positive value given to either linked
   * setter leaves the pair consistent: weight times count is the package, and
   * the effective item weight is the stored one.
   */
  lemma LinkedPairConsistent(s: Inputs, v: real, setWeight: bool)
    requires Positive(s.packageWeight) && v > 0.0
    ensures var t := if setWeight then WithFoodItemWeight(s, Some(v)) else WithFoodItems(s, Some(v));
            && t.foodItemWeight.Some? && t.foodItems.Some?
            && t.foodItemWeight.value * t.foodItems.value == s.packageWeight.value
            && EffectiveFoodItemWeight(t) == t.foodItemWeight
  {
    if setWeight {
      EffectiveWeightAfterSettingItemWeight(s, v);
    } else {
      EffectiveWeightAfterSettingItems(s, v);
    }
  }

  /**
   * The last linked setter call with a positive value decides both fields:
   * whatever the pair held before, the result is the same.
   */
  lemma LastLinkedSetWins(s1: Inputs, s2: Inputs, v: real)
    requires Positive(s1.packageWeight) && v > 0.0
    requires s1.(foodItemWeight := s2.foodItemWeight, foodItems := s2.foodItems) == s2
    ensures WithFoodItemWeight(s1, Some(v)) == WithFoodItemWeight(s2, Some(v))
    ensures WithFoodItems(s1, Some(v)) == WithFoodItems(s2, Some(v))
  {
  }
}
