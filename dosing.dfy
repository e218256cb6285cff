/**
 * The pure part of the FatRobin dosing calculator: the six stored inputs as a
 * value, the two weights derived from them, the per-dose formulas, the six
 * per-potency queries and the four availability flags. A Kotlin `null` is
 * `None`; a Double is a `real`.
 */
module Dosing {
  import opened KotlinMath

  datatype Option<T> = None | Some(value: T)

  /** Absorption units one gram of fat needs; the default of every query's dosingFactor. */
  const DefaultDosingFactor: real := 2000.0

  /** The calculator's six stored inputs (the two food-item fields are the setters' backing fields). */
  datatype Inputs = Inputs(
    fatPer100g: Option<real>,
    directWeight: Option<real>,
    packageWeight: Option<real>,
    portions: Option<real>,
    foodItemWeight: Option<real>,
    foodItems: Option<real>)

  /** A freshly created or cleared calculator. */
  const Empty: Inputs := Inputs(None, None, None, None, None, None)

  /** `v != null && v > 0` */
  predicate Positive(v: Option<real>) {
    v.Some? && v.value > 0.0
  }

  /** Every potency is a positive number of units. */
  predicate ValidDoses(doses: seq<int>) {
    forall i :: 0 <= i < |doses| ==> doses[i] > 0
  }

  // ---------------------------------------------------------------------------
  // Derived weights

  /**
   * The weight of one food item: the package shared out over the item count
   * when both are known and the count is positive, else the stored item weight.
   */
  function EffectiveFoodItemWeight(s: Inputs): (w: Option<real>)
    ensures w.Some? <==> (s.packageWeight.Some? && Positive(s.foodItems)) || s.foodItemWeight.Some?
    ensures s.packageWeight.Some? && Positive(s.foodItems) ==>
              w.Some? && w.value * s.foodItems.value == s.packageWeight.value
    ensures !(s.packageWeight.Some? && Positive(s.foodItems)) ==> w == s.foodItemWeight
  {
    if s.packageWeight.Some? && Positive(s.foodItems) then
      Some(s.packageWeight.value / s.foodItems.value)
    else
      s.foodItemWeight
  }

  /** The weight of one of `portions` equal sub-portions of the package. */
  function PortionWeightFromPackage(s: Inputs): (w: Option<real>)
    ensures w.Some? <==> s.packageWeight.Some? && Positive(s.portions)
    ensures w.Some? ==> w.value * s.portions.value == s.packageWeight.value
    ensures w.Some? && s.packageWeight.value > 0.0 ==> w.value > 0.0
  {
    if s.packageWeight.Some? && Positive(s.portions) then
      Some(s.packageWeight.value / s.portions.value)
    else
      None
  }

  // ---------------------------------------------------------------------------
  // Per-dose formulas

  /** Absorption units needed for `weight` grams of a product with `fat` grams of fat per 100 g. */
  function UnitsNeeded(fat: real, weight: real, dosingFactor: real): (u: real)
    ensures fat >= 0.0 && weight >= 0.0 && dosingFactor >= 0.0 ==> u >= 0.0
    ensures fat == 0.0 || weight == 0.0 ==> u == 0.0
  {
    (fat / 100.0) * weight * dosingFactor
  }

  /** `ceil(unitsNeeded / dose).toInt()`: the fewest pills of this potency that supply the need. */
  function PillsForDose(unitsNeeded: real, dose: int): (k: int)
    requires dose > 0
    ensures InIntRange(k)
    ensures CeilFits(unitsNeeded / dose as real) ==>
              (k - 1) as real < unitsNeeded / dose as real <= k as real
    ensures unitsNeeded / dose as real > IntMax as real ==> k == IntMax
    ensures unitsNeeded / dose as real <= (IntMin - 1) as real ==> k == IntMin
  {
    ToInt(Ceil(unitsNeeded / dose as real))
  }

  /** `floor((dose / dosingFactor) / (fat / 100))`: whole grams of product one pill covers (a Double). */
  function GramsForDose(fat: real, dosingFactor: real, dose: int): (g: real)
    requires fat != 0.0 && dosingFactor > 0.0
    ensures g.Floor as real == g
    ensures g <= (dose as real / dosingFactor) / (fat / 100.0) < g + 1.0
  {
    Floor((dose as real / dosingFactor) / (fat / 100.0)) as real
  }

  /** `floor(dose / unitsNeeded).toInt()`: whole food items one pill covers. */
  function ItemsForDose(unitsNeeded: real, dose: int): (k: int)
    requires unitsNeeded != 0.0
    ensures InIntRange(k)
    ensures FloorFits(dose as real / unitsNeeded) ==>
              k as real <= dose as real / unitsNeeded < k as real + 1.0
    ensures dose as real / unitsNeeded >= (IntMax + 1) as real ==> k == IntMax
    ensures dose as real / unitsNeeded < IntMin as real ==> k == IntMin
  {
    ToInt(Floor(dose as real / unitsNeeded))
  }

  // ---------------------------------------------------------------------------
  // The `pillDoses.map { … }` of each query

  function PillCounts(unitsNeeded: real, doses: seq<int>): (r: seq<int>)
    requires ValidDoses(doses)
    ensures |r| == |doses|
    ensures forall i :: 0 <= i < |doses| ==> r[i] == PillsForDose(unitsNeeded, doses[i])
  {
    if doses == [] then [] else [PillsForDose(unitsNeeded, doses[0])] + PillCounts(unitsNeeded, doses[1..])
  }

  function GramsList(fat: real, dosingFactor: real, doses: seq<int>): (r: seq<real>)
    requires fat != 0.0 && dosingFactor > 0.0
    ensures |r| == |doses|
    ensures forall i :: 0 <= i < |doses| ==> r[i] == GramsForDose(fat, dosingFactor, doses[i])
  {
    if doses == [] then [] else [GramsForDose(fat, dosingFactor, doses[0])] + GramsList(fat, dosingFactor, doses[1..])
  }

  function ItemsList(unitsNeeded: real, doses: seq<int>): (r: seq<int>)
    requires unitsNeeded != 0.0
    ensures |r| == |doses|
    ensures forall i :: 0 <= i < |doses| ==> r[i] == ItemsForDose(unitsNeeded, doses[i])
  {
    if doses == [] then [] else [ItemsForDose(unitsNeeded, doses[0])] + ItemsList(unitsNeeded, doses[1..])
  }

  // ---------------------------------------------------------------------------
  // The six queries

  /**
   * The formula every pill query shares: for a weight of product, the pills of
   * each potency that cover its fat; unavailable without the fat content or the weight.
   */
  function PillsForWeight(s: Inputs, weight: Option<real>, dosingFactor: real, doses: seq<int>): (r: Option<seq<int>>)
    requires ValidDoses(doses)
    ensures r.None? <==> s.fatPer100g.None? || weight.None?
    ensures r.Some? ==> |r.value| == |doses|
  {
    if s.fatPer100g.None? || weight.None? then None
    else Some(PillCounts(UnitsNeeded(s.fatPer100g.value, weight.value, dosingFactor), doses))
  }

  /** Pills for one portion of `directWeight` grams. */
  function PortionPills(s: Inputs, dosingFactor: real, doses: seq<int>): (r: Option<seq<int>>)
    requires ValidDoses(doses)
    ensures r.None? <==> s.fatPer100g.None? || s.directWeight.None?
    ensures r.Some? ==> |r.value| == |doses|
  {
    PillsForWeight(s, s.directWeight, dosingFactor, doses)
  }

  /** Grams of product one pill of each potency covers; needs only the fat content. */
  function GramsPerPill(s: Inputs, dosingFactor: real, doses: seq<int>): (r: Option<seq<real>>)
    requires dosingFactor > 0.0
    requires s.fatPer100g.Some? ==> s.fatPer100g.value != 0.0
    ensures r.None? <==> s.fatPer100g.None?
    ensures r.Some? ==> |r.value| == |doses|
  {
    if s.fatPer100g.None? then None
    else Some(GramsList(s.fatPer100g.value, dosingFactor, doses))
  }

  /** Pills for one sub-portion of the package. */
  function SubPackagePills(s: Inputs, dosingFactor: real, doses: seq<int>): (r: Option<seq<int>>)
    requires ValidDoses(doses)
    ensures r.None? <==> s.fatPer100g.None? || s.packageWeight.None? || !Positive(s.portions)
    ensures r.Some? ==> |r.value| == |doses|
  {
    PillsForWeight(s, PortionWeightFromPackage(s), dosingFactor, doses)
  }

  /** Pills for the whole package. */
  function PackagePills(s: Inputs, dosingFactor: real, doses: seq<int>): (r: Option<seq<int>>)
    requires ValidDoses(doses)
    ensures r.None? <==> s.fatPer100g.None? || s.packageWeight.None?
    ensures r.Some? ==> |r.value| == |doses|
  {
    PillsForWeight(s, s.packageWeight, dosingFactor, doses)
  }

  /** Pills for one food item. */
  function PillsPerFoodItem(s: Inputs, dosingFactor: real, doses: seq<int>): (r: Option<seq<int>>)
    requires ValidDoses(doses)
    ensures r.None? <==> s.fatPer100g.None? || EffectiveFoodItemWeight(s).None?
    ensures r.Some? ==> |r.value| == |doses|
  {
    PillsForWeight(s, EffectiveFoodItemWeight(s), dosingFactor, doses)
  }

  /** The units one food item needs, when the fat content and an item weight are known. */
  function ItemUnitsNeeded(s: Inputs, dosingFactor: real): (u: Option<real>)
    ensures u.Some? <==> s.fatPer100g.Some? && EffectiveFoodItemWeight(s).Some?
  {
    if s.fatPer100g.None? || EffectiveFoodItemWeight(s).None? then None
    else Some(UnitsNeeded(s.fatPer100g.value, EffectiveFoodItemWeight(s).value, dosingFactor))
  }

  /** Whole food items one pill of each potency covers. */
  function FoodItemsPerPill(s: Inputs, dosingFactor: real, doses: seq<int>): (r: Option<seq<int>>)
    requires ItemUnitsNeeded(s, dosingFactor) != Some(0.0)
    ensures r.None? <==> s.fatPer100g.None? || EffectiveFoodItemWeight(s).None?
    ensures r.Some? ==> |r.value| == |doses|
  {
    match ItemUnitsNeeded(s, dosingFactor)
    case None => None
    case Some(units) => Some(ItemsList(units, doses))
  }

  // ---------------------------------------------------------------------------
  // Availability flags

  predicate HasDirectWeight(s: Inputs) {
    s.fatPer100g.Some? && s.directWeight.Some?
  }

  predicate HasPackageDivision(s: Inputs) {
    s.fatPer100g.Some? && s.packageWeight.Some? && Positive(s.portions)
  }

  predicate HasFoodItem(s: Inputs) {
    s.fatPer100g.Some? && EffectiveFoodItemWeight(s).Some?
  }

  predicate HasPackage(s: Inputs) {
    s.fatPer100g.Some? && s.packageWeight.Some?
  }

  // ---------------------------------------------------------------------------
  // The linked setters, as functions of the inputs before the assignment

  /** `foodItemWeight = v`: stores v; with v > 0 and a positive package weight, the item count follows. */
  function WithFoodItemWeight(s: Inputs, v: Option<real>): (t: Inputs)
    ensures t.foodItemWeight == v
    ensures Positive(v) && Positive(s.packageWeight) ==>
              t.foodItems.Some? && t.foodItems.value * v.value == s.packageWeight.value
    ensures !(Positive(v) && Positive(s.packageWeight)) ==> t.foodItems == s.foodItems
    ensures t.(foodItemWeight := s.foodItemWeight, foodItems := s.foodItems) == s
  {
    var items := if Positive(v) && Positive(s.packageWeight) then Some(s.packageWeight.value / v.value) else s.foodItems;
    s.(foodItemWeight := v, foodItems := items)
  }

  /** `foodItems = v`: stores v; with v > 0 and a positive package weight, the item weight follows. */
  function WithFoodItems(s: Inputs, v: Option<real>): (t: Inputs)
    ensures t.foodItems == v
    ensures Positive(v) && Positive(s.packageWeight) ==>
              t.foodItemWeight.Some? && t.foodItemWeight.value * v.value == s.packageWeight.value
    ensures !(Positive(v) && Positive(s.packageWeight)) ==> t.foodItemWeight == s.foodItemWeight
    ensures t.(foodItemWeight := s.foodItemWeight, foodItems := s.foodItems) == s
  {
    var weight := if Positive(v) && Positive(s.packageWeight) then Some(s.packageWeight.value / v.value) else s.foodItemWeight;
    s.(foodItemWeight := weight, foodItems := v)
  }
}
