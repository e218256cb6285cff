/**
 * The worked cases of the calculator's own test suite, replayed on the model:
 * each method builds a calculator, sets its inputs as the test does and
 * returns what the test inspects, with the expected values as postconditions.
 * All use the default dosing factor and the two potencies 10000 and 35000.
 */
module CalculatorScenarios {
  import opened Dosing
  import opened Calculator

  const Potencies: seq<int> := [10000, 35000]

  /** 10 g fat per 100 g and a 50 g portion: 10000 units, one pill of either potency. */
  method BasicPortion() returns (r: Option<seq<int>>)
    ensures r == Some([1, 1])
  {
    var c := new FatRobinCalculator();
    c.fatPer100g := Some(10.0);
    c.directWeight := Some(50.0);
    r := PortionPills(c.Snapshot(), DefaultDosingFactor, Potencies);
    assert UnitsNeeded(10.0, 50.0, DefaultDosingFactor) == 10000.0;
    assert PillsForDose(10000.0, 10000) == 1 && PillsForDose(10000.0, 35000) == 1;
    assert r.value == [1, 1];
  }

  /** 25 g fat per 100 g and a 70 g portion: 35000 units, 3.5 rounds up to 4, and exactly 1. */
  method RoundingEdgeCase() returns (r: Option<seq<int>>)
    ensures r == Some([4, 1])
  {
    var c := new FatRobinCalculator();
    c.fatPer100g := Some(25.0);
    c.directWeight := Some(70.0);
    r := PortionPills(c.Snapshot(), DefaultDosingFactor, Potencies);
    assert UnitsNeeded(25.0, 70.0, DefaultDosingFactor) == 35000.0;
    assert PillsForDose(35000.0, 10000) == 4 && PillsForDose(35000.0, 35000) == 1;
    assert r.value == [4, 1];
  }

  /** 50 g fat per 100 g and a 200 g portion: 200000 units, 20 and 5.71 rounded up to 6. */
  method LargePortion() returns (r: Option<seq<int>>)
    ensures r == Some([20, 6])
  {
    var c := new FatRobinCalculator();
    c.fatPer100g := Some(50.0);
    c.directWeight := Some(200.0);
    r := PortionPills(c.Snapshot(), DefaultDosingFactor, Potencies);
    assert UnitsNeeded(50.0, 200.0, DefaultDosingFactor) == 200000.0;
    assert PillsForDose(200000.0, 10000) == 20 && PillsForDose(200000.0, 35000) == 6;
    assert r.value == [20, 6];
  }

  /** No fat and a 50 g portion: zero pills, not "unavailable". */
  method ZeroFat() returns (r: Option<seq<int>>)
    ensures r == Some([0, 0])
  {
    var c := new FatRobinCalculator();
    c.fatPer100g := Some(0.0);
    c.directWeight := Some(50.0);
    r := PortionPills(c.Snapshot(), DefaultDosingFactor, Potencies);
    assert PillsForDose(0.0, 10000) == 0 && PillsForDose(0.0, 35000) == 0;
    assert r.value == [0, 0];
  }

  /** A 120 g package in 3 portions at 10 g fat per 100 g: 40 g portions, 1 and 1 pill each; 3 and 1 for the whole. */
  method PackageAndDivision() returns (portionWeight: Option<real>, sub: Option<seq<int>>, whole: Option<seq<int>>)
    ensures portionWeight == Some(40.0)
    ensures sub == Some([1, 1])
    ensures whole == Some([3, 1])
  {
    var c := new FatRobinCalculator();
    c.fatPer100g := Some(10.0);
    c.packageWeight := Some(120.0);
    c.portions := Some(3.0);
    portionWeight := PortionWeightFromPackage(c.Snapshot());
    sub := SubPackagePills(c.Snapshot(), DefaultDosingFactor, Potencies);
    whole := PackagePills(c.Snapshot(), DefaultDosingFactor, Potencies);
    assert portionWeight == Some(40.0);
    assert UnitsNeeded(10.0, 40.0, DefaultDosingFactor) == 8000.0;
    assert UnitsNeeded(10.0, 120.0, DefaultDosingFactor) == 24000.0;
    assert PillsForDose(8000.0, 10000) == 1 && PillsForDose(8000.0, 35000) == 1;
    assert PillsForDose(24000.0, 10000) == 3 && PillsForDose(24000.0, 35000) == 1;
    assert sub.value == [1, 1];
    assert whole.value == [3, 1];
  }

  /** Fat content alone: one pill covers 50 g or 175 g of a product with 10 g fat per 100 g. */
  method GramsCoveredWithFatOnly() returns (r: Option<seq<real>>)
    ensures r == Some([50.0, 175.0])
  {
    var c := new FatRobinCalculator();
    c.fatPer100g := Some(10.0);
    r := GramsPerPill(c.Snapshot(), DefaultDosingFactor, Potencies);
    assert GramsForDose(10.0, DefaultDosingFactor, 10000) == 50.0;
    assert GramsForDose(10.0, DefaultDosingFactor, 35000) == 175.0;
    assert r.value == [50.0, 175.0];
  }

  /**
   * A 25 g food item at 10 g fat per 100 g needs 5000 units: one pill each
   * way, and one pill covers 2 or 7 items. A 120 g package of 4 items at the
   * same fat content makes 30 g items of 6000 units: again one pill each way.
   */
  method FoodItemFigures() returns (pills: Option<seq<int>>, items: Option<seq<int>>, calculatedPills: Option<seq<int>>)
    ensures pills == Some([1, 1])
    ensures items == Some([2, 7])
    ensures calculatedPills == Some([1, 1])
  {
    var c := new FatRobinCalculator();
    c.fatPer100g := Some(10.0);
    c.SetFoodItemWeight(Some(25.0));
    pills := PillsPerFoodItem(c.Snapshot(), DefaultDosingFactor, Potencies);
    assert ItemUnitsNeeded(c.Snapshot(), DefaultDosingFactor) == Some(5000.0);
    items := FoodItemsPerPill(c.Snapshot(), DefaultDosingFactor, Potencies);
    assert PillsForDose(5000.0, 10000) == 1 && PillsForDose(5000.0, 35000) == 1;
    assert ItemsForDose(5000.0, 10000) == 2 && ItemsForDose(5000.0, 35000) == 7;
    assert pills.value == [1, 1];
    assert items.value == [2, 7];

    var d := new FatRobinCalculator();
    d.fatPer100g := Some(10.0);
    d.packageWeight := Some(120.0);
    d.SetFoodItems(Some(4.0));
    calculatedPills := PillsPerFoodItem(d.Snapshot(), DefaultDosingFactor, Potencies);
    assert EffectiveFoodItemWeight(d.Snapshot()) == Some(30.0);
    assert UnitsNeeded(10.0, 30.0, DefaultDosingFactor) == 6000.0;
    assert PillsForDose(6000.0, 10000) == 1 && PillsForDose(6000.0, 35000) == 1;
    assert calculatedPills.value == [1, 1];
  }

  /**
   * A 120 g package of 4 items: 30 g each. Setting the item weight to 25 g
   * then makes the count 4.8 and the effective weight 25 g; after clearing,
   * a 25 g item weight is used as it is.
   */
  method LinkedItemFields() returns (first: Option<real>, count: Option<real>, second: Option<real>, direct: Option<real>)
    ensures first == Some(30.0)
    ensures count == Some(4.8)
    ensures second == Some(25.0)
    ensures direct == Some(25.0)
  {
    var c := new FatRobinCalculator();
    c.packageWeight := Some(120.0);
    c.SetFoodItems(Some(4.0));
    first := EffectiveFoodItemWeight(c.Snapshot());
    c.SetFoodItemWeight(Some(25.0));
    count := c.foodItems;
    second := EffectiveFoodItemWeight(c.Snapshot());
    c.Clear();
    c.SetFoodItemWeight(Some(25.0));
    direct := EffectiveFoodItemWeight(c.Snapshot());
  }

  /** Without a package weight, or with a zero or negative value, neither linked field touches the other. */
  method UnlinkedItemFields() returns (countWithoutPackage: Option<real>, weightKept: Option<real>, countAfterZero: Option<real>, countAfterNegative: Option<real>)
    ensures countWithoutPackage == None
    ensures weightKept == Some(30.0)
    ensures countAfterZero == None
    ensures countAfterNegative == None
  {
    var c := new FatRobinCalculator();
    c.SetFoodItemWeight(Some(30.0));
    countWithoutPackage := c.foodItems;
    c.SetFoodItems(Some(4.0));
    weightKept := c.foodItemWeight;
    var d := new FatRobinCalculator();
    d.packageWeight := Some(120.0);
    d.SetFoodItemWeight(Some(0.0));
    countAfterZero := d.foodItems;
    d.SetFoodItemWeight(Some(-5.0));
    countAfterNegative := d.foodItems;
  }

  /**
   * The availability flags (direct weight, package division, food item,
   * package) as the inputs arrive one by one: nothing, fat, direct weight,
   * package weight and portions, item weight.
   */
  method AvailabilityAsInputsArrive() returns (flags: seq<seq<bool>>)
    ensures flags == [
      [false, false, false, false],
      [false, false, false, false],
      [true, false, false, false],
      [true, true, false, true],
      [true, true, true, true]]
  {
    var c := new FatRobinCalculator();
    flags := [Flags(c.Snapshot())];
    c.fatPer100g := Some(10.0);
    flags := flags + [Flags(c.Snapshot())];
    c.directWeight := Some(50.0);
    flags := flags + [Flags(c.Snapshot())];
    c.packageWeight := Some(100.0);
    c.portions := Some(2.0);
    flags := flags + [Flags(c.Snapshot())];
    c.SetFoodItemWeight(Some(25.0));
    flags := flags + [Flags(c.Snapshot())];
  }

  function Flags(s: Inputs): seq<bool> {
    [HasDirectWeight(s), HasPackageDivision(s), HasFoodItem(s), HasPackage(s)]
  }

  /** Clearing a fully filled calculator leaves every input null. */
  method ClearResetsEverything() returns (s: Inputs)
    ensures s == Empty
  {
    var c := new FatRobinCalculator();
    c.fatPer100g := Some(10.0);
    c.directWeight := Some(50.0);
    c.packageWeight := Some(100.0);
    c.portions := Some(2.0);
    c.SetFoodItemWeight(Some(25.0));
    c.SetFoodItems(Some(4.0));
    c.Clear();
    s := c.Snapshot();
  }
}
