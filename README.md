# FatRobin dosing calculator, modelled in Dafny

FatRobin tells its user how many fat-absorption pills to take with a fatty
food. The pills come in potencies such as 10000 and 35000 units, and each
gram of fat needs 2000 units by default (the `dosingFactor`).

This project models the app's calculator object, `FatRobinCalculator`. The
object holds six nullable inputs:

- fat per 100 g
- a direct portion weight
- a package weight
- the number of portions the package divides into
- the weight of one food item
- the number of food items in the package

From these it derives two weights: the effective food-item weight and the
weight of one package portion. It then answers six queries, each for a list of
potencies:

- pills per portion
- grams covered per pill
- pills per portion of the package
- pills per whole package
- pills per food item
- food items covered per pill

The four pill queries round the units needed up to whole pills, using
`ceil(...).toInt()`. The two coverage queries round down with `floor`. A
query whose inputs are missing answers `null`.

The item-weight and item-count setters are linked. When the package weight is
positive, giving one of them a positive value overwrites the other with the
package weight divided by that value.

The model is split over four modules:

- `KotlinMath` (kotlin_math.dfy): `floor`, `ceil` and `Double.toInt()` over
  exact reals. `toInt()` clamps to the 32-bit `Int` range.
- `Dosing` (dosing.dfy): the six inputs as a value (`Inputs`), the derived
  weights, the per-dose formulas, the six queries and the four `has*` flags.
  It also gives the two linked setters as functions of the inputs before the
  call.
- `Calculator` (calculator.dfy): the class `FatRobinCalculator` with the six
  fields, the linked setters and `Clear`. Each method is specified by the
  corresponding function of `Dosing`, applied to the snapshot of the fields
  taken before the call.
- `DosingProperties` (dosing_properties.dfy) holds the lemmas.
  `CalculatorScenarios` (calculator_scenarios.dfy) replays the worked cases of
  the repository's tests on the class.

Kotlin's `null` is `None` and a `Double` is a `real`. A Kotlin property with a
default setter is a field that callers assign directly.

Three facts of the code shape the model:

- Every setter stores the value it is given, zero and negative values
  included. A linked setter updates the other field only when its value and
  the package weight are positive, and the derived weights ignore a divisor
  (`foodItems`, `portions`) that is not positive. Nothing else checks the
  sign: `effectiveFoodItemWeight` still divides a zero or
  negative package weight, and falls back to a stored zero or negative item
  weight.
- `getFoodItemsPerPill` returns whole items: it floors `dose / unitsNeeded`
  and converts the result with `toInt()`.
- The tests use older names for the food-item members: `unitWeight`,
  `foodUnits`, `effectiveUnitWeight`, `getFoodUnitPills` and
  `getFoodUnitsPerPill`. The scenarios use the current names.

## Model

| member | source | states |
|---|---|---|
| `KotlinMath.Floor` | src/commonMain/kotlin/app/pmsoft/fatrobin/FatRobinCalculator.kt:84 | `floor(x)` is the greatest integer not above `x` |
| `KotlinMath.Ceil` | src/commonMain/kotlin/app/pmsoft/fatrobin/FatRobinCalculator.kt:70 | `ceil(x)` is the least integer not below `x` |
| `KotlinMath.ToInt` | src/commonMain/kotlin/app/pmsoft/fatrobin/FatRobinCalculator.kt:156 | `toInt()` keeps an integral value inside the Int range and clamps it to the nearer bound outside |
| `Dosing.EffectiveFoodItemWeight` | src/commonMain/kotlin/app/pmsoft/fatrobin/FatRobinCalculator.kt:42-47 | present exactly when package weight and a positive item count are known or an item weight is stored; in the first case weight × count = package weight, otherwise it is the stored item weight |
| `Dosing.PortionWeightFromPackage` | src/commonMain/kotlin/app/pmsoft/fatrobin/FatRobinCalculator.kt:49-54 | present exactly when the package weight is known and the portions are positive; then portion weight × portions = package weight, and it is positive for a positive package |
| `Dosing.UnitsNeeded` | src/commonMain/kotlin/app/pmsoft/fatrobin/FatRobinCalculator.kt:66-67 | the units for a weight of product are never negative for non-negative inputs, and are zero when fat or weight is zero |
| `Dosing.PillsForDose` | src/commonMain/kotlin/app/pmsoft/fatrobin/FatRobinCalculator.kt:69-71 | the pill count k is an Int; when the ceiling fits an Int, k − 1 < units/dose ≤ k; above the range it saturates at the maximum Int |
| `Dosing.GramsForDose` | src/commonMain/kotlin/app/pmsoft/fatrobin/FatRobinCalculator.kt:83-85 | the grams covered are a whole number g with g ≤ (dose/dosingFactor)/(fat/100) < g + 1 |
| `Dosing.ItemsForDose` | src/commonMain/kotlin/app/pmsoft/fatrobin/FatRobinCalculator.kt:155-157 | the items covered are an Int k; when the floor fits an Int, k ≤ dose/units < k + 1; outside the range it saturates |
| `Dosing.PillCounts` | src/commonMain/kotlin/app/pmsoft/fatrobin/FatRobinCalculator.kt:69-71 | the mapped list has one entry per potency, in order, and entry i depends only on potency i |
| `Dosing.GramsList` | src/commonMain/kotlin/app/pmsoft/fatrobin/FatRobinCalculator.kt:83-85 | one coverage figure per potency, in order, entry i from potency i alone |
| `Dosing.ItemsList` | src/commonMain/kotlin/app/pmsoft/fatrobin/FatRobinCalculator.kt:155-157 | one item count per potency, in order, entry i from potency i alone |
| `Dosing.PillsForWeight` | src/commonMain/kotlin/app/pmsoft/fatrobin/FatRobinCalculator.kt:62-72 | the shared pill formula is null exactly when the fat content or the weight is missing, and otherwise has one entry per potency |
| `Dosing.PortionPills` | src/commonMain/kotlin/app/pmsoft/fatrobin/FatRobinCalculator.kt:62-72 | `getPortionPills` is null exactly when the fat content or the direct weight is missing, and otherwise has one count per potency |
| `Dosing.GramsPerPill` | src/commonMain/kotlin/app/pmsoft/fatrobin/FatRobinCalculator.kt:80-86 | `getGramsPerPill` is null exactly when the fat content is missing, and otherwise has one figure per potency |
| `Dosing.SubPackagePills` | src/commonMain/kotlin/app/pmsoft/fatrobin/FatRobinCalculator.kt:94-104 | `getSubPackagePills` is null exactly when the fat content or the package weight is missing or the portions are missing or not positive, and otherwise has one count per potency |
| `Dosing.PackagePills` | src/commonMain/kotlin/app/pmsoft/fatrobin/FatRobinCalculator.kt:112-122 | `getPackagePills` is null exactly when the fat content or the package weight is missing, and otherwise has one count per potency |
| `Dosing.PillsPerFoodItem` | src/commonMain/kotlin/app/pmsoft/fatrobin/FatRobinCalculator.kt:130-140 | `getPillsPerFoodItem` is null exactly when the fat content or the effective item weight is missing, and otherwise has one count per potency |
| `Dosing.ItemUnitsNeeded` | src/commonMain/kotlin/app/pmsoft/fatrobin/FatRobinCalculator.kt:149-153 | the units per food item are known exactly when the fat content and the effective item weight are |
| `Dosing.FoodItemsPerPill` | src/commonMain/kotlin/app/pmsoft/fatrobin/FatRobinCalculator.kt:148-158 | `getFoodItemsPerPill` is null exactly when the fat content or the effective item weight is missing, and otherwise has one count per potency |
| `Dosing.WithFoodItemWeight` | src/commonMain/kotlin/app/pmsoft/fatrobin/FatRobinCalculator.kt:21-29 | setting the item weight always stores the value; with a positive value and a positive package weight the item count becomes the one whose product with the value is the package weight; otherwise the count and every other input are unchanged |
| `Dosing.WithFoodItems` | src/commonMain/kotlin/app/pmsoft/fatrobin/FatRobinCalculator.kt:31-39 | setting the item count always stores the value; with a positive value and a positive package weight the item weight becomes the one whose product with the count is the package weight; otherwise the weight and every other input are unchanged |
| `Calculator.FatRobinCalculator.constructor` | src/commonMain/kotlin/app/pmsoft/fatrobin/FatRobinCalculator.kt:10-19 | a new calculator holds six nulls |
| `Calculator.FatRobinCalculator.SetFoodItemWeight` | src/commonMain/kotlin/app/pmsoft/fatrobin/FatRobinCalculator.kt:21-29 | the new fields are `WithFoodItemWeight` of the old ones: the value is stored, and the count follows it only under the positivity condition |
| `Calculator.FatRobinCalculator.SetFoodItems` | src/commonMain/kotlin/app/pmsoft/fatrobin/FatRobinCalculator.kt:31-39 | the new fields are `WithFoodItems` of the old ones: the value is stored, and the weight follows it only under the positivity condition |
| `Calculator.FatRobinCalculator.Clear` | src/commonMain/kotlin/app/pmsoft/fatrobin/FatRobinCalculator.kt:212-219 | afterwards all six inputs are null |
| `DosingProperties.PillsCoverNeed` | src/commonMain/kotlin/app/pmsoft/fatrobin/FatRobinCalculator.kt:66-71 | pills round up: (k − 1) × dose < units needed ≤ k × dose, so the pills never supply less than the need and one fewer would |
| `DosingProperties.PillCountsRoundUp` | src/commonMain/kotlin/app/pmsoft/fatrobin/FatRobinCalculator.kt:62-140 | in the per-potency list that all four pill queries return, entry i is the fewest pills of potency i that supply the units needed: (k − 1) × dose < units ≤ k × dose |
| `DosingProperties.PortionPillsRoundUp` | src/commonMain/kotlin/app/pmsoft/fatrobin/FatRobinCalculator.kt:62-72 | when the fat content and the direct weight are known, entry i of `getPortionPills` is the fewest pills of potency i that supply the portion's units, whenever that count fits an Int |
| `DosingProperties.SubPackagePillsRoundUp` | src/commonMain/kotlin/app/pmsoft/fatrobin/FatRobinCalculator.kt:94-104 | when the package is divided into positive portions, entry i of `getSubPackagePills` is the fewest pills of potency i that supply the units of package weight / portions, whenever that count fits an Int |
| `DosingProperties.PackagePillsRoundUp` | src/commonMain/kotlin/app/pmsoft/fatrobin/FatRobinCalculator.kt:112-122 | when the fat content and the package weight are known, entry i of `getPackagePills` is the fewest pills of potency i that supply the package's units, whenever that count fits an Int |
| `DosingProperties.PillsPerFoodItemRoundUp` | src/commonMain/kotlin/app/pmsoft/fatrobin/FatRobinCalculator.kt:130-140 | when the units per item are known, entry i of `getPillsPerFoodItem` is the fewest pills of potency i that supply them, whenever that count fits an Int |
| `DosingProperties.ZeroFatNeedsNoPills` | src/commonMain/kotlin/app/pmsoft/fatrobin/FatRobinCalculator.kt:62-72 | zero fat with a known weight gives 0 pills for every potency, not null |
| `DosingProperties.PillsMonotone` | src/commonMain/kotlin/app/pmsoft/fatrobin/FatRobinCalculator.kt:66-70 | for non-negative inputs, more fat or more product never needs fewer pills |
| `DosingProperties.GramsPerPillCovered` | src/commonMain/kotlin/app/pmsoft/fatrobin/FatRobinCalculator.kt:80-86 | for fat > 0 the grams g one pill covers need at most the pill's units, and g + 1 grams would need more |
| `DosingProperties.FoodItemsPerPillCovered` | src/commonMain/kotlin/app/pmsoft/fatrobin/FatRobinCalculator.kt:148-158 | for a positive need per item, the k items one pill covers need at most its units, and k + 1 items would need more |
| `DosingProperties.GramsPerPillQueryCovered` | src/commonMain/kotlin/app/pmsoft/fatrobin/FatRobinCalculator.kt:80-86 | for fat > 0, the g grams that entry i of `getGramsPerPill` reports need at most the units of potency i, and g + 1 grams would need more |
| `DosingProperties.FoodItemsPerPillQueryCovered` | src/commonMain/kotlin/app/pmsoft/fatrobin/FatRobinCalculator.kt:148-158 | for a positive need per item, the k items that entry i of `getFoodItemsPerPill` reports need at most the units of potency i, and k + 1 items would need more, whenever k fits an Int |
| `DosingProperties.FlagsMatchQueries` | src/commonMain/kotlin/app/pmsoft/fatrobin/FatRobinCalculator.kt:163-182 | `hasDirectWeight` (`Dosing.HasDirectWeight`) is true exactly when `getPortionPills` answers, `hasPackageDivision` (`Dosing.HasPackageDivision`) exactly when `getSubPackagePills` does, `hasPackage` (`Dosing.HasPackage`) exactly when `getPackagePills` does, and `hasFoodItem` (`Dosing.HasFoodItem`) exactly when `getPillsPerFoodItem` answers and the units per item are known |
| `DosingProperties.NoFatNoAnswers` | src/commonMain/kotlin/app/pmsoft/fatrobin/FatRobinCalculator.kt:62-158 | without the fat content all six queries are null and all four flags false |
| `DosingProperties.NoPositivePortionsNoDivision` | src/commonMain/kotlin/app/pmsoft/fatrobin/FatRobinCalculator.kt:169-170 | missing or non-positive portions make the portion weight and the sub-package pills null and `hasPackageDivision` false |
| `DosingProperties.EmptyOffersNothing` | src/commonMain/kotlin/app/pmsoft/fatrobin/FatRobinCalculator.kt:212-219 | after clearing, both derived weights and all six queries are null and every flag is false |
| `DosingProperties.EffectiveWeightAfterSettingItemWeight` | src/commonMain/kotlin/app/pmsoft/fatrobin/FatRobinCalculator.kt:21-47 | with package W > 0, setting the item weight to x > 0 makes the count W/x and the effective item weight exactly x |
| `DosingProperties.EffectiveWeightAfterSettingItems` | src/commonMain/kotlin/app/pmsoft/fatrobin/FatRobinCalculator.kt:31-47 | with package W > 0, setting the count to n > 0 makes the item weight and the effective item weight W/n |
| `DosingProperties.LinkedPairConsistent` | src/commonMain/kotlin/app/pmsoft/fatrobin/FatRobinCalculator.kt:21-39 | after either linked setter with a positive value under a positive package weight, item weight × item count = package weight and the effective weight is the stored weight |
| `DosingProperties.LastLinkedSetWins` | src/commonMain/kotlin/app/pmsoft/fatrobin/FatRobinCalculator.kt:21-39 | a positive value given to either linked setter under a positive package weight fixes both fields whatever they held before |
| `CalculatorScenarios.BasicPortion` | src/commonTest/kotlin/app/pmsoft/fatrobin/FatRobinCalculatorTest.kt:11-22 | 10 g fat per 100 g and 50 g give [1, 1] |
| `CalculatorScenarios.RoundingEdgeCase` | src/commonTest/kotlin/app/pmsoft/fatrobin/FatRobinCalculatorTest.kt:173-184 | 35000 units give 4 pills of 10000 and exactly 1 of 35000 |
| `CalculatorScenarios.LargePortion` | src/commonTest/kotlin/app/pmsoft/fatrobin/FatRobinCalculatorTest.kt:147-158 | 200000 units give [20, 6] |
| `CalculatorScenarios.ZeroFat` | src/commonTest/kotlin/app/pmsoft/fatrobin/FatRobinCalculatorTest.kt:135-145 | zero fat gives [0, 0] |
| `CalculatorScenarios.PackageAndDivision` | src/commonTest/kotlin/app/pmsoft/fatrobin/FatRobinCalculatorTest.kt:37-62 | a 120 g package in 3 portions gives 40 g portions, [1, 1] per portion and [3, 1] for the package |
| `CalculatorScenarios.GramsCoveredWithFatOnly` | src/commonTest/kotlin/app/pmsoft/fatrobin/FatRobinCalculatorTest.kt:296-307 | fat 10 alone gives 50 g and 175 g per pill |
| `CalculatorScenarios.FoodItemFigures` | src/commonTest/kotlin/app/pmsoft/fatrobin/FatRobinCalculatorTest.kt:64-102 | a 25 g item at fat 10 needs [1, 1] pills, and one pill covers [2, 7] items; 30 g items from a 120 g package of 4 need [1, 1] pills |
| `CalculatorScenarios.LinkedItemFields` | src/commonTest/kotlin/app/pmsoft/fatrobin/FatRobinCalculatorTest.kt:186-204 | package 120 with 4 items gives 30 g; then item weight 25 gives count 4.8 and effective weight 25; after clearing, 25 stays 25 |
| `CalculatorScenarios.UnlinkedItemFields` | src/commonTest/kotlin/app/pmsoft/fatrobin/FatRobinCalculatorTest.kt:233-256 | without a package, or with a zero or negative value, the other linked field is left alone |
| `CalculatorScenarios.AvailabilityAsInputsArrive` | src/commonTest/kotlin/app/pmsoft/fatrobin/FatRobinAppTest.kt:25-63 | the four flags follow the test's table as the inputs arrive one by one |
| `CalculatorScenarios.ClearResetsEverything` | src/commonTest/kotlin/app/pmsoft/fatrobin/FatRobinAppTest.kt:65-83 | clearing a filled calculator leaves all six inputs null |

## Left out

- `Dosing.GramsPerPill`: requires a non-zero fat content when the fat content is present. With zero fat, the source divides by zero and returns positive or negative Infinity for each non-zero potency, and NaN for a zero potency, since `floor` of `0.0 / 0.0` is NaN. Infinity and NaN are IEEE-754 values that the real-valued model does not have.
- `Dosing.FoodItemsPerPill`: requires the units per item to be non-zero when they are known. With zero units the source's `floor(dose / 0.0).toInt()` saturates to the largest or smallest Int, depending on the sign of the zero and of the potency, and the model has no signed zero. A zero potency divided by zero units gives NaN, which `toInt()` turns into 0.
- `Dosing.PortionPills`, `Dosing.SubPackagePills`, `Dosing.PackagePills`, `Dosing.PillsPerFoodItem`: require every potency to be positive. The source accepts any `Int`. With a zero or negative potency, `ceil(unitsNeeded / dose).toInt()` (lines 70, 102, 120 and 138) gives `Int.MAX_VALUE`, `Int.MIN_VALUE`, 0 or a negative count: a zero potency divides into Infinity or NaN, and `toInt()` turns those into the Int bounds and 0. The model leaves these counts out.
- `Dosing.GramsPerPill`: requires a positive `dosingFactor`. The source accepts any Double; the app only passes the default of 2000.
- Double arithmetic is modelled by exact reals. Rounding of the intermediate products and quotients, NaN and Infinity inputs are not modelled, so a quotient that lands a rounding error away from an integer may round differently in the app. The linked-setter round trip holds only over reals: `DosingProperties.EffectiveWeightAfterSettingItemWeight` gives back exactly the weight set, and `DosingProperties.LinkedPairConsistent` makes weight × count exactly the package weight, but in doubles `120.0 / (120.0 / 13.0)` is not exactly `13.0`.
- The description strings (`packageDivisionDescription`, `foodItemDescription`, `directWeightDescription`) are not modelled. They are locale-dependent `String.format` output.
- Field privacy is not modelled: `_foodItemWeight` and `_foodItems` are private in the source. In Dafny they are public fields, so a caller could assign them directly and bypass the linked setters.
- The strict `calculatePillsNeeded` entry point and its `PillCalculation` result are not part of this model. Only their tests and callers are in the repository; their source is not.
- The Compose user interface, the input text filtering and the results table are not part of this model. This includes the UI's own copy of the effective-weight rule.
- `DosingProperties.PillsCoverNeed`, `DosingProperties.PillCountsRoundUp`, `DosingProperties.PortionPillsRoundUp`, `DosingProperties.SubPackagePillsRoundUp`, `DosingProperties.PackagePillsRoundUp`, `DosingProperties.PillsPerFoodItemRoundUp`: hold only when the rounded-up quotient fits an Int. Beyond 2147483647 pills, the source's `toInt()` saturates and the count no longer covers the need; `Dosing.PillsForDose` states that saturation.
