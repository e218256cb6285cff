/**
 * The stateful part of the FatRobin dosing calculator: an object holding the
 * six nullable inputs, whose food-item weight and food-item count setters
 * keep each other in step, and which can be cleared. Every query reads the
 * object through Snapshot() and is answered by module Dosing.
 */
module Calculator {
  import opened Dosing

  class FatRobinCalculator {
    // Plain Kotlin properties: assigning one is the whole of its setter.
    var fatPer100g: Option<real>
    var directWeight: Option<real>
    var packageWeight: Option<real>
    var portions: Option<real>
    // The private backing fields of the linked properties foodItemWeight and
    // foodItems; their getters return them unchanged. Change them only through
    // SetFoodItemWeight and SetFoodItems.
    var foodItemWeight: Option<real>
    var foodItems: Option<real>

    /** The six stored inputs as a value. */
    function Snapshot(): Inputs
      reads this
    {
      Inputs(fatPer100g, directWeight, packageWeight, portions, foodItemWeight, foodItems)
    }

    constructor ()
      ensures Snapshot() == Empty
    {
      fatPer100g, directWeight, packageWeight, portions := None, None, None, None;
      foodItemWeight, foodItems := None, None;
    }

    /** The setter of foodItemWeight. */
    method SetFoodItemWeight(value: Option<real>)
      modifies this
      ensures Snapshot() == WithFoodItemWeight(old(Snapshot()), value)
      ensures foodItemWeight == value
      ensures Positive(value) && Positive(packageWeight) ==> foodItems == Some(packageWeight.value / value.value)
      ensures !(Positive(value) && Positive(packageWeight)) ==> foodItems == old(foodItems)
    {
      foodItemWeight := value;
      if value.Some? && value.value > 0.0 && packageWeight.Some? && packageWeight.value > 0.0 {
        foodItems := Some(packageWeight.value / value.value);
      }
    }

    /** The setter of foodItems. */
    method SetFoodItems(value: Option<real>)
      modifies this
      ensures Snapshot() == WithFoodItems(old(Snapshot()), value)
      ensures foodItems == value
      ensures Positive(value) && Positive(packageWeight) ==> foodItemWeight == Some(packageWeight.value / value.value)
      ensures !(Positive(value) && Positive(packageWeight)) ==> foodItemWeight == old(foodItemWeight)
    {
      foodItems := value;
      if value.Some? && value.value > 0.0 && packageWeight.Some? && packageWeight.value > 0.0 {
        foodItemWeight := Some(packageWeight.value / value.value);
      }
    }

    /** Forget every input. */
    method Clear()
      modifies this
      ensures Snapshot() == Empty
    {
      fatPer100g := None;
      directWeight := None;
      packageWeight := None;
      portions := None;
      foodItemWeight := None;
      foodItems := None;
    }
  }
}
