/** The diet choice of the trail game: the menu number the player types and the food
    ration each choice stands for (src/meal.rs). */
module Meal {
  import opened U32

  datatype MealChoice = Unknown | Poorly | Moderately | Well

  /** Decodes a menu number; anything but 1, 2 or 3 is `Unknown`. */
  function FromU32(value: u32): (m: MealChoice)
    ensures m == Unknown <==> value < 1 || 3 < value
  {
    match value
    case 1 => Poorly
    case 2 => Moderately
    case 3 => Well
    case _ => Unknown
  }

  /** The menu number of a known choice, the inverse of `FromU32`. */
  function MenuNumber(m: MealChoice): (v: u32)
    requires m != Unknown
    ensures 1 <= v <= 3
  {
    match m
    case Poorly => 1
    case Moderately => 2
    case Well => 3
  }

  /** Decoding the menu number of a known choice gives that choice back. */
  lemma FromU32MenuNumber(m: MealChoice)
    requires m != Unknown
    ensures FromU32(MenuNumber(m)) == m
  {
  }

  /** Every menu number in 1..3 is the menu number of the choice it decodes to. */
  lemma MenuNumberFromU32(value: u32)
    requires 1 <= value <= 3
    ensures FromU32(value) != Unknown && MenuNumber(FromU32(value)) == value
  {
  }

  /** The food ration of a choice: 8 plus 5 per step of the menu. `Unknown` panics in
      the source, so it is excluded here. */
  function ToFood(m: MealChoice): (food: u32)
    requires m != Unknown
    ensures food == 8 + 5 * MenuNumber(m)
  {
    match m
    case Poorly => 8 + 5
    case Moderately => 8 + 10
    case Well => 8 + 15
  }

  /** A higher menu number means a strictly larger ration. */
  lemma ToFoodIncreasing(v1: u32, v2: u32)
    requires 1 <= v1 < v2 <= 3
    ensures ToFood(FromU32(v1)) < ToFood(FromU32(v2))
  {
  }
}
