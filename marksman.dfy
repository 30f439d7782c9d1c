/** The player's self-assessed shooting skill, decoded from a menu number
    (src/marksman.rs). */
module Marksman {
  import opened U32

  datatype MarksmanQuality = Unknown | Ace | GoodShot | Fair | NeedPractice | Shaky

  /** Decodes a menu number; anything but 1 to 5 is `Unknown`. */
  function FromU32(value: u32): (q: MarksmanQuality)
    ensures q == Unknown <==> value == 0 || value > 5
  {
    match value
    case 1 => Ace
    case 2 => GoodShot
    case 3 => Fair
    case 4 => NeedPractice
    case 5 => Shaky
    case _ => Unknown
  }

  /** The menu number of a known quality, the inverse of `FromU32`. */
  function Rank(q: MarksmanQuality): (v: u32)
    requires q != Unknown
    ensures 1 <= v <= 5
  {
    match q
    case Ace => 1
    case GoodShot => 2
    case Fair => 3
    case NeedPractice => 4
    case Shaky => 5
  }

  /** Decoding is the inverse of `Rank` on 1..5. */
  lemma FromU32Rank(value: u32)
    requires 1 <= value <= 5
    ensures FromU32(value) != Unknown && Rank(FromU32(value)) == value
  {
  }

  /** Distinct menu numbers in 1..5 decode to distinct qualities. */
  lemma FromU32Injective(a: u32, b: u32)
    requires 1 <= a <= 5 && 1 <= b <= 5
    requires FromU32(a) == FromU32(b)
    ensures a == b
  {
  }
}
