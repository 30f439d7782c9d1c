/** A discrepancy between `buy_oxen` and `turn` (src/supplies.rs:97-102, src/trip.rs:46). */
module Findings {
  import opened U32
  import opened Supplies
  import opened Trip

  /** As written: every oxen spend from 200 to 219 is an accepted purchase on a new
      ledger, yet `turn` with that spend computes `oxen - 220` in `u32`, which underflows
      (a panic in a debug build, a wrapped value near 2^32 otherwise). `TurnMiles`
      therefore excludes it. */
  lemma AcceptedOxenUnderflowTurn(spend: u32)
    requires OxenMin <= spend < OxenThreshold
    ensures Apply(Fresh, PurchaseOxen(spend)).result == Ok
    ensures Apply(Fresh, PurchaseOxen(spend)).after.oxen == spend < OxenThreshold
  {
  }

  /** Corrected: with a signed difference the same spend gives just under 200 miles, as
      the doc comment of `turn` describes; with the code's divisor of 5 to 14 that is 196
      to 199 miles. The formula agrees with the source from 220 up. */
  lemma CorrectedTurnForAcceptedOxen(spend: u32, draw: nat)
    requires OxenMin <= spend <= OxenMax && draw < DrawBound
    ensures Apply(Fresh, PurchaseOxen(spend)).result == Ok
    ensures BaseMiles - OxenThreshold / 5 <= IntendedTurnMiles(spend, draw)
    ensures spend == OxenMin ==> 196 <= IntendedTurnMiles(spend, draw) <= 199
    ensures OxenThreshold <= spend ==> IntendedTurnMiles(spend, draw) == TurnMiles(spend, draw)
  {
  }
}
