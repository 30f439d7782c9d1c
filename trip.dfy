/** The journey's progress: miles travelled and the date (src/trip.rs). The random draw
    of `turn` is a parameter, and the date is a count of days after 29 March 1847. */
module Trip {
  import opened U32
  import opened Arith

  /** Miles every turn covers before the oxen bonus. */
  const BaseMiles: nat := 200
  /** Amount spent on oxen at which the bonus is zero. */
  const OxenThreshold: nat := 220
  /** Days that pass in one turn. */
  const DaysPerTurn: nat := 14
  /** The draw of `turn` is uniform in [0, DrawBound). */
  const DrawBound: nat := 10

  /** The miles one turn adds: 200 plus the oxen spend above 220 divided by 5 plus the
      draw. The source subtracts 220 in `u32`, so less than 220 is excluded. */
  function TurnMiles(oxen: u32, draw: nat): (miles: nat)
    requires OxenThreshold <= oxen && draw < DrawBound
    ensures BaseMiles + (oxen - OxenThreshold) / (5 + DrawBound - 1) <= miles
    ensures miles <= BaseMiles + (oxen - OxenThreshold) / 5
  {
    DivAntitone(oxen - OxenThreshold, 5 + draw, 5 + DrawBound - 1);
    DivAntitone(oxen - OxenThreshold, 5, 5 + draw);
    BaseMiles + (oxen - OxenThreshold) / (5 + draw)
  }

  /** More money on oxen never means fewer miles for the same draw. */
  lemma TurnMilesMonotoneInOxen(a: u32, b: u32, draw: nat)
    requires OxenThreshold <= a <= b && draw < DrawBound
    ensures TurnMiles(a, draw) <= TurnMiles(b, draw)
  {
    DivMonotone(a - OxenThreshold, b - OxenThreshold, 5 + draw);
  }

  /** A larger draw never means more miles for the same oxen. */
  lemma TurnMilesAntitoneInDraw(oxen: u32, d1: nat, d2: nat)
    requires OxenThreshold <= oxen && d1 <= d2 < DrawBound
    ensures TurnMiles(oxen, d2) <= TurnMiles(oxen, d1)
  {
    DivAntitone(oxen - OxenThreshold, 5 + d1, 5 + d2);
  }

  /** With 300 spent on oxen a turn covers between 205 and 216 miles whatever the draw,
      inside the bounds the source's test checks (more than 200, less than 300). */
  lemma TurnMilesWith300(draw: nat)
    requires draw < DrawBound
    ensures 205 <= TurnMiles(300, draw) <= 216
    ensures 200 < TurnMiles(300, draw) < 300
  {
  }

  /** Rust's signed `/`, which rounds toward zero: the quotient has the sign of the
      dividend, and its magnitude is the largest multiplier of the divisor that stays at
      or below the dividend's magnitude. */
  function TruncDiv(a: int, b: nat): (q: int)
    requires 0 < b
    ensures 0 <= a ==> 0 <= q
    ensures a < 0 ==> q <= 0
    ensures var m := if a < 0 then -a else a;
            var k := if q < 0 then -q else q;
            k * b <= m < (k + 1) * b
  {
    var m: nat := if a < 0 then -a else a;
    DivBounds(m, b);
    NonNegativeQuotient(m, b);
    if 0 <= a then m / b else -(m / b)
  }

  /** Negating the dividend negates the quotient. */
  lemma TruncDivOdd(a: int, b: nat)
    requires 0 < b
    ensures TruncDiv(-a, b) == -TruncDiv(a, b)
  {
    if a == 0 {
      assert 0 / b == 0;
    }
  }

  /** Rust's `-20 / 6` is -3, where the Euclidean quotient is -4. */
  lemma TruncDivExample()
    ensures TruncDiv(-20, 6) == -3 && -20 / 6 == -4
  {
  }

  /** The turn distance the doc comment of `turn` describes (an oxen spend of 200 gives
      just under 200 miles): the same formula with a signed difference, defined for
      every `u32` spend. It is always positive (at least 156 miles, for no oxen at all),
      so a turn never moves the trip backwards, and where the source's `u32` arithmetic
      does not underflow the two agree. */
  function IntendedTurnMiles(oxen: u32, draw: nat): (miles: int)
    requires draw < DrawBound
    ensures BaseMiles - OxenThreshold / 5 <= miles
    ensures OxenThreshold <= oxen ==> miles == TurnMiles(oxen, draw)
  {
    if oxen < OxenThreshold then
      DivMonotone(OxenThreshold - oxen, OxenThreshold, 5 + draw);
      DivAntitone(OxenThreshold, 5, 5 + draw);
      BaseMiles + TruncDiv(oxen - OxenThreshold, 5 + draw)
    else
      BaseMiles + TruncDiv(oxen - OxenThreshold, 5 + draw)
  }

  /** With 200 spent on oxen, the least `buy_oxen` accepts, the intended distance is
      between 196 and 199 miles. */
  lemma IntendedTurnMilesWith200(draw: nat)
    requires draw < DrawBound
    ensures 196 <= IntendedTurnMiles(200, draw) <= 199
  {
  }

  /** The intended distance never decreases as the oxen spend grows. */
  lemma IntendedTurnMilesMonotone(a: u32, b: u32, draw: nat)
    requires a <= b && draw < DrawBound
    ensures IntendedTurnMiles(a, draw) <= IntendedTurnMiles(b, draw)
  {
    if OxenThreshold <= a {
      MonotoneAbove(a, b, draw);
    } else if b < OxenThreshold {
      MonotoneBelow(a, b, draw);
    } else {
      MonotoneAcross(a, b, draw);
    }
  }

  lemma MonotoneAbove(a: u32, b: u32, draw: nat)
    requires OxenThreshold <= a <= b && draw < DrawBound
    ensures IntendedTurnMiles(a, draw) <= IntendedTurnMiles(b, draw)
  {
    DivMonotone(a - OxenThreshold, b - OxenThreshold, 5 + draw);
  }

  lemma MonotoneBelow(a: u32, b: u32, draw: nat)
    requires a <= b < OxenThreshold && draw < DrawBound
    ensures IntendedTurnMiles(a, draw) <= IntendedTurnMiles(b, draw)
  {
  }

  lemma MonotoneAcross(a: u32, b: u32, draw: nat)
    requires a < OxenThreshold <= b && draw < DrawBound
    ensures IntendedTurnMiles(a, draw) <= BaseMiles <= IntendedTurnMiles(b, draw)
  {
  }

  class Trip {
    var milesTraveled: u32
    /** Days after 29 March 1847. */
    var currentDate: nat

    /** A trip starts at mile 0 on 29 March 1847. */
    constructor ()
      ensures milesTraveled == 0 && currentDate == 0
    {
      milesTraveled := 0;
      currentDate := 0;
    }

    method MilesTraveled() returns (miles: u32)
      ensures miles == milesTraveled
    {
      miles := milesTraveled;
    }

    method CurrentDate() returns (days: nat)
      ensures days == currentDate
    {
      days := currentDate;
    }

    /** Moves the trip forward by `miles`; the `u32` sum must not overflow. */
    method Travel(miles: u32)
      requires milesTraveled + miles <= MAX
      modifies this
      ensures milesTraveled == old(milesTraveled) + miles
      ensures currentDate == old(currentDate)
    {
      milesTraveled := milesTraveled + miles;
    }

    /** Moves the trip back by `miles`; the `u32` subtraction must not underflow. */
    method Reverse(miles: u32)
      requires miles <= milesTraveled
      modifies this
      ensures milesTraveled == old(milesTraveled) - miles
      ensures currentDate == old(currentDate)
    {
      milesTraveled := milesTraveled - miles;
    }

    /** One turn of the game: the miles of `TurnMiles` for this draw, and two weeks. */
    method Turn(oxen: u32, draw: nat)
      requires OxenThreshold <= oxen && draw < DrawBound
      requires milesTraveled + TurnMiles(oxen, draw) <= MAX
      modifies this
      ensures milesTraveled == old(milesTraveled) + TurnMiles(oxen, draw)
      ensures currentDate == old(currentDate) + DaysPerTurn
    {
      var turnMiles := BaseMiles + (oxen - OxenThreshold) / (5 + draw);
      milesTraveled := milesTraveled + turnMiles;
      currentDate := currentDate + DaysPerTurn;
    }
  }

  /** The source's tests of `new`, `travel` and `reverse`: a new trip is at mile 0 on
      the start date, `travel(200)` reaches mile 200, and `reverse(100)` then gives 100. */
  method TravelThenReverse() returns (start: u32, startDate: nat, afterTravel: u32, afterReverse: u32)
    ensures start == 0 && startDate == 0
    ensures afterTravel == 200 && afterReverse == 100
  {
    var trip := new Trip();
    start := trip.MilesTraveled();
    startDate := trip.CurrentDate();
    trip.Travel(200);
    afterTravel := trip.MilesTraveled();
    trip.Reverse(100);
    afterReverse := trip.MilesTraveled();
  }

  /** The source's test of `turn`: from a new trip, `turn(300)` ends strictly between
      200 and 300 miles, whatever the draw, and on the date two weeks later. */
  method FirstTurn(draw: nat) returns (miles: u32, days: nat)
    requires draw < DrawBound
    ensures 200 < miles < 300
    ensures days == DaysPerTurn
  {
    var trip := new Trip();
    TurnMilesWith300(draw);
    trip.Turn(300, draw);
    miles := trip.MilesTraveled();
    days := trip.CurrentDate();
  }
}
