# Oregon Trail (1978) rules core, in Dafny

This project models the rules of a Rust port of the 1978 Oregon Trail game. It also
proves properties of that model. Four small pieces hold the game's state and rules:

- **the supplies ledger** (`Supplies`): the player's money (700 at the start), the five stocks (oxen, food, ammunition, clothes, miscellaneous) and a cost premium.
  - An oxen purchase must be affordable and between 200 and 300. The checks run in that order.
  - Any other purchase only has to be affordable. It receives `spend * (1 - premium)` units, rounded down.
  - A rejected purchase changes nothing. An accepted one deducts the full spend and *replaces* the stock it buys.
  - The status line shows food, ammo, clothes, misc and money, in that order.
- **the trip** (`Trip`): miles travelled and the date.
  - `travel` adds miles and `reverse` subtracts them.
  - `turn` adds `200 + (oxen - 220) / (5 + r)` miles, where `r` is a random draw in [0, 10), and moves the date forward 14 days.
- **menu decoders** (`Meal`, `Marksman`): menu numbers are mapped to diet and marksmanship choices, with `Unknown` as the fallback. `Meal.ToFood` gives the food ration of a known diet.
- **number input** (`Ask`): the line typed by the player loses every whitespace character. The rest is parsed as a `u32`, and anything unparsable counts as 0.

`Startup` models the opening loop of the game, which asks for a marksman rating until the
answer is valid. `Findings` holds the one defect found in the source (see below). `U32`,
`Decimal` and `Arith` are shared helpers: the `u32` range, decimal numerals, and division
facts.

Each class (`Supplies.Supplies`, `Trip.Trip`) updates its fields in place.
`Supplies.Supplies` exposes its state as a `Ledger` value (`Model()`). Each method is
specified by the pure function `Supplies.Apply`. The lemmas about `Apply` and `Run`
(a sequence of calls) state the ledger's promises for every input.

Modelling choices:

- The `f32` cost premium is the exact fraction `num / den`, with `den > 0`.
  - The units received are `spend * (den - num) / den`, rounded toward zero.
  - As Rust's float-to-`u32` cast does, a non-positive result gives 0 and a result too large for a `u32` gives `u32::MAX`.
  - A premium of 3/10 on 200 gives 140, as the source's tests expect.
- The random draw of `turn` is a parameter `draw` with `draw < 10`.
- The date is a number of days after 29 March 1847.
- A `u32` operation that panics in a debug build is a precondition. This covers the `oxen - 220` of `turn` and the `+=` / `-=` on the miles.
- Whitespace is exactly the Unicode White_Space set, which is the set `char::is_whitespace` tests.
- `parse::<u32>` accepts an optional leading `+` and then one or more ASCII digits whose value fits in a `u32`.

The model follows the code, including where it departs from what a reader of the game might expect:

- Purchases overwrite a stock rather than restocking additively (src/supplies.rs:102,111,120,129,138). `Supplies.PurchasesOverwrite` shows that two food purchases of 200 leave 200.
- `turn` subtracts 220 in `u32` rather than in a signed intermediate (src/trip.rs:46); see "## Findings".
- The ledger has no operation that spends money or consumes supplies other than the purchases, and there are no illness or doctor visits.

## Model

| member | source | states |
|---|---|---|
| `Decimal.ToDecimal` | src/supplies.rs:48-49 | the `{}` numeral of a number is non-empty, all digits, and has no leading zero unless it is "0" |
| `Decimal.ValueOfToDecimal` | src/ask.rs:13 | reading a numeral back as digits gives the number it was printed from |
| `Decimal.ToDecimalInjective` | src/supplies.rs:48-49 | distinct numbers print as distinct numerals |
| `Supplies.OxenVerdict` | src/supplies.rs:95-101 | an oxen buy is accepted iff affordable and in [200, 300]; insufficient funds iff spend > money, whatever the range; too little iff affordable and < 200; too much iff affordable and > 300; error payload is (spend, money, 200, 300) |
| `Supplies.SupplyVerdict` | src/supplies.rs:108-110 | a food/ammo/clothes/misc buy is accepted iff spend <= money (no lower or upper bound, 0 accepted); the error is InsufficientFunds with payload (spend, money, 0, money) |
| `Supplies.Received` | src/supplies.rs:111 | units received are the floor of spend*(1 - premium): units*den <= spend*(den-num) < (units+1)*den below the u32 cap; 0 when premium >= 1; never more than spend for a premium >= 0; exactly spend at premium 0 |
| `Supplies.FloorOfProduct` | src/supplies.rs:111 | the quotient of spend*(den-num) by den is its floor, at most spend for num >= 0 and equal to spend for num = 0 |
| `Supplies.Apply` | src/supplies.rs:66-141 | a rejected call changes nothing; the verdict is the oxen or supply check; an accepted buy deducts exactly spend; oxen buy sets oxen to spend; a supply buy sets that stock to the units received; every other stock, the oxen and the premium are unchanged; set_premium only replaces the premium |
| `Supplies.RunAccounts` | src/supplies.rs:94-141 | over any sequence of calls, money left plus money spent on accepted purchases equals the money at the start: money never underflows or grows |
| `Supplies.FreshNeverExceedsStake` | src/supplies.rs:54-64 | from a new ledger, money after any sequence of calls is 700 minus what was spent, so at most 700 |
| `Supplies.PurchasesOverwrite` | src/supplies.rs:107-113 | two food purchases of 200 from a new ledger leave 200 food (overwritten, not 400) and 300 money |
| `Supplies.PremiumPurchase` | src/supplies.rs:331-365 | at premium 3/10, buying any stock for 200 on a new ledger gives 140 units and leaves 500 money |
| `Supplies.ShoppingResult` | src/supplies.rs:367-375 | oxen 200 then food 10, ammo 20, clothes 30, misc 40 leave money 400 and those stocks |
| `Supplies.DisplayAfterShopping` | src/supplies.rs:367-378 | after that shopping the status line is the header followed by the row 10, 20, 30, 40, 400 |
| `Supplies.StatusLine` | src/supplies.rs:46-50 | `Display for Supplies` begins with the header and ends with a newline |
| `Supplies.ReadRowOfRow` | src/supplies.rs:48-49 | a tab-separated row of numerals reads back as the numbers it was made from |
| `Supplies.StatusLineReadsBack` | src/supplies.rs:46-50 | the status line begins with the header and its row reads back as food, ammo, clothes, misc, money, in that order |
| `Supplies.Supplies.constructor` | src/supplies.rs:54-64 | a new ledger has money 700, every stock 0 and premium 0 |
| `Supplies.Supplies.SetPremium` | src/supplies.rs:66-68 | replaces the premium and nothing else |
| `Supplies.Supplies.MoneyLeft` | src/supplies.rs:70-72 | returns the money held |
| `Supplies.Supplies.OxenLeft` | src/supplies.rs:74-76 | returns the oxen stock |
| `Supplies.Supplies.FoodLeft` | src/supplies.rs:78-80 | returns the food stock |
| `Supplies.Supplies.AmmoLeft` | src/supplies.rs:82-84 | returns the ammunition stock |
| `Supplies.Supplies.ClothesLeft` | src/supplies.rs:86-88 | returns the clothes stock |
| `Supplies.Supplies.MiscLeft` | src/supplies.rs:90-92 | returns the miscellaneous stock |
| `Supplies.Supplies.BuyOxen` | src/supplies.rs:94-105 | result and new state are those of `Apply` on an oxen purchase |
| `Supplies.Supplies.BuyFood` | src/supplies.rs:107-114 | result and new state are those of `Apply` on a food purchase |
| `Supplies.Supplies.BuyAmmo` | src/supplies.rs:116-123 | result and new state are those of `Apply` on an ammunition purchase |
| `Supplies.Supplies.BuyClothes` | src/supplies.rs:125-132 | result and new state are those of `Apply` on a clothes purchase |
| `Supplies.Supplies.BuyMisc` | src/supplies.rs:134-141 | result and new state are those of `Apply` on a miscellaneous purchase |
| `Supplies.OxenPurchases` | src/supplies.rs:216-253 | on a new ledger 1000 is refused for insufficient funds (not too much), 0 as too little, 301 as too much; then 200 is accepted (`Ok`, which the test unwraps) and leaves money 500 and oxen 200 |
| `Trip.TurnMiles` | src/trip.rs:45-47 | for oxen >= 220, a turn's miles lie between 200 + (oxen-220)/14 and 200 + (oxen-220)/5, so at least 200 |
| `Trip.TruncDiv` | src/trip.rs:46 | Rust's `/` on a signed operand, as the corrected turn formula uses it, rounds toward zero: the quotient has the sign of the dividend (0 or positive for a non-negative dividend, 0 or negative for a negative one), and its magnitude k satisfies k*b <= |a| < (k+1)*b |
| `Trip.TruncDivOdd` | src/trip.rs:46 | negating the dividend negates the signed quotient |
| `Trip.TruncDivExample` | src/trip.rs:46 | signed `-20 / 6` is -3, where the Euclidean quotient is -4 |
| `Trip.TurnMilesMonotoneInOxen` | src/trip.rs:46 | for a fixed draw, more oxen never gives fewer miles |
| `Trip.TurnMilesAntitoneInDraw` | src/trip.rs:46 | for fixed oxen, a larger draw never gives more miles |
| `Trip.TurnMilesWith300` | src/trip.rs:83-89 | with oxen 300 every draw gives 205 to 216 miles, strictly between 200 and 300 |
| `Trip.IntendedTurnMiles` | src/trip.rs:38-46 | the signed turn distance is at least 156 and equals `TurnMiles` whenever oxen >= 220 |
| `Trip.IntendedTurnMilesWith200` | src/trip.rs:43-46 | with oxen 200 and the code's divisor 5 to 14, the signed turn distance is 196 to 199 miles: under 200 as the doc comment says, though draw 0 gives 196 where the comment names 197 as the least |
| `Trip.IntendedTurnMilesMonotone` | src/trip.rs:46 | the signed turn distance never decreases as oxen grow |
| `Trip.Trip.constructor` | src/trip.rs:15-21 | a new trip is at mile 0 on day 0 (29 March 1847) |
| `Trip.Trip.MilesTraveled` | src/trip.rs:24-26 | returns the miles travelled |
| `Trip.Trip.CurrentDate` | src/trip.rs:29-31 | returns the current day |
| `Trip.Trip.Travel` | src/trip.rs:34-36 | miles grow by exactly the argument, the date is unchanged; the u32 sum must not overflow |
| `Trip.Trip.Reverse` | src/trip.rs:52-54 | miles shrink by exactly the argument, which must not exceed the miles held; the date is unchanged |
| `Trip.Trip.Turn` | src/trip.rs:45-49 | miles grow by exactly `TurnMiles(oxen, draw)` and the date by exactly 14 days, whatever the draw, for oxen >= 220 |
| `Trip.TravelThenReverse` | src/trip.rs:61-81 | a new trip is at 0 on the start date; travel(200) gives 200; reverse(100) then gives 100 |
| `Trip.FirstTurn` | src/trip.rs:83-89 | from a new trip turn(300) ends strictly between 200 and 300 miles, 14 days later |
| `Meal.FromU32` | src/meal.rs:11-18 | the result is Unknown exactly when the value is not 1, 2 or 3 |
| `Meal.MenuNumber` | src/meal.rs:13-15 | a known diet's menu number lies in 1..3 |
| `Meal.FromU32MenuNumber` | src/meal.rs:11-18 | decoding a known diet's menu number gives that diet (1 Poorly, 2 Moderately, 3 Well) |
| `Meal.MenuNumberFromU32` | src/meal.rs:11-18 | each value 1..3 decodes to a known diet whose menu number is that value |
| `Meal.ToFood` | src/meal.rs:19-26 | the ration of a known diet is 8 + 5 * its menu number (13, 18, 23); Unknown, which panics, is excluded |
| `Meal.ToFoodIncreasing` | src/meal.rs:21-23 | a higher menu number gives a strictly larger ration |
| `Marksman.FromU32` | src/marksman.rs:14-23 | the result is Unknown exactly when the value is 0 or greater than 5 |
| `Marksman.Rank` | src/marksman.rs:15-20 | a known quality's menu number lies in 1..5 |
| `Marksman.FromU32Rank` | src/marksman.rs:14-23 | each value 1..5 decodes to a known quality whose menu number is that value (1 Ace ... 5 Shaky) |
| `Marksman.FromU32Injective` | src/marksman.rs:15-20 | distinct values in 1..5 decode to distinct qualities |
| `Ask.RemoveWhitespace` | src/ask.rs:12 | the result is no longer than the line and has no whitespace character |
| `Ask.RemoveWhitespaceAppend` | src/ask.rs:12 | removal distributes over concatenation, so it acts everywhere in the line, not only at the ends |
| `Ask.RemoveWhitespaceNone` | src/ask.rs:12 | a line without whitespace is left unchanged, so removal is idempotent |
| `Ask.RemoveWhitespaceAll` | src/ask.rs:12 | a line of whitespace only becomes empty |
| `Ask.RemoveWhitespaceKeeps` | src/ask.rs:12 | every non-whitespace character of the line survives |
| `Ask.RetainNonWhitespace` | src/ask.rs:12 | the in-place retain leaves exactly the whitespace-free line at the front of the buffer and returns its length |
| `Ask.ParseU32` | src/ask.rs:13 | `parse::<u32>` succeeds, with the value of the digits, exactly on an optional `+` followed by one or more ASCII digits whose value fits in a u32 (so "007" and "+7" give 7); it fails on an empty string or a lone `+`, on any other character, and on digits whose value exceeds u32::MAX |
| `Ask.AskValue` | src/ask.rs:12-16 | `ask!` returns the parsed value when the whitespace-free line parses and 0 when it does not; a non-zero value comes from a line whose every non-whitespace character is a digit or `+` |
| `Ask.ParseToDecimal` | src/ask.rs:13-14 | the numeral of any u32 parses to that number |
| `Ask.AskIgnoresWhitespace` | src/ask.rs:12-16 | inserting whitespace anywhere in a line does not change the value read |
| `Ask.AskNumeral` | src/ask.rs:10-16 | a numeral with whitespace before and after (such as CR LF) reads as its number |
| `Ask.AskBlank` | src/ask.rs:13-16 | an empty or all-whitespace line reads as 0 |
| `Ask.AskNonNumeric` | src/ask.rs:13-16 | a line holding any non-whitespace character that is neither a digit nor '+' reads as 0 |
| `Ask.AskOverflow` | src/ask.rs:13-16 | a digit string whose value exceeds u32::MAX reads as 0, not a wrapped value |
| `Ask.AskTestLines` | src/ask.rs:22-57 | "1" reads 1, "200" reads 200, "999\r\n" reads 999 |
| `Ask.AskJoinsDigits` | src/ask.rs:12 | "1 2" reads 12 |
| `Ask.AskOverflowExample` | src/ask.rs:13-15 | "4294967296" reads 0 |
| `Startup.ChooseMarksman` | src/main.rs:25-29 | the loop stops at the first line that decodes to a known quality, whose value is in 1..5, after every earlier line decoded to Unknown; it finds none exactly when every line decodes to Unknown |
| `Findings.AcceptedOxenUnderflowTurn` | src/supplies.rs:97-102 | every oxen spend from 200 to 219 is accepted by a new ledger yet lies below the 220 that `turn` subtracts in u32 |
| `Findings.CorrectedTurnForAcceptedOxen` | src/trip.rs:38-46 | for every accepted oxen spend the signed distance is at least 156, is 196 to 199 at 200, and equals the source's from 220 up |

Every result of `ask!` is a `u32`, so it lies in [0, 2^32). The type of `Ask.AskValue`
states this.

## Findings

| source | as written | input that shows it | evidently intended | confidence | as-written member | corrected member |
|---|---|---|---|---|---|---|
| src/trip.rs:46 | `(oxen - 220)` is computed in `u32`, so `turn` underflows for every oxen amount below 220: a panic in a debug build, a value near 2^32 in a release build. Yet `buy_oxen` accepts 200 to 219 (src/supplies.rs:97-102). | `buy_oxen(200)` on a new ledger, then `turn(200)` | a signed difference truncated toward zero. The doc comment at src/trip.rs:40-44 puts 200 oxen just under 200 miles (197 to 199). Its exact ranges (197 to 199 at 200 oxen, 206 to 213 at 300) fit a divisor of 6 to 13, whereas the code divides by 5 to 14; with the code's draw the signed formula gives 196 to 199 at 200 oxen | high; not executed | `Findings.AcceptedOxenUnderflowTurn` (with `Trip.TurnMiles`, which requires oxen >= 220) | `Trip.IntendedTurnMiles`, with `Trip.IntendedTurnMilesWith200`, `Trip.IntendedTurnMilesMonotone` and `Findings.CorrectedTurnForAcceptedOxen` |

`Trip.Trip.Turn` keeps the source's behaviour and requires oxen >= 220. The contract of
`Trip.IntendedTurnMiles` shows that this behaviour is the intended formula restricted to
the range where it does not underflow.

## Left out

- `f32` arithmetic of the premium: the model computes the exact rational product. It does not model `f32` rounding, or the loss of precision when a spend above 2^24 is converted to `f32`.
- `Supplies.Received`: a NaN or infinite premium is not modelled, because a fraction cannot express it.
- The `Display` text of `BuyError` (src/supplies.rs:33-44). It only chooses a message, and its tests only print it.
- `chrono::NaiveDate`: the date is a day count. Calendar formatting is not modelled, and neither is the panic when the date passes chrono's largest year.
- `rand::ThreadRng`: the random draw of `turn` is a parameter.
- The I/O of `ask!` (write, flush, `read_line`). The model starts from the line that was read. The `ask_ok!` and `ask_yn!` macros are not part of this model.
- `Ask.ParseU32`: the kind of a parse error (empty, invalid digit, overflow) is not kept, because `ask!` discards it.
- src/main.rs beyond its marksman loop: the purchase prompts, the turn loop, the 2040-mile finish and the food warning. It calls `Mileage::turn`, which src/mileage.rs does not define, so it does not build against the other modules.
- `Startup.ChooseMarksman`: a finite list of lines stands for standard input. Running out of lines gives `None`, where the source would ask forever.
- src/mileage.rs: a stub counter with only a constructor and a getter.
- src/banner.rs, src/finish.rs, src/tests.rs: they write embedded text and ask yes/no questions.
- Illness, diet probabilities, doctor visits, spending and consuming supplies: the source does not contain them.
- Release-build wrap-around of the `u32` miles, and a u32 subtraction in `turn` or `reverse` that would underflow: these are preconditions.
