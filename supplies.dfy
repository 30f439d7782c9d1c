/** The supplies ledger (src/supplies.rs): money, the five stocks and the cost premium,
    the purchase rules and the status line. `Ledger` is the value of a `Supplies` object;
    the functions on it specify the class's methods, and the lemmas about them hold of
    any sequence of purchases. */
module Supplies {
  import opened U32
  import opened Decimal
  import opened Arith

  /** Money a new ledger holds. */
  const StartingMoney: u32 := 700
  /** Least and most that may be spent on oxen. */
  const OxenMin: u32 := 200
  const OxenMax: u32 := 300

  datatype BuyErrorType = TooLittle | TooMuch | InsufficientFunds

  /** The payload of a rejected purchase: what was asked for, what was held, and the
      bounds the purchase had to respect. */
  datatype BuyError = BuyError(requested: u32, available: u32, minRequired: u32, maxAllowed: u32, reason: BuyErrorType)

  datatype BuyResult = Ok | Err(error: BuyError)

  /** The cost premium, an `f32` in the source, as the fraction `num / den`. */
  datatype Rational = Rational(num: int, den: int)
  type Premium = q: Rational | q.den > 0 witness Rational(0, 1)

  /** The four stocks bought through the premium. */
  datatype Category = Food | Ammo | Clothes | Misc

  datatype Ledger = Ledger(money: u32, oxen: u32, food: u32, ammo: u32, clothes: u32, misc: u32, premium: Premium)
  {
    function Stock(c: Category): u32 {
      match c
      case Food => food
      case Ammo => ammo
      case Clothes => clothes
      case Misc => misc
    }

    function WithStock(c: Category, units: u32): (l: Ledger)
      ensures l.Stock(c) == units
      ensures forall d :: d != c ==> l.Stock(d) == Stock(d)
      ensures l.money == money && l.oxen == oxen && l.premium == premium
    {
      match c
      case Food => this.(food := units)
      case Ammo => this.(ammo := units)
      case Clothes => this.(clothes := units)
      case Misc => this.(misc := units)
    }
  }

  /** A new ledger: 700 in money, nothing in stock, no premium. */
  const Fresh: Ledger := Ledger(StartingMoney, 0, 0, 0, 0, 0, Rational(0, 1))

  /** The checks of `buy_oxen`, in the source's order: affordability first, then the
      lower bound, then the upper bound. */
  function OxenVerdict(money: u32, spend: u32): (r: BuyResult)
    ensures r == Ok <==> spend <= money && OxenMin <= spend <= OxenMax
    ensures r.Err? ==> r.error.requested == spend && r.error.available == money
    ensures r.Err? ==> r.error.minRequired == OxenMin && r.error.maxAllowed == OxenMax
    ensures r.Err? && r.error.reason == InsufficientFunds <==> money < spend
    ensures r.Err? && r.error.reason == TooLittle <==> spend <= money && spend < OxenMin
    ensures r.Err? && r.error.reason == TooMuch <==> spend <= money && OxenMax < spend
  {
    if spend > money then Err(BuyError(spend, money, OxenMin, OxenMax, InsufficientFunds))
    else if spend < OxenMin then Err(BuyError(spend, money, OxenMin, OxenMax, TooLittle))
    else if spend > OxenMax then Err(BuyError(spend, money, OxenMin, OxenMax, TooMuch))
    else Ok
  }

  /** The one check of the other purchases: no lower or upper bound, only the money held. */
  function SupplyVerdict(money: u32, spend: u32): (r: BuyResult)
    ensures r == Ok <==> spend <= money
    ensures r.Err? ==> r.error.reason == InsufficientFunds
    ensures r.Err? ==> r.error.requested == spend && r.error.available == money
    ensures r.Err? ==> r.error.minRequired == 0 && r.error.maxAllowed == money
  {
    if spend > money then Err(BuyError(spend, money, 0, money, InsufficientFunds)) else Ok
  }

  /** The units received for `spend` at premium `p`: `spend * (1 - p)` cast to `u32`,
      which rounds toward zero and saturates at 0 and at `u32::MAX`. */
  function Received(spend: u32, p: Premium): (units: u32)
    ensures p.num < p.den ==> units * p.den <= spend * (p.den - p.num)
    ensures p.num < p.den && units < MAX ==> spend * (p.den - p.num) < (units + 1) * p.den
    ensures p.den <= p.num ==> units == 0
    ensures 0 <= p.num ==> units <= spend
    ensures p.num == 0 ==> units == spend
  {
    if p.num >= p.den then 0
    else
      var exact := FloorOfProduct(spend, p.num, p.den);
      if exact > MAX then
        MulMonotone(p.den, MAX, exact);
        MAX
      else
        exact
  }

  /** The floor of `spend * (den - num) / den` for a premium below 1. */
  function FloorOfProduct(spend: nat, num: int, den: int): (q: nat)
    requires 0 < den && num < den
    ensures q * den <= spend * (den - num) < (q + 1) * den
    ensures 0 <= num ==> q <= spend
    ensures num == 0 ==> q == spend
  {
    var keep: nat := den - num;
    var product: nat := spend * keep;
    var q := product / den;
    DivBounds(product, den);
    QuotientBelow(spend, keep, den);
    q
  }

  /** One call on the ledger. */
  datatype Op =
    | SetCostPremium(premium: Premium)
    | PurchaseOxen(spend: u32)
    | PurchaseSupply(category: Category, spend: u32)

  /** What a call returns and the ledger it leaves. */
  datatype Outcome = Outcome(result: BuyResult, after: Ledger)

  /** The effect of one call. A rejected purchase changes nothing; an accepted one
      deducts exactly what was spent and OVERWRITES the stock it buys. */
  function Apply(l: Ledger, op: Op): (o: Outcome)
    ensures o.result.Err? ==> o.after == l && !op.SetCostPremium?
    ensures op.PurchaseOxen? ==> o.result == OxenVerdict(l.money, op.spend)
    ensures op.PurchaseSupply? ==> o.result == SupplyVerdict(l.money, op.spend)
    ensures o.result.Ok? && !op.SetCostPremium? ==> o.after.money + op.spend == l.money
    ensures o.result.Ok? && op.PurchaseOxen? ==> o.after.oxen == op.spend
    ensures o.result.Ok? && op.PurchaseSupply? ==> o.after.Stock(op.category) == Received(op.spend, l.premium)
    ensures !op.PurchaseOxen? || o.result.Err? ==> o.after.oxen == l.oxen
    ensures forall c :: (!op.PurchaseSupply? || c != op.category || o.result.Err?) ==> o.after.Stock(c) == l.Stock(c)
    ensures o.after.premium == if op.SetCostPremium? then op.premium else l.premium
    ensures op.SetCostPremium? ==> o.after.money == l.money
  {
    match op
    case SetCostPremium(p) => Outcome(Ok, l.(premium := p))
    case PurchaseOxen(spend) =>
      var r := OxenVerdict(l.money, spend);
      if r.Err? then Outcome(r, l) else Outcome(Ok, l.(oxen := spend, money := l.money - spend))
    case PurchaseSupply(c, spend) =>
      var r := SupplyVerdict(l.money, spend);
      if r.Err? then Outcome(r, l)
      else Outcome(Ok, l.WithStock(c, Received(spend, l.premium)).(money := l.money - spend))
  }

  /** The ledger after a sequence of calls. */
  function Run(l: Ledger, ops: seq<Op>): Ledger
    decreases |ops|
  {
    if ops == [] then l else Run(Apply(l, ops[0]).after, ops[1..])
  }

  /** The money the accepted purchases of a sequence of calls deduct. */
  function Spent(l: Ledger, ops: seq<Op>): nat
    decreases |ops|
  {
    if ops == [] then 0
    else
      var o := Apply(l, ops[0]);
      (if o.result.Ok? && !ops[0].SetCostPremium? then ops[0].spend else 0) + Spent(o.after, ops[1..])
  }

  /** Money is conserved: what is left plus what was spent is what there was, so money
      never underflows and never grows. */
  lemma {:induction false} RunAccounts(l: Ledger, ops: seq<Op>)
    ensures Run(l, ops).money + Spent(l, ops) == l.money
    decreases |ops|
  {
    if ops != [] {
      RunAccounts(Apply(l, ops[0]).after, ops[1..]);
    }
  }

  /** From a new ledger, no sequence of calls leaves more than the starting 700. */
  lemma FreshNeverExceedsStake(ops: seq<Op>)
    ensures Run(Fresh, ops).money <= StartingMoney
    ensures Run(Fresh, ops).money == StartingMoney - Spent(Fresh, ops)
  {
    RunAccounts(Fresh, ops);
  }

  /** Buying the same stock twice keeps only the second purchase: two food purchases of
      200 from a new ledger leave 200 of food, not 400, and 300 of money. */
  lemma PurchasesOverwrite()
    ensures Run(Fresh, [PurchaseSupply(Food, 200), PurchaseSupply(Food, 200)]).food == 200
    ensures Run(Fresh, [PurchaseSupply(Food, 200), PurchaseSupply(Food, 200)]).money == 300
  {
  }

  /** The premium tests: at premium 0.3, every stock bought for 200 receives 140 while
      the full 200 is deducted. */
  lemma PremiumPurchase(c: Category)
    ensures Run(Fresh, [SetCostPremium(Rational(3, 10)), PurchaseSupply(c, 200)]).Stock(c) == 140
    ensures Run(Fresh, [SetCostPremium(Rational(3, 10)), PurchaseSupply(c, 200)]).money == 500
  {
    var l := Apply(Fresh, SetCostPremium(Rational(3, 10))).after;
    assert l == Fresh.(premium := Rational(3, 10));
    assert Received(200, Rational(3, 10)) == 140;
    var ops := [SetCostPremium(Rational(3, 10)), PurchaseSupply(c, 200)];
    assert Run(Fresh, ops) == Run(l, ops[1..]);
    assert Run(l, ops[1..]) == Apply(l, PurchaseSupply(c, 200)).after;
  }

  /** The header of the status line, in the source's column order. */
  const Header: string := "\tFood\tAmmo\tClothes\tMisc\tMoney\n"

  /** The values of the status line's columns: food, ammo, clothes, misc, money. */
  function Columns(l: Ledger): seq<nat> {
    [l.food, l.ammo, l.clothes, l.misc, l.money]
  }

  /** A row of numbers, each preceded by a tab, ended by a newline. */
  function Row(xs: seq<nat>): (r: string)
    ensures |r| > 0 && r[|r| - 1] == '\n'
    ensures r[0] == if xs == [] then '\n' else '\t'
    decreases |xs|
  {
    if xs == [] then "\n" else "\t" + ToDecimal(xs[0]) + Row(xs[1..])
  }

  /** `Display for Supplies`: the header, then the values in the same order. Oxen are
      not shown. */
  function StatusLine(l: Ledger): (s: string)
    ensures |Header| < |s| && s[..|Header|] == Header
    ensures s[|s| - 1] == '\n'
  {
    Header + Row(Columns(l))
  }

  /** The number of digits `s` starts with. */
  function DigitSpan(s: string): (n: nat)
    ensures n <= |s| && AllDigits(s[..n])
    ensures n < |s| ==> !IsDigit(s[n])
    decreases |s|
  {
    if s == [] || !IsDigit(s[0]) then 0
    else
      var n := 1 + DigitSpan(s[1..]);
      assert s[..n] == [s[0]] + s[1..][..n - 1];
      n
  }

  /** Reads a row back: tab, digits, tab, digits, ..., newline. */
  function ReadRow(s: string): Option<seq<nat>>
    decreases |s|
  {
    if s == "\n" then Some([])
    else if |s| > 0 && s[0] == '\t' then
      var t := s[1..];
      var n := DigitSpan(t);
      if n == 0 then None
      else
        match ReadRow(t[n..])
        case Some(rest) => Some([ValueOf(t[..n])] + rest)
        case None => None
    else None
  }

  lemma {:induction false} DigitSpanOf(d: string, t: string)
    requires AllDigits(d)
    requires t == [] || !IsDigit(t[0])
    ensures DigitSpan(d + t) == |d|
    decreases |d|
  {
    if d == [] {
      assert d + t == t;
    } else {
      assert (d + t)[1..] == d[1..] + t;
      DigitSpanOf(d[1..], t);
    }
  }

  /** A row reads back as the numbers it was made from. */
  lemma {:induction false} ReadRowOfRow(xs: seq<nat>)
    ensures ReadRow(Row(xs)) == Some(xs)
    decreases |xs|
  {
    if xs != [] {
      var d := ToDecimal(xs[0]);
      var rest := Row(xs[1..]);
      assert Row(xs) == "\t" + d + rest;
      ReadRowTab(d, rest);
      ValueOfToDecimal(xs[0]);
      ReadRowOfRow(xs[1..]);
      assert [xs[0]] + xs[1..] == xs;
    }
  }

  /** One step of reading: a tab and a run of digits, followed by something that is not
      a digit, read as the digits' value in front of whatever the rest reads as. */
  lemma ReadRowTab(d: string, rest: string)
    requires |d| > 0 && AllDigits(d)
    requires rest == [] || !IsDigit(rest[0])
    ensures ReadRow("\t" + d + rest) == if ReadRow(rest).Some? then Some([ValueOf(d)] + ReadRow(rest).value) else None
  {
    var s := "\t" + d + rest;
    assert s[1..] == d + rest;
    DigitSpanOf(d, rest);
    assert s[1..][..|d|] == d;
    assert s[1..][|d|..] == rest;
  }

  /** The status line determines the five values it shows, in the order food, ammo,
      clothes, misc, money. */
  lemma StatusLineReadsBack(l: Ledger)
    ensures StatusLine(l)[..|Header|] == Header
    ensures ReadRow(StatusLine(l)[|Header|..]) == Some([l.food, l.ammo, l.clothes, l.misc, l.money])
  {
    assert StatusLine(l)[|Header|..] == Row(Columns(l));
    ReadRowOfRow(Columns(l));
  }

  /** The purchases of the display test: oxen for 200, then food 10, ammo 20, clothes
      30 and misc 40 at no premium. */
  const Shopping: seq<Op> := [PurchaseOxen(200), PurchaseSupply(Food, 10), PurchaseSupply(Ammo, 20),
                              PurchaseSupply(Clothes, 30), PurchaseSupply(Misc, 40)]

  /** After that shopping 400 is left, and each stock holds what it was bought for. */
  lemma ShoppingResult()
    ensures Run(Fresh, Shopping) == Ledger(400, 200, 10, 20, 30, 40, Rational(0, 1))
  {
  }

  /** The numerals of the display test. */
  lemma ShoppingNumerals()
    ensures ToDecimal(10) == "10" && ToDecimal(20) == "20" && ToDecimal(30) == "30"
    ensures ToDecimal(40) == "40" && ToDecimal(400) == "400"
  {
  }

  /** The row of the display test. */
  lemma ShoppingRow()
    ensures Row([10, 20, 30, 40, 400]) == "\t10\t20\t30\t40\t400\n"
  {
    ShoppingNumerals();
    assert [10, 20, 30, 40, 400][1..] == [20, 30, 40, 400];
    assert [20, 30, 40, 400][1..] == [30, 40, 400];
    assert [30, 40, 400][1..] == [40, 400];
    assert [40, 400][1..] == [400];
  }

  /** The display test: after that shopping the status line is the header followed by
      the row 10, 20, 30, 40, 400. */
  lemma DisplayAfterShopping()
    ensures StatusLine(Run(Fresh, Shopping)) == Header + "\t10\t20\t30\t40\t400\n"
  {
    var l := Ledger(400, 200, 10, 20, 30, 40, Rational(0, 1));
    ShoppingResult();
    assert Columns(l) == [10, 20, 30, 40, 400];
    ShoppingRow();
  }

  /** The ledger object. Its value is `Model()`, and each method changes it exactly as
      `Apply` says. */
  class Supplies {
    var money: u32
    var oxen: u32
    var food: u32
    var ammo: u32
    var clothes: u32
    var misc: u32
    var costPremium: Premium

    function Model(): Ledger
      reads this
    {
      Ledger(money, oxen, food, ammo, clothes, misc, costPremium)
    }

    /** A new ledger holds 700, no stock, and no premium. */
    constructor ()
      ensures Model() == Fresh
    {
      money, oxen, food, ammo, clothes, misc := StartingMoney, 0, 0, 0, 0, 0;
      costPremium := Rational(0, 1);
    }

    method SetPremium(premium: Premium)
      modifies this
      ensures Model() == Apply(old(Model()), SetCostPremium(premium)).after
    {
      costPremium := premium;
    }

    method MoneyLeft() returns (m: u32)
      ensures m == money
    {
      m := money;
    }

    method OxenLeft() returns (units: u32)
      ensures units == oxen
    {
      units := oxen;
    }

    method FoodLeft() returns (units: u32)
      ensures units == food
    {
      units := food;
    }

    method AmmoLeft() returns (units: u32)
      ensures units == ammo
    {
      units := ammo;
    }

    method ClothesLeft() returns (units: u32)
      ensures units == clothes
    {
      units := clothes;
    }

    method MiscLeft() returns (units: u32)
      ensures units == misc
    {
      units := misc;
    }

    method BuyOxen(spend: u32) returns (r: BuyResult)
      modifies this
      ensures Outcome(r, Model()) == Apply(old(Model()), PurchaseOxen(spend))
    {
      if spend > money {
        return Err(BuyError(spend, money, OxenMin, OxenMax, InsufficientFunds));
      } else if spend < OxenMin {
        return Err(BuyError(spend, money, OxenMin, OxenMax, TooLittle));
      } else if spend > OxenMax {
        return Err(BuyError(spend, money, OxenMin, OxenMax, TooMuch));
      }
      oxen := spend;
      money := money - spend;
      r := Ok;
    }

    method BuyFood(spend: u32) returns (r: BuyResult)
      modifies this
      ensures Outcome(r, Model()) == Apply(old(Model()), PurchaseSupply(Food, spend))
    {
      if spend > money {
        return Err(BuyError(spend, money, 0, money, InsufficientFunds));
      }
      food := Received(spend, costPremium);
      money := money - spend;
      r := Ok;
    }

    method BuyAmmo(spend: u32) returns (r: BuyResult)
      modifies this
      ensures Outcome(r, Model()) == Apply(old(Model()), PurchaseSupply(Ammo, spend))
    {
      if spend > money {
        return Err(BuyError(spend, money, 0, money, InsufficientFunds));
      }
      ammo := Received(spend, costPremium);
      money := money - spend;
      r := Ok;
    }

    method BuyClothes(spend: u32) returns (r: BuyResult)
      modifies this
      ensures Outcome(r, Model()) == Apply(old(Model()), PurchaseSupply(Clothes, spend))
    {
      if spend > money {
        return Err(BuyError(spend, money, 0, money, InsufficientFunds));
      }
      clothes := Received(spend, costPremium);
      money := money - spend;
      r := Ok;
    }

    method BuyMisc(spend: u32) returns (r: BuyResult)
      modifies this
      ensures Outcome(r, Model()) == Apply(old(Model()), PurchaseSupply(Misc, spend))
    {
      if spend > money {
        return Err(BuyError(spend, money, 0, money, InsufficientFunds));
      }
      misc := Received(spend, costPremium);
      money := money - spend;
      r := Ok;
    }
  }

  /** The oxen tests on a new ledger: 1000 is refused for lack of funds (not as too
      much), 0 as too little, 301 as too much, each leaving money and oxen as they were;
      200 is accepted and leaves 500 of money and 200 of oxen. */
  method OxenPurchases() returns (tooDear: BuyResult, tooFew: BuyResult, tooMany: BuyResult, ok: BuyResult, money: u32, oxen: u32)
    ensures tooDear.Err? && tooDear.error.reason == InsufficientFunds
    ensures tooFew.Err? && tooFew.error.reason == TooLittle
    ensures tooMany.Err? && tooMany.error.reason == TooMuch
    ensures ok == Ok && money == 500 && oxen == 200
  {
    var s := new Supplies();
    tooDear := s.BuyOxen(1000);
    tooFew := s.BuyOxen(0);
    tooMany := s.BuyOxen(301);
    assert s.Model() == Fresh;
    ok := s.BuyOxen(200);
    money := s.MoneyLeft();
    oxen := s.OxenLeft();
  }
}
