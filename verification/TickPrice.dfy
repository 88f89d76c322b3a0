/** exchange/upbit.go: rounding an order price down to the exchange's tick, and the fee arithmetic of
    a market buy. */
module TickPrice {
  import opened Model

  function SplitAtDash(s: string): seq<string> {
    if s == "" then [""]
    else if s[0] == '-' then [""] + SplitAtDash(s[1..])
    else
      var rest := SplitAtDash(s[1..]);
      if rest == [] then [[s[0]]] else [[s[0]] + rest[0]] + rest[1..]
  }

  function JoinWithDash(parts: seq<string>): string {
    if parts == [] then ""
    else if |parts| == 1 then parts[0]
    else parts[0] + "-" + JoinWithDash(parts[1..])
  }

  /** The parts hold no dash, and joined by dashes they are the string again. */
  lemma {:induction false} SplitAtDashInverts(s: string)
    ensures SplitAtDash(s) != []
    ensures forall i :: 0 <= i < |SplitAtDash(s)| ==> '-' !in SplitAtDash(s)[i]
    ensures JoinWithDash(SplitAtDash(s)) == s
  {
    if s != "" {
      SplitAtDashInverts(s[1..]);
      var rest := SplitAtDash(s[1..]);
      assert s == [s[0]] + s[1..];
      if s[0] == '-' {
        assert ([""] + rest)[1..] == rest;
      } else {
        assert ([[s[0]] + rest[0]] + rest[1..])[1..] == rest[1..];
      }
    }
  }

  const SPECIAL: set<string> := {
    "ADA", "ALGO", "BLUR", "CELO", "ELF", "EOS", "GRS", "GRT",
    "ICX", "MANA", "MINA", "POL", "SAND", "SEI", "STG", "TRX"
  }

  predicate IsSpecialPair(pair: string) {
    var parts := SplitAtDash(pair);
    |parts| >= 2 && parts[1] in SPECIAL
  }

  function Unit(price: real, special: bool): real {
    if price >= 2000000.0 then 1000.0
    else if price >= 1000000.0 then 500.0
    else if price >= 500000.0 then 100.0
    else if price >= 100000.0 then 50.0
    else if price >= 10000.0 then 10.0
    else if price >= 1000.0 then 1.0
    else if price >= 100.0 then if special then 1.0 else 0.1
    else if price >= 10.0 then 0.01
    else if price >= 1.0 then 0.001
    else if price >= 0.1 then 0.0001
    else if price >= 0.01 then 0.00001
    else if price >= 0.001 then 0.000001
    else if price >= 0.0001 then 0.0000001
    else 0.00000001
  }

  /** math.Mod: the remainder takes the sign of x. */
  function Mod(x: real, unit: real): real
    requires unit > 0.0
  {
    if x >= 0.0 then x - Ticks((x / unit).Floor, unit)
    else -(-x - Ticks((-x / unit).Floor, unit))
  }

  function ValidatePrice(price: real, pair: string): real {
    price - Mod(price, Unit(price, IsSpecialPair(pair)))
  }

  function Ticks(n: int, unit: real): real {
    n as real * unit
  }

  ghost predicate MultipleOf(p: real, unit: real) {
    exists n: int :: p == Ticks(n, unit)
  }

  lemma ScaleUp(a: real, b: real, unit: real)
    requires a <= b && unit > 0.0
    ensures a * unit <= b * unit
    ensures a < b ==> a * unit < b * unit
  {
    if a < b {
      assert (b - a) * unit > 0.0;
    }
  }

  lemma Enclosed(price: real, unit: real, q: real, n: real, m: real)
    requires unit > 0.0 && q * unit == price && 0.0 <= n <= q < m
    ensures 0.0 <= n * unit <= price < m * unit
  {
    ScaleUp(n, q, unit);
    ScaleUp(0.0, n, unit);
    ScaleUp(q, m, unit);
  }

  /** The floor to a multiple of the unit. */
  lemma FloorToUnit(price: real, unit: real)
    requires price >= 0.0 && unit > 0.0
    ensures var v := price - Mod(price, unit);
      MultipleOf(v, unit) && 0.0 <= v <= price < v + unit
  {
    var q := price / unit;
    var n := q.Floor;
    assert price - Mod(price, unit) == Ticks(n, unit);
    Enclosed(price, unit, q, n as real, (n + 1) as real);
    assert (n + 1) as real * unit == Ticks(n, unit) + unit;
  }

  lemma MultiplesApart(p: real, v: real, unit: real)
    requires unit > 0.0 && MultipleOf(p, unit) && MultipleOf(v, unit) && p < v + unit
    ensures p <= v
  {
    var m: int :| p == Ticks(m, unit);
    var n: int :| v == Ticks(n, unit);
    if m > n {
      ScaleUp(n as real + 1.0, m as real, unit);
      assert (n as real + 1.0) * unit == v + unit;
    }
  }

  /** Lower ends of the tiers, each a multiple of the tier's own unit. */
  function TierStart(price: real): real {
    if price >= 2000000.0 then 2000000.0
    else if price >= 1000000.0 then 1000000.0
    else if price >= 500000.0 then 500000.0
    else if price >= 100000.0 then 100000.0
    else if price >= 10000.0 then 10000.0
    else if price >= 1000.0 then 1000.0
    else if price >= 100.0 then 100.0
    else if price >= 10.0 then 10.0
    else if price >= 1.0 then 1.0
    else if price >= 0.1 then 0.1
    else if price >= 0.01 then 0.01
    else if price >= 0.001 then 0.001
    else if price >= 0.0001 then 0.0001
    else 0.0
  }

  function UnitsBelowTier(price: real, special: bool): int {
    if price >= 1000000.0 then 2000
    else if price >= 500000.0 then 5000
    else if price >= 100000.0 then 2000
    else if price >= 1000.0 then 1000
    else if price >= 100.0 then if special then 100 else 1000
    else if price >= 0.0001 then 1000
    else 0
  }

  lemma TierStartIsMultiple(price: real, special: bool)
    requires price >= 0.0
    ensures MultipleOf(TierStart(price), Unit(price, special))
  {
    assert TierStart(price) == Ticks(UnitsBelowTier(price, special), Unit(price, special));
  }

  /** For every non-negative price the result is the largest multiple of the tier's unit that does not
      exceed the price, and it lies in the same tier. */
  lemma ValidPriceIsTickFloor(price: real, pair: string)
    requires price >= 0.0
    ensures var v, unit := ValidatePrice(price, pair), Unit(price, IsSpecialPair(pair));
      && MultipleOf(v, unit)
      && 0.0 <= v <= price < v + unit
      && (forall p :: MultipleOf(p, unit) && p <= price ==> p <= v)
      && TierStart(v) == TierStart(price)
      && Unit(v, IsSpecialPair(pair)) == unit
  {
    var special := IsSpecialPair(pair);
    var v, unit := ValidatePrice(price, pair), Unit(price, special);
    FloorToUnit(price, unit);
    TierStartIsMultiple(price, special);
    forall p | MultipleOf(p, unit) && p <= price
      ensures p <= v
    {
      MultiplesApart(p, v, unit);
    }
    assert TierStart(price) <= v <= price;
  }

  /** Rounding again changes nothing. */
  lemma ValidPriceIdempotent(price: real, pair: string)
    requires price >= 0.0
    ensures ValidatePrice(ValidatePrice(price, pair), pair) == ValidatePrice(price, pair)
  {
    var v := ValidatePrice(price, pair);
    ValidPriceIsTickFloor(price, pair);
    ValidPriceIsTickFloor(v, pair);
  }

  /** A higher price never rounds lower, across tier borders too. */
  lemma ValidPriceMonotone(low: real, high: real, pair: string)
    requires 0.0 <= low <= high
    ensures ValidatePrice(low, pair) <= ValidatePrice(high, pair)
  {
    ValidPriceIsTickFloor(low, pair);
    ValidPriceIsTickFloor(high, pair);
    if TierStart(low) == TierStart(high) {
      assert Unit(low, IsSpecialPair(pair)) == Unit(high, IsSpecialPair(pair));
    } else {
      TierStartIsMultiple(high, IsSpecialPair(pair));
      assert low <= TierStart(high) <= ValidatePrice(high, pair);
    }
  }

  /** A negative price is cut towards zero instead, to the finest unit: rounding is odd. */
  lemma NegativePriceCutTowardsZero(price: real, pair: string)
    requires price < 0.0
    ensures var v := ValidatePrice(price, pair);
      MultipleOf(v, 0.00000001) && price <= v <= 0.0 && v < price + 0.00000001
  {
    FloorToUnit(-price, 0.00000001);
    var w := -price - Mod(-price, 0.00000001);
    var n: int :| w == Ticks(n, 0.00000001);
    assert ValidatePrice(price, pair) == -w == Ticks(-n, 0.00000001);
  }

  // --- The table of ticks ---------------------------------------------------------------------------

  datatype Tier = Tier(start: real, unit: real)

  /** The exchange's table, as it is documented: each tier's lower end and unit. */
  function Tiers(special: bool): seq<Tier> {
    [Tier(2000000.0, 1000.0), Tier(1000000.0, 500.0), Tier(500000.0, 100.0), Tier(100000.0, 50.0), Tier(10000.0, 10.0),
     Tier(1000.0, 1.0), Tier(100.0, if special then 1.0 else 0.1), Tier(10.0, 0.01), Tier(1.0, 0.001), Tier(0.1, 0.0001),
     Tier(0.01, 0.00001), Tier(0.001, 0.000001), Tier(0.0001, 0.0000001), Tier(0.0, 0.00000001)]
  }

  predicate InTier(price: real, tiers: seq<Tier>, k: nat)
    requires k < |tiers|
  {
    tiers[k].start <= price && (k > 0 ==> price < tiers[k - 1].start)
  }

  /** Every non-negative price is in exactly one tier of the table and cut to a multiple of its unit, by less
      than the unit. */
  lemma ValidPriceByTheTable(price: real, pair: string, k: nat)
    requires price >= 0.0 && k < 14 && InTier(price, Tiers(IsSpecialPair(pair)), k)
    ensures var v, unit := ValidatePrice(price, pair), Tiers(IsSpecialPair(pair))[k].unit;
      v <= price < v + unit && MultipleOf(v, unit)
  {
    UnitByTheTable(price, IsSpecialPair(pair), k);
    ValidPriceIsTickFloor(price, pair);
  }

  lemma UnitByTheTable(price: real, special: bool, k: nat)
    requires price >= 0.0 && k < 14 && InTier(price, Tiers(special), k)
    ensures Unit(price, special) == Tiers(special)[k].unit
  {
  }

  lemma TierExists(price: real, special: bool) returns (k: nat)
    requires price >= 0.0
    ensures k < 14 && InTier(price, Tiers(special), k)
  {
    k := 13;
    while k > 0 && price >= Tiers(special)[k - 1].start
      invariant k <= 13 && Tiers(special)[k].start <= price
    {
      k := k - 1;
    }
  }

  predicate NoDash(s: string) {
    '-' !in s
  }

  lemma {:induction false} SplitOfPlain(s: string)
    requires NoDash(s)
    ensures SplitAtDash(s) == [s]
  {
    if s != "" {
      SplitOfPlain(s[1..]);
      assert s == [s[0]] + s[1..];
    }
  }

  lemma {:induction false} SplitAfter(s: string, rest: string)
    requires NoDash(s)
    ensures SplitAtDash(s + "-" + rest) == [s] + SplitAtDash(rest)
  {
    var all := s + "-" + rest;
    if s == "" {
      assert all == "-" + rest && all[1..] == rest;
    } else {
      assert all[1..] == s[1..] + "-" + rest;
      SplitAfter(s[1..], rest);
      assert s == [s[0]] + s[1..];
    }
  }

  /** A pair is special when the part behind its first dash is one of the sixteen coins; without a dash it is
      not. */
  lemma SpecialByBase(quote: string, base: string)
    requires NoDash(quote) && NoDash(base)
    ensures IsSpecialPair(quote + "-" + base) <==> base in SPECIAL
    ensures !IsSpecialPair(quote)
  {
    SplitAfter(quote, base);
    SplitOfPlain(base);
    SplitOfPlain(quote);
  }

  // --- Market orders -------------------------------------------------------------------------------

  function FeeRate(side: Side, discountEvent: bool): real {
    match side
    case Buy => if discountEvent then 0.0005 else 0.00139
    case Sell => 0.0
  }

  /** The amount CreateOrderMarket sends for a buy that may spend `quantity`. */
  function MarketBuyAmount(pair: string, quantity: real): real {
    ValidatePrice(quantity / (1.0 + FeeRate(Buy, true)), pair)
  }

  /** Amount and fee fit the quantity, and one more tick would not. */
  predicate FitsBudget(amount: real, unit: real, rate: real, quantity: real) {
    amount * rate <= quantity < (amount + unit) * rate
  }

  lemma FeeOnTop(quantity: real, rate: real, amount: real, unit: real)
    requires rate > 0.0 && amount <= quantity / rate < amount + unit
    ensures FitsBudget(amount, unit, rate, quantity)
  {
    assert quantity / rate * rate == quantity;
    ScaleUp(amount, quantity / rate, rate);
    ScaleUp(quantity / rate, amount + unit, rate);
  }

  lemma RoundedBudget(quantity: real, rate: real, unit: real)
    requires quantity >= 0.0 && rate > 0.0 && unit > 0.0
    ensures FitsBudget(quantity / rate - Mod(quantity / rate, unit), unit, rate, quantity)
  {
    var effective := quantity / rate;
    assert effective >= 0.0;
    FloorToUnit(effective, unit);
    FeeOnTop(quantity, rate, effective - Mod(effective, unit), unit);
  }

  /** Amount and fee together stay within what may be spent, short of it by less than a tick and its fee. */
  lemma MarketBuyFitsBudget(pair: string, quantity: real)
    requires quantity >= 0.0
    ensures var rate := 1.0 + FeeRate(Buy, true);
      rate == 1.0005 &&
      FitsBudget(MarketBuyAmount(pair, quantity), Unit(quantity / rate, IsSpecialPair(pair)), rate, quantity)
  {
    var rate := 1.0 + FeeRate(Buy, true);
    RoundedBudget(quantity, rate, Unit(quantity / rate, IsSpecialPair(pair)));
  }
}
