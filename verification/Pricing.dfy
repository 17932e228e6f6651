/**
 Money as an integer number of USD micros, and the one place where tokens and money meet.
 */
module Pricing {
  import opened Prelude

  const PER_MILLION := 1_000_000

  datatype MoneyError = ScaledByZero

  /** Division that rounds towards minus infinity, for a divisor of either sign. */
  function FloorDiv(a: int, b: int): int
    requires b != 0
  {
    if b > 0 then a / b else (-a) / (-b)
  }

  /** `micros * numerator / denominator`, rounded half up. */
  function Scaled(micros: int, numerator: int, denominator: int): Result<int, MoneyError> {
    if denominator == 0 then Err(ScaledByZero)
    else Ok(FloorDiv(micros * numerator + FloorDiv(denominator, 2), denominator))
  }

  datatype Usage = Usage(tokens: nat, calls: nat, cost: int, simulated: bool) {
    predicate IsEmpty() { calls == 0 && tokens == 0 }
  }

  const NO_USAGE := Usage(0, 0, 0, false)

  datatype Rates = Rates(perMillion: int, marginBps: int, minimumCharge: int) {
    function CostOf(tokens: int): int {
      Scaled(perMillion, Max(0, tokens), PER_MILLION).value
    }

    function TokensFor(amount: int): int {
      if perMillion <= 0 then 0 else Max(0, FloorDiv(amount * PER_MILLION, perMillion))
    }

    function MarkedUp(cost: int): int {
      Scaled(cost, 10_000 + marginBps, 10_000).value
    }

    function Billable(usage: Usage): int {
      if usage.simulated || usage.IsEmpty() then 0
      else if usage.cost == 0 then Max(minimumCharge, usage.tokens)
      else Max(minimumCharge, TokensFor(MarkedUp(usage.cost)))
    }
  }

  /** `Scaled` is the nearest micro, halves going up, whatever the sign of the amount; by zero there is none. */
  lemma ScaledIsNearest(micros: int, numerator: int, denominator: int)
    ensures Scaled(micros, numerator, denominator).Err? <==> denominator == 0
    ensures denominator > 0 ==>
              var r := Scaled(micros, numerator, denominator).value;
              2 * micros * numerator - denominator < 2 * r * denominator <= 2 * micros * numerator + denominator
  {
    if denominator > 0 {
      DivisionBounds(micros * numerator + denominator / 2, denominator);
    }
  }

  /** Tokens list at the nearest micro of so many millionths of the price of a million; fewer than none at nothing. */
  lemma CostIsNearest(r: Rates, tokens: int)
    ensures tokens <= 0 ==> r.CostOf(tokens) == 0
    ensures tokens > 0 ==>
              2 * r.perMillion * tokens - 1_000_000
                < 2_000_000 * r.CostOf(tokens) <= 2 * r.perMillion * tokens + 1_000_000
  {
    DivisionBounds(r.perMillion * Max(0, tokens) + PER_MILLION / 2, PER_MILLION);
  }

  /**
   A purchase buys the largest number of tokens its money covers at list price. So what it
   bought never lists for more than was paid, and is worth more than the payment less one token.
   */
  lemma NeverSellsMoreThanWasPaid(r: Rates, amount: int)
    requires r.perMillion > 0 && amount >= 0
    ensures forall t: nat {:trigger t * r.perMillion} ::
              t <= r.TokensFor(amount) <==> t * r.perMillion <= amount * PER_MILLION
    ensures r.CostOf(r.TokensFor(amount)) <= amount
    ensures r.CostOf(r.TokensFor(amount) + 1) >= amount
  {
    var paid := amount * PER_MILLION;
    forall t: nat
      ensures t <= r.TokensFor(amount) <==> t * r.perMillion <= paid
    {
      DivisionIsLargest(paid, r.perMillion, t);
    }
    var t := r.TokensFor(amount);
    DivisionBounds(paid, r.perMillion);
    assert r.perMillion * t <= paid < r.perMillion * (t + 1);
    DivisionBounds(r.perMillion * t + PER_MILLION / 2, PER_MILLION);
    DivisionBounds(r.perMillion * (t + 1) + PER_MILLION / 2, PER_MILLION);
  }

  lemma FloorsAddUp(x: int, y: int, b: int)
    requires b > 0
    ensures x / b + y / b <= (x + y) / b <= x / b + y / b + 1
  {
    var p, q := x / b, y / b;
    DivisionBounds(x, b);
    DivisionBounds(y, b);
    DivisionIsLargest(x + y, b, p + q);
    DivisionIsLargest(x + y, b, p + q + 2);
    assert (p + q) * b == b * p + b * q;
    assert (p + q + 2) * b == b * p + b * q + 2 * b;
  }

  /** Splitting a purchase in two never yields more tokens, and loses at most one. */
  lemma SplittingAPurchase(r: Rates, a: int, b: int)
    requires a >= 0 && b >= 0
    ensures r.TokensFor(a) + r.TokensFor(b) <= r.TokensFor(a + b) <= r.TokensFor(a) + r.TokensFor(b) + 1
  {
    if r.perMillion > 0 {
      FloorsAddUp(a * PER_MILLION, b * PER_MILLION, r.perMillion);
    }
  }

  /** The margin on a cost, in ten-thousandths of it, to the nearest micro. */
  lemma MarkedUpIsNearest(r: Rates, cost: int)
    ensures
      var exact := cost * (10_000 + r.marginBps);
      2 * exact - 10_000 < 20_000 * r.MarkedUp(cost) <= 2 * exact + 10_000
  {
    DivisionBounds(cost * (10_000 + r.marginBps) + 5_000, 10_000);
  }

  /**
   A run is free exactly when it was simulated, or made no call and used no token. Otherwise one
   with no measured cost is debited its tokens, and at least the minimum; and one with a cost the
   most tokens that the cost and its margin buy at list price, and at least the minimum: to
   within one token and the half micro the margin is rounded by.
   */
  lemma BillableCoversTheCost(r: Rates, usage: Usage)
    requires r.perMillion > 0 && r.marginBps >= 0 && r.minimumCharge > 0 && usage.cost >= 0
    ensures
      var billed, exact := r.Billable(usage), usage.cost * (10_000 + r.marginBps);
      && (billed == 0 <==> usage.simulated || (usage.calls == 0 && usage.tokens == 0))
      && (billed != 0 ==> billed >= r.minimumCharge)
      && (billed != 0 && usage.cost == 0 ==>
            billed == if usage.tokens < r.minimumCharge then r.minimumCharge else usage.tokens)
      && (billed != 0 && usage.cost > 0 ==>
            && 20_000 * r.perMillion * (billed + 1) > (2 * exact - 10_000) * 1_000_000
            && (billed > r.minimumCharge ==>
                  20_000 * r.perMillion * billed <= (2 * exact + 10_000) * 1_000_000))
  {
    if !usage.simulated && !usage.IsEmpty() && usage.cost > 0 {
      MarkedUpIsNearest(r, usage.cost);
      BuysAtLeast(r, r.MarkedUp(usage.cost), r.Billable(usage), 2 * usage.cost * (10_000 + r.marginBps));
    }
  }

  /** The largest token count a positive sum buys, or more where a minimum is charged. */
  lemma BuysAtLeast(r: Rates, marked: int, billed: int, exact: int)
    requires r.perMillion > 0 && r.minimumCharge > 0 && billed == Max(r.minimumCharge, r.TokensFor(marked))
    requires exact - 10_000 < 20_000 * marked <= exact + 10_000 && exact >= 20_000
    ensures 20_000 * r.perMillion * (billed + 1) > (exact - 10_000) * 1_000_000
    ensures billed > r.minimumCharge ==> 20_000 * r.perMillion * billed <= (exact + 10_000) * 1_000_000
  {
    DivisionBounds(marked * PER_MILLION, r.perMillion);
    var t := r.TokensFor(marked);
    assert marked >= 0;
    assert r.perMillion * t <= marked * PER_MILLION < r.perMillion * (t + 1);
    assert r.perMillion * (billed + 1) >= r.perMillion * (t + 1);
    assert 20_000 * r.perMillion * (billed + 1) == 20_000 * (r.perMillion * (billed + 1));
    assert 20_000 * r.perMillion * t == 20_000 * (r.perMillion * t);
  }
}
