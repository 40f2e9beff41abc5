/** Order-price rounding for the exchange's KRW market (src/utils.ts).
    Prices are JavaScript doubles in the source; here they are exact `real`s. */
module Utils {

  /** The exchange's tick-size table: the increment allowed for a price, chosen by
      the first threshold (2,000,000 down to 10) that the price reaches. */
  function Step(price: real): (s: real)
    ensures s in {1000.0, 500.0, 100.0, 50.0, 10.0, 5.0, 1.0, 0.1, 0.01}
  {
    if price >= 2000000.0 then 1000.0
    else if price >= 1000000.0 then 500.0
    else if price >= 500000.0 then 100.0
    else if price >= 100000.0 then 50.0
    else if price >= 10000.0 then 10.0
    else if price >= 1000.0 then 5.0
    else if price >= 100.0 then 1.0
    else if price >= 10.0 then 0.1
    else 0.01
  }

  /** The lowest price of the band `price` falls in (the band below 10 is unbounded). */
  function BandStart(price: real): (b: real)
    requires price >= 10.0
    ensures b <= price
  {
    if price >= 2000000.0 then 2000000.0
    else if price >= 1000000.0 then 1000000.0
    else if price >= 500000.0 then 500000.0
    else if price >= 100000.0 then 100000.0
    else if price >= 10000.0 then 10000.0
    else if price >= 1000.0 then 1000.0
    else if price >= 100.0 then 100.0
    else 10.0
  }

  /** `x / s` for a step `s` of the table, with the divisor written out as a literal so
      that the arithmetic stays linear. */
  function Quotient(x: real, s: real): real
    requires s in {1000.0, 500.0, 100.0, 50.0, 10.0, 5.0, 1.0, 0.1, 0.01}
  {
    if s == 1000.0 then x / 1000.0
    else if s == 500.0 then x / 500.0
    else if s == 100.0 then x / 100.0
    else if s == 50.0 then x / 50.0
    else if s == 10.0 then x / 10.0
    else if s == 5.0 then x / 5.0
    else if s == 1.0 then x / 1.0
    else if s == 0.1 then x / 0.1
    else x / 0.01
  }

  /** `x` is a whole number of steps `s`. */
  predicate IsMultiple(x: real, s: real)
    requires s in {1000.0, 500.0, 100.0, 50.0, 10.0, 5.0, 1.0, 0.1, 0.01}
  {
    Quotient(x, s).Floor as real == Quotient(x, s)
  }

  /** getTickSize: rounds a price down to the increment of its band, branch by branch
      as the source writes it (the two smallest steps divide by 10 and by 100 instead
      of multiplying by 0.1 and 0.01). The result is never above the price and less
      than one step below it. */
  function TickSize(price: real): (r: real)
    ensures r <= price
    ensures price - r < Step(price)
  {
    if price >= 2000000.0 then (price / 1000.0).Floor as real * 1000.0
    else if price >= 1000000.0 then (price / 500.0).Floor as real * 500.0
    else if price >= 500000.0 then (price / 100.0).Floor as real * 100.0
    else if price >= 100000.0 then (price / 50.0).Floor as real * 50.0
    else if price >= 10000.0 then (price / 10.0).Floor as real * 10.0
    else if price >= 1000.0 then (price / 5.0).Floor as real * 5.0
    else if price >= 100.0 then (price / 1.0).Floor as real * 1.0
    else if price >= 10.0 then (price / 0.1).Floor as real / 10.0
    else (price / 0.01).Floor as real / 100.0
  }

  lemma FloorOfWhole(k: int)
    ensures (k as real).Floor == k
  {
  }

  lemma FloorMonotone(x: real, y: real)
    requires x <= y
    ensures x.Floor <= y.Floor
  {
  }

  /** The rounded price is a whole number of steps of the input's band. */
  lemma OnGrid(price: real)
    ensures IsMultiple(TickSize(price), Step(price))
  {
    if price >= 2000000.0 {
      FloorOfWhole((price / 1000.0).Floor);
      assert Quotient(TickSize(price), 1000.0) == (price / 1000.0).Floor as real;
    } else if price >= 1000000.0 {
      FloorOfWhole((price / 500.0).Floor);
      assert Quotient(TickSize(price), 500.0) == (price / 500.0).Floor as real;
    } else if price >= 500000.0 {
      FloorOfWhole((price / 100.0).Floor);
      assert Quotient(TickSize(price), 100.0) == (price / 100.0).Floor as real;
    } else if price >= 100000.0 {
      FloorOfWhole((price / 50.0).Floor);
      assert Quotient(TickSize(price), 50.0) == (price / 50.0).Floor as real;
    } else if price >= 10000.0 {
      FloorOfWhole((price / 10.0).Floor);
      assert Quotient(TickSize(price), 10.0) == (price / 10.0).Floor as real;
    } else if price >= 1000.0 {
      FloorOfWhole((price / 5.0).Floor);
      assert Quotient(TickSize(price), 5.0) == (price / 5.0).Floor as real;
    } else if price >= 100.0 {
      FloorOfWhole((price / 1.0).Floor);
      assert Quotient(TickSize(price), 1.0) == (price / 1.0).Floor as real;
    } else if price >= 10.0 {
      FloorOfWhole((price / 0.1).Floor);
      assert Quotient(TickSize(price), 0.1) == (price / 0.1).Floor as real;
    } else {
      FloorOfWhole((price / 0.01).Floor);
      assert Quotient(TickSize(price), 0.01) == (price / 0.01).Floor as real;
    }
  }

  /** Rounding never leaves the band: from 10 on the result does not drop below the
      band's threshold, so it has the same step as the input. */
  lemma StaysInBand(price: real)
    ensures price >= 10.0 ==> TickSize(price) >= BandStart(price)
    ensures Step(TickSize(price)) == Step(price)
  {
    if price >= 2000000.0 {
      FloorOfWhole((2000000.0 / 1000.0).Floor);
      FloorMonotone(2000000.0 / 1000.0, price / 1000.0);
    } else if price >= 1000000.0 {
      FloorOfWhole((1000000.0 / 500.0).Floor);
      FloorMonotone(1000000.0 / 500.0, price / 500.0);
    } else if price >= 500000.0 {
      FloorOfWhole((500000.0 / 100.0).Floor);
      FloorMonotone(500000.0 / 100.0, price / 100.0);
    } else if price >= 100000.0 {
      FloorOfWhole((100000.0 / 50.0).Floor);
      FloorMonotone(100000.0 / 50.0, price / 50.0);
    } else if price >= 10000.0 {
      FloorOfWhole((10000.0 / 10.0).Floor);
      FloorMonotone(10000.0 / 10.0, price / 10.0);
    } else if price >= 1000.0 {
      FloorOfWhole((1000.0 / 5.0).Floor);
      FloorMonotone(1000.0 / 5.0, price / 5.0);
    } else if price >= 100.0 {
      FloorOfWhole((100.0 / 1.0).Floor);
      FloorMonotone(100.0 / 1.0, price / 1.0);
    } else if price >= 10.0 {
      FloorOfWhole((10.0 / 0.1).Floor);
      FloorMonotone(10.0 / 0.1, price / 0.1);
    } else { }
  }

  /** The prices rounding leaves alone are exactly the whole multiples of their step. */
  lemma FixedPoints(price: real)
    ensures TickSize(price) == price <==> IsMultiple(price, Step(price))
  {
    OnGrid(price);
  }

  /** Rounding an already rounded price changes nothing. */
  lemma Idempotent(price: real)
    ensures TickSize(TickSize(price)) == TickSize(price)
  {
    StaysInBand(price);
    OnGrid(price);
    FixedPoints(TickSize(price));
  }

  /** A higher price never rounds to a lower one, also across band boundaries. */
  lemma Monotone(p: real, q: real)
    requires p <= q
    ensures TickSize(p) <= TickSize(q)
  {
    var s := Step(p);
    if s == Step(q) {
      // Same band: the floor of p / step is at most that of q / step.
      if s == 1000.0 { FloorMonotone(p / 1000.0, q / 1000.0); }
      else if s == 500.0 { FloorMonotone(p / 500.0, q / 500.0); }
      else if s == 100.0 { FloorMonotone(p / 100.0, q / 100.0); }
      else if s == 50.0 { FloorMonotone(p / 50.0, q / 50.0); }
      else if s == 10.0 { FloorMonotone(p / 10.0, q / 10.0); }
      else if s == 5.0 { FloorMonotone(p / 5.0, q / 5.0); }
      else if s == 1.0 { FloorMonotone(p / 1.0, q / 1.0); }
      else if s == 0.1 { FloorMonotone(p / 0.1, q / 0.1); }
      else { FloorMonotone(p / 0.01, q / 0.01); }
    } else {
      // q sits in a higher band, whose threshold p has not reached.
      StaysInBand(q);
      assert p < BandStart(q);
    }
  }

  /** Whole prices from 100 up to 1000 are already on the 1-won grid. */
  lemma WholeHundredsUnchanged(n: int)
    requires 100 <= n < 1000
    ensures TickSize(n as real) == n as real
  {
    FloorOfWhole(n);
  }

  lemma WorkedValues()
    ensures TickSize(2450999.0) == 2450000.0
    ensures TickSize(1234567.0) == 1234500.0
    ensures TickSize(15.0) == 15.0
    ensures TickSize(0.0567) == 0.05
  {
  }
}
