/** The client's price-change helper: the absolute change from a previous
    price and the change as a percentage of it, with a zero previous price
    giving a zero percentage instead of a division. */
module PriceChange {

  datatype Change = Change(change: real, changePercent: real)

  function CalculatePriceChange(current: real, previous: real): (r: Change)
    ensures current == previous + r.change
    ensures previous == 0.0 ==> r.changePercent == 0.0
    ensures previous != 0.0 ==> r.changePercent * previous == r.change * 100.0
  {
    var change := current - previous;
    var changePercent := if previous != 0.0 then (change / previous) * 100.0 else 0.0;
    Change(change, changePercent)
  }

  /** An unchanged price has no change at all. */
  lemma NoChange(price: real)
    ensures CalculatePriceChange(price, price) == Change(0.0, 0.0)
  {
  }

  /** The percentage recovers the current price from a non-zero previous
      one: `current = previous * (1 + percent / 100)`. */
  lemma PercentRecoversCurrent(current: real, previous: real)
    requires previous != 0.0
    ensures current == previous * (1.0 + CalculatePriceChange(current, previous).changePercent / 100.0)
  {
    var r := CalculatePriceChange(current, previous);
    calc {
      previous * (1.0 + r.changePercent / 100.0);
      previous + previous * r.changePercent / 100.0;
      { assert r.changePercent * previous == r.change * 100.0; }
      previous + r.change;
    }
  }

  /** From a positive previous price, the percentage has the sign of the
      change: up is positive, down is negative. */
  lemma PercentFollowsDirection(current: real, previous: real)
    requires previous > 0.0
    ensures var r := CalculatePriceChange(current, previous);
            && (current > previous <==> r.changePercent > 0.0)
            && (current < previous <==> r.changePercent < 0.0)
  {
    var r := CalculatePriceChange(current, previous);
    assert r.changePercent * previous == r.change * 100.0;
    if current > previous {
      assert r.changePercent > 0.0;
    } else if current < previous {
      assert r.changePercent < 0.0;
    }
  }
}
