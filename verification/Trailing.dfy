/** utils/tools/trailing.go: a stop that follows every rise of the price and stays where it is on a fall. */
module Trailing {

  datatype Levels = Levels(current: real, stop: real)

  /** The levels after a sequence of prices, the stop being active. */
  function After(s: Levels, prices: seq<real>): Levels {
    if prices == [] then s
    else
      var before, price := After(s, prices[..|prices| - 1]), prices[|prices| - 1];
      Levels(price, if price > before.current then before.stop + (price - before.current) else before.stop)
  }

  function Price(start: real, prices: seq<real>): real {
    if prices == [] then start else prices[|prices| - 1]
  }

  /** The sum of all downward moves. */
  function Drops(start: real, prices: seq<real>): real {
    if prices == [] then 0.0
    else
      var before, price := Price(start, prices[..|prices| - 1]), prices[|prices| - 1];
      Drops(start, prices[..|prices| - 1]) + if price < before then before - price else 0.0
  }

  /** The sum of all upward moves. */
  function Rises(start: real, prices: seq<real>): real {
    if prices == [] then 0.0
    else
      var before, price := Price(start, prices[..|prices| - 1]), prices[|prices| - 1];
      Rises(start, prices[..|prices| - 1]) + if price > before then price - before else 0.0
  }

  function Peak(start: real, prices: seq<real>): real {
    if prices == [] then start
    else
      var before, price := Peak(start, prices[..|prices| - 1]), prices[|prices| - 1];
      if price > before then price else before
  }

  /** The gap to the stop is what it was at the start less everything the price has lost on the way, rises
      never making up for falls; the stop has risen by all the rises. */
  lemma {:induction false} GapIsSpentByDrops(s: Levels, prices: seq<real>)
    ensures var t := After(s, prices);
      && t.current == Price(s.current, prices)
      && t.current - t.stop == s.current - s.stop - Drops(s.current, prices)
      && t.stop == s.stop + Rises(s.current, prices)
  {
    if prices != [] {
      GapIsSpentByDrops(s, prices[..|prices| - 1]);
    }
  }

  lemma {:induction false} StopNeverDecreases(s: Levels, prices: seq<real>, n: nat)
    requires n <= |prices|
    ensures After(s, prices[..n]).stop <= After(s, prices).stop
    decreases |prices|
  {
    if n == |prices| {
      assert prices[..n] == prices;
    } else {
      assert prices[..|prices| - 1][..n] == prices[..n];
      StopNeverDecreases(s, prices[..|prices| - 1], n);
    }
  }

  /** Every rise starts from the highest price so far. */
  predicate RisesFromPeak(start: real, prices: seq<real>) {
    prices == [] ||
    (var init, price := prices[..|prices| - 1], prices[|prices| - 1];
     RisesFromPeak(start, init) && (price > Price(start, init) ==> Price(start, init) == Peak(start, init)))
  }

  lemma {:induction false} RisesReachPeak(start: real, prices: seq<real>)
    ensures Price(start, prices) <= Peak(start, prices)
    ensures Rises(start, prices) >= Peak(start, prices) - start
    ensures Rises(start, prices) == Peak(start, prices) - start <==> RisesFromPeak(start, prices)
  {
    if prices != [] {
      RisesReachPeak(start, prices[..|prices| - 1]);
    }
  }

  /** A stop trailing the highest price by the initial gap is never above this one, and the two agree
      exactly as long as no rise follows a fall short of a new peak. */
  lemma {:induction false} TighterThanPeakStop(s: Levels, prices: seq<real>)
    ensures Peak(s.current, prices) - (s.current - s.stop) <= After(s, prices).stop
    ensures Peak(s.current, prices) - (s.current - s.stop) == After(s, prices).stop <==> RisesFromPeak(s.current, prices)
  {
    GapIsSpentByDrops(s, prices);
    RisesReachPeak(s.current, prices);
  }

  class TrailingStop {
    var current: real
    var stop: real
    var active: bool
    /** The levels at the start, and the prices seen since. */
    ghost var origin: Levels
    ghost var prices: seq<real>

    function View(): Levels
      reads this
    {
      Levels(current, stop)
    }

    ghost predicate Valid()
      reads this
    {
      active ==> View() == After(origin, prices)
    }

    constructor ()
      ensures Valid() && !active
    {
      current, stop, active := 0.0, 0.0, false;
      origin, prices := Levels(0.0, 0.0), [];
    }

    method Start(current: real, stop: real)
      modifies this
      ensures Valid() && active && origin == Levels(current, stop) && prices == []
    {
      this.stop := stop;
      this.current := current;
      active := true;
      origin, prices := Levels(current, stop), [];
    }

    method Stop()
      modifies this`active
      ensures Valid() && !active
    {
      active := false;
    }

    /** Fires exactly on a step that does not rise and with which the losses since the start add up to the
        initial gap. */
    method Update(price: real) returns (triggered: bool)
      requires Valid()
      modifies this
      ensures Valid() && active == old(active) && origin == old(origin)
      ensures old(active) ==> prices == old(prices) + [price]
      ensures old(active) ==>
        (triggered <==> price <= old(current) && Drops(origin.current, prices) >= origin.current - origin.stop)
      ensures !old(active) ==> View() == old(View()) && !triggered
    {
      if !active {
        return false;
      }
      prices := prices + [price];
      assert prices[..|prices| - 1] == old(prices);
      GapIsSpentByDrops(origin, prices);
      if price > current {
        stop := stop + (price - current);
        current := price;
        return false;
      }
      current := price;
      return price <= stop;
    }
  }
}
