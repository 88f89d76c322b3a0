/** Entities shared by the packages of the trading bot. Times are integer seconds, prices and amounts
    exact reals. */
module Model {

  datatype Option<+T> = None | Some(value: T)

  datatype Result<+T> = Ok(value: T) | Err(error: string)

  /** A float64 that may be NaN: arithmetic is exact, every comparison with NaN is false. */
  datatype Num = NaN | Val(v: real)

  datatype Candle = Candle(
    pair: string,
    time: int,
    open: real,
    high: real,
    low: real,
    close: real,
    volume: real,
    complete: bool)

  datatype Side = Buy | Sell

  /** A market order: a buy names the amount to spend in `price`, a sell the coins in `quantity`. */
  datatype Order = Order(pair: string, side: Side, price: real, quantity: real)

  // Products and quotients with a name of their own, which proofs can take as one term.

  function Times(a: real, b: real): real {
    a * b
  }

  function Share(a: real, n: real): real
    requires n > 0.0
  {
    a / n
  }

  datatype Trend = Bullish | Bearish | Sideways

  /** One of the elements, chosen arbitrarily: a Go map is walked in no particular order. */
  method Pick<T(==)>(s: set<T>) returns (x: T)
    requires s != {}
    ensures x in s
  {
    x :| x in s;
  }

  predicate SortedByTime(cs: seq<Candle>) {
    forall i, j :: 0 <= i < j < |cs| ==> cs[i].time <= cs[j].time
  }

  predicate SortedBy<T>(xs: seq<T>, key: T -> int) {
    forall i, j :: 0 <= i < j < |xs| ==> key(xs[i]) <= key(xs[j])
  }

  function Insert<T>(sorted: seq<T>, x: T, key: T -> int): seq<T> {
    var n := |sorted|;
    if n == 0 || key(sorted[n - 1]) <= key(x) then sorted + [x]
    else Insert(sorted[..n - 1], x, key) + [sorted[n - 1]]
  }

  lemma {:induction false} InsertKeepsElements<T>(sorted: seq<T>, x: T, key: T -> int)
    ensures multiset(Insert(sorted, x, key)) == multiset(sorted) + multiset{x}
  {
    var n := |sorted|;
    if !(n == 0 || key(sorted[n - 1]) <= key(x)) {
      InsertKeepsElements(sorted[..n - 1], x, key);
      assert sorted == sorted[..n - 1] + [sorted[n - 1]];
    }
  }

  lemma {:induction false} InsertKeepsOrder<T>(sorted: seq<T>, x: T, key: T -> int)
    requires SortedBy(sorted, key)
    ensures SortedBy(Insert(sorted, x, key), key)
    ensures forall i :: 0 <= i < |Insert(sorted, x, key)| && sorted != [] ==>
      key(Insert(sorted, x, key)[i]) <= key(x) || key(Insert(sorted, x, key)[i]) <= key(sorted[|sorted| - 1])
  {
    var n := |sorted|;
    if !(n == 0 || key(sorted[n - 1]) <= key(x)) {
      InsertKeepsOrder(sorted[..n - 1], x, key);
    }
  }

  /** Stands for the sorts of the source: callers rely on its contract alone, so any sorting algorithm,
      stable or not, serves. */
  method SortBy<T>(xs: seq<T>, key: T -> int) returns (sorted: seq<T>)
    ensures SortedBy(sorted, key)
    ensures multiset(sorted) == multiset(xs)
  {
    sorted := [];
    for i := 0 to |xs|
      invariant SortedBy(sorted, key)
      invariant multiset(sorted) == multiset(xs[..i])
    {
      InsertKeepsElements(sorted, xs[i], key);
      InsertKeepsOrder(sorted, xs[i], key);
      sorted := Insert(sorted, xs[i], key);
      assert xs[..i + 1] == xs[..i] + [xs[i]];
    }
    assert xs[..|xs|] == xs;
  }

  method SortByTime(cs: seq<Candle>) returns (sorted: seq<Candle>)
    ensures SortedByTime(sorted)
    ensures multiset(sorted) == multiset(cs)
  {
    sorted := SortBy(cs, (c: Candle) => c.time);
  }

  /** Elements with keys of their own, each occurring once, come out in strict order. */
  lemma SortedStrictly<T>(sorted: seq<T>, key: T -> int, i: nat, j: nat)
    requires SortedBy(sorted, key) && i < j < |sorted|
    requires multiset(sorted)[sorted[i]] <= 1 && (key(sorted[i]) == key(sorted[j]) ==> sorted[i] == sorted[j])
    ensures key(sorted[i]) < key(sorted[j])
  {
    assert sorted == sorted[..i + 1] + sorted[i + 1..];
    assert sorted[i] in multiset(sorted[..i + 1]);
    assert sorted[j] in sorted[i + 1..];
  }
}
