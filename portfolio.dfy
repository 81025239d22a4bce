/** The position container: three symbol-keyed maps (weight, price, quantity)
    that addPosition overwrites together, read back as a symbol list, a weight
    vector aligned with it, and the total market value. */
module Portfolios {

  /** Market value of one position: price times share count. */
  function PositionValue(price: real, quantity: int): real
  {
    price * quantity as real
  }

  predicate Distinct(keys: seq<string>)
  {
    forall i, j :: 0 <= i < j < |keys| ==> keys[i] != keys[j]
  }

  /** Every listed symbol has a price and a quantity. */
  predicate Priced(keys: seq<string>, prices: map<string, real>, quantities: map<string, int>)
  {
    forall i :: 0 <= i < |keys| ==> keys[i] in prices && keys[i] in quantities
  }

  /** Sum of price times quantity over `keys`, in that order. */
  function ValueSum(keys: seq<string>, prices: map<string, real>, quantities: map<string, int>): real
    requires Priced(keys, prices, quantities)
  {
    if |keys| == 0 then 0.0
    else
      var last := keys[|keys| - 1];
      ValueSum(keys[..|keys| - 1], prices, quantities) + PositionValue(prices[last], quantities[last])
  }

  /** The weights of `keys`, in that order. */
  function WeightsOf(keys: seq<string>, weights: map<string, real>): (w: seq<real>)
    requires forall i :: 0 <= i < |keys| ==> keys[i] in weights
    ensures |w| == |keys|
    ensures forall i :: 0 <= i < |keys| ==> w[i] == weights[keys[i]]
  {
    if |keys| == 0 then [] else WeightsOf(keys[..|keys| - 1], weights) + [weights[keys[|keys| - 1]]]
  }

  /** Re-pricing a symbol that is not listed leaves the sum unchanged. */
  lemma {:induction false} ValueSumUnaffected(keys: seq<string>, prices: map<string, real>,
                                              quantities: map<string, int>, symbol: string,
                                              price: real, quantity: int)
    requires Priced(keys, prices, quantities)
    requires symbol !in keys
    ensures Priced(keys, prices[symbol := price], quantities[symbol := quantity])
    ensures ValueSum(keys, prices[symbol := price], quantities[symbol := quantity])
         == ValueSum(keys, prices, quantities)
  {
    if |keys| > 0 {
      ValueSumUnaffected(keys[..|keys| - 1], prices, quantities, symbol, price, quantity);
    }
  }

  /** Overwriting a listed position replaces its value in the total: the old
      position's value leaves the sum and the new one enters it. */
  lemma {:induction false} ValueSumOverwrite(keys: seq<string>, prices: map<string, real>,
                                             quantities: map<string, int>, symbol: string,
                                             price: real, quantity: int)
    requires Priced(keys, prices, quantities) && Distinct(keys)
    requires symbol in keys
    ensures Priced(keys, prices[symbol := price], quantities[symbol := quantity])
    ensures ValueSum(keys, prices[symbol := price], quantities[symbol := quantity])
         == ValueSum(keys, prices, quantities)
            - PositionValue(prices[symbol], quantities[symbol]) + PositionValue(price, quantity)
  {
    var n := |keys|;
    var init := keys[..n - 1];
    if keys[n - 1] == symbol {
      assert symbol !in init;
      ValueSumUnaffected(init, prices, quantities, symbol, price, quantity);
    } else {
      assert keys == init + [keys[n - 1]];
      assert symbol in init;
      ValueSumOverwrite(init, prices, quantities, symbol, price, quantity);
    }
  }

  /** Adding a new position adds its value to the total. */
  lemma ValueSumInsert(keys: seq<string>, prices: map<string, real>, quantities: map<string, int>,
                       symbol: string, price: real, quantity: int)
    requires Priced(keys, prices, quantities)
    requires symbol !in keys
    ensures Priced(keys + [symbol], prices[symbol := price], quantities[symbol := quantity])
    ensures ValueSum(keys + [symbol], prices[symbol := price], quantities[symbol := quantity])
         == ValueSum(keys, prices, quantities) + PositionValue(price, quantity)
  {
    assert (keys + [symbol])[..|keys|] == keys;
    ValueSumUnaffected(keys, prices, quantities, symbol, price, quantity);
  }

  /** Taking one position out of the list takes its value out of the sum,
      wherever it stands. */
  lemma {:induction false} ValueSumRemove(keys: seq<string>, prices: map<string, real>,
                                          quantities: map<string, int>, i: nat)
    requires Priced(keys, prices, quantities) && i < |keys|
    ensures Priced(keys[..i] + keys[i + 1..], prices, quantities)
    ensures ValueSum(keys, prices, quantities)
         == ValueSum(keys[..i] + keys[i + 1..], prices, quantities) + PositionValue(prices[keys[i]], quantities[keys[i]])
  {
    var n := |keys|;
    var rest := keys[..i] + keys[i + 1..];
    assert forall k :: 0 <= k < |rest| ==> rest[k] in keys;
    if i == n - 1 {
      assert rest == keys[..n - 1];
    } else {
      var init := keys[..n - 1];
      ValueSumRemove(init, prices, quantities, i);
      var initRest := init[..i] + init[i + 1..];
      assert rest[..|rest| - 1] == initRest;
      assert rest[|rest| - 1] == keys[n - 1];
    }
  }

  /** Dropping entry `i` from a duplicate-free listing leaves a duplicate-free
      listing of every other symbol. */
  lemma RemoveAt(keys: seq<string>, i: nat)
    requires Distinct(keys) && i < |keys|
    ensures Distinct(keys[..i] + keys[i + 1..])
    ensures forall y :: y in keys[..i] + keys[i + 1..] <==> y in keys && y != keys[i]
  {
    var rest := keys[..i] + keys[i + 1..];
    assert forall k :: 0 <= k < |rest| ==> rest[k] == keys[if k < i then k else k + 1];
    forall y | y in keys && y != keys[i] ensures y in rest {
      var m :| 0 <= m < |keys| && keys[m] == y;
      assert rest[if m < i then m else m - 1] == y;
    }
  }

  /** The total does not depend on the order the positions are visited in:
      any two duplicate-free listings of the same symbols give the same sum. */
  lemma {:induction false} ValueSumPermutation(a: seq<string>, b: seq<string>, prices: map<string, real>,
                                               quantities: map<string, int>)
    requires Distinct(a) && Distinct(b)
    requires Priced(a, prices, quantities)
    requires forall x :: x in a <==> x in b
    ensures Priced(b, prices, quantities)
    ensures ValueSum(a, prices, quantities) == ValueSum(b, prices, quantities)
    decreases |a|
  {
    assert forall k :: 0 <= k < |b| ==> b[k] in a;
    if |a| > 0 {
      var n := |a|;
      var x := a[n - 1];
      assert x in a;
      var i :| 0 <= i < |b| && b[i] == x;
      var a', b' := a[..n - 1], b[..i] + b[i + 1..];
      RemoveAt(a, n - 1);
      RemoveAt(b, i);
      assert a[..n - 1] + a[n..] == a';
      forall y ensures y in a' <==> y in b' {
        assert y in a' <==> y in a && y != x;
      }
      ValueSumPermutation(a', b', prices, quantities);
      ValueSumRemove(b, prices, quantities, i);
    }
  }

  /** Positions with non-negative prices and quantities have a non-negative total. */
  lemma {:induction false} ValueSumNonNegative(keys: seq<string>, prices: map<string, real>,
                                               quantities: map<string, int>)
    requires Priced(keys, prices, quantities)
    ensures (forall i :: 0 <= i < |keys| ==> 0.0 <= prices[keys[i]] && 0 <= quantities[keys[i]])
        ==> 0.0 <= ValueSum(keys, prices, quantities)
  {
    if |keys| > 0 && forall i :: 0 <= i < |keys| ==> 0.0 <= prices[keys[i]] && 0 <= quantities[keys[i]] {
      var last := keys[|keys| - 1];
      ValueSumNonNegative(keys[..|keys| - 1], prices, quantities);
      assert 0.0 <= prices[last] * quantities[last] as real;
    }
  }

  /** The symbols of `keys`, as a set. */
  function KeySet(keys: seq<string>): set<string>
  {
    if |keys| == 0 then {} else KeySet(keys[..|keys| - 1]) + {keys[|keys| - 1]}
  }

  lemma {:induction false} KeySetMembers(keys: seq<string>, x: string)
    ensures x in KeySet(keys) <==> x in keys
  {
    if |keys| > 0 {
      KeySetMembers(keys[..|keys| - 1], x);
      assert keys == keys[..|keys| - 1] + [keys[|keys| - 1]];
    }
  }

  /** Only the empty listing has no symbols: no positions means an empty order. */
  lemma EmptyKeySet(keys: seq<string>)
    ensures KeySet(keys) == {} ==> keys == []
  {
    if |keys| > 0 {
      KeySetMembers(keys, keys[0]);
    }
  }

  /** The container's invariant: the symbols in `order` are distinct, are
      exactly the keys of the weight map, and the price and quantity maps
      have the same keys. */
  ghost predicate Positions(order: seq<string>, weights: map<string, real>, prices: map<string, real>,
                            quantities: map<string, int>)
  {
    && Distinct(order)
    && weights.Keys == KeySet(order)
    && prices.Keys == weights.Keys
    && quantities.Keys == weights.Keys
    && Priced(order, prices, quantities)
  }

  /** The iteration order after a put: a new symbol goes last. */
  function OrderAfterPut(order: seq<string>, weights: map<string, real>, symbol: string): seq<string>
  {
    if symbol in weights then order else order + [symbol]
  }

  /** A put into all three maps keeps the invariant. */
  lemma PutKeepsPositions(order: seq<string>, weights: map<string, real>, prices: map<string, real>,
                          quantities: map<string, int>, symbol: string, weight: real, price: real, quantity: int)
    requires Positions(order, weights, prices, quantities)
    ensures Positions(OrderAfterPut(order, weights, symbol), weights[symbol := weight],
                      prices[symbol := price], quantities[symbol := quantity])
  {
    var order' := OrderAfterPut(order, weights, symbol);
    if symbol !in weights {
      KeySetMembers(order, symbol);
      assert order'[..|order|] == order;
      assert Distinct(order') by {
        forall i, j | 0 <= i < j < |order'| ensures order'[i] != order'[j] {
          if j == |order| {
            assert order[i] in order;
          }
        }
      }
    }
  }

  /** The total value after a put loses the replaced position's value (if
      any) and gains the new one's. */
  lemma PutPositionValue(order: seq<string>, weights: map<string, real>, prices: map<string, real>,
                         quantities: map<string, int>, symbol: string, weight: real, price: real, quantity: int)
    requires Positions(order, weights, prices, quantities)
    requires Priced(OrderAfterPut(order, weights, symbol), prices[symbol := price], quantities[symbol := quantity])
    ensures ValueSum(OrderAfterPut(order, weights, symbol), prices[symbol := price], quantities[symbol := quantity])
         == ValueSum(order, prices, quantities) + PositionValue(price, quantity)
            - (if symbol in weights then PositionValue(prices[symbol], quantities[symbol]) else 0.0)
  {
    KeySetMembers(order, symbol);
    if symbol in weights {
      ValueSumOverwrite(order, prices, quantities, symbol, price, quantity);
    } else {
      ValueSumInsert(order, prices, quantities, symbol, price, quantity);
    }
  }

  /** The three maps share one key set, iterated in the order `order` (the
      order symbols were first added). */
  class Portfolio {
    var weights: map<string, real>
    var prices: map<string, real>
    var quantities: map<string, int>
    var order: seq<string>

    ghost predicate Valid()
      reads this
    {
      Positions(order, weights, prices, quantities)
    }

    constructor()
      ensures Valid()
      ensures weights == map[] && prices == map[] && quantities == map[] && order == []
    {
      weights, prices, quantities, order := map[], map[], map[], [];
    }

    /** getSymbols: every position's symbol once, in iteration order. */
    function Symbols(): (s: seq<string>)
      reads this
      requires Valid()
      ensures Distinct(s)
      ensures forall x :: x in s <==> x in weights
    {
      forall x ensures x in order <==> x in weights {
        KeySetMembers(order, x);
      }
      order
    }

    /** getWeights: entry i is the weight of getSymbols()[i]. */
    function Weights(): (w: seq<real>)
      reads this
      requires Valid()
      ensures |w| == |Symbols()|
      ensures forall i :: 0 <= i < |w| ==> w[i] == weights[Symbols()[i]]
    {
      WeightsOf(order, weights)
    }

    /** getTotalValue: the sum of price times quantity over the positions. The
        order the price entries are streamed in does not matter
        (ValueSumPermutation); with no positions the total is 0, and
        non-negative prices and quantities give a non-negative total. */
    function TotalValue(): (v: real)
      reads this
      requires Valid()
      ensures prices == map[] ==> v == 0.0
      ensures (forall s :: s in prices ==> 0.0 <= prices[s] && 0 <= quantities[s]) ==> 0.0 <= v
    {
      EmptyKeySet(order);
      ValueSumNonNegative(order, prices, quantities);
      ValueSum(order, prices, quantities)
    }

    /** getTotalValue streams the price entries in the map's own order: every
        duplicate-free listing of the priced symbols gives the same total. */
    lemma TotalValueAnyOrder(keys: seq<string>)
      requires Valid()
      requires Distinct(keys) && forall x :: x in keys <==> x in prices
      ensures Priced(keys, prices, quantities)
      ensures ValueSum(keys, prices, quantities) == TotalValue()
    {
      forall x ensures x in order <==> x in keys {
        KeySetMembers(order, x);
      }
      ValueSumPermutation(order, keys, prices, quantities);
    }

    /** addPosition: puts the symbol into all three maps, replacing any earlier
        entry for it; the total value changes by the difference of the two
        positions' values, never by accumulation. */
    method AddPosition(symbol: string, weight: real, price: real, quantity: int)
      requires Valid()
      modifies this
      ensures Valid()
      ensures weights == old(weights)[symbol := weight]
      ensures prices == old(prices)[symbol := price]
      ensures quantities == old(quantities)[symbol := quantity]
      ensures order == OrderAfterPut(old(order), old(weights), symbol)
      ensures TotalValue() == old(TotalValue()) + PositionValue(price, quantity)
        - (if symbol in old(weights) then PositionValue(old(prices)[symbol], old(quantities)[symbol]) else 0.0)
    {
      order, weights, prices, quantities :=
        OrderAfterPut(order, weights, symbol), weights[symbol := weight], prices[symbol := price], quantities[symbol := quantity];
      PutKeepsPositions(old(order), old(weights), old(prices), old(quantities), symbol, weight, price, quantity);
      PutPositionValue(old(order), old(weights), old(prices), old(quantities), symbol, weight, price, quantity);
    }
  }
}
