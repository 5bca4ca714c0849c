/** The backend's in-memory state: a symbol-keyed stock table and an append-only order log. */
module Service {
  import opened Models

  /** Every entry of the stock table is filed under its own symbol. */
  ghost predicate WellKeyed(stocks: map<string, Stock>) {
    forall k :: k in stocks ==> stocks[k].symbol == k
  }

  /** `r` is a copy of the stock table in some order: one entry per key, nothing else. */
  ghost predicate IsStockSnapshot(r: seq<Stock>, stocks: map<string, Stock>) {
    && |r| == |stocks|
    && (forall i :: 0 <= i < |r| ==> r[i].symbol in stocks && stocks[r[i].symbol] == r[i])
    && (forall k :: k in stocks ==> stocks[k] in r)
    && (forall i, j :: 0 <= i < j < |r| ==> r[i].symbol != r[j].symbol)
  }

  /** Percentage change from `oldPrice` to `newPrice`, as the store computes it. */
  function PercentChange(oldPrice: real, newPrice: real): real
    requires oldPrice != 0.0
  {
    ((newPrice - oldPrice) / oldPrice) * 100.0
  }

  /** For a positive old price the change has the sign of the price move. */
  lemma PercentChangeSign(oldPrice: real, newPrice: real)
    requires oldPrice > 0.0
    ensures PercentChange(oldPrice, newPrice) > 0.0 <==> newPrice > oldPrice
    ensures PercentChange(oldPrice, newPrice) < 0.0 <==> newPrice < oldPrice
    ensures PercentChange(oldPrice, newPrice) == 0.0 <==> newPrice == oldPrice
  {
  }

  /** The new price is recovered from the old one and the recorded change. */
  lemma PercentChangeInverse(oldPrice: real, newPrice: real)
    requires oldPrice != 0.0
    ensures oldPrice + oldPrice * PercentChange(oldPrice, newPrice) / 100.0 == newPrice
  {
  }

  /** The stock table after a price report for `symbol`. */
  function PriceUpdated(stocks: map<string, Stock>, symbol: string, newPrice: real): (r: map<string, Stock>)
    ensures r.Keys == stocks.Keys + {symbol}
    ensures forall k :: k in stocks && k != symbol ==> r[k] == stocks[k]
    ensures symbol in stocks ==>
      && r[symbol].symbol == stocks[symbol].symbol
      && r[symbol].price == newPrice
      && r[symbol].lastChange ==
           (if stocks[symbol].price != 0.0 then PercentChange(stocks[symbol].price, newPrice)
            else stocks[symbol].lastChange)
    ensures symbol !in stocks ==> r[symbol] == Stock(symbol, newPrice, 0.0)
  {
    if symbol in stocks then
      var stock := stocks[symbol];
      var change := if stock.price != 0.0 then PercentChange(stock.price, newPrice) else stock.lastChange;
      stocks[symbol := stock.(price := newPrice, lastChange := change)]
    else
      stocks[symbol := Stock(symbol, newPrice, 0.0)]
  }

  /** A price report keeps every entry filed under its own symbol. */
  lemma PriceUpdatedWellKeyed(stocks: map<string, Stock>, symbol: string, newPrice: real)
    requires WellKeyed(stocks)
    ensures WellKeyed(PriceUpdated(stocks, symbol, newPrice))
  {
  }

  /** A second report of the same price for a listed symbol with a non-zero price
      records no change. */
  lemma RepeatedPriceRecordsNoChange(stocks: map<string, Stock>, symbol: string, newPrice: real)
    requires symbol in stocks && stocks[symbol].price == newPrice && newPrice != 0.0
    ensures PriceUpdated(stocks, symbol, newPrice)[symbol].lastChange == 0.0
    ensures PriceUpdated(stocks, symbol, newPrice)[symbol].price == newPrice
  {
  }

  class Store {
    var stocks: map<string, Stock>
    var orders: seq<Order>

    /** The store's invariant: each stock sits under its own symbol. */
    ghost predicate Valid()
      reads this
    {
      WellKeyed(stocks)
    }

    /** An empty store: no stocks and no orders. */
    constructor ()
      ensures Valid()
      ensures stocks == map[] && orders == []
    {
      stocks := map[];
      orders := [];
    }

    /** A copy of the stock table; the order of a Go map traversal is left open. */
    method GetStocks() returns (r: seq<Stock>)
      requires Valid()
      ensures IsStockSnapshot(r, stocks)
    {
      r := [];
      var remaining := stocks.Keys;
      while remaining != {}
        invariant remaining <= stocks.Keys
        invariant |r| + |remaining| == |stocks.Keys|
        invariant forall i :: 0 <= i < |r| ==> r[i].symbol in stocks.Keys - remaining && stocks[r[i].symbol] == r[i]
        invariant forall k :: k in stocks.Keys - remaining ==> stocks[k] in r
        invariant forall i, j :: 0 <= i < j < |r| ==> r[i].symbol != r[j].symbol
        decreases remaining
      {
        var k :| k in remaining;
        assert stocks[k].symbol == k;
        r := r + [stocks[k]];
        remaining := remaining - {k};
      }
      assert |stocks.Keys| == |stocks|;
    }

    /** Appends an order to the log. */
    method AddOrder(order: Order)
      requires Valid()
      modifies this
      ensures Valid()
      ensures orders == old(orders) + [order]
      ensures stocks == old(stocks)
    {
      orders := orders + [order];
    }

    /** A copy of the order log, in insertion order. */
    method GetOrders() returns (r: seq<Order>)
      ensures |r| == |orders|
      ensures forall i :: 0 <= i < |r| ==> r[i] == orders[i]
    {
      var copy := new Order[|orders|];
      for i := 0 to |orders|
        invariant forall j :: 0 <= j < i ==> copy[j] == orders[j]
      {
        copy[i] := orders[i];
      }
      r := copy[..];
    }

    /** Records a new price for `symbol`, inserting the stock when it is unknown. */
    method UpdateStockPrice(symbol: string, newPrice: real)
      requires Valid()
      modifies this
      ensures Valid()
      ensures stocks == PriceUpdated(old(stocks), symbol, newPrice)
      ensures orders == old(orders)
    {
      PriceUpdatedWellKeyed(stocks, symbol, newPrice);
      if symbol in stocks {
        var stock := stocks[symbol];
        if stock.price != 0.0 {
          stock := stock.(lastChange := PercentChange(stock.price, newPrice));
        }
        stock := stock.(price := newPrice);
        stocks := stocks[symbol := stock];
      } else {
        stocks := stocks[symbol := Stock(symbol, newPrice, 0.0)];
      }
    }
  }
}
