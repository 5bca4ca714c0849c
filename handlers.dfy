/** The HTTP handlers over the store: price and order snapshots, and order creation. */
module Handlers {
  import opened Models
  import Service

  const StatusOK := 200
  const StatusCreated := 201
  const StatusBadRequest := 400

  const InvalidOrderDetails := "Invalid order details"

  /** The outcome of binding a request body to an order: the binder's error text, or the
      order the client sent (including whatever `id` and `timestamp` it carried). */
  datatype Binding = BindError(message: string) | Bound(order: Order)

  /** A JSON response body. */
  datatype Body =
    | ErrorBody(error: string)
    | OrderBody(order: Order)
    | StocksBody(stocks: seq<Stock>)
    | OrdersBody(orders: seq<Order>)

  datatype Response = Response(status: int, body: Body)

  /** The admission test an order must pass before it is recorded. */
  predicate ValidOrderDetails(o: Order) {
    o.symbol != "" && (o.side == "buy" || o.side == "sell") && o.quantity > 0 && o.price > 0.0
  }

  /** The order as recorded: the request's fields, with the server's id and time. */
  function Stamped(o: Order, id: string, now: int): (r: Order)
    ensures r.symbol == o.symbol && r.side == o.side
    ensures r.quantity == o.quantity && r.price == o.price
    ensures r.id == id && r.timestamp == now
  {
    o.(id := id, timestamp := now)
  }

  /** Each of the four defects alone gets an order rejected, and an order without them
      is admitted. */
  lemma RejectionCauses(o: Order)
    ensures o.symbol == "" ==> !ValidOrderDetails(o)
    ensures o.side != "buy" && o.side != "sell" ==> !ValidOrderDetails(o)
    ensures o.quantity <= 0 || o.price <= 0.0 ==> !ValidOrderDetails(o)
    ensures o.symbol != "" && o.side in {"buy", "sell"} && o.quantity >= 1 && o.price > 0.0
            ==> ValidOrderDetails(o)
  {
  }

  /** Admission does not depend on the id and time the client sent. */
  lemma AdmissionIgnoresClientStamp(o: Order, id: string, now: int)
    ensures ValidOrderDetails(Stamped(o, id, now)) <==> ValidOrderDetails(o)
  {
  }

  class Handler {
    const store: Service.Store

    constructor (store: Service.Store)
      ensures this.store == store
    {
      this.store := store;
    }

    /** GET /prices: the current stock table, in some order. */
    method GetPrices() returns (resp: Response)
      requires store.Valid()
      ensures resp.status == StatusOK && resp.body.StocksBody?
      ensures Service.IsStockSnapshot(resp.body.stocks, store.stocks)
    {
      var stocks := store.GetStocks();
      resp := Response(StatusOK, StocksBody(stocks));
    }

    /** POST /orders: reject a body that fails to bind or fails validation, else stamp
        the order with `id` and `now`, append it and echo it back. */
    method CreateOrder(binding: Binding, id: string, now: int) returns (resp: Response)
      requires store.Valid()
      modifies store
      ensures store.Valid()
      ensures store.stocks == old(store.stocks)
      ensures binding.BindError? ==>
        && resp == Response(StatusBadRequest, ErrorBody(binding.message))
        && store.orders == old(store.orders)
      ensures binding.Bound? && !ValidOrderDetails(binding.order) ==>
        && resp == Response(StatusBadRequest, ErrorBody(InvalidOrderDetails))
        && store.orders == old(store.orders)
      ensures binding.Bound? && ValidOrderDetails(binding.order) ==>
        && resp == Response(StatusCreated, OrderBody(Stamped(binding.order, id, now)))
        && store.orders == old(store.orders) + [Stamped(binding.order, id, now)]
    {
      if binding.BindError? {
        return Response(StatusBadRequest, ErrorBody(binding.message));
      }
      var order := binding.order;
      if !ValidOrderDetails(order) {
        return Response(StatusBadRequest, ErrorBody(InvalidOrderDetails));
      }
      order := order.(id := id);
      order := order.(timestamp := now);
      store.AddOrder(order);
      resp := Response(StatusCreated, OrderBody(order));
    }

    /** GET /orders: the order log in insertion order. */
    method GetOrders() returns (resp: Response)
      ensures resp == Response(StatusOK, OrdersBody(store.orders))
    {
      var orders := store.GetOrders();
      assert orders == store.orders;
      resp := Response(StatusOK, OrdersBody(orders));
    }
  }
}
