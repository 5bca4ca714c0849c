/** Shared records of the trading backend and the values the frontend receives. */
module Models {

  /** A stock and its most recent price; `lastChange` is a percentage. */
  datatype Stock = Stock(symbol: string, price: real, lastChange: real)

  /** A buy or sell order. Timestamps are an opaque, totally ordered clock reading. */
  datatype Order = Order(
    id: string,
    symbol: string,
    side: string,
    quantity: int,
    price: real,
    timestamp: int)

  datatype Option<T> = None | Some(value: T)

  datatype Result<T> = Ok(value: T) | Err(message: string)
}
