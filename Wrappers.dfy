/** Optional values, used for an order book the exchange may not have. */
module Wrappers {
  datatype Option<+T> = None | Some(value: T)
}
