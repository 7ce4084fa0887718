module Candles {
  /** A candle; `openTime` in nanoseconds. */
  datatype Candle = Candle(openTime: int, open: real, high: real, low: real, close: real)
}
