/** The failures a client call can end in (src/lib/error.ts and the plain `Error`s
    and runtime faults of src/quotation.ts). Each kind carries a fixed message in the
    source; the messages are not modelled. */
module Errors {

  datatype Error =
    /** The exchange answered with an error body: its `error.name` and `error.message`. */
    | UpbitApiError(name: string, message: string)
    /** More than 200 candles were asked for in one call. */
    | OverMaxCallCount
    /** The candle interval names no endpoint. */
    | BadTimeInterval
    /** The range query returned no candles ("invalid range" in the source). */
    | BadRange
    /** No account holds the requested currency. */
    | WrongCoin
    /** The price snapshot list was empty, so reading its first element fails. */
    | NoSnapshot
}
