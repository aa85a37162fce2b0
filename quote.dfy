/** Best bid and ask of a reference book (src/core/marketData/models/Quote.ts). */
module Quotes {

  /** JavaScript's `Number.MAX_VALUE`, (2 - 2^-52) * 2^1023, exactly: the
      ask of a book without sell levels. */
  const MAX_VALUE: real := 179769313486231570814527423731704356798070567525844996598917476803157260780028538760589558632766878171540458953514382464234321326889464182768467546703537516986049910576551282076245490090389328944075868508455133942304583236903222948165808559332123348274797826204144723168738177180919299881250404026184124858368.0

  /** The constructor stores its four fields unchanged; the timestamp is in
      milliseconds. A price of 0 encodes "no bid" and "no ask", and
      `MAX_VALUE` also encodes "no ask". */
  datatype Quote = Quote(symbol: string, timeStamp: int, bid: real, ask: real)
  {
    predicate IsValidBid()
    {
      bid != 0.0
    }

    predicate IsValidAsk()
    {
      ask != 0.0 && ask != MAX_VALUE
    }

    /** `getMiddlePrice`: the midpoint of a two-sided quote, the one valid
        side of a one-sided quote, and 0 for an empty one. A non-zero
        result always comes from a valid side. */
    function MiddlePrice(): (r: real)
      ensures IsValidBid() && IsValidAsk() ==>
        (if bid <= ask then bid <= r <= ask else ask <= r <= bid) && r - bid == ask - r
      ensures IsValidBid() && !IsValidAsk() ==> r == bid
      ensures !IsValidBid() && IsValidAsk() ==> r == ask
      ensures !IsValidBid() && !IsValidAsk() ==> r == 0.0
      ensures bid >= 0.0 && ask >= 0.0 ==> (r == 0.0 <==> !IsValidBid() && !IsValidAsk())
    {
      if IsValidBid() && IsValidAsk() then (ask + bid) / 2.0
      else if IsValidBid() then bid
      else if IsValidAsk() then ask
      else 0.0
    }
  }
}
