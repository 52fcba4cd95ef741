/** The rolling buffer of closed bars (a deque with a maximum length). */
module CandleBuffers {
  import opened Basics

  /** A float read from the feed: a number or NaN. */
  datatype Price = NaN | Num(x: real)

  datatype Bar = Bar(open: Price, high: Price, low: Price, close: Price, time: int)

  class CandleBuffer {
    var bars: seq<Bar>
    const maxlen: nat

    ghost predicate Valid()
      reads this
    {
      |bars| <= maxlen
    }

    constructor (maxlen: nat)
      ensures Valid() && bars == [] && this.maxlen == maxlen
    {
      bars := [];
      this.maxlen := maxlen;
    }

    /** Appending to a full deque drops the oldest bar. */
    method Append(bar: Bar)
      requires Valid()
      modifies this
      ensures Valid() && bars == LastN(old(bars) + [bar], maxlen)
    {
      bars := bars + [bar];
      if |bars| > maxlen {
        bars := bars[1..];
      }
    }

    method Last() returns (bar: Option<Bar>)
      requires Valid()
      ensures bars == [] ==> bar == None
      ensures bars != [] ==> bar == Some(bars[|bars| - 1])
    {
      bar := if |bars| > 0 then Some(bars[|bars| - 1]) else None;
    }
  }
}
