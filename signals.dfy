/** The decision vocabulary shared by every strategy: signals, the caller's
    position context, reason tags, and the crossover and position-gating rules
    that most strategies repeat. */
module Signals {
  import opened Base

  datatype Signal = Hold | Buy | Sell | CloseLong | CloseShort

  /** `current_position_type`: `None`, `"LONG"`, `"SHORT"`, or any other string. */
  datatype Position = NoPosition | Long | Short | Other

  function PositionOf(p: Option<string>): (pos: Position)
    ensures pos == NoPosition <==> p.None?
    ensures pos == Long <==> p == Some("LONG")
    ensures pos == Short <==> p == Some("SHORT")
  {
    match p
    case None => NoPosition
    case Some(s) => if s == "LONG" then Long else if s == "SHORT" then Short else Other
  }

  /** Where the latest price stands against the trend EMA (candlestick filter). */
  datatype Trend = Uptrend | Downtrend | AtEma

  /** The context a HOLD reports once the data guards have passed. */
  datatype Tag =
    | Above | Below | Between | Equal
    | Bullish | Bearish
    | Oversold | Overbought
    | Within
    | Rising | Falling | Flat
    | Unclear
    | NoPattern | PatternSeen(bullish: bool, trend: Trend)

  /** The `details` message, as a tag rather than formatted text. */
  datatype Reason =
    | ColumnsMissing    // a required column is absent
    | TooFewRows        // fewer rows than the lookback needs
    | ValuesMissing     // a missing value among the rows the rule reads
    | DataIncomplete    // one combined guard for all of the above
    | InvalidParams     // a threshold parameter fails its sanity check
    | Fired             // the explanation of a BUY/SELL/CLOSE_* signal
    | Initial           // the initial message, left unchanged
    | Context(tag: Tag) // the HOLD context chosen from the latest values

  /** The optional `bias` field (only the Bollinger strategy sets it). */
  datatype Bias = BullishBias | BearishBias

  datatype Decision = Decision(signal: Signal, reason: Reason, bias: Option<Bias>)

  function HoldFor(r: Reason): Decision
  {
    Decision(Hold, r, None)
  }

  /** Series A crosses above series B between the previous and the latest bar. */
  predicate CrossAbove(prevA: real, prevB: real, a: real, b: real)
  {
    prevA <= prevB && a > b
  }

  /** Series A crosses below series B between the previous and the latest bar. */
  predicate CrossBelow(prevA: real, prevB: real, a: real, b: real)
  {
    prevA >= prevB && a < b
  }

  /** The position gating most strategies share: entries when flat, the
      opposite event as an exit when a position is held, HOLD otherwise. */
  function Gate(pos: Position, buy: bool, sell: bool): (s: Signal)
    ensures s == Buy <==> pos == NoPosition && buy
    ensures s == Sell <==> pos == NoPosition && !buy && sell
    ensures s == CloseLong <==> pos == Long && sell
    ensures s == CloseShort <==> pos == Short && buy
  {
    match pos
    case NoPosition => if buy then Buy else if sell then Sell else Hold
    case Long => if sell then CloseLong else Hold
    case Short => if buy then CloseShort else Hold
    case Other => Hold
  }

  /** A gated decision: the signal's own explanation when it fires, the HOLD
      context otherwise. */
  function Gated(pos: Position, buy: bool, sell: bool, context: Tag): (d: Decision)
    ensures d.signal == Gate(pos, buy, sell)
    ensures d.signal == Hold <==> d.reason == Context(context)
    ensures d.signal != Hold <==> d.reason == Fired
    ensures d.bias == None
  {
    var s := Gate(pos, buy, sell);
    Decision(s, if s == Hold then Context(context) else Fired, None)
  }

  /** A crossover up and a crossover down cannot happen on the same bar. */
  lemma CrossesExclusive(prevA: real, prevB: real, a: real, b: real)
    ensures !(CrossAbove(prevA, prevB, a, b) && CrossBelow(prevA, prevB, a, b))
  {
  }

  /** When the two events are exclusive, a flat position turns each event
      into its own entry, and a held position never enters. */
  lemma GateExclusive(pos: Position, buy: bool, sell: bool)
    requires !(buy && sell)
    ensures Gate(pos, buy, sell) == Sell <==> pos == NoPosition && sell
    ensures Gate(pos, buy, sell) in {Buy, Sell} ==> pos == NoPosition
    ensures pos == Other ==> Gate(pos, buy, sell) == Hold
  {
  }
}
