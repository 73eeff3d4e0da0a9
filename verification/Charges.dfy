/** The Indian retail cost stack of one round trip: brokerage capped per leg, STT on the sell leg, stamp duty on
    the buy leg, GST on the fees. */
module Charges {
  import opened Types

  const SEBI_PCT := 0.000001
  const GST_PCT := 0.18
  const BROKERAGE_FLAT_PER_LEG := 20.0
  const BROKERAGE_PCT := 0.0003

  /** The rows of the rate table. */
  datatype RateClass = Equity | Futures | Options

  function RateTable(segment: string): Option<RateClass> {
    match segment
    case "EQ" => Some(Equity)
    case "FUTIDX" => Some(Futures)
    case "FUTIDX_CONT" => Some(Futures)
    case "FUTSTK" => Some(Futures)
    case "FUTSTK_CONT" => Some(Futures)
    case "OPTIDX" => Some(Options)
    case "OPTSTK" => Some(Options)
    case _ => None
  }

  function ExchangeFee(rate: RateClass, turnover: real): real {
    match rate
    case Equity => 0.0000307 * turnover
    case Futures => 0.0000183 * turnover
    case Options => 0.0003553 * turnover
  }

  function Stt(rate: RateClass, sellTurnover: real): real {
    match rate
    case Equity => 0.00025 * sellTurnover
    case Futures => 0.0005 * sellTurnover
    case Options => 0.0015 * sellTurnover
  }

  function StampDuty(rate: RateClass, buyTurnover: real): real {
    match rate
    case Equity => 0.00003 * buyTurnover
    case Futures => 0.00002 * buyTurnover
    case Options => 0.00003 * buyTurnover
  }

  function PerLegBrokerage(turnover: real): real {
    var pct := BROKERAGE_PCT * turnover;
    if pct < BROKERAGE_FLAT_PER_LEG then pct else BROKERAGE_FLAT_PER_LEG
  }

  /** The stack for given leg turnovers. GST applies to brokerage, exchange and SEBI fees only. */
  function ForTurnovers(rate: RateClass, side: Side, entry: real, exit: real): ChargeBreakdown {
    var brokerage := PerLegBrokerage(entry) + PerLegBrokerage(exit);
    var exchange := ExchangeFee(rate, entry + exit);
    var sebi := SEBI_PCT * (entry + exit);
    var stt := Stt(rate, if side == Buy then exit else entry);
    var stamp := StampDuty(rate, if side == Buy then entry else exit);
    var gst := GST_PCT * (brokerage + exchange + sebi);
    ChargeBreakdown(brokerage, stt, exchange, sebi, gst, stamp, brokerage + stt + exchange + sebi + gst + stamp)
  }

  function Turnover(price: real, quantity: int): real {
    price * quantity as real
  }

  function Assess(segment: string, side: Side, entryTurnover: real, exitTurnover: real): ChargeBreakdown {
    var rate := RateTable(segment);
    if rate.None? then NO_CHARGES else ForTurnovers(rate.value, side, entryTurnover, exitTurnover)
  }

  function Compute(segment: string, side: Side, entryPrice: real, exitPrice: real, quantity: int): ChargeBreakdown {
    Assess(segment, side, Turnover(entryPrice, quantity), Turnover(exitPrice, quantity))
  }

  function ComponentSum(cb: ChargeBreakdown): real {
    cb.brokerage + cb.stt + cb.exchangeFees + cb.sebiFees + cb.gst + cb.stampDuty
  }

  /** No component is negative and the total is the sum of the components. */
  ghost predicate Sound(cb: ChargeBreakdown) {
    && cb.brokerage >= 0.0 && cb.stt >= 0.0 && cb.exchangeFees >= 0.0 && cb.sebiFees >= 0.0
    && cb.gst >= 0.0 && cb.stampDuty >= 0.0 && cb.total == ComponentSum(cb)
  }

  /** Every component of `x` is at most the same component of `y` plus that of `z`. */
  ghost predicate AtMostSum(x: ChargeBreakdown, y: ChargeBreakdown, z: ChargeBreakdown) {
    && x.brokerage <= y.brokerage + z.brokerage && x.stt <= y.stt + z.stt
    && x.exchangeFees <= y.exchangeFees + z.exchangeFees && x.sebiFees <= y.sebiFees + z.sebiFees
    && x.gst <= y.gst + z.gst && x.stampDuty <= y.stampDuty + z.stampDuty && x.total <= y.total + z.total
  }

  /** The total is the sum of the components, whatever the segment and the sign of the inputs. */
  lemma TotalIsSum(segment: string, side: Side, entryPrice: real, exitPrice: real, quantity: int)
    ensures var cb := Compute(segment, side, entryPrice, exitPrice, quantity); cb.total == ComponentSum(cb)
  {
  }

  lemma TurnoversSubadditive(rate: RateClass, side: Side, e1: real, x1: real, e2: real, x2: real)
    requires e1 >= 0.0 && x1 >= 0.0 && e2 >= 0.0 && x2 >= 0.0
    ensures Sound(ForTurnovers(rate, side, e1, x1))
    ensures AtMostSum(ForTurnovers(rate, side, e1 + e2, x1 + x2),
                      ForTurnovers(rate, side, e1, x1), ForTurnovers(rate, side, e2, x2))
  {
    BrokerageSubadditive(e1, e2);
    BrokerageSubadditive(x1, x2);
  }

  /** The per-leg cap makes brokerage subadditive: one big order never costs more than two small ones. */
  lemma BrokerageSubadditive(t1: real, t2: real)
    requires t1 >= 0.0 && t2 >= 0.0
    ensures PerLegBrokerage(t1 + t2) <= PerLegBrokerage(t1) + PerLegBrokerage(t2)
    ensures PerLegBrokerage(t1) >= 0.0
  {
  }

  /** The whole stack is non-negative, is the sum of its parts, and is subadditive in quantity. */
  lemma ComputeFacts(segment: string, side: Side, entryPrice: real, exitPrice: real, q1: int, q2: int)
    requires entryPrice >= 0.0 && exitPrice >= 0.0 && q1 >= 0 && q2 >= 0
    ensures Sound(Compute(segment, side, entryPrice, exitPrice, q1))
    ensures AtMostSum(Compute(segment, side, entryPrice, exitPrice, q1 + q2),
                      Compute(segment, side, entryPrice, exitPrice, q1),
                      Compute(segment, side, entryPrice, exitPrice, q2))
  {
    var e1, x1, e2, x2 := LegTurnovers(segment, side, entryPrice, exitPrice, q1, q2);
    AssessFacts(segment, side, e1, x1, e2, x2);
  }

  /** The leg turnovers of two quantities: those of the sum are their sums. */
  lemma LegTurnovers(segment: string, side: Side, entryPrice: real, exitPrice: real, q1: int, q2: int)
    returns (e1: real, x1: real, e2: real, x2: real)
    requires entryPrice >= 0.0 && exitPrice >= 0.0 && q1 >= 0 && q2 >= 0
    ensures e1 >= 0.0 && x1 >= 0.0 && e2 >= 0.0 && x2 >= 0.0
    ensures Compute(segment, side, entryPrice, exitPrice, q1) == Assess(segment, side, e1, x1)
    ensures Compute(segment, side, entryPrice, exitPrice, q2) == Assess(segment, side, e2, x2)
    ensures Compute(segment, side, entryPrice, exitPrice, q1 + q2) == Assess(segment, side, e1 + e2, x1 + x2)
  {
    TurnoverSplits(entryPrice, q1, q2);
    TurnoverSplits(exitPrice, q1, q2);
    e1, x1 := Turnover(entryPrice, q1), Turnover(exitPrice, q1);
    e2, x2 := Turnover(entryPrice, q2), Turnover(exitPrice, q2);
  }

  lemma AssessFacts(segment: string, side: Side, e1: real, x1: real, e2: real, x2: real)
    requires e1 >= 0.0 && x1 >= 0.0 && e2 >= 0.0 && x2 >= 0.0
    ensures Sound(Assess(segment, side, e1, x1))
    ensures AtMostSum(Assess(segment, side, e1 + e2, x1 + x2), Assess(segment, side, e1, x1),
                      Assess(segment, side, e2, x2))
  {
    if RateTable(segment).Some? {
      TurnoversSubadditive(RateTable(segment).value, side, e1, x1, e2, x2);
    }
  }

  lemma TurnoverSplits(price: real, q1: int, q2: int)
    requires price >= 0.0 && q1 >= 0 && q2 >= 0
    ensures Turnover(price, q1 + q2) == Turnover(price, q1) + Turnover(price, q2)
    ensures Turnover(price, q1) >= 0.0 && Turnover(price, q2) >= 0.0
  {
  }

  /** A short from p to q sells at p and buys at q, so it costs what the long from q to p costs. */
  lemma ShortMirrorsLong(segment: string, p: real, q: real, quantity: int)
    ensures Compute(segment, Sell, p, q, quantity) == Compute(segment, Buy, q, p, quantity)
  {
  }
}
