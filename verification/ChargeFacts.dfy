/** What a round trip costs, told from the published percentages and the turnover of its buy and its sell leg. */
module ChargeFacts {
  import opened Types
  import Charges

  /** Percentages of turnover: exchange fee on both legs, transaction tax on the sell leg, stamp duty on the buy leg. */
  datatype Tariff = Tariff(exchange: real, stt: real, stamp: real)

  function Published(segment: string): Option<Tariff> {
    if segment == "EQ" then Some(Tariff(0.00307, 0.025, 0.003))
    else if segment in {"FUTIDX", "FUTIDX_CONT", "FUTSTK", "FUTSTK_CONT"} then Some(Tariff(0.00183, 0.05, 0.002))
    else if segment in {"OPTIDX", "OPTSTK"} then Some(Tariff(0.03553, 0.15, 0.003))
    else None
  }

  function Percent(pct: real, of: real): real {
    pct * of / 100.0
  }

  /** What one leg pays its broker: 0.03 percent, and never more than 20. */
  ghost predicate IsBrokerage(fee: real, turnover: real) {
    if Percent(0.03, turnover) < 20.0 then fee == Percent(0.03, turnover) else fee == 20.0
  }

  /** The stack of a round trip that buys for `bought` and sells for `sold`. */
  ghost predicate Costs(cb: ChargeBreakdown, tariff: Tariff, bought: real, sold: real) {
    && (exists b, s :: IsBrokerage(b, bought) && IsBrokerage(s, sold) && cb.brokerage == b + s)
    && cb.exchangeFees == Percent(tariff.exchange, bought + sold)
    && cb.sebiFees == Percent(0.0001, bought + sold)
    && cb.stt == Percent(tariff.stt, sold)
    && cb.stampDuty == Percent(tariff.stamp, bought)
    && cb.gst == Percent(18.0, cb.brokerage + cb.exchangeFees + cb.sebiFees)
    && cb.total == cb.brokerage + cb.stt + cb.exchangeFees + cb.sebiFees + cb.gst + cb.stampDuty
  }

  lemma LegBrokerage(turnover: real)
    ensures IsBrokerage(Charges.PerLegBrokerage(turnover), turnover)
  {
  }

  lemma LongCosts(segment: string, bought: real, sold: real)
    ensures var cb := Charges.Assess(segment, Buy, bought, sold);
            match Published(segment)
            case None => cb == ChargeBreakdown(0.0, 0.0, 0.0, 0.0, 0.0, 0.0, 0.0)
            case Some(tariff) => Costs(cb, tariff, bought, sold)
  {
    LegBrokerage(bought);
    LegBrokerage(sold);
  }

  /** What every round trip costs: a long buys at its entry and sells at its exit, a short the other way round. A
      segment without a published tariff costs nothing. */
  lemma RoundTripCosts(segment: string, side: Side, entryPrice: real, exitPrice: real, quantity: int)
    ensures var cb := Charges.Compute(segment, side, entryPrice, exitPrice, quantity);
            var q := quantity as real;
            match Published(segment)
            case None => cb == ChargeBreakdown(0.0, 0.0, 0.0, 0.0, 0.0, 0.0, 0.0)
            case Some(tariff) =>
              if side == Buy then Costs(cb, tariff, entryPrice * q, exitPrice * q)
              else Costs(cb, tariff, exitPrice * q, entryPrice * q)
  {
    if side == Buy {
      LongCosts(segment, entryPrice * quantity as real, exitPrice * quantity as real);
    } else {
      Charges.ShortMirrorsLong(segment, entryPrice, exitPrice, quantity);
      LongCosts(segment, exitPrice * quantity as real, entryPrice * quantity as real);
    }
  }

  /** The tax on a long depends on what it sells for alone, the duty on what it buys for alone; a leg at price zero pays
      neither. */
  lemma LegsPayApart(segment: string, entryPrice: real, exitPrice: real, other: real, quantity: int)
    ensures var cb := Charges.Compute(segment, Buy, entryPrice, exitPrice, quantity);
            && cb.stt == Charges.Compute(segment, Buy, other, exitPrice, quantity).stt
            && cb.stampDuty == Charges.Compute(segment, Buy, entryPrice, other, quantity).stampDuty
            && (exitPrice == 0.0 ==> cb.stt == 0.0)
            && (entryPrice == 0.0 ==> cb.stampDuty == 0.0)
  {
    RoundTripCosts(segment, Buy, entryPrice, exitPrice, quantity);
    RoundTripCosts(segment, Buy, other, exitPrice, quantity);
    RoundTripCosts(segment, Buy, entryPrice, other, quantity);
  }

  /** A hundred shares bought at 100 and sold at 200. */
  lemma DoubledEquity()
    ensures Charges.Compute("EQ", Buy, 100.0, 200.0, 100) ==
            ChargeBreakdown(9.0, 5.0, 0.921, 0.03, 1.79118, 0.3, 17.04218)
  {
  }
}
