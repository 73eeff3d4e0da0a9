/** The values exchanged by the backtest engine: candles, signals, trades and results.
    Instants and durations are integers in nanoseconds; prices and amounts are reals. */
module Types {

  datatype Option<+T> = None | Some(value: T)

  datatype Result<+T> = Ok(value: T) | Err(error: string)

  datatype Side = Buy | Sell

  const MINUTE: int := 60_000_000_000
  const HOUR: int := 60 * MINUTE

  datatype Candle = Candle(timestamp: int, open: real, high: real, low: real, close: real, volume: int) {
    /** A bar whose open and close lie inside its range, at non-negative prices. */
    predicate WellFormed() {
      0.0 <= low && low <= open <= high && low <= close <= high
    }
  }

  /** Candle streams arrive ordered by timestamp. */
  ghost predicate Chronological(cs: seq<Candle>) {
    forall i, j :: 0 <= i < j < |cs| ==> cs[i].timestamp <= cs[j].timestamp
  }

  /** One instrument at one interval has at most one bar per timestamp. */
  ghost predicate StrictlyChronological(cs: seq<Candle>) {
    forall i, j :: 0 <= i < j < |cs| ==> cs[i].timestamp < cs[j].timestamp
  }

  /** The entry conditions a strategy can name. */
  datatype Kind = MaCrossover | Supertrend | RsiOversold | Momentum | VwapCrossover

  /** The text attached to a signal is determined by its evaluator and side. */
  datatype Reason = Reason(kind: Kind, side: Side)

  datatype Signal = Signal(timestamp: int, side: Side, price: real, reason: Reason)

  ghost predicate SignalsChronological(signals: seq<Signal>) {
    forall i, j :: 0 <= i < j < |signals| ==> signals[i].timestamp <= signals[j].timestamp
  }

  /** Timestamps that advance by at least `gap`. */
  ghost predicate CandlesApart(cs: seq<Candle>, gap: int) {
    forall i, j :: 0 <= i < j < |cs| ==> cs[i].timestamp + gap <= cs[j].timestamp
  }

  ghost predicate SignalsApart(signals: seq<Signal>, gap: int) {
    forall i, j :: 0 <= i < j < |signals| ==> signals[i].timestamp + gap <= signals[j].timestamp
  }

  datatype ExitReason = Target | StopLoss | TimeExit | SignalReversal | EndOfData

  datatype ChargeBreakdown = ChargeBreakdown(
    brokerage: real, stt: real, exchangeFees: real, sebiFees: real, gst: real, stampDuty: real, total: real)

  const NO_CHARGES := ChargeBreakdown(0.0, 0.0, 0.0, 0.0, 0.0, 0.0, 0.0)

  /** A charge calculator maps (segment, entry side, entry price, exit price, quantity) to a cost stack. */
  type ChargeCalculator = (string, Side, real, real, int) -> ChargeBreakdown

  datatype Strategy = Strategy(
    entryCondition: string, segment: string,
    targetPct: Option<real>, stopLossPct: Option<real>, timeExitMinutes: Option<int>, lotSize: int)

  datatype EngineInputs = EngineInputs(interval: string, signalCandles: seq<Candle>, tradeCandles: seq<Candle>)

  datatype RunConfig = RunConfig(lots: int, initialCapital: real, slippagePct: real)

  datatype Trade = Trade(
    entryTimestamp: int, exitTimestamp: int, side: Side, quantity: int,
    entryPrice: real, exitPrice: real, grossPnL: real, slippage: real,
    charges: ChargeBreakdown, netPnL: real, reason: Reason, exitReason: Option<ExitReason>)

  datatype BacktestResult = BacktestResult(
    trades: seq<Trade>, grossPnL: real, totalCharges: real, slippage: real, slippagePct: real,
    netPnL: real, totalTrades: int, winCount: int, lossCount: int, maxDrawdown: real)

  const EMPTY_RESULT := BacktestResult([], 0.0, 0.0, 0.0, 0.0, 0.0, 0, 0, 0, 0.0)
}
