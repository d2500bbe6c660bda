/** Instruments, signals and trades (app/utils/instruments.py, app/models/signal.py, app/models/trade.py). */
module Trading {
  import opened Foundations

  datatype InstrumentRecord = Instrument(symbol: string, pipSize: real, quotePerPip: real, isMetal: bool)
  {
    function Pips(delta: real): (r: real)
      requires pipSize != 0.0
    {
      delta / pipSize
    }

    function PriceDelta(pips: real): (r: real) { pips * pipSize }
  }

  /** Every registered instrument has a positive pip size; prices are divided by it. */
  type Instrument = i: InstrumentRecord | i.pipSize > 0.0 witness Instrument("EURUSD", 0.0001, 10.0, false)

  datatype Side = Long | Short

  datatype Signal = Signal(
    inst: Instrument, timeframe: string, side: Side,
    entry: real, stop: real, target: real, session: string, generatedAt: int, confidence: real)
  {
    function RiskDistance(): (r: real) { Abs(entry - stop) }

    function RewardDistance(): (r: real) { Abs(target - entry) }

    function RrRatio(): (r: real)
    {
      if RiskDistance() == 0.0 then 0.0 else RewardDistance() / RiskDistance()
    }

    /** What the constructors check: the stop and target lie on opposite sides of the entry, and all are positive. */
    predicate Accepted()
    {
      && 0.0 < entry && 0.0 < stop && 0.0 < target && 0.0 <= confidence <= 1.0
      && match side
         case Long => stop < entry < target
         case Short => target < entry < stop
    }
  }

  /** The constructors accept exactly the signals whose levels stand in order above zero, and whose confidence is a
      share. */
  lemma AcceptedExactlyWhen(s: Signal)
    ensures s.Accepted() <==>
            && 0.0 <= s.confidence <= 1.0
            && if s.side == Long then 0.0 < s.stop < s.entry < s.target else 0.0 < s.target < s.entry < s.stop
  {
  }

  /** The ratio is what turns the risk into the reward, and 0 where there is no risk. */
  lemma RatioMeans(s: Signal)
    ensures s.entry == s.stop ==> s.RrRatio() == 0.0
    ensures s.entry > s.stop ==>
              s.RrRatio() * (s.entry - s.stop) == if s.target >= s.entry then s.target - s.entry else s.entry - s.target
    ensures s.entry < s.stop ==>
              s.RrRatio() * (s.stop - s.entry) == if s.target >= s.entry then s.target - s.entry else s.entry - s.target
  {
  }

  datatype Status = Open | ClosedWin | ClosedLoss | ClosedEven

  datatype Trade = Trade(
    id: nat, inst: Instrument, side: Side, entry: real, stop: real, target: real, quantity: real,
    session: string, status: Status, exit: real, pnl: real)
}
