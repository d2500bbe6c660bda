/** The prop-firm risk manager (app/risk/manager.py): guards, day rollover and position sizing.

    `RiskState` and the functions on it say what one call does; the class at the end is the source's
    object, each method proved against its function; RiskHistory.dfy says what a whole run means. */
module Risk {
  import opened Foundations
  import opened Trading

  datatype Settings = Settings(
    accountBalance: real, riskPct: real, maxDailyLossPct: real, maxTotalDdPct: real,
    maxTradesPerDay: int, maxConsecutiveLosses: int, consistencyPct: real,
    maxSpreadFx: real, maxSpreadMetals: real, minTradingDays: int)
  {
    function DailyLossLimit(): (r: real) { accountBalance * maxDailyLossPct }
  }

  datatype Reason =
    | Ok | DailyTradeLimit | DailyLossLimitHit | ConsecutiveLosses | TotalDrawdown
    | SpreadTooWide | InvalidSignal | SizeTooSmall | Disabled | ConsistencyRule
    /** The drawdown ratio divides by a zero high-water mark. */
    | Crashed

  datatype Decision = Decision(accepted: bool, lots: real, riskAmount: real, reason: Reason)

  datatype RiskState = RiskState(
    balance: real, hwm: real, today: int, tradesToday: nat, realizedToday: real,
    consecutiveLosses: nat, disabled: bool, startDate: Option<int>, tradingDays: nat, highestDayPnl: real)

  function Initial(start: real, balance: real, hwm: real, today: int): (r: RiskState)
  {
    RiskState(if balance <= 0.0 then start else balance, if hwm <= 0.0 then start else hwm,
              today, 0, 0.0, 0, false, None, 0, 0.0)
  }

  function Rollover(s: RiskState, date: int): (r: RiskState)
  {
    if date == s.today then s
    else s.(tradingDays := if s.tradesToday > 0 then s.tradingDays + 1 else s.tradingDays,
            highestDayPnl := Max(s.realizedToday, s.highestDayPnl),
            today := date, tradesToday := 0, realizedToday := 0.0, consecutiveLosses := 0, disabled := false)
  }

  predicate SpreadAcceptable(cfg: Settings, inst: Instrument, spread: real)
  {
    spread <= if inst.isMetal then cfg.maxSpreadMetals else cfg.maxSpreadFx
  }

  function LossPerLot(signal: Signal): (r: real)
  {
    signal.inst.Pips(signal.RiskDistance()) * signal.inst.quotePerPip
  }

  function RiskAmount(cfg: Settings, balance: real): (r: real) { balance * cfg.riskPct }

  function SizePosition(cfg: Settings, balance: real, signal: Signal): (r: real)
  {
    var riskAmount := RiskAmount(cfg, balance);
    var lossPerLot := LossPerLot(signal);
    if signal.inst.Pips(signal.RiskDistance()) <= 0.0 then 0.0
    else if lossPerLot <= 0.0 then 0.0
    else
      if signal.side == Long && riskAmount / lossPerLot <= 0.0 then 0.0 else FloorLots(riskAmount, lossPerLot)
  }

  /** Rounded down to two decimals. */
  function FloorLots(budget: real, loss: real): (r: real)
    requires loss != 0.0
  {
    (budget / loss * 100.0).Floor as real / 100.0
  }

  /** Why the guards refuse, in the order they are asked; `Ok` if none does. */
  function Guard(cfg: Settings, start: real, s: RiskState, signal: Signal, spread: Option<real>): (r: Reason)
  {
    var profit := s.balance - start;
    if s.disabled then Disabled
    else if s.tradesToday >= cfg.maxTradesPerDay then DailyTradeLimit
    else if s.consecutiveLosses >= cfg.maxConsecutiveLosses then ConsecutiveLosses
    else if s.realizedToday <= -cfg.DailyLossLimit() then DailyLossLimitHit
    else if s.hwm == 0.0 then Crashed
    else if (s.hwm - s.balance) / s.hwm >= cfg.maxTotalDdPct then TotalDrawdown
    else if profit > 0.0 && s.realizedToday > cfg.consistencyPct * profit then ConsistencyRule
    else if spread.Some? && !SpreadAcceptable(cfg, signal.inst, spread.value) then SpreadTooWide
    else if signal.RiskDistance() <= 0.0 then InvalidSignal
    else if SizePosition(cfg, s.balance, signal) <= 0.0 then SizeTooSmall
    else Ok
  }

  /** The guards that stop trading for the rest of the day. */
  predicate Halts(reason: Reason)
  {
    reason == ConsecutiveLosses || reason == DailyLossLimitHit || reason == TotalDrawdown || reason == ConsistencyRule
  }

  function Decide(cfg: Settings, start: real, s: RiskState, date: int, signal: Signal,
                  spread: Option<real>): (r: Decision)
  {
    var s' := Rollover(s, date);
    var reason := Guard(cfg, start, s', signal, spread);
    if reason == Ok then Decision(true, SizePosition(cfg, s'.balance, signal), RiskAmount(cfg, s'.balance), Ok)
    else Decision(false, 0.0, 0.0, reason)
  }

  function AfterEvaluate(cfg: Settings, start: real, s: RiskState, date: int, signal: Signal,
                         spread: Option<real>): (r: RiskState)
  {
    var s' := Rollover(s, date);
    s'.(disabled := s'.disabled || Halts(Guard(cfg, start, s', signal, spread)))
  }

  function AfterOpen(s: RiskState, date: int): (r: RiskState)
  {
    var s' := Rollover(s, date);
    s'.(startDate := if s'.startDate.None? then Some(date) else s'.startDate, tradesToday := s'.tradesToday + 1)
  }

  predicate IsLoss(pnl: real, status: Status) { status == ClosedLoss || pnl < 0.0 }

  predicate IsWin(pnl: real, status: Status) { !IsLoss(pnl, status) && (status == ClosedWin || pnl > 0.0) }

  function AfterClose(s: RiskState, date: int, pnl: real, status: Status): (r: RiskState)
  {
    var s' := Rollover(s, date);
    s'.(balance := s'.balance + pnl,
        realizedToday := s'.realizedToday + pnl,
        highestDayPnl := Max(s'.realizedToday + pnl, s'.highestDayPnl),
        hwm := Max(s'.hwm, s'.balance + pnl),
        consecutiveLosses := if IsLoss(pnl, status) then s'.consecutiveLosses + 1
                             else if IsWin(pnl, status) then 0 else s'.consecutiveLosses)
  }

  // ---- sizing -------------------------------------------------------------------------

  predicate InHundredths(lots: real) { lots * 100.0 == (lots * 100.0).Floor as real }

  /** `lots` costs at most `budget` at the stop, and one hundredth more would cost too much. */
  predicate LargestWithin(lots: real, loss: real, budget: real)
  {
    lots * loss <= budget < (lots + 0.01) * loss
  }

  /** What one lot loses between entry and stop. */
  function StopLossOf(signal: Signal): (r: real)
  {
    (if signal.entry >= signal.stop then signal.entry - signal.stop else signal.stop - signal.entry)
    / signal.inst.pipSize * signal.inst.quotePerPip
  }

  /** An accepted decision risks the configured share of the balance; its size is a whole number of hundredths of a
      lot, and the largest whose loss at the stop stays within that amount. A rejected one carries neither. */
  lemma SizeIsMaximal(cfg: Settings, start: real, s: RiskState, date: int, signal: Signal, spread: Option<real>)
    ensures var d := Decide(cfg, start, s, date, signal, spread);
            var loss, budget := StopLossOf(signal), s.balance * cfg.riskPct;
            if d.accepted then
              && loss == LossPerLot(signal) > 0.0 && d.lots > 0.0 && d.riskAmount == budget > 0.0
              && d.lots * 100.0 == (d.lots * 100.0).Floor as real
              && LargestWithin(d.lots, loss, budget)
              && d.lots * loss <= budget < (d.lots + 0.01) * loss
            else d.lots == 0.0 == d.riskAmount && d.reason != Ok
  {
    if Decide(cfg, start, s, date, signal, spread).accepted {
      hide Rollover, LossPerLot, LargestWithin, InHundredths, FloorLots, Guard;
      assert SizePosition(cfg, Rollover(s, date).balance, signal) > 0.0 by {
        GuardsSize(cfg, start, Rollover(s, date), signal, spread);
      }
      FlooredSize(RiskAmount(cfg, Rollover(s, date).balance), LossPerLot(signal));
      assert LossPerLot(signal) == StopLossOf(signal) by {
        LossIsStopLoss(signal);
      }
      assert Rollover(s, date).balance == s.balance by {
        RolloverKeepsBalance(s, date);
      }
      WithinMeans(Decide(cfg, start, s, date, signal, spread).lots, LossPerLot(signal), s.balance * cfg.riskPct);
    }
  }

  lemma GuardsSize(cfg: Settings, start: real, s: RiskState, signal: Signal, spread: Option<real>)
    ensures Guard(cfg, start, s, signal, spread) == Ok ==> SizePosition(cfg, s.balance, signal) > 0.0
  {
    hide SizePosition, SpreadAcceptable;
  }

  lemma LossIsStopLoss(signal: Signal)
    ensures LossPerLot(signal) == StopLossOf(signal)
  {
  }

  lemma RolloverKeepsBalance(s: RiskState, date: int)
    ensures Rollover(s, date).balance == s.balance && Rollover(s, date).hwm == s.hwm
  {
  }

  lemma WithinMeans(lots: real, loss: real, budget: real)
    ensures InHundredths(lots) <==> lots * 100.0 == (lots * 100.0).Floor as real
    ensures LargestWithin(lots, loss, budget) <==> lots * loss <= budget < (lots + 0.01) * loss
  {
  }

  lemma FlooredSize(budget: real, loss: real)
    requires loss > 0.0
    ensures var lots := FloorLots(budget, loss);
            && InHundredths(lots)
            && LargestWithin(lots, loss, budget)
            && (lots > 0.0 ==> budget > 0.0)
  {
    var raw := budget / loss;
    var n := (raw * 100.0).Floor as real;
    var lots := n / 100.0;
    assert lots * 100.0 == n;
    assert lots <= raw < lots + 0.01;
    QuotientAtLeast(budget, lots, loss);
    QuotientAtLeast(budget, lots + 0.01, loss);
    assert lots > 0.0 ==> lots * loss > 0.0;
  }

  /** A size is tradable exactly when the budget pays for one hundredth of a lot. */
  lemma SizePositiveExactlyWhen(cfg: Settings, balance: real, signal: Signal)
    ensures SizePosition(cfg, balance, signal) > 0.0 <==>
            signal.entry != signal.stop && signal.inst.quotePerPip > 0.0
            && balance * cfg.riskPct >= 0.01 * StopLossOf(signal)
  {
    LossIsStopLoss(signal);
    LossPositive(signal);
    hide LossPerLot, StopLossOf;
    var budget, loss := RiskAmount(cfg, balance), LossPerLot(signal);
    if loss > 0.0 {
      QuotientAtLeast(budget, 0.01, loss);
      QuotientAtMost(budget, 0.0, loss);
      FloorPositive(budget / loss);
    }
  }

  lemma LossPositive(signal: Signal)
    ensures signal.inst.Pips(signal.RiskDistance()) > 0.0 <==> signal.entry != signal.stop
    ensures LossPerLot(signal) > 0.0 <==> signal.entry != signal.stop && signal.inst.quotePerPip > 0.0
  {
    var pips, quote := signal.inst.Pips(signal.RiskDistance()), signal.inst.quotePerPip;
    QuotientAtMost(signal.RiskDistance(), 0.0, signal.inst.pipSize);
    assert pips > 0.0 && quote > 0.0 ==> pips * quote > 0.0;
    assert pips >= 0.0 && quote <= 0.0 ==> pips * quote <= 0.0;
  }

  /** The guards as a table: what each refuses, in the order they are asked. */
  function Checks(cfg: Settings, start: real, s: RiskState, signal: Signal,
                  spread: Option<real>): (r: seq<(Reason, bool)>)
  {
    [ (Disabled, s.disabled),
      (DailyTradeLimit, s.tradesToday >= cfg.maxTradesPerDay),
      (ConsecutiveLosses, s.consecutiveLosses >= cfg.maxConsecutiveLosses),
      (DailyLossLimitHit, s.realizedToday <= -(cfg.accountBalance * cfg.maxDailyLossPct)),
      (Crashed, s.hwm == 0.0),
      (TotalDrawdown, s.hwm != 0.0 && (s.hwm - s.balance) / s.hwm >= cfg.maxTotalDdPct),
      (ConsistencyRule, s.balance > start && s.realizedToday > cfg.consistencyPct * (s.balance - start)),
      (SpreadTooWide,
        spread.Some? && spread.value > if signal.inst.isMetal then cfg.maxSpreadMetals else cfg.maxSpreadFx),
      (InvalidSignal, signal.entry == signal.stop),
      (SizeTooSmall,
        signal.inst.quotePerPip <= 0.0 || s.balance * cfg.riskPct < 0.01 * StopLossOf(signal)) ]
  }

  /** A signal is refused for the first check it fails, after the day's rollover, and accepted if it fails none. */
  lemma RefusedForTheFirst(cfg: Settings, start: real, s: RiskState, date: int, signal: Signal, spread: Option<real>)
    returns (k: nat)
    ensures var d := Decide(cfg, start, s, date, signal, spread);
            var checks := Checks(cfg, start, Rollover(s, date), signal, spread);
            && k <= |checks| && (forall j :: 0 <= j < k ==> !checks[j].1)
            && (d.accepted <==> k == |checks|)
            && (k < |checks| ==> checks[k].1 && d.reason == checks[k].0)
  {
    hide SizePosition, StopLossOf, Rollover;
    var rolled := Rollover(s, date);
    SizePositiveExactlyWhen(cfg, rolled.balance, signal);
    var checks := Checks(cfg, start, rolled, signal, spread);
    k := if checks[0].1 then 0 else if checks[1].1 then 1 else if checks[2].1 then 2 else if checks[3].1 then 3
         else if checks[4].1 then 4 else if checks[5].1 then 5 else if checks[6].1 then 6 else if checks[7].1 then 7
         else if checks[8].1 then 8 else if checks[9].1 then 9 else 10;
  }

  lemma FloorPositive(raw: real)
    ensures (raw * 100.0).Floor as real / 100.0 > 0.0 <==> raw >= 0.01
  {
  }

  lemma Times(a: real, b: real, d: real)
    requires a <= b && d >= 0.0
    ensures a * d <= b * d
  {
    assert (b - a) * d >= 0.0;
  }

  /** What the account gains or loses when a position of `lots` moves from `entry` to `exit`. */
  function ClosePnl(inst: Instrument, side: Side, entry: real, exit: real, lots: real): (r: real)
  {
    inst.Pips((exit - entry) * (if side == Long then 1.0 else -1.0)) * inst.quotePerPip * lots
  }

  /** A trade filled half a spread beyond the signal price and closed at its stop loses at most the risked
      amount, enlarged by the half spread as a share of the risk distance. Both directions. */
  lemma StopLossIsBounded(cfg: Settings, start: real, s: RiskState, date: int, signal: Signal, spread: Option<real>,
                          half: real)
    requires signal.Accepted() && half >= 0.0
    requires Decide(cfg, start, s, date, signal, spread).accepted
    ensures var d := Decide(cfg, start, s, date, signal, spread);
            var fill := if signal.side == Long then signal.entry + half else signal.entry - half;
            -ClosePnl(signal.inst, signal.side, fill, signal.stop, d.lots)
            <= d.riskAmount * (1.0 + half / signal.RiskDistance())
  {
    hide Decide;
    SizeIsMaximal(cfg, start, s, date, signal, spread);
    var d := Decide(cfg, start, s, date, signal, spread);
    var fill := if signal.side == Long then signal.entry + half else signal.entry - half;
    var risk, pip, quote := signal.RiskDistance(), signal.inst.pipSize, signal.inst.quotePerPip;
    assert -ClosePnl(signal.inst, signal.side, fill, signal.stop, d.lots) == (risk + half) / pip * quote * d.lots by {
      var move := (signal.stop - fill) * (if signal.side == Long then 1.0 else -1.0);
      assert move == -(risk + half);
      Negate(risk + half, pip, quote, d.lots);
    }
    SplitLoss(risk, half, pip, quote, d.lots);
    var factor := 1.0 + half / risk;
    assert half / risk >= 0.0;
    Times(d.lots * (risk / pip * quote), d.riskAmount, factor);
  }

  lemma Negate(x: real, pip: real, quote: real, lots: real)
    requires pip > 0.0
    ensures -((-x) / pip * quote * lots) == x / pip * quote * lots
  {
    assert (-x) / pip == -(x / pip);
    assert -(x / pip) * quote == -(x / pip * quote);
    assert -(x / pip * quote) * lots == -(x / pip * quote * lots);
  }

  lemma SplitLoss(risk: real, half: real, pip: real, quote: real, lots: real)
    requires risk > 0.0 && pip > 0.0
    ensures (risk + half) / pip * quote * lots == (lots * (risk / pip * quote)) * (1.0 + half / risk)
  {
    var a, share := risk / pip, half / risk;
    assert half == share * risk;
    assert risk + half == risk * (1.0 + share);
    assert (risk + half) / pip == a * (1.0 + share) by {
      assert risk == a * pip;
      assert (risk + half) == (a * (1.0 + share)) * pip by {
        assert a * pip * (1.0 + share) == a * (1.0 + share) * pip;
      }
    }
    var base := a * quote;
    assert a * (1.0 + share) * quote == base * (1.0 + share);
    assert base * (1.0 + share) * lots == (lots * base) * (1.0 + share);
  }

  // ---- the object -----------------------------------------------------------------------

  class RiskManager {
    const settings: Settings
    const start: real
    var currentBalance: real
    var highWaterMark: real
    var today: int
    var tradesToday: nat
    var realizedToday: real
    var consecutiveLosses: nat
    var disabled: bool
    var tradingStartDate: Option<int>
    var tradingDaysCounted: nat
    var highestDayPnl: real
    var simulatedNow: Option<int>

    ghost function View(): (r: RiskState)
      reads this
    {
      RiskState(currentBalance, highWaterMark, today, tradesToday, realizedToday, consecutiveLosses,
                disabled, tradingStartDate, tradingDaysCounted, highestDayPnl)
    }

    constructor (settings: Settings, start: real, balance: real, hwm: real, utcToday: int)
      ensures this.settings == settings && this.start == start && simulatedNow == None
      ensures View() == Initial(start, balance, hwm, utcToday)
    {
      this.settings, this.start, simulatedNow := settings, start, None;
      currentBalance := if balance <= 0.0 then start else balance;
      highWaterMark := if hwm <= 0.0 then start else hwm;
      today, tradesToday, realizedToday, consecutiveLosses, disabled := utcToday, 0, 0.0, 0, false;
      tradingStartDate, tradingDaysCounted, highestDayPnl := None, 0, 0.0;
    }

    method SetSimulatedTime(date: int)
      modifies this`simulatedNow
      ensures simulatedNow == Some(date)
    {
      simulatedNow := Some(date);
    }

    function NowDate(utcToday: int): (r: int)
      reads this
    {
      if simulatedNow.Some? then simulatedNow.value else utcToday
    }

    method MaybeRollover(utcToday: int)
      modifies this
      ensures simulatedNow == old(simulatedNow)
      ensures View() == Rollover(old(View()), old(NowDate(utcToday)))
    {
      var date := NowDate(utcToday);
      if date != today {
        if tradesToday > 0 {
          tradingDaysCounted := tradingDaysCounted + 1;
        }
        if realizedToday > highestDayPnl {
          highestDayPnl := realizedToday;
        }
        today := date;
        tradesToday := 0;
        realizedToday := 0.0;
        consecutiveLosses := 0;
        disabled := false;
      }
    }

    method Evaluate(signal: Signal, spread: Option<real>, utcToday: int) returns (d: Decision)
      modifies this
      ensures simulatedNow == old(simulatedNow)
      ensures d == Decide(settings, start, old(View()), old(NowDate(utcToday)), signal, spread)
      ensures View() == AfterEvaluate(settings, start, old(View()), old(NowDate(utcToday)), signal, spread)
    {
      hide Rollover, SizePosition;
      MaybeRollover(utcToday);
      if disabled {
        return Decision(false, 0.0, 0.0, Disabled);
      }
      if tradesToday >= settings.maxTradesPerDay {
        return Decision(false, 0.0, 0.0, DailyTradeLimit);
      }
      if consecutiveLosses >= settings.maxConsecutiveLosses {
        disabled := true;
        return Decision(false, 0.0, 0.0, ConsecutiveLosses);
      }
      if realizedToday <= -settings.DailyLossLimit() {
        disabled := true;
        return Decision(false, 0.0, 0.0, DailyLossLimitHit);
      }
      if highWaterMark == 0.0 {
        return Decision(false, 0.0, 0.0, Crashed);
      }
      var ddPct := (highWaterMark - currentBalance) / highWaterMark;
      if ddPct >= settings.maxTotalDdPct {
        disabled := true;
        return Decision(false, 0.0, 0.0, TotalDrawdown);
      }
      var totalProfit := currentBalance - start;
      if totalProfit > 0.0 && realizedToday > settings.consistencyPct * totalProfit {
        disabled := true;
        return Decision(false, 0.0, 0.0, ConsistencyRule);
      }
      if spread.Some? && !SpreadAcceptable(settings, signal.inst, spread.value) {
        return Decision(false, 0.0, 0.0, SpreadTooWide);
      }
      if signal.RiskDistance() <= 0.0 {
        return Decision(false, 0.0, 0.0, InvalidSignal);
      }
      var lots := SizePosition(settings, currentBalance, signal);
      if lots <= 0.0 {
        return Decision(false, 0.0, 0.0, SizeTooSmall);
      }
      return Decision(true, lots, RiskAmount(settings, currentBalance), Ok);
    }

    method RegisterTradeOpen(utcToday: int)
      modifies this
      ensures simulatedNow == old(simulatedNow)
      ensures View() == AfterOpen(old(View()), old(NowDate(utcToday)))
    {
      hide Rollover;
      MaybeRollover(utcToday);
      if tradingStartDate.None? {
        tradingStartDate := Some(NowDate(utcToday));
      }
      tradesToday := tradesToday + 1;
    }

    method RegisterTradeClose(pnl: real, status: Status, utcToday: int)
      modifies this
      ensures simulatedNow == old(simulatedNow)
      ensures View() == AfterClose(old(View()), old(NowDate(utcToday)), pnl, status)
    {
      hide Rollover;
      MaybeRollover(utcToday);
      currentBalance := currentBalance + pnl;
      realizedToday := realizedToday + pnl;
      if realizedToday > highestDayPnl {
        highestDayPnl := realizedToday;
      }
      highWaterMark := Max(highWaterMark, currentBalance);
      if status == ClosedLoss || pnl < 0.0 {
        consecutiveLosses := consecutiveLosses + 1;
      } else if status == ClosedWin || pnl > 0.0 {
        consecutiveLosses := 0;
      }
    }

    /** The dashboard's view; reading it rolls the day over. */
    method Snapshot(utcToday: int) returns (s: RiskState)
      modifies this
      ensures simulatedNow == old(simulatedNow)
      ensures s == View() == Rollover(old(View()), old(NowDate(utcToday)))
    {
      hide Rollover;
      MaybeRollover(utcToday);
      s := RiskState(currentBalance, highWaterMark, today, tradesToday, realizedToday, consecutiveLosses,
                     disabled, tradingStartDate, tradingDaysCounted, highestDayPnl);
    }

    method ForceDisable()
      modifies this`disabled
      ensures View() == old(View()).(disabled := true)
    {
      disabled := true;
    }
  }
}
