/** What position sizing (app/risk/manager.py) and the stop are worth together: in every run whose orders are
    filled within half a spread and whose trades leave no worse than at their stop, each trade loses at most
    the planned share of the high-water mark, whatever interleaving the executor goes through. */
module Containment {
  import opened Foundations
  import opened Trading
  import opened Risk
  import opened RiskHistory
  import opened Executors
  import opened ExecutorRuns

  /** The share of the mark one order may risk. */
  function Risked(a: Account, hwm: real): (r: real) { hwm * a.cfg.riskPct }

  /** The same for a trade filled up to half a spread away, when stops are more than a pip away. */
  function Planned(a: Account, hwm: real, spreadPips: real): (r: real)
  {
    Risked(a, hwm) * (1.0 + spreadPips / 2.0)
  }

  predicate OrderFits(o: InFlight, amount: real)
  {
    && o.signal.Accepted() && o.signal.RiskDistance() > o.signal.inst.pipSize
    && o.lots > 0.0 && o.signal.inst.quotePerPip > 0.0 && o.lots * LossPerLot(o.signal) <= amount
  }

  predicate TradeFits(t: Trade, amount: real)
  {
    && t.quantity > 0.0 && t.inst.quotePerPip > 0.0
    && (if t.side == Long then t.stop <= t.target else t.target <= t.stop)
    && -ClosePnl(t.inst, t.side, t.entry, t.stop, t.quantity) <= amount
  }

  function HalfOf(inst: Instrument, spreadPips: real): (r: real) { spreadPips * inst.pipSize / 2.0 }

  /** A fill at most half the spread worse than the signal's entry. */
  predicate WithinHalfSpread(signal: Signal, fill: real, spreadPips: real)
  {
    var half := HalfOf(signal.inst, spreadPips);
    if signal.side == Long then fill <= signal.entry + half else fill >= signal.entry - half
  }

  predicate NoWorseThanStop(t: Trade, exit: real)
  {
    if t.side == Long then exit >= t.stop else exit <= t.stop
  }

  /** Signals risk more than a pip, fills are within half a spread, and no trade leaves beyond its stop. */
  predicate KeepsPlan(s: System, st: Step, spreadPips: real)
  {
    match st
    case Handle(_, signal, _) => signal.Accepted() && signal.RiskDistance() > signal.inst.pipSize
    case Fills(id, fill, _) =>
      id in s.inflight && fill.Some? ==> WithinHalfSpread(s.inflight[id].signal, fill.value, spreadPips)
    case Close(id, exit, _) => id in s.open ==> NoWorseThanStop(s.open[id], exit)
    case _ => true
  }

  ghost predicate Disciplined(a: Account, steps: seq<Step>, spreadPips: real)
  {
    forall n :: 0 <= n < |steps| ==> KeepsPlan(After(a, steps[..n]), steps[n], spreadPips)
  }

  /** Every order and every open trade can lose at most what was planned for the mark reached so far. */
  ghost predicate Contained(a: Account, s: System, spreadPips: real)
  {
    && s.risk.balance <= s.risk.hwm
    && (forall id :: id in s.inflight ==> OrderFits(s.inflight[id], Risked(a, s.risk.hwm)))
    && forall id :: id in s.open ==> TradeFits(s.open[id], Planned(a, s.risk.hwm, spreadPips))
  }

  // ---- one order, one trade -----------------------------------------------------------------

  /** An accepted order risks at most its share of the mark. */
  lemma AcceptedFits(a: Account, s: RiskState, date: int, signal: Signal, spread: Option<real>)
    requires Decide(a.cfg, a.start, s, date, signal, spread).accepted && s.balance <= s.hwm
    requires signal.Accepted() && signal.RiskDistance() > signal.inst.pipSize && a.cfg.riskPct >= 0.0
    ensures OrderFits(InFlight(signal, Decide(a.cfg, a.start, s, date, signal, spread).lots), Risked(a, s.hwm))
  {
    hide Guard, SizePosition, LossPerLot;
    var d := Decide(a.cfg, a.start, s, date, signal, spread);
    SizeIsMaximal(a.cfg, a.start, s, date, signal, spread);
    Times(s.balance, s.hwm, a.cfg.riskPct);
    PositiveQuote(signal);
  }

  lemma PositiveQuote(signal: Signal)
    requires signal.Accepted()
    ensures LossPerLot(signal) > 0.0 ==> signal.inst.quotePerPip > 0.0
  {
    var pips, quote := signal.inst.Pips(signal.RiskDistance()), signal.inst.quotePerPip;
    QuotientAtMost(signal.RiskDistance(), 0.0, signal.inst.pipSize);
    assert quote <= 0.0 ==> pips * quote <= 0.0;
  }

  /** What a position of `lots` loses on a move of `x` against it. */
  function LossOf(inst: Instrument, x: real, lots: real): (r: real)
  {
    x / inst.pipSize * inst.quotePerPip * lots
  }

  function Adverse(t: Trade, exit: real): (r: real)
  {
    if t.side == Long then t.entry - exit else exit - t.entry
  }

  /** The booked result of either side in one shape. */
  lemma PnlIsLoss(t: Trade, exit: real)
    ensures -ClosePnl(t.inst, t.side, t.entry, exit, t.quantity) == LossOf(t.inst, Adverse(t, exit), t.quantity)
  {
    var move, loss := (exit - t.entry) * (if t.side == Long then 1.0 else -1.0), Adverse(t, exit);
    assert move == -loss;
    Negate(loss, t.inst.pipSize, t.inst.quotePerPip, t.quantity);
  }

  /** A larger move is a larger loss. */
  lemma LossMonotone(inst: Instrument, x: real, y: real, lots: real)
    requires x <= y && inst.quotePerPip > 0.0 && lots > 0.0
    ensures LossOf(inst, x, lots) <= LossOf(inst, y, lots)
  {
    var pip, quote := inst.pipSize, inst.quotePerPip;
    QuotientAtLeast(y, x / pip, pip);
    assert x == x / pip * pip;
    Times(x / pip, y / pip, quote);
    Times(x / pip * quote, y / pip * quote, lots);
  }

  lemma ExitFits(t: Trade, exit: real, amount: real)
    requires TradeFits(t, amount) && NoWorseThanStop(t, exit)
    ensures -ClosePnl(t.inst, t.side, t.entry, exit, t.quantity) <= amount
  {
    hide ClosePnl, LossOf;
    PnlIsLoss(t, exit);
    PnlIsLoss(t, t.stop);
    LossMonotone(t.inst, Adverse(t, exit), Adverse(t, t.stop), t.quantity);
  }

  /** A filled order loses at its stop what the order risked, enlarged by half the spread. */
  lemma FilledFits(a: Account, hwm: real, o: InFlight, id: nat, fill: Option<real>, spreadPips: real)
    requires OrderFits(o, Risked(a, hwm)) && spreadPips >= 0.0
    requires fill.Some? ==> WithinHalfSpread(o.signal, fill.value, spreadPips)
    ensures TradeFits(OpenedTrade(id, o, fill), Planned(a, hwm, spreadPips))
  {
    hide ClosePnl, LossPerLot, LossOf, Adverse, Planned, Risked, WithinHalfSpread;
    var t := OpenedTrade(id, o, fill);
    var half := HalfOf(o.signal.inst, spreadPips);
    LossAtStop(a, hwm, o, spreadPips);
    PnlIsLoss(t, t.stop);
    FillIsNear(o, id, fill, spreadPips);
    LossMonotone(o.signal.inst, Adverse(t, t.stop), o.signal.RiskDistance() + half, o.lots);
  }

  lemma FillIsNear(o: InFlight, id: nat, fill: Option<real>, spreadPips: real)
    requires o.signal.Accepted() && spreadPips >= 0.0
    requires fill.Some? ==> WithinHalfSpread(o.signal, fill.value, spreadPips)
    ensures var t := OpenedTrade(id, o, fill);
            Adverse(t, t.stop) <= o.signal.RiskDistance() + HalfOf(o.signal.inst, spreadPips)
  {
    assert spreadPips * o.signal.inst.pipSize >= 0.0;
  }

  lemma LossAtStop(a: Account, hwm: real, o: InFlight, spreadPips: real)
    requires OrderFits(o, Risked(a, hwm)) && spreadPips >= 0.0
    ensures LossOf(o.signal.inst, o.signal.RiskDistance() + HalfOf(o.signal.inst, spreadPips), o.lots)
            <= Planned(a, hwm, spreadPips)
  {
    hide Risked;
    var s, half := o.signal, HalfOf(o.signal.inst, spreadPips);
    var risk := s.RiskDistance();
    HalfSpread(s.inst, spreadPips, risk);
    OrderRisk(s, o.lots);
    SplitLoss(risk, half, s.inst.pipSize, s.inst.quotePerPip, o.lots);
    WithSpread(o.lots * LossPerLot(s), Risked(a, hwm), half / risk, spreadPips / 2.0);
  }

  lemma OrderRisk(s: Signal, lots: real)
    ensures LossPerLot(s) == s.RiskDistance() / s.inst.pipSize * s.inst.quotePerPip
    ensures s.Accepted() && lots > 0.0 && s.inst.quotePerPip > 0.0 ==> lots * LossPerLot(s) > 0.0
  {
    if s.Accepted() && lots > 0.0 && s.inst.quotePerPip > 0.0 {
      QuotientAtMost(s.RiskDistance(), 0.0, s.inst.pipSize);
      assert s.RiskDistance() / s.inst.pipSize * s.inst.quotePerPip > 0.0;
    }
  }

  lemma HalfSpread(inst: Instrument, spreadPips: real, risk: real)
    requires spreadPips >= 0.0 && risk > inst.pipSize
    ensures 0.0 <= HalfOf(inst, spreadPips) / risk <= spreadPips / 2.0
  {
    var pip, half := inst.pipSize, HalfOf(inst, spreadPips);
    assert spreadPips * pip >= 0.0;
    QuotientAtLeast(half, 0.0, risk);
    QuotientAtMost(half, spreadPips / 2.0, risk);
    assert spreadPips * (risk - pip) >= 0.0;
    assert spreadPips / 2.0 * risk == half + spreadPips * (risk - pip) / 2.0;
  }

  lemma WithSpread(loss: real, amount: real, x: real, y: real)
    requires 0.0 < loss <= amount && 0.0 <= x <= y
    ensures loss * (1.0 + x) <= amount * (1.0 + y)
  {
    Times(loss, amount, 1.0 + x);
    Times(1.0 + x, 1.0 + y, amount);
  }

  // ---- every run ----------------------------------------------------------------------------

  lemma AmountsGrow(a: Account, before: real, after: real, spreadPips: real)
    requires before <= after && a.cfg.riskPct >= 0.0 && spreadPips >= 0.0
    ensures Risked(a, before) <= Risked(a, after) && Planned(a, before, spreadPips) <= Planned(a, after, spreadPips)
  {
    Times(before, after, a.cfg.riskPct);
    Times(Risked(a, before), Risked(a, after), 1.0 + spreadPips / 2.0);
  }

  lemma ContainedStep(a: Account, s: System, st: Step, spreadPips: real)
    requires Contained(a, s, spreadPips) && KeepsPlan(s, st, spreadPips)
    requires a.cfg.riskPct >= 0.0 && spreadPips >= 0.0
    ensures Contained(a, Next(a, s, st), spreadPips)
  {
    hide Next, Decide, OrderFits, TradeFits, WithinHalfSpread, NoWorseThanStop, Risked, OpenedTrade, ClosedTrade,
        Planned;
    var s' := Next(a, s, st);
    RiskFigures(a, s, st);
    BooksOfStep(a, s, st);
    AmountsGrow(a, s.risk.hwm, s'.risk.hwm, spreadPips);
    LargerFits(s, Risked(a, s.risk.hwm), Risked(a, s'.risk.hwm));
    LargerTradesFit(s, Planned(a, s.risk.hwm, spreadPips), Planned(a, s'.risk.hwm, spreadPips));
    if st.Handle? && Decide(a.cfg, a.start, s.risk, st.date, st.signal, st.spread).accepted {
      AcceptedFits(a, s.risk, st.date, st.signal, st.spread);
    }
    if st.Fills? && st.id in s.inflight {
      FilledFits(a, s.risk.hwm, s.inflight[st.id], st.id, st.fill, spreadPips);
    }
  }

  lemma LargerFits(s: System, amount: real, larger: real)
    requires amount <= larger && forall id :: id in s.inflight ==> OrderFits(s.inflight[id], amount)
    ensures forall id :: id in s.inflight ==> OrderFits(s.inflight[id], larger)
  {
    hide LossPerLot;
  }

  lemma LargerTradesFit(s: System, amount: real, larger: real)
    requires amount <= larger && forall id :: id in s.open ==> TradeFits(s.open[id], amount)
    ensures forall id :: id in s.open ==> TradeFits(s.open[id], larger)
  {
    hide ClosePnl;
  }

  lemma DisciplinedPrefix(a: Account, steps: seq<Step>, spreadPips: real)
    requires steps != [] && Disciplined(a, steps, spreadPips)
    ensures var k := |steps| - 1;
            Disciplined(a, steps[..k], spreadPips) && KeepsPlan(After(a, steps[..k]), steps[k], spreadPips)
  {
    hide After, KeepsPlan;
    assert forall n :: 0 <= n <= |steps| - 1 ==> steps[..|steps| - 1][..n] == steps[..n];
  }

  lemma DisciplinedMore(a: Account, steps: seq<Step>, st: Step, spreadPips: real)
    requires Disciplined(a, steps, spreadPips) && KeepsPlan(After(a, steps), st, spreadPips)
    ensures Disciplined(a, steps + [st], spreadPips)
  {
    hide After, KeepsPlan;
    assert forall n :: 0 <= n <= |steps| ==> (steps + [st])[..n] == steps[..n];
    assert steps[..|steps|] == steps;
  }

  /** In every state of every disciplined run, all exposures are contained. */
  lemma {:induction false} RunIsContained(a: Account, steps: seq<Step>, spreadPips: real)
    requires a.initial.balance <= a.initial.hwm && a.cfg.riskPct >= 0.0 && spreadPips >= 0.0
    requires Disciplined(a, steps, spreadPips)
    ensures Contained(a, After(a, steps), spreadPips)
  {
    hide Next, Disciplined, KeepsPlan, OrderFits, TradeFits;
    if steps != [] {
      var before := steps[..|steps| - 1];
      DisciplinedPrefix(a, steps, spreadPips);
      RunIsContained(a, before, spreadPips);
      ContainedStep(a, After(a, before), steps[|steps| - 1], spreadPips);
    }
  }

  /** So no step books more than the planned loss. */
  lemma StepIsPlanned(a: Account, s: System, st: Step, spreadPips: real)
    requires Contained(a, s, spreadPips) && KeepsPlan(s, st, spreadPips)
    requires a.cfg.riskPct >= 0.0 && spreadPips >= 0.0 && s.risk.hwm > 0.0
    ensures Booked(s, st) >= -Planned(a, s.risk.hwm, spreadPips)
  {
    hide TradeFits, NoWorseThanStop, ClosePnl, Risked;
    PlannedIsNonNegative(a, s.risk.hwm, spreadPips);
    hide Planned;
    if st.Close? && st.id in s.open {
      ExitFits(s.open[st.id], st.exit, Planned(a, s.risk.hwm, spreadPips));
    }
  }

  lemma PlannedIsNonNegative(a: Account, hwm: real, spreadPips: real)
    requires a.cfg.riskPct >= 0.0 && spreadPips >= 0.0 && hwm > 0.0
    ensures Planned(a, hwm, spreadPips) >= 0.0
  {
    assert Risked(a, hwm) >= 0.0;
  }

  lemma PlannedInFull(a: Account, hwm: real, spreadPips: real)
    ensures Planned(a, hwm, spreadPips) == hwm * a.cfg.riskPct * (1.0 + spreadPips / 2.0)
  {
  }

  lemma {:induction false} MarkGrows(a: Account, steps: seq<Step>, n: nat)
    requires n <= |steps|
    ensures a.initial.hwm <= After(a, steps[..n]).risk.hwm <= After(a, steps).risk.hwm
  {
    hide Next, Booked;
    var k := |steps| - 1;
    if n == |steps| {
      assert steps[..n] == steps;
      if steps != [] {
        MarkGrows(a, steps[..k], k);
        assert steps[..k][..k] == steps[..k];
        RiskFigures(a, After(a, steps[..k]), steps[k]);
      }
    } else {
      assert steps[..k][..n] == steps[..n];
      MarkGrows(a, steps[..k], n);
      RiskFigures(a, After(a, steps[..k]), steps[k]);
    }
  }

  /** Every state of the run has at most `most` exposures. */
  ghost predicate ExposedAtMost(a: Account, steps: seq<Step>, most: nat)
  {
    forall n :: 0 <= n <= |steps| ==> Exposure(After(a, steps[..n])) <= most
  }

  lemma PlannedLosses(a: Account, steps: seq<Step>, most: nat, spreadPips: real)
    requires a.initial.balance <= a.initial.hwm && a.cfg.riskPct >= 0.0 && spreadPips >= 0.0 && a.initial.hwm > 0.0
    requires Disciplined(a, steps, spreadPips) && ExposedAtMost(a, steps, most)
    ensures Bounded(a, steps, most, Planned(a, After(a, steps).risk.hwm, spreadPips))
  {
    hide After, Booked, Exposure, Contained, Planned, KeepsPlan;
    var worst := Planned(a, After(a, steps).risk.hwm, spreadPips);
    forall n | 0 <= n < |steps| ensures Booked(After(a, steps[..n]), steps[n]) >= -worst {
      var s := After(a, steps[..n]);
      DisciplinedUpTo(a, steps, n, spreadPips);
      RunIsContained(a, steps[..n], spreadPips);
      MarkGrows(a, steps, n);
      StepIsPlanned(a, s, steps[n], spreadPips);
      AmountsGrow(a, s.risk.hwm, After(a, steps).risk.hwm, spreadPips);
    }
  }

  lemma DisciplinedUpTo(a: Account, steps: seq<Step>, n: nat, spreadPips: real)
    requires n <= |steps| && Disciplined(a, steps, spreadPips)
    ensures Disciplined(a, steps[..n], spreadPips)
  {
    hide After, KeepsPlan;
    assert forall m :: 0 <= m <= n ==> steps[..n][..m] == steps[..m];
  }

  /** Capital preservation with nothing left open but the number of exposures: each can cost at most the planned
      share of the high-water mark. */
  lemma DisciplinePreservesCapital(a: Account, steps: seq<Step>, most: nat, spreadPips: real)
    requires Fresh(a.initial) && a.initial.hwm > 0.0 && StartsWithin(a) && a.initial.balance <= a.initial.hwm
    requires a.cfg.DailyLossLimit() >= 0.0 && a.cfg.maxTotalDdPct >= 0.0
    requires a.cfg.riskPct >= 0.0 && spreadPips >= 0.0
    requires Disciplined(a, steps, spreadPips) && ExposedAtMost(a, steps, most)
    ensures var r := After(a, steps).risk;
            var lost := most as real * Planned(a, r.hwm, spreadPips);
            && Planned(a, r.hwm, spreadPips) == r.hwm * a.cfg.riskPct * (1.0 + spreadPips / 2.0)
            && r.realizedToday >= -(a.cfg.DailyLossLimit() + lost)
            && r.hwm - r.balance <= a.cfg.maxTotalDdPct * r.hwm + lost
  {
    hide After, Bounded, Disciplined, ExposedAtMost, Planned;
    MarkGrows(a, steps, 0);
    PlannedLosses(a, steps, most, spreadPips);
    PlannedIsNonNegative(a, After(a, steps).risk.hwm, spreadPips);
    PlannedInFull(a, After(a, steps).risk.hwm, spreadPips);
    CapitalIsPreserved(a, steps, most, Planned(a, After(a, steps).risk.hwm, spreadPips));
  }
}
