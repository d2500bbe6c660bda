/** What a whole replay can lose: its fills are half a spread from the close and its bars close a trade exactly
    at its stop or target, so the planned loss bounds every trade a bar closes. */
module ReplayRisk {
  import opened Foundations
  import opened Candles
  import opened Trading
  import opened Risk
  import opened RiskHistory
  import opened Executors
  import opened ExecutorRuns
  import opened Containment
  import opened Replay
  import Strategies

  /** The row's signal, if any, is of its own instrument, enters at the close and risks more than a pip. */
  predicate RowFits(row: Row)
  {
    row.signal.Some? ==>
      var s := row.signal.value;
      && s.inst == row.inst && row.inst.symbol == row.candle.symbol && s.entry == row.candle.close
      && s.Accepted() && s.RiskDistance() > s.inst.pipSize
  }

  ghost predicate RowsFit(rows: seq<Row>)
  {
    forall i :: 0 <= i < |rows| ==> RowFits(rows[i])
  }

  /** The scalping strategy's signals always are. */
  lemma StrategySignalsFit(u: Strategies.Setup, m: Strategies.Memory, c: Candle, date: int)
    requires c.WellFormed() && u.params.minRr > 0.0 && Strategies.Verdict(u, m, c).Fired?
    ensures RowFits(Row(c, date, u.params.inst, Some(Strategies.Verdict(u, m, c).signal)))
  {
    hide Strategies.Verdict, Strategies.LongReady, Strategies.ShortReady, Strategies.LongPasses,
         Strategies.LongLevelsExist, Strategies.ShortLevelsExist, Strategies.LongPays, Strategies.ShortPays;
    Strategies.FiredSignal(u, m, c);
    Strategies.VerdictIsJustified(u, m, c);
  }

  /** Closing trades no worse than at their stops is disciplined. */
  lemma {:induction false} DisciplinedCloses(a: Account, steps: seq<Step>, exits: map<nat, real>, date: int, below: nat,
                                             spreadPips: real)
    requires exits.Keys <= After(a, steps).open.Keys && Disciplined(a, steps, spreadPips)
    requires forall id :: id in exits ==> NoWorseThanStop(After(a, steps).open[id], exits[id])
    ensures Disciplined(a, steps + Closes(exits, date, below), spreadPips)
  {
    hide After, Disciplined, NoWorseThanStop;
    if below == 0 {
      assert steps + [] == steps;
    } else {
      var id, before := below - 1, steps + Closes(exits, date, below - 1);
      DisciplinedCloses(a, steps, exits, date, id, spreadPips);
      if id in exits {
        ClosingsOfRun(a, steps, exits, date, id);
        DisciplinedMore(a, before, Close(id, exits[id], date), spreadPips);
        assert steps + Closes(exits, date, below) == before + [Close(id, exits[id], date)];
      } else {
        assert steps + Closes(exits, date, below) == before;
      }
    }
  }

  /** A bar closes a trade at its stop or beyond it on the good side. */
  lemma ExitsAreNoWorse(open: map<nat, Trade>, c: Candle, amount: real)
    requires forall id :: id in open ==> TradeFits(open[id], amount)
    ensures forall id :: id in Exits(open, c) ==> NoWorseThanStop(open[id], Exits(open, c)[id])
  {
    hide ClosePnl;
  }

  lemma DisciplinedAnswer(a: Account, steps: seq<Step>, row: Row, spreadPips: real, quotes: map<string, Quote>)
    requires Disciplined(a, steps, spreadPips) && RowFits(row) && row.signal.Some? && spreadPips >= 0.0
    requires row.candle.symbol in quotes && quotes[row.candle.symbol] == QuoteOf(row, spreadPips)
    ensures Disciplined(a, steps + Answered(a, After(a, steps), row.date, row.signal.value, spreadPips, quotes),
                        spreadPips)
  {
    hide After, Disciplined, Next, Decide;
    var s, signal := After(a, steps), row.signal.value;
    var handle := Handle(row.date, signal, Some(spreadPips));
    var answer := Answered(a, s, row.date, signal, spreadPips, quotes);
    DisciplinedMore(a, steps, handle, spreadPips);
    if |answer| == 2 {
      OneMoreStep(a, steps, handle);
      BooksOfStep(a, s, handle);
      DisciplinedMore(a, steps + [handle], answer[1], spreadPips);
      assert steps + answer == steps + [handle] + [answer[1]];
    }
  }

  /** Every replay of fitting rows is a disciplined run. */
  lemma {:induction false} ReplayIsDisciplined(a: Account, spreadPips: real, rows: seq<Row>)
    requires a.initial.balance <= a.initial.hwm && a.cfg.riskPct >= 0.0 && spreadPips >= 0.0 && RowsFit(rows)
    ensures Disciplined(a, ReplaySteps(a, spreadPips, rows), spreadPips)
  {
    hide After, Disciplined, Answered, RowFits, TradeFits, Exits, Closes, QuoteOf, OrderFits;
    if rows == [] {
      NothingDone(a, spreadPips);
    } else {
      var before, row := rows[..|rows| - 1], rows[|rows| - 1];
      var steps := ReplaySteps(a, spreadPips, before);
      ReplayIsDisciplined(a, spreadPips, before);
      RunIsContained(a, steps, spreadPips);
      var s := After(a, steps);
      ExitsAreNoWorse(s.open, row.candle, Planned(a, s.risk.hwm, spreadPips));
      DisciplinedCloses(a, steps, Exits(s.open, row.candle), row.date, s.nextId, spreadPips);
      if row.signal.Some? {
        DisciplinedAnswer(a, WithExits(a, steps, row.candle, row.date), row, spreadPips, Quotes(rows, spreadPips));
      }
    }
  }

  lemma NothingDone(a: Account, spreadPips: real)
    ensures Disciplined(a, [], spreadPips)
  {
  }

  /** So the account is preserved, and of the bounds' parameters only the number of trades open at once is left. */
  lemma ReplayPreservesCapital(a: Account, spreadPips: real, rows: seq<Row>, most: nat)
    requires Fresh(a.initial) && a.initial.hwm > 0.0 && StartsWithin(a) && a.initial.balance <= a.initial.hwm
    requires a.cfg.DailyLossLimit() >= 0.0 && a.cfg.maxTotalDdPct >= 0.0
    requires a.cfg.riskPct >= 0.0 && spreadPips >= 0.0 && RowsFit(rows)
    requires ExposedAtMost(a, ReplaySteps(a, spreadPips, rows), most)
    ensures var r := After(a, ReplaySteps(a, spreadPips, rows)).risk;
            var lost := most as real * Planned(a, r.hwm, spreadPips);
            && r.realizedToday >= -(a.cfg.DailyLossLimit() + lost)
            && r.hwm - r.balance <= a.cfg.maxTotalDdPct * r.hwm + lost
  {
    hide After, ReplaySteps, Disciplined, ExposedAtMost, Planned;
    ReplayIsDisciplined(a, spreadPips, rows);
    DisciplinePreservesCapital(a, ReplaySteps(a, spreadPips, rows), most, spreadPips);
  }

  /** Every trade a bar of a replay closes books at least minus the planned loss. */
  lemma BarExitIsPlanned(a: Account, spreadPips: real, rows: seq<Row>, t: Trade)
    requires a.initial.hwm > 0.0 && a.initial.balance <= a.initial.hwm
    requires a.cfg.riskPct >= 0.0 && spreadPips >= 0.0 && RowsFit(rows)
    requires t in Regular(a, spreadPips, rows)
    ensures t.pnl >= -Planned(a, After(a, ReplaySteps(a, spreadPips, rows)).risk.hwm, spreadPips)
  {
    hide After, ReplaySteps, Disciplined, Planned;
    ReplayIsDisciplined(a, spreadPips, rows);
    LedgerIsPlanned(a, ReplaySteps(a, spreadPips, rows), spreadPips, t);
  }

  lemma {:induction false} LedgerIsPlanned(a: Account, steps: seq<Step>, spreadPips: real, t: Trade)
    requires a.initial.hwm > 0.0 && a.initial.balance <= a.initial.hwm && a.cfg.riskPct >= 0.0 && spreadPips >= 0.0
    requires Disciplined(a, steps, spreadPips) && t in Ledger(a, steps)
    ensures t.pnl >= -Planned(a, After(a, steps).risk.hwm, spreadPips)
  {
    hide After, Disciplined, Planned, Contained, KeepsPlan, ClosePnl;
    var k := |steps| - 1;
    var before, s := steps[..k], After(a, steps[..k]);
    DisciplinedPrefix(a, steps, spreadPips);
    MarkGrows(a, steps, k);
    MarkGrows(a, before, 0);
    AmountsGrow(a, s.risk.hwm, After(a, steps).risk.hwm, spreadPips);
    if t in Ledger(a, before) {
      LedgerIsPlanned(a, before, spreadPips, t);
    } else {
      RunIsContained(a, before, spreadPips);
      StepIsPlanned(a, s, steps[k], spreadPips);
    }
  }
}
