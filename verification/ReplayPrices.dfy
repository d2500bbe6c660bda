/** The replay in the prices of its rows: at what price a trade starts, which bar ends it and where, and what the
    epilogue makes of the rest. */
module ReplayPrices {
  import opened Foundations
  import opened Candles
  import opened Trading
  import opened Risk
  import opened RiskHistory
  import opened Executors
  import opened ExecutorRuns
  import opened Stats
  import opened Replay

  /** Row `j` is the last of `rows` on the symbol. */
  ghost predicate IsLastOf(rows: seq<Row>, symbol: string, j: nat)
  {
    && j < |rows| && rows[j].candle.symbol == symbol
    && forall m :: j < m < |rows| ==> rows[m].candle.symbol != symbol
  }

  /** Half the spread below a row's close one can sell, half above one can buy. */
  function SellAt(row: Row, spreadPips: real): (r: real) { row.candle.close - spreadPips * row.inst.pipSize / 2.0 }

  function BuyAt(row: Row, spreadPips: real): (r: real) { row.candle.close + spreadPips * row.inst.pipSize / 2.0 }

  /** The quote of a symbol is that of its last row. */
  lemma {:induction false} QuoteIsOfLastRow(rows: seq<Row>, spreadPips: real, symbol: string) returns (j: nat)
    ensures if symbol in Quotes(rows, spreadPips) then
              && IsLastOf(rows, symbol, j)
              && Quotes(rows, spreadPips)[symbol] == Quote(SellAt(rows[j], spreadPips), BuyAt(rows[j], spreadPips))
            else forall m :: 0 <= m < |rows| ==> rows[m].candle.symbol != symbol
  {
    j := 0;
    if rows != [] {
      var n := |rows| - 1;
      hide SellAt, BuyAt, QuoteOf;
      QuoteInPrices(rows[n], spreadPips);
      j := n;
      if rows[n].candle.symbol != symbol {
        j := QuoteIsOfLastRow(rows[..n], spreadPips, symbol);
      }
    }
  }

  lemma QuoteInPrices(row: Row, spreadPips: real)
    ensures QuoteOf(row, spreadPips) == Quote(SellAt(row, spreadPips), BuyAt(row, spreadPips))
  {
  }

  // ---- how a trade ends ---------------------------------------------------------------------

  /** The bar is of the trade's symbol and reaches its stop. */
  predicate ReachesStop(t: Trade, c: Candle)
  {
    t.inst.symbol == c.symbol && if t.side == Long then c.low <= t.stop else c.high >= t.stop
  }

  predicate ReachesTarget(t: Trade, c: Candle)
  {
    t.inst.symbol == c.symbol && if t.side == Long then c.high >= t.target else c.low <= t.target
  }

  /** An open trade survives a bar exactly when the bar reaches neither of its levels; one whose stop is reached
      leaves at the stop, whatever else the bar does, any other at its target. */
  lemma BarEndsInPrices(a: Account, steps: seq<Step>, c: Candle, date: int, id: nat)
    requires id in After(a, steps).open
    ensures var t := After(a, steps).open[id];
            var exited := WithExits(a, steps, c, date);
            && Ledger(a, steps) <= Ledger(a, exited)
            && (id in After(a, exited).open <==> !ReachesStop(t, c) && !ReachesTarget(t, c))
            && (id in After(a, exited).open ==> After(a, exited).open[id] == t)
            && (id !in After(a, exited).open ==>
                  exists out :: out in Ledger(a, exited)[|Ledger(a, steps)|..]
                                && IsClosed(out, t, if ReachesStop(t, c) then t.stop else t.target))
  {
    hide After, Ledger, IsClosed, WithExits, ClosedTrade;
    var t, open := After(a, steps).open[id], After(a, steps).open;
    var exited := WithExits(a, steps, c, date);
    BarClosesWhatItHits(a, steps, c, date);
    ExitKeys(open, c);
    if id !in After(a, exited).open {
      var level := if ReachesStop(t, c) then t.stop else t.target;
      ClosedTradeIs(t, level);
      assert Exits(open, c)[id] == level;
      assert LeavesAs(open, Exits(open, c), ClosedTrade(t, level));
    }
  }

  // ---- how a trade starts --------------------------------------------------------------------

  /** Trade `t` was opened on row `i`: the row's signal was accepted on the balance after the row's exits, sized to
      the configured share of it, and filled half a spread from the symbol's last close. */
  ghost predicate StartedOn(a: Account, spreadPips: real, rows: seq<Row>, i: nat, t: Trade)
  {
    && i < |rows| && rows[i].signal.Some?
    && var signal := rows[i].signal.value;
       && t.inst == signal.inst && t.side == signal.side && t.stop == signal.stop && t.target == signal.target
       && t.session == signal.session && t.status == Open
       && FilledAtLastClose(t, rows[..i + 1], spreadPips)
       && var exited := WithExits(a, ReplaySteps(a, spreadPips, rows[..i]), rows[i].candle, rows[i].date);
          SizedBy(a, t, After(a, exited), signal)
  }

  ghost predicate FilledAtLastClose(t: Trade, rows: seq<Row>, spreadPips: real)
    requires rows != [] && rows[|rows| - 1].signal.Some?
  {
    exists j: nat :: IsLastOf(rows, t.inst.symbol, j) &&
      var price := if t.side == Long then BuyAt(rows[j], spreadPips) else SellAt(rows[j], spreadPips);
      t.entry == if price != 0.0 then price else rows[|rows| - 1].signal.value.entry
  }

  predicate SizedBy(a: Account, t: Trade, s: System, signal: Signal)
  {
    LargestWithin(t.quantity, StopLossOf(signal), s.risk.balance * a.cfg.riskPct)
  }

  /** Every open trade of a replay has such a start. */
  lemma {:induction false} OpenTradesHaveAStart(a: Account, spreadPips: real, rows: seq<Row>, id: nat) returns (i: nat)
    requires id in After(a, ReplaySteps(a, spreadPips, rows)).open
    ensures StartedOn(a, spreadPips, rows, i, After(a, ReplaySteps(a, spreadPips, rows)).open[id])
  {
    if rows == [] {
      NothingOpen(a);
      assert false;
    } else {
      hide After, ReplaySteps, WithExits, StartedOn;
      var n := |rows| - 1;
      var steps := ReplaySteps(a, spreadPips, rows[..n]);
      RowOpens(a, spreadPips, rows, id);
      if id in After(a, steps).open && After(a, steps).open[id] == After(a, ReplaySteps(a, spreadPips, rows)).open[id] {
        i := OpenTradesHaveAStart(a, spreadPips, rows[..n], id);
        StartKept(a, spreadPips, rows, i, After(a, steps).open[id]);
      } else {
        i := n;
        NewTradeStarts(a, spreadPips, rows, id);
      }
    }
  }

  /** A trade open after a row was open before it, or was opened by the row's signal. */
  lemma RowOpens(a: Account, spreadPips: real, rows: seq<Row>, id: nat)
    requires rows != [] && id in After(a, ReplaySteps(a, spreadPips, rows)).open
    ensures var row, steps := rows[|rows| - 1], ReplaySteps(a, spreadPips, rows[..|rows| - 1]);
            var exited := WithExits(a, steps, row.candle, row.date);
            || (id in After(a, steps).open
                && After(a, steps).open[id] == After(a, ReplaySteps(a, spreadPips, rows)).open[id])
            || (row.signal.Some? && After(a, exited).inflight == map[] && id == After(a, exited).nextId
                && id !in After(a, exited).open)
  {
    hide After, Ledger, Answered, WithExits, Decide, Quotes, ExitedOn, WithinConcurrency, OpenedTrade;
    var row, steps := rows[|rows| - 1], ReplaySteps(a, spreadPips, rows[..|rows| - 1]);
    var exited := WithExits(a, steps, row.candle, row.date);
    ReplayIsSequential(a, spreadPips, rows[..|rows| - 1]);
    BarClosesWhatItHits(a, steps, row.candle, row.date);
    OnlyExits(After(a, steps).open, After(a, exited).open, Ledger(a, exited)[|Ledger(a, steps)|..], row.candle);
    IdsStayDistinct(a, exited);
    if row.signal.Some? {
      AnswerOutcome(a, exited, row.date, row.signal.value, spreadPips, Quotes(rows, spreadPips));
    }
  }

  lemma OnlyExits(before: map<nat, Trade>, after: map<nat, Trade>, booked: seq<Trade>, c: Candle)
    requires ExitedOn(before, after, booked, c)
    ensures forall id :: id in after ==> id in before && after[id] == before[id]
  {
    hide Hit;
  }

  lemma StartKept(a: Account, spreadPips: real, rows: seq<Row>, i: nat, t: Trade)
    requires rows != [] && StartedOn(a, spreadPips, rows[..|rows| - 1], i, t)
    ensures StartedOn(a, spreadPips, rows, i, t)
  {
    hide FilledAtLastClose, SizedBy;
    assert rows[..|rows| - 1][..i + 1] == rows[..i + 1] && rows[..|rows| - 1][..i] == rows[..i];
  }

  /** The trade a row's signal opens. */
  lemma NewTradeStarts(a: Account, spreadPips: real, rows: seq<Row>, id: nat)
    requires rows != [] && rows[|rows| - 1].signal.Some?
    requires var row := rows[|rows| - 1];
             var exited := WithExits(a, ReplaySteps(a, spreadPips, rows[..|rows| - 1]), row.candle, row.date);
             && After(a, exited).inflight == map[] && id == After(a, exited).nextId
             && id in After(a, ReplaySteps(a, spreadPips, rows)).open
             && id !in After(a, exited).open
    ensures StartedOn(a, spreadPips, rows, |rows| - 1, After(a, ReplaySteps(a, spreadPips, rows)).open[id])
  {
    hide After, Answered, WithExits, Decide, Quotes, OpenedTrade, SellAt, BuyAt, Ledger, WithinConcurrency, StopLossOf;
    var row := rows[|rows| - 1];
    var signal, quotes := row.signal.value, Quotes(rows, spreadPips);
    var exited := WithExits(a, ReplaySteps(a, spreadPips, rows[..|rows| - 1]), row.candle, row.date);
    var s := After(a, exited);
    AnswerOutcome(a, exited, row.date, signal, spreadPips, quotes);
    var d := Decide(a.cfg, a.start, s.risk, row.date, signal, Some(spreadPips));
    SizeIsMaximal(a.cfg, a.start, s.risk, row.date, signal, Some(spreadPips));
    var quote := quotes[signal.inst.symbol];
    var fill := if signal.side == Long then quote.ask else quote.bid;
    FilledTrade(id, InFlight(signal, d.lots), Some(fill));
    var j := QuoteIsOfLastRow(rows, spreadPips, signal.inst.symbol);
    assert rows[..|rows|] == rows;
    assert IsLastOf(rows, signal.inst.symbol, j);
  }

  // ---- what is left over ------------------------------------------------------------------------

  /** A trade the bars left open is forced out at the symbol's last close, a long half a spread below it and a short
      half above. */
  lemma ForcedInPrices(a: Account, spreadPips: real, rows: seq<Row>, id: nat) returns (j: nat)
    requires id in After(a, ReplaySteps(a, spreadPips, rows)).open
    ensures var t := After(a, ReplaySteps(a, spreadPips, rows)).open[id];
            && IsLastOf(rows, t.inst.symbol, j)
            && exists out :: out in Forced(a, spreadPips, rows)
                 && IsClosed(out, t, if t.side == Long then SellAt(rows[j], spreadPips) else BuyAt(rows[j], spreadPips))
  {
    hide After, ReplaySteps, Ledger, IsClosed, ClosedTrade, SellAt, BuyAt, Quotes, Forced, WholeReplay, Regular;
    var open, quotes := After(a, ReplaySteps(a, spreadPips, rows)).open, Quotes(rows, spreadPips);
    var t := open[id];
    OpenTradesAreQuoted(a, spreadPips, rows);
    j := QuoteIsOfLastRow(rows, spreadPips, t.inst.symbol);
    EpilogueClosesTheRest(a, spreadPips, rows, 0);
    var exit := if t.side == Long then SellAt(rows[j], spreadPips) else BuyAt(rows[j], spreadPips);
    assert LastPrices(open, quotes)[id] == exit;
    ClosedTradeIs(t, exit);
    assert LeavesAs(open, LastPrices(open, quotes), ClosedTrade(t, exit));
  }
}
