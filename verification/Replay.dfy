/** The replay engine (app/analytics/backtest.py): bars drive quotes, the risk clock, stop and target
    checks and the executor; closed trades are booked in two ledgers.

    A replay is one run of the executor's steps, a function of the rows; the engine is proved to take
    exactly those steps and to book exactly what they close. The strategy is pluggable and sees only bars,
    so its answer to each bar is part of the input: what is proved here holds for every strategy. */
module Replay {
  import opened Foundations
  import opened Candles
  import opened Trading
  import opened Risk
  import opened RiskHistory
  import opened Executors
  import opened ExecutorRuns
  import opened Stats
  import Drawdown

  /** One row of the data: the bar, its UTC date, its instrument, and what the strategy answers to it. */
  datatype Row = Row(candle: Candle, date: int, inst: Instrument, signal: Option<Signal>)

  datatype Quote = Quote(bid: real, ask: real)

  /** The stop is checked before the target. */
  predicate StopTouched(t: Trade, c: Candle)
  {
    if t.side == Long then c.low <= t.stop else c.high >= t.stop
  }

  predicate TargetTouched(t: Trade, c: Candle)
  {
    if t.side == Long then c.high >= t.target else c.low <= t.target
  }

  predicate Hit(t: Trade, c: Candle)
  {
    t.inst.symbol == c.symbol && (StopTouched(t, c) || TargetTouched(t, c))
  }

  // ---- the ledger of a run ------------------------------------------------------------

  /** Every trade a run closes, in the order it closes them. */
  function Ledger(a: Account, steps: seq<Step>): (r: seq<Trade>)
  {
    if steps == [] then []
    else
      var s, st := After(a, steps[..|steps| - 1]), steps[|steps| - 1];
      Ledger(a, steps[..|steps| - 1])
      + if st.Close? && st.id in s.open then [ClosedTrade(s.open[st.id], st.exit)] else []
  }

  ghost predicate DistinctTrades(ts: seq<Trade>)
  {
    forall i, j :: 0 <= i < j < |ts| ==> ts[i].id != ts[j].id
  }

  /** A trade's id is used up: it is neither open nor in flight, and will not be issued again. */
  predicate Retired(s: System, id: nat)
  {
    id < s.nextId && id !in s.open && id !in s.inflight
  }

  /** The closed trades are distinct, closed for good, and account for the whole change of the balance. */
  ghost predicate BooksAgree(a: Account, s: System, ledger: seq<Trade>)
  {
    && s.risk.balance == a.initial.balance + TotalPnl(ledger)
    && DistinctTrades(ledger)
    && (forall i :: 0 <= i < |ledger| ==> ledger[i].status != Open && Retired(s, ledger[i].id))
    && forall id :: id in s.open ==> s.open[id].id == id && s.open[id].status == Open
  }

  lemma LedgerStep(a: Account, steps: seq<Step>, st: Step)
    ensures var s := After(a, steps);
            Ledger(a, steps + [st]) ==
            Ledger(a, steps) + if st.Close? && st.id in s.open then [ClosedTrade(s.open[st.id], st.exit)] else []
  {
    assert (steps + [st])[..|steps|] == steps;
  }

  /** In every state of every interleaving, the account is its start plus everything the run closed, and each
      trade was closed once. */
  lemma {:induction false} AccountIsLedger(a: Account, steps: seq<Step>)
    ensures BooksAgree(a, After(a, steps), Ledger(a, steps))
  {
    hide BooksAgree, Next;
    if steps == [] {
      NothingBooked(a);
    } else {
      var before, st := steps[..|steps| - 1], steps[|steps| - 1];
      AccountIsLedger(a, before);
      IdsStayDistinct(a, before);
      assert Ledger(a, before) + [] == Ledger(a, before);
      BooksOfOneStep(a, After(a, before), st, Ledger(a, before));
    }
  }

  lemma NothingBooked(a: Account)
    ensures BooksAgree(a, Start(a), [])
  {
  }

  lemma BooksOfOneStep(a: Account, s: System, st: Step, ledger: seq<Trade>)
    requires DistinctIds(s) && BooksAgree(a, s, ledger)
    ensures BooksAgree(a, Next(a, s, st),
                       if st.Close? && st.id in s.open then ledger + [ClosedTrade(s.open[st.id], st.exit)] else ledger)
  {
    hide Next, ClosePnl, Decide, TotalPnl, DistinctTrades;
    BooksOfStep(a, s, st);
    RiskFigures(a, s, st);
    IdsOfStep(a, s, st);
    if st.Close? && st.id in s.open {
      Append(ledger, ClosedTrade(s.open[st.id], st.exit));
    }
  }

  lemma Append(ledger: seq<Trade>, t: Trade)
    ensures TotalPnl(ledger + [t]) == TotalPnl(ledger) + t.pnl
    ensures DistinctTrades(ledger) && (forall i :: 0 <= i < |ledger| ==> ledger[i].id != t.id) ==>
              DistinctTrades(ledger + [t])
  {
    assert (ledger + [t])[..|ledger|] == ledger;
  }

  // ---- closing several trades -------------------------------------------------------------

  /** The steps that close the trades of `exits` with ids below `below`, in id order. */
  function Closes(exits: map<nat, real>, date: int, below: nat): (r: seq<Step>)
  {
    if below == 0 then []
    else Closes(exits, date, below - 1) + if below - 1 in exits then [Close(below - 1, exits[below - 1], date)] else []
  }

  /** The same trades as they leave. */
  function Closings(open: map<nat, Trade>, exits: map<nat, real>, below: nat): (r: seq<Trade>)
    requires exits.Keys <= open.Keys
  {
    if below == 0 then []
    else
      Closings(open, exits, below - 1)
      + if below - 1 in exits then [ClosedTrade(open[below - 1], exits[below - 1])] else []
  }

  /** The open trades once those of `exits` with ids below `below` have left. */
  function Remaining(open: map<nat, Trade>, exits: map<nat, real>, below: nat): (r: map<nat, Trade>)
  {
    map id | id in open && !(id in exits && id < below) :: open[id]
  }

  lemma {:induction false} ClosingsOfRun(a: Account, steps: seq<Step>, exits: map<nat, real>, date: int, below: nat)
    requires exits.Keys <= After(a, steps).open.Keys
    ensures var s, s' := After(a, steps), After(a, steps + Closes(exits, date, below));
            && s'.open == Remaining(s.open, exits, below)
            && s'.inflight == s.inflight && s'.nextId == s.nextId
            && Ledger(a, steps + Closes(exits, date, below)) == Ledger(a, steps) + Closings(s.open, exits, below)
  {
    var s := After(a, steps);
    hide Next, After, Ledger, ClosedTrade, Decide;
    if below == 0 {
      assert steps + [] == steps;
      assert Ledger(a, steps) + [] == Ledger(a, steps);
    } else {
      var id := below - 1;
      var before := steps + Closes(exits, date, id);
      ClosingsOfRun(a, steps, exits, date, id);
      if id in exits {
        var st := Close(id, exits[id], date);
        OneMoreStep(a, before, st);
        LedgerStep(a, before, st);
        BooksOfStep(a, After(a, before), st);
        assert steps + Closes(exits, date, below) == before + [st];
      } else {
        assert steps + Closes(exits, date, below) == before;
        assert Closings(s.open, exits, below) == Closings(s.open, exits, id);
      }
    }
  }

  lemma {:induction false} ClosesAreSequential(a: Account, steps: seq<Step>, exits: map<nat, real>, date: int,
                                               below: nat)
    requires exits.Keys <= After(a, steps).open.Keys
    requires WithinConcurrency(a, steps, 1) && After(a, steps).inflight == map[]
    ensures WithinConcurrency(a, steps + Closes(exits, date, below), 1)
  {
    hide Next, After, WithinConcurrency, Decide;
    if below == 0 {
      assert steps + [] == steps;
    } else {
      var before := steps + Closes(exits, date, below - 1);
      ClosesAreSequential(a, steps, exits, date, below - 1);
      if below - 1 in exits {
        var st := Close(below - 1, exits[below - 1], date);
        ClosingsOfRun(a, steps, exits, date, below - 1);
        Extend(a, before, st, 1);
        BooksOfStep(a, After(a, before), st);
        assert steps + Closes(exits, date, below) == before + [st];
      } else {
        assert steps + Closes(exits, date, below) == before;
      }
    }
  }

  /** `t` is one of the open trades, as it leaves. */
  ghost predicate LeavesAs(open: map<nat, Trade>, exits: map<nat, real>, t: Trade)
    requires exits.Keys <= open.Keys
  {
    exists id :: id in exits && t == ClosedTrade(open[id], exits[id])
  }

  /** The trades that leave are exactly the exits: each at its level, none besides, none twice. */
  lemma ClosingsAreTheExits(open: map<nat, Trade>, exits: map<nat, real>, below: nat)
    requires exits.Keys <= open.Keys && forall id :: id in exits ==> id < below
    ensures |Closings(open, exits, below)| == |exits|
    ensures forall t :: t in Closings(open, exits, below) <==> LeavesAs(open, exits, t)
    ensures Remaining(open, exits, below) == open - exits.Keys
  {
    hide ClosedTrade;
    CountClosings(open, exits, below);
    assert (set id | id in exits && id < below) == exits.Keys;
    assert |exits| == |exits.Keys|;
  }

  lemma {:induction false} CountClosings(open: map<nat, Trade>, exits: map<nat, real>, below: nat)
    requires exits.Keys <= open.Keys
    ensures |Closings(open, exits, below)| == |set id | id in exits && id < below|
    ensures forall t :: t in Closings(open, exits, below) <==>
              exists id :: id in exits && id < below && t == ClosedTrade(open[id], exits[id])
  {
    hide ClosedTrade;
    if below > 0 {
      var id := below - 1;
      CountClosings(open, exits, id);
      var was, now := set k | k in exits && k < id, set k | k in exits && k < below;
      assert now == if id in exits then was + {id} else was;
    }
  }

  ghost predicate InIdOrder(ts: seq<Trade>, below: nat)
  {
    && (forall i :: 0 <= i < |ts| ==> ts[i].id < below)
    && forall i, j :: 0 <= i < j < |ts| ==> ts[i].id < ts[j].id
  }

  /** Trades that leave together leave in the order of their ids, the order they were opened in. */
  lemma {:induction false} ClosingsInOrder(open: map<nat, Trade>, exits: map<nat, real>, below: nat)
    requires exits.Keys <= open.Keys && forall id :: id in open ==> open[id].id == id
    ensures InIdOrder(Closings(open, exits, below), below)
  {
    hide ClosePnl;
    if below > 0 {
      var id: nat := below - 1;
      ClosingsInOrder(open, exits, id);
      var before, ts := Closings(open, exits, id), Closings(open, exits, below);
      if id in exits {
        var t := ClosedTrade(open[id], exits[id]);
        assert id in open && t.id == id;
        assert ts == before + [t];
      } else {
        assert ts == before;
      }
    }
  }

  // ---- a replay is a run --------------------------------------------------------------------

  /** Where a trade leaves on a bar that hits it: at its stop, or else at its target. */
  function LevelOn(t: Trade, c: Candle): (r: real)
  {
    if StopTouched(t, c) then t.stop else t.target
  }

  /** The open trades a bar hits, each with its level. */
  function Exits(open: map<nat, Trade>, c: Candle): (r: map<nat, real>)
    ensures r.Keys <= open.Keys
  {
    map id | id in open && Hit(open[id], c) :: LevelOn(open[id], c)
  }

  function QuoteOf(row: Row, spreadPips: real): (r: Quote)
  {
    var half := spreadPips * row.inst.pipSize / 2.0;
    Quote(row.candle.close - half, row.candle.close + half)
  }

  /** The last quote of every symbol seen. */
  function Quotes(rows: seq<Row>, spreadPips: real): (r: map<string, Quote>)
  {
    if rows == [] then map[]
    else
      var row := rows[|rows| - 1];
      Quotes(rows[..|rows| - 1], spreadPips)[row.candle.symbol := QuoteOf(row, spreadPips)]
  }

  /** A signal against the paper broker: rejected by risk, filled at the quote, or failed for want of one. */
  function Answered(a: Account, s: System, date: int, signal: Signal, spreadPips: real, quotes: map<string, Quote>)
    : (r: seq<Step>)
  {
    var handle := Handle(date, signal, Some(spreadPips));
    if !Decide(a.cfg, a.start, s.risk, date, signal, Some(spreadPips)).accepted then [handle]
    else if signal.inst.symbol in quotes then
      var quote := quotes[signal.inst.symbol];
      [handle, Fills(s.nextId, Some(if signal.side == Long then quote.ask else quote.bid), date)]
    else [handle, Fails(s.nextId)]
  }

  /** `steps`, and then the closes of everything the bar hits. */
  function WithExits(a: Account, steps: seq<Step>, c: Candle, date: int): (r: seq<Step>)
  {
    var s := After(a, steps);
    steps + Closes(Exits(s.open, c), date, s.nextId)
  }

  /** One row: the exits first, then the answer to the strategy's signal. */
  function WithRow(a: Account, spreadPips: real, steps: seq<Step>, row: Row, quotes: map<string, Quote>): (r: seq<Step>)
  {
    var exited := WithExits(a, steps, row.candle, row.date);
    if row.signal.None? then exited
    else exited + Answered(a, After(a, exited), row.date, row.signal.value, spreadPips, quotes)
  }

  /** Everything the executor does in a replay of `rows`, before the epilogue. */
  function ReplaySteps(a: Account, spreadPips: real, rows: seq<Row>): (r: seq<Step>)
  {
    if rows == [] then []
    else
      WithRow(a, spreadPips, ReplaySteps(a, spreadPips, rows[..|rows| - 1]), rows[|rows| - 1], Quotes(rows, spreadPips))
  }

  /** Exactly the trades bar `c` hits are gone; each is among `booked` at its level, and nothing else is. */
  ghost predicate ExitedOn(before: map<nat, Trade>, after: map<nat, Trade>, booked: seq<Trade>, c: Candle)
  {
    && after == (map id | id in before && !Hit(before[id], c) :: before[id])
    && |booked| == |before| - |after|
    && forall t :: t in booked <==> LeavesAs(before, Exits(before, c), t)
  }

  lemma ExitsLeave(open: map<nat, Trade>, c: Candle, below: nat)
    requires forall id :: id in open ==> id < below
    ensures ExitedOn(open, Remaining(open, Exits(open, c), below), Closings(open, Exits(open, c), below), c)
  {
    hide ClosedTrade, LevelOn, Hit, Closings, LeavesAs;
    var exits := Exits(open, c);
    ClosingsAreTheExits(open, exits, below);
    Without(open, exits);
    hide Exits;
    assert (map id | id in open && !Hit(open[id], c) :: open[id]) == open - exits.Keys by {
      ExitKeys(open, c);
    }
  }

  lemma ExitKeys(open: map<nat, Trade>, c: Candle)
    ensures forall id :: id in Exits(open, c) <==> id in open && Hit(open[id], c)
    ensures forall id :: id in Exits(open, c) ==> Exits(open, c)[id] == LevelOn(open[id], c)
  {
  }

  lemma Without(open: map<nat, Trade>, exits: map<nat, real>)
    requires exits.Keys <= open.Keys
    ensures |open - exits.Keys| == |open| - |exits|
  {
    var all, gone, left := open.Keys, exits.Keys, (open - exits.Keys).Keys;
    assert left == all - gone;
    assert |open| == |all| && |exits| == |gone| && |open - exits.Keys| == |left|;
  }

  /** A bar closes exactly the trades it hits: each leaves at its level and is booked once, nothing else is
      booked, and every other trade stays as it was. */
  lemma BarClosesWhatItHits(a: Account, steps: seq<Step>, c: Candle, date: int)
    ensures var exited := WithExits(a, steps, c, date);
            var s, s', ledger := After(a, steps), After(a, exited), Ledger(a, steps);
            && ledger <= Ledger(a, exited)
            && ExitedOn(s.open, s'.open, Ledger(a, exited)[|ledger|..], c)
            && s'.inflight == s.inflight && s'.nextId == s.nextId
            && (WithinConcurrency(a, steps, 1) && s.inflight == map[] ==> WithinConcurrency(a, exited, 1))
  {
    hide Closes, Closings, After, Ledger, ExitedOn, Exits, Remaining, WithinConcurrency;
    if WithinConcurrency(a, steps, 1) && After(a, steps).inflight == map[] {
      ClosesAreSequential(a, steps, Exits(After(a, steps).open, c), date, After(a, steps).nextId);
    }
    var s := After(a, steps);
    IdsStayDistinct(a, steps);
    ClosingsOfRun(a, steps, Exits(s.open, c), date, s.nextId);
    ExitsLeave(s.open, c, s.nextId);
  }

  /** What a signal leads to: a refusal, a trade opened at the right side of the quote, or a lost order. */
  lemma AnswerOutcome(a: Account, steps: seq<Step>, date: int, signal: Signal, spreadPips: real,
                      quotes: map<string, Quote>)
    requires After(a, steps).inflight == map[]
    ensures var s := After(a, steps);
            var answer := Answered(a, s, date, signal, spreadPips, quotes);
            var s' := After(a, steps + answer);
            var d := Decide(a.cfg, a.start, s.risk, date, signal, Some(spreadPips));
            && s'.inflight == map[] && Ledger(a, steps + answer) == Ledger(a, steps)
            && s'.open == (
                 if !d.accepted || signal.inst.symbol !in quotes then s.open
                 else
                   var quote := quotes[signal.inst.symbol];
                   var fill := if signal.side == Long then quote.ask else quote.bid;
                   s.open[s.nextId := OpenedTrade(s.nextId, InFlight(signal, d.lots), Some(fill))])
            && (WithinConcurrency(a, steps, 1) ==> WithinConcurrency(a, steps + answer, 1))
  {
    hide Next, Decide, OpenedTrade, After, Ledger, WithinConcurrency;
    var s, handle := After(a, steps), Handle(date, signal, Some(spreadPips));
    var answer := Answered(a, s, date, signal, spreadPips, quotes);
    Extend(a, steps, handle, 1);
    LedgerStep(a, steps, handle);
    BooksOfStep(a, s, handle);
    if |answer| == 2 {
      assert steps + answer == steps + [handle] + [answer[1]];
      Extend(a, steps + [handle], answer[1], 1);
      LedgerStep(a, steps + [handle], answer[1]);
      BooksOfStep(a, After(a, steps + [handle]), answer[1]);
      assert |map[s.nextId := InFlight(signal, 0.0)]| == 1;
    }
  }

  /** The replay handles its signals one at a time: between bars nothing is in flight. */
  lemma {:induction false} ReplayIsSequential(a: Account, spreadPips: real, rows: seq<Row>)
    ensures After(a, ReplaySteps(a, spreadPips, rows)).inflight == map[]
    ensures WithinConcurrency(a, ReplaySteps(a, spreadPips, rows), 1)
  {
    hide After, Answered, WithExits, WithinConcurrency, Ledger, ExitedOn, Decide, Quotes;
    if rows == [] {
      NothingInFlight(a);
    } else {
      var row := rows[|rows| - 1];
      var steps := ReplaySteps(a, spreadPips, rows[..|rows| - 1]);
      ReplayIsSequential(a, spreadPips, rows[..|rows| - 1]);
      BarClosesWhatItHits(a, steps, row.candle, row.date);
      if row.signal.Some? {
        AnswerOutcome(a, WithExits(a, steps, row.candle, row.date), row.date, row.signal.value, spreadPips,
                      Quotes(rows, spreadPips));
      }
    }
  }

  lemma NothingInFlight(a: Account)
    ensures After(a, []).inflight == map[] && WithinConcurrency(a, [], 1)
  {
  }

  lemma OneMoreRow(a: Account, spreadPips: real, rows: seq<Row>, row: Row)
    ensures Quotes(rows + [row], spreadPips) == Quotes(rows, spreadPips)[row.candle.symbol := QuoteOf(row, spreadPips)]
    ensures ReplaySteps(a, spreadPips, rows + [row]) ==
            WithRow(a, spreadPips, ReplaySteps(a, spreadPips, rows), row, Quotes(rows + [row], spreadPips))
  {
    hide WithRow, QuoteOf;
    assert (rows + [row])[..|rows|] == rows;
  }

  /** One more row adds to the ledger what its bar closes; the signal adds nothing. */
  lemma RowBooks(a: Account, spreadPips: real, rows: seq<Row>, row: Row)
    ensures var steps, more := ReplaySteps(a, spreadPips, rows), ReplaySteps(a, spreadPips, rows + [row]);
            var s, exited := After(a, steps), WithExits(a, steps, row.candle, row.date);
            && Ledger(a, more) == Ledger(a, exited) && Ledger(a, steps) <= Ledger(a, more)
            && ExitedOn(s.open, After(a, exited).open, Ledger(a, more)[|Ledger(a, steps)|..], row.candle)
            && DistinctTrades(Ledger(a, more))
            && After(a, more).risk.balance == a.initial.balance + TotalPnl(Ledger(a, more))
  {
    hide After, Answered, WithExits, WithinConcurrency, Ledger, ExitedOn, Decide, Quotes, ReplaySteps, DistinctTrades,
        TotalPnl;
    var steps := ReplaySteps(a, spreadPips, rows);
    OneMoreRow(a, spreadPips, rows, row);
    ReplayIsSequential(a, spreadPips, rows);
    BarClosesWhatItHits(a, steps, row.candle, row.date);
    if row.signal.Some? {
      AnswerOutcome(a, WithExits(a, steps, row.candle, row.date), row.date, row.signal.value, spreadPips,
                    Quotes(rows + [row], spreadPips));
    }
    AccountIsLedger(a, ReplaySteps(a, spreadPips, rows + [row]));
  }

  /** Hence the documented daily cap is hard in every state a replay passes through. */
  lemma ReplayKeepsTheCap(a: Account, spreadPips: real, rows: seq<Row>, n: nat)
    requires Fresh(a.initial) && a.cfg.maxTradesPerDay >= 1 && n <= |ReplaySteps(a, spreadPips, rows)|
    ensures var s := After(a, ReplaySteps(a, spreadPips, rows)[..n]);
            s.risk.tradesToday + |s.inflight| <= a.cfg.maxTradesPerDay
  {
    hide After, ReplaySteps;
    var steps := ReplaySteps(a, spreadPips, rows);
    ReplayIsSequential(a, spreadPips, rows);
    assert forall m :: 0 <= m <= n ==> steps[..n][..m] == steps[..m];
    TradeCapUnderConcurrency(a, steps[..n], 1);
  }

  ghost predicate Quoted(open: map<nat, Trade>, quotes: map<string, Quote>)
  {
    forall id :: id in open ==> open[id].inst.symbol in quotes
  }

  /** Every open trade's symbol has a quote: it was filled at one. */
  lemma {:induction false} OpenTradesAreQuoted(a: Account, spreadPips: real, rows: seq<Row>)
    ensures Quoted(After(a, ReplaySteps(a, spreadPips, rows)).open, Quotes(rows, spreadPips))
  {
    hide After, Answered, WithExits, WithinConcurrency, Ledger, Decide, QuoteOf, Hit;
    if rows == [] {
      NothingInFlight(a);
      assert After(a, []).open == map[] by { NothingOpen(a); }
    } else {
      var before, row := rows[..|rows| - 1], rows[|rows| - 1];
      var steps := ReplaySteps(a, spreadPips, before);
      OpenTradesAreQuoted(a, spreadPips, before);
      ReplayIsSequential(a, spreadPips, before);
      BarClosesWhatItHits(a, steps, row.candle, row.date);
      if row.signal.Some? {
        AnswerOutcome(a, WithExits(a, steps, row.candle, row.date), row.date, row.signal.value, spreadPips,
                      Quotes(rows, spreadPips));
      }
    }
  }

  lemma NothingOpen(a: Account)
    ensures After(a, []).open == map[]
  {
  }

  // ---- the epilogue ---------------------------------------------------------------------------

  /** The side of the last quote each open trade can leave on. */
  function LastPrices(open: map<nat, Trade>, quotes: map<string, Quote>): (r: map<nat, real>)
    ensures r.Keys <= open.Keys
  {
    map id | id in open && open[id].inst.symbol in quotes ::
      if open[id].side == Long then quotes[open[id].inst.symbol].bid else quotes[open[id].inst.symbol].ask
  }

  /** The trades the bars closed. */
  function Regular(a: Account, spreadPips: real, rows: seq<Row>): (r: seq<Trade>)
  {
    Ledger(a, ReplaySteps(a, spreadPips, rows))
  }

  /** The trades the bars left open, as the epilogue closes them. */
  function Forced(a: Account, spreadPips: real, rows: seq<Row>): (r: seq<Trade>)
  {
    var s := After(a, ReplaySteps(a, spreadPips, rows));
    Closings(s.open, LastPrices(s.open, Quotes(rows, spreadPips)), s.nextId)
  }

  /** The whole replay, the epilogue on `date` included. */
  function WholeReplay(a: Account, spreadPips: real, rows: seq<Row>, date: int): (r: seq<Step>)
  {
    var steps := ReplaySteps(a, spreadPips, rows);
    var s := After(a, steps);
    steps + Closes(LastPrices(s.open, Quotes(rows, spreadPips)), date, s.nextId)
  }

  /** The epilogue forces out exactly the trades the bars left open, each at its last quote; then nothing is
      open, every trade of the replay was closed once, and the account is its start plus all their results. */
  lemma EpilogueClosesTheRest(a: Account, spreadPips: real, rows: seq<Row>, date: int)
    ensures var s, s' := After(a, ReplaySteps(a, spreadPips, rows)), After(a, WholeReplay(a, spreadPips, rows, date));
            var prices, forced := LastPrices(s.open, Quotes(rows, spreadPips)), Forced(a, spreadPips, rows);
            && prices.Keys == s.open.Keys && |forced| == |s.open|
            && (forall t :: t in forced <==> LeavesAs(s.open, prices, t))
            && s'.open == map[]
            && Ledger(a, WholeReplay(a, spreadPips, rows, date)) == Regular(a, spreadPips, rows) + forced
            && DistinctTrades(Regular(a, spreadPips, rows) + forced)
            && s'.risk.balance == a.initial.balance + TotalPnl(Regular(a, spreadPips, rows)) + TotalPnl(forced)
  {
    hide After, ReplaySteps, Ledger, Closes, Closings, LeavesAs, DistinctTrades, WithinConcurrency, Quotes, TotalPnl,
         Remaining;
    var steps := ReplaySteps(a, spreadPips, rows);
    var s := After(a, steps);
    var prices := LastPrices(s.open, Quotes(rows, spreadPips));
    OpenTradesAreQuoted(a, spreadPips, rows);
    AllPriced(s.open, Quotes(rows, spreadPips));
    IdsStayDistinct(a, steps);
    ClosingsOfRun(a, steps, prices, date, s.nextId);
    ClosingsAreTheExits(s.open, prices, s.nextId);
    Without(s.open, prices);
    AccountIsLedger(a, WholeReplay(a, spreadPips, rows, date));
    PnlOfConcat(Ledger(a, steps), Forced(a, spreadPips, rows));
  }

  lemma AllPriced(open: map<nat, Trade>, quotes: map<string, Quote>)
    requires Quoted(open, quotes)
    ensures LastPrices(open, quotes).Keys == open.Keys
  {
  }

  function Doubled(ts: seq<Trade>): (r: seq<Trade>)
  {
    if ts == [] then [] else Doubled(ts[..|ts| - 1]) + [ts[|ts| - 1], ts[|ts| - 1]]
  }

  lemma PnlOfConcat(a: seq<Trade>, b: seq<Trade>)
    ensures TotalPnl(a + b) == TotalPnl(a) + TotalPnl(b)
  {
    if b == [] {
      assert a + b == a;
    } else {
      PnlOfConcat(a, b[..|b| - 1]);
      assert (a + b)[..|a + b| - 1] == a + b[..|b| - 1];
    }
  }

  lemma {:induction false} PnlDoubles(ts: seq<Trade>)
    ensures TotalPnl(Doubled(ts)) == TotalPnl(ts) + TotalPnl(ts)
  {
    if ts != [] {
      var rest, t := Doubled(ts[..|ts| - 1]), ts[|ts| - 1];
      PnlDoubles(ts[..|ts| - 1]);
      assert rest + [t, t] == rest + [t] + [t];
      assert (rest + [t] + [t])[..|rest| + 1] == rest + [t] && (rest + [t])[..|rest|] == rest;
    }
  }

  lemma NoExitYet(open: map<nat, Trade>, exits: map<nat, real>, date: int, steps: seq<Step>, booked: seq<Trade>)
    requires exits.Keys <= open.Keys
    ensures Remaining(open, exits, 0) == open
    ensures steps + Closes(exits, date, 0) == steps && booked + Closings(open, exits, 0) == booked
  {
  }

  lemma OneMoreExit(open: map<nat, Trade>, exits: map<nat, real>, date: int, id: nat, steps: seq<Step>,
                    booked: seq<Trade>)
    requires exits.Keys <= open.Keys
    ensures id in Remaining(open, exits, id) <==> id in open
    ensures id in open ==> Remaining(open, exits, id)[id] == open[id]
    ensures Remaining(open, exits, id + 1) == Remaining(open, exits, id) - if id in exits then {id} else {}
    ensures steps + Closes(exits, date, id + 1) ==
            steps + Closes(exits, date, id) + if id in exits then [Close(id, exits[id], date)] else []
    ensures booked + Closings(open, exits, id + 1) ==
            booked + Closings(open, exits, id) + if id in exits then [ClosedTrade(open[id], exits[id])] else []
  {
    hide ClosedTrade;
  }

  /** Each trade is followed at once by its repetition. */
  lemma {:induction false} DoubledInPairs(ts: seq<Trade>)
    ensures |Doubled(ts)| == 2 * |ts|
    ensures forall i :: 0 <= i < |ts| ==> Doubled(ts)[2 * i] == Doubled(ts)[2 * i + 1] == ts[i]
  {
    if ts != [] {
      DoubledInPairs(ts[..|ts| - 1]);
    }
  }

  lemma NothingDoubled(open: map<nat, Trade>, exits: map<nat, real>, booked: seq<Trade>)
    requires exits.Keys <= open.Keys
    ensures booked + Doubled(Closings(open, exits, 0)) == booked
  {
  }

  lemma DoubledExit(open: map<nat, Trade>, exits: map<nat, real>, id: nat, booked: seq<Trade>)
    requires exits.Keys <= open.Keys
    ensures booked + Doubled(Closings(open, exits, id + 1)) ==
            booked + Doubled(Closings(open, exits, id))
            + if id in exits then [ClosedTrade(open[id], exits[id])] + [ClosedTrade(open[id], exits[id])] else []
  {
    hide ClosedTrade;
    if id in exits {
      var ts, t := Closings(open, exits, id), ClosedTrade(open[id], exits[id]);
      assert (ts + [t])[..|ts|] == ts;
      assert Doubled(ts + [t]) == Doubled(ts) + [t, t];
      assert booked + (Doubled(ts) + [t, t]) == booked + Doubled(ts) + ([t] + [t]);
    } else {
      assert Closings(open, exits, id + 1) == Closings(open, exits, id);
    }
  }

  // ---- the object -----------------------------------------------------------------------------

  class BacktestEngine {
    const risk: RiskManager
    const executor: Executor
    const stats: TradeStatsAggregator
    const spreadPips: real
    var quotes: map<string, Quote>
    /** The run's own list of closed trades. */
    var closedTrades: seq<Trade>
    /** The rows replayed so far. */
    ghost var rows: seq<Row>

    ghost predicate Wired()
      reads this, risk, executor, stats
    {
      && executor.risk == risk && executor.Valid()
      && stats.Valid() && stats.startingBalance == risk.start && stats.trades == closedTrades
    }

    /** At every bar boundary the executor has taken exactly the steps of the replay, and list and statistics
        hold exactly the trades that run closed. */
    ghost predicate Valid()
      reads this, risk, executor, stats
    {
      && Wired() && quotes == Quotes(rows, spreadPips)
      && executor.steps == ReplaySteps(executor.account, spreadPips, rows)
      && closedTrades == Regular(executor.account, spreadPips, rows)
    }

    constructor (settings: Settings, spreadPips: real, utcToday: int)
      ensures Valid() && rows == [] && this.spreadPips == spreadPips
      ensures executor.account == NewAccount(settings, utcToday)
      ensures risk.start == settings.accountBalance && risk.simulatedNow == None
      ensures fresh(risk) && fresh(executor) && fresh(stats)
    {
      var manager := new RiskManager(settings, settings.accountBalance, 0.0, 0.0, utcToday);
      risk := manager;
      executor := new Executor(manager);
      stats := new TradeStatsAggregator(settings.accountBalance);
      this.spreadPips, quotes, closedTrades, rows := spreadPips, map[], [], [];
    }

    /** The hook the executor calls on every trade it opens or closes; only closed ones are booked. */
    method Persist(t: Trade)
      requires stats.Valid() && stats.trades == closedTrades
      modifies this`closedTrades, stats
      ensures stats.Valid() && stats.trades == closedTrades
      ensures closedTrades == if t.status == Open then old(closedTrades) else old(closedTrades) + [t]
    {
      if t.status != Open {
        closedTrades := closedTrades + [t];
      }
      stats.Record(t);
    }

    /** `close_trade`, its persistence hook included. */
    method CloseAndPersist(id: nat, exit: real, utcToday: int) returns (t: Trade)
      requires Wired() && id in executor.openTrades
      modifies this`closedTrades, stats, executor, risk
      ensures Wired() && risk.simulatedNow == old(risk.simulatedNow) && executor.nextId == old(executor.nextId)
      ensures executor.steps == old(executor.steps) + [Close(id, exit, old(risk.NowDate(utcToday)))]
      ensures t == ClosedTrade(old(executor.openTrades)[id], exit) && t.status != Open
      ensures closedTrades == old(closedTrades) + [t]
      ensures executor.openTrades == old(executor.openTrades) - {id}
    {
      hide After, ClosePnl, Apply;
      var closed := executor.CloseTrade(id, exit, utcToday);
      t := closed.value;
      assert t.status != Open;
      Persist(t);
    }

    /** Close every trade of the bar's symbol whose stop or target the bar touched, and no other. */
    method CheckSlTp(c: Candle, utcToday: int)
      requires Wired() && closedTrades == Ledger(executor.account, executor.steps)
      modifies this`closedTrades, stats, executor, risk
      ensures Wired() && closedTrades == Ledger(executor.account, executor.steps)
      ensures risk.simulatedNow == old(risk.simulatedNow)
      ensures executor.steps == WithExits(executor.account, old(executor.steps), c, old(risk.NowDate(utcToday)))
    {
      InState();
      ClosingsOfRun(executor.account, executor.steps, Exits(executor.openTrades, c), risk.NowDate(utcToday),
                    executor.nextId);
      hide After, Ledger;
      ghost var open, steps, booked := executor.openTrades, executor.steps, closedTrades;
      ghost var exits, date := Exits(open, c), risk.NowDate(utcToday);
      hide Wired, ClosedTrade, LevelOn, Hit, Exits, Remaining, Closes, Closings, Progress;
      NoExitYet(open, exits, date, steps, booked);
      assert Progress(open, exits, date, steps, booked, 0);
      for id := 0 to executor.nextId
        invariant Wired() && risk.simulatedNow == old(risk.simulatedNow) && executor.nextId == old(executor.nextId)
        invariant Progress(open, exits, date, steps, booked, id)
      {
        VisitOne(id, c, utcToday, open, steps, booked);
      }
    }

    /** Of the trades open at `steps`, those of `exits` with ids below `id` have left. */
    ghost predicate Progress(open: map<nat, Trade>, exits: map<nat, real>, date: int, steps: seq<Step>,
                             booked: seq<Trade>, id: nat)
      requires exits.Keys <= open.Keys
      reads this, executor
    {
      && executor.openTrades == Remaining(open, exits, id)
      && executor.steps == steps + Closes(exits, date, id)
      && closedTrades == booked + Closings(open, exits, id)
    }

    method VisitOne(id: nat, c: Candle, utcToday: int, ghost open: map<nat, Trade>, ghost steps: seq<Step>,
                    ghost booked: seq<Trade>)
      requires Wired() && Progress(open, Exits(open, c), risk.NowDate(utcToday), steps, booked, id)
      modifies this`closedTrades, stats, executor, risk
      ensures Wired() && risk.simulatedNow == old(risk.simulatedNow) && executor.nextId == old(executor.nextId)
      ensures Progress(open, Exits(open, c), old(risk.NowDate(utcToday)), steps, booked, id + 1)
    {
      hide Wired, ClosedTrade, LevelOn, Hit, Exits, Remaining, Closes, Closings;
      OneMoreExit(open, Exits(open, c), risk.NowDate(utcToday), id, steps, booked);
      ExitKeys(open, c);
      if id in executor.openTrades {
        CheckOne(id, c, utcToday);
      }
    }

    /** The executor is in the state its steps lead to. */
    lemma InState()
      requires Wired()
      ensures executor.View() == After(executor.account, executor.steps) && executor.risk == risk
      ensures executor.account.cfg == risk.settings && executor.account.start == risk.start
    {
      hide After;
    }

    /** One open trade: another symbol's is skipped; the stop comes first, then the target. */
    method CheckOne(id: nat, c: Candle, utcToday: int)
      requires Wired() && id in executor.openTrades
      modifies this`closedTrades, stats, executor, risk
      ensures Wired() && risk.simulatedNow == old(risk.simulatedNow) && executor.nextId == old(executor.nextId)
      ensures var t := old(executor.openTrades)[id];
              var level := LevelOn(t, c);
              if Hit(t, c) then
                && executor.openTrades == old(executor.openTrades) - {id}
                && executor.steps == old(executor.steps) + [Close(id, level, old(risk.NowDate(utcToday)))]
                && closedTrades == old(closedTrades) + [ClosedTrade(t, level)]
              else
                && executor.openTrades == old(executor.openTrades) && executor.steps == old(executor.steps)
                && closedTrades == old(closedTrades)
    {
      hide Wired, ClosedTrade;
      var trade := executor.openTrades[id];
      if trade.inst.symbol != c.symbol {
        return;
      }
      if trade.side == Long {
        if c.low <= trade.stop {
          var t := CloseAndPersist(id, trade.stop, utcToday);
        } else if c.high >= trade.target {
          var t := CloseAndPersist(id, trade.target, utcToday);
        }
      } else {
        if c.high >= trade.stop {
          var t := CloseAndPersist(id, trade.stop, utcToday);
        } else if c.low <= trade.target {
          var t := CloseAndPersist(id, trade.target, utcToday);
        }
      }
    }

    /** `handle_signal` against the paper broker, which fills at the latest quote or fails without one. */
    method HandleSignal(signal: Signal, utcToday: int)
      requires Wired()
      modifies executor, risk
      ensures Wired() && closedTrades == old(closedTrades) && risk.simulatedNow == old(risk.simulatedNow)
      ensures executor.steps == old(executor.steps)
              + Answered(executor.account, After(executor.account, old(executor.steps)), old(risk.NowDate(utcToday)),
                         signal, spreadPips, quotes)
    {
      hide After, Apply, Decide, ClosePnl;
      ghost var s, date := executor.View(), risk.NowDate(utcToday);
      var id := executor.HandleSignal(signal, Some(spreadPips), utcToday);
      BooksOfStep(executor.account, s, Handle(date, signal, Some(spreadPips)));
      if id.None? {
        return;
      }
      if signal.inst.symbol !in quotes {
        executor.BrokerFailed(id.value);
        return;
      }
      var quote := quotes[signal.inst.symbol];
      var fill := if signal.side == Long then quote.ask else quote.bid;
      var t := executor.BrokerFilled(id.value, Some(fill), utcToday);
    }

    /** One row: quote, clock, exits, then the strategy's answer. */
    method ProcessRow(row: Row, utcToday: int)
      requires Valid()
      modifies this, stats, executor, risk
      ensures Valid() && rows == old(rows) + [row] && risk.simulatedNow == Some(row.date)
      ensures executor.steps == WithRow(executor.account, spreadPips, old(executor.steps), row, quotes)
      ensures BarBooked(old(executor.openTrades), old(executor.steps), old(closedTrades), row)
      ensures DistinctTrades(closedTrades)
      ensures risk.currentBalance == executor.account.initial.balance + TotalPnl(closedTrades)
    {
      var half := spreadPips * row.inst.pipSize / 2.0;
      assert Quote(row.candle.close - half, row.candle.close + half) == QuoteOf(row, spreadPips);
      hide QuoteOf, Wired, Answered, Ledger, After, ReplaySteps, WithExits, ExitedOn, Quotes, DistinctTrades, TotalPnl;
      OneMoreRow(executor.account, spreadPips, rows, row);
      RowBooks(executor.account, spreadPips, rows, row);
      NewQuote(row.candle.symbol, Quote(row.candle.close - half, row.candle.close + half), row.date);
      rows := rows + [row];
      CheckSlTp(row.candle, utcToday);
      if row.signal.Some? {
        HandleSignal(row.signal.value, utcToday);
      }
      OnAccount();
    }

    lemma OnAccount()
      requires Wired()
      ensures risk.currentBalance == After(executor.account, executor.steps).risk.balance
    {
      hide After;
    }

    /** What the row's bar added to the list: the trades it hit, as the run stood before the signal. */
    ghost predicate BarBooked(open: map<nat, Trade>, steps: seq<Step>, booked: seq<Trade>, row: Row)
      reads this, executor
    {
      && booked <= closedTrades
      && ExitedOn(open, After(executor.account, WithExits(executor.account, steps, row.candle, row.date)).open,
                  closedTrades[|booked|..], row.candle)
    }

    /** Push the bar's quote and set the risk clock. */
    method NewQuote(symbol: string, quote: Quote, date: int)
      requires Wired()
      modifies this`quotes, risk`simulatedNow
      ensures Wired() && closedTrades == old(closedTrades) && risk.simulatedNow == Some(date)
      ensures quotes == old(quotes)[symbol := quote] && executor.View() == old(executor.View())
    {
      quotes := quotes[symbol := quote];
      risk.SetSimulatedTime(date);
    }

    /** The epilogue: close what is left at the last quote, and book each such trade a second time. */
    method ForceClose(utcToday: int)
      requires Valid()
      modifies this`closedTrades, stats, executor, risk
      ensures Wired() && executor.openTrades == map[]
      ensures executor.steps == WholeReplay(executor.account, spreadPips, rows, old(risk.NowDate(utcToday)))
      ensures closedTrades == Regular(executor.account, spreadPips, rows)
                              + Doubled(Forced(executor.account, spreadPips, rows))
    {
      BeforeEpilogue(risk.NowDate(utcToday));
      hide Valid, Regular, Forced, WholeReplay, LastPrices, Remaining, Closes, Closings, Doubled, Quoted;
      CloseRest(utcToday);
    }

    method CloseRest(utcToday: int)
      requires Wired() && Quoted(executor.openTrades, quotes)
      modifies this`closedTrades, stats, executor, risk
      ensures Wired()
      ensures ForcedSoFar(old(executor.openTrades), LastPrices(old(executor.openTrades), quotes),
                          old(risk.NowDate(utcToday)),
                          old(executor.steps), old(closedTrades), old(executor.nextId))
    {
      ghost var open, steps, booked := executor.openTrades, executor.steps, closedTrades;
      ghost var prices, date := LastPrices(open, quotes), risk.NowDate(utcToday);
      hide Wired, LastPrices, Remaining, Closes, Closings, Doubled, Quoted;
      NoExitYet(open, prices, date, steps, booked);
      NothingDoubled(open, prices, booked);
      for id := 0 to executor.nextId
        invariant Wired() && risk.simulatedNow == old(risk.simulatedNow) && executor.nextId == old(executor.nextId)
        invariant ForcedSoFar(open, prices, date, steps, booked, id)
      {
        ForceOne(id, utcToday, open, prices, steps, booked);
      }
    }

    lemma BeforeEpilogue(date: int)
      requires Valid()
      ensures Wired() && Quoted(executor.openTrades, quotes)
      ensures var a, prices := executor.account, LastPrices(executor.openTrades, quotes);
              && closedTrades == Regular(a, spreadPips, rows)
              && WholeReplay(a, spreadPips, rows, date) == executor.steps + Closes(prices, date, executor.nextId)
              && Forced(a, spreadPips, rows) == Closings(executor.openTrades, prices, executor.nextId)
              && Remaining(executor.openTrades, prices, executor.nextId) == map[]
    {
      hide Wired, Quotes, ReplaySteps, LastPrices, Closes, Closings, Ledger, After, Quoted;
      InState();
      OpenTradesAreQuoted(executor.account, spreadPips, rows);
      AllPriced(executor.openTrades, quotes);
      IdsStayDistinct(executor.account, executor.steps);
    }

    /** As `Progress`, but each trade is booked twice. */
    ghost predicate ForcedSoFar(open: map<nat, Trade>, prices: map<nat, real>, date: int, steps: seq<Step>,
                                booked: seq<Trade>, id: nat)
      requires prices.Keys <= open.Keys
      reads this, executor
    {
      && executor.openTrades == Remaining(open, prices, id)
      && executor.steps == steps + Closes(prices, date, id)
      && closedTrades == booked + Doubled(Closings(open, prices, id))
    }

    method ForceOne(id: nat, utcToday: int, ghost open: map<nat, Trade>, ghost prices: map<nat, real>,
                    ghost steps: seq<Step>, ghost booked: seq<Trade>)
      requires prices == LastPrices(open, quotes) && Quoted(open, quotes)
      requires Wired() && ForcedSoFar(open, prices, risk.NowDate(utcToday), steps, booked, id)
      modifies this`closedTrades, stats, executor, risk
      ensures Wired() && risk.simulatedNow == old(risk.simulatedNow) && executor.nextId == old(executor.nextId)
      ensures ForcedSoFar(open, prices, old(risk.NowDate(utcToday)), steps, booked, id + 1)
    {
      AllPriced(open, quotes);
      hide Wired, Ledger, ClosedTrade, Remaining, Closes, Closings, Doubled;
      OneMoreExit(open, prices, risk.NowDate(utcToday), id, steps, []);
      DoubledExit(open, prices, id, booked);
      if id in executor.openTrades {
        var trade := executor.openTrades[id];
        var quote := quotes[trade.inst.symbol];
        var exit := if trade.side == Long then quote.bid else quote.ask;
        var t := CloseAndPersist(id, exit, utcToday);
        BookAgain(t);
      }
    }

    method BookAgain(t: Trade)
      requires Wired() && t.status != Open
      modifies this`closedTrades, stats
      ensures Wired() && closedTrades == old(closedTrades) + [t]
    {
      closedTrades := closedTrades + [t];
      stats.Record(t);
    }
  }

  /** A replay starts on a fresh account at its own mark. */
  lemma ReplayStartsFresh(settings: Settings, utcToday: int)
    ensures var a := NewAccount(settings, utcToday);
            && a.cfg == settings && a.start == settings.accountBalance && Fresh(a.initial)
            && a.initial.balance == a.initial.hwm == settings.accountBalance && a.initial.today == utcToday
  {
  }

  /** The account a replay starts from. */
  function NewAccount(settings: Settings, utcToday: int): (r: Account)
  {
    var start := settings.accountBalance;
    Account(settings, start, Initial(start, 0.0, 0.0, utcToday))
  }

  datatype Result = Result(
    trades: seq<Trade>, equityCurve: seq<real>, startingBalance: real, finalBalance: real,
    totalPnl: real, maxDrawdownPct: real, totalBars: nat)

  /** A whole replay. The account books every trade once; the report books the forced ones twice, so the two
      agree exactly when those made nothing together. */
  method RunReplay(settings: Settings, spreadPips: real, rows: seq<Row>, utcToday: int)
    returns (r: Result, finalAccount: real)
    ensures var a := NewAccount(settings, utcToday);
            var regular, forced := Regular(a, spreadPips, rows), Forced(a, spreadPips, rows);
            && r.trades == regular + Doubled(forced)
            && finalAccount == settings.accountBalance + TotalPnl(regular) + TotalPnl(forced)
            && r.totalPnl == TotalPnl(regular) + 2.0 * TotalPnl(forced)
            && r.finalBalance == settings.accountBalance + r.totalPnl
            && r.finalBalance - finalAccount == TotalPnl(forced)
            && (r.finalBalance == finalAccount <==> TotalPnl(forced) == 0.0)
    ensures r.totalBars == |rows| && r.startingBalance == settings.accountBalance
    ensures Drawdown.IsLargestShareOfPeak(settings.accountBalance, r.equityCurve, r.maxDrawdownPct)
    ensures IsCurve(r.equityCurve, settings.accountBalance, r.trades)
  {
    var engine := new BacktestEngine(settings, spreadPips, utcToday);
    var bars := 0;
    hide BacktestEngine.Valid, BacktestEngine.Wired, Regular, Forced, WholeReplay, Doubled, TotalPnl, IsCurve, WithRow,
        BacktestEngine.BarBooked,
         DistinctTrades, Drawdown.IsLargestShareOfPeak;
    for n := 0 to |rows|
      invariant engine.Valid() && engine.rows == rows[..n] && bars == n
      invariant engine.executor.account == NewAccount(settings, utcToday) && engine.spreadPips == spreadPips
      invariant fresh(engine) && fresh(engine.stats) && fresh(engine.executor) && fresh(engine.risk)
    {
      engine.ProcessRow(rows[n], utcToday);
      bars := bars + 1;
    }
    assert rows[..|rows|] == rows;
    ghost var date := engine.risk.NowDate(utcToday);
    engine.ForceClose(utcToday);
    r, finalAccount := ReportOf(engine, bars, rows, date);
  }

  method ReportOf(engine: BacktestEngine, bars: nat, ghost rows: seq<Row>, ghost date: int)
    returns (r: Result, finalAccount: real)
    requires engine.Wired()
    requires engine.executor.steps == WholeReplay(engine.executor.account, engine.spreadPips, rows, date)
    requires engine.closedTrades == Regular(engine.executor.account, engine.spreadPips, rows)
                                    + Doubled(Forced(engine.executor.account, engine.spreadPips, rows))
    ensures var regular := Regular(engine.executor.account, engine.spreadPips, rows);
            var forced := Forced(engine.executor.account, engine.spreadPips, rows);
            && r.trades == regular + Doubled(forced)
            && finalAccount == engine.executor.account.initial.balance + TotalPnl(regular) + TotalPnl(forced)
            && r.totalPnl == TotalPnl(regular) + 2.0 * TotalPnl(forced)
    ensures r.finalBalance == engine.risk.start + r.totalPnl
    ensures r.totalBars == bars && r.startingBalance == engine.risk.start
    ensures Drawdown.IsLargestShareOfPeak(engine.risk.start, r.equityCurve, r.maxDrawdownPct)
    ensures IsCurve(r.equityCurve, engine.risk.start, r.trades)
  {
    var total := engine.stats.GetTotalPnl();
    var dd := engine.stats.MaxDrawdown();
    var curve := engine.stats.equityCurve;
    ghost var regular := Regular(engine.executor.account, engine.spreadPips, rows);
    ghost var forced := Forced(engine.executor.account, engine.spreadPips, rows);
    hide TotalPnl, Doubled, Regular, Forced, After, WholeReplay, LeavesAs, DistinctTrades;
    engine.OnAccount();
    EpilogueClosesTheRest(engine.executor.account, engine.spreadPips, rows, date);
    PnlOfConcat(regular, Doubled(forced));
    PnlDoubles(forced);
    r := Result(engine.closedTrades, curve, engine.risk.start, curve[|curve| - 1], total, dd, bars);
    finalAccount := engine.risk.currentBalance;
  }
}
