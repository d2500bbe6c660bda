/** The bar-by-bar simulation of app/backtesting/runner.py: one trade at a time, a stop trailed to
    break-even, a fixed 0.1% target, and a three-bar cooldown. */
module Runner {
  import opened Foundations
  import opened Candles
  import opened StructureSpec
  import opened Trading
  import opened Strategies
  import opened Drawdown

  const TARGET: real := 0.001
  const LOCK: real := 0.0005
  const COOLDOWN: int := 3

  datatype ExitReason = Running | Target | StopLoss | EndOfData

  /** `sl` is the stop in force; the signal keeps the initial one. */
  datatype SimTrade = SimTrade(
    signal: Signal, entryIndex: nat, sl: real, exitIndex: nat, exitPrice: real, reason: ExitReason, pnl: real)

  datatype Report = Report(
    signalsGenerated: nat, trades: seq<SimTrade>, wins: nat, losses: nat,
    netPnl: real, grossProfit: real, grossLoss: real, maxDrawdown: real)

  // ---- when and how a trade ends -----------------------------------------------------------

  /** Profit of a position at a bar's close, as a share of its entry price. */
  function Profit(s: Signal, c: Candle): (r: real)
    requires s.entry != 0.0
  {
    (if s.side == Long then c.close - s.entry else s.entry - c.close) / s.entry
  }

  function Gain(s: Signal, exit: real): (r: real)
  {
    if s.side == Long then exit - s.entry else s.entry - exit
  }

  function TargetPrice(s: Signal): (r: real)
  {
    if s.side == Long then s.entry * 1.001 else s.entry * 0.999
  }

  function BreakEven(s: Signal, stop: real): (r: real)
  {
    if s.side == Long then Max(stop, s.entry) else Min(stop, s.entry)
  }

  predicate StopHit(s: Signal, c: Candle, stop: real)
  {
    if s.side == Long then c.low <= stop else c.high >= stop
  }

  /** Some bar after the entry, up to bar `j`, closed at least half way to the target. */
  ghost predicate Locked(bars: seq<Candle>, s: Signal, entry: nat, j: int)
    requires s.entry != 0.0
  {
    exists i :: entry < i <= j && i < |bars| && Profit(s, bars[i]) >= LOCK
  }

  /** The stop in force at bar `j`: the signal's, or break-even once a bar has locked it in. */
  ghost function StopAt(bars: seq<Candle>, s: Signal, entry: nat, j: int): (r: real)
    requires s.entry != 0.0
  {
    if Locked(bars, s, entry, j) then BreakEven(s, s.stop) else s.stop
  }

  ghost predicate ExitsAt(bars: seq<Candle>, s: Signal, entry: nat, j: nat)
    requires s.entry != 0.0 && j < |bars|
  {
    Profit(s, bars[j]) >= TARGET || StopHit(s, bars[j], StopAt(bars, s, entry, j))
  }

  ghost predicate StaysOpen(bars: seq<Candle>, s: Signal, entry: nat, end: nat)
    requires s.entry != 0.0 && end <= |bars|
  {
    forall i :: entry < i < end ==> !ExitsAt(bars, s, entry, i)
  }

  /** `t` is what the bars make of a trade entered on its signal at its entry bar: it ends at the first bar
      that exits it, the target before the stop, or with the data. */
  ghost predicate IsOutcome(bars: seq<Candle>, t: SimTrade)
  {
    var s, entry, exit := t.signal, t.entryIndex, t.exitIndex;
    && s.Accepted() && entry <= exit < |bars| && s.entry == bars[entry].close
    && StaysOpen(bars, s, entry, exit)
    && t.pnl == Gain(s, t.exitPrice)
    && match t.reason
       case Running => false
       case Target =>
         entry < exit && Profit(s, bars[exit]) >= TARGET && t.exitPrice == TargetPrice(s)
         && t.sl == StopAt(bars, s, entry, exit - 1)
       case StopLoss =>
         entry < exit && Profit(s, bars[exit]) < TARGET && StopHit(s, bars[exit], t.sl) && t.exitPrice == t.sl
         && t.sl == StopAt(bars, s, entry, exit)
       case EndOfData =>
         exit == |bars| - 1 && (entry < exit ==> !ExitsAt(bars, s, entry, exit)) && t.exitPrice == bars[exit].close
         && t.sl == StopAt(bars, s, entry, exit)
  }

  /** An open trade's own record agrees with the bars seen so far. */
  ghost predicate IsOpenTrade(bars: seq<Candle>, t: SimTrade, seen: nat)
  {
    && t.signal.Accepted() && t.reason == Running && t.entryIndex < seen <= |bars|
    && t.signal.entry == bars[t.entryIndex].close
    && StaysOpen(bars, t.signal, t.entryIndex, seen)
    && t.sl == StopAt(bars, t.signal, t.entryIndex, seen - 1)
  }

  // ---- the bound on every trade ---------------------------------------------------------------

  /** A trailed stop lies between the signal's stop and the entry: it only ever moves toward profit. */
  lemma StopOnlyImproves(bars: seq<Candle>, s: Signal, entry: nat, i: int, j: int)
    requires s.Accepted() && i <= j
    ensures match s.side
            case Long => s.stop <= StopAt(bars, s, entry, i) <= StopAt(bars, s, entry, j) <= s.entry
            case Short => s.entry <= StopAt(bars, s, entry, j) <= StopAt(bars, s, entry, i) <= s.stop
  {
  }

  lemma BelowTarget(s: Signal, c: Candle)
    requires s.entry > 0.0
    ensures Profit(s, c) < TARGET <==> Gain(s, c.close) < TARGET * s.entry
  {
    QuotientAtLeast(Gain(s, c.close), TARGET, s.entry);
  }

  /** Every trade risks at most its initial stop distance and gains at most 0.1% of its entry, whether it
      ends at the target, at the trailed stop or with the data. */
  lemma TradeIsBounded(bars: seq<Candle>, t: SimTrade)
    requires IsOutcome(bars, t) && bars[t.exitIndex].WellFormed()
    ensures -t.signal.RiskDistance() <= t.pnl <= TARGET * t.signal.entry
  {
    hide Profit, Locked, StaysOpen;
    var s, exit := t.signal, t.exitIndex;
    assert TARGET * s.entry > 0.0;
    StopOnlyImproves(bars, s, t.entryIndex, exit, exit);
    BelowTarget(s, bars[exit]);
  }

  // ---- the simulation ----------------------------------------------------------------------------

  /** Bar `i` reaches the strategy: nothing is open there and the last entry is three bars old. */
  ghost predicate Idle(trades: seq<SimTrade>, i: nat)
  {
    forall k :: 0 <= k < |trades| && trades[k].entryIndex < i ==>
      trades[k].exitIndex <= i && trades[k].reason != EndOfData && i - trades[k].entryIndex >= COOLDOWN
  }

  /** Ordered, non-overlapping, and at least three bars between entries. */
  ghost predicate Scheduled(trades: seq<SimTrade>)
  {
    forall i, j :: 0 <= i < j < |trades| ==>
      trades[i].exitIndex <= trades[j].entryIndex && trades[i].entryIndex + COOLDOWN <= trades[j].entryIndex
  }

  /** The bars at the positions `fed`. */
  function Shown(bars: seq<Candle>, fed: seq<nat>): (r: seq<Candle>)
  {
    if fed == [] then []
    else
      var n := |fed| - 1;
      Shown(bars, fed[..n]) + if fed[n] < |bars| then [bars[fed[n]]] else []
  }

  /** The bars among the first `n` shown to the strategy are exactly the idle ones, in order. */
  ghost predicate ShowsIdleBars(trades: seq<SimTrade>, fed: seq<nat>, n: nat)
  {
    && (forall k :: 0 <= k < |fed| ==> fed[k] < n)
    && (forall j, k :: 0 <= j < k < |fed| ==> fed[j] < fed[k])
    && forall i :: 0 <= i < n ==> (i in fed <==> Idle(trades, i))
  }

  ghost predicate SignalledAt(u: Setup, bars: seq<Candle>, fed: seq<nat>, k: nat, s: Signal)
    requires k < |fed|
  {
    var shown := Shown(bars, fed[..k + 1]);
    shown != [] && Answer(u, shown) == Fired(s)
  }

  /** Some trade was entered on shown bar `k` with signal `s`. */
  ghost predicate HasEntry(trades: seq<SimTrade>, fed: seq<nat>, k: nat, s: Signal)
    requires k < |fed|
  {
    exists j :: 0 <= j < |trades| && trades[j].entryIndex == fed[k] && trades[j].signal == s
  }

  /** The strategy answered trade `t`'s entry bar with its signal. */
  ghost predicate HasSignal(u: Setup, bars: seq<Candle>, fed: seq<nat>, t: SimTrade)
  {
    exists k :: 0 <= k < |fed| && t.entryIndex == fed[k] && SignalledAt(u, bars, fed, k, t.signal)
  }

  /** A trade is entered on a shown bar exactly when the strategy answers with its signal. */
  ghost predicate EntersOnSignals(u: Setup, bars: seq<Candle>, trades: seq<SimTrade>, fed: seq<nat>)
  {
    && (forall k, s :: 0 <= k < |fed| && SignalledAt(u, bars, fed, k, s) ==> HasEntry(trades, fed, k, s))
    && forall j :: 0 <= j < |trades| ==> HasSignal(u, bars, fed, trades[j])
  }

  // ---- one bar of an open trade ---------------------------------------------------------------------

  lemma LockedStep(bars: seq<Candle>, s: Signal, entry: nat, j: nat)
    requires s.entry != 0.0 && entry < j < |bars|
    ensures Locked(bars, s, entry, j) <==> Locked(bars, s, entry, j - 1) || Profit(s, bars[j]) >= LOCK
  {
    hide Profit;
  }

  /** The exit checks of one bar, target first, then the trailed stop. */
  method Manage(bars: seq<Candle>, t: SimTrade, idx: nat) returns (r: SimTrade)
    requires idx < |bars| && IsOpenTrade(bars, t, idx)
    ensures r.signal == t.signal && r.entryIndex == t.entryIndex
    ensures r.reason == Running ==> IsOpenTrade(bars, r, idx + 1)
    ensures r.reason != Running ==> IsOutcome(bars, r) && r.exitIndex == idx && r.reason != EndOfData
  {
    hide Locked;
    var c, ep := bars[idx], t.signal.entry;
    LockedStep(bars, t.signal, t.entryIndex, idx);
    r := t;
    if t.signal.side == Long {
      var profit := (c.close - ep) / ep;
      if profit >= TARGET {
        r := r.(exitIndex := idx, exitPrice := ep * 1.001, reason := Target, pnl := ep * 1.001 - ep);
        return;
      } else if profit >= LOCK {
        r := r.(sl := Max(r.sl, ep));
      }
      if c.low <= r.sl {
        r := r.(exitIndex := idx, exitPrice := r.sl, reason := StopLoss, pnl := r.sl - ep);
      }
    } else {
      var profit := (ep - c.close) / ep;
      if profit >= TARGET {
        r := r.(exitIndex := idx, exitPrice := ep * 0.999, reason := Target, pnl := ep - ep * 0.999);
        return;
      } else if profit >= LOCK {
        r := r.(sl := Min(r.sl, ep));
      }
      if c.high >= r.sl {
        r := r.(exitIndex := idx, exitPrice := r.sl, reason := StopLoss, pnl := ep - r.sl);
      }
    }
  }

  // ---- the strategy's side of the loop -----------------------------------------------------------------

  ghost predicate HasSeen(strategy: SmcScalpStrategy, u: Setup, shown: seq<Candle>)
    reads strategy, strategy.ms, strategy.series
  {
    && strategy.Valid()
    && u == Setup(strategy.params, strategy.ms.cfg, strategy.sessionActive, strategy.sessionName, strategy.ms.htfBias)
    && MemoryAfter(u, shown) == Memory(strategy.ms.history, strategy.lastSignalTs)
  }

  method Ask(strategy: SmcScalpStrategy, c: Candle, ghost u: Setup, ghost shown: seq<Candle>) returns (r: Outcome)
    requires HasSeen(strategy, u, shown)
    modifies strategy`lastSignalTs, strategy.ms, strategy.series
    ensures HasSeen(strategy, u, shown + [c])
    ensures r == Answer(u, shown + [c])
    ensures r.Fired? ==> r.signal.Accepted() && r.signal.entry == c.close
                         && r.signal.confidence >= u.params.minConfluence as real / 100.0
  {
    hide Decide;
    assert (shown + [c])[..|shown|] == shown;
    r := strategy.OnCandle(c);
    if r.Fired? {
      FiredSignal(u, MemoryAfter(u, shown), c);
    }
  }

  // ---- bookkeeping lemmas -----------------------------------------------------------------------------------

  /** Every recorded trade ended before bar `n`, in schedule, as the bars say. */
  ghost predicate Recorded(bars: seq<Candle>, trades: seq<SimTrade>, n: nat)
  {
    && Scheduled(trades)
    && forall k :: 0 <= k < |trades| ==>
        IsOutcome(bars, trades[k]) && trades[k].exitIndex < n && trades[k].reason != EndOfData
  }

  /** A trade that has not ended occupies every bar after its entry. */
  ghost predicate IdleSoFar(trades: seq<SimTrade>, open: Option<SimTrade>, i: nat)
  {
    Idle(trades, i) && (open.Some? ==> i <= open.value.entryIndex)
  }

  ghost predicate ShownSoFar(trades: seq<SimTrade>, open: Option<SimTrade>, fed: seq<nat>, n: nat)
  {
    && (forall k :: 0 <= k < |fed| ==> fed[k] < n)
    && (forall j, k :: 0 <= j < k < |fed| ==> fed[j] < fed[k])
    && forall i :: 0 <= i < n ==> (i in fed <==> IdleSoFar(trades, open, i))
  }

  function WithOpen(trades: seq<SimTrade>, open: Option<SimTrade>): (r: seq<SimTrade>)
  {
    if open.None? then trades else trades + [open.value]
  }

  /** Recording a trade that ended at bar `n`, or with the data, leaves the earlier bars as they were. */
  lemma RecordKeepsShown(trades: seq<SimTrade>, t: SimTrade, done: SimTrade, fed: seq<nat>, n: nat)
    requires ShownSoFar(trades, Some(t), fed, n)
    requires done.entryIndex == t.entryIndex && (done.exitIndex >= n || done.reason == EndOfData)
    ensures ShownSoFar(trades + [done], None, fed, n)
  {
    forall i | 0 <= i < n ensures IdleSoFar(trades, Some(t), i) <==> IdleSoFar(trades + [done], None, i) {
      var more := trades + [done];
      assert more[|trades|] == done;
      assert forall k :: 0 <= k < |trades| ==> more[k] == trades[k];
    }
  }

  lemma RecordKeepsSchedule(bars: seq<Candle>, trades: seq<SimTrade>, done: SimTrade, n: nat)
    requires Recorded(bars, trades, n) && IsOutcome(bars, done)
    requires forall k :: 0 <= k < |trades| ==>
               trades[k].exitIndex <= done.entryIndex && trades[k].entryIndex + COOLDOWN <= done.entryIndex
    ensures Scheduled(trades + [done])
    ensures done.exitIndex == n && done.reason != EndOfData ==> Recorded(bars, trades + [done], n + 1)
  {
    hide IsOutcome;
  }

  /** Swapping a trade's running record for its final one keeps which signal it was entered on. */
  lemma RecordKeepsSignals(u: Setup, bars: seq<Candle>, trades: seq<SimTrade>, t: SimTrade, done: SimTrade,
                           fed: seq<nat>)
    requires EntersOnSignals(u, bars, trades + [t], fed)
    requires done.entryIndex == t.entryIndex && done.signal == t.signal
    ensures EntersOnSignals(u, bars, trades + [done], fed)
  {
    hide SignalledAt;
    var was, more := trades + [t], trades + [done];
    assert forall j :: 0 <= j < |was| ==> was[j].entryIndex == more[j].entryIndex && was[j].signal == more[j].signal;
    forall k, s | 0 <= k < |fed| && SignalledAt(u, bars, fed, k, s) ensures HasEntry(more, fed, k, s) {
      assert HasEntry(was, fed, k, s);
    }
    forall j | 0 <= j < |more| ensures HasSignal(u, bars, fed, more[j]) {
      assert HasSignal(u, bars, fed, was[j]);
    }
  }

  lemma SignalKept(u: Setup, bars: seq<Candle>, fed: seq<nat>, n: nat, k: nat, s: Signal)
    requires k < |fed|
    ensures SignalledAt(u, bars, fed + [n], k, s) <==> SignalledAt(u, bars, fed, k, s)
  {
    assert (fed + [n])[..k + 1] == fed[..k + 1];
  }

  /** Showing one more bar: a trade is entered on it exactly when the answer is a signal. */
  lemma ShowOneMore(u: Setup, bars: seq<Candle>, trades: seq<SimTrade>, open: Option<SimTrade>, fed: seq<nat>, n: nat)
    requires n < |bars| && EntersOnSignals(u, bars, trades, fed)
    requires var answer := Answer(u, Shown(bars, fed) + [bars[n]]);
             if answer.Fired? then open.Some? && open.value.entryIndex == n && open.value.signal == answer.signal
             else open.None?
    ensures EntersOnSignals(u, bars, WithOpen(trades, open), fed + [n])
  {
    hide Answer, Shown, SignalledAt, HasEntry, HasSignal;
    var more, all := fed + [n], WithOpen(trades, open);
    AnswerToNewest(u, bars, fed, n);
    forall k, s | 0 <= k < |more| && SignalledAt(u, bars, more, k, s) ensures HasEntry(all, more, k, s) {
      if k < |fed| {
        SignalKept(u, bars, fed, n, k, s);
        EntryKept(trades, open, fed, n, k, s);
      } else {
        NewestEntry(trades, open, fed, n, s);
      }
    }
    forall j | 0 <= j < |all| ensures HasSignal(u, bars, more, all[j]) {
      if j < |trades| {
        HasSignalKept(u, bars, fed, n, trades[j]);
      } else {
        NewestSignal(u, bars, fed, n, all[j]);
      }
    }
  }

  lemma EntryKept(trades: seq<SimTrade>, open: Option<SimTrade>, fed: seq<nat>, n: nat, k: nat, s: Signal)
    requires k < |fed| && HasEntry(trades, fed, k, s)
    ensures HasEntry(WithOpen(trades, open), fed + [n], k, s)
  {
    var all := WithOpen(trades, open);
    var j :| 0 <= j < |trades| && trades[j].entryIndex == fed[k] && trades[j].signal == s;
    assert all[j] == trades[j];
  }

  lemma NewestEntry(trades: seq<SimTrade>, open: Option<SimTrade>, fed: seq<nat>, n: nat, s: Signal)
    requires open.Some? && open.value.entryIndex == n && open.value.signal == s
    ensures HasEntry(WithOpen(trades, open), fed + [n], |fed|, s)
  {
    assert WithOpen(trades, open)[|trades|] == open.value;
  }

  lemma HasSignalKept(u: Setup, bars: seq<Candle>, fed: seq<nat>, n: nat, t: SimTrade)
    requires HasSignal(u, bars, fed, t)
    ensures HasSignal(u, bars, fed + [n], t)
  {
    hide SignalledAt;
    var k :| 0 <= k < |fed| && t.entryIndex == fed[k] && SignalledAt(u, bars, fed, k, t.signal);
    SignalKept(u, bars, fed, n, k, t.signal);
    assert (fed + [n])[k] == fed[k];
  }

  lemma NewestSignal(u: Setup, bars: seq<Candle>, fed: seq<nat>, n: nat, t: SimTrade)
    requires t.entryIndex == n && SignalledAt(u, bars, fed + [n], |fed|, t.signal)
    ensures HasSignal(u, bars, fed + [n], t)
  {
  }

  lemma AnswerToNewest(u: Setup, bars: seq<Candle>, fed: seq<nat>, n: nat)
    requires n < |bars|
    ensures forall s :: SignalledAt(u, bars, fed + [n], |fed|, s) <==>
            Answer(u, Shown(bars, fed) + [bars[n]]) == Fired(s)
  {
    assert (fed + [n])[..|fed| + 1] == fed + [n];
    ShownMore(bars, fed, n);
  }

  ghost predicate LastEntry(trades: seq<SimTrade>, last: int)
  {
    (trades == [] ==> last == -9999) && (trades != [] ==> last == trades[|trades| - 1].entryIndex)
  }

  lemma IdleNow(bars: seq<Candle>, trades: seq<SimTrade>, last: int, n: nat)
    requires Recorded(bars, trades, n + 1) && LastEntry(trades, last)
    ensures Idle(trades, n) <==> n - last >= COOLDOWN
  {
    hide IsOutcome;
    if trades != [] {
      var t := trades[|trades| - 1];
      assert t.entryIndex < t.exitIndex <= n by { OutcomeInOrder(bars, t); }
      if n - last >= COOLDOWN {
        forall k | 0 <= k < |trades| ensures n - trades[k].entryIndex >= COOLDOWN {
          assert k < |trades| - 1 ==> trades[k].entryIndex + COOLDOWN <= t.entryIndex;
        }
      }
    }
  }

  lemma OutcomeInOrder(bars: seq<Candle>, t: SimTrade)
    requires IsOutcome(bars, t)
    ensures t.entryIndex <= t.exitIndex < |bars|
    ensures t.reason != EndOfData ==> t.entryIndex < t.exitIndex
  {
  }

  lemma ShowKeepsShown(trades: seq<SimTrade>, open: Option<SimTrade>, fed: seq<nat>, n: nat, show: bool)
    requires ShownSoFar(trades, None, fed, n) && (show <==> Idle(trades, n))
    requires open.Some? ==> open.value.entryIndex == n && show
    ensures ShownSoFar(trades, open, if show then fed + [n] else fed, n + 1)
  {
    hide Idle;
  }

  // ---- metrics --------------------------------------------------------------------------------------------

  function Pnls(trades: seq<SimTrade>): (r: seq<real>)
  {
    seq(|trades|, i requires 0 <= i < |trades| => trades[i].pnl)
  }

  function EquityAfter(pnls: seq<real>, n: nat): (r: real)
    requires n <= |pnls|
  {
    Sum(pnls[..n])
  }

  /** Equity before the first trade and after each of them. */
  function EquityCurve(pnls: seq<real>): (r: seq<real>)
  {
    seq(|pnls| + 1, n requires 0 <= n <= |pnls| => EquityAfter(pnls, n))
  }

  /** The report's totals are those of its trades: nothing is lost between gross profit, gross loss and
      net profit, every trade is a win or a loss, and the drawdown is the largest drop of the equity curve. */
  ghost predicate Balances(r: Report)
  {
    && r.signalsGenerated == |r.trades| == r.wins + r.losses
    && r.netPnl == Sum(Pnls(r.trades)) == r.grossProfit - r.grossLoss
    && r.grossProfit >= 0.0 && r.grossLoss >= 0.0
    && r.wins == |set i | 0 <= i < |r.trades| && r.trades[i].pnl > 0.0|
    && IsLargestDrop(EquityCurve(Pnls(r.trades)), r.maxDrawdown)
  }

  lemma AddWin(trades: seq<SimTrade>, n: nat)
    requires n < |trades|
    ensures var was, more := (set i | 0 <= i < n && trades[i].pnl > 0.0),
            (set i | 0 <= i < n + 1 && trades[i].pnl > 0.0);
            |more| == |was| + if trades[n].pnl > 0.0 then 1 else 0
  {
    var was, more := (set i | 0 <= i < n && trades[i].pnl > 0.0), (set i | 0 <= i < n + 1 && trades[i].pnl > 0.0);
    assert more == if trades[n].pnl > 0.0 then was + {n} else was;
  }

  method Summarise(trades: seq<SimTrade>, signals: nat) returns (r: Report)
    requires signals == |trades|
    ensures r.trades == trades && Balances(r)
  {
    var pnls := Pnls(trades);
    var wins, losses, net, profit, loss := 0, 0, 0.0, 0.0, 0.0;
    var curve := [0.0];
    for n := 0 to |trades|
      invariant wins + losses == n && wins == |set i | 0 <= i < n && trades[i].pnl > 0.0|
      invariant net == profit + loss == EquityAfter(pnls, n) && profit >= 0.0 && loss <= 0.0
      invariant |curve| == n + 1 && forall m :: 0 <= m <= n ==> curve[m] == EquityAfter(pnls, m)
    {
      var pnl := trades[n].pnl;
      AddWin(trades, n);
      assert pnls[..n + 1][..n] == pnls[..n];
      if pnl > 0.0 {
        wins := wins + 1;
        profit := profit + pnl;
      } else {
        losses := losses + 1;
        loss := loss + pnl;
      }
      net := net + pnl;
      curve := curve + [curve[|curve| - 1] + pnl];
    }
    assert pnls[..|trades|] == pnls;
    assert curve == EquityCurve(pnls);
    var drawdown := MaxDrop(curve);
    r := Report(signals, trades, wins, losses, net, profit, Abs(loss), drawdown);
  }

  // ---- the run ----------------------------------------------------------------------------------------------

  ghost predicate IsRun(u: Setup, bars: seq<Candle>, trades: seq<SimTrade>, fed: seq<nat>)
  {
    && Scheduled(trades)
    && (forall k :: 0 <= k < |trades| ==> IsOutcome(bars, trades[k]))
    && ShowsIdleBars(trades, fed, |bars|)
    && EntersOnSignals(u, bars, trades, fed)
  }

  ghost predicate LoopState(u: Setup, bars: seq<Candle>, trades: seq<SimTrade>, open: Option<SimTrade>, fed: seq<nat>,
                            last: int, n: nat)
  {
    && n <= |bars| && Recorded(bars, trades, n)
    && ShownSoFar(trades, open, fed, n)
    && EntersOnSignals(u, bars, WithOpen(trades, open), fed)
    && LastEntry(WithOpen(trades, open), last)
    && (open.Some? ==> IsOpenTrade(bars, open.value, n) && Follows(trades, open.value))
  }

  /** `t` was entered after every recorded trade had ended, at least three bars after the last entry. */
  ghost predicate Follows(trades: seq<SimTrade>, t: SimTrade)
  {
    forall k :: 0 <= k < |trades| ==>
        trades[k].exitIndex <= t.entryIndex && trades[k].entryIndex + COOLDOWN <= t.entryIndex
  }

  /** The state between the exit checks and the strategy call of bar `n`. */
  ghost predicate MidState(u: Setup, bars: seq<Candle>, trades: seq<SimTrade>, open: Option<SimTrade>, fed: seq<nat>,
                           last: int, n: nat)
  {
    && n < |bars| && Recorded(bars, trades, n + 1)
    && ShownSoFar(trades, open, fed, n)
    && EntersOnSignals(u, bars, WithOpen(trades, open), fed)
    && LastEntry(WithOpen(trades, open), last)
    && (open.Some? ==> open.value.entryIndex < n && IsOpenTrade(bars, open.value, n + 1) && Follows(trades, open.value))
  }

  /** After the exit checks of bar `n`. */
  lemma ManageKeepsState(u: Setup, bars: seq<Candle>, trades: seq<SimTrade>, t: SimTrade, r: SimTrade,
                         fed: seq<nat>, last: int, n: nat)
    requires LoopState(u, bars, trades, Some(t), fed, last, n) && n < |bars|
    requires r.signal == t.signal && r.entryIndex == t.entryIndex
    requires r.reason == Running ==> IsOpenTrade(bars, r, n + 1)
    requires r.reason != Running ==> IsOutcome(bars, r) && r.exitIndex == n && r.reason != EndOfData
    ensures r.reason == Running ==> MidState(u, bars, trades, Some(r), fed, last, n)
    ensures r.reason != Running ==> MidState(u, bars, trades + [r], None, fed, last, n)
  {
    hide IsOutcome, IsOpenTrade, EntersOnSignals, Idle;
    assert WithOpen(trades, Some(t)) == trades + [t] && WithOpen(trades, Some(r)) == trades + [r];
    OpenInOrder(bars, t, n);
    RecordKeepsSignals(u, bars, trades, t, r, fed);
    if r.reason != Running {
      RecordKeepsShown(trades, t, r, fed, n);
      RecordKeepsSchedule(bars, trades, r, n);
    } else {
      assert forall i :: 0 <= i < n ==> (IdleSoFar(trades, Some(t), i) <==> IdleSoFar(trades, Some(r), i));
    }
  }

  lemma NotShown(u: Setup, bars: seq<Candle>, trades: seq<SimTrade>, open: Option<SimTrade>, fed: seq<nat>, last: int,
                 n: nat)
    requires MidState(u, bars, trades, open, fed, last, n)
    requires open.Some? || n - last < COOLDOWN
    ensures LoopState(u, bars, trades, open, fed, last, n + 1)
  {
    hide IsOutcome, IsOpenTrade, EntersOnSignals, Idle;
    if open.None? {
      IdleNow(bars, trades, last, n);
      ShowKeepsShown(trades, None, fed, n, false);
    } else {
      OpenedBefore(u, bars, trades, open.value, fed, last, n);
    }
  }

  lemma OpenInOrder(bars: seq<Candle>, t: SimTrade, n: nat)
    requires IsOpenTrade(bars, t, n)
    ensures t.entryIndex < n
  {
  }

  lemma OpenedBefore(u: Setup, bars: seq<Candle>, trades: seq<SimTrade>, t: SimTrade, fed: seq<nat>, last: int, n: nat)
    requires ShownSoFar(trades, Some(t), fed, n) && t.entryIndex < n
    ensures ShownSoFar(trades, Some(t), fed, n + 1)
  {
    hide Idle;
  }

  lemma ShownBar(u: Setup, bars: seq<Candle>, trades: seq<SimTrade>, open: Option<SimTrade>, fed: seq<nat>, last: int,
                 n: nat)
    requires MidState(u, bars, trades, None, fed, last, n) && n - last >= COOLDOWN
    requires var answer := Answer(u, Shown(bars, fed) + [bars[n]]);
             if answer.Fired? then
               && answer.signal.Accepted() && answer.signal.entry == bars[n].close
               && open == Some(SimTrade(answer.signal, n, answer.signal.stop, 0, 0.0, Running, 0.0))
             else open.None?
    ensures LoopState(u, bars, trades, open, fed + [n], if open.Some? then n else last, n + 1)
  {
    hide IsOutcome, EntersOnSignals, Idle, Answer, Shown;
    IdleNow(bars, trades, last, n);
    ShowKeepsShown(trades, open, fed, n, true);
    ShowOneMore(u, bars, trades, open, fed, n);
    if open.Some? {
      NewTradeFollows(bars, trades, open.value, n);
      NewTradeIsOpen(bars, open.value, n);
    }
  }

  lemma NewTradeFollows(bars: seq<Candle>, trades: seq<SimTrade>, t: SimTrade, n: nat)
    requires Recorded(bars, trades, n + 1) && Idle(trades, n) && t.entryIndex == n
    ensures Follows(trades, t)
  {
    forall k | 0 <= k < |trades| ensures trades[k].entryIndex < n {
      OutcomeInOrder(bars, trades[k]);
    }
  }

  lemma NewTradeIsOpen(bars: seq<Candle>, t: SimTrade, n: nat)
    requires n < |bars| && t.entryIndex == n && t.reason == Running && t.sl == t.signal.stop
    requires t.signal.Accepted() && t.signal.entry == bars[n].close
    ensures IsOpenTrade(bars, t, n + 1)
  {
  }

  function Finished(bars: seq<Candle>, t: SimTrade): (r: SimTrade)
    requires bars != []
  {
    var exit := bars[|bars| - 1].close;
    t.(exitIndex := |bars| - 1, exitPrice := exit, reason := EndOfData, pnl := Gain(t.signal, exit))
  }

  /** What is still open ends with the data, at the last close. */
  lemma EndOfRun(u: Setup, bars: seq<Candle>, trades: seq<SimTrade>, open: Option<SimTrade>, fed: seq<nat>, last: int,
                 done: seq<SimTrade>)
    requires bars != [] && LoopState(u, bars, trades, open, fed, last, |bars|)
    requires done == if open.None? then trades else trades + [Finished(bars, open.value)]
    ensures IsRun(u, bars, done, fed)
  {
    hide EntersOnSignals, Idle, IsOutcome, IsOpenTrade, Scheduled, Follows;
    if open.Some? {
      var t, final := open.value, done[|trades|];
      assert WithOpen(trades, open) == trades + [t] && done == trades + [final];
      EndedByData(bars, t);
      RecordKeepsSignals(u, bars, trades, t, final, fed);
      RecordKeepsShown(trades, t, final, fed, |bars|);
      LastRecord(bars, trades, t, final);
    } else {
      assert WithOpen(trades, open) == trades;
    }
    AllShown(done, fed, |bars|);
  }

  lemma LastRecord(bars: seq<Candle>, trades: seq<SimTrade>, t: SimTrade, final: SimTrade)
    requires Recorded(bars, trades, |bars|) && Follows(trades, t)
    requires final.entryIndex == t.entryIndex && IsOutcome(bars, final)
    ensures Scheduled(trades + [final])
    ensures forall k :: 0 <= k < |trades + [final]| ==> IsOutcome(bars, (trades + [final])[k])
  {
    hide IsOutcome;
    RecordKeepsSchedule(bars, trades, final, |bars|);
  }

  lemma AllShown(trades: seq<SimTrade>, fed: seq<nat>, n: nat)
    requires ShownSoFar(trades, None, fed, n)
    ensures ShowsIdleBars(trades, fed, n)
  {
    hide Idle;
    assert forall i :: 0 <= i < n ==> (IdleSoFar(trades, None, i) <==> Idle(trades, i));
  }

  lemma EndedByData(bars: seq<Candle>, t: SimTrade)
    requires IsOpenTrade(bars, t, |bars|)
    ensures IsOutcome(bars, Finished(bars, t))
  {
  }

  lemma FirstState(u: Setup, bars: seq<Candle>)
    ensures LoopState(u, bars, [], None, [], -9999, 0)
  {
  }

  lemma ShownMore(bars: seq<Candle>, fed: seq<nat>, n: nat)
    requires n < |bars|
    ensures Shown(bars, fed + [n]) == Shown(bars, fed) + [bars[n]]
  {
    assert (fed + [n])[..|fed|] == fed;
  }

  /** The loop's variables. */
  datatype Loop = Loop(trades: seq<SimTrade>, open: Option<SimTrade>, signals: nat, last: int)

  ghost predicate LoopHolds(strategy: SmcScalpStrategy, u: Setup, bars: seq<Candle>, v: Loop, fed: seq<nat>, n: nat)
    reads strategy, strategy.ms, strategy.series
  {
    && HasSeen(strategy, u, Shown(bars, fed))
    && LoopState(u, bars, v.trades, v.open, fed, v.last, n)
    && v.signals == |v.trades| + if v.open.Some? then 1 else 0
  }

  /** The exit checks of bar `n`. */
  method Exits(bars: seq<Candle>, v: Loop, ghost u: Setup, ghost fed: seq<nat>, n: nat) returns (r: Loop)
    requires n < |bars| && LoopState(u, bars, v.trades, v.open, fed, v.last, n)
    requires v.signals == |v.trades| + if v.open.Some? then 1 else 0
    ensures MidState(u, bars, r.trades, r.open, fed, r.last, n) && r.last == v.last
    ensures r.signals == |r.trades| + if r.open.Some? then 1 else 0
  {
    hide *;
    r := v;
    if v.open.Some? {
      var t := Managed(u, bars, v.trades, v.open.value, fed, v.last, n);
      r := if t.reason == Running then v.(open := Some(t)) else v.(trades := v.trades + [t], open := None);
    } else {
      NothingOpen(u, bars, v.trades, fed, v.last, n);
    }
  }

  /** One bar: exit checks first; then, if nothing is open and the cooldown is over, the strategy. */
  method OneBar(strategy: SmcScalpStrategy, bars: seq<Candle>, params: Params, v: Loop, n: nat, ghost u: Setup,
                ghost fed: seq<nat>)
    returns (r: Loop, ghost fed': seq<nat>)
    requires n < |bars| && u.params == params && LoopHolds(strategy, u, bars, v, fed, n)
    modifies strategy`lastSignalTs, strategy.ms, strategy.series
    ensures LoopHolds(strategy, u, bars, r, fed', n + 1)
  {
    hide HasSeen, Shown, LoopState;
    r := Exits(bars, v, u, fed, n);
    fed' := fed;
    var inCooldown := n - r.last < COOLDOWN;
    if r.open.None? && !inCooldown {
      var open := Enter(strategy, bars, params, u, r.trades, fed, r.last, n);
      fed' := fed + [n];
      r := if open.Some? then Loop(r.trades, open, r.signals + 1, n) else r;
    } else {
      NotShown(u, bars, r.trades, r.open, fed, r.last, n);
    }
  }

  /** The loop over the bars. */
  method Simulate(strategy: SmcScalpStrategy, bars: seq<Candle>, params: Params, ghost u: Setup)
    returns (v: Loop, ghost fed: seq<nat>)
    requires u.params == params && HasSeen(strategy, u, [])
    modifies strategy`lastSignalTs, strategy.ms, strategy.series
    ensures LoopState(u, bars, v.trades, v.open, fed, v.last, |bars|)
    ensures v.signals == |v.trades| + if v.open.Some? then 1 else 0
  {
    hide LoopState, HasSeen;
    v, fed := Loop([], None, 0, -9999), [];
    FirstState(u, bars);
    for n := 0 to |bars|
      invariant LoopHolds(strategy, u, bars, v, fed, n)
    {
      v, fed := OneBar(strategy, bars, params, v, n, u, fed);
    }
  }

  /** `run_backtest`. The source refuses an empty list; its strategy keeps a neutral bias throughout. */
  method RunBacktest(bars: seq<Candle>, params: Params, cfg: Config, active: int -> bool, name: int -> string)
    returns (report: Option<Report>, ghost fed: seq<nat>)
    ensures bars == [] <==> report.None?
    ensures report.Some? ==>
              && Balances(report.value)
              && IsRun(Setup(params, cfg, active, name, BiasNeutral), bars, report.value.trades, fed)
  {
    fed := [];
    if bars == [] {
      return None, fed;
    }
    var strategy := new SmcScalpStrategy(params, cfg, active, name);
    ghost var u := Setup(params, cfg, active, name, BiasNeutral);
    assert HasSeen(strategy, u, []);
    hide *;
    var v;
    v, fed := Simulate(strategy, bars, params, u);
    var summary := Conclude(bars, v, u, fed);
    report := Some(summary);
  }

  /** Show bar `n` to the strategy and enter on its signal. */
  method Enter(strategy: SmcScalpStrategy, bars: seq<Candle>, params: Params, ghost u: Setup,
               ghost trades: seq<SimTrade>, ghost fed: seq<nat>, ghost last: int, n: nat)
                   returns (open: Option<SimTrade>)
    requires MidState(u, bars, trades, None, fed, last, n) && n - last >= COOLDOWN && u.params == params
    requires HasSeen(strategy, u, Shown(bars, fed))
    modifies strategy`lastSignalTs, strategy.ms, strategy.series
    ensures HasSeen(strategy, u, Shown(bars, fed + [n]))
    ensures LoopState(u, bars, trades, open, fed + [n], if open.Some? then n else last, n + 1)
  {
    hide LoopState, HasSeen, Shown, Answer, Recorded, ShownSoFar, EntersOnSignals, LastEntry;
    ShownMore(bars, fed, n);
    var answer := Ask(strategy, bars[n], u, Shown(bars, fed));
    open := None;
    if answer.Fired? && answer.signal.confidence >= params.minConfluence as real / 100.0 {
      open := Some(SimTrade(answer.signal, n, answer.signal.stop, 0, 0.0, Running, 0.0));
    }
    ShownBar(u, bars, trades, open, fed, last, n);
  }

  /** What is still open is closed at the last bar's close; then the metrics. */
  method Conclude(bars: seq<Candle>, v: Loop, ghost u: Setup, ghost fed: seq<nat>) returns (r: Report)
    requires bars != [] && LoopState(u, bars, v.trades, v.open, fed, v.last, |bars|)
    requires v.signals == |v.trades| + if v.open.Some? then 1 else 0
    ensures Balances(r) && IsRun(u, bars, r.trades, fed)
  {
    hide LoopState, Balances, IsRun, Finished;
    var trades := v.trades;
    if v.open.Some? {
      var final := CloseAtEnd(bars, v.open.value);
      trades := trades + [final];
    }
    EndOfRun(u, bars, v.trades, v.open, fed, v.last, trades);
    r := Summarise(trades, v.signals);
  }

  method CloseAtEnd(bars: seq<Candle>, t: SimTrade) returns (final: SimTrade)
    requires bars != []
    ensures final == Finished(bars, t)
  {
    var exit := bars[|bars| - 1].close;
    var pnl := if t.signal.side == Long then exit - t.signal.entry else t.signal.entry - exit;
    final := t.(exitIndex := |bars| - 1, exitPrice := exit, reason := EndOfData, pnl := pnl);
  }

  /** The exit checks inside the loop. */
  method Managed(ghost u: Setup, bars: seq<Candle>, ghost trades: seq<SimTrade>, t: SimTrade, ghost fed: seq<nat>,
                 ghost last: int, n: nat)
    returns (r: SimTrade)
    requires n < |bars| && LoopState(u, bars, trades, Some(t), fed, last, n)
    ensures r.reason == Running ==> MidState(u, bars, trades, Some(r), fed, last, n)
    ensures r.reason != Running ==> MidState(u, bars, trades + [r], None, fed, last, n)
  {
    hide IsOutcome, IsOpenTrade, EntersOnSignals, Recorded, ShownSoFar;
    r := Manage(bars, t, n);
    ManageKeepsState(u, bars, trades, t, r, fed, last, n);
  }

  lemma NothingOpen(u: Setup, bars: seq<Candle>, trades: seq<SimTrade>, fed: seq<nat>, last: int, n: nat)
    requires n < |bars| && LoopState(u, bars, trades, None, fed, last, n)
    ensures MidState(u, bars, trades, None, fed, last, n)
  {
    hide IsOutcome, EntersOnSignals, ShownSoFar;
  }

  /** Entries are three bars apart, so there is room for at most one trade in every three bars. */
  lemma {:induction false} TradesAreSpaced(bars: seq<Candle>, trades: seq<SimTrade>)
    requires Scheduled(trades) && forall k :: 0 <= k < |trades| ==> IsOutcome(bars, trades[k])
    ensures |trades| <= (|bars| + 2) / 3
  {
    if trades != [] {
      EntriesGrow(trades, |trades| - 1);
      OutcomeInOrder(bars, trades[|trades| - 1]);
    }
  }

  lemma {:induction false} EntriesGrow(trades: seq<SimTrade>, k: nat)
    requires Scheduled(trades) && k < |trades|
    ensures trades[k].entryIndex >= COOLDOWN * k
  {
    if k > 0 {
      EntriesGrow(trades, k - 1);
    }
  }

  // ---- the bars determine the run ---------------------------------------------------------------------

  /** Two outcomes of the same entry are the same trade. */
  lemma OutcomeIsDetermined(bars: seq<Candle>, a: SimTrade, b: SimTrade)
    requires IsOutcome(bars, a) && IsOutcome(bars, b)
    requires a.signal == b.signal && a.entryIndex == b.entryIndex
    ensures a == b
  {
    hide Profit, StopAt, StopHit, TargetPrice, Gain, StaysOpen;
    ExitsFirst(bars, a, b);
    ExitsFirst(bars, b, a);
  }

  lemma ExitsFirst(bars: seq<Candle>, a: SimTrade, b: SimTrade)
    requires IsOutcome(bars, a) && IsOutcome(bars, b)
    requires a.signal == b.signal && a.entryIndex == b.entryIndex
    ensures a.exitIndex >= b.exitIndex
  {
    hide Profit, StopAt, StopHit, TargetPrice, Gain, ExitsAt;
    ExitedOrLast(bars, a);
  }

  lemma ExitedOrLast(bars: seq<Candle>, t: SimTrade)
    requires IsOutcome(bars, t)
    ensures t.exitIndex == |bars| - 1
            || (t.entryIndex < t.exitIndex && ExitsAt(bars, t.signal, t.entryIndex, t.exitIndex))
  {
    hide Profit, StopAt, StopHit, TargetPrice, Gain, StaysOpen;
  }

  /** The first `k` trades were entered, and the first `m` bars shown, before bar `n`; the others were not. */
  ghost predicate SplitAt(trades: seq<SimTrade>, fed: seq<nat>, k: nat, m: nat, n: nat)
  {
    && k <= |trades| && m <= |fed|
    && (forall i :: 0 <= i < |trades| ==> (trades[i].entryIndex < n <==> i < k))
    && forall i :: 0 <= i < |fed| ==> (fed[i] < n <==> i < m)
  }

  lemma IdleByPrefix(trades: seq<SimTrade>, fed: seq<nat>, k: nat, m: nat, n: nat)
    requires SplitAt(trades, fed, k, m, n)
    ensures Idle(trades, n) <==> Idle(trades[..k], n)
  {
    if Idle(trades[..k], n) {
      forall i | 0 <= i < |trades| && trades[i].entryIndex < n
        ensures trades[i].exitIndex <= n && trades[i].reason != EndOfData && n - trades[i].entryIndex >= COOLDOWN
      {
        assert trades[..k][i] == trades[i];
      }
    }
  }

  lemma NextShown(trades: seq<SimTrade>, fed: seq<nat>, bars: nat, k: nat, m: nat, n: nat)
    requires ShowsIdleBars(trades, fed, bars) && SplitAt(trades, fed, k, m, n) && n < bars
    ensures Idle(trades, n) <==> m < |fed| && fed[m] == n
    ensures forall i :: 0 <= i < |fed| && fed[i] == n ==> i == m && Idle(trades, n)
    ensures forall i :: 0 <= i < |fed| ==> (fed[i] < n + 1 <==> if Idle(trades, n) then i < m + 1 else i < m)
  {
    hide Idle;
    assert n in fed <==> Idle(trades, n);
    if n in fed {
      var i :| 0 <= i < |fed| && fed[i] == n;
      assert m <= i;
      assert forall j :: m < j < |fed| ==> fed[m] < fed[j];
    }
  }

  lemma EntriesApart(trades: seq<SimTrade>, i: nat, j: nat)
    requires Scheduled(trades) && i <= j < |trades|
    ensures i == j || trades[i].entryIndex + COOLDOWN <= trades[j].entryIndex
  {
  }

  lemma NextEntry(u: Setup, bars: seq<Candle>, trades: seq<SimTrade>, fed: seq<nat>, k: nat, m: nat, n: nat)
    requires EntersOnSignals(u, bars, trades, fed) && SplitAt(trades, fed, k, m, n) && Scheduled(trades)
    requires forall i :: 0 <= i < |fed| && fed[i] == n ==> i == m
    ensures forall j :: 0 <= j < |trades| && trades[j].entryIndex == n ==>
              j == k && m < |fed| && fed[m] == n && SignalledAt(u, bars, fed, m, trades[j].signal)
    ensures m < |fed| && fed[m] == n ==>
              forall s :: SignalledAt(u, bars, fed, m, s) ==>
                k < |trades| && trades[k].entryIndex == n && trades[k].signal == s
  {
    hide SignalledAt;
    forall j | 0 <= j < |trades| && trades[j].entryIndex == n
      ensures j == k && m < |fed| && fed[m] == n && SignalledAt(u, bars, fed, m, trades[j].signal)
    {
      assert HasSignal(u, bars, fed, trades[j]);
      EntriesApart(trades, k, j);
    }
    if m < |fed| && fed[m] == n {
      forall s | SignalledAt(u, bars, fed, m, s)
        ensures k < |trades| && trades[k].entryIndex == n && trades[k].signal == s
      {
        assert HasEntry(trades, fed, m, s);
      }
    }
  }

  /** What a run does on bar `n`: an idle bar is shown next, and the answer to it decides whether it is entered. */
  lemma NextBar(u: Setup, bars: seq<Candle>, trades: seq<SimTrade>, fed: seq<nat>, k: nat, m: nat, n: nat)
    requires IsRun(u, bars, trades, fed) && SplitAt(trades, fed, k, m, n) && n < |bars|
    ensures !Idle(trades, n) ==> SplitAt(trades, fed, k, m, n + 1)
    ensures Idle(trades, n) ==> m < |fed| && fed[m] == n
    ensures Idle(trades, n) ==>
              forall s :: SignalledAt(u, bars, fed, m, s) ==>
                k < |trades| && trades[k].entryIndex == n && trades[k].signal == s
                && SplitAt(trades, fed, k + 1, m + 1, n + 1)
    ensures Idle(trades, n) && (forall s :: !SignalledAt(u, bars, fed, m, s)) ==> SplitAt(trades, fed, k, m + 1, n + 1)
  {
    hide IsOutcome, Idle, SignalledAt, EntersOnSignals, ShowsIdleBars, Scheduled;
    NextShown(trades, fed, |bars|, k, m, n);
    NextEntry(u, bars, trades, fed, k, m, n);
  }

  lemma {:induction false} RunsAgreeBelow(u: Setup, bars: seq<Candle>, trades: seq<SimTrade>, fed: seq<nat>,
                                          trades': seq<SimTrade>, fed': seq<nat>, n: nat) returns (k: nat, m: nat)
    requires IsRun(u, bars, trades, fed) && IsRun(u, bars, trades', fed') && n <= |bars|
    ensures SplitAt(trades, fed, k, m, n) && SplitAt(trades', fed', k, m, n)
    ensures trades[..k] == trades'[..k] && fed[..m] == fed'[..m]
  {
    hide IsRun, Idle, IsOutcome, Answer;
    if n == 0 {
      k, m := 0, 0;
    } else {
      k, m := RunsAgreeBelow(u, bars, trades, fed, trades', fed', n - 1);
      IdleByPrefix(trades, fed, k, m, n - 1);
      IdleByPrefix(trades', fed', k, m, n - 1);
      NextBar(u, bars, trades, fed, k, m, n - 1);
      NextBar(u, bars, trades', fed', k, m, n - 1);
      if Idle(trades, n - 1) {
        assert fed[..m + 1] == fed'[..m + 1];
        assert forall s :: SignalledAt(u, bars, fed, m, s) <==> SignalledAt(u, bars, fed', m, s);
        hide SignalledAt;
        if s :| SignalledAt(u, bars, fed, m, s) {
          OutcomesOfRun(u, bars, trades, fed, k);
          OutcomesOfRun(u, bars, trades', fed', k);
          OutcomeIsDetermined(bars, trades[k], trades'[k]);
          k := k + 1;
        }
        m := m + 1;
      }
    }
  }

  lemma OutcomesOfRun(u: Setup, bars: seq<Candle>, trades: seq<SimTrade>, fed: seq<nat>, k: nat)
    requires IsRun(u, bars, trades, fed) && k < |trades|
    ensures IsOutcome(bars, trades[k])
  {
  }

  /** The bars and the strategy's setup determine which bars are shown and every trade, to the last figure. */
  lemma RunIsDetermined(u: Setup, bars: seq<Candle>, trades: seq<SimTrade>, fed: seq<nat>,
                        trades': seq<SimTrade>, fed': seq<nat>)
    requires IsRun(u, bars, trades, fed) && IsRun(u, bars, trades', fed')
    ensures trades == trades' && fed == fed'
  {
    hide IsRun, SplitAt;
    var k, m := RunsAgreeBelow(u, bars, trades, fed, trades', fed', |bars|);
    NothingAfter(u, bars, trades, fed, k, m);
    NothingAfter(u, bars, trades', fed', k, m);
  }

  lemma NothingAfter(u: Setup, bars: seq<Candle>, trades: seq<SimTrade>, fed: seq<nat>, k: nat, m: nat)
    requires IsRun(u, bars, trades, fed) && SplitAt(trades, fed, k, m, |bars|)
    ensures k == |trades| && m == |fed|
  {
    hide Idle, StaysOpen, IsOutcome, SignalledAt;
    if trades != [] {
      OutcomesOfRun(u, bars, trades, fed, |trades| - 1);
      OutcomeInOrder(bars, trades[|trades| - 1]);
    }
    assert fed != [] ==> fed[|fed| - 1] < |bars|;
  }

  // ---- what a simulated trade is -----------------------------------------------------------------------

  /** Every simulated trade enters on a bar that swept a swing against its side, with the score, the levels and
      the reward the strategy asks for, and its stop lies one pip beyond that bar's wick. */
  lemma EveryEntryIsJustified(u: Setup, bars: seq<Candle>, trades: seq<SimTrade>, fed: seq<nat>, j: nat)
      returns (k: nat)
    requires IsRun(u, bars, trades, fed) && j < |trades|
    requires trades[j].entryIndex < |bars| && bars[trades[j].entryIndex].WellFormed() && u.params.minRr > 0.0
    ensures k < |fed| && fed[k] == trades[j].entryIndex
    ensures var heard := MemoryAfter(u, Shown(bars, fed[..k])).history + [bars[trades[j].entryIndex]];
            IsJustified(u, heard, trades[j].signal)
  {
    hide IsOutcome, Idle, Verdict, IsJustified, MemoryAfter, Scheduled, ShowsIdleBars, SignalledAt, Shown;
    assert HasSignal(u, bars, fed, trades[j]);
    k :| 0 <= k < |fed| && trades[j].entryIndex == fed[k] && SignalledAt(u, bars, fed, k, trades[j].signal);
    SignalIsVerdict(u, bars, fed, k, trades[j].signal);
    VerdictIsJustified(u, MemoryAfter(u, Shown(bars, fed[..k])), bars[fed[k]]);
  }

  lemma SignalIsVerdict(u: Setup, bars: seq<Candle>, fed: seq<nat>, k: nat, s: Signal)
    requires k < |fed| && fed[k] < |bars| && SignalledAt(u, bars, fed, k, s)
    ensures Verdict(u, MemoryAfter(u, Shown(bars, fed[..k])), bars[fed[k]]) == Fired(s)
  {
    hide Verdict, MemoryAfter;
    var shown, c := Shown(bars, fed[..k]), bars[fed[k]];
    assert fed[..k + 1] == fed[..k] + [fed[k]];
    ShownMore(bars, fed[..k], fed[k]);
    assert (shown + [c])[..|shown|] == shown;
  }
}
