/** The simulation in the prices of its bars: when a trade ends, where, and what it books, with the numbers of the
    source written out. */
module RunnerPrices {
  import opened Foundations
  import opened Candles
  import opened Trading
  import opened Strategies
  import opened Runner

  /** The move in the trade's favour from its entry to `price`. */
  function Favour(s: Signal, price: real): (r: real)
  {
    if s.side == Long then price - s.entry else s.entry - price
  }

  /** Some bar after the entry, up to bar `j`, closed half a tenth of a percent in profit. */
  ghost predicate HalfWay(bars: seq<Candle>, s: Signal, entry: nat, j: nat)
  {
    exists i :: entry < i <= j && i < |bars| && Favour(s, bars[i].close) >= 0.0005 * s.entry
  }

  /** The stop in force on bar `j`: the entry once some bar went half way, the signal's stop before. */
  ghost function StopOn(bars: seq<Candle>, s: Signal, entry: nat, j: nat): (r: real)
  {
    if HalfWay(bars, s, entry, j) then s.entry else s.stop
  }

  /** Bar `j` closes a tenth of a percent in profit. */
  predicate GoesAllTheWay(bars: seq<Candle>, s: Signal, j: nat)
    requires j < |bars|
  {
    Favour(s, bars[j].close) >= 0.001 * s.entry
  }

  ghost predicate IsStopped(bars: seq<Candle>, s: Signal, entry: nat, j: nat)
    requires j < |bars|
  {
    if s.side == Long then bars[j].low <= StopOn(bars, s, entry, j) else bars[j].high >= StopOn(bars, s, entry, j)
  }

  lemma ProfitMeans(s: Signal, c: Candle, share: real)
    requires s.entry > 0.0
    ensures Profit(s, c) >= share <==> Favour(s, c.close) >= share * s.entry
  {
    QuotientAtLeast(Favour(s, c.close), share, s.entry);
  }

  lemma StopsAgree(bars: seq<Candle>, s: Signal, entry: nat, j: nat)
    requires s.Accepted()
    ensures Locked(bars, s, entry, j) <==> HalfWay(bars, s, entry, j)
    ensures StopAt(bars, s, entry, j) == StopOn(bars, s, entry, j)
  {
    hide Profit, Favour;
    forall i | 0 <= i < |bars| ensures Profit(s, bars[i]) >= 0.0005 <==> Favour(s, bars[i].close) >= 0.0005 * s.entry {
      ProfitMeans(s, bars[i], 0.0005);
    }
  }

  lemma ExitMeans(bars: seq<Candle>, s: Signal, entry: nat, j: nat)
    requires s.Accepted() && j < |bars|
    ensures ExitsAt(bars, s, entry, j) <==> GoesAllTheWay(bars, s, j) || IsStopped(bars, s, entry, j)
    ensures Profit(s, bars[j]) >= 0.001 <==> GoesAllTheWay(bars, s, j)
    ensures StopHit(s, bars[j], StopAt(bars, s, entry, j)) <==> IsStopped(bars, s, entry, j)
  {
    hide Profit, StopAt, StopOn;
    ProfitMeans(s, bars[j], 0.001);
    StopsAgree(bars, s, entry, j);
  }

  /** A trade ends on the first bar after its entry that goes all the way or reaches the stop in force, and books
      a tenth of a percent if it goes all the way, nothing if it is stopped after going half way, its initial risk
      if it is stopped before; a trade no bar ends is closed at the last close. */
  lemma OutcomeInPrices(bars: seq<Candle>, t: SimTrade)
    requires IsOutcome(bars, t)
    ensures t.entryIndex <= t.exitIndex < |bars| && t.signal.entry == bars[t.entryIndex].close
    ensures forall i :: t.entryIndex < i < t.exitIndex ==>
              !GoesAllTheWay(bars, t.signal, i) && !IsStopped(bars, t.signal, t.entryIndex, i)
    ensures t.reason == Target <==> t.entryIndex < t.exitIndex && GoesAllTheWay(bars, t.signal, t.exitIndex)
    ensures t.reason == StopLoss <==>
              && t.entryIndex < t.exitIndex && !GoesAllTheWay(bars, t.signal, t.exitIndex)
              && IsStopped(bars, t.signal, t.entryIndex, t.exitIndex)
    ensures t.reason != Target && t.reason != StopLoss ==> t.reason == EndOfData && t.exitIndex == |bars| - 1
    ensures var entry, stop := t.signal.entry, t.signal.stop;
            t.pnl ==
            match t.reason
            case Target => 0.001 * entry
            case StopLoss =>
              if HalfWay(bars, t.signal, t.entryIndex, t.exitIndex) then 0.0
              else if t.signal.side == Long then stop - entry else entry - stop
            case _ => Favour(t.signal, bars[|bars| - 1].close)
    ensures t.exitPrice ==
            match t.reason
            case Target => if t.signal.side == Long then t.signal.entry * 1.001 else t.signal.entry * 0.999
            case StopLoss => StopOn(bars, t.signal, t.entryIndex, t.exitIndex)
            case _ => bars[|bars| - 1].close
  {
    var s, entry, exit := t.signal, t.entryIndex, t.exitIndex;
    assert s.Accepted() && entry <= exit < |bars|;
    forall i | 0 <= i < |bars|
      ensures ExitsAt(bars, s, entry, i) <==> GoesAllTheWay(bars, s, i) || IsStopped(bars, s, entry, i)
    {
      ExitMeans(bars, s, entry, i);
    }
    ExitMeans(bars, s, entry, exit);
    StopsAgree(bars, s, entry, exit);
    hide Profit, StopAt, HalfWay, GoesAllTheWay, IsStopped, ExitsAt, StopHit;
  }

  /** Every trade of a run so ends; entries are three bars apart and never before the previous exit; and the bars
      shown to the strategy are exactly those with no trade open and no entry in the three bars before. */
  lemma RunInPrices(u: Setup, bars: seq<Candle>, trades: seq<SimTrade>, fed: seq<nat>)
    requires IsRun(u, bars, trades, fed)
    ensures forall i, j :: 0 <= i < j < |trades| ==>
              trades[i].exitIndex <= trades[j].entryIndex && trades[i].entryIndex + 3 <= trades[j].entryIndex
    ensures forall i :: 0 <= i < |bars| ==>
              (i in fed <==>
                 forall k :: 0 <= k < |trades| && trades[k].entryIndex < i ==>
                   trades[k].exitIndex <= i && trades[k].reason != EndOfData && trades[k].entryIndex + 3 <= i)
    ensures forall k, s | 0 <= k < |fed| && fed[k] < |bars|
                && Answer(u, Shown(bars, fed[..k]) + [bars[fed[k]]]) == Fired(s) ::
              exists j :: 0 <= j < |trades| && trades[j].entryIndex == fed[k] && trades[j].signal == s
    ensures forall k :: 0 <= k < |trades| ==>
              && (trades[k].reason == Target ==> trades[k].pnl == 0.001 * trades[k].signal.entry)
              && (trades[k].reason == StopLoss ==> trades[k].pnl <= 0.0)
  {
    hide IsOutcome, Answer, Shown, HasSignal;
    forall k, s | 0 <= k < |fed| && fed[k] < |bars| && Answer(u, Shown(bars, fed[..k]) + [bars[fed[k]]]) == Fired(s)
      ensures exists j :: 0 <= j < |trades| && trades[j].entryIndex == fed[k] && trades[j].signal == s
    {
      assert fed[..k + 1] == fed[..k] + [fed[k]];
      ShownMore(bars, fed[..k], fed[k]);
      assert SignalledAt(u, bars, fed, k, s);
      assert HasEntry(trades, fed, k, s);
    }
    hide EntersOnSignals;
    forall k | 0 <= k < |trades|
      ensures trades[k].reason == Target ==> trades[k].pnl == 0.001 * trades[k].signal.entry
      ensures trades[k].reason == StopLoss ==> trades[k].pnl <= 0.0
    {
      OutcomeInPrices(bars, trades[k]);
      OutcomeAccepted(bars, trades[k]);
    }
  }

  lemma OutcomeAccepted(bars: seq<Candle>, t: SimTrade)
    requires IsOutcome(bars, t)
    ensures t.signal.Accepted()
  {
  }

  /** The bars shown are the bars at the recorded positions. */
  lemma {:induction false} ShownAt(bars: seq<Candle>, fed: seq<nat>)
    requires forall k :: 0 <= k < |fed| ==> fed[k] < |bars|
    ensures |Shown(bars, fed)| == |fed| && forall k :: 0 <= k < |fed| ==> Shown(bars, fed)[k] == bars[fed[k]]
  {
    if fed != [] {
      ShownAt(bars, fed[..|fed| - 1]);
    }
  }
}
