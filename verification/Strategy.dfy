/** The scalping strategy (app/strategy/scalp_smc.py): confluence score, gate, and signal construction. */
module Strategies {
  import opened Foundations
  import opened Candles
  import opened StructureSpec
  import opened StructureTheorems
  import opened PriceLaws
  import opened MarketStructures
  import opened Trading

  const SCORE_SWEEP: int := 40
  const SCORE_REJECTION: int := 25
  const SCORE_BOS_HTF: int := 20
  const SCORE_ORDER_BLOCK: int := 10
  const SCORE_SESSION_SPREAD: int := 5

  datatype Params = Params(
    inst: Instrument, timeframe: string, targetMin: real, targetMax: real, minRr: real, minConfluence: int)

  /** `Raised`: building the signal object threw, and nothing was returned. */
  datatype Outcome = NoSignal | Fired(signal: Signal) | Raised

  // ---- scoring -----------------------------------------------------------------------

  function FirstEvent(events: seq<Event>, kind: Kind): (r: Option<Event>)
  {
    if events == [] then None
    else if events[0].kind == kind then Some(events[0])
    else FirstEvent(events[1..], kind)
  }

  predicate Has(events: seq<Event>, kind: Kind) { FirstEvent(events, kind).Some? }

  function BreakPoints(aligned: bool, biasAgrees: bool): (r: int)
  {
    if aligned && biasAgrees then SCORE_BOS_HTF else if aligned then SCORE_BOS_HTF / 2 else 0
  }

  function Total(rejection: bool, aligned: bool, biasAgrees: bool, block: bool): (r: int)
  {
    SCORE_SWEEP + (if rejection then SCORE_REJECTION else 0) + BreakPoints(aligned, biasAgrees)
    + (if block then SCORE_ORDER_BLOCK else 0) + SCORE_SESSION_SPREAD
  }

  // ---- signal construction --------------------------------------------------------------

  function TargetDistance(p: Params, entry: real, risk: real): (r: real)
  {
    Min(Max(entry * p.targetMin, p.minRr * risk), entry * p.targetMax * 1.5)
  }

  function BuildLong(p: Params, c: Candle, sweptLow: real, score: int, session: string): (r: Outcome)
  {
    var stop := Min(sweptLow, c.low) - p.inst.PriceDelta(1.0);
    var risk := c.close - stop;
    if risk <= 0.0 then NoSignal
    else
      Finish(p, Signal(p.inst, p.timeframe, Long, c.close, stop, c.close + TargetDistance(p, c.close, risk),
                       session, c.timestamp, Min(score as real / 100.0, 1.0)))
  }

  function BuildShort(p: Params, c: Candle, sweptHigh: real, score: int, session: string): (r: Outcome)
  {
    var stop := Max(sweptHigh, c.high) + p.inst.PriceDelta(1.0);
    var risk := stop - c.close;
    if risk <= 0.0 then NoSignal
    else
      Finish(p, Signal(p.inst, p.timeframe, Short, c.close, stop, c.close - TargetDistance(p, c.close, risk),
                       session, c.timestamp, Min(score as real / 100.0, 1.0)))
  }

  function Finish(p: Params, s: Signal): (r: Outcome)
  {
    if !s.Accepted() then Raised else if s.RrRatio() < p.minRr then NoSignal else Fired(s)
  }

  // ---- the decision as a function of the whole history ------------------------------------

  ghost predicate BlockAtClose(cfg: Config, h: seq<Candle>, d: Direction)
    requires h != []
  {
    FirstHit(BlockQuery(StoredBlocks(cfg, h), Some(d), true), h[|h| - 1].close).Some?
  }

  ghost predicate LongAligned(cfg: Config, h: seq<Candle>)
    requires h != []
  {
    Has(Events(cfg, h), BosBull) || Has(Events(cfg, h), ChochBull) || TrendKind(LastBreak(cfg, h)) == Some(BosBull)
  }

  ghost predicate ShortAligned(cfg: Config, h: seq<Candle>)
    requires h != []
  {
    Has(Events(cfg, h), BosBear) || Has(Events(cfg, h), ChochBear) || TrendKind(LastBreak(cfg, h)) == Some(BosBear)
  }

  ghost function LongScore(cfg: Config, h: seq<Candle>, bias: HtfBias): (r: int)
    requires h != []
  {
    Total(StrongBullishRejection(h[|h| - 1]), LongAligned(cfg, h), bias == BiasBullish, BlockAtClose(cfg, h, Bullish))
  }

  ghost function ShortScore(cfg: Config, h: seq<Candle>, bias: HtfBias): (r: int)
    requires h != []
  {
    Total(StrongBearishRejection(h[|h| - 1]), ShortAligned(cfg, h), bias == BiasBearish, BlockAtClose(cfg, h, Bearish))
  }

  ghost function DecideLong(p: Params, cfg: Config, h: seq<Candle>, bias: HtfBias, session: string): (r: Outcome)
    requires h != []
  {
    var sweep := FirstEvent(Events(cfg, h), SweepLow);
    if bias == BiasBearish || sweep.None? then NoSignal
    else if LongScore(cfg, h, bias) < p.minConfluence then NoSignal
    else BuildLong(p, h[|h| - 1], sweep.value.reference.price, LongScore(cfg, h, bias), session)
  }

  ghost function DecideShort(p: Params, cfg: Config, h: seq<Candle>, bias: HtfBias, session: string): (r: Outcome)
    requires h != []
  {
    var sweep := FirstEvent(Events(cfg, h), SweepHigh);
    if bias == BiasBullish || sweep.None? then NoSignal
    else if ShortScore(cfg, h, bias) < p.minConfluence then NoSignal
    else BuildShort(p, h[|h| - 1], sweep.value.reference.price, ShortScore(cfg, h, bias), session)
  }

  /** The long side is tried first; the short side only when it returned nothing. */
  ghost function Decide(p: Params, cfg: Config, h: seq<Candle>, bias: HtfBias, session: string): (r: Outcome)
    requires h != []
  {
    var long := DecideLong(p, cfg, h, bias, session);
    if long != NoSignal then long else DecideShort(p, cfg, h, bias, session)
  }

  class SmcScalpStrategy {
    const params: Params
    const ms: MarketStructure
    const series: CandleSeries
    /** The session filter: which timestamps are tradable, and under what session name. */
    const sessionActive: int -> bool
    const sessionName: int -> string
    var lastSignalTs: Option<int>

    ghost predicate Valid()
      reads this, ms, series
    {
      && ms.Valid() && series.Valid()
      && series.symbol == params.inst.symbol && series.timeframe == params.timeframe
      && series.history == ms.history
    }

    constructor (params: Params, cfg: Config, sessionActive: int -> bool, sessionName: int -> string)
      ensures Valid() && fresh(ms) && fresh(series)
      ensures this.params == params && ms.cfg == cfg && ms.history == [] && ms.htfBias == BiasNeutral
      ensures this.sessionActive == sessionActive && this.sessionName == sessionName && lastSignalTs == None
    {
      this.params, this.sessionActive, this.sessionName, lastSignalTs := params, sessionActive, sessionName, None;
      series := new CandleSeries(params.inst.symbol, params.timeframe, 512);
      ms := new MarketStructure(cfg);
    }

    method SetHtfBias(bias: HtfBias)
      requires Valid()
      modifies ms`htfBias
      ensures Valid() && ms.htfBias == bias && ms.history == old(ms.history)
    {
      ms.SetHtfBias(bias);
    }

    /** Evaluate one bar. */
    method OnCandle(c: Candle) returns (r: Outcome)
      requires Valid()
      modifies this`lastSignalTs, ms, series
      ensures Valid() && ms.htfBias == old(ms.htfBias)
      ensures var heard := c.symbol == params.inst.symbol && c.timeframe == params.timeframe
                           && sessionActive(c.timestamp) && old(lastSignalTs) != Some(c.timestamp);
              if !heard then r == NoSignal && ms.history == old(ms.history) && lastSignalTs == old(lastSignalTs)
              else
                && ms.history == old(ms.history) + [c]
                && r == Decide(params, ms.cfg, ms.history, ms.htfBias, sessionName(c.timestamp))
                && lastSignalTs == if r.Fired? then Some(c.timestamp) else old(lastSignalTs)
    {
      hide ms.Valid(), series.Valid();
      if c.symbol != params.inst.symbol || c.timeframe != params.timeframe {
        return NoSignal;
      }
      if !sessionActive(c.timestamp) {
        return NoSignal;
      }
      if lastSignalTs == Some(c.timestamp) {
        return NoSignal;
      }
      var ok := series.Append(c);
      var events := ms.Update(c);
      if events == [] {
        return NoSignal;
      }
      r := EvaluateLong(c, events);
      if r != NoSignal {
        return;
      }
      r := EvaluateShort(c, events);
    }

    method EvaluateLong(c: Candle, events: seq<Event>) returns (r: Outcome)
      requires ms.Valid() && ms.history != [] && c == ms.history[|ms.history| - 1]
      requires events == Events(ms.cfg, ms.history)
      modifies this`lastSignalTs
      ensures r == DecideLong(params, ms.cfg, ms.history, ms.htfBias, sessionName(c.timestamp))
      ensures lastSignalTs == if r.Fired? then Some(c.timestamp) else old(lastSignalTs)
    {
      hide Events, StrongBullishRejection, BuildLong, LastBreak, StoredBlocks, StoredGaps, AllSwings, FirstEvent,
           BlockQuery, FirstHit, Newest, TrendKind;
      if ms.htfBias == BiasBearish {
        return NoSignal;
      }
      var sweep := FirstEvent(events, SweepLow);
      if sweep.None? {
        return NoSignal;
      }
      var sweepPts, rejectionPts, bosHtfPts, obPts, sessionPts := SCORE_SWEEP, 0, 0, 0, SCORE_SESSION_SPREAD;
      if StrongBullishRejection(c) {
        rejectionPts := SCORE_REJECTION;
      }
      var bosAligned := Has(events, BosBull) || Has(events, ChochBull) || ms.lastBos == Some(BosBull);
      if bosAligned && ms.htfBias == BiasBullish {
        bosHtfPts := SCORE_BOS_HTF;
      } else if bosAligned {
        bosHtfPts := SCORE_BOS_HTF / 2;
      }
      var hit := PriceInOrderBlock(c.close, Bullish);
      if hit.Some? {
        obPts := SCORE_ORDER_BLOCK;
      }
      var total := sweepPts + rejectionPts + bosHtfPts + obPts + sessionPts;
      if total < params.minConfluence {
        return NoSignal;
      }
      r := BuildLong(params, c, sweep.value.reference.price, total, sessionName(c.timestamp));
      if r.Fired? {
        lastSignalTs := Some(c.timestamp);
      }
    }

    method EvaluateShort(c: Candle, events: seq<Event>) returns (r: Outcome)
      requires ms.Valid() && ms.history != [] && c == ms.history[|ms.history| - 1]
      requires events == Events(ms.cfg, ms.history)
      modifies this`lastSignalTs
      ensures r == DecideShort(params, ms.cfg, ms.history, ms.htfBias, sessionName(c.timestamp))
      ensures lastSignalTs == if r.Fired? then Some(c.timestamp) else old(lastSignalTs)
    {
      hide Events, StrongBearishRejection, BuildShort, LastBreak, StoredBlocks, StoredGaps, AllSwings, FirstEvent,
           BlockQuery, FirstHit, Newest, TrendKind;
      if ms.htfBias == BiasBullish {
        return NoSignal;
      }
      var sweep := FirstEvent(events, SweepHigh);
      if sweep.None? {
        return NoSignal;
      }
      var sweepPts, rejectionPts, bosHtfPts, obPts, sessionPts := SCORE_SWEEP, 0, 0, 0, SCORE_SESSION_SPREAD;
      if StrongBearishRejection(c) {
        rejectionPts := SCORE_REJECTION;
      }
      var bosAligned := Has(events, BosBear) || Has(events, ChochBear) || ms.lastBos == Some(BosBear);
      if bosAligned && ms.htfBias == BiasBearish {
        bosHtfPts := SCORE_BOS_HTF;
      } else if bosAligned {
        bosHtfPts := SCORE_BOS_HTF / 2;
      }
      var hit := PriceInOrderBlock(c.close, Bearish);
      if hit.Some? {
        obPts := SCORE_ORDER_BLOCK;
      }
      var total := sweepPts + rejectionPts + bosHtfPts + obPts + sessionPts;
      if total < params.minConfluence {
        return NoSignal;
      }
      r := BuildShort(params, c, sweep.value.reference.price, total, sessionName(c.timestamp));
      if r.Fired? {
        lastSignalTs := Some(c.timestamp);
      }
    }

    method PriceInOrderBlock(price: real, d: Direction) returns (r: Option<OrderBlock>)
      ensures r == FirstHit(BlockQuery(ms.orderBlocks, Some(d), true), price)
    {
      hide BlockQuery;
      var blocks := ms.FindOrderBlocks(Some(d), true);
      for i := 0 to |blocks|
        invariant FirstHit(blocks, price) == FirstHit(blocks[i..], price)
      {
        if blocks[i].zoneLow <= price <= blocks[i].zoneHigh {
          return Some(blocks[i]);
        }
      }
      return None;
    }
  }

  // ---- exactly when it fires ----------------------------------------------------------------

  lemma {:induction false} FirstEventOf(events: seq<Event>, kind: Kind)
    ensures Has(events, kind) <==> Reports(events, kind)
    ensures Has(events, kind) ==>
            FirstEvent(events, kind).value in events && FirstEvent(events, kind).value.kind == kind
  {
    if events != [] {
      FirstEventOf(events[1..], kind);
      assert events == [events[0]] + events[1..];
    }
  }

  /** The newest bar wicks through the reference low, closes back above it and rejects enough. */
  ghost predicate SweptLow(cfg: Config, h: seq<Candle>)
    requires h != []
  {
    var lo := Reference(cfg, h, Low);
    lo.Some? && IsSweepLow(h[|h| - 1], lo.value.price, cfg.wickRatio)
  }

  ghost predicate SweptHigh(cfg: Config, h: seq<Candle>)
    requires h != []
  {
    var hi := Reference(cfg, h, High);
    hi.Some? && IsSweepHigh(h[|h| - 1], hi.value.price, cfg.wickRatio)
  }

  lemma SweepEvents(cfg: Config, h: seq<Candle>)
    requires h != []
    ensures Has(Events(cfg, h), SweepLow) <==> SweptLow(cfg, h)
    ensures Has(Events(cfg, h), SweepHigh) <==> SweptHigh(cfg, h)
    ensures SweptLow(cfg, h) ==> FirstEvent(Events(cfg, h), SweepLow).value.reference == Reference(cfg, h, Low).value
    ensures SweptHigh(cfg, h) ==> FirstEvent(Events(cfg, h), SweepHigh).value.reference == Reference(cfg, h, High).value
  {
    hide Reference, IsSweepLow, IsSweepHigh, LastBreak, BreakOf, BreakKind, FirstEvent, Reports;
    var events := Events(cfg, h);
    SweepIsReported(h[|h| - 1], cfg.wickRatio, Reference(cfg, h, High), Reference(cfg, h, Low),
                    LastBreak(cfg, h[..|h| - 1]));
    FirstEventOf(events, SweepLow);
    FirstEventOf(events, SweepHigh);
    SweepReference(h[|h| - 1], cfg.wickRatio, Reference(cfg, h, High), Reference(cfg, h, Low),
                   LastBreak(cfg, h[..|h| - 1]));
  }

  lemma SweepReference(c: Candle, ratio: real, hi: Option<Swing>, lo: Option<Swing>, last: Option<Direction>)
    ensures forall e :: e in EventsOf(c, ratio, hi, lo, last) ==>
              (e.kind == SweepHigh ==> hi == Some(e.reference)) && (e.kind == SweepLow ==> lo == Some(e.reference))
  {
    hide IsSweepLow, IsSweepHigh;
  }

  lemma BreakIsReported(c: Candle, ratio: real, hi: Option<Swing>, lo: Option<Swing>, last: Option<Direction>)
    ensures var events, broken := EventsOf(c, ratio, hi, lo, last), BreakOf(c, hi, lo);
            && (Reports(events, BosBull) || Reports(events, ChochBull) ==> broken == Some(Bullish))
            && (Reports(events, BosBear) || Reports(events, ChochBear) ==> broken == Some(Bearish))
  {
    hide IsSweepLow, IsSweepHigh;
  }

  /** A break reported on the bar is already the tracker's trend, so "aligned" is just the trend. */
  lemma AlignedIsTrend(cfg: Config, h: seq<Candle>)
    requires h != []
    ensures LongAligned(cfg, h) <==> LastBreak(cfg, h) == Some(Bullish)
    ensures ShortAligned(cfg, h) <==> LastBreak(cfg, h) == Some(Bearish)
  {
    hide Reference, BreakOf, FirstEvent, Reports, EventsOf;
    var events := Events(cfg, h);
    FirstEventOf(events, BosBull);
    FirstEventOf(events, ChochBull);
    FirstEventOf(events, BosBear);
    FirstEventOf(events, ChochBear);
    BreakIsReported(h[|h| - 1], cfg.wickRatio, Reference(cfg, h, High), Reference(cfg, h, Low),
                    LastBreak(cfg, h[..|h| - 1]));
  }

  /** The order-block factor never scores, so six totals remain. */
  lemma PossibleScores(cfg: Config, h: seq<Candle>, bias: HtfBias)
    requires h != [] && h[|h| - 1].WellFormed()
    ensures LongScore(cfg, h, bias) ==
            ScoreOf(StrongBullishRejection(h[|h| - 1]), LastBreak(cfg, h) == Some(Bullish), bias == BiasBullish)
    ensures ShortScore(cfg, h, bias) ==
            ScoreOf(StrongBearishRejection(h[|h| - 1]), LastBreak(cfg, h) == Some(Bearish), bias == BiasBearish)
    ensures LongScore(cfg, h, bias) in {45, 55, 65, 70, 80, 90} && ShortScore(cfg, h, bias) in {45, 55, 65, 70, 80, 90}
  {
    hide LastBreak, StoredBlocks, BlockQuery, FirstHit, Events, LongAligned, ShortAligned,
         StrongBullishRejection, StrongBearishRejection;
    AlignedIsTrend(cfg, h);
    NoActiveBlockAtClose(cfg, h, Bullish);
    NoActiveBlockAtClose(cfg, h, Bearish);
  }

  /** On any bar, well formed or not: 10 points more if an active block on the side contains the close. */
  lemma ScoresInFull(cfg: Config, h: seq<Candle>, bias: HtfBias)
    requires h != []
    ensures LongScore(cfg, h, bias) ==
            ScoreOf(StrongBullishRejection(h[|h| - 1]), LastBreak(cfg, h) == Some(Bullish), bias == BiasBullish)
            + if exists b :: b in StoredBlocks(cfg, h) && b.direction == Bullish && !b.mitigated
                             && b.zoneLow <= h[|h| - 1].close <= b.zoneHigh then 10 else 0
    ensures ShortScore(cfg, h, bias) ==
            ScoreOf(StrongBearishRejection(h[|h| - 1]), LastBreak(cfg, h) == Some(Bearish), bias == BiasBearish)
            + if exists b :: b in StoredBlocks(cfg, h) && b.direction == Bearish && !b.mitigated
                             && b.zoneLow <= h[|h| - 1].close <= b.zoneHigh then 10 else 0
  {
    hide LastBreak, StoredBlocks, BlockQuery, FirstHit, Events, LongAligned, ShortAligned,
         StrongBullishRejection, StrongBearishRejection;
    AlignedIsTrend(cfg, h);
    PriceHitsExactlyWhen(cfg, h, Bullish, h[|h| - 1].close);
    PriceHitsExactlyWhen(cfg, h, Bearish, h[|h| - 1].close);
  }

  /** At the default threshold of 60 the gate asks for a rejection or a fully aligned break; at the
      documented 75 it asks for a rejection and an aligned break. */
  lemma GateMeans(rejection: bool, aligned: bool, biasAgrees: bool)
    ensures ScoreOf(rejection, aligned, biasAgrees) >= 60 <==> rejection || (aligned && biasAgrees)
    ensures ScoreOf(rejection, aligned, biasAgrees) >= 75 <==> rejection && aligned
    ensures ScoreOf(rejection, aligned, biasAgrees) <= 90
  {
  }

  /** The reward the clamp leaves is enough exactly when the cap admits the minimum ratio. */
  lemma ClampKeepsRatio(p: Params, entry: real, risk: real)
    requires risk > 0.0 && p.minRr > 0.0
    ensures TargetDistance(p, entry, risk) / risk >= p.minRr <==> p.minRr * risk <= 1.5 * p.targetMax * entry
    ensures p.minRr * risk <= 1.5 * p.targetMax * entry ==> TargetDistance(p, entry, risk) > 0.0
  {
    QuotientAtLeast(TargetDistance(p, entry, risk), p.minRr, risk);
    var need, cap := p.minRr * risk, entry * p.targetMax * 1.5;
    assert need > 0.0;
    assert 1.5 * p.targetMax * entry == cap;
  }

  /** The reward `d` is the minimum profit or the minimum ratio of the risk, whichever is larger, unless the cap of
      one and a half times the maximum profit is less than both. */
  predicate TargetRule(p: Params, entry: real, risk: real, d: real)
  {
    var cap, least, ratio := 1.5 * p.targetMax * entry, p.targetMin * entry, p.minRr * risk;
    && d <= cap && (d < cap ==> d >= least && d >= ratio) && (d == cap || d == least || d == ratio)
  }

  lemma TargetIs(p: Params, entry: real, risk: real)
    ensures TargetRule(p, entry, risk, TargetDistance(p, entry, risk))
  {
    assert entry * p.targetMax * 1.5 == 1.5 * p.targetMax * entry;
  }

  /** A signal's stop is one pip beyond the swept wick, its reward follows the rule and pays the minimum ratio. */
  ghost predicate LongGeometry(p: Params, c: Candle, s: Signal)
  {
    && s.side == Long && s.entry == c.close && s.stop == c.low - p.inst.pipSize
    && s.stop < s.entry < s.target && s.RiskDistance() == c.close - c.low + p.inst.pipSize > p.inst.pipSize
    && TargetRule(p, c.close, c.close - c.low + p.inst.pipSize, s.target - c.close)
    && s.target - c.close >= p.minRr * (c.close - c.low + p.inst.pipSize)
    && 0.0 < s.stop && s.inst == p.inst && s.timeframe == p.timeframe && s.generatedAt == c.timestamp
  }

  ghost predicate ShortGeometry(p: Params, c: Candle, s: Signal)
  {
    && s.side == Short && s.entry == c.close && s.stop == c.high + p.inst.pipSize
    && s.target < s.entry < s.stop && s.RiskDistance() == c.high - c.close + p.inst.pipSize > p.inst.pipSize
    && TargetRule(p, c.close, c.high - c.close + p.inst.pipSize, c.close - s.target)
    && c.close - s.target >= p.minRr * (c.high - c.close + p.inst.pipSize)
    && 0.0 < s.target && s.inst == p.inst && s.timeframe == p.timeframe && s.generatedAt == c.timestamp
  }

  /** Some target is left by the clamp exactly when the cap is positive. */
  lemma ClampIsPositive(p: Params, entry: real, risk: real)
    requires entry > 0.0 && risk > 0.0 && p.minRr > 0.0
    ensures TargetDistance(p, entry, risk) > 0.0 <==> p.targetMax > 0.0
  {
    assert p.minRr * risk > 0.0;
    assert entry * p.targetMax > 0.0 <==> p.targetMax > 0.0 by {
      Sign(entry, p.targetMax);
    }
  }

  lemma Sign(x: real, y: real)
    requires x > 0.0
    ensures x * y > 0.0 <==> y > 0.0
  {
  }

  /** `s` risks `risk` for a reward of `distance`. */
  predicate Levels(s: Signal, risk: real, distance: real)
  {
    if s.side == Long then s.stop == s.entry - risk && s.target == s.entry + distance
    else s.stop == s.entry + risk && s.target == s.entry - distance
  }

  /** The level below the entry: the one that may turn out not positive. */
  function LowerLevel(s: Signal): (r: real) { if s.side == Long then s.stop else s.target }

  /** Construction raises exactly when a level is impossible; else the ratio decides. */
  lemma FinishExactlyWhen(p: Params, s: Signal, risk: real, distance: real)
    requires s.entry > 0.0 && 0.0 <= s.confidence <= 1.0 && risk > 0.0 && Levels(s, risk, distance)
    ensures var r := Finish(p, s);
            && (r.Raised? <==> distance <= 0.0 || LowerLevel(s) <= 0.0)
            && (r.Fired? <==> distance > 0.0 && LowerLevel(s) > 0.0 && distance / risk >= p.minRr)
            && (r.Fired? ==> r.signal == s && s.RiskDistance() == risk && s.RrRatio() == distance / risk)
  {
    assert s.RiskDistance() == risk;
    assert distance > 0.0 ==> s.RewardDistance() == distance;
  }

  /** The levels a bar's signal would have are possible ones. */
  predicate LongLevelsExist(p: Params, c: Candle)
  {
    p.targetMax > 0.0 && c.low > p.inst.pipSize
  }

  predicate ShortLevelsExist(p: Params, c: Candle)
  {
    p.targetMax > 0.0 && TargetDistance(p, c.close, c.high - c.close + p.inst.pipSize) < c.close
  }

  /** The capped target still pays the minimum ratio. */
  predicate LongPays(p: Params, c: Candle)
  {
    p.minRr * (c.close - c.low + p.inst.pipSize) <= 1.5 * p.targetMax * c.close
  }

  predicate ShortPays(p: Params, c: Candle)
  {
    p.minRr * (c.high - c.close + p.inst.pipSize) <= 1.5 * p.targetMax * c.close
  }

  /** After a sweep of a lower reference the risk is always more than a pip: the zero-risk exit is dead.
      Construction raises exactly when a level is impossible, and otherwise the signal survives exactly when
      the clamped target still pays the minimum ratio. */
  lemma LongBuild(p: Params, c: Candle, sweptLow: real, score: int, session: string)
    requires c.WellFormed() && c.low < sweptLow < c.close && p.minRr > 0.0 && score >= 0
    ensures c.close - (Min(sweptLow, c.low) - p.inst.PriceDelta(1.0)) > p.inst.pipSize
    ensures var r := BuildLong(p, c, sweptLow, score, session);
            && (r.Raised? <==> !LongLevelsExist(p, c))
            && (r.Fired? <==> LongLevelsExist(p, c) && LongPays(p, c))
            && (r.Fired? ==> LongGeometry(p, c, r.signal) && r.signal.session == session
                             && r.signal.confidence == Min(score as real / 100.0, 1.0))
  {
    hide TargetDistance, Finish, TargetRule;
    var risk := c.close - c.low + p.inst.pipSize;
    var distance := TargetDistance(p, c.close, risk);
    var s := Signal(p.inst, p.timeframe, Long, c.close, c.low - p.inst.pipSize, c.close + distance, session,
                    c.timestamp, Min(score as real / 100.0, 1.0));
    assert BuildLong(p, c, sweptLow, score, session) == Finish(p, s);
    ClampKeepsRatio(p, c.close, risk);
    ClampIsPositive(p, c.close, risk);
    FinishExactlyWhen(p, s, risk, distance);
    TargetIs(p, c.close, risk);
    QuotientAtLeast(distance, p.minRr, risk);
  }

  lemma ShortBuild(p: Params, c: Candle, sweptHigh: real, score: int, session: string)
    requires c.WellFormed() && c.close < sweptHigh < c.high && p.minRr > 0.0 && score >= 0
    ensures Max(sweptHigh, c.high) + p.inst.PriceDelta(1.0) - c.close > p.inst.pipSize
    ensures var r := BuildShort(p, c, sweptHigh, score, session);
            && (r.Raised? <==> !ShortLevelsExist(p, c))
            && (r.Fired? <==> ShortLevelsExist(p, c) && ShortPays(p, c))
            && (r.Fired? ==> ShortGeometry(p, c, r.signal) && r.signal.session == session
                             && r.signal.confidence == Min(score as real / 100.0, 1.0))
  {
    hide TargetDistance, Finish, TargetRule;
    var risk := c.high - c.close + p.inst.pipSize;
    var distance := TargetDistance(p, c.close, risk);
    var s := Signal(p.inst, p.timeframe, Short, c.close, c.high + p.inst.pipSize, c.close - distance, session,
                    c.timestamp, Min(score as real / 100.0, 1.0));
    assert BuildShort(p, c, sweptHigh, score, session) == Finish(p, s);
    ClampKeepsRatio(p, c.close, risk);
    ClampIsPositive(p, c.close, risk);
    FinishExactlyWhen(p, s, risk, distance);
    TargetIs(p, c.close, risk);
    QuotientAtLeast(distance, p.minRr, risk);
  }

  /** With a cap below the entry, as configured, a short's target is always a price. */
  lemma CapBelowEntry(p: Params, c: Candle)
    requires c.WellFormed() && 1.5 * p.targetMax < 1.0
    ensures ShortLevelsExist(p, c) <==> p.targetMax > 0.0
  {
    ShareBelow(p, c.close, c.high - c.close + p.inst.pipSize);
    hide TargetDistance;
  }

  lemma ShareBelow(p: Params, entry: real, risk: real)
    requires entry > 0.0 && 1.5 * p.targetMax < 1.0
    ensures TargetDistance(p, entry, risk) < entry
  {
    var share := 1.5 * p.targetMax;
    assert entry * p.targetMax * 1.5 == entry * share;
    assert entry * (1.0 - share) > 0.0;
    assert entry * (1.0 - share) == entry - entry * share;
  }

  /** The score of a side without order-block points: 40 for the sweep and 5 for session and spread, 25 for a
      rejection, and for a trend on its side 20 if the bias agrees and 10 if not. */
  function ScoreOf(rejection: bool, trend: bool, biasAgrees: bool): (r: int)
  {
    45 + (if rejection then 25 else 0) + if !trend then 0 else if biasAgrees then 20 else 10
  }

  ghost predicate LongGate(p: Params, cfg: Config, h: seq<Candle>, bias: HtfBias)
    requires h != []
  {
    ScoreOf(StrongBullishRejection(h[|h| - 1]), LastBreak(cfg, h) == Some(Bullish), bias == BiasBullish)
    >= p.minConfluence
  }

  ghost predicate ShortGate(p: Params, cfg: Config, h: seq<Candle>, bias: HtfBias)
    requires h != []
  {
    ScoreOf(StrongBearishRejection(h[|h| - 1]), LastBreak(cfg, h) == Some(Bearish), bias == BiasBearish)
    >= p.minConfluence
  }

  /** Nothing opposes a long, the low was swept and the score passes without any order-block points. */
  ghost predicate LongReady(p: Params, cfg: Config, h: seq<Candle>, bias: HtfBias)
    requires h != []
  {
    bias != BiasBearish && SweptLow(cfg, h) && LongGate(p, cfg, h, bias)
  }

  ghost predicate ShortReady(p: Params, cfg: Config, h: seq<Candle>, bias: HtfBias)
    requires h != []
  {
    bias != BiasBullish && SweptHigh(cfg, h) && ShortGate(p, cfg, h, bias)
  }

  /** The long side fires exactly when it is ready, its levels exist and the capped reward pays for the risk;
      it raises exactly when it is ready and a level is impossible. */
  lemma LongFiresExactlyWhen(p: Params, cfg: Config, h: seq<Candle>, bias: HtfBias, session: string)
    requires h != [] && h[|h| - 1].WellFormed() && p.minRr > 0.0
    ensures var c, r := h[|h| - 1], DecideLong(p, cfg, h, bias, session);
            && (r.Fired? <==> LongReady(p, cfg, h, bias) && LongLevelsExist(p, c) && LongPays(p, c))
            && (r.Raised? <==> LongReady(p, cfg, h, bias) && !LongLevelsExist(p, c))
            && (r.Fired? ==> LongGeometry(p, c, r.signal) && r.signal.session == session)
            && (r.Fired? ==> r.signal.confidence == LongScore(cfg, h, bias) as real / 100.0)
  {
    hide LongScore, LastBreak, Reference, Events, FirstEvent, BuildLong, LongGeometry, StrongBullishRejection, Total,
         LongLevelsExist, LongPays;
    SweepEvents(cfg, h);
    PossibleScores(cfg, h, bias);
    if SweptLow(cfg, h) {
      LongBuild(p, h[|h| - 1], Reference(cfg, h, Low).value.price, LongScore(cfg, h, bias), session);
    }
  }

  lemma ShortFiresExactlyWhen(p: Params, cfg: Config, h: seq<Candle>, bias: HtfBias, session: string)
    requires h != [] && h[|h| - 1].WellFormed() && p.minRr > 0.0
    ensures var c, r := h[|h| - 1], DecideShort(p, cfg, h, bias, session);
            && (r.Fired? <==> ShortReady(p, cfg, h, bias) && ShortLevelsExist(p, c) && ShortPays(p, c))
            && (r.Raised? <==> ShortReady(p, cfg, h, bias) && !ShortLevelsExist(p, c))
            && (r.Fired? ==> ShortGeometry(p, c, r.signal) && r.signal.session == session)
            && (r.Fired? ==> r.signal.confidence == ShortScore(cfg, h, bias) as real / 100.0)
  {
    hide ShortScore, LastBreak, Reference, Events, FirstEvent, BuildShort, ShortGeometry, StrongBearishRejection, Total,
         ShortLevelsExist, ShortPays;
    SweepEvents(cfg, h);
    PossibleScores(cfg, h, bias);
    if SweptHigh(cfg, h) {
      ShortBuild(p, h[|h| - 1], Reference(cfg, h, High).value.price, ShortScore(cfg, h, bias), session);
    }
  }

  /** The long side lets the short side be asked: it neither fires nor raises. */
  ghost predicate LongPasses(p: Params, cfg: Config, h: seq<Candle>, bias: HtfBias)
    requires h != []
  {
    LongReady(p, cfg, h, bias) ==> LongLevelsExist(p, h[|h| - 1]) && !LongPays(p, h[|h| - 1])
  }

  /** What a bar is answered, exactly: a long when the long side fires; a short only when the long side passes
      and the short side fires; an exception when the side that is asked last is ready but has no levels. */
  lemma AnswersExactlyWhen(p: Params, cfg: Config, h: seq<Candle>, bias: HtfBias, session: string)
    requires h != [] && h[|h| - 1].WellFormed() && p.minRr > 0.0
    ensures var c, r := h[|h| - 1], Decide(p, cfg, h, bias, session);
            && (r.Fired? && r.signal.side == Long <==>
                  LongReady(p, cfg, h, bias) && LongLevelsExist(p, c) && LongPays(p, c))
            && (r.Fired? && r.signal.side == Short <==>
                  && LongPasses(p, cfg, h, bias)
                  && ShortReady(p, cfg, h, bias) && ShortLevelsExist(p, c) && ShortPays(p, c))
            && (r.Raised? <==>
                  || (LongReady(p, cfg, h, bias) && !LongLevelsExist(p, c))
                  || (LongPasses(p, cfg, h, bias) && ShortReady(p, cfg, h, bias) && !ShortLevelsExist(p, c)))
  {
    hide DecideLong, DecideShort, LongReady, ShortReady, LongLevelsExist, ShortLevelsExist, LongPays, ShortPays;
    LongFiresExactlyWhen(p, cfg, h, bias, session);
    ShortFiresExactlyWhen(p, cfg, h, bias, session);
  }

  /** At a wick ratio above one half no bar is ready both ways, so the order of the two sides never matters. */
  lemma SidesNeverCompete(p: Params, cfg: Config, h: seq<Candle>, bias: HtfBias)
    requires h != [] && h[|h| - 1].WellFormed() && cfg.wickRatio > 0.5
    ensures !(LongReady(p, cfg, h, bias) && ShortReady(p, cfg, h, bias))
    ensures ShortReady(p, cfg, h, bias) ==> LongPasses(p, cfg, h, bias)
  {
    hide LongGate, ShortGate, Reference, EventsOf, FirstEvent, LastBreak, BreakOf, Reports, IsSweepLow, IsSweepHigh;
    SweepEvents(cfg, h);
    FirstEventOf(Events(cfg, h), SweepLow);
    FirstEventOf(Events(cfg, h), SweepHigh);
    EventsOfOneBar(h[|h| - 1], cfg.wickRatio, Reference(cfg, h, High), Reference(cfg, h, Low),
                   LastBreak(cfg, h[..|h| - 1]));
  }

  /** A bar that sweeps a low never also trades a confirmed down-break: a fired long is never entered
      against a break of its own bar, and symmetrically for shorts. */
  lemma FiredNeverAgainstOwnBreak(p: Params, cfg: Config, h: seq<Candle>, bias: HtfBias, session: string)
    requires h != [] && h[|h| - 1].WellFormed()
    ensures DecideLong(p, cfg, h, bias, session).Fired? ==> BreakAt(cfg, h) != Some(Bearish)
    ensures DecideShort(p, cfg, h, bias, session).Fired? ==> BreakAt(cfg, h) != Some(Bullish)
  {
    hide LongScore, ShortScore, Reference, EventsOf, FirstEvent, BuildLong, BuildShort, LastBreak, BreakOf, Reports;
    var hi, lo, last := Reference(cfg, h, High), Reference(cfg, h, Low), LastBreak(cfg, h[..|h| - 1]);
    FirstEventOf(Events(cfg, h), SweepLow);
    FirstEventOf(Events(cfg, h), SweepHigh);
    EventsOfOneBar(h[|h| - 1], cfg.wickRatio, hi, lo, last);
  }

  // ---- a strategy run ------------------------------------------------------------------------

  /** Everything that fixes a strategy instance, its bias held constant. */
  datatype Setup = Setup(params: Params, cfg: Config, active: int -> bool, name: int -> string, bias: HtfBias)

  /** What it remembers: the bars its tracker ingested and the bar of its last signal. */
  datatype Memory = Memory(history: seq<Candle>, lastTs: Option<int>)

  predicate Hears(u: Setup, m: Memory, c: Candle)
  {
    && c.symbol == u.params.inst.symbol && c.timeframe == u.params.timeframe
    && u.active(c.timestamp) && m.lastTs != Some(c.timestamp)
  }

  ghost function Verdict(u: Setup, m: Memory, c: Candle): (r: Outcome)
  {
    if Hears(u, m, c) then Decide(u.params, u.cfg, m.history + [c], u.bias, u.name(c.timestamp)) else NoSignal
  }

  ghost function Remember(u: Setup, m: Memory, c: Candle): (r: Memory)
  {
    if Hears(u, m, c)
    then Memory(m.history + [c], if Verdict(u, m, c).Fired? then Some(c.timestamp) else m.lastTs)
    else m
  }

  /** The memory after being shown `bars` in turn. */
  ghost function MemoryAfter(u: Setup, bars: seq<Candle>): (r: Memory)
  {
    if bars == [] then Memory([], None) else Remember(u, MemoryAfter(u, bars[..|bars| - 1]), bars[|bars| - 1])
  }

  /** What it answers to the last of `bars`, having been shown the others before. */
  ghost function Answer(u: Setup, bars: seq<Candle>): (r: Outcome)
    requires bars != []
  {
    Verdict(u, MemoryAfter(u, bars[..|bars| - 1]), bars[|bars| - 1])
  }

  /** A fired signal passed the constructors' checks, enters at the close of a bar that was heard, and has
      a confidence no smaller than its gate. */
  lemma FiredSignal(u: Setup, m: Memory, c: Candle)
    requires Verdict(u, m, c).Fired?
    ensures var s := Verdict(u, m, c).signal;
            && s.Accepted() && s.inst == u.params.inst && s.entry == c.close
            && 0.0 < s.stop && 0.0 < s.target
            && (if s.side == Long then s.stop < s.entry < s.target else s.target < s.entry < s.stop)
            && s.confidence >= u.params.minConfluence as real / 100.0
  {
    hide Events, LastBreak, StoredBlocks, StrongBullishRejection, StrongBearishRejection, LongAligned, ShortAligned,
         BlockAtClose, TargetDistance, FirstEvent;
  }

  /** What a fired signal says of the bars heard, its own last: one side was ready, its levels exist, the
      capped reward pays, and the signal has that side's geometry. */
  ghost predicate IsJustified(u: Setup, h: seq<Candle>, s: Signal)
  {
    && h != [] && s.Accepted() && s.entry == h[|h| - 1].close && s.session == u.name(h[|h| - 1].timestamp)
    && match s.side
       case Long =>
         && LongReady(u.params, u.cfg, h, u.bias) && LongLevelsExist(u.params, h[|h| - 1])
         && LongPays(u.params, h[|h| - 1]) && LongGeometry(u.params, h[|h| - 1], s)
       case Short =>
         && LongPasses(u.params, u.cfg, h, u.bias)
         && ShortReady(u.params, u.cfg, h, u.bias) && ShortLevelsExist(u.params, h[|h| - 1])
         && ShortPays(u.params, h[|h| - 1]) && ShortGeometry(u.params, h[|h| - 1], s)
  }

  lemma VerdictIsJustified(u: Setup, m: Memory, c: Candle)
    requires c.WellFormed() && u.params.minRr > 0.0 && Verdict(u, m, c).Fired?
    ensures Hears(u, m, c) && IsJustified(u, m.history + [c], Verdict(u, m, c).signal)
  {
    hide LongReady, ShortReady, LongLevelsExist, ShortLevelsExist, LongPays, ShortPays, LongGeometry, ShortGeometry,
         DecideLong, DecideShort;
    var h, name := m.history + [c], u.name(c.timestamp);
    FiredSignal(u, m, c);
    AnswersExactlyWhen(u.params, u.cfg, h, u.bias, name);
    LongFiresExactlyWhen(u.params, u.cfg, h, u.bias, name);
    ShortFiresExactlyWhen(u.params, u.cfg, h, u.bias, name);
    SidesOfGeometry(u.params, c, Verdict(u, m, c).signal);
  }

  lemma SidesOfGeometry(p: Params, c: Candle, s: Signal)
    ensures LongGeometry(p, c, s) ==> s.side == Long
    ensures ShortGeometry(p, c, s) ==> s.side == Short
  {
  }
}
