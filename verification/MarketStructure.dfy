/** The execution-timeframe tracker (`MarketStructure` in app/strategy/market_structure.py).

    The class keeps the source's bounded deques and updates them bar by bar. `Valid()` says that every
    deque is what StructureSpec computes from the whole history, so each method is proved against a
    specification that has no buffers in it. */
module MarketStructures {
  import opened Foundations
  import opened Candles
  import opened StructureSpec

  // ---- what the deque shows is what the history shows ---------------------------------

  function PushMaybe<T>(s: seq<T>, n: nat, x: Option<T>): (r: seq<T>)
  {
    if x.None? then s else Push(s, n, x.value)
  }

  /** A pivot's verdict depends on the bars outside its window only through their ATR. */
  lemma PivotByAtr(cfg: Config, h: seq<Candle>, d: seq<Candle>, w: seq<Candle>, index: int)
    requires Atr(h) == Atr(d) && |w| == 2 * cfg.lookback + 1
    ensures HighAt(cfg, h, w, index) == HighAt(cfg, d, w, index)
    ensures LowAt(cfg, h, w, index) == LowAt(cfg, d, w, index)
  {
    hide Atr, HighProminence, LowProminence, MaxOf, MinOf, Highs, Lows;
  }

  /** The deque's slice around its pivot is the window the specification looks at. */
  lemma WindowInDeque(cfg: Config, bars: seq<Candle>)
    requires |bars| <= CANDLE_CAP
    ensures var k, n := cfg.lookback, |bars|;
            if n < 2 * k + 1 then ConfirmedHigh(cfg, bars) == ConfirmedLow(cfg, bars) == None
            else
              var w := bars[n - k - 1 - k..n - k - 1 + k + 1];
              && |w| == 2 * k + 1 && w[k] == bars[n - k - 1]
              && ConfirmedHigh(cfg, bars) == HighAt(cfg, bars, w, n - k - 1)
              && ConfirmedLow(cfg, bars) == LowAt(cfg, bars, w, n - k - 1)
  {
    hide HighAt, LowAt;
    var k, n := cfg.lookback, |bars|;
    if n >= 2 * k + 1 {
      assert bars[n - k - 1 - k..n - k - 1 + k + 1] == Newest(bars, 2 * k + 1);
    }
  }

  lemma PivotInDeque(cfg: Config, h: seq<Candle>)
    ensures ConfirmedHigh(cfg, Newest(h, CANDLE_CAP)) == ConfirmedHigh(cfg, h)
    ensures ConfirmedLow(cfg, Newest(h, CANDLE_CAP)) == ConfirmedLow(cfg, h)
  {
    hide Atr, HighAt, LowAt;
    var k, d := cfg.lookback, Newest(h, CANDLE_CAP);
    AtrOfNewest(h, CANDLE_CAP);
    NewestOfNewest(h, CANDLE_CAP, CANDLE_CAP);
    assert HasWindow(k, |d|, CANDLE_CAP) <==> HasWindow(k, |h|, CANDLE_CAP);
    if HasWindow(k, |h|, CANDLE_CAP) {
      NewestOfNewest(h, CANDLE_CAP, 2 * k + 1);
      PivotByAtr(cfg, h, d, Newest(h, 2 * k + 1), |d| - k - 1);
    }
  }

  lemma SearchInDeque(d: Direction, h: seq<Candle>, lo: nat, hi: nat, shift: nat)
    requires lo <= hi <= |h| - shift
    ensures LastOpposing(d, h[shift..], lo, hi) == LastOpposing(d, h, shift + lo, shift + hi)
    decreases hi
  {
  }

  lemma BlockInDeque(cfg: Config, d: Direction, h: seq<Candle>)
    requires h != []
    ensures BlockBehind(cfg, d, Newest(h, CANDLE_CAP)) == BlockBehind(cfg, d, h)
  {
    hide Atr;
    AtrOfNewest(h, CANDLE_CAP);
    var bars := Newest(h, CANDLE_CAP);
    var end := |bars| - 1;
    if |h| > CANDLE_CAP {
      SearchInDeque(d, h, end - BLOCK_SEARCH, end, |h| - CANDLE_CAP);
    }
  }

  lemma GapInDeque(cfg: Config, h: seq<Candle>)
    ensures BullishGap(cfg, Newest(h, CANDLE_CAP)) == BullishGap(cfg, h)
    ensures BearishGap(cfg, Newest(h, CANDLE_CAP)) == BearishGap(cfg, h)
  {
    hide Atr;
    AtrOfNewest(h, CANDLE_CAP);
  }

  lemma BirthOfBlock(bs: seq<Born<OrderBlock>>, h: seq<Candle>, ob: Option<OrderBlock>)
    requires ob.Some? ==> !ob.value.mitigated
    ensures PushMaybe(MarkBlocks(Newest(bs, ZONE_CAP), h), ZONE_CAP, ob)
            == MarkBlocks(Newest(AddBirth(bs, ob, |h|), ZONE_CAP), h)
  {
    if ob.Some? {
      PushKeepsNewest(bs, ZONE_CAP, Born(ob.value, |h|));
    }
  }

  lemma BirthOfGap(bs: seq<Born<FairValueGap>>, h: seq<Candle>, g: Option<FairValueGap>)
    requires g.Some? ==> !g.value.filled
    ensures PushMaybe(MarkGaps(Newest(bs, ZONE_CAP), h), ZONE_CAP, g)
            == MarkGaps(Newest(AddBirth(bs, g, |h|), ZONE_CAP), h)
  {
    if g.Some? {
      PushKeepsNewest(bs, ZONE_CAP, Born(g.value, |h|));
    }
  }

  function TouchAll(obs: seq<OrderBlock>, c: Candle): (r: seq<OrderBlock>)
  {
    seq(|obs|, i requires 0 <= i < |obs| => Touched(obs[i], c))
  }

  function FillAll(gs: seq<FairValueGap>, c: Candle): (r: seq<FairValueGap>)
  {
    seq(|gs|, i requires 0 <= i < |gs| => FilledBy(gs[i], c))
  }

  /** Marking what the newest bar touches brings every mark up to date. */
  lemma TouchUpdatesMarks(bs: seq<Born<OrderBlock>>, h: seq<Candle>, c: Candle)
    requires forall i :: 0 <= i < |bs| ==> bs[i].at <= |h|
    ensures TouchAll(MarkBlocks(bs, h), c) == MarkBlocks(bs, h + [c])
  {
    var h' := h + [c];
    forall i | 0 <= i < |bs| ensures Touched(MarkBlocks(bs, h)[i], c) == MarkBlocks(bs, h')[i] {
      var b := bs[i];
      assert h'[|h|] == c;
      assert forall j :: 0 <= j < |h| ==> h'[j] == h[j];
      assert TouchesBlock(MarkBlocks(bs, h)[i], c) <==> TouchesBlock(b.zone, c);
      assert Mitigated(b, h') <==> Mitigated(b, h) || TouchesBlock(b.zone, c);
    }
  }

  lemma FillUpdatesMarks(bs: seq<Born<FairValueGap>>, h: seq<Candle>, c: Candle)
    requires forall i :: 0 <= i < |bs| ==> bs[i].at <= |h|
    ensures FillAll(MarkGaps(bs, h), c) == MarkGaps(bs, h + [c])
  {
    var h' := h + [c];
    forall i | 0 <= i < |bs| ensures FilledBy(MarkGaps(bs, h)[i], c) == MarkGaps(bs, h')[i] {
      var b := bs[i];
      assert h'[|h|] == c;
      assert forall j :: 0 <= j < |h| ==> h'[j] == h[j];
      assert FillsGap(MarkGaps(bs, h)[i], c) <==> FillsGap(b.zone, c);
      assert Filled(b, h') <==> Filled(b, h) || FillsGap(b.zone, c);
    }
  }

  // ---- one bounded step is one step of the unbounded history ---------------------------

  lemma SwingStep(cfg: Config, h: seq<Candle>, c: Candle)
    ensures var d := Newest(h + [c], CANDLE_CAP);
            Store(Store(Newest(AllSwings(cfg, h), SWING_CAP), SWING_CAP, ConfirmedHigh(cfg, d)), SWING_CAP,
                  ConfirmedLow(cfg, d))
            == Newest(AllSwings(cfg, h + [c]), SWING_CAP)
  {
    var h' := h + [c];
    assert h'[..|h|] == h;
    PivotInDeque(cfg, h');
    var all := AllSwings(cfg, h);
    StoreKeepsNewest(all, SWING_CAP, ConfirmedHigh(cfg, h'));
    StoreKeepsNewest(AddSwing(all, ConfirmedHigh(cfg, h')), SWING_CAP, ConfirmedLow(cfg, h'));
  }

  /** The block that breaking in direction `d` puts at the end of the deque. */
  function BlockIn(cfg: Config, d: Option<Direction>, bars: seq<Candle>): (r: Option<OrderBlock>)
    requires bars != []
  {
    if d.None? then None else BlockBehind(cfg, d.value, bars)
  }

  lemma BlockStep(cfg: Config, h: seq<Candle>, c: Candle)
    ensures var d := Newest(h + [c], CANDLE_CAP);
            TouchAll(PushMaybe(StoredBlocks(cfg, h), ZONE_CAP, BlockIn(cfg, BreakAt(cfg, h + [c]), d)), c)
            == StoredBlocks(cfg, h + [c])
  {
    hide MarkBlocks, TouchAll, BreakAt;
    var h' := h + [c];
    assert h'[..|h|] == h;
    var at := BreakAt(cfg, h');
    if at.Some? {
      BlockInDeque(cfg, at.value, h');
    }
    BirthOfBlock(AllBlocks(cfg, h), h, BlockAt(cfg, h'));
    TouchUpdatesMarks(Newest(AllBlocks(cfg, h'), ZONE_CAP), h, c);
  }

  lemma GapsStartUnfilled(cfg: Config, h: seq<Candle>)
    ensures BullishGap(cfg, h).Some? ==> !BullishGap(cfg, h).value.filled
    ensures BearishGap(cfg, h).Some? ==> !BearishGap(cfg, h).value.filled
  {
  }

  lemma GapStep(cfg: Config, h: seq<Candle>, c: Candle)
    ensures var d := Newest(h + [c], CANDLE_CAP);
            FillAll(PushMaybe(PushMaybe(StoredGaps(cfg, h), ZONE_CAP, BullishGap(cfg, d)), ZONE_CAP,
                              BearishGap(cfg, d)), c)
            == StoredGaps(cfg, h + [c])
  {
    var h' := h + [c];
    assert h'[..|h|] == h;
    GapInDeque(cfg, h');
    GapsStartUnfilled(cfg, h');
    hide BullishGap, BearishGap, FillAll, MarkGaps, PushMaybe;
    var born := AllGaps(cfg, h);
    BirthOfGap(born, h, BullishGap(cfg, h'));
    BirthOfGap(AddBirth(born, BullishGap(cfg, h'), |h|), h, BearishGap(cfg, h'));
    FillUpdatesMarks(Newest(AllGaps(cfg, h'), ZONE_CAP), h, c);
  }

  lemma BreakStep(cfg: Config, h: seq<Candle>, c: Candle)
    ensures var broken := BreakAt(cfg, h + [c]);
            LastBreak(cfg, h + [c]) == if broken.Some? then broken else LastBreak(cfg, h)
    ensures var swings := Newest(AllSwings(cfg, h + [c]), SWING_CAP);
            && BreakAt(cfg, h + [c]) == BreakOf(c, Latest(swings, High), Latest(swings, Low))
            && Events(cfg, h + [c]) ==
               EventsOf(c, cfg.wickRatio, Latest(swings, High), Latest(swings, Low), LastBreak(cfg, h))
  {
    assert (h + [c])[..|h|] == h;
  }

  class MarketStructure {
    const cfg: Config
    var candles: seq<Candle>
    var swings: seq<Swing>
    var lastBos: Option<Kind>
    var orderBlocks: seq<OrderBlock>
    var fvgs: seq<FairValueGap>
    var htfBias: HtfBias
    /** Every bar ever ingested. */
    ghost var history: seq<Candle>

    ghost predicate Valid()
      reads this
    {
      && candles == Newest(history, CANDLE_CAP)
      && swings == Newest(AllSwings(cfg, history), SWING_CAP)
      && lastBos == TrendKind(LastBreak(cfg, history))
      && orderBlocks == StoredBlocks(cfg, history)
      && fvgs == StoredGaps(cfg, history)
    }

    constructor (cfg: Config)
      ensures Valid() && history == [] && this.cfg == cfg && htfBias == BiasNeutral
    {
      this.cfg := cfg;
      candles, swings, lastBos, orderBlocks, fvgs := [], [], None, [], [];
      htfBias, history := BiasNeutral, [];
    }

    method SetHtfBias(bias: HtfBias)
      modifies this`htfBias
      ensures htfBias == bias
    {
      htfBias := bias;
    }

    /** Ingest one bar; report sweeps and breaks. */
    method Update(candle: Candle) returns (events: seq<Event>)
      requires Valid()
      modifies this
      ensures Valid() && htfBias == old(htfBias)
      ensures history == old(history) + [candle]
      ensures events == Events(cfg, history)
    {
      hide AllSwings, Latest, LastBreak, BreakAt, BreakOf, Events, EventsOf, StoredBlocks, StoredGaps,
           ConfirmedHigh, ConfirmedLow, Store, PushMaybe, TouchAll, FillAll, BlockIn, BullishGap, BearishGap;
      ghost var trend := LastBreak(cfg, history);
      PushKeepsNewest(history, CANDLE_CAP, candle);
      SwingStep(cfg, history, candle);
      BreakStep(cfg, history, candle);
      BlockStep(cfg, history, candle);
      GapStep(cfg, history, candle);
      history := history + [candle];
      candles := Push(candles, CANDLE_CAP, candle);

      DetectSwings();
      events := DetectEvents(candle, trend);
      DetectFvg();
      MitigateObs(candle);
      FillFvgs(candle);
    }

    /** Steps 2 and 3 of the ingestion: sweeps first, then at most one break. */
    method DetectEvents(candle: Candle, ghost trend: Option<Direction>) returns (events: seq<Event>)
      requires candles != [] && candles[|candles| - 1] == candle && lastBos == TrendKind(trend)
      modifies this`lastBos, this`orderBlocks
      ensures events == EventsOf(candle, cfg.wickRatio, Latest(swings, High), Latest(swings, Low), trend)
      ensures var broken := BreakOf(candle, Latest(swings, High), Latest(swings, Low));
              && lastBos == TrendKind(if broken.Some? then broken else trend)
              && orderBlocks == PushMaybe(old(orderBlocks), ZONE_CAP, BlockIn(cfg, broken, candles))
    {
      hide Latest, Sweeps, BlockBehind;
      var lastHigh := Latest(swings, High);
      var lastLow := Latest(swings, Low);
      events := DetectSweeps(candle, lastHigh, lastLow);

      if lastHigh.Some? && candle.close > lastHigh.value.price {
        var kind := if lastBos == Some(BosBear) then ChochBull else BosBull;
        events := events + [Event(kind, candle, lastHigh.value)];
        lastBos := Some(BosBull);
        DetectOrderBlock(candle, Bullish);
      } else if lastLow.Some? && candle.close < lastLow.value.price {
        var kind := if lastBos == Some(BosBull) then ChochBear else BosBear;
        events := events + [Event(kind, candle, lastLow.value)];
        lastBos := Some(BosBear);
        DetectOrderBlock(candle, Bearish);
      }
    }

    method DetectSweeps(candle: Candle, lastHigh: Option<Swing>, lastLow: Option<Swing>) returns (events: seq<Event>)
      ensures events == Sweeps(candle, cfg.wickRatio, lastHigh, lastLow)
    {
      hide IsSweepHigh, IsSweepLow;
      events := [];
      if lastHigh.Some? && IsSweepHigh(candle, lastHigh.value.price, cfg.wickRatio) {
        events := events + [Event(SweepHigh, candle, lastHigh.value)];
      }
      if lastLow.Some? && IsSweepLow(candle, lastLow.value.price, cfg.wickRatio) {
        events := events + [Event(SweepLow, candle, lastLow.value)];
      }
    }

    method DetectSwings()
      requires |candles| <= CANDLE_CAP
      modifies this`swings
      ensures swings == Store(Store(old(swings), SWING_CAP, ConfirmedHigh(cfg, candles)), SWING_CAP,
                              ConfirmedLow(cfg, candles))
    {
      hide Atr, MaxOf, MinOf, Highs, Lows, HighProminence, LowProminence, PassesProminence, Store,
           ConfirmedHigh, ConfirmedLow;
      WindowInDeque(cfg, candles);
      var n := |candles|;
      var k := cfg.lookback;
      if n < 2 * k + 1 {
        NothingToStore(swings, SWING_CAP);
        return;
      }
      var pivotIdx := n - k - 1;
      var pivot := candles[pivotIdx];
      var window := candles[pivotIdx - k..pivotIdx + k + 1];

      if pivot.high == MaxOf(Highs(window)) {
        AddIfProminent(Swing(High, pivot.high, pivot.timestamp, pivotIdx, HighProminence(window, pivot)));
      } else {
        NothingToStore(swings, SWING_CAP);
      }
      assert swings == Store(old(swings), SWING_CAP, ConfirmedHigh(cfg, candles));

      if pivot.low == MinOf(Lows(window)) {
        AddIfProminent(Swing(Low, pivot.low, pivot.timestamp, pivotIdx, LowProminence(window, pivot)));
      } else {
        NothingToStore(swings, SWING_CAP);
      }
    }

    /** The adaptive prominence filter, then `_add_swing`: a repeat of the newest swing is dropped. */
    method AddIfProminent(s: Swing)
      modifies this`swings
      ensures swings == Store(old(swings), SWING_CAP,
                              if PassesProminence(cfg, candles, s.prominence) then Some(s) else None)
    {
      var passes := Passes(s.prominence);
      if !passes {
        return;
      }
      if swings != [] && swings[|swings| - 1].timestamp == s.timestamp && swings[|swings| - 1].kind == s.kind {
        return;
      }
      swings := Push(swings, SWING_CAP, s);
    }

    method Passes(prominence: real) returns (passes: bool)
      ensures passes <==> PassesProminence(cfg, candles, prominence)
    {
      hide Atr;
      if !cfg.adaptive {
        return true;
      }
      var atr := ComputeAtr(candles);
      if atr <= 0.0 {
        return true;
      }
      return prominence >= cfg.prominenceMult * atr;
    }

    method DetectOrderBlock(breaker: Candle, d: Direction)
      requires candles != [] && breaker == candles[|candles| - 1]
      modifies this`orderBlocks
      ensures orderBlocks == PushMaybe(old(orderBlocks), ZONE_CAP, BlockBehind(cfg, d, candles))
    {
      hide Atr;
      var atr := ComputeAtr(candles);
      if atr <= 0.0 {
        return;
      }
      if breaker.Body() < cfg.displacementMult * atr {
        return;
      }
      var end := |candles| - 1;
      var start := if end < BLOCK_SEARCH then 0 else end - BLOCK_SEARCH;
      var source: Option<Candle> := None;
      for i := end downto start
        invariant source.None?
        invariant LastOpposing(d, candles, start, end) == LastOpposing(d, candles, start, i)
      {
        if Opposes(d, candles[i]) {
          source := Some(candles[i]);
          break;
        }
      }
      if source.None? {
        return;
      }
      orderBlocks := Push(orderBlocks, ZONE_CAP, BlockFrom(d, source.value, breaker));
    }

    method DetectFvg()
      modifies this`fvgs
      ensures fvgs ==
              PushMaybe(PushMaybe(old(fvgs), ZONE_CAP, BullishGap(cfg, candles)), ZONE_CAP, BearishGap(cfg, candles))
    {
      hide Atr, Push;
      if |candles| < 3 {
        return;
      }
      var b0, b1, b2 := candles[|candles| - 3], candles[|candles| - 2], candles[|candles| - 1];
      var atr := ComputeAtr(candles);
      var minSize := cfg.fvgMult * atr;
      if b0.high < b2.low {
        var size := b2.low - b0.high;
        if size >= minSize {
          fvgs := Push(fvgs, ZONE_CAP, FairValueGap(Bullish, b2.low, b0.high, b1.timestamp, false));
        }
      }
      assert fvgs == PushMaybe(old(fvgs), ZONE_CAP, BullishGap(cfg, candles));
      if b0.low > b2.high {
        var size := b0.low - b2.high;
        if size >= minSize {
          fvgs := Push(fvgs, ZONE_CAP, FairValueGap(Bearish, b0.low, b2.high, b1.timestamp, false));
        }
      }
    }

    method MitigateObs(candle: Candle)
      modifies this`orderBlocks
      ensures orderBlocks == TouchAll(old(orderBlocks), candle)
    {
      var updated: seq<OrderBlock> := [];
      for i := 0 to |orderBlocks|
        invariant |updated| == i
        invariant forall j :: 0 <= j < i ==> updated[j] == Touched(orderBlocks[j], candle)
      {
        var ob := orderBlocks[i];
        if ob.mitigated {
          updated := updated + [ob];
          continue;
        }
        var touched := TouchesBlock(ob, candle);
        if touched {
          updated := updated + [ob.(mitigated := true)];
        } else {
          updated := updated + [ob];
        }
      }
      orderBlocks := updated;
    }

    method FillFvgs(candle: Candle)
      modifies this`fvgs
      ensures fvgs == FillAll(old(fvgs), candle)
    {
      var updated: seq<FairValueGap> := [];
      for i := 0 to |fvgs|
        invariant |updated| == i
        invariant forall j :: 0 <= j < i ==> updated[j] == FilledBy(fvgs[j], candle)
      {
        var g := fvgs[i];
        if g.filled {
          updated := updated + [g];
          continue;
        }
        var filled := FillsGap(g, candle);
        if filled {
          updated := updated + [g.(filled := true)];
        } else {
          updated := updated + [g];
        }
      }
      fvgs := updated;
    }

    method FindOrderBlocks(d: Option<Direction>, activeOnly: bool) returns (r: seq<OrderBlock>)
      ensures r == BlockQuery(orderBlocks, d, activeOnly)
    {
      r := [];
      for i := |orderBlocks| downto 0
        invariant r == BlockQuery(orderBlocks[i..], d, activeOnly)
      {
        var ob := orderBlocks[i];
        assert orderBlocks[i..][1..] == orderBlocks[i + 1..];
        if activeOnly && ob.mitigated {
          continue;
        }
        if d.Some? && ob.direction != d.value {
          continue;
        }
        r := r + [ob];
      }
    }

    method FindFvg(d: Option<Direction>, activeOnly: bool) returns (r: seq<FairValueGap>)
      ensures r == GapQuery(fvgs, d, activeOnly)
    {
      r := [];
      for i := |fvgs| downto 0
        invariant r == GapQuery(fvgs[i..], d, activeOnly)
      {
        var g := fvgs[i];
        assert fvgs[i..][1..] == fvgs[i + 1..];
        if activeOnly && g.filled {
          continue;
        }
        if d.Some? && g.direction != d.value {
          continue;
        }
        r := r + [g];
      }
    }

    /** Grade a candidate entry from 0 to 1. */
    method CalculateConfluenceScore(price: real, d: Direction) returns (score: real)
      requires Valid()
      ensures score == ConfluenceScore(
                if d == Bullish then htfBias == BiasBullish else htfBias == BiasBearish,
                FirstHit(BlockQuery(StoredBlocks(cfg, history), Some(d), true), price).Some?,
                FirstGapHit(GapQuery(StoredGaps(cfg, history), Some(d), true), price).Some?,
                LastBreak(cfg, history) == Some(d),
                NearSwing(Newest(AllSwings(cfg, history), SWING_CAP), price, d, Atr(history)))
    {
      hide Atr, LastBreak, AllSwings, StoredBlocks, StoredGaps, BlockQuery, GapQuery, FirstHit, FirstGapHit, Newest,
           NearSwing;
      AtrOfNewest(history, CANDLE_CAP);
      score := 0.0;
      if d == Bullish && htfBias == BiasBullish {
        score := score + 0.25;
      } else if d == Bearish && htfBias == BiasBearish {
        score := score + 0.25;
      }

      ghost var supported := if d == Bullish then htfBias == BiasBullish else htfBias == BiasBearish;
      assert score == if supported then 0.25 else 0.0;

      var blocks := FindOrderBlocks(Some(d), true);
      var hit := AnyBlockAt(blocks, price);
      if hit {
        score := score + 0.25;
      }

      var gaps := FindFvg(Some(d), true);
      var gapHit := AnyGapAt(gaps, price);
      if gapHit {
        score := score + 0.20;
      }

      if d == Bullish && (lastBos == Some(BosBull) || lastBos == Some(ChochBull)) {
        score := score + 0.20;
      } else if d == Bearish && (lastBos == Some(BosBear) || lastBos == Some(ChochBear)) {
        score := score + 0.20;
      }

      ghost var trend := LastBreak(cfg, history) == Some(d);
      assert score == ConfluenceScore(supported, hit, gapHit, trend, false);

      var near := NearLatest(price, d);
      if near {
        score := score + 0.10;
      }
      score := Min(score, 1.0);
    }

    /** The latest swing the trade would lean on is close. */
    method NearLatest(price: real, d: Direction) returns (near: bool)
      ensures near <==> NearSwing(swings, price, d, Atr(candles))
    {
      hide Atr, Latest, Abs;
      var atr := ComputeAtr(candles);
      if atr <= 0.0 {
        return false;
      }
      var threshold := 2.0 * atr;
      var s := Latest(swings, if d == Bullish then Low else High);
      return s.Some? && Abs(price - s.value.price) <= threshold;
    }

    method AnyBlockAt(blocks: seq<OrderBlock>, price: real) returns (hit: bool)
      ensures hit <==> FirstHit(blocks, price).Some?
    {
      for i := 0 to |blocks|
        invariant FirstHit(blocks, price) == FirstHit(blocks[i..], price)
      {
        if blocks[i].zoneLow <= price <= blocks[i].zoneHigh {
          return true;
        }
      }
      return false;
    }

    method AnyGapAt(gaps: seq<FairValueGap>, price: real) returns (hit: bool)
      ensures hit <==> FirstGapHit(gaps, price).Some?
    {
      for i := 0 to |gaps|
        invariant FirstGapHit(gaps, price) == FirstGapHit(gaps[i..], price)
      {
        if gaps[i].gapLow <= price <= gaps[i].gapHigh {
          return true;
        }
      }
      return false;
    }
  }
}
