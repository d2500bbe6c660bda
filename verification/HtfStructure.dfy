/** The higher-timeframe tracker (`HTFStructure` in app/strategy/market_structure.py) and its
    bisimulation with the execution-timeframe one.

    It repeats the swing, sweep and break logic with deques of 256 bars and 40 swings, no prominence
    and no zones. */
module HtfStructures {
  import opened Foundations
  import opened Candles
  import opened StructureSpec
  import PriceLaws

  const HTF_CANDLE_CAP: nat := 256
  const HTF_SWING_CAP: nat := 40

  // ---- the tracker as a function of the whole history ----------------------------------

  function SimpleHigh(k: nat, h: seq<Candle>): (r: Option<Swing>)
  {
    if !HasWindow(k, |h|, HTF_CANDLE_CAP) then None
    else
      var w := Newest(h, 2 * k + 1);
      if w[k].high == MaxOf(Highs(w))
      then Some(Swing(High, w[k].high, w[k].timestamp, |Newest(h, HTF_CANDLE_CAP)| - k - 1, 0.0)) else None
  }

  function SimpleLow(k: nat, h: seq<Candle>): (r: Option<Swing>)
  {
    if !HasWindow(k, |h|, HTF_CANDLE_CAP) then None
    else
      var w := Newest(h, 2 * k + 1);
      if w[k].low == MinOf(Lows(w))
      then Some(Swing(Low, w[k].low, w[k].timestamp, |Newest(h, HTF_CANDLE_CAP)| - k - 1, 0.0)) else None
  }

  function HtfSwings(k: nat, h: seq<Candle>): (r: seq<Swing>)
  {
    if h == [] then []
    else AddSwing(AddSwing(HtfSwings(k, h[..|h| - 1]), SimpleHigh(k, h)), SimpleLow(k, h))
  }

  function HtfReference(k: nat, h: seq<Candle>, kind: SwingType): (r: Option<Swing>)
  {
    Latest(Newest(HtfSwings(k, h), HTF_SWING_CAP), kind)
  }

  function HtfBreakAt(k: nat, h: seq<Candle>): (r: Option<Direction>)
    requires h != []
  {
    BreakOf(h[|h| - 1], HtfReference(k, h, High), HtfReference(k, h, Low))
  }

  function HtfLastBreak(k: nat, h: seq<Candle>): (r: Option<Direction>)
  {
    if h == [] then None
    else if HtfBreakAt(k, h).Some? then HtfBreakAt(k, h)
    else HtfLastBreak(k, h[..|h| - 1])
  }

  function HtfEvents(k: nat, ratio: real, h: seq<Candle>): (r: seq<Event>)
    requires h != []
  {
    EventsOf(h[|h| - 1], ratio, HtfReference(k, h, High), HtfReference(k, h, Low), HtfLastBreak(k, h[..|h| - 1]))
  }

  // ---- the class -------------------------------------------------------------------------

  lemma WindowInDeque(k: nat, bars: seq<Candle>)
    requires |bars| <= HTF_CANDLE_CAP
    ensures var n := |bars|;
            if n < 2 * k + 1 then SimpleHigh(k, bars) == SimpleLow(k, bars) == None
            else
              var w, pivot := bars[n - k - 1 - k..n - k - 1 + k + 1], bars[n - k - 1];
              && |w| == 2 * k + 1
              && SimpleHigh(k, bars) == (if pivot.high == MaxOf(Highs(w))
                                         then Some(Swing(High, pivot.high, pivot.timestamp, n - k - 1, 0.0)) else None)
              && SimpleLow(k, bars) == (if pivot.low == MinOf(Lows(w))
                                        then Some(Swing(Low, pivot.low, pivot.timestamp, n - k - 1, 0.0)) else None)
  {
    hide MaxOf, MinOf, Highs, Lows;
    var n := |bars|;
    if n >= 2 * k + 1 {
      assert bars[n - k - 1 - k..n - k - 1 + k + 1] == Newest(bars, 2 * k + 1);
    }
  }

  lemma PivotInDeque(k: nat, h: seq<Candle>)
    ensures SimpleHigh(k, Newest(h, HTF_CANDLE_CAP)) == SimpleHigh(k, h)
    ensures SimpleLow(k, Newest(h, HTF_CANDLE_CAP)) == SimpleLow(k, h)
  {
    hide MaxOf, MinOf, Highs, Lows, Newest;
    var d := Newest(h, HTF_CANDLE_CAP);
    assert |d| == if |h| <= HTF_CANDLE_CAP then |h| else HTF_CANDLE_CAP by { NewestLength(h, HTF_CANDLE_CAP); }
    NewestOfNewest(h, HTF_CANDLE_CAP, HTF_CANDLE_CAP);
    assert HasWindow(k, |d|, HTF_CANDLE_CAP) <==> HasWindow(k, |h|, HTF_CANDLE_CAP);
    if HasWindow(k, |h|, HTF_CANDLE_CAP) {
      NewestOfNewest(h, HTF_CANDLE_CAP, 2 * k + 1);
      NewestLength(h, 2 * k + 1);
    }
  }

  lemma SwingStep(k: nat, h: seq<Candle>, c: Candle)
    ensures var d := Newest(h + [c], HTF_CANDLE_CAP);
            Store(Store(Newest(HtfSwings(k, h), HTF_SWING_CAP), HTF_SWING_CAP, SimpleHigh(k, d)), HTF_SWING_CAP,
                  SimpleLow(k, d))
            == Newest(HtfSwings(k, h + [c]), HTF_SWING_CAP)
  {
    hide SimpleHigh, SimpleLow;
    var h' := h + [c];
    assert h'[..|h|] == h;
    PivotInDeque(k, h');
    var all := HtfSwings(k, h);
    StoreKeepsNewest(all, HTF_SWING_CAP, SimpleHigh(k, h'));
    StoreKeepsNewest(AddSwing(all, SimpleHigh(k, h')), HTF_SWING_CAP, SimpleLow(k, h'));
  }

  lemma BreakStep(k: nat, ratio: real, h: seq<Candle>, c: Candle)
    ensures var broken := HtfBreakAt(k, h + [c]);
            HtfLastBreak(k, h + [c]) == if broken.Some? then broken else HtfLastBreak(k, h)
    ensures var swings := Newest(HtfSwings(k, h + [c]), HTF_SWING_CAP);
            && HtfBreakAt(k, h + [c]) == BreakOf(c, Latest(swings, High), Latest(swings, Low))
            && HtfEvents(k, ratio, h + [c]) ==
               EventsOf(c, ratio, Latest(swings, High), Latest(swings, Low), HtfLastBreak(k, h))
  {
    assert (h + [c])[..|h|] == h;
  }

  class HTFStructure {
    const lookback: nat
    const wickRatio: real
    var candles: seq<Candle>
    var swings: seq<Swing>
    var lastBos: Option<Kind>
    ghost var history: seq<Candle>

    ghost predicate Valid()
      reads this
    {
      && candles == Newest(history, HTF_CANDLE_CAP)
      && swings == Newest(HtfSwings(lookback, history), HTF_SWING_CAP)
      && lastBos == TrendKind(HtfLastBreak(lookback, history))
    }

    constructor (lookback: nat, wickRatio: real)
      ensures Valid() && history == [] && this.lookback == lookback && this.wickRatio == wickRatio
    {
      this.lookback, this.wickRatio := lookback, wickRatio;
      candles, swings, lastBos, history := [], [], None, [];
    }

    method Update(candle: Candle) returns (events: seq<Event>)
      requires Valid()
      modifies this
      ensures Valid()
      ensures history == old(history) + [candle]
      ensures events == HtfEvents(lookback, wickRatio, history)
    {
      hide HtfSwings, Latest, HtfLastBreak, HtfBreakAt, BreakOf, HtfEvents, EventsOf, SimpleHigh, SimpleLow, Store;
      ghost var trend := HtfLastBreak(lookback, history);
      PushKeepsNewest(history, HTF_CANDLE_CAP, candle);
      SwingStep(lookback, history, candle);
      BreakStep(lookback, wickRatio, history, candle);
      history := history + [candle];
      candles := Push(candles, HTF_CANDLE_CAP, candle);
      DetectSwingsSimple();
      events := DetectEvents(candle, trend);
    }

    method DetectEvents(candle: Candle, ghost trend: Option<Direction>) returns (events: seq<Event>)
      requires lastBos == TrendKind(trend)
      modifies this`lastBos
      ensures events == EventsOf(candle, wickRatio, Latest(swings, High), Latest(swings, Low), trend)
      ensures var broken := BreakOf(candle, Latest(swings, High), Latest(swings, Low));
              lastBos == TrendKind(if broken.Some? then broken else trend)
    {
      events := [];
      var lastHigh := Latest(swings, High);
      var lastLow := Latest(swings, Low);
      if lastHigh.Some? && IsSweepHigh(candle, lastHigh.value.price, wickRatio) {
        events := events + [Event(SweepHigh, candle, lastHigh.value)];
      }
      if lastLow.Some? && IsSweepLow(candle, lastLow.value.price, wickRatio) {
        events := events + [Event(SweepLow, candle, lastLow.value)];
      }
      if lastHigh.Some? && candle.close > lastHigh.value.price {
        var kind := if lastBos == Some(BosBear) then ChochBull else BosBull;
        events := events + [Event(kind, candle, lastHigh.value)];
        lastBos := Some(BosBull);
      } else if lastLow.Some? && candle.close < lastLow.value.price {
        var kind := if lastBos == Some(BosBull) then ChochBear else BosBear;
        events := events + [Event(kind, candle, lastLow.value)];
        lastBos := Some(BosBear);
      }
    }

    method DetectSwingsSimple()
      requires |candles| <= HTF_CANDLE_CAP
      modifies this`swings
      ensures swings == Store(Store(old(swings), HTF_SWING_CAP, SimpleHigh(lookback, candles)), HTF_SWING_CAP,
                              SimpleLow(lookback, candles))
    {
      hide MaxOf, MinOf, Highs, Lows, Store, SimpleHigh, SimpleLow;
      WindowInDeque(lookback, candles);
      var n := |candles|;
      var k := lookback;
      if n < 2 * k + 1 {
        NothingToStore(swings, HTF_SWING_CAP);
        return;
      }
      var pivotIdx := n - k - 1;
      var pivot := candles[pivotIdx];
      var window := candles[pivotIdx - k..pivotIdx + k + 1];
      if pivot.high == MaxOf(Highs(window)) {
        AddSwingPoint(Swing(High, pivot.high, pivot.timestamp, pivotIdx, 0.0));
      } else {
        NothingToStore(swings, HTF_SWING_CAP);
      }
      assert swings == Store(old(swings), HTF_SWING_CAP, SimpleHigh(k, candles));
      if pivot.low == MinOf(Lows(window)) {
        AddSwingPoint(Swing(Low, pivot.low, pivot.timestamp, pivotIdx, 0.0));
      } else {
        NothingToStore(swings, HTF_SWING_CAP);
      }
    }

    method AddSwingPoint(s: Swing)
      modifies this`swings
      ensures swings == Store(old(swings), HTF_SWING_CAP, Some(s))
    {
      if swings != [] && swings[|swings| - 1].timestamp == s.timestamp && swings[|swings| - 1].kind == s.kind {
        return;
      }
      swings := Push(swings, HTF_SWING_CAP, s);
    }

    method Bias() returns (bias: HtfBias)
      requires Valid()
      ensures bias == BiasOf(HtfLastBreak(lookback, history))
      ensures var last := HtfLastBreak(lookback, history);
              && (bias == BiasBullish <==> last == Some(Bullish)) && (bias == BiasBearish <==> last == Some(Bearish))
    {
      if lastBos == Some(BosBull) || lastBos == Some(ChochBull) {
        return BiasBullish;
      }
      if lastBos == Some(BosBear) || lastBos == Some(ChochBear) {
        return BiasBearish;
      }
      return BiasNeutral;
    }
  }

  // ---- bisimulation with the execution-timeframe tracker -----------------------------------

  /** Same pivot, whatever index and prominence were recorded with it. */
  predicate Alike(a: Swing, b: Swing)
  {
    a.kind == b.kind && a.price == b.price && a.timestamp == b.timestamp
  }

  predicate AlikeOption(a: Option<Swing>, b: Option<Swing>)
  {
    if a.None? || b.None? then a == b else Alike(a.value, b.value)
  }

  ghost predicate AllAlike(a: seq<Swing>, b: seq<Swing>)
  {
    |a| == |b| && forall i :: 0 <= i < |a| ==> Alike(a[i], b[i])
  }

  /** Same events: kind, bar, and the price and time of the swing they refer to. */
  ghost predicate SameEvents(a: seq<Event>, b: seq<Event>)
  {
    |a| == |b| &&
    forall i :: 0 <= i < |a| ==>
      a[i].kind == b[i].kind && a[i].candle == b[i].candle && Alike(a[i].reference, b[i].reference)
  }

  lemma AddAlike(a: seq<Swing>, b: seq<Swing>, x: Option<Swing>, y: Option<Swing>)
    requires AllAlike(a, b) && AlikeOption(x, y)
    ensures AllAlike(AddSwing(a, x), AddSwing(b, y))
  {
  }

  lemma ConfirmedAlike(cfg: Config, h: seq<Candle>)
    requires !cfg.adaptive && 2 * cfg.lookback + 1 <= HTF_CANDLE_CAP
    ensures AlikeOption(SimpleHigh(cfg.lookback, h), ConfirmedHigh(cfg, h))
    ensures AlikeOption(SimpleLow(cfg.lookback, h), ConfirmedLow(cfg, h))
  {
    hide MaxOf, MinOf, Highs, Lows, HighProminence, LowProminence, Atr, Newest;
    NewestLength(h, 2 * cfg.lookback + 1);
  }

  /** Without the prominence filter both trackers report the same swings. */
  lemma {:induction false} SwingsAlike(cfg: Config, h: seq<Candle>)
    requires !cfg.adaptive && 2 * cfg.lookback + 1 <= HTF_CANDLE_CAP
    ensures AllAlike(HtfSwings(cfg.lookback, h), AllSwings(cfg, h))
  {
    hide SimpleHigh, SimpleLow, ConfirmedHigh, ConfirmedLow, AddSwing, AllAlike, AlikeOption;
    if h == [] {
      assert AllAlike([], []) by { NothingIsAlike(); }
    } else {
      var k, before := cfg.lookback, h[..|h| - 1];
      SwingsAlike(cfg, before);
      ConfirmedAlike(cfg, h);
      AddAlike(HtfSwings(k, before), AllSwings(cfg, before), SimpleHigh(k, h), ConfirmedHigh(cfg, h));
      AddAlike(AddSwing(HtfSwings(k, before), SimpleHigh(k, h)),
               AddSwing(AllSwings(cfg, before), ConfirmedHigh(cfg, h)),
               SimpleLow(k, h), ConfirmedLow(cfg, h));
    }
  }

  lemma NothingIsAlike()
    ensures AllAlike([], [])
  {
  }

  lemma {:induction false} LatestAlike(a: seq<Swing>, b: seq<Swing>, kind: SwingType)
    requires AllAlike(a, b)
    ensures AlikeOption(Latest(a, kind), Latest(b, kind))
  {
    if a != [] {
      LatestAlike(a[..|a| - 1], b[..|b| - 1], kind);
    }
  }

  ghost predicate NoneOf(s: seq<Swing>, kind: SwingType)
  {
    forall i :: 0 <= i < |s| ==> s[i].kind != kind
  }

  lemma {:induction false} LatestIsNone(s: seq<Swing>, kind: SwingType)
    ensures Latest(s, kind).None? <==> NoneOf(s, kind)
  {
    if s != [] {
      LatestIsNone(s[..|s| - 1], kind);
    }
  }

  lemma {:induction false} LatestOfConcat(a: seq<Swing>, b: seq<Swing>, kind: SwingType)
    ensures Latest(a + b, kind) == if Latest(b, kind).Some? then Latest(b, kind) else Latest(a, kind)
  {
    if b == [] {
      assert a + b == a;
    } else {
      assert (a + b)[..|a + b| - 1] == a + b[..|b| - 1];
      LatestOfConcat(a, b[..|b| - 1], kind);
    }
  }

  /** None of the last 40 swings is of this kind while one of the 10 before them is: the only way the
      shorter deque can forget what the longer one still holds. */
  ghost predicate Forgets(swings: seq<Swing>, kind: SwingType)
  {
    NoneOf(Newest(swings, HTF_SWING_CAP), kind) && !NoneOf(Newest(swings, SWING_CAP), kind)
  }

  /** The two bounded searches find the same swing if and only if nothing was forgotten. */
  lemma SearchesAgree(swings: seq<Swing>, kind: SwingType)
    ensures Latest(Newest(swings, HTF_SWING_CAP), kind) == Latest(Newest(swings, SWING_CAP), kind)
            <==> !Forgets(swings, kind)
  {
    hide Latest, NoneOf;
    var short, long := Newest(swings, HTF_SWING_CAP), Newest(swings, SWING_CAP);
    var extra := long[..|long| - |short|];
    assert long == extra + short;
    LatestOfConcat(extra, short, kind);
    LatestIsNone(short, kind);
    LatestIsNone(long, kind);
  }

  /** No 40 consecutive swings without one of this kind. */
  ghost predicate ShortRuns(swings: seq<Swing>, kind: SwingType)
  {
    forall a, b :: 0 <= a && b == a + HTF_SWING_CAP && b <= |swings| ==> !NoneOf(swings[a..b], kind)
  }

  lemma ShortRunsForgetNothing(swings: seq<Swing>, kind: SwingType)
    requires ShortRuns(swings, kind)
    ensures !Forgets(swings, kind)
  {
    if |swings| >= HTF_SWING_CAP {
      assert swings[|swings| - HTF_SWING_CAP..|swings|] == Newest(swings, HTF_SWING_CAP);
    }
  }

  lemma ReferencesAlike(cfg: Config, h: seq<Candle>, kind: SwingType)
    requires !cfg.adaptive && 2 * cfg.lookback + 1 <= HTF_CANDLE_CAP
    requires !Forgets(AllSwings(cfg, h), kind)
    ensures AlikeOption(HtfReference(cfg.lookback, h, kind), Reference(cfg, h, kind))
  {
    hide HtfSwings, AllSwings, Latest, Forgets;
    var a, b := HtfSwings(cfg.lookback, h), AllSwings(cfg, h);
    SwingsAlike(cfg, h);
    LatestAlike(Newest(a, HTF_SWING_CAP), Newest(b, HTF_SWING_CAP), kind);
    SearchesAgree(b, kind);
  }

  lemma EventsAlike(c: Candle, ratio: real, hi: Option<Swing>, lo: Option<Swing>,
                    hi': Option<Swing>, lo': Option<Swing>, last: Option<Direction>)
    requires AlikeOption(hi, hi') && AlikeOption(lo, lo')
    ensures BreakOf(c, hi, lo) == BreakOf(c, hi', lo')
    ensures SameEvents(EventsOf(c, ratio, hi, lo, last), EventsOf(c, ratio, hi', lo', last))
  {
    hide IsSweepHigh, IsSweepLow;
  }

  /** Over every run in which nothing is forgotten, the two trackers report the same events and agree
      on the trend after every bar, despite their different buffers. */
  lemma {:induction false} Bisimulation(cfg: Config, h: seq<Candle>)
    requires !cfg.adaptive && 2 * cfg.lookback + 1 <= HTF_CANDLE_CAP
    requires forall n, kind :: 0 <= n <= |h| ==> !Forgets(AllSwings(cfg, h[..n]), kind)
    ensures HtfLastBreak(cfg.lookback, h) == LastBreak(cfg, h)
    ensures h != [] ==> SameEvents(HtfEvents(cfg.lookback, cfg.wickRatio, h), Events(cfg, h))
  {
    hide Forgets, AllSwings, HtfReference, Reference, EventsOf, BreakOf, SameEvents, AlikeOption;
    if h != [] {
      var n := |h| - 1;
      var before := h[..n];
      forall m, kind | 0 <= m <= n ensures !Forgets(AllSwings(cfg, before[..m]), kind) {
        assert before[..m] == h[..m];
      }
      Bisimulation(cfg, before);
      assert h[..|h|] == h;
      ReferencesAlike(cfg, h, High);
      ReferencesAlike(cfg, h, Low);
      EventsAlike(h[n], cfg.wickRatio, HtfReference(cfg.lookback, h, High), HtfReference(cfg.lookback, h, Low),
                  Reference(cfg, h, High), Reference(cfg, h, Low), LastBreak(cfg, before));
    }
  }

  lemma {:induction false} SwingsGrow(cfg: Config, h: seq<Candle>, n: nat)
    requires n <= |h|
    ensures AllSwings(cfg, h[..n]) <= AllSwings(cfg, h)
  {
    hide ConfirmedHigh, ConfirmedLow;
    if n == |h| {
      assert h[..n] == h;
    } else {
      var before := h[..|h| - 1];
      SwingsGrow(cfg, before, n);
      assert before[..n] == h[..n];
    }
  }

  /** In particular: a run without 40 consecutive swings of one type. */
  lemma BisimulationOverShortRuns(cfg: Config, h: seq<Candle>)
    requires !cfg.adaptive && 2 * cfg.lookback + 1 <= HTF_CANDLE_CAP
    requires ShortRuns(AllSwings(cfg, h), High) && ShortRuns(AllSwings(cfg, h), Low)
    ensures HtfLastBreak(cfg.lookback, h) == LastBreak(cfg, h)
    ensures h != [] ==> SameEvents(HtfEvents(cfg.lookback, cfg.wickRatio, h), Events(cfg, h))
  {
    hide AllSwings, HtfLastBreak, LastBreak, HtfEvents, Events, SameEvents, Forgets, NoneOf;
    forall n, kind | 0 <= n <= |h| ensures !Forgets(AllSwings(cfg, h[..n]), kind) {
      SwingsGrow(cfg, h, n);
      var all, part := AllSwings(cfg, h), AllSwings(cfg, h[..n]);
      assert ShortRuns(all, kind) by { assert kind == High || kind == Low; }
      forall i, j | 0 <= i && j == i + HTF_SWING_CAP && j <= |part| ensures !NoneOf(part[i..j], kind) {
        assert part[i..j] == all[i..j];
      }
      ShortRunsForgetNothing(part, kind);
    }
    Bisimulation(cfg, h);
  }

  // ---- in prices ------------------------------------------------------------------------------

  /** Exactly when the newest bar confirms a swing: its window of `2 * k + 1` bars fits into the 256 kept and the bar
      in its middle is the extreme. */
  ghost predicate Confirms(k: nat, h: seq<Candle>, kind: SwingType, s: Swing)
  {
    && 2 * k + 1 <= |h| && 2 * k + 1 <= 256
    && var w := h[|h| - 2 * k - 1..];
       && s.kind == kind && s.timestamp == w[k].timestamp && s.price == (if kind == High then w[k].high else w[k].low)
       && s.index == (if |h| <= 256 then |h| else 256) - k - 1 && s.prominence == 0.0
       && forall j :: 0 <= j < |w| ==> if kind == High then w[j].high <= w[k].high else w[k].low <= w[j].low
  }

  lemma SwingConfirmedExactlyWhen(k: nat, h: seq<Candle>, s: Swing)
    ensures SimpleHigh(k, h) == Some(s) <==> Confirms(k, h, High, s)
    ensures SimpleLow(k, h) == Some(s) <==> Confirms(k, h, Low, s)
  {
    hide MaxOf, MinOf, Highs, Lows;
    if 2 * k + 1 <= |h| && 2 * k + 1 <= 256 {
      var w := h[|h| - 2 * k - 1..];
      assert Newest(h, 2 * k + 1) == w;
      PriceLaws.Extremes(w, k);
    }
  }

  /** The swing a bar is measured against is the newest of its kind among the last 40 stored. */
  lemma ReferenceIsNewest(k: nat, h: seq<Candle>, kind: SwingType) returns (i: nat)
    ensures var all, r := HtfSwings(k, h), HtfReference(k, h, kind);
            if r.Some? then
              && i < |all| <= i + 40 && r.value == all[i] && all[i].kind == kind
              && forall j :: i < j < |all| ==> all[j].kind != kind
            else forall j :: 0 <= j < |all| && |all| <= j + 40 ==> all[j].kind != kind
  {
    hide HtfSwings;
    var all := HtfSwings(k, h);
    var kept := Newest(all, HTF_SWING_CAP);
    i := PriceLaws.LatestIsNewest(kept, kind);
    assert forall j :: 0 <= j < |kept| ==> kept[j] == all[|all| - |kept| + j];
    if Latest(kept, kind).Some? {
      i := |all| - |kept| + i;
    }
  }
}
