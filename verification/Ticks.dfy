/** Tick-to-candle aggregation of the REST poller (`_produce_candle` in app/market/rest_poller.py). */
module Ticks {
  import opened Foundations
  import opened Candles

  /** A polled mid price, the monotonic time and the UTC time it was seen. */
  datatype Tick = Tick(now: real, utc: int, price: real)

  datatype Bar = Bar(open: real, high: real, low: real, close: real, volume: real)
  {
    function On(symbol: string, timeframe: string, utc: int): (r: Candle)
    {
      Candle(symbol, timeframe, utc, open, high, low, close, volume)
    }
  }

  function TimeframeOf(secs: int): (r: string)
  {
    if secs == 300 then "M5"
    else if secs == 900 then "M15"
    else if secs == 1800 then "M30"
    else if secs == 3600 then "H1"
    else if secs == 14400 then "H4"
    else if secs == 86400 then "D1"
    else "M1"
  }

  datatype Buffer = Buffer(open: real, high: real, low: real, close: real, volume: real, tsStart: real)

  // ---- the candles as segments of the tick sequence --------------------------------------------

  function Prices(ticks: seq<Tick>): (r: seq<real>)
    ensures |r| == |ticks|
  {
    seq(|ticks|, i requires 0 <= i < |ticks| => ticks[i].price)
  }

  /** The candle of ticks `a` to `b`, both included; the first of them only opened the buffer. */
  function BarOf(ticks: seq<Tick>, a: nat, b: nat): (r: Bar)
    requires a <= b < |ticks|
  {
    var prices := Prices(ticks[a..b + 1]);
    Bar(ticks[a].price, MaxOf(prices), MinOf(prices), ticks[b].price, (b - a) as real)
  }

  /** Where the running segment starts: at the last tick that completed a candle, or at the first tick. */
  function SegmentStart(ticks: seq<Tick>, secs: int): (r: nat)
    ensures ticks != [] ==> r < |ticks|
    decreases |ticks|, 1
  {
    if |ticks| <= 1 then 0
    else
      var n := |ticks| - 1;
      if Completes(ticks, secs) then n else SegmentStart(ticks[..n], secs)
  }

  /** The last tick completes a candle: the running segment has lasted `secs` seconds. */
  predicate Completes(ticks: seq<Tick>, secs: int)
    requires |ticks| > 1
    decreases |ticks|, 0
  {
    var n := |ticks| - 1;
    ticks[n].now - ticks[SegmentStart(ticks[..n], secs)].now >= secs as real
  }

  datatype Span = Span(first: nat, last: nat)

  /** The segments that became candles, oldest first. */
  function Spans(ticks: seq<Tick>, secs: int): (r: seq<Span>)
    ensures forall i :: 0 <= i < |r| ==> r[i].first < r[i].last < |ticks|
  {
    if |ticks| <= 1 then []
    else
      var n := |ticks| - 1;
      Spans(ticks[..n], secs) + if Completes(ticks, secs) then [Span(SegmentStart(ticks[..n], secs), n)] else []
  }

  function BarsOf(ticks: seq<Tick>, spans: seq<Span>): (r: seq<Bar>)
    requires forall i :: 0 <= i < |spans| ==> spans[i].first <= spans[i].last < |ticks|
  {
    seq(|spans|, i requires 0 <= i < |spans| => BarOf(ticks, spans[i].first, spans[i].last))
  }

  /** The candles as the strategy receives them, stamped when they were completed. */
  function CandlesOf(symbol: string, secs: int, ticks: seq<Tick>, spans: seq<Span>): (r: seq<Candle>)
    requires forall i :: 0 <= i < |spans| ==> spans[i].first <= spans[i].last < |ticks|
  {
    seq(|spans|, i requires 0 <= i < |spans| => CandleOf(symbol, secs, ticks, spans[i]))
  }

  function CandleOf(symbol: string, secs: int, ticks: seq<Tick>, s: Span): (r: Candle)
    requires s.first <= s.last < |ticks|
  {
    BarOf(ticks, s.first, s.last).On(symbol, TimeframeOf(secs), ticks[s.last].utc)
  }

  function BufferOf(ticks: seq<Tick>, secs: int): (r: Buffer)
    requires ticks != []
  {
    var a := SegmentStart(ticks, secs);
    var b := BarOf(ticks, a, |ticks| - 1);
    Buffer(b.open, b.high, b.low, b.close, b.volume, ticks[a].now)
  }

  /** The spans tile the ticks from the first to the start of the running segment; each ends at the first
      tick that is `secs` or more after its start. */
  ghost predicate Tiles(ticks: seq<Tick>, secs: int, spans: seq<Span>, until: nat)
  {
    && (forall i :: 0 <= i < |spans| ==> IsFirstAfter(ticks, secs, spans[i]))
    && (forall i :: 0 <= i < |spans| - 1 ==> spans[i].last == spans[i + 1].first)
    && (if spans == [] then until == 0 else spans[0].first == 0 && spans[|spans| - 1].last == until)
  }

  ghost predicate IsFirstAfter(ticks: seq<Tick>, secs: int, s: Span)
  {
    && s.first < s.last < |ticks|
    && ticks[s.last].now - ticks[s.first].now >= secs as real
    && forall j :: s.first < j < s.last ==> ticks[j].now - ticks[s.first].now < secs as real
  }

  /** Inside the running segment no tick completes a candle. */
  ghost predicate Unfinished(ticks: seq<Tick>, secs: int)
  {
    ticks != [] ==>
      forall j :: SegmentStart(ticks, secs) < j < |ticks| ==>
        ticks[j].now - ticks[SegmentStart(ticks, secs)].now < secs as real
  }

  lemma StartStep(ticks: seq<Tick>, t: Tick, secs: int)
    requires ticks != []
    ensures var a := SegmentStart(ticks, secs);
            && (Completes(ticks + [t], secs) <==> t.now - ticks[a].now >= secs as real)
            && SegmentStart(ticks + [t], secs) == (if Completes(ticks + [t], secs) then |ticks| else a)
            && Spans(ticks + [t], secs) ==
               Spans(ticks, secs) + if Completes(ticks + [t], secs) then [Span(a, |ticks|)] else []
  {
    assert (ticks + [t])[..|ticks|] == ticks;
  }

  lemma TilesKept(ticks: seq<Tick>, t: Tick, secs: int, spans: seq<Span>, until: nat)
    requires Tiles(ticks, secs, spans, until)
    ensures Tiles(ticks + [t], secs, spans, until)
  {
    forall i | 0 <= i < |spans| ensures IsFirstAfter(ticks + [t], secs, spans[i]) {
      assert IsFirstAfter(ticks, secs, spans[i]);
    }
  }

  lemma TilesExtended(ticks: seq<Tick>, secs: int, spans: seq<Span>, s: Span)
    requires Tiles(ticks, secs, spans, s.first) && IsFirstAfter(ticks, secs, s)
    ensures Tiles(ticks, secs, spans + [s], s.last)
  {
    hide IsFirstAfter;
  }

  lemma NoSpans(ticks: seq<Tick>, secs: int)
    requires |ticks| <= 1
    ensures Tiles(ticks, secs, Spans(ticks, secs), SegmentStart(ticks, secs)) && Unfinished(ticks, secs)
  {
  }

  /** The emitted segments tile the tick sequence, and each is as short as the clock allows. */
  lemma {:induction false} SpansTile(ticks: seq<Tick>, secs: int)
    ensures Tiles(ticks, secs, Spans(ticks, secs), SegmentStart(ticks, secs)) && Unfinished(ticks, secs)
  {
    if |ticks| <= 1 {
      NoSpans(ticks, secs);
    } else {
      hide Spans, SegmentStart, Completes, Tiles;
      var n := |ticks| - 1;
      var before, t := ticks[..n], ticks[n];
      assert before + [t] == ticks;
      SpansTile(before, secs);
      StartStep(before, t, secs);
      var spans, start := Spans(before, secs), SegmentStart(before, secs);
      TilesKept(before, t, secs, spans, start);
      if Completes(ticks, secs) {
        assert IsFirstAfter(ticks, secs, Span(start, n));
        TilesExtended(ticks, secs, spans, Span(start, n));
      } else {
        assert spans + [] == spans;
      }
    }
  }

  // ---- what every emitted candle is ---------------------------------------------------------------

  lemma PriceAt(ticks: seq<Tick>, a: nat, b: nat, j: nat)
    requires a <= j <= b < |ticks|
    ensures Prices(ticks[a..b + 1])[j - a] == ticks[j].price
  {
  }

  /** High and low are the extremes of the segment, so a candle of positive prices is well formed. */
  lemma BarIsWellFormed(ticks: seq<Tick>, a: nat, b: nat)
    requires a <= b < |ticks| && PositivePrices(ticks)
    ensures var r := BarOf(ticks, a, b);
            && (forall symbol, timeframe, utc :: r.On(symbol, timeframe, utc).WellFormed())
            && r.open == ticks[a].price && r.close == ticks[b].price && r.volume == (b - a) as real
            && (exists j :: a <= j <= b && ticks[j].price == r.high)
            && (exists j :: a <= j <= b && ticks[j].price == r.low)
            && forall j :: a <= j <= b ==> r.low <= ticks[j].price <= r.high
  {
    var prices := Prices(ticks[a..b + 1]);
    forall j | a <= j <= b ensures MinOf(prices) <= ticks[j].price <= MaxOf(prices) {
      PriceAt(ticks, a, b, j);
    }
    var m := PriceIsSeen(ticks, a, b, MaxOf(prices));
    var k := PriceIsSeen(ticks, a, b, MinOf(prices));
    hide MaxOf, MinOf, Prices;
  }

  lemma PriceIsSeen(ticks: seq<Tick>, a: nat, b: nat, price: real) returns (j: nat)
    requires a <= b < |ticks| && price in Prices(ticks[a..b + 1])
    ensures a <= j <= b && ticks[j].price == price
  {
    var prices := Prices(ticks[a..b + 1]);
    var k :| 0 <= k < |prices| && prices[k] == price;
    j := a + k;
    PriceAt(ticks, a, b, j);
  }

  function Volumes(bars: seq<Bar>): (r: real)
  {
    if bars == [] then 0.0 else Volumes(bars[..|bars| - 1]) + bars[|bars| - 1].volume
  }

  lemma {:induction false} VolumesTelescope(ticks: seq<Tick>, spans: seq<Span>, secs: int, until: nat)
    requires Tiles(ticks, secs, spans, until)
    ensures Volumes(BarsOf(ticks, spans)) == until as real
  {
    hide BarOf;
    if spans != [] {
      var n := |spans| - 1;
      var bars, rest := BarsOf(ticks, spans), spans[..n];
      assert bars[..n] == BarsOf(ticks, rest);
      VolumesTelescope(ticks, rest, secs, spans[n].first);
      SpanVolume(ticks, spans[n]);
    }
  }

  lemma SpanVolume(ticks: seq<Tick>, s: Span)
    requires s.first <= s.last < |ticks|
    ensures BarOf(ticks, s.first, s.last).volume == (s.last - s.first) as real
  {
  }

  ghost predicate PositivePrices(ticks: seq<Tick>)
  {
    forall j :: 0 <= j < |ticks| ==> ticks[j].price > 0.0
  }

  /** Over every tick sequence of positive prices, on any symbol: each candle is well formed, spans at least
      the configured seconds, opens where the previous one closed, and no tick's volume is lost: the candles'
      volumes, the buffer's and the opening tick add up to the ticks seen. So whatever is proved of a tracker
      over well-formed bars holds of one fed by the poller. */
  lemma CandlesOfTicks(symbol: string, ticks: seq<Tick>, secs: int)
    requires ticks != [] && PositivePrices(ticks)
    ensures forall i :: 0 <= i < |Spans(ticks, secs)| ==> IsFirstAfter(ticks, secs, Spans(ticks, secs)[i])
    ensures AllWellFormed(CandlesOf(symbol, secs, ticks, Spans(ticks, secs)))
    ensures var bars := BarsOf(ticks, Spans(ticks, secs));
            && (forall i :: 0 < i < |bars| ==> bars[i].open == bars[i - 1].close)
            && Volumes(bars) + BufferOf(ticks, secs).volume + 1.0 == |ticks| as real
  {
    hide SegmentStart, Spans, Unfinished, PositivePrices, MaxOf, MinOf;
    SpansTile(ticks, secs);
    var spans := Spans(ticks, secs);
    WellFormedCandles(symbol, ticks, secs, spans, SegmentStart(ticks, secs));
    ChainedBars(ticks, secs, spans, SegmentStart(ticks, secs));
    VolumesTelescope(ticks, spans, secs, SegmentStart(ticks, secs));
    SpanVolume(ticks, Span(SegmentStart(ticks, secs), |ticks| - 1));
  }

  lemma WellFormedCandles(symbol: string, ticks: seq<Tick>, secs: int, spans: seq<Span>, until: nat)
    requires PositivePrices(ticks) && Tiles(ticks, secs, spans, until)
    ensures AllWellFormed(CandlesOf(symbol, secs, ticks, spans))
  {
    hide BarOf;
    forall i | 0 <= i < |spans| ensures CandlesOf(symbol, secs, ticks, spans)[i].WellFormed() {
      assert IsFirstAfter(ticks, secs, spans[i]);
      BarIsWellFormed(ticks, spans[i].first, spans[i].last);
    }
  }

  lemma ChainedBars(ticks: seq<Tick>, secs: int, spans: seq<Span>, until: nat)
    requires Tiles(ticks, secs, spans, until)
    ensures var bars := BarsOf(ticks, spans); forall i :: 0 < i < |bars| ==> bars[i].open == bars[i - 1].close
  {
    hide MaxOf, MinOf;
    var bars := BarsOf(ticks, spans);
    forall i | 0 < i < |bars| ensures bars[i].open == bars[i - 1].close {
      assert spans[i - 1].last == spans[i - 1 + 1].first;
    }
  }

  // ---- the object ------------------------------------------------------------------------------------

  lemma {:induction false} ExtremesStep(xs: seq<real>, x: real)
    requires xs != []
    ensures MaxOf(xs + [x]) == Max(MaxOf(xs), x) && MinOf(xs + [x]) == Min(MinOf(xs), x)
  {
    assert (xs + [x])[..|xs|] == xs;
  }

  /** One more tick extends the running segment, whether or not it then completes a candle. */
  lemma BarStep(ticks: seq<Tick>, t: Tick, a: nat)
    requires a < |ticks|
    ensures var was, next := BarOf(ticks, a, |ticks| - 1), BarOf(ticks + [t], a, |ticks|);
            next == Bar(was.open, Max(was.high, t.price), Min(was.low, t.price), t.price, was.volume + 1.0)
  {
    var more := ticks + [t];
    var prices := Prices(ticks[a..|ticks|]);
    assert more[a..|ticks| + 1] == ticks[a..|ticks|] + [t];
    assert Prices(more[a..|ticks| + 1]) == prices + [t.price];
    ExtremesStep(prices, t.price);
  }

  lemma SingleTick(ticks: seq<Tick>, b: nat)
    requires b < |ticks|
    ensures var p := ticks[b].price; BarOf(ticks, b, b) == Bar(p, p, p, p, 0.0)
  {
    assert ticks[b..b + 1] == [ticks[b]];
  }

  lemma StartOfOne(t: Tick, secs: int)
    ensures BufferOf([t], secs) == Buffer(t.price, t.price, t.price, t.price, 0.0, t.now)
  {
    SingleTick([t], 0);
  }

  /** One more tick: close at it, stretch the range to it, count it. */
  function Extend(b: Buffer, price: real): (r: Buffer)
  {
    b.(high := Max(b.high, price), low := Min(b.low, price), close := price, volume := b.volume + 1.0)
  }

  /** One step of the buffer is one tick of the history. */
  lemma TickStep(symbol: string, ticks: seq<Tick>, t: Tick, secs: int)
    requires ticks != []
    ensures var b, more := Extend(BufferOf(ticks, secs), t.price), ticks + [t];
            if t.now - b.tsStart >= secs as real then
              && Completes(more, secs)
              && CandleOf(symbol, secs, more, Span(SegmentStart(ticks, secs), |ticks|))
                 == Candle(symbol, TimeframeOf(secs), t.utc, b.open, b.high, b.low, b.close, b.volume)
              && BufferOf(more, secs) == Buffer(t.price, t.price, t.price, t.price, 0.0, t.now)
            else !Completes(more, secs) && BufferOf(more, secs) == b
  {
    hide SegmentStart, BarOf, Completes, TimeframeOf;
    BarStep(ticks, t, SegmentStart(ticks, secs));
    StartStep(ticks, t, secs);
    SingleTick(ticks + [t], |ticks|);
  }

  lemma ExtendCloses(b: Buffer, price: real)
    ensures Extend(b, price).close == price
  {
  }

  class RestPricePoller {
    const candleSeconds: map<string, int>
    var buffers: map<string, Buffer>
    /** Every tick seen, per symbol. */
    ghost var seen: map<string, seq<Tick>>

    function Seconds(sym: string): (r: int) { if sym in candleSeconds then candleSeconds[sym] else 60 }

    ghost predicate Valid()
      reads this
    {
      && buffers.Keys == seen.Keys
      && forall sym :: sym in seen ==> seen[sym] != [] && buffers[sym] == BufferOf(seen[sym], Seconds(sym))
    }

    constructor (candleSeconds: map<string, int>)
      ensures Valid() && seen == map[] && this.candleSeconds == candleSeconds
    {
      this.candleSeconds, buffers, seen := candleSeconds, map[], map[];
    }

    /** Accumulate one price; returns the candle it completes, if any. */
    method ProduceCandle(sym: string, price: real, now: real, utc: int) returns (r: Option<Candle>)
      requires Valid()
      modifies this
      ensures Valid()
      ensures seen == old(seen)[sym := (if sym in old(seen) then old(seen)[sym] else []) + [Tick(now, utc, price)]]
      ensures r.Some? ==>
                && r.value.symbol == sym && r.value.timestamp == utc && r.value.close == price
                && r.value.timeframe == TimeframeOf(if sym in candleSeconds then candleSeconds[sym] else 60)
      ensures r == if |seen[sym]| > 1 && Completes(seen[sym], Seconds(sym))
                   then
                     var span := Span(SegmentStart(old(seen)[sym], Seconds(sym)), |seen[sym]| - 1);
                     Some(CandleOf(sym, Seconds(sym), seen[sym], span))
                   else None
    {
      hide SegmentStart, CandleOf, TimeframeOf, Completes, BufferOf, Extend;
      ghost var tick := Tick(now, utc, price);
      if sym !in buffers {
        StartOfOne(tick, Seconds(sym));
        assert [] + [tick] == [tick];
        buffers := buffers[sym := Buffer(price, price, price, price, 0.0, now)];
        seen := seen[sym := [tick]];
        return None;
      }
      TickStep(sym, seen[sym], tick, Seconds(sym));
      seen := seen[sym := seen[sym] + [tick]];
      var buf := buffers[sym];
      buf := Extend(buf, price);
      var candleSecs := Seconds(sym);
      ExtendCloses(buffers[sym], price);
      if now - buf.tsStart >= candleSecs as real {
        r := Some(Candle(sym, TimeframeOf(candleSecs), utc, buf.open, buf.high, buf.low, buf.close, buf.volume));
        buffers := buffers[sym := Buffer(price, price, price, price, 0.0, now)];
        return;
      }
      buffers := buffers[sym := buf];
      r := None;
    }
  }

  /** The timeframes by their seconds; anything else is called a minute. */
  lemma Timeframes(secs: int)
    ensures TimeframeOf(60) == "M1" && TimeframeOf(300) == "M5" && TimeframeOf(900) == "M15"
    ensures TimeframeOf(1800) == "M30" && TimeframeOf(3600) == "H1" && TimeframeOf(14400) == "H4"
    ensures TimeframeOf(86400) == "D1"
    ensures secs !in {300, 900, 1800, 3600, 14400, 86400} ==> TimeframeOf(secs) == "M1"
  {
  }
}
