/** Price bars (app/models/candle.py) and single-bar patterns (app/strategy/candles.py). */
module Candles {
  import opened Foundations

  datatype Candle = Candle(
    symbol: string, timeframe: string, timestamp: int,
    open: real, high: real, low: real, close: real, volume: real)
  {
    function Body(): real { Abs(close - open) }

    function Range(): real { high - low }

    function UpperWick(): real { high - Max(close, open) }

    function LowerWick(): real { Min(close, open) - low }

    predicate IsBullish() { close > open }

    predicate IsBearish() { close < open }

    /** What the high/low names promise of a bar. */
    predicate WellFormed()
    {
      0.0 < low && low <= open <= high && low <= close <= high
    }

    /** What the model's validators enforce: `low` is declared after `high`, so the
        high validator sees `open` but never `low`. */
    predicate PassesValidation()
    {
      0.0 < open && 0.0 < high && 0.0 < low && 0.0 < close && 0.0 <= volume && open <= high
    }
  }

  /** The validators accept a bar whose low is above its high; what they miss is exactly
      the three comparisons that involve `low` or `close`. */
  lemma ValidationIsWeakerThanWellFormed(c: Candle)
    ensures c.volume >= 0.0 ==>
              (c.WellFormed() <==> c.PassesValidation() && c.low <= c.open && c.low <= c.close && c.close <= c.high)
    ensures var bad := Candle("EURUSD", "M1", 0, 1.0, 1.0, 2.0, 1.0, 0.0);
            bad.PassesValidation() && bad.high < bad.low
    ensures c.PassesValidation() <==>
            c.high >= c.open && c.volume >= 0.0 && Min(Min(c.open, c.close), Min(c.high, c.low)) > 0.0
  {
  }

  ghost predicate AllWellFormed(h: seq<Candle>)
  {
    forall i :: 0 <= i < |h| ==> h[i].WellFormed()
  }

  const MIN_WICK_RATIO: real := 0.55

  predicate StrongBullishRejection(c: Candle)
  {
    c.Range() != 0.0 && c.IsBullish() && c.LowerWick() / c.Range() >= MIN_WICK_RATIO && c.Body() / c.Range() <= 0.5
  }

  predicate StrongBearishRejection(c: Candle)
  {
    c.Range() != 0.0 && c.IsBearish() && c.UpperWick() / c.Range() >= MIN_WICK_RATIO && c.Body() / c.Range() <= 0.5
  }

  /** A strong rejection of any bar with a range, well formed or not, as shares of that range. */
  lemma RejectionInShares(c: Candle)
    ensures c.high == c.low ==> !StrongBullishRejection(c) && !StrongBearishRejection(c)
    ensures c.high != c.low ==>
              (StrongBullishRejection(c) <==>
                 && c.close > c.open && (c.open - c.low) / (c.high - c.low) >= 0.55
                 && (c.close - c.open) / (c.high - c.low) <= 0.5)
    ensures c.high != c.low ==>
              (StrongBearishRejection(c) <==>
                 && c.close < c.open && (c.high - c.open) / (c.high - c.low) >= 0.55
                 && (c.open - c.close) / (c.high - c.low) <= 0.5)
  {
  }

  /** A strong rejection in prices: the bar closes its own way, the wick behind it is at least 55% of the range and
      the body at most half of it. */
  lemma RejectionExactlyWhen(c: Candle)
    requires c.WellFormed()
    ensures StrongBullishRejection(c) <==>
            c.close > c.open && c.open - c.low >= 0.55 * (c.high - c.low) && c.close - c.open <= 0.5 * (c.high - c.low)
    ensures StrongBearishRejection(c) <==>
            c.close < c.open && c.high - c.open >= 0.55 * (c.high - c.low) && c.open - c.close <= 0.5 * (c.high - c.low)
  {
    if c.high > c.low {
      QuotientAtLeast(c.LowerWick(), 0.55, c.high - c.low);
      QuotientAtLeast(c.UpperWick(), 0.55, c.high - c.low);
      QuotientAtMost(c.Body(), 0.5, c.high - c.low);
    }
  }

  // ---- average true range ---------------------------------------------------

  const ATR_PERIOD: nat := 14

  function TrueRange(prev: Candle, cur: Candle): (r: real)
  {
    Max(Max(cur.high - cur.low, Abs(cur.high - prev.close)), Abs(cur.low - prev.close))
  }

  /** The true range of every adjacent pair of bars, oldest first. */
  function TrueRanges(bars: seq<Candle>): (r: seq<real>)
  {
    if |bars| < 2 then []
    else seq(|bars| - 1, i requires 0 <= i < |bars| - 1 => TrueRange(bars[i], bars[i + 1]))
  }

  /** The plain mean of the true ranges of the newest 15 bars; 0 while there is none. */
  function Atr(bars: seq<Candle>): (r: real)
  {
    if |bars| < 2 then 0.0
    else
      var trs := TrueRanges(Newest(bars, ATR_PERIOD + 1));
      Sum(trs) / |trs| as real
  }

  lemma {:induction false} SumBetween(xs: seq<real>, lo: real, hi: real, n: real)
    requires n == |xs| as real
    requires forall i :: 0 <= i < |xs| ==> lo <= xs[i] <= hi
    ensures lo * n <= Sum(xs) <= hi * n
  {
    if xs != [] {
      SumBetween(xs[..|xs| - 1], lo, hi, n - 1.0);
      assert lo * n == lo * (n - 1.0) + lo;
      assert hi * n == hi * (n - 1.0) + hi;
    }
  }

  /** The ATR lies between the smallest and the largest true range of its sample. */
  lemma AtrIsBetweenTrueRanges(bars: seq<Candle>)
    requires |bars| >= 2
    ensures var trs := TrueRanges(Newest(bars, ATR_PERIOD + 1));
            0.0 <= MinOf(trs) <= Atr(bars) <= MaxOf(trs)
  {
    var trs := TrueRanges(Newest(bars, ATR_PERIOD + 1));
    assert trs[0] >= 0.0 && forall i :: 0 <= i < |trs| ==> trs[i] >= 0.0 by {
      RangesNonNegative(Newest(bars, ATR_PERIOD + 1));
    }
    hide TrueRanges, Sum, MaxOf, MinOf, Newest;
    MeanBetween(trs);
  }

  lemma RangesNonNegative(bars: seq<Candle>)
    ensures forall i :: 0 <= i < |TrueRanges(bars)| ==> TrueRanges(bars)[i] >= 0.0
    ensures |TrueRanges(bars)| == if |bars| < 2 then 0 else |bars| - 1
  {
  }

  lemma MeanBetween(xs: seq<real>)
    requires xs != []
    ensures MinOf(xs) <= Sum(xs) / |xs| as real <= MaxOf(xs)
  {
    var total, n, lo, hi := Sum(xs), |xs| as real, MinOf(xs), MaxOf(xs);
    SumBetween(xs, lo, hi, n);
    QuotientAtLeast(total, lo, n);
    QuotientAtMost(total, hi, n);
  }

  /** A true range is the least that covers the bar and its two distances from the previous close; of a bar whose
      low is not above its high it is the span of the three prices. */
  lemma TrueRangeIsTight(prev: Candle, cur: Candle)
    ensures var r, up, down := TrueRange(prev, cur), cur.high - prev.close, cur.low - prev.close;
            && r >= cur.high - cur.low && r >= up && r >= -up && r >= down && r >= -down
            && r in {cur.high - cur.low, up, -up, down, -down}
    ensures cur.low <= cur.high ==> TrueRange(prev, cur) == Max(cur.high, prev.close) - Min(cur.low, prev.close)
  {
  }

  /** The ATR times the number of adjacent pairs among the newest 15 bars is the sum of their true ranges. */
  lemma AtrIsMean(bars: seq<Candle>)
    ensures |bars| < 2 ==> Atr(bars) == 0.0
    ensures |bars| >= 2 ==>
              var trs := TrueRanges(Newest(bars, 15));
              |trs| == (if |bars| <= 15 then |bars| else 15) - 1 && Atr(bars) * |trs| as real == Sum(trs)
  {
    hide Sum;
  }

  lemma TrueRangeAt(bars: seq<Candle>, i: nat)
    requires i + 1 < |bars|
    ensures |TrueRanges(bars)| == |bars| - 1 && TrueRanges(bars)[i] == TrueRange(bars[i], bars[i + 1])
  {
    hide TrueRange;
  }

  /** Only the newest 15 bars matter, so a deque of at least 15 bars gives the ATR of the whole history. */
  lemma AtrOfNewest(bars: seq<Candle>, cap: nat)
    requires cap >= ATR_PERIOD + 1
    ensures Atr(Newest(bars, cap)) == Atr(bars)
  {
    NewestOfNewest(bars, cap, ATR_PERIOD + 1);
  }

  method ComputeAtr(bars: seq<Candle>) returns (atr: real)
    ensures atr == Atr(bars)
  {
    if |bars| < 2 {
      return 0.0;
    }
    var sample := Newest(bars, ATR_PERIOD + 1);
    var trs: seq<real> := [];
    for i := 0 to |sample| - 1
      invariant |trs| == i
      invariant forall j :: 0 <= j < i ==> trs[j] == TrueRange(sample[j], sample[j + 1])
    {
      trs := trs + [TrueRange(sample[i], sample[i + 1])];
    }
    assert trs == TrueRanges(sample);
    return Sum(trs) / |trs| as real;
  }

  // ---- rolling buffer --------------------------------------------------------

  /** The bars of a tick stream: of neighbours that share a timestamp only the last survives. */
  function Collapse(h: seq<Candle>): (r: seq<Candle>)
    ensures h != [] ==> r != [] && r[|r| - 1] == h[|h| - 1]
    ensures forall i :: 0 < i < |r| ==> r[i - 1].timestamp != r[i].timestamp
  {
    if h == [] then []
    else
      var n := |h| - 1;
      var before := Collapse(h[..n]);
      if n > 0 && h[n - 1].timestamp == h[n].timestamp then before[..|before| - 1] + [h[n]]
      else before + [h[n]]
  }

  lemma CollapseStep(h: seq<Candle>, c: Candle)
    ensures Collapse(h + [c]) == WithLive(Collapse(h), c)
  {
    assert (h + [c])[..|h|] == h;
  }

  /** The stream with one more bar: a live update of the last one, or a new one. */
  function WithLive(s: seq<Candle>, c: Candle): (r: seq<Candle>)
  {
    if s != [] && s[|s| - 1].timestamp == c.timestamp then s[..|s| - 1] + [c] else s + [c]
  }

  /** What the bounded buffer does with it. */
  function Buffered(b: seq<Candle>, cap: nat, c: Candle): (r: seq<Candle>)
  {
    if b != [] && b[|b| - 1].timestamp == c.timestamp then b[..|b| - 1] + [c] else Push(b, cap, c)
  }

  /** Replacing or appending in the bounded buffer is what collapsing the longer history does. */
  lemma BufferStep(h: seq<Candle>, c: Candle, cap: nat)
    ensures Newest(Collapse(h + [c]), cap) == Buffered(Newest(Collapse(h), cap), cap, c)
  {
    hide *;
    CollapseStep(h, c);
    ReplaceOrPush(Collapse(h), c, cap);
  }

  lemma ReplaceOrPush(s: seq<Candle>, c: Candle, cap: nat)
    ensures Newest(WithLive(s, c), cap) == Buffered(Newest(s, cap), cap, c)
  {
    PushKeepsNewest(s, cap, c);
    if s != [] {
      ReplaceKeepsNewest(s, cap, c);
      NewestLength(s, cap);
      if cap > 0 {
        hide Newest, Push;
      }
    }
  }

  /** `CandleSeries`: a bounded buffer that replaces its last bar on a live update. */
  class CandleSeries {
    const symbol: string
    const timeframe: string
    const maxlen: nat
    var buffer: seq<Candle>
    ghost var history: seq<Candle>

    ghost predicate Valid()
      reads this
    {
      buffer == Newest(Collapse(history), maxlen)
    }

    constructor (symbol: string, timeframe: string, maxlen: nat)
      ensures Valid() && history == [] && this.symbol == symbol && this.timeframe == timeframe
    {
      this.symbol, this.timeframe, this.maxlen := symbol, timeframe, maxlen;
      buffer, history := [], [];
    }

    /** Returns false where the source raises: the bar belongs to another series. */
    method Append(c: Candle) returns (ok: bool)
      requires Valid()
      modifies this
      ensures Valid()
      ensures ok <==> c.symbol == symbol && c.timeframe == timeframe
      ensures history == if ok then old(history) + [c] else old(history)
    {
      if c.symbol != symbol || c.timeframe != timeframe {
        return false;
      }
      BufferStep(history, c, maxlen);
      if buffer != [] && buffer[|buffer| - 1].timestamp == c.timestamp {
        buffer := buffer[..|buffer| - 1] + [c];
      } else {
        buffer := Push(buffer, maxlen, c);
      }
      history := history + [c];
      return true;
    }

    method Tail(n: int) returns (r: seq<Candle>)
      requires Valid()
      ensures r == Newest(Collapse(history), if n <= 0 then 0 else if n < maxlen then n else maxlen)
    {
      hide Collapse, Newest;
      TailOfNewest(Collapse(history), n, maxlen);
      if n <= 0 {
        return [];
      }
      if n >= |buffer| {
        return buffer;
      }
      return buffer[|buffer| - n..];
    }
  }
}
