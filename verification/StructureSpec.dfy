/** Market structure as a function of the whole bar history, with no buffers.

    Everything here takes `h`, all bars ever ingested, and says what the trackers of
    app/strategy/market_structure.py should know after the last of them. The classes in
    MarketStructure.dfy and HtfStructure.dfy keep bounded deques instead and are proved to agree. */
module StructureSpec {
  import opened Foundations
  import opened Candles

  datatype SwingType = High | Low

  datatype Direction = Bullish | Bearish

  datatype HtfBias = BiasBullish | BiasBearish | BiasNeutral

  datatype Kind = BosBull | BosBear | ChochBull | ChochBear | SweepHigh | SweepLow

  datatype Swing = Swing(kind: SwingType, price: real, timestamp: int, index: int, prominence: real)

  datatype Event = Event(kind: Kind, candle: Candle, reference: Swing)

  datatype OrderBlock = OrderBlock(
    direction: Direction, candle: Candle, zoneHigh: real, zoneLow: real,
    timestamp: int, displacement: real, mitigated: bool)

  datatype FairValueGap = FairValueGap(
    direction: Direction, gapHigh: real, gapLow: real, timestamp: int, filled: bool)

  datatype Config = Config(
    lookback: nat, wickRatio: real, adaptive: bool,
    prominenceMult: real, displacementMult: real, fvgMult: real)

  const CANDLE_CAP: nat := 512
  const SWING_CAP: nat := 50
  const ZONE_CAP: nat := 30
  const BLOCK_SEARCH: nat := 10

  // ---- swings -----------------------------------------------------------------

  function Highs(w: seq<Candle>): (r: seq<real>)
    ensures |r| == |w|
  {
    seq(|w|, i requires 0 <= i < |w| => w[i].high)
  }

  function Lows(w: seq<Candle>): (r: seq<real>)
    ensures |r| == |w|
  {
    seq(|w|, i requires 0 <= i < |w| => w[i].low)
  }

  /** The bars of `w` whose timestamp is not `t`. */
  function Others(w: seq<Candle>, t: int): (r: seq<Candle>)
  {
    if w == [] then []
    else
      var n := |w| - 1;
      if w[n].timestamp != t then Others(w[..n], t) + [w[n]] else Others(w[..n], t)
  }

  function HighProminence(w: seq<Candle>, pivot: Candle): (r: real)
  {
    var others := Others(w, pivot.timestamp);
    if others == [] then 0.0 else pivot.high - MaxOf(Highs(others))
  }

  function LowProminence(w: seq<Candle>, pivot: Candle): (r: real)
  {
    var others := Others(w, pivot.timestamp);
    if others == [] then 0.0 else MinOf(Lows(others)) - pivot.low
  }

  /** The adaptive filter; while there is no ATR yet every pivot passes. */
  predicate PassesProminence(cfg: Config, bars: seq<Candle>, prominence: real)
  {
    !cfg.adaptive || Atr(bars) <= 0.0 || prominence >= cfg.prominenceMult * Atr(bars)
  }

  /** A window wider than the candle deque can never be seen in full. */
  predicate HasWindow(lookback: nat, n: nat, cap: nat)
  {
    2 * lookback + 1 <= n && 2 * lookback + 1 <= cap
  }

  /** The swing high confirmed by the last bar of `h`: its pivot is `lookback` bars old and
      stands at the middle of the newest `2 * lookback + 1` bars. */
  function ConfirmedHigh(cfg: Config, h: seq<Candle>): (r: Option<Swing>)
  {
    if !HasWindow(cfg.lookback, |h|, CANDLE_CAP) then None
    else HighAt(cfg, h, Newest(h, 2 * cfg.lookback + 1), |Newest(h, CANDLE_CAP)| - cfg.lookback - 1)
  }

  function HighAt(cfg: Config, h: seq<Candle>, w: seq<Candle>, index: int): (r: Option<Swing>)
    requires |w| == 2 * cfg.lookback + 1
  {
    var pivot := w[cfg.lookback];
    var prominence := HighProminence(w, pivot);
    if pivot.high == MaxOf(Highs(w)) && PassesProminence(cfg, h, prominence)
    then Some(Swing(High, pivot.high, pivot.timestamp, index, prominence)) else None
  }

  function ConfirmedLow(cfg: Config, h: seq<Candle>): (r: Option<Swing>)
  {
    if !HasWindow(cfg.lookback, |h|, CANDLE_CAP) then None
    else LowAt(cfg, h, Newest(h, 2 * cfg.lookback + 1), |Newest(h, CANDLE_CAP)| - cfg.lookback - 1)
  }

  function LowAt(cfg: Config, h: seq<Candle>, w: seq<Candle>, index: int): (r: Option<Swing>)
    requires |w| == 2 * cfg.lookback + 1
  {
    var pivot := w[cfg.lookback];
    var prominence := LowProminence(w, pivot);
    if pivot.low == MinOf(Lows(w)) && PassesProminence(cfg, h, prominence)
    then Some(Swing(Low, pivot.low, pivot.timestamp, index, prominence)) else None
  }

  predicate IsRepeat(swings: seq<Swing>, s: Swing)
  {
    swings != [] && swings[|swings| - 1].timestamp == s.timestamp && swings[|swings| - 1].kind == s.kind
  }

  /** A second report of the newest swing is dropped. */
  function AddSwing(swings: seq<Swing>, s: Option<Swing>): (r: seq<Swing>)
  {
    if s.None? || IsRepeat(swings, s.value) then swings else swings + [s.value]
  }

  /** `_add_swing` on a deque that keeps the newest `cap` swings. */
  function Store(stored: seq<Swing>, cap: nat, s: Option<Swing>): (r: seq<Swing>)
  {
    if s.None? || IsRepeat(stored, s.value) then stored else Push(stored, cap, s.value)
  }

  lemma NothingToStore(stored: seq<Swing>, cap: nat)
    ensures Store(stored, cap, None) == stored
  {
  }

  lemma StoreKeepsNewest(all: seq<Swing>, cap: nat, s: Option<Swing>)
    requires cap > 0
    ensures Store(Newest(all, cap), cap, s) == Newest(AddSwing(all, s), cap)
  {
    if s.Some? {
      PushKeepsNewest(all, cap, s.value);
    }
  }

  /** Every swing ever reported, oldest first. */
  function AllSwings(cfg: Config, h: seq<Candle>): (r: seq<Swing>)
  {
    if h == [] then []
    else AddSwing(AddSwing(AllSwings(cfg, h[..|h| - 1]), ConfirmedHigh(cfg, h)), ConfirmedLow(cfg, h))
  }

  /** The newest swing of a kind, as a search from the right finds it. */
  function Latest(swings: seq<Swing>, kind: SwingType): (r: Option<Swing>)
  {
    if swings == [] then None
    else if swings[|swings| - 1].kind == kind then Some(swings[|swings| - 1])
    else Latest(swings[..|swings| - 1], kind)
  }

  // ---- sweeps and breaks --------------------------------------------------------

  predicate IsSweepHigh(c: Candle, level: real, ratio: real)
  {
    c.high > level && c.close < level && c.Range() != 0.0 && c.UpperWick() / c.Range() >= ratio
  }

  predicate IsSweepLow(c: Candle, level: real, ratio: real)
  {
    c.low < level && c.close > level && c.Range() != 0.0 && c.LowerWick() / c.Range() >= ratio
  }

  function Sweeps(c: Candle, ratio: real, hi: Option<Swing>, lo: Option<Swing>): (r: seq<Event>)
  {
    (if hi.Some? && IsSweepHigh(c, hi.value.price, ratio) then [Event(SweepHigh, c, hi.value)] else [])
    + (if lo.Some? && IsSweepLow(c, lo.value.price, ratio) then [Event(SweepLow, c, lo.value)] else [])
  }

  /** The direction in which bar `c` closes beyond the latest swings; up is tried first. */
  function BreakOf(c: Candle, hi: Option<Swing>, lo: Option<Swing>): (r: Option<Direction>)
  {
    if hi.Some? && c.close > hi.value.price then Some(Bullish)
    else if lo.Some? && c.close < lo.value.price then Some(Bearish)
    else None
  }

  /** A break against the previous break is a change of character, any other a break of structure. */
  function BreakKind(d: Direction, last: Option<Direction>): (r: Kind)
  {
    match d
    case Bullish => if last == Some(Bearish) then ChochBull else BosBull
    case Bearish => if last == Some(Bullish) then ChochBear else BosBear
  }

  function EventsOf(c: Candle, ratio: real, hi: Option<Swing>, lo: Option<Swing>,
                    last: Option<Direction>): (r: seq<Event>)
  {
    Sweeps(c, ratio, hi, lo) +
    match BreakOf(c, hi, lo)
    case None => []
    case Some(Bullish) => [Event(BreakKind(Bullish, last), c, hi.value)]
    case Some(Bearish) => [Event(BreakKind(Bearish, last), c, lo.value)]
  }

  /** The swing a bar is compared with: the newest of its kind among the last 50 reported. */
  function Reference(cfg: Config, h: seq<Candle>, kind: SwingType): (r: Option<Swing>)
  {
    Latest(Newest(AllSwings(cfg, h), SWING_CAP), kind)
  }

  function BreakAt(cfg: Config, h: seq<Candle>): (r: Option<Direction>)
    requires h != []
  {
    BreakOf(h[|h| - 1], Reference(cfg, h, High), Reference(cfg, h, Low))
  }

  /** The direction of the most recent break in `h`. */
  function LastBreak(cfg: Config, h: seq<Candle>): (r: Option<Direction>)
  {
    if h == [] then None
    else if BreakAt(cfg, h).Some? then BreakAt(cfg, h)
    else LastBreak(cfg, h[..|h| - 1])
  }

  /** What ingesting the last bar of `h` reports. */
  function Events(cfg: Config, h: seq<Candle>): (r: seq<Event>)
    requires h != []
  {
    EventsOf(h[|h| - 1], cfg.wickRatio, Reference(cfg, h, High), Reference(cfg, h, Low),
             LastBreak(cfg, h[..|h| - 1]))
  }

  /** `_last_bos`: only the two BOS kinds are ever stored. */
  function TrendKind(d: Option<Direction>): (r: Option<Kind>)
  {
    match d
    case None => None
    case Some(Bullish) => Some(BosBull)
    case Some(Bearish) => Some(BosBear)
  }

  function BiasOf(d: Option<Direction>): (r: HtfBias)
  {
    match d
    case None => BiasNeutral
    case Some(Bullish) => BiasBullish
    case Some(Bearish) => BiasBearish
  }

  // ---- zones ----------------------------------------------------------------------

  /** A zone together with the index of the bar whose ingestion created it. */
  datatype Born<T> = Born(zone: T, at: nat)

  predicate Opposes(d: Direction, c: Candle)
  {
    match d
    case Bullish => c.IsBearish()
    case Bearish => c.IsBullish()
  }

  /** The last of the bars `lo..hi` that opposes direction `d`. */
  function LastOpposing(d: Direction, bars: seq<Candle>, lo: nat, hi: nat): (r: Option<Candle>)
    requires lo <= hi <= |bars|
    decreases hi - lo
  {
    if lo == hi then None
    else if Opposes(d, bars[hi - 1]) then Some(bars[hi - 1])
    else LastOpposing(d, bars, lo, hi - 1)
  }

  function BlockFrom(d: Direction, source: Candle, breaker: Candle): (r: OrderBlock)
  {
    OrderBlock(d, source, Max(source.open, source.close), Min(source.open, source.close),
               source.timestamp, breaker.Body(), false)
  }

  /** The order block behind a break in direction `d` by the last bar of `h`: the break must be a
      displacement, and the block is the last opposing bar among the 10 before it. */
  function BlockBehind(cfg: Config, d: Direction, h: seq<Candle>): (r: Option<OrderBlock>)
    requires h != []
  {
    var end := |h| - 1;
    var start := if end < BLOCK_SEARCH then 0 else end - BLOCK_SEARCH;
    if Atr(h) <= 0.0 || h[end].Body() < cfg.displacementMult * Atr(h) then None
    else
      match LastOpposing(d, h, start, end)
      case None => None
      case Some(source) => Some(BlockFrom(d, source, h[end]))
  }

  function BlockAt(cfg: Config, h: seq<Candle>): (r: Option<OrderBlock>)
    requires h != []
  {
    match BreakAt(cfg, h)
    case None => None
    case Some(d) => BlockBehind(cfg, d, h)
  }

  /** The upward imbalance completed by the last bar of `h`. */
  function BullishGap(cfg: Config, h: seq<Candle>): (r: Option<FairValueGap>)
  {
    if |h| < 3 then None
    else
      var b0, b1, b2 := h[|h| - 3], h[|h| - 2], h[|h| - 1];
      if b0.high < b2.low && b2.low - b0.high >= cfg.fvgMult * Atr(h)
      then Some(FairValueGap(Bullish, b2.low, b0.high, b1.timestamp, false)) else None
  }

  function BearishGap(cfg: Config, h: seq<Candle>): (r: Option<FairValueGap>)
  {
    if |h| < 3 then None
    else
      var b0, b1, b2 := h[|h| - 3], h[|h| - 2], h[|h| - 1];
      if b0.low > b2.high && b0.low - b2.high >= cfg.fvgMult * Atr(h)
      then Some(FairValueGap(Bearish, b0.low, b2.high, b1.timestamp, false)) else None
  }

  function AddBirth<T>(bs: seq<Born<T>>, zone: Option<T>, at: nat): (r: seq<Born<T>>)
  {
    if zone.None? then bs else bs + [Born(zone.value, at)]
  }

  /** Every order block ever detected, oldest first. */
  function AllBlocks(cfg: Config, h: seq<Candle>): (r: seq<Born<OrderBlock>>)
    ensures forall i :: 0 <= i < |r| ==> r[i].at < |h|
  {
    if h == [] then [] else AddBirth(AllBlocks(cfg, h[..|h| - 1]), BlockAt(cfg, h), |h| - 1)
  }

  function AllGaps(cfg: Config, h: seq<Candle>): (r: seq<Born<FairValueGap>>)
    ensures forall i :: 0 <= i < |r| ==> r[i].at < |h|
  {
    if h == [] then []
    else AddBirth(AddBirth(AllGaps(cfg, h[..|h| - 1]), BullishGap(cfg, h), |h| - 1), BearishGap(cfg, h), |h| - 1)
  }

  predicate TouchesBlock(ob: OrderBlock, c: Candle)
  {
    (ob.direction == Bullish && c.low <= ob.zoneHigh) || (ob.direction == Bearish && c.high >= ob.zoneLow)
  }

  predicate FillsGap(g: FairValueGap, c: Candle)
  {
    (g.direction == Bullish && c.low <= g.gapLow) || (g.direction == Bearish && c.high >= g.gapHigh)
  }

  /** Some bar from the creating one on has touched the block. */
  ghost predicate Mitigated(b: Born<OrderBlock>, h: seq<Candle>)
  {
    exists j :: b.at <= j < |h| && TouchesBlock(b.zone, h[j])
  }

  ghost predicate Filled(b: Born<FairValueGap>, h: seq<Candle>)
  {
    exists j :: b.at <= j < |h| && FillsGap(b.zone, h[j])
  }

  ghost function MarkBlocks(bs: seq<Born<OrderBlock>>, h: seq<Candle>): (r: seq<OrderBlock>)
  {
    seq(|bs|, i requires 0 <= i < |bs| => bs[i].zone.(mitigated := Mitigated(bs[i], h)))
  }

  ghost function MarkGaps(bs: seq<Born<FairValueGap>>, h: seq<Candle>): (r: seq<FairValueGap>)
  {
    seq(|bs|, i requires 0 <= i < |bs| => bs[i].zone.(filled := Filled(bs[i], h)))
  }

  /** What a tracker should hold: the last 30 blocks ever detected, each marked by its own history. */
  ghost function StoredBlocks(cfg: Config, h: seq<Candle>): (r: seq<OrderBlock>)
  {
    MarkBlocks(Newest(AllBlocks(cfg, h), ZONE_CAP), h)
  }

  ghost function StoredGaps(cfg: Config, h: seq<Candle>): (r: seq<FairValueGap>)
  {
    MarkGaps(Newest(AllGaps(cfg, h), ZONE_CAP), h)
  }

  function Touched(ob: OrderBlock, c: Candle): (r: OrderBlock)
  {
    if !ob.mitigated && TouchesBlock(ob, c) then ob.(mitigated := true) else ob
  }

  function FilledBy(g: FairValueGap, c: Candle): (r: FairValueGap)
  {
    if !g.filled && FillsGap(g, c) then g.(filled := true) else g
  }

  predicate Selects(ob: OrderBlock, d: Option<Direction>, activeOnly: bool)
  {
    !(activeOnly && ob.mitigated) && !(d.Some? && ob.direction != d.value)
  }

  predicate SelectsGap(g: FairValueGap, d: Option<Direction>, activeOnly: bool)
  {
    !(activeOnly && g.filled) && !(d.Some? && g.direction != d.value)
  }

  /** Newest first, filtered by direction and, if asked, to the unmitigated ones. */
  function BlockQuery(blocks: seq<OrderBlock>, d: Option<Direction>, activeOnly: bool): (r: seq<OrderBlock>)
  {
    if blocks == [] then []
    else
      BlockQuery(blocks[1..], d, activeOnly) + if Selects(blocks[0], d, activeOnly) then [blocks[0]] else []
  }

  function GapQuery(gaps: seq<FairValueGap>, d: Option<Direction>, activeOnly: bool): (r: seq<FairValueGap>)
  {
    if gaps == [] then []
    else
      GapQuery(gaps[1..], d, activeOnly) + if SelectsGap(gaps[0], d, activeOnly) then [gaps[0]] else []
  }

  // ---- confluence of a price ---------------------------------------------------------

  /** The first listed block whose zone contains `price`. */
  function FirstHit(blocks: seq<OrderBlock>, price: real): (r: Option<OrderBlock>)
  {
    if blocks == [] then None
    else if blocks[0].zoneLow <= price <= blocks[0].zoneHigh then Some(blocks[0])
    else FirstHit(blocks[1..], price)
  }

  function FirstGapHit(gaps: seq<FairValueGap>, price: real): (r: Option<FairValueGap>)
  {
    if gaps == [] then None
    else if gaps[0].gapLow <= price <= gaps[0].gapHigh then Some(gaps[0])
    else FirstGapHit(gaps[1..], price)
  }

  /** The swing a trade in direction `d` would lean on is within two ATRs of `price`. */
  predicate NearSwing(swings: seq<Swing>, price: real, d: Direction, atr: real)
  {
    var s := Latest(swings, if d == Bullish then Low else High);
    atr > 0.0 && s.Some? && Abs(price - s.value.price) <= 2.0 * atr
  }

  /** The five weights of `calculate_confluence_score`. */
  function ConfluenceScore(bias: bool, block: bool, gap: bool, trend: bool, near: bool): (r: real)
    ensures 0.0 <= r <= 1.0
    ensures !block ==> r <= 0.75
  {
    (if bias then 0.25 else 0.0) + (if block then 0.25 else 0.0) + (if gap then 0.20 else 0.0)
    + (if trend then 0.20 else 0.0) + (if near then 0.10 else 0.0)
  }
}
