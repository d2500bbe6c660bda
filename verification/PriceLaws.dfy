/** What the market-structure tracker reports and stores, in the prices of the bars and the numbers of the
    source alone: each statement fixes the answer, not merely a bound on it. */
module PriceLaws {
  import opened Foundations
  import opened Candles
  import opened StructureSpec
  import opened StructureTheorems

  // ---- when a zone is still active ----------------------------------------------------

  /** A stored order block is active exactly while every bar since its creation, that bar included, has stayed
      strictly on its far side. */
  lemma BlockIsActiveExactlyWhile(cfg: Config, h: seq<Candle>, i: nat)
    requires i < |StoredBlocks(cfg, h)|
    ensures i < |Newest(AllBlocks(cfg, h), 30)|
    ensures var ob, born := StoredBlocks(cfg, h)[i], Newest(AllBlocks(cfg, h), 30)[i].at;
            !ob.mitigated <==>
              forall j :: born <= j < |h| ==>
                if ob.direction == Bullish then ob.zoneHigh < h[j].low else h[j].high < ob.zoneLow
  {
    hide AllBlocks;
  }

  lemma GapIsOpenExactlyWhile(cfg: Config, h: seq<Candle>, i: nat)
    requires i < |StoredGaps(cfg, h)|
    ensures i < |Newest(AllGaps(cfg, h), 30)|
    ensures var g, born := StoredGaps(cfg, h)[i], Newest(AllGaps(cfg, h), 30)[i].at;
            !g.filled <==>
              forall j :: born <= j < |h| ==>
                if g.direction == Bullish then g.gapLow < h[j].low else h[j].high < g.gapHigh
  {
    hide AllGaps;
  }

  /** The last 30 zones ever detected are stored, and nothing but their flags changes. */
  lemma StoredZones(cfg: Config, h: seq<Candle>)
    ensures var all, stored := AllBlocks(cfg, h), StoredBlocks(cfg, h);
            && |stored| == (if |all| <= 30 then |all| else 30)
            && forall i :: 0 <= i < |stored| ==>
                 var b := all[|all| - |stored| + i].zone;
                 stored[i] == b.(mitigated := stored[i].mitigated)
    ensures var all, stored := AllGaps(cfg, h), StoredGaps(cfg, h);
            && |stored| == (if |all| <= 30 then |all| else 30)
            && forall i :: 0 <= i < |stored| ==>
                 var g := all[|all| - |stored| + i].zone;
                 stored[i] == g.(filled := stored[i].filled)
  {
    hide AllBlocks, AllGaps, Mitigated, Filled;
  }

  // ---- where blocks and gaps come from -----------------------------------------------------

  /** The bar closed against direction `d`. */
  predicate ClosedAgainst(d: Direction, c: Candle)
  {
    if d == Bullish then c.close < c.open else c.close > c.open
  }

  /** Bar `at` broke structure in direction `d` with a body of at least the required multiple of a positive ATR,
      and bar `s` is the last of the 10 before it that closed the other way. */
  ghost predicate Displaces(cfg: Config, d: Direction, h: seq<Candle>, at: nat, s: nat)
  {
    && s < at < |h| && at <= s + 10
    && BreakAt(cfg, h[..at + 1]) == Some(d)
    && Atr(h[..at + 1]) > 0.0
    && (if h[at].close >= h[at].open then h[at].close - h[at].open else h[at].open - h[at].close)
       >= cfg.displacementMult * Atr(h[..at + 1])
    && ClosedAgainst(d, h[s]) && forall j :: s < j < at ==> !ClosedAgainst(d, h[j])
  }

  /** Block `b` was born on bar `at` as the body of bar `s`. */
  predicate IsBodyOf(b: Born<OrderBlock>, h: seq<Candle>, at: nat, s: nat)
    requires at < |h| && s < |h|
  {
    && b.at == at && b.zone.candle == h[s] && b.zone.timestamp == h[s].timestamp && !b.zone.mitigated
    && b.zone.displacement == (if h[at].close >= h[at].open then h[at].close - h[at].open else h[at].open - h[at].close)
    && if b.zone.direction == Bullish then b.zone.zoneHigh == h[s].open && b.zone.zoneLow == h[s].close
       else b.zone.zoneHigh == h[s].close && b.zone.zoneLow == h[s].open
  }

  lemma SourceIsDisplacement(cfg: Config, d: Direction, h: seq<Candle>, at: nat, s: nat)
    ensures IsSource(cfg, d, h, at, s) <==> Displaces(cfg, d, h, at, s)
  {
    hide Atr, BreakAt;
    assert forall c: Candle :: Opposes(d, c) <==> ClosedAgainst(d, c);
  }

  /** Every block ever detected is the body of the last opposing bar before such a displacement. */
  lemma EveryBlockIsABody(cfg: Config, h: seq<Candle>, i: nat) returns (s: nat)
    requires i < |AllBlocks(cfg, h)|
    ensures var b := AllBlocks(cfg, h)[i];
            Displaces(cfg, b.zone.direction, h, b.at, s) && IsBodyOf(b, h, b.at, s)
  {
    hide Atr, BreakAt, AllBlocks;
    var found := BlockOrigin(cfg, h, i);
    s := found;
    var b := AllBlocks(cfg, h)[i];
    SourceIsDisplacement(cfg, b.zone.direction, h, b.at, s);
    hide Displaces;
  }

  /** And every such displacement leaves a block. */
  lemma {:induction false} EveryDisplacementLeavesABlock(cfg: Config, d: Direction, h: seq<Candle>, at: nat, s: nat)
    returns (i: nat)
    requires Displaces(cfg, d, h, at, s)
    ensures i < |AllBlocks(cfg, h)| && AllBlocks(cfg, h)[i].at == at && AllBlocks(cfg, h)[i].zone.direction == d
  {
    hide Atr, BreakAt;
    var n := |h| - 1;
    if at < n {
      assert h[..n][..at + 1] == h[..at + 1];
      i := EveryDisplacementLeavesABlock(cfg, d, h[..n], at, s);
    } else {
      assert h[..n + 1] == h;
      i := |AllBlocks(cfg, h[..n])|;
      NewestDisplacement(cfg, d, h, s);
    }
  }

  lemma NewestDisplacement(cfg: Config, d: Direction, h: seq<Candle>, s: nat)
    requires h != [] && Displaces(cfg, d, h, |h| - 1, s)
    ensures BlockAt(cfg, h).Some? && BlockAt(cfg, h).value.direction == d
  {
    hide Atr, BreakAt, Displaces;
    SourceIsDisplacement(cfg, d, h, |h| - 1, s);
    assert h[..|h|] == h;
    var n := |h| - 1;
    var last := LastOpposingIsLast(d, h, if n < 10 then 0 else n - 10, n);
  }

  /** Gap `b` lies between the outer two of three adjacent bars and is stamped with the middle one. */
  ghost predicate LiesBetween(b: Born<FairValueGap>, h: seq<Candle>)
  {
    && 2 <= b.at < |h| && !b.zone.filled && b.zone.timestamp == h[b.at - 1].timestamp
    && if b.zone.direction == Bullish then b.zone.gapLow == h[b.at - 2].high && b.zone.gapHigh == h[b.at].low
       else b.zone.gapLow == h[b.at].high && b.zone.gapHigh == h[b.at - 2].low
  }

  lemma {:induction false} EveryGapLiesBetween(cfg: Config, h: seq<Candle>)
    ensures forall b :: b in AllGaps(cfg, h) ==> LiesBetween(b, h)
  {
    if h != [] {
      hide BullishGap, BearishGap, LiesBetween;
      var n := |h| - 1;
      EveryGapLiesBetween(cfg, h[..n]);
      NewGapLiesBetween(cfg, h);
      forall b | b in AllGaps(cfg, h) ensures LiesBetween(b, h) {
        assert b in AllGaps(cfg, h[..n]) || b == Born(b.zone, n);
        if b in AllGaps(cfg, h[..n]) {
          StillLiesBetween(b, h);
        }
      }
    }
  }

  lemma StillLiesBetween(b: Born<FairValueGap>, h: seq<Candle>)
    requires h != [] && LiesBetween(b, h[..|h| - 1])
    ensures LiesBetween(b, h)
  {
  }

  lemma NewGapLiesBetween(cfg: Config, h: seq<Candle>)
    ensures BullishGap(cfg, h).Some? ==> h != [] && LiesBetween(Born(BullishGap(cfg, h).value, |h| - 1), h)
    ensures BearishGap(cfg, h).Some? ==> h != [] && LiesBetween(Born(BearishGap(cfg, h).value, |h| - 1), h)
  {
    hide Atr;
  }

  // ---- swings ------------------------------------------------------------------------------

  /** What bar `k` of the window leads by, over the bars with another timestamp, on the high or low side. */
  function Lead(w: seq<Candle>, k: nat, kind: SwingType, j: nat): (r: real)
    requires k < |w| && j < |w|
  {
    if kind == High then w[k].high - w[j].high else w[j].low - w[k].low
  }

  /** `p` is the smallest such lead, 0 if there is no other bar. */
  ghost predicate IsProminence(w: seq<Candle>, k: nat, kind: SwingType, p: real)
    requires k < |w|
  {
    && (forall j :: 0 <= j < |w| && w[j].timestamp != w[k].timestamp ==> p <= Lead(w, k, kind, j))
    && if exists j :: 0 <= j < |w| && w[j].timestamp != w[k].timestamp
       then exists j :: 0 <= j < |w| && w[j].timestamp != w[k].timestamp && p == Lead(w, k, kind, j)
       else p == 0.0
  }

  lemma ProminenceOf(w: seq<Candle>, k: nat)
    requires k < |w|
    ensures IsProminence(w, k, High, HighProminence(w, w[k])) && IsProminence(w, k, Low, LowProminence(w, w[k]))
  {
    var others := Others(w, w[k].timestamp);
    forall c ensures c in others <==> c in w && c.timestamp != w[k].timestamp {
      OthersAreTheRest(w, w[k].timestamp, c);
    }
    if others != [] {
      HighLead(w, k, others);
      LowLead(w, k, others);
    } else {
      NoOthers(w, k, others);
    }
  }

  lemma NoOthers(w: seq<Candle>, k: nat, others: seq<Candle>)
    requires k < |w| && others == []
    requires forall c :: c in others <==> c in w && c.timestamp != w[k].timestamp
    ensures IsProminence(w, k, High, 0.0) && IsProminence(w, k, Low, 0.0)
  {
    forall j | 0 <= j < |w| ensures w[j].timestamp == w[k].timestamp {
      assert w[j] !in others;
    }
  }

  lemma HighLead(w: seq<Candle>, k: nat, others: seq<Candle>)
    requires k < |w| && others != []
    requires forall c :: c in others <==> c in w && c.timestamp != w[k].timestamp
    ensures IsProminence(w, k, High, w[k].high - MaxOf(Highs(others)))
  {
    var top := MaxOf(Highs(others));
    forall j | 0 <= j < |w| && w[j].timestamp != w[k].timestamp ensures w[j].high <= top {
      assert w[j] in others;
      var i :| 0 <= i < |others| && others[i] == w[j];
      assert Highs(others)[i] == w[j].high;
    }
    var i :| 0 <= i < |others| && Highs(others)[i] == top;
    assert others[i] in w;
    var j :| 0 <= j < |w| && w[j] == others[i];
    assert Lead(w, k, High, j) == w[k].high - top;
  }

  lemma LowLead(w: seq<Candle>, k: nat, others: seq<Candle>)
    requires k < |w| && others != []
    requires forall c :: c in others <==> c in w && c.timestamp != w[k].timestamp
    ensures IsProminence(w, k, Low, MinOf(Lows(others)) - w[k].low)
  {
    var bottom := MinOf(Lows(others));
    forall j | 0 <= j < |w| && w[j].timestamp != w[k].timestamp ensures bottom <= w[j].low {
      assert w[j] in others;
      var i :| 0 <= i < |others| && others[i] == w[j];
      assert Lows(others)[i] == w[j].low;
    }
    var i :| 0 <= i < |others| && Lows(others)[i] == bottom;
    assert others[i] in w;
    var j :| 0 <= j < |w| && w[j] == others[i];
    assert Lead(w, k, Low, j) == bottom - w[k].low;
  }

  /** Exactly when the newest bar confirms a swing, and which: its window of `2 * k + 1` bars must fit into the 512
      kept, the bar in its middle be the extreme, and, with the adaptive filter on and an ATR to compare with, its
      prominence reach the required multiple. */
  ghost predicate Confirms(cfg: Config, h: seq<Candle>, kind: SwingType, s: Swing)
  {
    var k, n := cfg.lookback, |h|;
    && 2 * k + 1 <= n && 2 * k + 1 <= 512
    && var w := h[n - 2 * k - 1..];
       && s.kind == kind && s.timestamp == w[k].timestamp && s.price == (if kind == High then w[k].high else w[k].low)
       && s.index == (if n <= 512 then n else 512) - k - 1
       && (forall j :: 0 <= j < |w| ==> if kind == High then w[j].high <= w[k].high else w[k].low <= w[j].low)
       && IsProminence(w, k, kind, s.prominence)
       && (cfg.adaptive && Atr(h) > 0.0 ==> s.prominence >= cfg.prominenceMult * Atr(h))
  }

  lemma SwingConfirmedExactlyWhen(cfg: Config, h: seq<Candle>, s: Swing)
    ensures ConfirmedHigh(cfg, h) == Some(s) <==> Confirms(cfg, h, High, s)
    ensures ConfirmedLow(cfg, h) == Some(s) <==> Confirms(cfg, h, Low, s)
  {
    hide Atr, HighProminence, LowProminence, IsProminence, MaxOf, MinOf, Highs, Lows;
    var k, n := cfg.lookback, |h|;
    if 2 * k + 1 <= n && 2 * k + 1 <= 512 {
      var w := h[n - 2 * k - 1..];
      assert Newest(h, 2 * k + 1) == w;
      ProminenceOf(w, k);
      Extremes(w, k);
      ProminenceIsUnique(w, k, High, s.prominence, HighProminence(w, w[k]));
      ProminenceIsUnique(w, k, Low, s.prominence, LowProminence(w, w[k]));
    }
  }

  lemma Extremes(w: seq<Candle>, k: nat)
    requires k < |w|
    ensures w[k].high == MaxOf(Highs(w)) <==> forall j :: 0 <= j < |w| ==> w[j].high <= w[k].high
    ensures w[k].low == MinOf(Lows(w)) <==> forall j :: 0 <= j < |w| ==> w[k].low <= w[j].low
  {
    forall j | 0 <= j < |w| ensures Highs(w)[j] == w[j].high && Lows(w)[j] == w[j].low {
    }
    var i :| 0 <= i < |w| && Highs(w)[i] == MaxOf(Highs(w));
    var m :| 0 <= m < |w| && Lows(w)[m] == MinOf(Lows(w));
    assert Highs(w)[k] <= MaxOf(Highs(w)) && MinOf(Lows(w)) <= Lows(w)[k];
  }

  lemma ProminenceIsUnique(w: seq<Candle>, k: nat, kind: SwingType, p: real, q: real)
    requires k < |w|
    ensures IsProminence(w, k, kind, p) && IsProminence(w, k, kind, q) ==> p == q
  {
    hide Lead;
  }

  /** The swing a bar is measured against is the newest of its kind among the last 50 stored. */
  lemma ReferenceIsNewest(cfg: Config, h: seq<Candle>, kind: SwingType) returns (i: nat)
    ensures var all, r := AllSwings(cfg, h), Reference(cfg, h, kind);
            if r.Some? then
              && i < |all| <= i + 50 && r.value == all[i] && all[i].kind == kind
              && forall j :: i < j < |all| ==> all[j].kind != kind
            else forall j :: 0 <= j < |all| && |all| <= j + 50 ==> all[j].kind != kind
  {
    hide AllSwings;
    var all := AllSwings(cfg, h);
    var kept := Newest(all, SWING_CAP);
    i := LatestIsNewest(kept, kind);
    assert forall j :: 0 <= j < |kept| ==> kept[j] == all[|all| - |kept| + j];
    if Latest(kept, kind).Some? {
      i := |all| - |kept| + i;
    }
  }

  lemma {:induction false} LatestIsNewest(swings: seq<Swing>, kind: SwingType) returns (i: nat)
    ensures var r := Latest(swings, kind);
            if r.Some? then
              && i < |swings| && r.value == swings[i] && swings[i].kind == kind
              && forall j :: i < j < |swings| ==> swings[j].kind != kind
            else forall j :: 0 <= j < |swings| ==> swings[j].kind != kind
  {
    i := 0;
    if swings != [] {
      var n := |swings| - 1;
      i := n;
      if swings[n].kind != kind {
        i := LatestIsNewest(swings[..n], kind);
      }
    }
  }

  // ---- events --------------------------------------------------------------------------------

  /** The share of its range a bar leaves above, or below, its body. */
  function ShareAbove(c: Candle): (r: real)
    requires c.high != c.low
  {
    (if c.close >= c.open then c.high - c.close else c.high - c.open) / (c.high - c.low)
  }

  function ShareBelow(c: Candle): (r: real)
    requires c.high != c.low
  {
    (if c.close <= c.open then c.close - c.low else c.open - c.low) / (c.high - c.low)
  }

  /** What one bar reports, in its prices and those of the reference swings: the wick through a level with a close
      back on the near side, of at least the required share of the range; and the close beyond a level, upward
      first. */
  lemma EventsExactlyWhen(c: Candle, ratio: real, hi: Option<Swing>, lo: Option<Swing>, last: Option<Direction>)
    ensures var events := EventsOf(c, ratio, hi, lo, last);
            && (Reports(events, SweepHigh) <==>
                  hi.Some? && c.close < hi.value.price < c.high && c.low != c.high && ShareAbove(c) >= ratio)
            && (Reports(events, SweepLow) <==>
                  lo.Some? && c.low < lo.value.price < c.close && c.low != c.high && ShareBelow(c) >= ratio)
            && (Reports(events, BosBull) <==> hi.Some? && c.close > hi.value.price && last != Some(Bearish))
            && (Reports(events, ChochBull) <==> hi.Some? && c.close > hi.value.price && last == Some(Bearish))
            && (Reports(events, BosBear) <==>
                  && lo.Some? && c.close < lo.value.price && last != Some(Bullish)
                  && (hi.Some? ==> c.close <= hi.value.price))
            && (Reports(events, ChochBear) <==>
                  && lo.Some? && c.close < lo.value.price && last == Some(Bullish)
                  && (hi.Some? ==> c.close <= hi.value.price))
  {
    hide IsSweepHigh, IsSweepLow, ShareAbove, ShareBelow;
    SweepIsReported(c, ratio, hi, lo, last);
    if hi.Some? {
      SweepMeans(c, hi.value.price, ratio);
    }
    if lo.Some? {
      SweepMeans(c, lo.value.price, ratio);
    }
    BreaksReported(c, ratio, hi, lo, last);
  }

  lemma SweepMeans(c: Candle, level: real, ratio: real)
    ensures IsSweepHigh(c, level, ratio) <==>
            c.close < level < c.high && c.low != c.high && ShareAbove(c) >= ratio
    ensures IsSweepLow(c, level, ratio) <==>
            c.low < level < c.close && c.low != c.high && ShareBelow(c) >= ratio
  {
  }

  lemma BreaksReported(c: Candle, ratio: real, hi: Option<Swing>, lo: Option<Swing>, last: Option<Direction>)
    ensures var events := EventsOf(c, ratio, hi, lo, last);
            && (Reports(events, BosBull) <==> hi.Some? && c.close > hi.value.price && last != Some(Bearish))
            && (Reports(events, ChochBull) <==> hi.Some? && c.close > hi.value.price && last == Some(Bearish))
            && (Reports(events, BosBear) <==>
                  && lo.Some? && c.close < lo.value.price && last != Some(Bullish)
                  && (hi.Some? ==> c.close <= hi.value.price))
            && (Reports(events, ChochBear) <==>
                  && lo.Some? && c.close < lo.value.price && last == Some(Bullish)
                  && (hi.Some? ==> c.close <= hi.value.price))
  {
    hide Sweeps;
    var events, sweeps := EventsOf(c, ratio, hi, lo, last), Sweeps(c, ratio, hi, lo);
    OnlySweeps(c, ratio, hi, lo);
    if BreakOf(c, hi, lo).Some? {
      assert events[|sweeps|].kind == BreakKind(BreakOf(c, hi, lo).value, last);
    }
  }

  lemma OnlySweeps(c: Candle, ratio: real, hi: Option<Swing>, lo: Option<Swing>)
    ensures forall e :: e in Sweeps(c, ratio, hi, lo) ==> e.kind == SweepHigh || e.kind == SweepLow
  {
    hide IsSweepHigh, IsSweepLow;
  }

  /** Every event is of the bar itself; upward ones refer to the reference high, a swept or broken low to the low.
      A bar reports at most one event of each kind of thing: high swept, low swept, break, in that order. */
  lemma EventsRefer(c: Candle, ratio: real, hi: Option<Swing>, lo: Option<Swing>, last: Option<Direction>)
    ensures var events := EventsOf(c, ratio, hi, lo, last);
            && |events| <= 3
            && (forall e :: e in events ==>
                  && e.candle == c
                  && if e.kind == SweepHigh || e.kind == BosBull || e.kind == ChochBull then hi == Some(e.reference)
                     else lo == Some(e.reference))
            && forall i, j :: 0 <= i < j < |events| ==>
                 || (events[i].kind == SweepHigh && events[j].kind != SweepHigh)
                 || (events[i].kind == SweepLow && IsBreakKind(events[j].kind))
  {
    hide IsSweepHigh, IsSweepLow;
  }

  // ---- queries and the confluence score --------------------------------------------------------

  /** The first hit of a list is a hit, and there is one exactly when some listed zone holds the price. */
  lemma {:induction false} HitExactlyWhen(blocks: seq<OrderBlock>, gaps: seq<FairValueGap>, price: real)
    ensures FirstHit(blocks, price).Some? <==> exists b :: b in blocks && b.zoneLow <= price <= b.zoneHigh
    ensures FirstGapHit(gaps, price).Some? <==> exists g :: g in gaps && g.gapLow <= price <= g.gapHigh
    decreases |blocks| + |gaps|
  {
    if blocks != [] {
      HitExactlyWhen(blocks[1..], gaps, price);
      assert blocks == [blocks[0]] + blocks[1..];
    } else if gaps != [] {
      HitExactlyWhen(blocks, gaps[1..], price);
      assert gaps == [gaps[0]] + gaps[1..];
    }
  }

  /** The hit is the first listed zone that holds the price. */
  lemma {:induction false} HitIsFirst(blocks: seq<OrderBlock>, price: real) returns (i: nat)
    requires FirstHit(blocks, price).Some?
    ensures i < |blocks| && FirstHit(blocks, price).value == blocks[i]
    ensures blocks[i].zoneLow <= price <= blocks[i].zoneHigh
    ensures forall j :: 0 <= j < i ==> !(blocks[j].zoneLow <= price <= blocks[j].zoneHigh)
  {
    i := 0;
    if !(blocks[0].zoneLow <= price <= blocks[0].zoneHigh) {
      i := HitIsFirst(blocks[1..], price);
      i := i + 1;
    }
  }

  /** A price hits a stored zone exactly when an active one on its side contains it. */
  lemma PriceHitsExactlyWhen(cfg: Config, h: seq<Candle>, d: Direction, price: real)
    ensures FirstHit(BlockQuery(StoredBlocks(cfg, h), Some(d), true), price).Some? <==>
            exists b :: b in StoredBlocks(cfg, h) && b.direction == d && !b.mitigated
                        && b.zoneLow <= price <= b.zoneHigh
    ensures FirstGapHit(GapQuery(StoredGaps(cfg, h), Some(d), true), price).Some? <==>
            exists g :: g in StoredGaps(cfg, h) && g.direction == d && !g.filled && g.gapLow <= price <= g.gapHigh
  {
    hide StoredBlocks, StoredGaps, BlockQuery, GapQuery, FirstHit, FirstGapHit;
    var blocks, gaps := StoredBlocks(cfg, h), StoredGaps(cfg, h);
    HitExactlyWhen(BlockQuery(blocks, Some(d), true), GapQuery(gaps, Some(d), true), price);
    forall b ensures b in BlockQuery(blocks, Some(d), true) <==> b in blocks && b.direction == d && !b.mitigated {
      QuerySelects(blocks, Some(d), true, b);
    }
    forall g ensures g in GapQuery(gaps, Some(d), true) <==> g in gaps && g.direction == d && !g.filled {
      GapQuerySelects(gaps, Some(d), true, g);
    }
  }

  /** A query keeps the side it is asked for, either side if none, and leaves out the spent zones if asked to. */
  lemma QueryKeeps(blocks: seq<OrderBlock>, gaps: seq<FairValueGap>, d: Option<Direction>, activeOnly: bool)
    ensures forall b :: b in BlockQuery(blocks, d, activeOnly) <==>
              b in blocks && (d.Some? ==> b.direction == d.value) && (activeOnly ==> !b.mitigated)
    ensures forall g :: g in GapQuery(gaps, d, activeOnly) <==>
              g in gaps && (d.Some? ==> g.direction == d.value) && (activeOnly ==> !g.filled)
  {
    hide BlockQuery, GapQuery;
    forall b ensures b in BlockQuery(blocks, d, activeOnly) <==>
                     b in blocks && (d.Some? ==> b.direction == d.value) && (activeOnly ==> !b.mitigated) {
      QuerySelects(blocks, d, activeOnly, b);
    }
    forall g ensures g in GapQuery(gaps, d, activeOnly) <==>
                     g in gaps && (d.Some? ==> g.direction == d.value) && (activeOnly ==> !g.filled) {
      GapQuerySelects(gaps, d, activeOnly, g);
    }
  }

  /** What each fact adds to the confluence score, whatever the others are. */
  lemma ConfluenceWeights(bias: bool, block: bool, gap: bool, trend: bool, near: bool)
    ensures ConfluenceScore(false, false, false, false, false) == 0.0
    ensures ConfluenceScore(true, block, gap, trend, near) == ConfluenceScore(false, block, gap, trend, near) + 0.25
    ensures ConfluenceScore(bias, true, gap, trend, near) == ConfluenceScore(bias, false, gap, trend, near) + 0.25
    ensures ConfluenceScore(bias, block, true, trend, near) == ConfluenceScore(bias, block, false, trend, near) + 0.2
    ensures ConfluenceScore(bias, block, gap, true, near) == ConfluenceScore(bias, block, gap, false, near) + 0.2
    ensures ConfluenceScore(bias, block, gap, trend, true) == ConfluenceScore(bias, block, gap, trend, false) + 0.1
  {
  }

  /** The last weight: the newest stored low (for a long) or high (for a short) is within two ATRs of the price. */
  lemma NearExactlyWhen(swings: seq<Swing>, price: real, d: Direction, atr: real) returns (i: nat)
    ensures NearSwing(swings, price, d, atr) <==>
            && atr > 0.0 && i < |swings| && swings[i].kind == (if d == Bullish then Low else High)
            && price - 2.0 * atr <= swings[i].price <= price + 2.0 * atr
    ensures forall j :: i < j < |swings| ==> swings[j].kind != if d == Bullish then Low else High
  {
    i := LatestIsNewest(swings, if d == Bullish then Low else High);
  }

  /** A report that repeats time and kind of the newest swing is dropped; any other becomes the newest. */
  lemma ReportIsStored(swings: seq<Swing>, s: Option<Swing>)
    ensures var n, more := |swings|, AddSwing(swings, s);
            if s.Some? && !(n > 0 && swings[n - 1].timestamp == s.value.timestamp && swings[n - 1].kind == s.value.kind)
            then more == swings + [s.value] else more == swings
  {
  }
}
