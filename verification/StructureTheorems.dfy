/** What the market-structure tracker guarantees over every run: zone geometry, swing soundness and
    completeness, and the language of its break events. */
module StructureTheorems {
  import opened Foundations
  import opened Candles
  import opened StructureSpec

  // ---- zone separation --------------------------------------------------------------

  /** An active block has been clear of every bar since the one that created it, that bar included. */
  lemma ActiveBlockClearsEveryBar(cfg: Config, h: seq<Candle>, i: nat, j: nat)
    requires i < |StoredBlocks(cfg, h)| && !StoredBlocks(cfg, h)[i].mitigated
    requires Newest(AllBlocks(cfg, h), ZONE_CAP)[i].at <= j < |h|
    ensures var ob := StoredBlocks(cfg, h)[i];
            match ob.direction
            case Bullish => ob.zoneHigh < h[j].low
            case Bearish => h[j].high < ob.zoneLow
  {
    hide AllBlocks;
    var b := Newest(AllBlocks(cfg, h), ZONE_CAP)[i];
    assert !Mitigated(b, h);
    assert !TouchesBlock(b.zone, h[j]);
  }

  /** Every active demand zone lies strictly below every active supply zone, as long as the newest bar's low is
      not above its high. */
  lemma DemandBelowSupply(cfg: Config, h: seq<Candle>, x: nat, y: nat)
    requires h != [] && h[|h| - 1].low <= h[|h| - 1].high
    requires x < |StoredBlocks(cfg, h)| && y < |StoredBlocks(cfg, h)|
    requires var demand := StoredBlocks(cfg, h)[x]; demand.direction == Bullish && !demand.mitigated
    requires var supply := StoredBlocks(cfg, h)[y]; supply.direction == Bearish && !supply.mitigated
    ensures StoredBlocks(cfg, h)[x].zoneHigh < StoredBlocks(cfg, h)[y].zoneLow
  {
    hide AllBlocks, StoredBlocks;
    BirthsInRange(cfg, h, x);
    ActiveBlockClearsEveryBar(cfg, h, x, |h| - 1);
    BirthsInRange(cfg, h, y);
    ActiveBlockClearsEveryBar(cfg, h, y, |h| - 1);
  }

  lemma BirthsInRange(cfg: Config, h: seq<Candle>, i: nat)
    requires i < |StoredBlocks(cfg, h)|
    ensures i < |Newest(AllBlocks(cfg, h), ZONE_CAP)| && Newest(AllBlocks(cfg, h), ZONE_CAP)[i].at < |h|
  {
  }

  /** `r` lists the elements of `xs` that `keep` selects, each stored one once and the newest first: `at` are
      their positions. */
  ghost predicate ListsNewestFirst<T(!new)>(xs: seq<T>, keep: T -> bool, r: seq<T>, at: seq<nat>)
  {
    && |at| == |r|
    && (forall i :: 0 <= i < |r| ==> at[i] < |xs| && r[i] == xs[at[i]] && keep(xs[at[i]]))
    && (forall i, j :: 0 <= i < j < |at| ==> at[j] < at[i])
    && forall k :: 0 <= k < |xs| && keep(xs[k]) ==> k in at
  }

  /** One older element in front. */
  function Shifted(at: seq<nat>, kept: bool): (r: seq<nat>)
  {
    seq(|at|, i requires 0 <= i < |at| => at[i] + 1) + if kept then [0] else []
  }

  lemma OneOlder<T(!new)>(x: T, xs: seq<T>, keep: T -> bool, r: seq<T>, at: seq<nat>)
    requires ListsNewestFirst(xs, keep, r, at)
    ensures ListsNewestFirst([x] + xs, keep, r + if keep(x) then [x] else [], Shifted(at, keep(x)))
  {
    var all, r', at' := [x] + xs, r + if keep(x) then [x] else [], Shifted(at, keep(x));
    forall i | 0 <= i < |r'| ensures at'[i] < |all| && r'[i] == all[at'[i]] && keep(all[at'[i]]) {
      if i < |r| {
        assert all[at[i] + 1] == xs[at[i]];
      }
    }
    forall i, j | 0 <= i < j < |at'| ensures at'[j] < at'[i] {
      assert j < |at| ==> at[j] < at[i];
    }
    forall k | 0 <= k < |all| && keep(all[k]) ensures k in at' {
      OlderListed(x, xs, keep, r, at, k);
    }
  }

  lemma OlderListed<T(!new)>(x: T, xs: seq<T>, keep: T -> bool, r: seq<T>, at: seq<nat>, k: nat)
    requires ListsNewestFirst(xs, keep, r, at) && k < |[x] + xs| && keep(([x] + xs)[k])
    ensures k in Shifted(at, keep(x))
  {
    var at' := Shifted(at, keep(x));
    if k == 0 {
      assert at'[|at|] == 0;
    } else {
      assert keep(xs[k - 1]);
      var i :| 0 <= i < |at| && at[i] == k - 1;
      assert at'[i] == k;
    }
  }

  /** A block query lists exactly the matching stored blocks, newest first. */
  lemma {:induction false} BlocksNewestFirst(blocks: seq<OrderBlock>, d: Option<Direction>, activeOnly: bool)
    returns (at: seq<nat>)
    ensures ListsNewestFirst(blocks, ob => Selects(ob, d, activeOnly), BlockQuery(blocks, d, activeOnly), at)
  {
    hide Selects, ListsNewestFirst;
    at := [];
    if blocks == [] {
      NothingListed((ob: OrderBlock) => Selects(ob, d, activeOnly));
    } else {
      at := BlocksNewestFirst(blocks[1..], d, activeOnly);
      var keep := (ob: OrderBlock) => Selects(ob, d, activeOnly);
      OneOlder(blocks[0], blocks[1..], keep, BlockQuery(blocks[1..], d, activeOnly), at);
      assert [blocks[0]] + blocks[1..] == blocks;
      at := Shifted(at, keep(blocks[0]));
    }
  }

  /** So does a gap query. */
  lemma {:induction false} GapsNewestFirst(gaps: seq<FairValueGap>, d: Option<Direction>, activeOnly: bool)
    returns (at: seq<nat>)
    ensures ListsNewestFirst(gaps, g => SelectsGap(g, d, activeOnly), GapQuery(gaps, d, activeOnly), at)
  {
    hide SelectsGap, ListsNewestFirst;
    at := [];
    if gaps == [] {
      NothingListed((g: FairValueGap) => SelectsGap(g, d, activeOnly));
    } else {
      at := GapsNewestFirst(gaps[1..], d, activeOnly);
      var keep := (g: FairValueGap) => SelectsGap(g, d, activeOnly);
      OneOlder(gaps[0], gaps[1..], keep, GapQuery(gaps[1..], d, activeOnly), at);
      assert [gaps[0]] + gaps[1..] == gaps;
      at := Shifted(at, keep(gaps[0]));
    }
  }

  lemma NothingListed<T(!new)>(keep: T -> bool)
    ensures ListsNewestFirst([], keep, [], [])
  {
  }

  lemma ListedExactly<T(!new)>(xs: seq<T>, keep: T -> bool, r: seq<T>, at: seq<nat>)
    requires ListsNewestFirst(xs, keep, r, at)
    ensures forall x :: x in r <==> x in xs && keep(x)
  {
    forall x | x in xs && keep(x) ensures x in r {
      var k :| 0 <= k < |xs| && xs[k] == x;
      var i :| 0 <= i < |at| && at[i] == k;
      assert r[i] == x;
    }
  }

  lemma QuerySelects(blocks: seq<OrderBlock>, d: Option<Direction>, activeOnly: bool, ob: OrderBlock)
    ensures ob in BlockQuery(blocks, d, activeOnly) <==> ob in blocks && Selects(ob, d, activeOnly)
  {
    hide Selects, ListsNewestFirst, BlockQuery;
    var at := BlocksNewestFirst(blocks, d, activeOnly);
    ListedExactly(blocks, ob => Selects(ob, d, activeOnly), BlockQuery(blocks, d, activeOnly), at);
  }

  lemma GapQuerySelects(gaps: seq<FairValueGap>, d: Option<Direction>, activeOnly: bool, g: FairValueGap)
    ensures g in GapQuery(gaps, d, activeOnly) <==> g in gaps && SelectsGap(g, d, activeOnly)
  {
    hide SelectsGap, ListsNewestFirst, GapQuery;
    var at := GapsNewestFirst(gaps, d, activeOnly);
    ListedExactly(gaps, g => SelectsGap(g, d, activeOnly), GapQuery(gaps, d, activeOnly), at);
  }

  lemma {:induction false} FirstHitIsListed(blocks: seq<OrderBlock>, price: real)
    ensures var hit := FirstHit(blocks, price);
            hit.Some? ==> hit.value in blocks && hit.value.zoneLow <= price <= hit.value.zoneHigh
  {
    if blocks != [] {
      FirstHitIsListed(blocks[1..], price);
    }
  }

  /** Mitigation runs last, on the bar itself: no active block ever contains the newest close. */
  lemma NoActiveBlockAtClose(cfg: Config, h: seq<Candle>, d: Direction)
    requires h != [] && h[|h| - 1].WellFormed()
    ensures FirstHit(BlockQuery(StoredBlocks(cfg, h), Some(d), true), h[|h| - 1].close) == None
  {
    hide AllBlocks, StoredBlocks, BlockQuery, FirstHit;
    var close := h[|h| - 1].close;
    var found := BlockQuery(StoredBlocks(cfg, h), Some(d), true);
    FirstHitIsListed(found, close);
    if FirstHit(found, close).Some? {
      var ob := FirstHit(found, close).value;
      QuerySelects(StoredBlocks(cfg, h), Some(d), true, ob);
      var i :| 0 <= i < |StoredBlocks(cfg, h)| && StoredBlocks(cfg, h)[i] == ob;
      BirthsInRange(cfg, h, i);
      ActiveBlockClearsEveryBar(cfg, h, i, |h| - 1);
    }
  }

  /** So the confluence score of the newest close never exceeds 0.75: the "exceptional" band the
      documentation puts at 0.80 is out of reach there. */
  lemma CloseScoresAtMostThreeQuarters(cfg: Config, h: seq<Candle>, d: Direction, bias: bool, gap: bool, trend: bool,
                                       near: bool)
    requires h != [] && h[|h| - 1].WellFormed()
    ensures var hit := FirstHit(BlockQuery(StoredBlocks(cfg, h), Some(d), true), h[|h| - 1].close).Some?;
            ConfluenceScore(bias, hit, gap, trend, near) <= 0.75
  {
    NoActiveBlockAtClose(cfg, h, d);
  }

  /** Likewise an unfilled gap has never been traded through since it opened. */
  lemma ActiveGapClearsEveryBar(cfg: Config, h: seq<Candle>, i: nat, j: nat)
    requires i < |StoredGaps(cfg, h)| && !StoredGaps(cfg, h)[i].filled
    requires Newest(AllGaps(cfg, h), ZONE_CAP)[i].at <= j < |h|
    ensures var g := StoredGaps(cfg, h)[i];
            match g.direction
            case Bullish => g.gapLow < h[j].low
            case Bearish => h[j].high < g.gapHigh
  {
    hide AllGaps;
    var b := Newest(AllGaps(cfg, h), ZONE_CAP)[i];
    assert !Filled(b, h);
    assert !FillsGap(b.zone, h[j]);
  }

  // ---- where blocks come from ---------------------------------------------------------

  /** Bar `s` is the last bar opposing `d` among the 10 before bar `at`, and bar `at` is a
      displacement that broke structure in direction `d`. */
  ghost predicate IsSource(cfg: Config, d: Direction, h: seq<Candle>, at: nat, s: int)
  {
    && at < |h| && 0 <= s < at <= s + BLOCK_SEARCH
    && Opposes(d, h[s]) && (forall j :: s < j < at ==> !Opposes(d, h[j]))
    && BreakAt(cfg, h[..at + 1]) == Some(d)
    && 0.0 < Atr(h[..at + 1]) && cfg.displacementMult * Atr(h[..at + 1]) <= h[at].Body()
  }

  lemma {:induction false} LastOpposingIsLast(d: Direction, bars: seq<Candle>, lo: nat, hi: nat) returns (s: int)
    requires lo <= hi <= |bars|
    ensures lo - 1 <= s < hi && forall j :: s < j < hi ==> !Opposes(d, bars[j])
    ensures s >= lo ==> Opposes(d, bars[s]) && LastOpposing(d, bars, lo, hi) == Some(bars[s])
    ensures s == lo - 1 ==> LastOpposing(d, bars, lo, hi) == None
    decreases hi - lo
  {
    if lo == hi {
      s := lo - 1;
    } else if Opposes(d, bars[hi - 1]) {
      s := hi - 1;
    } else {
      s := LastOpposingIsLast(d, bars, lo, hi - 1);
    }
  }

  /** Every block ever detected is the body of such a bar, recorded unmitigated. */
  lemma {:induction false} BlockOrigin(cfg: Config, h: seq<Candle>, i: nat) returns (s: int)
    requires i < |AllBlocks(cfg, h)|
    ensures var b := AllBlocks(cfg, h)[i];
            && IsSource(cfg, b.zone.direction, h, b.at, s)
            && b.zone == BlockFrom(b.zone.direction, h[s], h[b.at])
            && b.zone.zoneLow < b.zone.zoneHigh
  {
    hide Atr, BreakAt, BlockBehind, BlockFrom, Opposes;
    var n := |h| - 1;
    var before := AllBlocks(cfg, h[..n]);
    if i < |before| {
      s := BlockOrigin(cfg, h[..n], i);
      var at := before[i].at;
      assert h[..n][..at + 1] == h[..at + 1];
    } else {
      s := NewBlockOrigin(cfg, h);
    }
  }

  lemma NewBlockOrigin(cfg: Config, h: seq<Candle>) returns (s: int)
    requires h != [] && BlockAt(cfg, h).Some?
    ensures var ob := BlockAt(cfg, h).value;
            && IsSource(cfg, ob.direction, h, |h| - 1, s)
            && ob == BlockFrom(ob.direction, h[s], h[|h| - 1])
            && ob.zoneLow < ob.zoneHigh
  {
    hide Atr, BreakAt, LastOpposing;
    var n := |h| - 1;
    s := LastOpposingIsLast(BreakAt(cfg, h).value, h, if n < BLOCK_SEARCH then 0 else n - BLOCK_SEARCH, n);
    assert h[..n + 1] == h;
  }

  /** Bars `at - 2` and `at` leave a gap of at least the required size between them. */
  ghost predicate IsImbalance(cfg: Config, d: Direction, h: seq<Candle>, at: nat)
  {
    && 2 <= at < |h|
    && var size := if d == Bullish then h[at].low - h[at - 2].high else h[at - 2].low - h[at].high;
       0.0 < size && cfg.fvgMult * Atr(h[..at + 1]) <= size
  }

  /** Some gap in direction `d` was born on bar `at`. */
  ghost predicate HasGap(gaps: seq<Born<FairValueGap>>, d: Direction, at: nat)
  {
    exists i :: 0 <= i < |gaps| && gaps[i].at == at && gaps[i].zone.direction == d
  }

  lemma BirthAdds(gaps: seq<Born<FairValueGap>>, g: Option<FairValueGap>, n: nat, d: Direction, at: nat)
    ensures HasGap(AddBirth(gaps, g, n), d, at) <==>
            HasGap(gaps, d, at) || (g.Some? && at == n && g.value.direction == d)
  {
    if g.Some? {
      var more := gaps + [Born(g.value, n)];
      assert more[|gaps|] == Born(g.value, n);
      if HasGap(gaps, d, at) {
        var i :| 0 <= i < |gaps| && gaps[i].at == at && gaps[i].zone.direction == d;
        assert more[i] == gaps[i];
      }
    }
  }

  /** A gap is recorded for a bar exactly when the bar completes an imbalance. */
  lemma {:induction false} GapsAreImbalances(cfg: Config, d: Direction, h: seq<Candle>, at: nat)
    ensures HasGap(AllGaps(cfg, h), d, at) <==> IsImbalance(cfg, d, h, at)
  {
    if h != [] {
      var n, before := |h| - 1, h[..|h| - 1];
      GapsAreImbalances(cfg, d, before, at);
      NewGaps(cfg, h);
      assert HasGap(AllGaps(cfg, before), d, at) ==> at < n;
      if at != n {
        ImbalanceOfPrefix(cfg, d, h, at);
      }
      hide Atr, AllGaps, BullishGap, BearishGap, IsImbalance, HasGap;
      var up, down := BullishGap(cfg, h), BearishGap(cfg, h);
      BirthAdds(AllGaps(cfg, before), up, n, d, at);
      BirthAdds(AddBirth(AllGaps(cfg, before), up, n), down, n, d, at);
    }
  }

  lemma ImbalanceOfPrefix(cfg: Config, d: Direction, h: seq<Candle>, at: nat)
    requires h != [] && at != |h| - 1
    ensures IsImbalance(cfg, d, h, at) <==> IsImbalance(cfg, d, h[..|h| - 1], at)
  {
    hide Atr;
    if at < |h| - 1 {
      assert h[..|h| - 1][..at + 1] == h[..at + 1];
    }
  }

  lemma NewGaps(cfg: Config, h: seq<Candle>)
    requires h != []
    ensures var n, up, down := |h| - 1, BullishGap(cfg, h), BearishGap(cfg, h);
            && (up.Some? <==> IsImbalance(cfg, Bullish, h, n)) && (down.Some? <==> IsImbalance(cfg, Bearish, h, n))
            && (up.Some? ==> up.value.direction == Bullish) && (down.Some? ==> down.value.direction == Bearish)
            && AllGaps(cfg, h) == AddBirth(AddBirth(AllGaps(cfg, h[..n]), up, n), down, n)
  {
    hide Atr;
    assert h[..|h|] == h;
  }

  // ---- swings --------------------------------------------------------------------------

  lemma {:induction false} OthersAreTheRest(w: seq<Candle>, t: int, c: Candle)
    ensures c in Others(w, t) <==> c in w && c.timestamp != t
  {
    if w != [] {
      var n := |w| - 1;
      OthersAreTheRest(w[..n], t, c);
      assert w == w[..n] + [w[n]];
    }
  }

  /** In a window with distinct timestamps, a prominence is the lead over every other bar. */
  lemma HighProminenceLeads(w: seq<Candle>, k: nat, j: nat)
    requires k < |w| && j < |w| && w[j].timestamp != w[k].timestamp
    ensures HighProminence(w, w[k]) <= w[k].high - w[j].high
  {
    OthersAreTheRest(w, w[k].timestamp, w[j]);
    var others := Others(w, w[k].timestamp);
    var i :| 0 <= i < |others| && others[i] == w[j];
    assert Highs(others)[i] == w[j].high;
  }

  lemma LowProminenceLeads(w: seq<Candle>, k: nat, j: nat)
    requires k < |w| && j < |w| && w[j].timestamp != w[k].timestamp
    ensures LowProminence(w, w[k]) <= w[j].low - w[k].low
  {
    OthersAreTheRest(w, w[k].timestamp, w[j]);
    var others := Others(w, w[k].timestamp);
    var i :| 0 <= i < |others| && others[i] == w[j];
    assert Lows(others)[i] == w[j].low;
  }

  lemma HighProminenceNonNegative(w: seq<Candle>, k: nat)
    requires k < |w| && w[k].high == MaxOf(Highs(w))
    ensures HighProminence(w, w[k]) >= 0.0
  {
    var others := Others(w, w[k].timestamp);
    if others != [] {
      var i :| 0 <= i < |others| && Highs(others)[i] == MaxOf(Highs(others));
      OthersAreTheRest(w, w[k].timestamp, others[i]);
      var j :| 0 <= j < |w| && w[j] == others[i];
      assert Highs(w)[j] == others[i].high;
    }
  }

  lemma LowProminenceNonNegative(w: seq<Candle>, k: nat)
    requires k < |w| && w[k].low == MinOf(Lows(w))
    ensures LowProminence(w, w[k]) >= 0.0
  {
    var others := Others(w, w[k].timestamp);
    if others != [] {
      var i :| 0 <= i < |others| && Lows(others)[i] == MinOf(Lows(others));
      OthersAreTheRest(w, w[k].timestamp, others[i]);
      var j :| 0 <= j < |w| && w[j] == others[i];
      assert Lows(w)[j] == others[i].low;
    }
  }

  /** `s` is the extremum of the window `w` around its middle bar; with the adaptive filter on and an ATR
      to compare with, it leads every bar with another timestamp by at least the configured multiple. */
  ghost predicate IsPivotOf(cfg: Config, s: Swing, w: seq<Candle>, atr: real)
  {
    && |w| == 2 * cfg.lookback + 1 && s.timestamp == w[cfg.lookback].timestamp && s.prominence >= 0.0
    && s.price == (if s.kind == High then w[cfg.lookback].high else w[cfg.lookback].low)
    && (forall j :: 0 <= j < |w| ==> if s.kind == High then w[j].high <= s.price else s.price <= w[j].low)
    && (cfg.adaptive && atr > 0.0 ==>
          forall j :: 0 <= j < |w| && w[j].timestamp != s.timestamp ==>
            cfg.prominenceMult * atr <= if s.kind == High then s.price - w[j].high else w[j].low - s.price)
  }

  /** Where swing `s` was reported: on ingesting the `n`th bar. */
  ghost predicate ReportedAt(cfg: Config, h: seq<Candle>, s: Swing, n: nat)
  {
    && n <= |h| && HasWindow(cfg.lookback, n, CANDLE_CAP)
    && (ConfirmedHigh(cfg, h[..n]) == Some(s) || ConfirmedLow(cfg, h[..n]) == Some(s))
  }

  lemma HighIsPivot(w: seq<Candle>, k: nat)
    requires k < |w| && w[k].high == MaxOf(Highs(w))
    ensures HighProminence(w, w[k]) >= 0.0
    ensures forall j :: 0 <= j < |w| ==> w[j].high <= w[k].high
    ensures forall j :: 0 <= j < |w| && w[j].timestamp != w[k].timestamp ==>
              HighProminence(w, w[k]) <= w[k].high - w[j].high
  {
    hide HighProminence;
    HighProminenceNonNegative(w, k);
    forall j | 0 <= j < |w| ensures w[j].high <= w[k].high {
      assert w[j].high == Highs(w)[j];
    }
    forall j | 0 <= j < |w| && w[j].timestamp != w[k].timestamp
      ensures HighProminence(w, w[k]) <= w[k].high - w[j].high
    {
      HighProminenceLeads(w, k, j);
    }
  }

  lemma LowIsPivot(w: seq<Candle>, k: nat)
    requires k < |w| && w[k].low == MinOf(Lows(w))
    ensures LowProminence(w, w[k]) >= 0.0
    ensures forall j :: 0 <= j < |w| ==> w[k].low <= w[j].low
    ensures forall j :: 0 <= j < |w| && w[j].timestamp != w[k].timestamp ==>
              LowProminence(w, w[k]) <= w[j].low - w[k].low
  {
    hide LowProminence;
    LowProminenceNonNegative(w, k);
    forall j | 0 <= j < |w| ensures w[k].low <= w[j].low {
      assert w[j].low == Lows(w)[j];
    }
    forall j | 0 <= j < |w| && w[j].timestamp != w[k].timestamp
      ensures LowProminence(w, w[k]) <= w[j].low - w[k].low
    {
      LowProminenceLeads(w, k, j);
    }
  }

  lemma ReportedSwingIsPivot(cfg: Config, h: seq<Candle>, s: Swing, n: nat)
    requires ReportedAt(cfg, h, s, n)
    ensures IsPivotOf(cfg, s, Newest(h[..n], 2 * cfg.lookback + 1), Atr(h[..n]))
  {
    hide Atr, HighProminence, LowProminence, MaxOf, MinOf, Highs, Lows;
    var k, w := cfg.lookback, Newest(h[..n], 2 * cfg.lookback + 1);
    if ConfirmedHigh(cfg, h[..n]) == Some(s) {
      HighIsPivot(w, k);
    } else {
      LowIsPivot(w, k);
    }
  }

  /** Soundness: every swing ever stored is the pivot of some full window of the history. */
  lemma {:induction false} EverySwingIsPivot(cfg: Config, h: seq<Candle>, i: nat) returns (n: nat)
    requires i < |AllSwings(cfg, h)|
    ensures ReportedAt(cfg, h, AllSwings(cfg, h)[i], n)
    ensures IsPivotOf(cfg, AllSwings(cfg, h)[i], Newest(h[..n], 2 * cfg.lookback + 1), Atr(h[..n]))
  {
    hide Atr, HighAt, LowAt, IsPivotOf;
    var before := h[..|h| - 1];
    if i < |AllSwings(cfg, before)| {
      n := EverySwingIsPivot(cfg, before, i);
      assert before[..n] == h[..n];
    } else {
      n := |h|;
      assert h[..n] == h;
    }
    ReportedSwingIsPivot(cfg, h, AllSwings(cfg, h)[i], n);
  }

  /** Every pivot of `h[..n]`, found by looking at each full window once, with no state. */
  function Batch(cfg: Config, h: seq<Candle>, n: nat): (r: seq<Swing>)
    requires n <= |h|
  {
    if n == 0 then []
    else
      Batch(cfg, h, n - 1)
      + (if ConfirmedHigh(cfg, h[..n]).Some? then [ConfirmedHigh(cfg, h[..n]).value] else [])
      + (if ConfirmedLow(cfg, h[..n]).Some? then [ConfirmedLow(cfg, h[..n]).value] else [])
  }

  ghost predicate DistinctTimestamps(h: seq<Candle>)
  {
    forall i, j :: 0 <= i < j < |h| ==> h[i].timestamp != h[j].timestamp
  }

  /** Completeness: with distinct timestamps the online detector reports exactly the batch pivots, in order. */
  lemma {:induction false} OnlineEqualsBatch(cfg: Config, h: seq<Candle>)
    requires DistinctTimestamps(h)
    ensures AllSwings(cfg, h) == Batch(cfg, h, |h|)
  {
    hide HighAt, LowAt;
    if h != [] {
      var before := h[..|h| - 1];
      OnlineEqualsBatch(cfg, before);
      BatchOfPrefix(cfg, h, |h| - 1, |h| - 1);
      assert h[..|h|] == h;
      NewestSwingIsOlder(cfg, h);
    }
  }

  lemma {:induction false} BatchOfPrefix(cfg: Config, h: seq<Candle>, m: nat, n: nat)
    requires n <= m <= |h|
    ensures Batch(cfg, h[..m], n) == Batch(cfg, h, n)
  {
    hide ConfirmedHigh, ConfirmedLow;
    if n > 0 {
      BatchOfPrefix(cfg, h, m, n - 1);
      assert h[..m][..n] == h[..n];
    }
  }

  /** The newest stored swing has another timestamp than what the next bar can confirm, and the low
      that may follow a high has another kind: no report is ever dropped as a repeat. */
  lemma NewestSwingIsOlder(cfg: Config, h: seq<Candle>)
    requires h != [] && DistinctTimestamps(h)
    ensures var all, hi, lo := AllSwings(cfg, h[..|h| - 1]), ConfirmedHigh(cfg, h), ConfirmedLow(cfg, h);
            && (hi.Some? ==> !IsRepeat(all, hi.value))
            && (lo.Some? ==> !IsRepeat(AddSwing(all, hi), lo.value))
  {
    hide AllSwings, ConfirmedHigh, ConfirmedLow, IsPivotOf, Atr;
    var k, before := cfg.lookback, h[..|h| - 1];
    var all := AllSwings(cfg, before);
    ConfirmedIdentity(cfg, h);
    if all != [] && HasWindow(k, |h|, CANDLE_CAP) {
      var n := EverySwingIsPivot(cfg, before, |all| - 1);
      ConfirmedIdentity(cfg, before[..n]);
      assert all[|all| - 1].timestamp == h[n - k - 1].timestamp;
    }
  }

  lemma ConfirmedIdentity(cfg: Config, h: seq<Candle>)
    ensures !HasWindow(cfg.lookback, |h|, CANDLE_CAP) ==> ConfirmedHigh(cfg, h) == ConfirmedLow(cfg, h) == None
    ensures var hi, lo, p := ConfirmedHigh(cfg, h), ConfirmedLow(cfg, h), |h| - cfg.lookback - 1;
            && (hi.Some? ==> hi.value.kind == High && 0 <= p && hi.value.timestamp == h[p].timestamp)
            && (lo.Some? ==> lo.value.kind == Low && 0 <= p && lo.value.timestamp == h[p].timestamp)
  {
    hide PassesProminence, HighProminence, LowProminence, MaxOf, MinOf, Highs, Lows;
    if HasWindow(cfg.lookback, |h|, CANDLE_CAP) {
      assert Newest(h, 2 * cfg.lookback + 1)[cfg.lookback] == h[|h| - cfg.lookback - 1];
    }
  }

  /** A window wider than the candle deque is never complete: such a tracker reports nothing, ever. */
  lemma {:induction false} WideLookbackSeesNothing(cfg: Config, h: seq<Candle>)
    requires 2 * cfg.lookback + 1 > CANDLE_CAP
    ensures AllSwings(cfg, h) == [] && LastBreak(cfg, h) == None
    ensures h != [] ==> Events(cfg, h) == []
  {
    if h != [] {
      WideLookbackSeesNothing(cfg, h[..|h| - 1]);
    }
  }

  // ---- break language --------------------------------------------------------------------

  predicate IsBreakKind(k: Kind) { k != SweepHigh && k != SweepLow }

  predicate IsChange(k: Kind) { k == ChochBull || k == ChochBear }

  function DirectionOf(k: Kind): (r: Direction)
    requires IsBreakKind(k)
  {
    if k == BosBull || k == ChochBull then Bullish else Bearish
  }

  /** The kinds of the break events among `events`, in order. */
  function BreakKinds(events: seq<Event>): (r: seq<Kind>)
    ensures forall i :: 0 <= i < |r| ==> IsBreakKind(r[i])
  {
    if events == [] then []
    else
      var n := |events| - 1;
      BreakKinds(events[..n]) + if IsBreakKind(events[n].kind) then [events[n].kind] else []
  }

  lemma {:induction false} BreakKindsOfConcat(a: seq<Event>, b: seq<Event>)
    ensures BreakKinds(a + b) == BreakKinds(a) + BreakKinds(b)
  {
    if b == [] {
      assert a + b == a;
    } else {
      BreakKindsOfConcat(a, b[..|b| - 1]);
      assert (a + b)[..|a + b| - 1] == a + b[..|b| - 1];
    }
  }

  /** Everything a run over `h` reports, in order. */
  function Emitted(cfg: Config, h: seq<Candle>): (r: seq<Event>)
  {
    if h == [] then [] else Emitted(cfg, h[..|h| - 1]) + Events(cfg, h)
  }

  lemma BreakKindsOfBar(c: Candle, ratio: real, hi: Option<Swing>, lo: Option<Swing>, last: Option<Direction>)
    ensures BreakKinds(EventsOf(c, ratio, hi, lo, last)) ==
            match BreakOf(c, hi, lo) case None => [] case Some(d) => [BreakKind(d, last)]
  {
    hide Sweeps, BreakKinds, BreakKind, BreakOf;
    var broken := BreakOf(c, hi, lo);
    var sweeps := Sweeps(c, ratio, hi, lo);
    NoSweepBreaks(c, ratio, hi, lo);
    if broken.Some? {
      BreakHasReference(c, hi, lo);
      var e := Event(BreakKind(broken.value, last), c,
                     match broken.value case Bullish => hi.value case Bearish => lo.value);
      assert EventsOf(c, ratio, hi, lo, last) == sweeps + [e];
      BreakKindsOfConcat(sweeps, [e]);
      BreakKindsOfOne(broken.value, last, e);
    } else {
      NoBreaks([]);
      BreakKindsOfConcat(sweeps, []);
    }
  }

  lemma BreakHasReference(c: Candle, hi: Option<Swing>, lo: Option<Swing>)
    ensures BreakOf(c, hi, lo) == Some(Bullish) ==> hi.Some?
    ensures BreakOf(c, hi, lo) == Some(Bearish) ==> lo.Some?
  {
  }

  lemma BreakKindsOfOne(d: Direction, last: Option<Direction>, e: Event)
    requires e.kind == BreakKind(d, last)
    ensures BreakKinds([e]) == [e.kind]
  {
    assert [e][..0] == [];
  }

  lemma NoSweepBreaks(c: Candle, ratio: real, hi: Option<Swing>, lo: Option<Swing>)
    ensures BreakKinds(Sweeps(c, ratio, hi, lo)) == []
  {
    hide IsSweepHigh, IsSweepLow;
    NoBreaks(Sweeps(c, ratio, hi, lo));
  }

  lemma {:induction false} NoBreaks(events: seq<Event>)
    requires forall i :: 0 <= i < |events| ==> !IsBreakKind(events[i].kind)
    ensures BreakKinds(events) == []
  {
    if events != [] {
      NoBreaks(events[..|events| - 1]);
    }
  }

  /** In a well-spoken sequence of breaks, exactly the direction changes are changes of character. */
  ghost predicate WellSpoken(breaks: seq<Kind>)
  {
    && (forall i :: 0 <= i < |breaks| ==> IsBreakKind(breaks[i]))
    && (breaks != [] ==> !IsChange(breaks[0]))
    && forall i :: 0 < i < |breaks| ==> (IsChange(breaks[i]) <==> DirectionOf(breaks[i]) != DirectionOf(breaks[i - 1]))
  }

  lemma AppendBreak(breaks: seq<Kind>, d: Direction)
    requires WellSpoken(breaks)
    ensures var kind := BreakKind(d, if breaks == [] then None else Some(DirectionOf(breaks[|breaks| - 1])));
            WellSpoken(breaks + [kind]) && DirectionOf(kind) == d
  {
    var n := |breaks|;
    var more := breaks + [BreakKind(d, if n == 0 then None else Some(DirectionOf(breaks[n - 1])))];
    assert forall i :: 0 <= i < n ==> more[i] == breaks[i];
  }

  /** Over every run: a break is a CHOCH exactly when its direction differs from the previous break's,
      and the remembered trend is the direction of the last break. */
  lemma {:induction false} BreakLanguage(cfg: Config, h: seq<Candle>)
    ensures WellSpoken(BreakKinds(Emitted(cfg, h)))
    ensures var breaks := BreakKinds(Emitted(cfg, h));
            LastBreak(cfg, h) == if breaks == [] then None else Some(DirectionOf(breaks[|breaks| - 1]))
  {
    hide Reference, EventsOf, BreakOf;
    if h != [] {
      var before, c := h[..|h| - 1], h[|h| - 1];
      BreakLanguage(cfg, before);
      BreakKindsOfConcat(Emitted(cfg, before), Events(cfg, h));
      BreakKindsOfBar(c, cfg.wickRatio, Reference(cfg, h, High), Reference(cfg, h, Low), LastBreak(cfg, before));
      var spoken, d := BreakKinds(Emitted(cfg, before)), BreakAt(cfg, h);
      if d.None? {
        assert BreakKinds(Emitted(cfg, h)) == spoken + [] == spoken;
      } else {
        AppendBreak(spoken, d.value);
        assert BreakKinds(Emitted(cfg, h)) == spoken + [BreakKind(d.value, LastBreak(cfg, before))];
      }
    }
  }

  ghost predicate Reports(events: seq<Event>, k: Kind)
  {
    exists i :: 0 <= i < |events| && events[i].kind == k
  }

  /** One bar never sweeps a low and breaks down, nor sweeps a high and breaks up. It sweeps both sides
      only if its body fits into what two wicks of the required ratio leave of the range: with a ratio
      above one half, never. */
  lemma EventsOfOneBar(c: Candle, ratio: real, hi: Option<Swing>, lo: Option<Swing>, last: Option<Direction>)
    requires c.WellFormed()
    ensures var events := EventsOf(c, ratio, hi, lo, last);
            && (Reports(events, SweepLow) ==> BreakOf(c, hi, lo) != Some(Bearish))
            && (Reports(events, SweepHigh) ==> BreakOf(c, hi, lo) != Some(Bullish))
            && (Reports(events, SweepLow) && Reports(events, SweepHigh) ==>
                  c.Body() <= (1.0 - 2.0 * ratio) * c.Range() && ratio <= 0.5)
  {
    var events := EventsOf(c, ratio, hi, lo, last);
    SweepIsReported(c, ratio, hi, lo, last);
    if Reports(events, SweepLow) && Reports(events, SweepHigh) {
      QuotientAtLeast(c.UpperWick(), ratio, c.Range());
      QuotientAtLeast(c.LowerWick(), ratio, c.Range());
      TwoWicks(c.UpperWick(), c.LowerWick(), c.Body(), c.Range(), ratio);
    }
  }

  lemma TwoWicks(upper: real, lower: real, body: real, range: real, ratio: real)
    requires upper + lower + body == range && body >= 0.0 && range > 0.0
    requires upper >= ratio * range && lower >= ratio * range
    ensures body <= (1.0 - 2.0 * ratio) * range && ratio <= 0.5
  {
    var part := ratio * range;
    assert (1.0 - 2.0 * ratio) * range == range - 2.0 * part;
    assert (ratio - 0.5) * range == part - 0.5 * range;
    assert ratio > 0.5 ==> (ratio - 0.5) * range > 0.0;
  }

  lemma SweepIsReported(c: Candle, ratio: real, hi: Option<Swing>, lo: Option<Swing>, last: Option<Direction>)
    ensures Reports(EventsOf(c, ratio, hi, lo, last), SweepLow) <==> lo.Some? && IsSweepLow(c, lo.value.price, ratio)
    ensures Reports(EventsOf(c, ratio, hi, lo, last), SweepHigh) <==> hi.Some? && IsSweepHigh(c, hi.value.price, ratio)
  {
    hide IsSweepLow, IsSweepHigh;
    var events := EventsOf(c, ratio, hi, lo, last);
    var sweptHigh := hi.Some? && IsSweepHigh(c, hi.value.price, ratio);
    if sweptHigh {
      assert events[0].kind == SweepHigh;
    }
    if lo.Some? && IsSweepLow(c, lo.value.price, ratio) {
      assert events[if sweptHigh then 1 else 0].kind == SweepLow;
    }
  }
}
