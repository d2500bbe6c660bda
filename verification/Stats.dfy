/** The trade-statistics ledger (app/analytics/stats.py). */
module Stats {
  import opened Foundations
  import opened Trading
  import opened Drawdown

  datatype Bucket = Bucket(trades: nat, wins: nat, losses: nat, pnl: real)

  const EMPTY := Bucket(0, 0, 0, 0.0)

  predicate CountsAsWin(t: Trade) { t.status == ClosedWin || t.pnl > 0.0 }

  predicate CountsAsLoss(t: Trade) { !CountsAsWin(t) && (t.status == ClosedLoss || t.pnl < 0.0) }

  /** A bucket with one more trade. */
  function Add(b: Bucket, t: Trade): (r: Bucket)
  {
    Bucket(b.trades + 1, b.wins + (if CountsAsWin(t) then 1 else 0), b.losses + (if CountsAsLoss(t) then 1 else 0),
           b.pnl + t.pnl)
  }

  /** The bucket of all of `ts`. */
  function Tally(ts: seq<Trade>): (r: Bucket)
  {
    if ts == [] then EMPTY else Add(Tally(ts[..|ts| - 1]), ts[|ts| - 1])
  }

  function SessionOf(t: Trade): (r: string) { t.session }

  function SymbolOf(t: Trade): (r: string) { t.inst.symbol }

  /** The trades whose key is `k`. */
  function OfKey(ts: seq<Trade>, key: Trade -> string, k: string): (r: seq<Trade>)
  {
    if ts == [] then []
    else
      var n := |ts| - 1;
      OfKey(ts[..n], key, k) + if key(ts[n]) == k then [ts[n]] else []
  }

  function TotalPnl(ts: seq<Trade>): (r: real)
  {
    if ts == [] then 0.0 else TotalPnl(ts[..|ts| - 1]) + ts[|ts| - 1].pnl
  }

  function Lookup(m: map<string, Bucket>, key: string): (r: Bucket)
  {
    if key in m then m[key] else EMPTY
  }

  /** Every bucket is the recount of the ledger's trades with its key. */
  ghost predicate Recounts(m: map<string, Bucket>, ts: seq<Trade>, key: Trade -> string)
  {
    forall k: string :: Lookup(m, k) == Tally(OfKey(ts, key, k))
  }

  lemma OneMore(ts: seq<Trade>, t: Trade, key: Trade -> string, k: string)
    ensures Tally(OfKey(ts + [t], key, k)) ==
            if key(t) == k then Add(Tally(OfKey(ts, key, k)), t) else Tally(OfKey(ts, key, k))
  {
    assert (ts + [t])[..|ts|] == ts;
    var a := OfKey(ts, key, k);
    assert (a + [t])[..|a|] == a;
    assert a + [] == a;
  }

  lemma PnlOfOneMore(ts: seq<Trade>, t: Trade)
    ensures TotalPnl(ts + [t]) == TotalPnl(ts) + t.pnl
  {
    assert (ts + [t])[..|ts|] == ts;
  }

  lemma RecountsStep(m: map<string, Bucket>, ts: seq<Trade>, t: Trade, key: Trade -> string)
    requires Recounts(m, ts, key)
    ensures Recounts(m[key(t) := Add(Lookup(m, key(t)), t)], ts + [t], key)
  {
    hide Tally, OfKey, Add;
    var m' := m[key(t) := Add(Lookup(m, key(t)), t)];
    forall k: string ensures Lookup(m', k) == Tally(OfKey(ts + [t], key, k)) {
      OneMore(ts, t, key, k);
      assert Lookup(m, k) == Tally(OfKey(ts, key, k));
    }
  }

  /** The balance before the first trade and after each of them. */
  ghost predicate IsCurve(curve: seq<real>, start: real, ts: seq<Trade>)
  {
    && |curve| == |ts| + 1
    && forall n :: 0 <= n <= |ts| ==> curve[n] == BalanceAfter(start, ts, n)
  }

  function BalanceAfter(start: real, ts: seq<Trade>, n: nat): (r: real)
    requires n <= |ts|
  {
    start + TotalPnl(ts[..n])
  }

  class TradeStatsAggregator {
    const startingBalance: real
    var equityCurve: seq<real>
    var trades: seq<Trade>
    var bySession: map<string, Bucket>
    var bySymbol: map<string, Bucket>

    ghost predicate Valid()
      reads this
    {
      && IsCurve(equityCurve, startingBalance, trades)
      && Recounts(bySession, trades, SessionOf)
      && Recounts(bySymbol, trades, SymbolOf)
    }

    constructor (startingBalance: real)
      ensures Valid() && trades == [] && this.startingBalance == startingBalance
    {
      this.startingBalance := startingBalance;
      equityCurve, trades, bySession, bySymbol := [startingBalance], [], map[], map[];
    }

    /** Book a closed trade on the curve and in both buckets; an open one is ignored. */
    method Record(t: Trade)
      requires Valid()
      modifies this
      ensures Valid()
      ensures trades == if t.status == Open then old(trades) else old(trades) + [t]
    {
      if t.status == Open {
        return;
      }
      RecountsStep(bySession, trades, t, SessionOf);
      RecountsStep(bySymbol, trades, t, SymbolOf);
      CurveStep(equityCurve, startingBalance, trades, t);
      hide Lookup, Add, TotalPnl, Recounts;
      assert |equityCurve| == |trades| + 1;
      hide IsCurve;
      trades := trades + [t];
      equityCurve := equityCurve + [equityCurve[|equityCurve| - 1] + t.pnl];
      bySession := bySession[t.session := Booked(Lookup(bySession, t.session), t)];
      bySymbol := bySymbol[t.inst.symbol := Booked(Lookup(bySymbol, t.inst.symbol), t)];
    }

    method GetTotalPnl() returns (r: real)
      requires Valid()
      ensures r == TotalPnl(trades) == equityCurve[|equityCurve| - 1] - startingBalance
    {
      assert trades[..|trades|] == trades;
      r := equityCurve[|equityCurve| - 1] - startingBalance;
    }

    method Winrate() returns (r: real)
      ensures trades == [] ==> r == 0.0
      ensures trades != [] ==> r == |set i | 0 <= i < |trades| && trades[i].pnl > 0.0| as real / |trades| as real
    {
      if trades == [] {
        return 0.0;
      }
      var wins := 0;
      for n := 0 to |trades|
        invariant wins == |set i | 0 <= i < n && trades[i].pnl > 0.0|
      {
        ghost var was := set i | 0 <= i < n && trades[i].pnl > 0.0;
        ghost var more := set i | 0 <= i < n + 1 && trades[i].pnl > 0.0;
        assert more == if trades[n].pnl > 0.0 then was + {n} else was;
        if trades[n].pnl > 0.0 {
          wins := wins + 1;
        }
      }
      return wins as real / |trades| as real;
    }

    method MaxDrawdown() returns (r: real)
      ensures IsLargestShareOfPeak(startingBalance, equityCurve, r)
    {
      r := MaxShareOfPeak(startingBalance, equityCurve);
    }
  }

  /** The branches the source takes on one bucket. */
  function Booked(b: Bucket, t: Trade): (r: Bucket)
    ensures r == Add(b, t)
  {
    var counted := b.(trades := b.trades + 1, pnl := b.pnl + t.pnl);
    if t.status == ClosedWin || t.pnl > 0.0 then counted.(wins := b.wins + 1)
    else if t.status == ClosedLoss || t.pnl < 0.0 then counted.(losses := b.losses + 1)
    else counted
  }

  lemma CurveStep(curve: seq<real>, start: real, ts: seq<Trade>, t: Trade)
    requires IsCurve(curve, start, ts)
    ensures IsCurve(curve + [curve[|curve| - 1] + t.pnl], start, ts + [t])
  {
    hide BalanceAfter;
    BalanceStep(start, ts, t);
  }

  lemma BalanceStep(start: real, ts: seq<Trade>, t: Trade)
    ensures forall n :: 0 <= n <= |ts| ==> BalanceAfter(start, ts + [t], n) == BalanceAfter(start, ts, n)
    ensures BalanceAfter(start, ts + [t], |ts| + 1) == BalanceAfter(start, ts, |ts|) + t.pnl
  {
    forall n | 0 <= n <= |ts| ensures BalanceAfter(start, ts + [t], n) == BalanceAfter(start, ts, n) {
      assert (ts + [t])[..n] == ts[..n];
    }
    assert (ts + [t])[..|ts| + 1] == ts + [t] && ts[..|ts|] == ts;
    PnlOfOneMore(ts, t);
  }

  // ---- conservation across the buckets ------------------------------------------------------

  function Merge(a: Bucket, b: Bucket): (r: Bucket)
  {
    Bucket(a.trades + b.trades, a.wins + b.wins, a.losses + b.losses, a.pnl + b.pnl)
  }

  /** The sum of the buckets with the given keys. */
  function Combined(m: map<string, Bucket>, keys: seq<string>): (r: Bucket)
  {
    if keys == [] then EMPTY else Merge(Combined(m, keys[..|keys| - 1]), Lookup(m, keys[|keys| - 1]))
  }

  function CombinedBy(ts: seq<Trade>, key: Trade -> string, keys: seq<string>): (r: Bucket)
  {
    if keys == [] then EMPTY
    else Merge(CombinedBy(ts, key, keys[..|keys| - 1]), Tally(OfKey(ts, key, keys[|keys| - 1])))
  }

  ghost predicate Distinct(keys: seq<string>)
  {
    forall i, j :: 0 <= i < j < |keys| ==> keys[i] != keys[j]
  }

  lemma LastKey(keys: seq<string>, key: string)
    requires keys != [] && Distinct(keys)
    ensures var rest, k := keys[..|keys| - 1], keys[|keys| - 1];
            Distinct(rest) && (key in keys <==> key in rest || key == k) && !(key in rest && key == k)
  {
    assert keys == keys[..|keys| - 1] + [keys[|keys| - 1]];
  }

  lemma MergeAdd(a: Bucket, b: Bucket, t: Trade)
    ensures Merge(Add(a, t), b) == Add(Merge(a, b), t)
    ensures Merge(a, Add(b, t)) == Add(Merge(a, b), t)
  {
    hide CountsAsWin, CountsAsLoss;
  }

  lemma {:induction false} OneMoreByKey(ts: seq<Trade>, t: Trade, key: Trade -> string, keys: seq<string>)
    requires Distinct(keys)
    ensures CombinedBy(ts + [t], key, keys) ==
            if key(t) in keys then Add(CombinedBy(ts, key, keys), t) else CombinedBy(ts, key, keys)
  {
    hide Tally, OfKey, Add, Merge, Distinct;
    if keys != [] {
      var rest, k := keys[..|keys| - 1], keys[|keys| - 1];
      LastKey(keys, key(t));
      OneMoreByKey(ts, t, key, rest);
      OneMore(ts, t, key, k);
      MergeAdd(CombinedBy(ts, key, rest), Tally(OfKey(ts, key, k)), t);
    }
  }

  lemma NothingTallied(key: Trade -> string, k: string)
    ensures Tally(OfKey([], key, k)) == EMPTY
  {
    assert OfKey([], key, k) == [];
  }

  lemma MergeNothing(b: Bucket)
    ensures Merge(EMPTY, b) == b
  {
  }

  lemma {:induction false} NothingCombined(key: Trade -> string, keys: seq<string>)
    ensures CombinedBy([], key, keys) == EMPTY
  {
    hide Tally, OfKey, Merge;
    if keys != [] {
      NothingCombined(key, keys[..|keys| - 1]);
      NothingTallied(key, keys[|keys| - 1]);
      MergeNothing(EMPTY);
    }
  }

  lemma {:induction false} CombinedIsTally(ts: seq<Trade>, key: Trade -> string, keys: seq<string>)
    requires Distinct(keys) && forall i :: 0 <= i < |ts| ==> key(ts[i]) in keys
    ensures CombinedBy(ts, key, keys) == Tally(ts)
  {
    hide CombinedBy, Add;
    if ts == [] {
      NothingCombined(key, keys);
    } else {
      var n := |ts| - 1;
      CombinedIsTally(ts[..n], key, keys);
      assert ts == ts[..n] + [ts[n]];
      OneMoreByKey(ts[..n], ts[n], key, keys);
    }
  }

  lemma {:induction false} CombinedRecounts(m: map<string, Bucket>, ts: seq<Trade>, key: Trade -> string,
                                            keys: seq<string>)
    requires Recounts(m, ts, key)
    ensures Combined(m, keys) == CombinedBy(ts, key, keys)
  {
    if keys != [] {
      CombinedRecounts(m, ts, key, keys[..|keys| - 1]);
    }
  }

  /** Whatever order the buckets are summed in, sessions and symbols add up to the same totals: those of
      the ledger itself. Nothing is counted twice or lost between the two breakdowns. */
  lemma BreakdownsAgree(bySession: map<string, Bucket>, bySymbol: map<string, Bucket>, ts: seq<Trade>,
                        sessions: seq<string>, symbols: seq<string>)
    requires Recounts(bySession, ts, SessionOf) && Recounts(bySymbol, ts, SymbolOf)
    requires Distinct(sessions) && Distinct(symbols)
    requires forall i :: 0 <= i < |ts| ==> SessionOf(ts[i]) in sessions && SymbolOf(ts[i]) in symbols
    ensures Combined(bySession, sessions) == Combined(bySymbol, symbols) == Tally(ts)
  {
    CombinedRecounts(bySession, ts, SessionOf, sessions);
    CombinedRecounts(bySymbol, ts, SymbolOf, symbols);
    CombinedIsTally(ts, SessionOf, sessions);
    CombinedIsTally(ts, SymbolOf, symbols);
  }

  // ---- what a bucket counts -----------------------------------------------------------------

  predicate IsWinner(t: Trade) { t.status == ClosedWin || t.pnl > 0.0 }

  predicate IsLoser(t: Trade) { t.status != ClosedWin && t.pnl <= 0.0 && (t.status == ClosedLoss || t.pnl < 0.0) }

  function CountIf(ts: seq<Trade>, counts: Trade -> bool): (r: nat)
  {
    if ts == [] then 0 else CountIf(ts[..|ts| - 1], counts) + if counts(ts[|ts| - 1]) then 1 else 0
  }

  /** The results of the trades that count, added up. */
  function SumIf(ts: seq<Trade>, counts: Trade -> bool): (r: real)
  {
    if ts == [] then 0.0 else SumIf(ts[..|ts| - 1], counts) + if counts(ts[|ts| - 1]) then ts[|ts| - 1].pnl else 0.0
  }

  /** Bucket `b` counts the trades `of`, those of them that won and those that lost, and sums their results. */
  predicate CountsUp(b: Bucket, ts: seq<Trade>, of: Trade -> bool)
  {
    && b.trades == CountIf(ts, of) && b.pnl == SumIf(ts, of)
    && b.wins == CountIf(ts, t => of(t) && IsWinner(t)) && b.losses == CountIf(ts, t => of(t) && IsLoser(t))
  }

  lemma {:induction false} BucketCounts(ts: seq<Trade>, key: Trade -> string, k: string, of: Trade -> bool)
    requires forall t :: of(t) <==> key(t) == k
    ensures CountsUp(Tally(OfKey(ts, key, k)), ts, of)
  {
    if ts == [] {
      NothingTallied(key, k);
    } else {
      hide Tally, OfKey, CountsUp, Add;
      var n := |ts| - 1;
      BucketCounts(ts[..n], key, k, of);
      assert ts[..n] + [ts[n]] == ts;
      OneMore(ts[..n], ts[n], key, k);
      CountsOneMore(Tally(OfKey(ts[..n], key, k)), ts, of);
    }
  }

  lemma CountsOneMore(b: Bucket, ts: seq<Trade>, of: Trade -> bool)
    requires ts != [] && CountsUp(b, ts[..|ts| - 1], of)
    ensures CountsUp(if of(ts[|ts| - 1]) then Add(b, ts[|ts| - 1]) else b, ts, of)
  {
  }

  /** The two breakdowns in full: every trade is counted under its session and under its symbol. */
  lemma BreakdownsCount(bySession: map<string, Bucket>, bySymbol: map<string, Bucket>, ts: seq<Trade>, k: string)
    requires Recounts(bySession, ts, SessionOf) && Recounts(bySymbol, ts, SymbolOf)
    ensures CountsUp(if k in bySession then bySession[k] else Bucket(0, 0, 0, 0.0), ts, (t: Trade) => t.session == k)
    ensures CountsUp(if k in bySymbol then bySymbol[k] else Bucket(0, 0, 0, 0.0), ts, (t: Trade) => t.inst.symbol == k)
  {
    hide Tally, OfKey, CountsUp;
    BucketCounts(ts, SessionOf, k, (t: Trade) => t.session == k);
    BucketCounts(ts, SymbolOf, k, (t: Trade) => t.inst.symbol == k);
    assert Lookup(bySession, k) == Tally(OfKey(ts, SessionOf, k));
    assert Lookup(bySymbol, k) == Tally(OfKey(ts, SymbolOf, k));
  }
}
