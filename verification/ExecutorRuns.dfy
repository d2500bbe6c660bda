/** Capital preservation and the daily trade cap over every interleaving of the executor's steps. */
module ExecutorRuns {
  import opened Foundations
  import opened Trading
  import opened Risk
  import opened RiskHistory
  import opened Executors

  /** Orders in flight and trades open: everything that can still lose. */
  function Exposure(s: System): (r: nat) { |s.open| + |s.inflight| }

  /** What a step books on the account. */
  function Booked(s: System, st: Step): (r: real)
  {
    if st.Close? && st.id in s.open then ClosedTrade(s.open[st.id], st.exit).pnl else 0.0
  }

  // ---- the risk manager's view of a run ----------------------------------------------

  /** The risk operations a run performs, in order. */
  function RiskOps(a: Account, steps: seq<Step>): (r: seq<Op>)
  {
    if steps == [] then []
    else
      var n := |steps| - 1;
      var op := OpOf(After(a, steps[..n]), steps[n]);
      RiskOps(a, steps[..n]) + if op.Some? then [op.value] else []
  }

  /** However steps interleave, the risk state is the one its operation history determines. */
  lemma {:induction false} RiskFollowsOps(a: Account, steps: seq<Step>)
    ensures After(a, steps).risk == Run(a, RiskOps(a, steps))
  {
    hide Apply, Decide, OpOf;
    if steps != [] {
      var n := |steps| - 1;
      var before, s, st := steps[..n], After(a, steps[..n]), steps[n];
      RiskFollowsOps(a, before);
      RiskOfStep(a, s, st);
      if OpOf(s, st).Some? {
        assert (RiskOps(a, before) + [OpOf(s, st).value])[..|RiskOps(a, before)|] == RiskOps(a, before);
      } else {
        assert RiskOps(a, steps) == RiskOps(a, before);
      }
    }
  }

  lemma RiskOfStep(a: Account, s: System, st: Step)
    ensures Next(a, s, st).risk == if OpOf(s, st).Some? then Apply(a, s.risk, OpOf(s, st).value) else s.risk
  {
    hide AfterEvaluate, AfterOpen, AfterClose, Rollover, Decide, ClosedTrade;
  }

  // ---- identities -----------------------------------------------------------------------

  /** An order is in flight or open, never both, and new ids are new. */
  ghost predicate DistinctIds(s: System)
  {
    && (forall id :: id in s.inflight ==> id < s.nextId && id !in s.open)
    && (forall id :: id in s.open ==> id < s.nextId)
  }

  lemma {:induction false} IdsStayDistinct(a: Account, steps: seq<Step>)
    ensures DistinctIds(After(a, steps))
  {
    if steps != [] {
      IdsStayDistinct(a, steps[..|steps| - 1]);
      IdsOfStep(a, After(a, steps[..|steps| - 1]), steps[|steps| - 1]);
    }
  }

  /** What a step does to the two books of orders. */
  lemma BooksOfStep(a: Account, s: System, st: Step)
    ensures var s' := Next(a, s, st);
            var accepted := st.Handle? && Decide(a.cfg, a.start, s.risk, st.date, st.signal, st.spread).accepted;
            && s'.nextId == s.nextId + (if accepted then 1 else 0)
            && s'.inflight == (if accepted then
                                 var d := Decide(a.cfg, a.start, s.risk, st.date, st.signal, st.spread);
                                 s.inflight[s.nextId := InFlight(st.signal, d.lots)]
                               else if st.Fails? || st.Fills? then s.inflight - {st.id}
                               else s.inflight)
            && s'.open == (if st.Fills? && st.id in s.inflight
                           then s.open[st.id := OpenedTrade(st.id, s.inflight[st.id], st.fill)]
                           else if st.Close? then s.open - {st.id}
                           else s.open)
  {
    hide Apply, Decide, OpOf, OpenedTrade;
    if st.Fills? && st.id !in s.inflight {
      assert s.inflight - {st.id} == s.inflight;
    }
  }

  lemma IdsOfStep(a: Account, s: System, st: Step)
    requires DistinctIds(s)
    ensures DistinctIds(Next(a, s, st))
    ensures s.nextId <= Next(a, s, st).nextId
    ensures forall id :: id < s.nextId && id !in s.inflight && id !in s.open ==>
              id !in Next(a, s, st).inflight && id !in Next(a, s, st).open
  {
    hide Next, Decide, OpenedTrade;
    BooksOfStep(a, s, st);
  }

  /** A trade books its result once: after its close, closing the same id again books nothing, ever. */
  lemma {:induction false} ClosesOnce(a: Account, steps: seq<Step>, n: nat, id: nat)
    requires n < |steps| && steps[n].Close? && steps[n].id == id && id in After(a, steps[..n]).open
    ensures var s := After(a, steps); id < s.nextId && id !in s.open && id !in s.inflight
  {
    hide Apply, Decide, OpOf;
    var k := |steps| - 1;
    var before := steps[..k];
    IdsStayDistinct(a, before);
    IdsOfStep(a, After(a, before), steps[k]);
    if n < k {
      assert before[..n] == steps[..n];
      ClosesOnce(a, before, n, id);
    }
  }

  // ---- how one step moves the figures the bounds speak of -----------------------------------

  lemma ExposureOfStep(a: Account, s: System, st: Step)
    requires DistinctIds(s)
    ensures var s' := Next(a, s, st);
            match st
            case Handle(date, signal, spread) =>
              var accepted := Decide(a.cfg, a.start, s.risk, date, signal, spread).accepted;
              Exposure(s') == Exposure(s) + if accepted then 1 else 0
            case Fails(id) => Exposure(s') <= Exposure(s)
            case Fills(_, _, _) => Exposure(s') == Exposure(s)
            case Close(id, _, _) => Exposure(s') == Exposure(s) - if id in s.open then 1 else 0
            case Kill => Exposure(s') == Exposure(s)
            case Peek(_) => Exposure(s') == Exposure(s)
  {
    hide Next, Decide, OpenedTrade;
    BooksOfStep(a, s, st);
    match st
    case Handle(_, _, _) => assert s.nextId !in s.inflight;
    case Fails(id) => Shrinks(s.inflight, id);
    case Fills(id, _, _) => Shrinks(s.inflight, id);
    case Close(id, _, _) => Shrinks(s.open, id);
    case Kill =>
    case Peek(_) =>
  }

  lemma Shrinks<T>(m: map<nat, T>, id: nat)
    ensures |m - {id}| == |m| - if id in m then 1 else 0
  {
    if id in m {
      assert m == (m - {id})[id := m[id]];
    } else {
      assert m - {id} == m;
    }
  }

  /** An accepted signal met every guard after the day's rollover. */
  lemma AcceptedMeans(a: Account, s: RiskState, date: int, signal: Signal, spread: Option<real>)
    requires Decide(a.cfg, a.start, s, date, signal, spread).accepted
    ensures var rolled := Rollover(s, date);
            && rolled.tradesToday < a.cfg.maxTradesPerDay
            && rolled.realizedToday > -a.cfg.DailyLossLimit()
            && (s.hwm > 0.0 ==> s.hwm - s.balance < a.cfg.maxTotalDdPct * s.hwm)
            && AfterEvaluate(a.cfg, a.start, s, date, signal, spread).realizedToday == rolled.realizedToday
            && AfterEvaluate(a.cfg, a.start, s, date, signal, spread).tradesToday == rolled.tradesToday
            && AfterEvaluate(a.cfg, a.start, s, date, signal, spread).hwm == s.hwm
            && AfterEvaluate(a.cfg, a.start, s, date, signal, spread).balance == s.balance
  {
    hide SizePosition, SpreadAcceptable;
    if s.hwm > 0.0 {
      QuotientAtLeast(s.hwm - s.balance, a.cfg.maxTotalDdPct, s.hwm);
    }
  }

  lemma RiskFigures(a: Account, s: System, st: Step)
    ensures var r, r' := s.risk, Next(a, s, st).risk;
            && r'.balance == r.balance + Booked(s, st)
            && r'.hwm == (if st.Close? && st.id in s.open then Max(r.hwm, r'.balance) else r.hwm)
            && (r'.realizedToday == r.realizedToday + Booked(s, st) || r'.realizedToday == Booked(s, st))
  {
    hide Apply, ClosedTrade;
    RiskOfStep(a, s, st);
    if OpOf(s, st).Some? {
      ApplyStep(a, s.risk, OpOf(s, st).value);
    }
  }

  // ---- capital preservation -------------------------------------------------------------------

  /** The loss `n` exposures can still add if each loses at most `worst`. */
  function AtRisk(worst: real, n: int): (r: real) { worst * n as real }

  lemma AtRiskStep(worst: real, n: int)
    ensures AtRisk(worst, n + 1) == AtRisk(worst, n) + worst
  {
  }

  lemma AtRiskMonotone(worst: real, m: int, n: int)
    requires worst >= 0.0 && m <= n
    ensures AtRisk(worst, m) <= AtRisk(worst, n)
  {
    assert worst * (n - m) as real >= 0.0;
    assert worst * (n - m) as real == worst * n as real - worst * m as real;
  }

  function DrawdownCap(a: Account, hwm: real): (r: real) { a.cfg.maxTotalDdPct * hwm }

  /** The inductive form: what is realised, less what the exposures can still lose, stays within the
      limits plus the worst loss of `most` exposures. */
  ghost predicate WithinLimits(a: Account, s: System, most: nat, worst: real)
  {
    && s.risk.hwm > 0.0
    && s.risk.realizedToday - AtRisk(worst, Exposure(s)) >= -a.cfg.DailyLossLimit() - AtRisk(worst, most)
    && s.risk.hwm - s.risk.balance + AtRisk(worst, Exposure(s)) <= DrawdownCap(a, s.risk.hwm) + AtRisk(worst, most)
  }

  lemma LimitsOfStep(a: Account, s: System, st: Step, most: nat, worst: real)
    requires DistinctIds(s) && WithinLimits(a, s, most, worst)
    requires worst >= 0.0 && a.cfg.DailyLossLimit() >= 0.0 && a.cfg.maxTotalDdPct >= 0.0
    requires Exposure(s) <= most && Exposure(Next(a, s, st)) <= most && Booked(s, st) >= -worst
    ensures WithinLimits(a, Next(a, s, st), most, worst)
  {
    hide AtRisk, DrawdownCap, Next, Decide, Exposure, Booked;
    var s' := Next(a, s, st);
    var e, e' := Exposure(s), Exposure(s');
    ExposureOfStep(a, s, st);
    RiskFigures(a, s, st);
    AtRiskMonotone(worst, e', most);
    AtRiskMonotone(worst, e, most);
    AtRiskStep(worst, e');
    CapIsNonNegative(a, s'.risk.hwm);
    match st {
      case Handle(date, signal, spread) =>
        HandleBooksNothing(s, st);
        if Decide(a.cfg, a.start, s.risk, date, signal, spread).accepted {
          AcceptedRisk(a, s, date, signal, spread);
        }
      case Fails(_) =>
        HandleBooksNothing(s, st);
        AtRiskMonotone(worst, e', e);
      case Fills(_, _, _) => HandleBooksNothing(s, st);
      case Close(id, _, _) =>
        if id !in s.open {
          NoTradeBooksNothing(s, st);
        }
      case Kill => HandleBooksNothing(s, st);
      case Peek(_) => HandleBooksNothing(s, st);
    }
  }

  lemma HandleBooksNothing(s: System, st: Step)
    requires !st.Close?
    ensures Booked(s, st) == 0.0
  {
  }

  lemma NoTradeBooksNothing(s: System, st: Step)
    requires st.Close? && st.id !in s.open
    ensures Booked(s, st) == 0.0
  {
  }

  lemma CapIsNonNegative(a: Account, hwm: real)
    ensures a.cfg.maxTotalDdPct >= 0.0 && hwm > 0.0 ==> DrawdownCap(a, hwm) >= 0.0
  {
  }

  lemma AcceptedRisk(a: Account, s: System, date: int, signal: Signal, spread: Option<real>)
    requires Decide(a.cfg, a.start, s.risk, date, signal, spread).accepted
    ensures var r' := Next(a, s, Handle(date, signal, spread)).risk;
            && r'.realizedToday > -a.cfg.DailyLossLimit()
            && (s.risk.hwm > 0.0 ==> r'.hwm - r'.balance < DrawdownCap(a, r'.hwm))
  {
    hide Decide, AfterEvaluate, Rollover;
    AcceptedMeans(a, s.risk, date, signal, spread);
  }

  /** Every state of the run has at most `most` exposures, and every close books at least `-worst`. */
  ghost predicate Bounded(a: Account, steps: seq<Step>, most: nat, worst: real)
  {
    && (forall n :: 0 <= n <= |steps| ==> Exposure(After(a, steps[..n])) <= most)
    && forall n :: 0 <= n < |steps| ==> Booked(After(a, steps[..n]), steps[n]) >= -worst
  }

  lemma BoundedPrefix(a: Account, steps: seq<Step>, most: nat, worst: real)
    requires steps != [] && Bounded(a, steps, most, worst)
    ensures var k := |steps| - 1;
            && Bounded(a, steps[..k], most, worst)
            && Exposure(After(a, steps[..k])) <= most && Exposure(After(a, steps)) <= most
            && Booked(After(a, steps[..k]), steps[k]) >= -worst
  {
    hide After, Exposure, Booked;
    var k := |steps| - 1;
    assert steps[..|steps|] == steps;
    assert forall n :: 0 <= n <= k ==> steps[..k][..n] == steps[..n];
  }

  /** The account starts within its drawdown cap; a new one starts at its high-water mark. */
  predicate StartsWithin(a: Account)
  {
    a.initial.hwm - a.initial.balance <= DrawdownCap(a, a.initial.hwm)
  }

  lemma {:induction false} LimitsHold(a: Account, steps: seq<Step>, most: nat, worst: real)
    requires Fresh(a.initial) && a.initial.hwm > 0.0 && StartsWithin(a)
    requires worst >= 0.0 && a.cfg.DailyLossLimit() >= 0.0 && a.cfg.maxTotalDdPct >= 0.0
    requires Bounded(a, steps, most, worst)
    ensures WithinLimits(a, After(a, steps), most, worst)
  {
    hide Next, Bounded, AtRisk, DrawdownCap;
    if steps == [] {
      CapIsNonNegative(a, a.initial.hwm);
      AtRiskMonotone(worst, 0, most);
    } else {
      var before, st := steps[..|steps| - 1], steps[|steps| - 1];
      BoundedPrefix(a, steps, most, worst);
      LimitsHold(a, before, most, worst);
      IdsStayDistinct(a, before);
      LimitsOfStep(a, After(a, before), st, most, worst);
    }
  }

  /** Capital preservation over every interleaving: with at most `most` exposures at a time, each losing at
      most `worst`, a day never loses more than the daily limit plus `most` losses, and the balance never
      falls further below its high-water mark than the drawdown cap plus `most` losses. */
  lemma CapitalIsPreserved(a: Account, steps: seq<Step>, most: nat, worst: real)
    requires Fresh(a.initial) && a.initial.hwm > 0.0 && StartsWithin(a)
    requires worst >= 0.0 && a.cfg.DailyLossLimit() >= 0.0 && a.cfg.maxTotalDdPct >= 0.0
    requires Bounded(a, steps, most, worst)
    ensures var r, lost := After(a, steps).risk, most as real * worst;
            && r.realizedToday >= -(a.cfg.DailyLossLimit() + lost)
            && r.hwm - r.balance <= a.cfg.maxTotalDdPct * r.hwm + lost
  {
    hide After, Bounded, AtRisk, DrawdownCap, Exposure;
    var s := After(a, steps);
    LimitsHold(a, steps, most, worst);
    AtRiskMonotone(worst, 0, Exposure(s));
    AtRiskMeans(a, worst, most, s.risk.hwm);
    assert AtRisk(worst, Exposure(s)) >= 0.0;
    assert s.risk.realizedToday >= -a.cfg.DailyLossLimit() - AtRisk(worst, most);
    assert s.risk.hwm - s.risk.balance <= DrawdownCap(a, s.risk.hwm) + AtRisk(worst, most);
  }

  lemma AtRiskMeans(a: Account, worst: real, n: nat, hwm: real)
    ensures AtRisk(worst, 0) == 0.0 && AtRisk(worst, n) == n as real * worst
    ensures DrawdownCap(a, hwm) == a.cfg.maxTotalDdPct * hwm
  {
  }

  // ---- the daily trade cap ----------------------------------------------------------------------

  ghost predicate WithinConcurrency(a: Account, steps: seq<Step>, c: nat)
  {
    forall n :: 0 <= n <= |steps| ==> |After(a, steps[..n]).inflight| <= c
  }

  lemma TradesOfStep(a: Account, s: System, st: Step)
    requires DistinctIds(s)
    ensures var s' := Next(a, s, st);
            && (s'.risk.tradesToday == s.risk.tradesToday || s'.risk.tradesToday == 0
                || (st.Fills? && st.id in s.inflight && s'.risk.tradesToday in {s.risk.tradesToday + 1, 1}))
            && |s'.inflight| == |s.inflight| + (
                 if st.Handle? && Decide(a.cfg, a.start, s.risk, st.date, st.signal, st.spread).accepted then 1
                 else if (st.Fails? || st.Fills?) && st.id in s.inflight then -1
                 else 0)
            && (st.Handle? && Decide(a.cfg, a.start, s.risk, st.date, st.signal, st.spread).accepted ==>
                  s'.risk.tradesToday < a.cfg.maxTradesPerDay)
  {
    hide Next, Decide, Apply, OpenedTrade, ClosedTrade;
    BooksOfStep(a, s, st);
    RiskOfStep(a, s, st);
    if OpOf(s, st).Some? {
      ApplyStep(a, s.risk, OpOf(s, st).value);
    }
    if st.Handle? {
      assert s.nextId !in s.inflight;
      if Decide(a.cfg, a.start, s.risk, st.date, st.signal, st.spread).accepted {
        AcceptedTrades(a, s, st.date, st.signal, st.spread);
      }
    } else if st.Fails? || st.Fills? {
      Shrinks(s.inflight, st.id);
    }
  }

  lemma AcceptedTrades(a: Account, s: System, date: int, signal: Signal, spread: Option<real>)
    requires Decide(a.cfg, a.start, s.risk, date, signal, spread).accepted
    ensures Next(a, s, Handle(date, signal, spread)).risk.tradesToday < a.cfg.maxTradesPerDay
  {
    hide Decide, AfterEvaluate, Rollover;
    AcceptedMeans(a, s.risk, date, signal, spread);
  }

  /** Under at most `c` concurrent signals, the day's trades and the orders in flight together never
      exceed the cap by more than `c - 1`. */
  lemma {:induction false} TradeCapUnderConcurrency(a: Account, steps: seq<Step>, c: nat)
    requires Fresh(a.initial) && a.cfg.maxTradesPerDay >= 1 && c >= 1
    requires WithinConcurrency(a, steps, c)
    ensures var s := After(a, steps); s.risk.tradesToday + |s.inflight| <= a.cfg.maxTradesPerDay + c - 1
  {
    hide Next, Decide;
    if steps != [] {
      var k := |steps| - 1;
      var before := steps[..k];
      assert steps[..|steps|] == steps;
      assert forall n :: 0 <= n <= k ==> before[..n] == steps[..n];
      TradeCapUnderConcurrency(a, before, c);
      IdsStayDistinct(a, before);
      TradesOfStep(a, After(a, before), steps[k]);
    }
  }

  // ---- the bound is attained ----------------------------------------------------------------------

  lemma Extend(a: Account, steps: seq<Step>, st: Step, c: nat)
    ensures After(a, steps + [st]) == Next(a, After(a, steps), st)
    ensures WithinConcurrency(a, steps, c) && |After(a, steps + [st]).inflight| <= c ==>
            WithinConcurrency(a, steps + [st], c)
  {
    hide Next;
    var more := steps + [st];
    assert more[..|steps|] == steps;
    assert more[..|more|] == more;
    assert forall n :: 0 <= n <= |steps| ==> more[..n] == steps[..n];
  }

  /** `r` differs from the initial account only in its trade count and first trading day. */
  predicate OnlyTraded(a: Account, r: RiskState, trades: nat)
  {
    r == a.initial.(tradesToday := trades, startDate := r.startDate)
  }

  /** A fresh manager accepts this signal. */
  predicate Tradable(a: Account, signal: Signal)
  {
    Decide(a.cfg, a.start, a.initial, a.initial.today, signal, None).accepted
  }

  lemma StillAccepted(a: Account, signal: Signal, r: RiskState, trades: nat)
    requires Tradable(a, signal) && OnlyTraded(a, r, trades) && trades < a.cfg.maxTradesPerDay
    ensures Decide(a.cfg, a.start, r, a.initial.today, signal, None).accepted
    ensures AfterEvaluate(a.cfg, a.start, r, a.initial.today, signal, None) == r
  {
    hide SizePosition;
    assert Guard(a.cfg, a.start, a.initial, signal, None) == Ok;
    assert Guard(a.cfg, a.start, r, signal, None) == Ok;
  }

  /** One more accepted order. */
  lemma HandleOne(a: Account, signal: Signal, s: System, trades: nat)
    requires Tradable(a, signal) && OnlyTraded(a, s.risk, trades) && trades < a.cfg.maxTradesPerDay && DistinctIds(s)
    ensures var s' := Next(a, s, Handle(a.initial.today, signal, None));
            && OnlyTraded(a, s'.risk, trades) && |s'.inflight| == |s.inflight| + 1
            && s.nextId in s'.inflight && DistinctIds(s')
  {
    hide Next, Decide, AfterEvaluate;
    var st := Handle(a.initial.today, signal, None);
    StillAccepted(a, signal, s.risk, trades);
    BooksOfStep(a, s, st);
    RiskOfStep(a, s, st);
    IdsOfStep(a, s, st);
    assert s.nextId !in s.inflight;
  }

  /** One more fill. */
  lemma FillOne(a: Account, s: System, id: nat, trades: nat)
    requires OnlyTraded(a, s.risk, trades) && id in s.inflight && DistinctIds(s)
    ensures var s' := Next(a, s, Fills(id, None, a.initial.today));
            && OnlyTraded(a, s'.risk, trades + 1) && |s'.inflight| == |s.inflight| - 1 && DistinctIds(s')
  {
    hide Next;
    var st := Fills(id, None, a.initial.today);
    BooksOfStep(a, s, st);
    RiskOfStep(a, s, st);
    IdsOfStep(a, s, st);
    Shrinks(s.inflight, id);
  }

  /** `trades` signals one after another, each filled before the next. */
  lemma {:induction false} OneByOne(a: Account, signal: Signal, trades: nat) returns (steps: seq<Step>)
    requires Tradable(a, signal) && a.initial.tradesToday == 0 && trades < a.cfg.maxTradesPerDay
    ensures var s := After(a, steps); OnlyTraded(a, s.risk, trades) && |s.inflight| == 0 && DistinctIds(s)
    ensures WithinConcurrency(a, steps, 1)
  {
    hide Next, Decide;
    if trades == 0 {
      steps := [];
    } else {
      var before := OneByOne(a, signal, trades - 1);
      var s, handle := After(a, before), Handle(a.initial.today, signal, None);
      HandleOne(a, signal, s, trades - 1);
      Extend(a, before, handle, 1);
      FillOne(a, Next(a, s, handle), s.nextId, trades - 1);
      Extend(a, before + [handle], Fills(s.nextId, None, a.initial.today), 1);
      steps := before + [handle] + [Fills(s.nextId, None, a.initial.today)];
    }
  }

  /** Then `c` signals at once, none answered yet. */
  lemma {:induction false} Burst(a: Account, signal: Signal, base: seq<Step>, trades: nat, c: nat)
      returns (steps: seq<Step>)
    requires Tradable(a, signal) && trades < a.cfg.maxTradesPerDay && WithinConcurrency(a, base, c)
    requires var s := After(a, base); OnlyTraded(a, s.risk, trades) && |s.inflight| <= c && DistinctIds(s)
    ensures var s := After(a, steps); OnlyTraded(a, s.risk, trades) && |s.inflight| == c && DistinctIds(s)
    ensures WithinConcurrency(a, steps, c)
    decreases c - |After(a, base).inflight|
  {
    hide Next, Decide, After, WithinConcurrency;
    var s := After(a, base);
    if |s.inflight| == c {
      steps := base;
    } else {
      HandleOne(a, signal, s, trades);
      Extend(a, base, Handle(a.initial.today, signal, None), c);
      steps := Burst(a, signal, base + [Handle(a.initial.today, signal, None)], trades, c);
    }
  }

  /** Then every answer arrives. */
  lemma {:induction false} Drain(a: Account, base: seq<Step>, trades: nat, c: nat) returns (steps: seq<Step>)
    requires WithinConcurrency(a, base, c)
    requires var s := After(a, base); OnlyTraded(a, s.risk, trades) && |s.inflight| <= c && DistinctIds(s)
    ensures OnlyTraded(a, After(a, steps).risk, trades + |After(a, base).inflight|)
    ensures WithinConcurrency(a, steps, c)
    decreases |After(a, base).inflight|
  {
    hide Next, After, WithinConcurrency;
    var s := After(a, base);
    if |s.inflight| == 0 {
      steps := base;
    } else {
      var id: nat :| id in s.inflight;
      FillOne(a, s, id, trades);
      Extend(a, base, Fills(id, None, a.initial.today), c);
      steps := Drain(a, base + [Fills(id, None, a.initial.today)], trades + 1, c);
    }
  }

  /** For every account that can trade at all, some run with at most `c` concurrent signals really ends a
      day with `c - 1` trades over the cap. */
  lemma CapIsOverrun(a: Account, signal: Signal, c: nat) returns (steps: seq<Step>)
    requires Tradable(a, signal) && a.initial.tradesToday == 0 && a.cfg.maxTradesPerDay >= 1 && c >= 1
    ensures WithinConcurrency(a, steps, c)
    ensures After(a, steps).risk.tradesToday == a.cfg.maxTradesPerDay + c - 1
  {
    hide After, Decide, Next;
    var trades := a.cfg.maxTradesPerDay - 1;
    var sequential := OneByOne(a, signal, trades);
    var burst := Burst(a, signal, sequential, trades, c);
    steps := Drain(a, burst, trades, c);
  }

  /** The documented hard daily limit holds on every run if and only if signals are handled one at a time. */
  lemma CapIsHardIffSequential(a: Account, signal: Signal, c: nat)
    requires Fresh(a.initial) && Tradable(a, signal) && a.cfg.maxTradesPerDay >= 1 && c >= 1
    ensures (forall steps :: WithinConcurrency(a, steps, c) ==>
             After(a, steps).risk.tradesToday <= a.cfg.maxTradesPerDay)
            <==> c == 1
  {
    hide After, Decide, Next;
    if c == 1 {
      forall steps | WithinConcurrency(a, steps, c)
        ensures After(a, steps).risk.tradesToday <= a.cfg.maxTradesPerDay
      {
        TradeCapUnderConcurrency(a, steps, c);
      }
    } else {
      var steps := CapIsOverrun(a, signal, c);
    }
  }
}
