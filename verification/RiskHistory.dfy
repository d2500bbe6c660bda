/** What the risk manager's state means: every field is a function of the operations performed so far. */
module RiskHistory {
  import opened Foundations
  import opened Trading
  import opened Risk

  datatype Op =
    | Evaluated(date: int, signal: Signal, spread: Option<real>)
    | Opened(date: int)
    | Closed(date: int, pnl: real, status: Status)
    | ForceDisabled
    /** A dashboard snapshot, which also rolls the day over. */
    | Peeked(date: int)

  datatype Account = Account(cfg: Settings, start: real, initial: RiskState)

  function Apply(a: Account, s: RiskState, op: Op): (r: RiskState)
  {
    match op
    case Evaluated(date, signal, spread) => AfterEvaluate(a.cfg, a.start, s, date, signal, spread)
    case Opened(date) => AfterOpen(s, date)
    case Closed(date, pnl, status) => AfterClose(s, date, pnl, status)
    case ForceDisabled => s.(disabled := true)
    case Peeked(date) => Rollover(s, date)
  }

  function Run(a: Account, ops: seq<Op>): (r: RiskState)
  {
    if ops == [] then a.initial else Apply(a, Run(a, ops[..|ops| - 1]), ops[|ops| - 1])
  }

  // ---- the history's own vocabulary ---------------------------------------------------

  /** The date of the last operation that looked at the clock. */
  function Today(d0: int, ops: seq<Op>): (r: int)
  {
    if ops == [] then d0
    else if ops[|ops| - 1].ForceDisabled? then Today(d0, ops[..|ops| - 1])
    else ops[|ops| - 1].date
  }

  /** The last of `ops` looks at the clock on another date than the one before it did. */
  predicate RollsOver(d0: int, ops: seq<Op>)
  {
    ops != [] && !ops[|ops| - 1].ForceDisabled? && ops[|ops| - 1].date != Today(d0, ops[..|ops| - 1])
  }

  /** The operations since the last rollover, the one that noticed it included. */
  function DayOf(d0: int, ops: seq<Op>): (r: seq<Op>)
  {
    if ops == [] then []
    else if RollsOver(d0, ops) then [ops[|ops| - 1]]
    else DayOf(d0, ops[..|ops| - 1]) + [ops[|ops| - 1]]
  }

  function Pnl(ops: seq<Op>): (r: real)
  {
    if ops == [] then 0.0
    else Pnl(ops[..|ops| - 1]) + if ops[|ops| - 1].Closed? then ops[|ops| - 1].pnl else 0.0
  }

  function Opens(ops: seq<Op>): (r: nat)
  {
    if ops == [] then 0 else Opens(ops[..|ops| - 1]) + if ops[|ops| - 1].Opened? then 1 else 0
  }

  /** A close counts as lost if it is marked so or cost money, as won if it is not lost and is marked so or paid. */
  predicate Lost(op: Op) { op.Closed? && (op.status == ClosedLoss || op.pnl < 0.0) }

  predicate Won(op: Op) { op.Closed? && !Lost(op) && (op.status == ClosedWin || op.pnl > 0.0) }

  function Losses(ops: seq<Op>): (r: nat)
  {
    if ops == [] then 0 else Losses(ops[..|ops| - 1]) + if Lost(ops[|ops| - 1]) then 1 else 0
  }

  /** The operations after the last winning close. */
  function SinceLastWin(ops: seq<Op>): (r: seq<Op>)
  {
    if ops == [] then []
    else if Won(ops[|ops| - 1]) then []
    else SinceLastWin(ops[..|ops| - 1]) + [ops[|ops| - 1]]
  }

  /** Days that have ended and saw at least one open. */
  function CompletedTradingDays(d0: int, ops: seq<Op>): (r: nat)
  {
    if ops == [] then 0
    else
      CompletedTradingDays(d0, ops[..|ops| - 1])
      + if RollsOver(d0, ops) && Opens(DayOf(d0, ops[..|ops| - 1])) > 0 then 1 else 0
  }

  ghost predicate IsHighWaterMark(a: Account, ops: seq<Op>, x: real)
  {
    && a.initial.hwm <= x
    && (forall n :: 0 < n <= |ops| && ops[n - 1].Closed? ==> a.initial.balance + Pnl(ops[..n]) <= x)
    && (x == a.initial.hwm
        || exists n :: 0 < n <= |ops| && ops[n - 1].Closed? && x == a.initial.balance + Pnl(ops[..n]))
  }

  /** `x` is the largest running profit any day ever reached, at least 0. */
  ghost predicate IsHighestDayPnl(d0: int, ops: seq<Op>, x: real)
  {
    && (forall n :: 0 <= n <= |ops| ==> Pnl(DayOf(d0, ops[..n])) <= x)
    && exists n :: 0 <= n <= |ops| && x == Pnl(DayOf(d0, ops[..n]))
  }

  /** The largest of the initial mark and every balance a close left behind (see HighWaterMarkOfHistory). */
  function Peak(a: Account, ops: seq<Op>): (r: real)
  {
    if ops == [] then a.initial.hwm
    else
      var before := Peak(a, ops[..|ops| - 1]);
      if ops[|ops| - 1].Closed? then Max(before, a.initial.balance + Pnl(ops)) else before
  }

  /** The day an operation on `date` belongs to: the current one, or a new and empty one. */
  function DayFor(d0: int, ops: seq<Op>, date: int): (r: seq<Op>)
  {
    if date == Today(d0, ops) then DayOf(d0, ops) else []
  }

  /** The balance has fallen by less than the allowed share of its peak. */
  predicate WithinDrawdown(a: Account, peak: real, balance: real)
  {
    peak != 0.0 && (peak - balance) / peak < a.cfg.maxTotalDdPct
  }

  /** While in profit overall, the day holds no more than the allowed share of it. */
  predicate Consistent(a: Account, balance: real, today: real)
  {
    balance > a.start ==> today <= a.cfg.consistencyPct * (balance - a.start)
  }

  /** The loss run, the day's loss, the fall from the peak or the day's share of the profit has reached its
      limit. Without a peak to compare with, the last two are never looked at. */
  predicate LimitReached(a: Account, day: seq<Op>, peak: real, balance: real)
  {
    || Losses(SinceLastWin(day)) >= a.cfg.maxConsecutiveLosses
    || Pnl(day) <= -(a.cfg.accountBalance * a.cfg.maxDailyLossPct)
    || (peak != 0.0 && !(WithinDrawdown(a, peak, balance) && Consistent(a, balance, Pnl(day))))
  }

  /** Operation `n` stops trading: a kill switch, or a signal that arrived while the day still had trades left
      but a limit was reached. */
  ghost predicate HaltsAt(a: Account, ops: seq<Op>, n: nat)
    requires n < |ops|
  {
    match ops[n]
    case ForceDisabled => true
    case Evaluated(date, _, _) =>
      var before := ops[..n];
      var day := DayFor(a.initial.today, before, date);
      Opens(day) < a.cfg.maxTradesPerDay && LimitReached(a, day, Peak(a, before), a.initial.balance + Pnl(before))
    case _ => false
  }

  ghost predicate Fresh(s: RiskState)
  {
    s.tradesToday == 0 && s.realizedToday == 0.0 && s.consecutiveLosses == 0 && !s.disabled
    && s.tradingDays == 0 && s.highestDayPnl == 0.0
  }

  // ---- the theorem --------------------------------------------------------------------

  lemma DayStep(d0: int, ops: seq<Op>, op: Op)
    ensures DayOf(d0, ops + [op]) == if RollsOver(d0, ops + [op]) then [op] else DayOf(d0, ops) + [op]
    ensures Today(d0, ops + [op]) == if op.ForceDisabled? then Today(d0, ops) else op.date
    ensures RollsOver(d0, ops + [op]) <==> !op.ForceDisabled? && op.date != Today(d0, ops)
    ensures CompletedTradingDays(d0, ops + [op]) ==
            CompletedTradingDays(d0, ops) + if RollsOver(d0, ops + [op]) && Opens(DayOf(d0, ops)) > 0 then 1 else 0
  {
    assert (ops + [op])[..|ops|] == ops;
  }

  lemma CountStep(ops: seq<Op>, op: Op)
    ensures Pnl(ops + [op]) == Pnl(ops) + if op.Closed? then op.pnl else 0.0
    ensures Opens(ops + [op]) == Opens(ops) + if op.Opened? then 1 else 0
    ensures SinceLastWin(ops + [op]) == if Won(op) then [] else SinceLastWin(ops) + [op]
    ensures Losses(ops + [op]) == Losses(ops) + if Lost(op) then 1 else 0
  {
    assert (ops + [op])[..|ops|] == ops;
  }

  lemma EmptyCounts()
    ensures Pnl([]) == 0.0 && Opens([]) == 0 && Losses([]) == 0 && SinceLastWin([]) == []
  {
  }

  /** What one operation does to the day's figures, the rollover before it included. */
  lemma ApplyStep(a: Account, s: RiskState, op: Op)
    ensures var rolls := !op.ForceDisabled? && op.date != s.today;
            var s' := Apply(a, s, op);
            && s'.today == (if op.ForceDisabled? then s.today else op.date)
            && s'.balance == s.balance + (if op.Closed? then op.pnl else 0.0)
            && s'.realizedToday == (if rolls then 0.0 else s.realizedToday) + (if op.Closed? then op.pnl else 0.0)
            && s'.tradesToday == (if rolls then 0 else s.tradesToday) + (if op.Opened? then 1 else 0)
            && s'.consecutiveLosses == (if Won(op) then 0
                                        else (if rolls then 0 else s.consecutiveLosses) + if Lost(op) then 1 else 0)
            && s'.tradingDays == s.tradingDays + (if rolls && s.tradesToday > 0 then 1 else 0)
            && s'.hwm == (if op.Closed? then Max(s.hwm, s'.balance) else s.hwm)
  {
    hide Guard;
  }

  /** The day's figures in `s` are those of `day`. */
  ghost predicate CountsOf(s: RiskState, day: seq<Op>)
  {
    && s.realizedToday == Pnl(day) && s.tradesToday == Opens(day)
    && s.consecutiveLosses == Losses(SinceLastWin(day))
  }

  lemma CountsStep(a: Account, s: RiskState, day: seq<Op>, op: Op)
    requires CountsOf(s, day)
    ensures var rolls := !op.ForceDisabled? && op.date != s.today;
            CountsOf(Apply(a, s, op), if rolls then [op] else day + [op])
  {
    hide Apply, Pnl, Opens, Losses, SinceLastWin;
    ApplyStep(a, s, op);
    DayCounts(day, op);
  }

  lemma {:induction false} TodayOfHistory(a: Account, ops: seq<Op>)
    ensures Run(a, ops).today == Today(a.initial.today, ops)
  {
    hide Apply;
    if ops != [] {
      TodayOfHistory(a, ops[..|ops| - 1]);
      ApplyStep(a, Run(a, ops[..|ops| - 1]), ops[|ops| - 1]);
    }
  }

  lemma {:induction false} CountsOfHistory(a: Account, ops: seq<Op>)
    requires Fresh(a.initial)
    ensures CountsOf(Run(a, ops), DayOf(a.initial.today, ops))
  {
    hide Apply, CountsOf, Today;
    if ops == [] {
      NothingCounted(a);
    } else {
      var before := ops[..|ops| - 1];
      CountsOfHistory(a, before);
      TodayOfHistory(a, before);
      CountsStep(a, Run(a, before), DayOf(a.initial.today, before), ops[|ops| - 1]);
    }
  }

  lemma NothingCounted(a: Account)
    requires Fresh(a.initial)
    ensures CountsOf(a.initial, [])
  {
  }

  lemma {:induction false} TotalsOfHistory(a: Account, ops: seq<Op>)
    requires Fresh(a.initial)
    ensures Run(a, ops).balance == a.initial.balance + Pnl(ops)
    ensures Run(a, ops).tradingDays == CompletedTradingDays(a.initial.today, ops)
  {
    hide Apply, DayOf, Today, Opens;
    if ops != [] {
      var before, op := ops[..|ops| - 1], ops[|ops| - 1];
      TotalsOfHistory(a, before);
      TodayOfHistory(a, before);
      CountsOfHistory(a, before);
      ApplyStep(a, Run(a, before), op);
    }
  }

  /** The plain figures: balance, day profit, day trades, loss run, completed days. */
  lemma {:induction false} FiguresOfHistory(a: Account, ops: seq<Op>)
    requires Fresh(a.initial)
    ensures var s, d0 := Run(a, ops), a.initial.today;
            var day := DayOf(d0, ops);
            && s.today == Today(d0, ops)
            && s.balance == a.initial.balance + Pnl(ops)
            && s.realizedToday == Pnl(day)
            && s.tradesToday == Opens(day)
            && s.consecutiveLosses == Losses(SinceLastWin(day))
            && s.tradingDays == CompletedTradingDays(d0, ops)
  {
    hide Run, DayOf, Today, Pnl, Opens, Losses, SinceLastWin, CompletedTradingDays;
    TodayOfHistory(a, ops);
    CountsOfHistory(a, ops);
    TotalsOfHistory(a, ops);
  }

  /** The day's counts with one more operation, on the same day or on a new one. */
  lemma DayCounts(day: seq<Op>, op: Op)
    ensures var next := day + [op];
            && Pnl(next) == Pnl(day) + (if op.Closed? then op.pnl else 0.0)
            && Opens(next) == Opens(day) + (if op.Opened? then 1 else 0)
            && Losses(SinceLastWin(next)) ==
               if Won(op) then 0 else Losses(SinceLastWin(day)) + if Lost(op) then 1 else 0
    ensures && Pnl([op]) == (if op.Closed? then op.pnl else 0.0)
            && Opens([op]) == (if op.Opened? then 1 else 0)
            && Losses(SinceLastWin([op])) == if !Won(op) && Lost(op) then 1 else 0
  {
    hide Lost, Won;
    EmptyCounts();
    CountStep(day, op);
    CountStep(SinceLastWin(day), op);
    CountStep([], op);
    assert [] + [op] == [op];
  }

  lemma HighWaterMarkStep(a: Account, before: seq<Op>, op: Op, x: real)
    requires IsHighWaterMark(a, before, x)
    ensures var balance := a.initial.balance + Pnl(before + [op]);
            IsHighWaterMark(a, before + [op], if op.Closed? then Max(x, balance) else x)
  {
    hide Pnl;
    var ops, k := before + [op], |before|;
    assert ops[..k + 1] == ops;
    forall n | 0 < n <= k ensures ops[n - 1] == before[n - 1] && ops[..n] == before[..n] {
    }
    if x != a.initial.hwm {
      var n :| 0 < n <= k && before[n - 1].Closed? && x == a.initial.balance + Pnl(before[..n]);
      assert ops[n - 1].Closed? && x == a.initial.balance + Pnl(ops[..n]);
    }
    assert ops[k] == op && Pnl(ops[..k + 1]) == Pnl(ops);
  }

  /** The high-water mark is the largest of the initial mark and every balance a close left behind. */
  lemma {:induction false} HighWaterMarkOfHistory(a: Account, ops: seq<Op>)
    requires Fresh(a.initial)
    ensures Run(a, ops).hwm == Peak(a, ops) && IsHighWaterMark(a, ops, Peak(a, ops))
  {
    hide Apply, Pnl;
    if ops == [] {
      NothingClosed(a);
    } else {
      hide IsHighWaterMark;
      var before, op := ops[..|ops| - 1], ops[|ops| - 1];
      assert before + [op] == ops;
      HighWaterMarkOfHistory(a, before);
      TotalsOfHistory(a, ops);
      ApplyStep(a, Run(a, before), op);
      HighWaterMarkStep(a, before, op, Peak(a, before));
    }
  }

  lemma NothingClosed(a: Account)
    ensures IsHighWaterMark(a, [], a.initial.hwm)
  {
  }

  lemma BestDayStep(a: Account, s: RiskState, op: Op)
    ensures Apply(a, s, op).highestDayPnl ==
            (var rolls := !op.ForceDisabled? && op.date != s.today;
             var seen := if rolls then Max(s.realizedToday, s.highestDayPnl) else s.highestDayPnl;
             if op.Closed? then Max(Apply(a, s, op).realizedToday, seen) else seen)
  {
    hide Guard;
  }

  /** The best day is the largest running day profit ever reached, never below 0. */
  lemma {:induction false} BestDayOfHistory(a: Account, ops: seq<Op>)
    requires Fresh(a.initial)
    ensures IsHighestDayPnl(a.initial.today, ops, Run(a, ops).highestDayPnl)
    ensures Run(a, ops).highestDayPnl >= 0.0 && Run(a, ops).highestDayPnl >= Run(a, ops).realizedToday
  {
    hide Apply, Pnl, DayOf;
    var n, d0 := |ops|, a.initial.today;
    assert ops[..n] == ops;
    FiguresOfHistory(a, ops);
    if n == 0 {
      assert Pnl(DayOf(d0, ops[..0])) == 0.0;
    } else {
      var before, op := ops[..n - 1], ops[n - 1];
      BestDayOfHistory(a, before);
      FiguresOfHistory(a, before);
      ApplyStep(a, Run(a, before), op);
      BestDayStep(a, Run(a, before), op);
      assert forall m :: 0 <= m <= n - 1 ==> before[..m] == ops[..m];
      var x := Run(a, ops).highestDayPnl;
      if x == Run(a, before).highestDayPnl {
        var m :| 0 <= m <= n - 1 && x == Pnl(DayOf(d0, before[..m]));
        assert x == Pnl(DayOf(d0, ops[..m]));
      } else {
        assert x == Pnl(DayOf(d0, ops[..n]));
      }
    }
  }

  /** One of the last `day` operations halted trading. */
  ghost predicate HaltedWithin(a: Account, ops: seq<Op>, day: nat)
  {
    exists n :: |ops| - day <= n < |ops| && 0 <= n && HaltsAt(a, ops, n)
  }

  lemma HaltedWithinStep(a: Account, before: seq<Op>, op: Op, day: nat)
    ensures HaltedWithin(a, before + [op], day + 1) <==>
            HaltedWithin(a, before, day) || HaltsAt(a, before + [op], |before|)
  {
    hide HaltsAt;
    var ops := before + [op];
    forall m | 0 <= m < |before| ensures HaltsAt(a, ops, m) <==> HaltsAt(a, before, m) {
      HaltsAtPrefix(a, ops, before, m);
    }
    if HaltedWithin(a, before, day) {
      var n :| |before| - day <= n < |before| && 0 <= n && HaltsAt(a, before, n);
      assert HaltsAt(a, ops, n);
    }
  }

  lemma HaltedWithinNone(a: Account, ops: seq<Op>)
    ensures !HaltedWithin(a, ops, 0)
  {
  }

  /** Trading is halted exactly when some operation of the current day halted it. */
  lemma {:induction false} HaltedExactlyWhen(a: Account, ops: seq<Op>)
    requires Fresh(a.initial)
    ensures Run(a, ops).disabled <==> HaltedWithin(a, ops, |DayOf(a.initial.today, ops)|)
  {
    if ops == [] {
      HaltedWithinNone(a, []);
    } else {
      hide HaltsAt, HaltedWithin, Run, DayOf, Today, RollsOver, CompletedTradingDays, Opens;
      var k, d0 := |ops| - 1, a.initial.today;
      var before, op := ops[..k], ops[k];
      assert before + [op] == ops;
      HaltedExactlyWhen(a, before);
      TodayOfHistory(a, before);
      DayStep(d0, before, op);
      LastHalt(a, ops);
      HaltedWithinStep(a, before, op, |DayOf(d0, before)|);
      HaltedWithinStep(a, before, op, 0);
      HaltedWithinNone(a, before);
    }
  }

  lemma HaltsAtPrefix(a: Account, ops: seq<Op>, before: seq<Op>, m: nat)
    requires m < |before| < |ops| && before == ops[..|before|]
    ensures HaltsAt(a, ops, m) <==> HaltsAt(a, before, m)
  {
    assert before[..m] == ops[..m];
  }

  lemma HaltOfStep(a: Account, s: RiskState, op: Op)
    ensures var rolls := !op.ForceDisabled? && op.date != s.today;
            Apply(a, s, op).disabled <==>
              || (!rolls && s.disabled) || op.ForceDisabled?
              || (op.Evaluated? && Halts(Guard(a.cfg, a.start, Rollover(s, op.date), op.signal, op.spread)))
    ensures !op.ForceDisabled? ==> (Rollover(s, op.date).disabled <==> op.date == s.today && s.disabled)
  {
    hide Guard, Halts;
  }

  lemma LastHalt(a: Account, ops: seq<Op>)
    requires Fresh(a.initial) && ops != []
    ensures var k := |ops| - 1;
            var rolls := !ops[k].ForceDisabled? && ops[k].date != Run(a, ops[..k]).today;
            Run(a, ops).disabled <==> (!rolls && Run(a, ops[..k]).disabled) || HaltsAt(a, ops, k)
  {
    hide Apply, Guard, Halts, LimitReached, CountsOf, DayFor, Peak, Opens, Pnl;
    var before, op := ops[..|ops| - 1], ops[|ops| - 1];
    HaltOfStep(a, Run(a, before), op);
    hide Run;
    if op.Evaluated? {
      var s := Rollover(Run(a, before), op.date);
      hide Rollover;
      RolledFigures(a, before, op.date);
      GuardHalts(a, s, DayFor(a.initial.today, before, op.date), op.signal, op.spread);
    }
  }

  /** Unless it is halted already, a manager halts on a signal exactly when a limit is reached. */
  lemma GuardHalts(a: Account, s: RiskState, day: seq<Op>, signal: Signal, spread: Option<real>)
    requires CountsOf(s, day)
    ensures Halts(Guard(a.cfg, a.start, s, signal, spread)) <==>
            !s.disabled && Opens(day) < a.cfg.maxTradesPerDay && LimitReached(a, day, s.hwm, s.balance)
  {
    hide SizePosition, SpreadAcceptable, Pnl, Opens, Losses, SinceLastWin;
  }

  /** A halted manager accepts nothing until an operation is processed on another date. */
  lemma {:induction false} HaltedUntilRollover(a: Account, s: RiskState, ops: seq<Op>)
    requires s.disabled
    requires forall i :: 0 <= i < |ops| && !ops[i].ForceDisabled? ==> ops[i].date == s.today
    ensures var after := Run(a.(initial := s), ops);
            && after.disabled && after.today == s.today
            && forall signal, spread :: !Risk.Decide(a.cfg, a.start, after, s.today, signal, spread).accepted
  {
    if ops != [] {
      var before := ops[..|ops| - 1];
      HaltedUntilRollover(a, s, before);
      assert ops[|ops| - 1].ForceDisabled? || ops[|ops| - 1].date == s.today;
    }
  }

  /** A new account, as the source creates it, meets the assumptions the run theorems make. */
  lemma NewAccountQualifies(start: real, balance: real, hwm: real, today: int)
    ensures var s := Initial(start, balance, hwm, today);
            && Fresh(s) && s.today == today && s.startDate == None
            && s.balance == (if balance > 0.0 then balance else start)
            && s.hwm == (if hwm > 0.0 then hwm else start)
  {
  }

  /** Nothing that happened so far forbids another trade on `date`. */
  ghost predicate MayTrade(a: Account, ops: seq<Op>, date: int)
  {
    var day, peak, balance := DayFor(a.initial.today, ops, date), Peak(a, ops), a.initial.balance + Pnl(ops);
    && !HaltedWithin(a, ops, |day|)
    && Opens(day) < a.cfg.maxTradesPerDay
    && peak != 0.0 && !LimitReached(a, day, peak, balance)
  }

  ghost predicate IsTradable(a: Account, balance: real, signal: Signal, spread: Option<real>)
  {
    && (spread.Some? ==> spread.value <= if signal.inst.isMetal then a.cfg.maxSpreadMetals else a.cfg.maxSpreadFx)
    && signal.entry != signal.stop && signal.inst.quotePerPip > 0.0
    && balance * a.cfg.riskPct >= 0.01 * StopLossOf(signal)
  }

  lemma RolledFigures(a: Account, ops: seq<Op>, date: int)
    requires Fresh(a.initial)
    ensures var s := Rollover(Run(a, ops), date);
            && s.balance == a.initial.balance + Pnl(ops) && s.hwm == Peak(a, ops)
            && CountsOf(s, DayFor(a.initial.today, ops, date))
  {
    EmptyCounts();
    hide Run, DayOf, Today, Pnl, Opens, Losses, SinceLastWin, Peak, IsHighWaterMark;
    TodayOfHistory(a, ops);
    CountsOfHistory(a, ops);
    TotalsOfHistory(a, ops);
    HighWaterMarkOfHistory(a, ops);
  }

  lemma RolledHalt(a: Account, ops: seq<Op>, date: int)
    requires Fresh(a.initial)
    ensures Rollover(Run(a, ops), date).disabled <==> HaltedWithin(a, ops, |DayFor(a.initial.today, ops, date)|)
  {
    hide Run, DayOf, Today, HaltedWithin;
    TodayOfHistory(a, ops);
    HaltedExactlyWhen(a, ops);
    HaltedWithinNone(a, ops);
  }

  lemma GuardPasses(a: Account, s: RiskState, day: seq<Op>, signal: Signal, spread: Option<real>)
    requires CountsOf(s, day)
    ensures Guard(a.cfg, a.start, s, signal, spread) == Ok <==>
            && !s.disabled && Opens(day) < a.cfg.maxTradesPerDay
            && s.hwm != 0.0 && !LimitReached(a, day, s.hwm, s.balance)
            && IsTradable(a, s.balance, signal, spread)
  {
    hide SizePosition, StopLossOf, Pnl, Opens, Losses, SinceLastWin;
    SizePositiveExactlyWhen(a.cfg, s.balance, signal);
  }

  /** Exactly when a signal is accepted, in terms of what happened and not of the manager's fields: the kill
      switches and the signals of the day that met a reached limit, its opens, its losses since the last win,
      its profit, the best balance ever, and the signal itself. */
  lemma AcceptsExactlyWhen(a: Account, ops: seq<Op>, date: int, signal: Signal, spread: Option<real>)
    requires Fresh(a.initial)
    ensures Risk.Decide(a.cfg, a.start, Run(a, ops), date, signal, spread).accepted
            <==> MayTrade(a, ops, date) && IsTradable(a, a.initial.balance + Pnl(ops), signal, spread)
  {
    hide Run, Rollover, Guard, DayFor, HaltedWithin, Peak, Pnl, Opens, LimitReached, CountsOf, SizePosition,
         RiskAmount, IsTradable;
    RolledFigures(a, ops, date);
    RolledHalt(a, ops, date);
    GuardPasses(a, Rollover(Run(a, ops), date), DayFor(a.initial.today, ops, date), signal, spread);
  }

  /** An account with a positive mark keeps one, so the guard never divides by zero. */
  lemma NeverCrashes(a: Account, ops: seq<Op>, date: int, signal: Signal, spread: Option<real>)
    requires Fresh(a.initial) && a.initial.hwm > 0.0
    ensures Risk.Decide(a.cfg, a.start, Run(a, ops), date, signal, spread).reason != Crashed
  {
    hide Run, Rollover, Pnl, SizePosition, SpreadAcceptable;
    HighWaterMarkOfHistory(a, ops);
    RolledFigures(a, ops, date);
  }

  /** The description of the high-water mark fixes it. */
  lemma HighWaterMarkIsUnique(a: Account, ops: seq<Op>, x: real, y: real)
    requires IsHighWaterMark(a, ops, x) && IsHighWaterMark(a, ops, y)
    ensures x == y && x >= a.initial.hwm
  {
    hide Pnl;
  }
}
