/** The executor (app/execution/executor.py) in paper and full-auto mode, as interleavable steps.

    `handle_signal` suspends while the broker works, so an accepted order is in flight between the risk
    decision and the registered open, and any other call may run in between. One step here is one
    stretch of the source between suspension points. */
module Executors {
  import opened Foundations
  import opened Trading
  import opened Risk
  import opened RiskHistory

  /** An order the risk manager accepted and the broker has not yet answered. */
  datatype InFlight = InFlight(signal: Signal, lots: real)

  datatype System = System(risk: RiskState, inflight: map<nat, InFlight>, open: map<nat, Trade>, nextId: nat)

  datatype Step =
    /** `handle_signal` up to the broker call. */
    | Handle(date: int, signal: Signal, spread: Option<real>)
    /** The broker refused, or three attempts failed. */
    | Fails(id: nat)
    /** The broker answered: the rest of `_fire`. A missing or zero fill price means the signal's entry. */
    | Fills(id: nat, fill: Option<real>, date: int)
    | Close(id: nat, exit: real, date: int)
    | Kill
    | Peek(date: int)

  function OpenedTrade(id: nat, o: InFlight, fill: Option<real>): (r: Trade)
  {
    var entry := if fill.None? || fill.value == 0.0 then o.signal.entry else fill.value;
    Trade(id, o.signal.inst, o.signal.side, entry, o.signal.stop, o.signal.target, o.lots, o.signal.session,
          Open, 0.0, 0.0)
  }

  function StatusOf(pnl: real): (r: Status)
  {
    if pnl > 0.0 then ClosedWin else if pnl < 0.0 then ClosedLoss else ClosedEven
  }

  function ClosedTrade(t: Trade, exit: real): (r: Trade)
  {
    var pnl := ClosePnl(t.inst, t.side, t.entry, exit, t.quantity);
    t.(status := StatusOf(pnl), exit := exit, pnl := pnl)
  }

  /** The operation a step performs on the risk manager, if any. */
  function OpOf(s: System, st: Step): (r: Option<Op>)
  {
    match st
    case Handle(date, signal, spread) => Some(Evaluated(date, signal, spread))
    case Fails(_) => None
    case Fills(id, _, date) => if id in s.inflight then Some(Opened(date)) else None
    case Close(id, exit, date) =>
      if id in s.open then
        var t := ClosedTrade(s.open[id], exit);
        Some(Closed(date, t.pnl, t.status))
      else None
    case Kill => Some(ForceDisabled)
    case Peek(date) => Some(Peeked(date))
  }

  function Next(a: Account, s: System, st: Step): (r: System)
  {
    var op := OpOf(s, st);
    var risk := if op.Some? then Apply(a, s.risk, op.value) else s.risk;
    match st
    case Handle(date, signal, spread) =>
      var d := Decide(a.cfg, a.start, s.risk, date, signal, spread);
      if d.accepted then System(risk, s.inflight[s.nextId := InFlight(signal, d.lots)], s.open, s.nextId + 1)
      else s.(risk := risk)
    case Fails(id) => s.(inflight := s.inflight - {id})
    case Fills(id, fill, _) =>
      if id in s.inflight
      then s.(risk := risk, inflight := s.inflight - {id}, open := s.open[id := OpenedTrade(id, s.inflight[id], fill)])
      else s
    case Close(id, _, _) => s.(risk := risk, open := s.open - {id})
    case Kill => s.(risk := risk)
    case Peek(_) => s.(risk := risk)
  }

  /** What a trade looks like when its order is filled: at the broker's price if there is one, else at the signal's
      entry, with the signal's levels and the accepted size. */
  predicate IsFilled(t: Trade, id: nat, o: InFlight, fill: Option<real>)
  {
    && t.entry == (if fill.Some? && fill.value != 0.0 then fill.value else o.signal.entry)
    && t.id == id && t.inst == o.signal.inst && t.side == o.signal.side && t.stop == o.signal.stop
    && t.target == o.signal.target && t.session == o.signal.session && t.quantity == o.lots
    && t.status == Open && t.exit == 0.0 == t.pnl
  }

  /** What becomes of trade `was` when it leaves at `exit`: the move in its favour, in pips, pays the pip value per
      lot. */
  predicate IsClosed(t: Trade, was: Trade, exit: real)
  {
    var move := if was.side == Long then exit - was.entry else was.entry - exit;
    && t.pnl == move / was.inst.pipSize * was.inst.quotePerPip * was.quantity
    && t.status == (if t.pnl > 0.0 then ClosedWin else if t.pnl < 0.0 then ClosedLoss else ClosedEven)
    && t.exit == exit && t.id == was.id && t.inst == was.inst && t.side == was.side && t.entry == was.entry
    && t.stop == was.stop && t.target == was.target && t.session == was.session && t.quantity == was.quantity
  }

  lemma FilledTrade(id: nat, o: InFlight, fill: Option<real>)
    ensures IsFilled(OpenedTrade(id, o, fill), id, o, fill)
  {
  }

  lemma ClosedTradeIs(t: Trade, exit: real)
    ensures IsClosed(ClosedTrade(t, exit), t, exit)
  {
    assert (exit - t.entry) * 1.0 == exit - t.entry && (exit - t.entry) * -1.0 == t.entry - exit;
  }

  /** Filling an order in flight opens exactly that trade; closing an open one books exactly that result. */
  lemma StepsInPrices(a: Account, s: System, id: nat, price: Option<real>, exit: real, date: int)
    ensures id in s.inflight ==>
              var s' := Next(a, s, Fills(id, price, date));
              && s'.inflight == s.inflight - {id} && s'.open.Keys == s.open.Keys + {id}
              && IsFilled(s'.open[id], id, s.inflight[id], price)
    ensures id in s.open ==>
              var s' := Next(a, s, Close(id, exit, date));
              && s'.open == s.open - {id}
              && exists t :: IsClosed(t, s.open[id], exit) && s'.risk.balance == s.risk.balance + t.pnl
  {
    hide ClosedTrade, Rollover;
    if id in s.inflight {
      FilledTrade(id, s.inflight[id], price);
    }
    if id in s.open {
      ClosedTradeIs(s.open[id], exit);
      RolloverKeepsBalance(s.risk, date);
      assert IsClosed(ClosedTrade(s.open[id], exit), s.open[id], exit);
    }
  }

  function Start(a: Account): (r: System) { System(a.initial, map[], map[], 0) }

  /** The state a run of steps, interleaved in any way, leads to. */
  function After(a: Account, steps: seq<Step>): (r: System)
  {
    if steps == [] then Start(a) else Next(a, After(a, steps[..|steps| - 1]), steps[|steps| - 1])
  }

  lemma OneMoreStep(a: Account, steps: seq<Step>, st: Step)
    ensures After(a, steps + [st]) == Next(a, After(a, steps), st)
  {
    hide Next;
    assert (steps + [st])[..|steps|] == steps;
  }

  class Executor {
    const risk: RiskManager
    /** The suspended `handle_signal` calls. */
    var inflight: map<nat, InFlight>
    var openTrades: map<nat, Trade>
    var nextId: nat
    /** The account as the executor found it, and every step taken since. */
    ghost const account: Account
    ghost var steps: seq<Step>

    ghost function View(): (r: System)
      reads this, risk
    {
      System(risk.View(), inflight, openTrades, nextId)
    }

    /** The object is always in the state its steps lead to: what is proved of runs is proved of it. */
    ghost predicate Valid()
      reads this, risk
    {
      && account.cfg == risk.settings && account.start == risk.start
      && View() == After(account, steps)
    }

    constructor (risk: RiskManager)
      ensures Valid() && steps == [] && account == Account(risk.settings, risk.start, risk.View())
      ensures this.risk == risk && View() == Start(account)
    {
      this.risk, inflight, openTrades, nextId := risk, map[], map[], 0;
      account, steps := Account(risk.settings, risk.start, risk.View()), [];
    }

    /** Returns the id of the order now in flight, if the risk manager accepted the signal. */
    method HandleSignal(signal: Signal, spread: Option<real>, utcToday: int) returns (id: Option<nat>)
      requires Valid()
      modifies this, risk
      ensures Valid() && risk.simulatedNow == old(risk.simulatedNow)
      ensures steps == old(steps) + [Handle(old(risk.NowDate(utcToday)), signal, spread)]
      ensures View() == Next(account, old(View()), Handle(old(risk.NowDate(utcToday)), signal, spread))
      ensures id == if View().nextId > old(nextId) then Some(old(nextId)) else None
    {
      hide AfterEvaluate, Decide, After;
      ghost var step := Handle(risk.NowDate(utcToday), signal, spread);
      OneMoreStep(account, steps, step);
      steps := steps + [step];
      var d := risk.Evaluate(signal, spread, utcToday);
      if !d.accepted {
        return None;
      }
      inflight := inflight[nextId := InFlight(signal, d.lots)];
      id := Some(nextId);
      nextId := nextId + 1;
    }

    method BrokerFailed(id: nat)
      requires Valid()
      modifies this
      ensures Valid() && steps == old(steps) + [Fails(id)]
      ensures View() == Next(account, old(View()), Fails(id))
    {
      hide After;
      OneMoreStep(account, steps, Fails(id));
      steps := steps + [Fails(id)];
      inflight := inflight - {id};
    }

    method BrokerFilled(id: nat, fill: Option<real>, utcToday: int) returns (t: Option<Trade>)
      requires Valid()
      modifies this, risk
      ensures Valid() && risk.simulatedNow == old(risk.simulatedNow)
      ensures steps == old(steps) + [Fills(id, fill, old(risk.NowDate(utcToday)))]
      ensures View() == Next(account, old(View()), Fills(id, fill, old(risk.NowDate(utcToday))))
      ensures t == if id in old(inflight) then Some(OpenedTrade(id, old(inflight)[id], fill)) else None
      ensures t.Some? ==>
                IsFilled(t.value, id, old(inflight)[id], fill) && id in openTrades && openTrades[id] == t.value
    {
      hide AfterOpen, After;
      ghost var step := Fills(id, fill, risk.NowDate(utcToday));
      OneMoreStep(account, steps, step);
      steps := steps + [step];
      if id !in inflight {
        return None;
      }
      var trade := OpenedTrade(id, inflight[id], fill);
      risk.RegisterTradeOpen(utcToday);
      openTrades := openTrades[id := trade];
      inflight := inflight - {id};
      t := Some(trade);
    }

    method CloseTrade(id: nat, exit: real, utcToday: int) returns (t: Option<Trade>)
      requires Valid()
      modifies this, risk
      ensures Valid() && risk.simulatedNow == old(risk.simulatedNow)
      ensures steps == old(steps) + [Close(id, exit, old(risk.NowDate(utcToday)))]
      ensures View() == Next(account, old(View()), Close(id, exit, old(risk.NowDate(utcToday))))
      ensures t == if id in old(openTrades) then Some(ClosedTrade(old(openTrades)[id], exit)) else None
      ensures t.Some? ==> IsClosed(t.value, old(openTrades)[id], exit) && id !in openTrades
    {
      hide AfterClose, ClosePnl, After;
      ghost var step := Close(id, exit, risk.NowDate(utcToday));
      OneMoreStep(account, steps, step);
      steps := steps + [step];
      if id !in openTrades {
        assert openTrades - {id} == openTrades;
        return None;
      }
      var trade := openTrades[id];
      ClosedTradeIs(trade, exit);
      hide IsClosed;
      openTrades := openTrades - {id};
      var pnl := ClosePnl(trade.inst, trade.side, trade.entry, exit, trade.quantity);
      var closed := trade.(status := StatusOf(pnl), exit := exit, pnl := pnl);
      risk.RegisterTradeClose(closed.pnl, closed.status, utcToday);
      t := Some(closed);
    }

    /** The dashboard's kill switch, thrown on the executor's risk manager. */
    method ForceDisable()
      requires Valid()
      modifies this`steps, risk
      ensures Valid() && steps == old(steps) + [Kill] && risk.simulatedNow == old(risk.simulatedNow)
    {
      hide After;
      OneMoreStep(account, steps, Kill);
      steps := steps + [Kill];
      risk.ForceDisable();
    }

    /** The dashboard's reading of the same manager. */
    method Snapshot(utcToday: int) returns (s: RiskState)
      requires Valid()
      modifies this`steps, risk
      ensures Valid() && steps == old(steps) + [Peek(old(risk.NowDate(utcToday)))] && s == risk.View()
      ensures risk.simulatedNow == old(risk.simulatedNow)
    {
      hide After, Rollover;
      ghost var step := Peek(risk.NowDate(utcToday));
      OneMoreStep(account, steps, step);
      steps := steps + [step];
      s := risk.Snapshot(utcToday);
    }
  }
}
