/**
 The imperative tick backtest: an object whose cash, book, trade list, equity curve and day range
 change in nested loops. Every method is proved equal to its meaning in TickSpec and DaySpec; the
 batched merge of `AdvanceTo` in particular equals serving one tick at a time.
 */
module BacktestEngine {
  import opened Common
  import opened FtmoRules
  import opened Sizing
  import opened TickAdvance
  import opened TickSpec
  import opened DaySpec
  import opened Schedule

  class Backtest {
    const cfg: Config
    const initial: real
    var cash: real
    var open: seq<Pos>
    var trades: seq<Trade>
    var curve: seq<(int, real)>
    var dayStart: real
    var dayLow: real
    var dayHigh: real
    var consecutiveLosses: int
    var halted: Option<HaltKind>

    ghost function View(): Engine
      reads this
    {
      Engine(cash, open, trades, curve, dayStart, dayLow, dayHigh, consecutiveLosses, halted)
    }

    constructor (initial: real, cfg: Config)
      ensures View() == Fresh(initial) && this.initial == initial && this.cfg == cfg
    {
      this.cfg := cfg;
      this.initial := initial;
      cash, open, trades, curve := initial, [], [], [];
      dayStart, dayLow, dayHigh := initial, initial, initial;
      consecutiveLosses, halted := 0, None;
    }

    function EquityNow(): (eq: real)
      reads this
      ensures eq == Equity(View())
    {
      cash + Sum(Floating(open))
    }

    method RecordEquity(ts: int)
      modifies this
      ensures View() == Record(old(View()), ts)
    {
      var eq := EquityNow();
      curve := curve + [(ts, eq)];
      dayLow := MinR(dayLow, eq);
      dayHigh := MaxR(dayHigh, eq);
    }

    method ClosePosition(j: nat, i: nat, price: real, reason: ExitReason)
      requires j < |open| && i < |open[j].ticks.ts|
      modifies this
      ensures View() == Close(old(View()), j, i, price, reason)
    {
      hide Pos.Unrealized, Pos.ExitCommission;
      var pos := open[j];
      var commission := pos.ExitCommission();
      var gross := pos.Unrealized(price);
      cash := cash + (gross - commission);
      var pnl := gross - commission - pos.entryCommission;
      open := open[..j] + open[j + 1..];
      consecutiveLosses := if pnl < 0.0 then consecutiveLosses + 1 else 0;
      var ts := pos.ticks.ts[i];
      trades := trades + [Trade(pos.entryNs, ts, pos.symbol, pos.side, pnl, MinR(pos.mae, pnl), MaxR(pos.mfe, pnl),
                                pos.entry, price, pos.stop, pos.target, pos.lots, reason,
                                commission + pos.entryCommission, pos.spreadCost)];
      RecordEquity(ts);
    }

    method MarkPosition(j: nat, mark: real)
      requires j < |open|
      modifies this
      ensures View() == old(View()).(open := old(open)[j := MarkPos(old(open)[j], mark)])
    {
      var pos := open[j];
      var contrib := pos.Unrealized(mark) - pos.entryCommission;
      open := open[j := pos.(mark := mark, mae := MinR(pos.mae, contrib), mfe := MaxR(pos.mfe, contrib))];
    }

    /** Keep the `j`-th position open through a tick: at most one breakeven move, then the new mark. */
    method Hold(j: nat, mark: real, moveStop: bool, ts: int)
      requires j < |open|
      modifies this
      ensures var p := old(open)[j];
        View() == Record(old(View()).(open := old(open)[j :=
          MarkPos(if moveStop then p.(stop := p.entry, beDone := true) else p, mark)]), ts)
    {
      if moveStop {
        open := open[j := open[j].(stop := open[j].entry, beDone := true)];
      }
      MarkPosition(j, mark);
      assert open == old(open)[j := open[j]];
      RecordEquity(ts);
    }

    /** Resolve tick `i`, the next tick of the `j`-th open position. */
    method OnTick(j: nat, i: nat)
      requires PositionsValid(open)
      requires j < |open| && i == open[j].idx < |open[j].ticks.ts|
      modifies this
      ensures View() == ApplyTick(old(View()), j, cfg)
    {
      hide Record, Close, MarkPos, Equity, MarketExitPrice;
      open := open[j := open[j].(idx := i + 1)];
      var pos := open[j];
      var bid := pos.ticks.bid[i];
      var ask := pos.ticks.ask[i];
      if pos.ticks.ts[i] >= pos.flattenNs {
        ClosePosition(j, i, MarketExitPrice(pos, i), TimeExit);
      } else if pos.side == Long {
        if bid <= pos.stop {
          ClosePosition(j, i, bid - pos.spec.slippage, if pos.beDone then Breakeven else StopLoss);
        } else if bid >= pos.target {
          ClosePosition(j, i, pos.target, Target);
        } else {
          UpdateTwice(old(open), j, pos);
          Hold(j, bid, !pos.beDone && bid >= pos.entry + cfg.breakevenR * pos.RDist(), pos.ticks.ts[i]);
        }
      } else {
        if ask >= pos.stop {
          ClosePosition(j, i, ask + pos.spec.slippage, if pos.beDone then Breakeven else StopLoss);
        } else if ask <= pos.target {
          ClosePosition(j, i, pos.target, Target);
        } else {
          UpdateTwice(old(open), j, pos);
          Hold(j, ask, !pos.beDone && ask <= pos.entry - cfg.breakevenR * pos.RDist(), pos.ticks.ts[i]);
        }
      }
    }

    /** The guard's look at the account; `stop` tells the tick loop to end. */
    method CheckGuard() returns (stop: bool)
      requires PositionsValid(open)
      modifies this
      ensures View() == GuardCheck(old(View()), cfg)
      ensures stop ==> open == []
    {
      var decision := ShouldHalt(Mark(EquityNow(), dayStart, dayStart), cfg.limits);
      stop := decision.Some?;
      if stop {
        halted := decision;
        ghost var breached := View();
        while |open| > 0
          invariant PositionsValid(open)
          invariant FlattenAll(View()) == FlattenAll(breached)
          decreases |open|
        {
          var other := open[0];
          ClosePosition(0, other.idx - 1, MarketExitPrice(other, other.idx - 1), GuardHalt);
        }
      }
    }

    method ServeTick(j: nat, i: nat) returns (stop: bool)
      requires PositionsValid(open)
      requires j < |open| && i == open[j].idx < |open[j].ticks.ts|
      modifies this
      ensures View() == TickOnce(old(View()), j, cfg)
      ensures stop ==> open == []
    {
      OnTick(j, i);
      stop := CheckGuard();
    }

    /** Process the ticks before `until` of all open positions in one merged batch. */
    method AdvanceTo(until: int)
      requires PositionsValid(open) && Increasing(open)
      modifies this
      ensures View() == Advance(old(View()), until, cfg)
    {
      if |open| == 0 {
        return;
      }
      var positions := open;
      var order := BatchOrder(until);
      WalkStarts(open, until);
      hide *;
      WalkBatch(positions, order, until);
    }

    /** Walk the schedule, skipping positions that have closed, until it ends or nothing is open. */
    method WalkBatch(positions: seq<Pos>, order: seq<Event>, until: int)
      requires PositionsValid(open) && Walk(order, positions, open, until)
      modifies this
      ensures View() == Advance(old(View()), until, cfg)
    {
      hide TickOnce, Walk, Advance, NextIndex;
      ghost var before := View();
      var n := 0;
      assert order[0..] == order;
      while n < |order|
        invariant 0 <= n <= |order|
        invariant PositionsValid(open)
        invariant Walk(order[n..], positions, open, until)
        invariant Advance(View(), until, cfg) == Advance(before, until, cfg)
      {
        ghost var rest := order[n..];
        assert rest[1..] == order[n + 1..];
        HeadNames(rest, positions, open, until);
        var j := IndexOf(open, positions[order[n].k].id);
        if j < 0 {
          SkipKeepsWalk(rest, positions, open, until);
        } else {
          ServeStep(View(), rest, positions, until, j, cfg);
          var stop := ServeTick(j, order[n].i);
          if stop || |open| == 0 {
            NothingLeft(View(), until, cfg);
            return;
          }
        }
        n := n + 1;
      }
      assert order[n..] == [];
      WalkDone(positions, open, until);
      NothingLeft(View(), until, cfg);
    }

    /** The pre-trade gate, the sizing and the fill check at tick `i`. */
    method Admit(t: EntryTry, i: nat) returns (lots: Option<real>)
      requires t.Valid() && t.ticks.Some? && i < |t.ticks.value.ts|
      ensures lots == AdmittedLots(View(), t, i, cfg)
    {
      var bid, ask := t.ticks.value.bid[i], t.ticks.value.ask[i];
      var state := AccountState(EquityNow(), dayStart, dayStart, RiskBook(open), consecutiveLosses);
      var projected := ProjectedLoss(t.sig, t.spec, cfg.riskAmount, ask - bid);
      var verdict := CanOpen(t.sig.symbol, t.sig.side, state, t.pastFridayCutoff, cfg.limits, projected);
      if verdict != Allowed {
        return None;
      }
      var size := SizeFor(t.sig, t.spec, cfg.riskAmount);
      if !size.Lots? || size.lots <= 0.0 {
        return None;
      }
      var fill := if t.sig.side == Long then ask + t.spec.slippage else bid - t.spec.slippage;
      if FillBeyondLevels(t.sig, fill) {
        return None;
      }
      return Some(size.lots);
    }

    /** Pay the entry commission and put the new position in the book. */
    method OpenAt(t: EntryTry, i: nat, lots: real)
      requires t.Valid() && t.ticks.Some? && i < |t.ticks.value.ts|
      modifies this
      ensures var p := NewPos(old(View()), t, i, lots);
        View() == Record(old(View()).(cash := old(cash) - p.entryCommission, open := old(open) + [p]), p.entryNs)
    {
      var ticks := t.ticks.value;
      var bid, ask := ticks.bid[i], ticks.ask[i];
      var fill, mark;
      if t.sig.side == Long {
        fill, mark := ask + t.spec.slippage, bid;
      } else {
        fill, mark := bid - t.spec.slippage, ask;
      }
      var commission := t.spec.commissionPerLotSide * lots;
      cash := cash - commission;
      open := open + [Pos(|trades| + |open|, t.sig.symbol, t.sig.side, lots, t.spec,
                          ticks.ts[i], fill, t.sig.stop, t.sig.stop, t.sig.target, t.flattenNs, ticks, i + 1, mark,
                          commission, (ask - bid) * t.spec.ValuePerPriceUnit(lots), false, 0.0, 0.0)];
      MarkPosition(|open| - 1, mark);
      ghost var p := NewPos(old(View()), t, i, lots);
      assert open[|open| - 1] == p;
      assert open == old(open) + [p];
      RecordEquity(ticks.ts[i]);
    }

    /** Try to open what the bar signalled, on the first tick at or after the bar's close. */
    method TryOpenSignal(t: EntryTry, closeNs: int)
      requires t.Valid()
      modifies this
      ensures View() == TryOpen(old(View()), t, closeNs, cfg)
    {
      if t.dayExcluded || halted.Some? || t.ticks.None? {
        return;
      }
      var i := LowerBound(t.ticks.value.ts, closeNs);
      if i >= |t.ticks.value.ts| || t.ticks.value.ts[i] >= t.flattenNs {
        return;
      }
      hide AdmittedLots, NewPos, Record, LowerBound;
      var lots := Admit(t, i);
      if lots.Some? {
        OpenAt(t, i, lots.value);
      }
    }

    method PlayBar(b: BarEvent)
      requires PositionsValid(open) && Increasing(open) && b.Valid()
      modifies this
      ensures View() == BarStep(old(View()), b, cfg)
    {
      AdvanceTo(b.closeNs);
      if b.signal.Some? {
        TryOpenSignal(b.signal.value, b.closeNs);
      }
    }

    /** One trading day: bars in close order, the rest of the ticks, then whatever the ticks left open. */
    method RunDayOf(day: DayInput) returns (row: DayRow)
      requires day.Valid()
      requires Settled(View(), initial)
      modifies this
      ensures View() == RunDay(old(View()), day, cfg)
      ensures row == RowOf(old(View()), View())
      ensures Settled(View(), initial)
    {
      ghost var before := View();
      RunDayKeeps(before, day, initial, cfg);
      StartDayInv(before, initial, cfg);
      var tradesBefore := |trades|;
      open, dayStart, dayLow, dayHigh, consecutiveLosses, halted := [], cash, cash, cash, 0, None;
      ghost var base := Base(initial, cash, trades);
      PlayBars(day.bars, base);
      ReadyForTicks(View(), base, cfg);
      AdvanceTo(day.nextResetNs);
      CloseDataEnd();
      row := DayRow(dayStart, dayLow, dayHigh, cash, |trades| - tradesBefore, halted);
    }

    /** The day's bars in order: the ticks up to each close, then the bar's signal. */
    method PlayBars(bars: seq<BarEvent>, ghost base: Base)
      requires Inv(View(), base, cfg)
      requires forall b :: b in bars ==> b.Valid()
      modifies this
      ensures PositionsValid(old(open))
      ensures View() == DayBars(old(View()), bars, cfg) && Inv(View(), base, cfg)
    {
      ghost var before := View();
      ReadyForTicks(before, base, cfg);
      hide Inv, BarStep;
      assert bars[..0] == [];
      for n := 0 to |bars|
        invariant View() == DayBars(before, bars[..n], cfg)
        invariant Inv(View(), base, cfg)
      {
        assert bars[..n + 1][..n] == bars[..n];
        ReadyForTicks(View(), base, cfg);
        BarKeepsInv(View(), bars[n], base, cfg);
        PlayBar(bars[n]);
      }
      assert bars[..|bars|] == bars;
    }

    method CloseDataEnd()
      requires PositionsValid(open)
      modifies this
      ensures View() == CloseRemaining(old(View()))
    {
      ghost var before := View();
      while |open| > 0
        invariant PositionsValid(open)
        invariant CloseRemaining(View()) == CloseRemaining(before)
        decreases |open|
      {
        ClosePosition(0, open[0].idx - 1, open[0].mark, DataEnd);
      }
    }

    /** The whole backtest: one row per day. */
    method Run(days: seq<DayInput>) returns (rows: seq<DayRow>)
      requires forall d :: d in days ==> d.Valid()
      requires View() == Fresh(initial)
      modifies this
      ensures (View(), rows) == RunDays(Fresh(initial), days, cfg)
      ensures RowsChain(rows, initial) && RowTrades(rows) == |trades|
      ensures Settled(View(), initial)
    {
      rows := [];
      for n := 0 to |days|
        invariant (View(), rows) == RunDays(Fresh(initial), days[..n], cfg)
        invariant Settled(View(), initial)
      {
        assert days[..n + 1][..n] == days[..n];
        var row := RunDayOf(days[n]);
        rows := rows + [row];
      }
      assert days[..|days|] == days;
      RunConserves(initial, days, cfg);
    }

    /** The merged schedule of the batch: segments in open order, then a stable sort by time. */
    method BatchOrder(until: int) returns (order: seq<Event>)
      requires PositionsValid(open)
      ensures order == StableSort(Segments(open, until))
    {
      var segs: seq<Event> := [];
      for k := 0 to |open|
        invariant segs == Segments(open[..k], until)
      {
        assert open[..k + 1][..k] == open[..k];
        segs := segs + Segment(open[k], k, until);
      }
      assert open[..|open|] == open;
      order := StableSort(segs);
    }
  }

  lemma UpdateTwice(open: seq<Pos>, j: nat, p: Pos)
    requires j < |open|
    ensures forall q {:trigger open[j := p][j := q]} :: open[j := p][j := q] == open[j := q]
  {
  }

  lemma ReadyForTicks(e: Engine, base: Base, cfg: Config)
    requires Inv(e, base, cfg)
    ensures PositionsValid(e.open) && Increasing(e.open)
  {
  }

  lemma HeadNames(es: seq<Event>, batch: seq<Pos>, open: seq<Pos>, until: int)
    requires |es| > 0 && Walk(es, batch, open, until)
    ensures es[0].k < |batch|
  {
    assert es[0] in es;
  }

  lemma NothingLeft(e: Engine, until: int, cfg: Config)
    requires PositionsValid(e.open)
    requires e.open == [] || NextIndex(e.open, until) == -1
    ensures Advance(e, until, cfg) == e
  {
  }

  /** Serving the schedule's head is serving the book's next tick, and the walk goes on. */
  lemma ServeStep(e: Engine, es: seq<Event>, batch: seq<Pos>, until: int, j: nat, cfg: Config)
    requires PositionsValid(e.open)
    requires |es| > 0 && Walk(es, batch, e.open, until)
    requires es[0].k < |batch| && j < |e.open| && e.open[j].id == batch[es[0].k].id
    ensures es[0].i == e.open[j].idx < |e.open[j].ticks.ts|
    ensures PositionsValid(TickOnce(e, j, cfg).open)
    ensures Walk(es[1..], batch, TickOnce(e, j, cfg).open, until)
    ensures Advance(TickOnce(e, j, cfg), until, cfg) == Advance(e, until, cfg)
  {
    HeadIsNext(es, batch, e.open, until, j);
    TickProgress(e, j, cfg);
    TickShape(e, j, cfg);
    ServeKeepsWalk(es, batch, e.open, TickOnce(e, j, cfg).open, until, j);
  }

  lemma TickShape(e: Engine, j: nat, cfg: Config)
    requires PositionsValid(e.open)
    requires j < |e.open| && e.open[j].idx < |e.open[j].ticks.ts|
    ensures var open := TickOnce(e, j, cfg).open;
      || open == []
      || open == Without(e.open, j)
      || (|open| == |e.open| && Succeeds(e.open[j], open[j]) && open == e.open[j := open[j]])
  {
    ApplyTickShape(e, j, cfg);
    hide ApplyTick, GuardCheck;
    GuardShape(ApplyTick(e, j, cfg), cfg);
  }

  lemma GuardShape(e: Engine, cfg: Config)
    requires PositionsValid(e.open)
    ensures GuardCheck(e, cfg).open == e.open || GuardCheck(e, cfg).open == []
  {
    var decision := ShouldHalt(Mark(Equity(e), e.dayStart, e.dayStart), cfg.limits);
    if decision.Some? {
      FlattenAllEmpties(e.(halted := decision));
    }
  }

  /** Where the position with identity `id` sits in the book, or -1 when it has closed. */
  function IndexOf(open: seq<Pos>, id: nat): (j: int)
    ensures -1 <= j < |open|
    ensures j >= 0 ==> open[j].id == id
    ensures j == -1 ==> forall m :: 0 <= m < |open| ==> open[m].id != id
  {
    if |open| == 0 then -1
    else if open[|open| - 1].id == id then |open| - 1
    else IndexOf(open[..|open| - 1], id)
  }
}
