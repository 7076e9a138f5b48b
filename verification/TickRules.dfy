/**
 The tick backtest in plain prices: which tick takes a position out of the book, at what price and for
 what reason, when its stop moves, when the guard flattens the account, which signal opens what, and what
 every tick since its entry has been for a position that is still open.
 */
module TickRules {
  import opened Common
  import opened DaySpec
  import opened FtmoRules
  import opened Sizing
  import opened TickAdvance
  import opened TickSpec

  // ------------------------------------------------------------ one tick in prices

  ghost predicate TimeUp(p: Pos, k: nat)
    requires k < |p.ticks.ts|
  {
    p.ticks.ts[k] >= p.flattenNs
  }

  /** The side of the quote the position would be closed on is at the stop or beyond it. */
  ghost predicate StopTouched(p: Pos, k: nat)
    requires p.ticks.Valid() && k < |p.ticks.ts|
  {
    if p.side == Long then p.ticks.bid[k] <= p.stop else p.ticks.ask[k] >= p.stop
  }

  ghost predicate TargetTouched(p: Pos, k: nat)
    requires p.ticks.Valid() && k < |p.ticks.ts|
  {
    if p.side == Long then p.ticks.bid[k] >= p.target else p.ticks.ask[k] <= p.target
  }

  /** From `entry` to `price` is a gain of at least `beR` times the distance to the initial stop. */
  ghost predicate Gained(side: Side, price: real, entry: real, initialStop: real, beR: real) {
    if side == Long then price >= entry + beR * (entry - initialStop) else price <= entry - beR * (initialStop - entry)
  }

  /** The position has gained `beR` times its initial risk. */
  ghost predicate GainReached(p: Pos, k: nat, beR: real)
    requires p.ticks.Valid() && k < |p.ticks.ts|
  {
    Gained(p.side, if p.side == Long then p.ticks.bid[k] else p.ticks.ask[k], p.entry, p.initialStop, beR)
  }

  /** `t` is the record of closing `p` with its `i`-th tick at `price`. */
  ghost predicate ClosedAs(t: Trade, p: Pos, i: nat, price: real, reason: ExitReason)
    requires i < |p.ticks.ts|
  {
    && t.exitPrice == price && t.reason == reason && t.exitTs == p.ticks.ts[i]
    && t.entryTs == p.entryNs && t.entryPrice == p.entry && t.stop == p.stop && t.target == p.target
    && t.symbol == p.symbol && t.side == p.side && t.lots == p.lots && t.spreadCost == p.spreadCost
    && t.commission == p.entryCommission + p.spec.commissionPerLotSide * p.lots
    && t.pnl == (if p.side == Long then price - p.entry else p.entry - price)
                * (p.lots * p.spec.contractSize * p.spec.quoteToAccount)
                - p.entryCommission - p.spec.commissionPerLotSide * p.lots
    && t.mae <= t.pnl && t.mae <= p.mae && t.mae in {t.pnl, p.mae}
    && t.mfe >= t.pnl && t.mfe >= p.mfe && t.mfe in {t.pnl, p.mfe}
  }

  /** What a close by trade `t` leaves of the account: one position, one trade, cash and streak moved on. */
  ghost predicate AccountAfter(e: Engine, r: Engine, j: nat, t: Trade)
    requires j < |e.open|
  {
    && r.open == e.open[..j] + e.open[j + 1..]
    && r.trades == e.trades + [t]
    && r.cash == e.cash + t.pnl + e.open[j].entryCommission
    && r.consecutiveLosses == (if t.pnl < 0.0 then e.consecutiveLosses + 1 else 0)
    && r.dayStart == e.dayStart && r.halted == e.halted
  }

  lemma CloseIs(e: Engine, j: nat, i: nat, price: real, reason: ExitReason)
    requires j < |e.open| && i < |e.open[j].ticks.ts|
    ensures var r := Close(e, j, i, price, reason);
      && |r.trades| == |e.trades| + 1
      && ClosedAs(r.trades[|e.trades|], e.open[j], i, price, reason)
      && AccountAfter(e, r, j, r.trades[|e.trades|])
  {
  }

  /**
   The tick leaves the position out of the book exactly when it is at or past the time exit, or at or
   beyond the stop, or at or beyond the target. The time exit comes first and the stop second; both
   trade on the touched side less one slippage, and the target fills at its own price.
   */
  lemma TickExitsExactly(e: Engine, j: nat, cfg: Config)
    requires PositionsValid(e.open)
    requires j < |e.open| && e.open[j].idx < |e.open[j].ticks.ts| && PosSound(e.open[j])
    ensures var p := e.open[j]; var i := p.idx; var r := ApplyTick(e, j, cfg);
      && (r.open == e.open[..j] + e.open[j + 1..] <==> TimeUp(p, i) || StopTouched(p, i) || TargetTouched(p, i))
      && (TimeUp(p, i) || StopTouched(p, i) || TargetTouched(p, i) ==>
            && |r.trades| == |e.trades| + 1
            && AccountAfter(e, r, j, r.trades[|e.trades|])
            && ClosedAs(r.trades[|e.trades|], p, i,
                 (if !TimeUp(p, i) && !StopTouched(p, i) then p.target
                  else if p.side == Long then p.ticks.bid[i] - p.spec.slippage
                  else p.ticks.ask[i] + p.spec.slippage),
                 (if TimeUp(p, i) then TimeExit
                  else if !StopTouched(p, i) then Target
                  else if p.stop == p.entry then Breakeven else StopLoss)))
  {
    hide Close, ClosedAs, AccountAfter;
    var i := e.open[j].idx;
    match Resolve(e.open[j].(idx := i + 1), i, cfg.breakevenR) {
      case Exit(price, reason) => ExitIs(e, j, price, reason, cfg);
      case Stay(q) => assert |ApplyTick(e, j, cfg).open| == |e.open|;
    }
  }

  lemma ExitIs(e: Engine, j: nat, price: real, reason: ExitReason, cfg: Config)
    requires PositionsValid(e.open)
    requires j < |e.open| && e.open[j].idx < |e.open[j].ticks.ts|
    requires Resolve(e.open[j].(idx := e.open[j].idx + 1), e.open[j].idx, cfg.breakevenR) == Exit(price, reason)
    ensures var r := ApplyTick(e, j, cfg);
      && |r.trades| == |e.trades| + 1
      && ClosedAs(r.trades[|e.trades|], e.open[j], e.open[j].idx, price, reason)
      && AccountAfter(e, r, j, r.trades[|e.trades|])
      && r.open == e.open[..j] + e.open[j + 1..]
  {
    hide Resolve, Close;
    var i := e.open[j].idx;
    var e1 := e.(open := e.open[j := e.open[j].(idx := i + 1)]);
    CloseIs(e1, j, i, price, reason);
    assert e1.open[..j] + e1.open[j + 1..] == e.open[..j] + e.open[j + 1..];
  }

  /** `q` is `p` held through tick `i` of touched price `price`: new mark, widened excursions, and `stop`. */
  ghost predicate HeldAs(q: Pos, p: Pos, price: real, stop: real) {
    var gain := (if p.side == Long then price - p.entry else p.entry - price)
                * (p.lots * p.spec.contractSize * p.spec.quoteToAccount) - p.entryCommission;
    && q == p.(idx := p.idx + 1, mark := price, stop := stop, beDone := q.beDone, mae := q.mae, mfe := q.mfe)
    && q.mae <= gain && q.mae <= p.mae && q.mae in {gain, p.mae}
    && q.mfe >= gain && q.mfe >= p.mfe && q.mfe in {gain, p.mfe}
  }

  /**
   A position the tick leaves in the book has its stop at the entry exactly when it already was there or
   the touched side has gained the breakeven multiple of the initial risk; otherwise the stop stays.
   Nothing else of the account moves.
   */
  lemma TickHoldsExactly(e: Engine, j: nat, cfg: Config)
    requires PositionsValid(e.open)
    requires j < |e.open| && e.open[j].idx < |e.open[j].ticks.ts| && PosSound(e.open[j])
    requires var p := e.open[j];
      !TimeUp(p, p.idx) && !StopTouched(p, p.idx) && !TargetTouched(p, p.idx)
    ensures var p := e.open[j]; var i := p.idx; var r := ApplyTick(e, j, cfg);
      && |r.open| == |e.open| && r.open == e.open[j := r.open[j]]
      && HeldAs(r.open[j], p, if p.side == Long then p.ticks.bid[i] else p.ticks.ask[i], r.open[j].stop)
      && (r.open[j].stop == p.entry <==> p.stop == p.entry || GainReached(p, i, cfg.breakevenR))
      && (r.open[j].stop != p.entry ==> r.open[j].stop == p.stop)
      && (r.open[j].beDone <==> r.open[j].stop == p.entry)
      && r.trades == e.trades && r.cash == e.cash && r.consecutiveLosses == e.consecutiveLosses
      && r.dayStart == e.dayStart && r.halted == e.halted
  {
    var p := e.open[j];
    StayIs(p, cfg.breakevenR);
    hide Equity, Resolve, HeldAs, GainReached, TimeUp, StopTouched, TargetTouched, PosSound;
    assert e.open[j := p.(idx := p.idx + 1)][j := p] == e.open;
  }

  /** What a tick that reaches nothing makes of its position. */
  lemma StayIs(p: Pos, beR: real)
    requires PosSound(p) && p.idx < |p.ticks.ts|
    requires !TimeUp(p, p.idx) && !StopTouched(p, p.idx) && !TargetTouched(p, p.idx)
    ensures var o := Resolve(p.(idx := p.idx + 1), p.idx, beR);
      && o.Stay?
      && HeldAs(o.pos, p, if p.side == Long then p.ticks.bid[p.idx] else p.ticks.ask[p.idx], o.pos.stop)
      && (o.pos.stop == p.entry <==> p.stop == p.entry || GainReached(p, p.idx, beR))
      && (o.pos.stop != p.entry ==> o.pos.stop == p.stop)
      && (o.pos.beDone <==> o.pos.stop == p.entry)
  {
    var i := p.idx;
    var touched := if p.side == Long then p.ticks.bid[i] else p.ticks.ask[i];
    var q := p.(idx := i + 1);
    var moves := !p.beDone && GainReached(p, i, beR);
    assert Resolve(q, i, beR) == Stay(MarkPos(if moves then q.(stop := q.entry, beDone := true) else q, touched));
    hide Resolve, GainReached, TimeUp, StopTouched, TargetTouched;
    MarkHolds(p, p.(idx := i + 1), touched);
    MarkHolds(p, p.(idx := i + 1, stop := p.entry, beDone := true), touched);
    hide MarkPos, HeldAs;
  }

  lemma MarkHolds(p: Pos, q: Pos, price: real)
    requires q == p.(idx := p.idx + 1, stop := q.stop, beDone := q.beDone)
    ensures HeldAs(MarkPos(q, price), p, price, q.stop)
    ensures MarkPos(q, price).stop == q.stop && MarkPos(q, price).beDone == q.beDone
  {
  }

  // ------------------------------------------------------------ the account and its guard

  /** `floats` are the open positions' unrealized gains at their marks. */
  ghost predicate FloatsOf(floats: seq<real>, open: seq<Pos>) {
    && |floats| == |open|
    && forall i :: 0 <= i < |open| ==>
         floats[i] == (if open[i].side == Long then open[i].mark - open[i].entry else open[i].entry - open[i].mark)
                      * (open[i].lots * open[i].spec.contractSize * open[i].spec.quoteToAccount)
  }

  lemma EquityIs(e: Engine, floats: seq<real>)
    requires FloatsOf(floats, e.open)
    ensures Equity(e) == e.cash + Sum(floats)
  {
    var actual := Floating(e.open);
    forall i | 0 <= i < |floats| ensures actual[i] == floats[i] {
      assert actual[i] == e.open[i].Unrealized(e.open[i].mark);
    }
    assert actual == floats;
  }

  /** Closed trades `ts[n..]` are the guard's: each open position in order, at its last tick and one slippage worse. */
  ghost predicate FlattenedAs(trades: seq<Trade>, n: nat, open: seq<Pos>)
    requires PositionsValid(open)
  {
    && |trades| == n + |open|
    && forall k :: 0 <= k < |open| ==> FlattenTrade(trades[n + k], open[k])
  }

  ghost predicate FlattenTrade(t: Trade, p: Pos)
    requires p.Valid()
  {
    ClosedAs(t, p, p.idx - 1,
             if p.side == Long then p.ticks.bid[p.idx - 1] - p.spec.slippage
             else p.ticks.ask[p.idx - 1] + p.spec.slippage,
             GuardHalt)
  }

  lemma {:induction false} FlattenAllIs(e: Engine)
    requires PositionsValid(e.open)
    ensures var r := FlattenAll(e);
      && r.open == [] && r.halted == e.halted && r.dayStart == e.dayStart
      && e.trades <= r.trades && FlattenedAs(r.trades, |e.trades|, e.open)
    decreases |e.open|
  {
    hide Record, TradeOf;
    if |e.open| > 0 {
      var p := e.open[0];
      var price := MarketExitPrice(p, p.idx - 1);
      var e1 := Close(e, 0, p.idx - 1, price, GuardHalt);
      CloseIs(e, 0, p.idx - 1, price, GuardHalt);
      assert e1.open == e.open[1..];
      assert FlattenTrade(e1.trades[|e.trades|], p);
      hide ClosedAs, AccountAfter, FlattenTrade, MarketExitPrice, Close;
      FlattenAllIs(e1);
      var trades := FlattenAll(e).trades;
      assert trades[|e.trades|] == e1.trades[|e.trades|];
      forall k | 0 <= k < |e.open| ensures FlattenTrade(trades[|e.trades| + k], e.open[k]) {
        if k > 0 { assert e.open[k] == e1.open[k - 1]; }
      }
    }
  }

  /**
   The guard after a tick: a loss from the day's start that reaches the overall or the daily limit halts the
   account, the overall limit first, and closes every position in order at its last processed tick; any
   smaller loss changes nothing.
   */
  lemma GuardHaltsExactly(e: Engine, floats: seq<real>, cfg: Config)
    requires PositionsValid(e.open) && FloatsOf(floats, e.open)
    ensures var loss := e.dayStart - (e.cash + Sum(floats)); var r := GuardCheck(e, cfg);
      var overall := loss >= cfg.limits.initialBalance * cfg.limits.overallLossPct;
      var daily := loss >= cfg.limits.initialBalance * cfg.limits.dailyLossPct;
      && (!overall && !daily ==> r == e)
      && (overall || daily ==>
            && r.halted == Some(if overall then Overall else Daily)
            && r.open == [] && e.trades <= r.trades
            && FlattenedAs(r.trades, |e.trades|, e.open))
  {
    hide FlattenedAs, Equity, FloatsOf, GuardCheck, Sum;
    EquityIs(e, floats);
    GuardIs(e, ShouldHalt(Mark(Equity(e), e.dayStart, e.dayStart), cfg.limits), cfg);
  }

  lemma GuardIs(e: Engine, decision: Option<HaltKind>, cfg: Config)
    requires PositionsValid(e.open)
    requires decision == ShouldHalt(Mark(Equity(e), e.dayStart, e.dayStart), cfg.limits)
    ensures var r := GuardCheck(e, cfg);
      && (decision.None? ==> r == e)
      && (decision.Some? ==>
            r.halted == decision && r.open == [] && e.trades <= r.trades && FlattenedAs(r.trades, |e.trades|, e.open))
  {
    hide FlattenedAs, FlattenAll, Equity, ShouldHalt, PositionsValid;
    if decision.Some? { FlattenAllIs(e.(halted := decision)); }
  }

  /** Positions `open` closed in order at their last marks when the day's ticks ran out. */
  ghost predicate DataEndTrade(t: Trade, p: Pos)
    requires p.Valid()
  {
    ClosedAs(t, p, p.idx - 1, p.mark, DataEnd)
  }

  lemma {:induction false} CloseRemainingIs(e: Engine)
    requires PositionsValid(e.open)
    ensures var r := CloseRemaining(e);
      && r.open == [] && r.halted == e.halted
      && e.trades <= r.trades && |r.trades| == |e.trades| + |e.open|
      && forall k :: 0 <= k < |e.open| ==> DataEndTrade(r.trades[|e.trades| + k], e.open[k])
    decreases |e.open|
  {
    hide Record, TradeOf;
    if |e.open| > 0 {
      var p := e.open[0];
      var e1 := Close(e, 0, p.idx - 1, p.mark, DataEnd);
      CloseIs(e, 0, p.idx - 1, p.mark, DataEnd);
      assert e1.open == e.open[1..];
      assert DataEndTrade(e1.trades[|e.trades|], p);
      hide ClosedAs, AccountAfter, DataEndTrade, Close;
      CloseRemainingIs(e1);
      var trades := CloseRemaining(e).trades;
      assert trades[|e.trades|] == e1.trades[|e.trades|];
      forall k | 0 <= k < |e.open| ensures DataEndTrade(trades[|e.trades| + k], e.open[k]) {
        if k > 0 { assert e.open[k] == e1.open[k - 1]; }
      }
    }
  }

  // ------------------------------------------------------------ entries

  /** Tick `i` is the first at or after `closeNs`. */
  ghost predicate FirstTickFrom(ticks: Ticks, closeNs: int, i: nat) {
    && i < |ticks.ts| && ticks.ts[i] >= closeNs
    && forall k :: 0 <= k < i ==> ticks.ts[k] < closeNs
  }

  /** The position a signal opens: filled one slippage beyond the far side of tick `i`, marked on the near side. */
  ghost predicate OpenedAs(p: Pos, t: EntryTry, i: nat, lots: real)
    requires t.ticks.Some? && t.ticks.value.Valid() && i < |t.ticks.value.ts|
  {
    var bid := t.ticks.value.bid[i];
    var ask := t.ticks.value.ask[i];
    && p.symbol == t.sig.symbol && p.side == t.sig.side && p.lots == lots && p.spec == t.spec
    && p.entryNs == t.ticks.value.ts[i] && p.flattenNs == t.flattenNs
    && p.entry == (if p.side == Long then ask + t.spec.slippage else bid - t.spec.slippage)
    && p.mark == (if p.side == Long then bid else ask)
    && p.stop == p.initialStop == t.sig.stop && p.target == t.sig.target && !p.beDone
    && p.ticks == t.ticks.value && p.idx == i + 1
    && p.entryCommission == t.spec.commissionPerLotSide * lots
    && p.spreadCost == (ask - bid) * (lots * t.spec.contractSize * t.spec.quoteToAccount)
    && var gain := (if p.side == Long then p.mark - p.entry else p.entry - p.mark)
                   * (lots * t.spec.contractSize * t.spec.quoteToAccount) - p.entryCommission;
       p.mae == (if gain < 0.0 then gain else 0.0) && p.mfe == (if gain > 0.0 then gain else 0.0)
  }

  /** The price the signal would fill at on tick `i`. */
  ghost predicate FillInsideLevels(t: EntryTry, i: nat)
    requires t.ticks.Some? && t.ticks.value.Valid() && i < |t.ticks.value.ts|
  {
    if t.sig.side == Long then t.sig.stop < t.ticks.value.ask[i] + t.spec.slippage < t.sig.target
    else t.sig.target < t.ticks.value.bid[i] - t.spec.slippage < t.sig.stop
  }

  lemma FirstIsLowerBound(ticks: Ticks, closeNs: int, i: nat)
    requires ticks.Valid() && FirstTickFrom(ticks, closeNs, i)
    ensures LowerBound(ticks.ts, closeNs) == i
  {
    var r := LowerBound(ticks.ts, closeNs);
    if r < |ticks.ts| { NotInPrefix(ticks.ts, closeNs, i, r); }
    NotInPrefix(ticks.ts, closeNs, r, i);
  }

  lemma NotInPrefix(ts: seq<int>, t: int, n: nat, k: nat)
    requires n <= |ts| && k < |ts| && ts[k] >= t
    requires forall i :: 0 <= i < n ==> ts[i] < t
    ensures n <= k
  {
  }

  /** `state` is the account as the gate is shown it: its equity, both references the day's start, and each position's stop risk. */
  ghost predicate StateShows(state: AccountState, e: Engine, floats: seq<real>) {
    && state.equity == e.cash + Sum(floats)
    && state.dayBaseline == e.dayStart && state.overallReference == e.dayStart
    && state.consecutiveLossesToday == e.consecutiveLosses
    && |state.openPositions| == |e.open|
    && forall i :: 0 <= i < |e.open| ==>
         state.openPositions[i] == OpenPosition(e.open[i].symbol, e.open[i].side,
           RiskToStop(e.open[i].side, e.open[i].lots, e.open[i].mark, e.open[i].stop, e.open[i].spec))
  }

  lemma StateIs(state: AccountState, e: Engine, floats: seq<real>)
    requires FloatsOf(floats, e.open) && StateShows(state, e, floats)
    ensures StateOf(e) == state
  {
    EquityIs(e, floats);
    assert RiskBook(e.open) == state.openPositions;
  }

  /**
   The day is not excluded, nothing has halted, tick `i` is before the time exit, the gate admits the projected
   loss at that tick's spread, the size is positive and the fill lies strictly between stop and target.
   */
  ghost predicate SignalOpens(e: Engine, t: EntryTry, i: nat, state: AccountState, cfg: Config)
    requires t.Valid() && t.ticks.Some? && i < |t.ticks.value.ts|
  {
    && !t.dayExcluded && e.halted.None? && t.ticks.value.ts[i] < t.flattenNs
    && CanOpen(t.sig.symbol, t.sig.side, state, t.pastFridayCutoff, cfg.limits,
               ProjectedLoss(t.sig, t.spec, cfg.riskAmount, t.ticks.value.ask[i] - t.ticks.value.bid[i])) == Allowed
    && SizeFor(t.sig, t.spec, cfg.riskAmount).Lots? && SizeFor(t.sig, t.spec, cfg.riskAmount).lots > 0.0
    && FillInsideLevels(t, i)
  }

  lemma AdmittedExactly(e: Engine, t: EntryTry, i: nat, closeNs: int, cfg: Config)
    requires t.Valid() && t.ticks.Some? && FirstTickFrom(t.ticks.value, closeNs, i)
    ensures SignalOpens(e, t, i, StateOf(e), cfg) <==> EntryTick(e, t, closeNs) == Some(i) && AdmittedLots(e, t, i, cfg).Some?
    ensures EntryTick(e, t, closeNs).Some? ==> EntryTick(e, t, closeNs) == Some(i)
    ensures AdmittedLots(e, t, i, cfg).Some? ==>
      Lots(AdmittedLots(e, t, i, cfg).value) == SizeFor(t.sig, t.spec, cfg.riskAmount)
  {
    FirstIsLowerBound(t.ticks.value, closeNs, i);
    hide CanOpen, SizeFor, ProjectedLoss, StateOf, LowerBound, FirstTickFrom;
  }

  /**
   With `i` the first tick at or after the bar's close, a signal opens a position exactly under `SignalOpens`,
   with these terms, and otherwise changes nothing.
   */
  lemma EntryExactly(e: Engine, t: EntryTry, i: nat, closeNs: int, state: AccountState, floats: seq<real>, cfg: Config)
    requires t.Valid() && t.ticks.Some? && FirstTickFrom(t.ticks.value, closeNs, i)
    requires FloatsOf(floats, e.open) && StateShows(state, e, floats)
    ensures var r := TryOpen(e, t, closeNs, cfg);
      && (!SignalOpens(e, t, i, state, cfg) ==> r == e)
      && (SignalOpens(e, t, i, state, cfg) ==>
            var lots := SizeFor(t.sig, t.spec, cfg.riskAmount).lots;
            && |r.open| == |e.open| + 1 && r.open[..|e.open|] == e.open
            && OpenedAs(r.open[|e.open|], t, i, lots)
            && r.cash == e.cash - t.spec.commissionPerLotSide * lots
            && r.trades == e.trades && r.consecutiveLosses == e.consecutiveLosses
            && r.dayStart == e.dayStart && r.halted.None?)
  {
    StateIs(state, e, floats);
    AdmittedExactly(e, t, i, closeNs, cfg);
    TryOpenIs(e, t, closeNs, cfg);
    assert SignalOpens(e, t, i, state, cfg) ==> e.halted.None?;
    if AdmittedLots(e, t, i, cfg).Some? {
      NewPosIs(e, t, i, AdmittedLots(e, t, i, cfg).value);
    }
    hide *;
  }

  lemma NewPosIs(e: Engine, t: EntryTry, i: nat, lots: real)
    requires t.Valid() && t.ticks.Some? && i < |t.ticks.value.ts|
    ensures OpenedAs(NewPos(e, t, i, lots), t, i, lots)
    ensures NewPos(e, t, i, lots).entryCommission == t.spec.commissionPerLotSide * lots
  {
  }

  lemma TryOpenIs(e: Engine, t: EntryTry, closeNs: int, cfg: Config)
    requires t.Valid()
    ensures var r := TryOpen(e, t, closeNs, cfg);
      match EntryTick(e, t, closeNs)
      case None => r == e
      case Some(i) =>
        match AdmittedLots(e, t, i, cfg)
        case None => r == e
        case Some(lots) =>
          && r.open == e.open + [NewPos(e, t, i, lots)]
          && r.cash == e.cash - NewPos(e, t, i, lots).entryCommission
          && r.trades == e.trades && r.consecutiveLosses == e.consecutiveLosses
          && r.dayStart == e.dayStart && r.halted == e.halted
  {
    hide EntryTick, AdmittedLots, NewPos, Equity;
  }

  /** Without a tick at or after the bar's close the signal opens nothing. */
  lemma NoTickNoEntry(e: Engine, t: EntryTry, closeNs: int, cfg: Config)
    requires t.Valid()
    requires t.ticks.None? || forall k :: 0 <= k < |t.ticks.value.ts| ==> t.ticks.value.ts[k] < closeNs
    ensures TryOpen(e, t, closeNs, cfg) == e
  {
  }

  // ------------------------------------------------------------ positions that are still open

  /** Tick `k` did not reach the time exit, the initial stop or the target. */
  ghost predicate Clear(p: Pos, k: nat)
    requires p.ticks.Valid() && k < |p.ticks.ts|
  {
    && p.ticks.ts[k] < p.flattenNs
    && (if p.side == Long then p.initialStop < p.ticks.bid[k] < p.target
        else p.target < p.ticks.ask[k] < p.initialStop)
  }

  /** Tick `k` stayed on the winning side of the entry. */
  ghost predicate ClearOfEntry(p: Pos, k: nat)
    requires p.ticks.Valid() && k < |p.ticks.ts|
  {
    if p.side == Long then p.ticks.bid[k] > p.entry else p.ticks.ask[k] < p.entry
  }

  /**
   A position's life since its entry on tick `first`: every tick served was clear, its stop is at the entry
   exactly when some tick gained the breakeven multiple, and every tick after that one stayed clear of the entry.
   */
  ghost predicate Lived(p: Pos, first: nat, beR: real)
    requires p.Valid()
  {
    && first < p.idx && p.entryNs == p.ticks.ts[first]
    && (forall k :: first < k < p.idx ==> Clear(p, k))
    && (!p.beDone ==> p.stop == p.initialStop && forall k :: first < k < p.idx ==> !GainReached(p, k, beR))
    && (p.beDone ==> p.stop == p.entry && exists m :: first < m < p.idx && MovedAt(p, first, m, beR))
  }

  /** Tick `m` is the first to gain the breakeven multiple; later ticks stayed clear of the entry. */
  ghost predicate MovedAt(p: Pos, first: nat, m: nat, beR: real)
    requires p.Valid() && first < m < p.idx
  {
    && GainReached(p, m, beR)
    && (forall k :: first < k < m ==> !GainReached(p, k, beR))
    && (forall k :: m < k < p.idx ==> ClearOfEntry(p, k))
  }

  ghost predicate HasLived(p: Pos, beR: real)
    requires p.Valid()
  {
    exists first :: 0 <= first < p.idx && Lived(p, first, beR)
  }

  ghost predicate AllLived(open: seq<Pos>, beR: real) {
    PositionsValid(open) && forall j :: 0 <= j < |open| ==> HasLived(open[j], beR)
  }

  /** Holding a position through one more tick continues its life. */
  lemma HoldContinuesLife(p: Pos, q: Pos, first: nat, beR: real)
    requires PosSound(p) && p.idx < |p.ticks.ts| && Lived(p, first, beR)
    requires !TimeUp(p, p.idx) && !StopTouched(p, p.idx) && !TargetTouched(p, p.idx)
    requires q == p.(idx := p.idx + 1, mark := q.mark, stop := q.stop, beDone := q.beDone, mae := q.mae, mfe := q.mfe)
    requires q.stop == p.entry <==> p.stop == p.entry || GainReached(p, p.idx, beR)
    requires q.stop != p.entry ==> q.stop == p.stop
    requires q.beDone <==> q.stop == p.entry
    ensures q.Valid() && Lived(q, first, beR)
  {
    hide Clear, StopTouched, TargetTouched, GainReached;
    assert p.stop == p.entry <==> p.beDone;
    StaysClear(p, q, first, beR);
    forall k | first < k < q.idx ensures GainReached(q, k, beR) == GainReached(p, k, beR) {
      SameGain(p, q, k, beR);
    }
    if p.beDone { StaysMoved(p, q, first, beR); }
    if q.beDone && !p.beDone { assert MovedAt(q, first, p.idx, beR); }
  }

  lemma SameGain(p: Pos, q: Pos, k: nat, beR: real)
    requires p.ticks.Valid() && q.ticks == p.ticks && k < |p.ticks.ts|
    requires q.side == p.side && q.entry == p.entry && q.initialStop == p.initialStop
    ensures GainReached(q, k, beR) == GainReached(p, k, beR)
  {
    hide Gained;
  }

  lemma StaysClear(p: Pos, q: Pos, first: nat, beR: real)
    requires PosSound(p) && p.idx < |p.ticks.ts| && Lived(p, first, beR)
    requires !TimeUp(p, p.idx) && !StopTouched(p, p.idx) && !TargetTouched(p, p.idx)
    requires q == p.(idx := p.idx + 1, mark := q.mark, stop := q.stop, beDone := q.beDone, mae := q.mae, mfe := q.mfe)
    ensures q.Valid() && forall k :: first < k < q.idx ==> Clear(q, k)
  {
    hide GainReached, MovedAt;
    forall k | first < k < q.idx ensures Clear(q, k) {
      if k < p.idx { assert Clear(p, k); }
    }
  }

  lemma StaysMoved(p: Pos, q: Pos, first: nat, beR: real)
    requires p.Valid() && p.beDone && p.stop == p.entry && p.idx < |p.ticks.ts| && Lived(p, first, beR)
    requires !StopTouched(p, p.idx)
    requires q == p.(idx := p.idx + 1, mark := q.mark, stop := p.entry, beDone := true, mae := q.mae, mfe := q.mfe)
    ensures exists m :: first < m < q.idx && MovedAt(q, first, m, beR)
  {
    hide Clear, GainReached;
    var m :| first < m < p.idx && MovedAt(p, first, m, beR);
    forall k | m < k < q.idx ensures ClearOfEntry(q, k) {
      if k < p.idx { assert ClearOfEntry(p, k); }
    }
    forall k | first < k <= m ensures GainReached(q, k, beR) == GainReached(p, k, beR) {
      SameGain(p, q, k, beR);
    }
    assert MovedAt(q, first, m, beR);
  }

  lemma TickContinuesLives(e: Engine, j: nat, base: Base, cfg: Config)
    requires Inv(e, base, cfg) && AllLived(e.open, cfg.breakevenR)
    requires j < |e.open| && e.open[j].idx < |e.open[j].ticks.ts|
    ensures AllLived(ApplyTick(e, j, cfg).open, cfg.breakevenR)
  {
    var p := e.open[j];
    assert PosSound(p);
    var open := ApplyTick(e, j, cfg).open;
    assert PositionsValid(open);
    if TimeUp(p, p.idx) || StopTouched(p, p.idx) || TargetTouched(p, p.idx) {
      TickExitsExactly(e, j, cfg);
      hide *;
      LivesWithout(e.open, j, cfg.breakevenR);
    } else {
      TickHoldsExactly(e, j, cfg);
      assert HasLived(p, cfg.breakevenR);
      var first :| 0 <= first < p.idx && Lived(p, first, cfg.breakevenR);
      HoldContinuesLife(p, open[j], first, cfg.breakevenR);
      assert HasLived(open[j], cfg.breakevenR);
      hide ApplyTick, Inv, HasLived, PosSound;
    }
  }

  lemma LivesWithout(open: seq<Pos>, j: nat, beR: real)
    requires j < |open| && AllLived(open, beR)
    ensures AllLived(open[..j] + open[j + 1..], beR)
  {
    hide HasLived;
  }

  lemma {:induction false} AdvanceContinuesLives(e: Engine, until: int, base: Base, cfg: Config)
    requires Inv(e, base, cfg) && AllLived(e.open, cfg.breakevenR)
    ensures PositionsValid(e.open)
    ensures AllLived(Advance(e, until, cfg).open, cfg.breakevenR)
    decreases TicksLeft(e.open)
  {
    InvValid(e, base, cfg);
    var j := NextIndex(e.open, until);
    hide Inv, AllLived, ApplyTick;
    if j != -1 {
      var e1 := ApplyTick(e, j, cfg);
      TickContinuesLives(e, j, base, cfg);
      TickKeepsInv(e, j, base, cfg);
      TickProgress(e, j, cfg);
      GuardKeepsLives(e1, cfg);
      AdvanceContinuesLives(TickOnce(e, j, cfg), until, base, cfg);
    }
  }

  lemma GuardKeepsLives(e: Engine, cfg: Config)
    requires PositionsValid(e.open) && AllLived(e.open, cfg.breakevenR)
    ensures AllLived(GuardCheck(e, cfg).open, cfg.breakevenR)
  {
    var decision := ShouldHalt(Mark(Equity(e), e.dayStart, e.dayStart), cfg.limits);
    if decision.Some? { FlattenAllEmpties(e.(halted := decision)); }
  }

  lemma EntryStartsLife(e: Engine, t: EntryTry, closeNs: int, base: Base, cfg: Config)
    requires t.Valid() && Inv(e, base, cfg) && AllLived(e.open, cfg.breakevenR)
    ensures AllLived(TryOpen(e, t, closeNs, cfg).open, cfg.breakevenR)
  {
    TryOpenIs(e, t, closeNs, cfg);
    var tick := EntryTick(e, t, closeNs);
    if tick.Some? {
      var lots := AdmittedLots(e, t, tick.value, cfg);
      if lots.Some? {
        var p := NewPos(e, t, tick.value, lots.value);
        hide Inv, TryOpen, EntryTick, AdmittedLots;
        assert p.Valid() && Lived(p, tick.value, cfg.breakevenR);
        assert HasLived(p, cfg.breakevenR);
        hide NewPos, HasLived;
      }
    }
  }

  lemma {:induction false} DayContinuesLives(e: Engine, bars: seq<BarEvent>, base: Base, cfg: Config)
    requires Inv(e, base, cfg) && AllLived(e.open, cfg.breakevenR)
    requires PositionsValid(e.open)
    requires forall b :: b in bars ==> b.Valid()
    ensures AllLived(DayBars(e, bars, cfg).open, cfg.breakevenR)
  {
    hide Inv, AllLived, TryOpen;
    if |bars| > 0 {
      var n := |bars| - 1;
      DayContinuesLives(e, bars[..n], base, cfg);
      DayBarsKeepInv(e, bars[..n], base, cfg);
      var e1 := DayBars(e, bars[..n], cfg);
      AdvanceContinuesLives(e1, bars[n].closeNs, base, cfg);
      AdvanceKeepsInv(e1, bars[n].closeNs, base, cfg);
      assert bars[n].Valid();
      if bars[n].signal.Some? {
        EntryStartsLife(Advance(e1, bars[n].closeNs, cfg), bars[n].signal.value, bars[n].closeNs, base, cfg);
      }
    }
  }

  /**
   No exit is ever missed: whatever the day's bars, a position open at `until` has been served every tick
   before `until`, and none of them since its entry reached its time exit, its target or the stop it had then.
   */
  lemma OpenMeansUntouched(e: Engine, bars: seq<BarEvent>, until: int, initial: real, cfg: Config)
    requires Settled(e, initial)
    requires forall b :: b in bars ==> b.Valid()
    ensures var open := Advance(DayBars(StartDay(e), bars, cfg), until, cfg).open;
      && AllLived(open, cfg.breakevenR)
      && forall j, k :: 0 <= j < |open| && open[j].idx <= k < |open[j].ticks.ts| ==> open[j].ticks.ts[k] >= until
  {
    var base := Base(initial, e.cash, e.trades);
    StartDayInv(e, initial, cfg);
    DayContinuesLives(StartDay(e), bars, base, cfg);
    DayBarsKeepInv(StartDay(e), bars, base, cfg);
    var e1 := DayBars(StartDay(e), bars, cfg);
    hide Inv, DayBars, StartDay, AllLived;
    AdvanceContinuesLives(e1, until, base, cfg);
    AdvanceExhausts(e1, until, cfg);
    var open := Advance(e1, until, cfg).open;
    assert PositionsValid(open);
    forall j, k | 0 <= j < |open| && open[j].idx <= k < |open[j].ticks.ts| ensures open[j].ticks.ts[k] >= until {
      assert !open[j].HasTick(until);
      assert open[j].ticks.ts[open[j].idx] <= open[j].ticks.ts[k];
    }
  }

  // ------------------------------------------------------------ the day's record

  /** Where a day begins in the equity curve and in the trade list. */
  datatype DayMarks = DayMarks(points: nat, trades: nat)

  /** `value` is among the equities recorded from curve point `n` on. */
  ghost predicate Recorded(e: Engine, n: nat, value: real) {
    exists k :: n <= k < |e.curve| && e.curve[k].1 == value
  }

  /** The day's low and high are the least and the greatest of its opening equity and its recorded equities. */
  ghost predicate RangeExact(e: Engine, n: nat) {
    && n <= |e.curve|
    && e.dayLow <= e.dayStart <= e.dayHigh
    && (forall k :: n <= k < |e.curve| ==> e.dayLow <= e.curve[k].1 <= e.dayHigh)
    && (e.dayLow == e.dayStart || Recorded(e, n, e.dayLow))
    && (e.dayHigh == e.dayStart || Recorded(e, n, e.dayHigh))
  }

  /** The loss streak is the number of losing trades since the day's last trade that did not lose. */
  ghost predicate StreakExact(e: Engine, m: nat) {
    && 0 <= e.consecutiveLosses && m + e.consecutiveLosses <= |e.trades|
    && (forall k :: |e.trades| - e.consecutiveLosses <= k < |e.trades| ==> e.trades[k].pnl < 0.0)
    && (m + e.consecutiveLosses < |e.trades| ==> e.trades[|e.trades| - e.consecutiveLosses - 1].pnl >= 0.0)
  }

  ghost predicate LostLimit(loss: real, kind: HaltKind, limits: Limits) {
    if kind == Overall then loss >= limits.initialBalance * limits.overallLossPct
    else loss >= limits.initialBalance * limits.dailyLossPct
  }

  /** A halt of either kind comes with a recorded equity that has lost its limit. */
  ghost predicate HaltRecorded(e: Engine, n: nat, limits: Limits) {
    e.halted.Some? ==> exists v :: Recorded(e, n, v) && LostLimit(e.dayStart - v, e.halted.value, limits)
  }

  ghost predicate DayKept(e: Engine, d: DayMarks, limits: Limits) {
    RangeExact(e, d.points) && StreakExact(e, d.trades) && HaltRecorded(e, d.points, limits)
  }

  /** Recording appends one point with the account's equity and keeps the range exact. */
  lemma RecordIs(e: Engine, ts: int, n: nat, floats: seq<real>)
    requires RangeExact(e, n) && FloatsOf(floats, e.open)
    ensures var r := Record(e, ts);
      && r.curve == e.curve + [(ts, e.cash + Sum(floats))]
      && r.open == e.open && r.cash == e.cash && r.trades == e.trades
      && r.dayStart == e.dayStart && r.halted == e.halted && r.consecutiveLosses == e.consecutiveLosses
      && RangeExact(r, n)
      && forall v :: Recorded(e, n, v) ==> Recorded(r, n, v)
  {
    EquityIs(e, floats);
    hide Equity;
    var r := Record(e, ts);
    assert r.curve[|e.curve|].1 == Equity(e);
    forall v | Recorded(e, n, v) ensures Recorded(r, n, v) {
      var k :| n <= k < |e.curve| && e.curve[k].1 == v;
      assert r.curve[k].1 == v;
    }
  }

  function FloatsAt(open: seq<Pos>): (r: seq<real>)
    ensures FloatsOf(r, open)
  {
    seq(|open|, i requires 0 <= i < |open| =>
      (if open[i].side == Long then open[i].mark - open[i].entry else open[i].entry - open[i].mark)
      * (open[i].lots * open[i].spec.contractSize * open[i].spec.quoteToAccount))
  }

  lemma RecordKeepsDay(e: Engine, ts: int, d: DayMarks, limits: Limits)
    requires DayKept(e, d, limits)
    ensures DayKept(Record(e, ts), d, limits)
  {
    hide Record, RangeExact, Sum, FloatsOf, Recorded;
    RecordIs(e, ts, d.points, FloatsAt(e.open));
  }

  /** Only the fields a day's record reads matter. */
  lemma SameRecord(e: Engine, e1: Engine, d: DayMarks, limits: Limits)
    requires DayKept(e, d, limits)
    requires e1.curve == e.curve && e1.dayLow == e.dayLow && e1.dayHigh == e.dayHigh && e1.dayStart == e.dayStart
    requires e1.halted == e.halted && StreakExact(e1, d.trades)
    ensures DayKept(e1, d, limits)
  {
    assert forall v :: Recorded(e, d.points, v) ==> Recorded(e1, d.points, v);
  }

  lemma StreakStep(e: Engine, e1: Engine, m: nat, t: Trade)
    requires StreakExact(e, m) && e1.trades == e.trades + [t]
    requires e1.consecutiveLosses == if t.pnl < 0.0 then e.consecutiveLosses + 1 else 0
    ensures StreakExact(e1, m)
  {
  }

  lemma CloseKeepsDay(e: Engine, j: nat, i: nat, price: real, reason: ExitReason, d: DayMarks, limits: Limits)
    requires j < |e.open| && i < |e.open[j].ticks.ts| && DayKept(e, d, limits)
    ensures DayKept(Close(e, j, i, price, reason), d, limits)
  {
    hide Record, TradeOf, RangeExact, StreakExact, HaltRecorded;
    var p := e.open[j];
    var trade := TradeOf(p, i, price, reason);
    var e1 := e.(cash := e.cash + (p.Unrealized(price) - p.ExitCommission()), open := Without(e.open, j),
                 consecutiveLosses := if trade.pnl < 0.0 then e.consecutiveLosses + 1 else 0,
                 trades := e.trades + [trade]);
    StreakStep(e, e1, d.trades, trade);
    SameRecord(e, e1, d, limits);
    RecordKeepsDay(e1, trade.exitTs, d, limits);
  }

  /** A tick keeps the day's record, and its last point is the account's equity. */
  lemma TickKeepsDay(e: Engine, j: nat, d: DayMarks, cfg: Config)
    requires PositionsValid(e.open) && DayKept(e, d, cfg.limits)
    requires j < |e.open| && e.open[j].idx < |e.open[j].ticks.ts|
    ensures var r := ApplyTick(e, j, cfg);
      DayKept(r, d, cfg.limits) && Recorded(r, d.points, Equity(r))
  {
    hide Close, Resolve, DayKept, Equity;
    var i := e.open[j].idx;
    var p := e.open[j].(idx := i + 1);
    var r := ApplyTick(e, j, cfg);
    match Resolve(p, i, cfg.breakevenR) {
      case Exit(price, reason) =>
        var e1 := e.(open := e.open[j := p]);
        Unmoved(e, e1, d, cfg.limits);
        CloseKeepsDay(e1, j, i, price, reason, d, cfg.limits);
        CloseRecords(e1, j, i, price, reason, d, cfg.limits);
      case Stay(q) =>
        var e1 := e.(open := e.open[j := q]);
        Unmoved(e, e1, d, cfg.limits);
        RecordKeepsDay(e1, p.ticks.ts[i], d, cfg.limits);
        RecordRecords(e1, p.ticks.ts[i], d, cfg.limits);
    }
  }

  lemma Unmoved(e: Engine, e1: Engine, d: DayMarks, limits: Limits)
    requires DayKept(e, d, limits) && e1 == e.(open := e1.open, cash := e1.cash)
    ensures DayKept(e1, d, limits)
  {
    SameRecord(e, e1, d, limits);
  }

  lemma RecordRecords(e: Engine, ts: int, d: DayMarks, limits: Limits)
    requires DayKept(e, d, limits)
    ensures Recorded(Record(e, ts), d.points, Equity(Record(e, ts)))
  {
    var r := Record(e, ts);
    assert Equity(r) == Equity(e);
    hide Equity;
    assert r.curve[|e.curve|].1 == Equity(r);
  }

  lemma CloseRecords(e: Engine, j: nat, i: nat, price: real, reason: ExitReason, d: DayMarks, limits: Limits)
    requires j < |e.open| && i < |e.open[j].ticks.ts| && DayKept(e, d, limits)
    ensures var r := Close(e, j, i, price, reason); Recorded(r, d.points, Equity(r))
  {
    hide Equity, TradeOf;
    var p := e.open[j];
    var trade := TradeOf(p, i, price, reason);
    var e1 := e.(cash := e.cash + (p.Unrealized(price) - p.ExitCommission()), open := Without(e.open, j),
                 consecutiveLosses := if trade.pnl < 0.0 then e.consecutiveLosses + 1 else 0,
                 trades := e.trades + [trade]);
    StreakStep(e, e1, d.trades, trade);
    SameRecord(e, e1, d, limits);
    RecordRecords(e1, trade.exitTs, d, limits);
  }

  lemma {:induction false} FlattenKeepsDay(e: Engine, d: DayMarks, limits: Limits)
    requires PositionsValid(e.open) && DayKept(e, d, limits)
    ensures DayKept(FlattenAll(e), d, limits)
    decreases |e.open|
  {
    hide Close, MarketExitPrice, DayKept;
    if |e.open| > 0 {
      var p := e.open[0];
      var price := MarketExitPrice(p, p.idx - 1);
      CloseIs(e, 0, p.idx - 1, price, GuardHalt);
      CloseKeepsDay(e, 0, p.idx - 1, price, GuardHalt, d, limits);
      FlattenKeepsDay(Close(e, 0, p.idx - 1, price, GuardHalt), d, limits);
    }
  }

  lemma {:induction false} CloseRemainingKeepsDay(e: Engine, d: DayMarks, limits: Limits)
    requires PositionsValid(e.open) && DayKept(e, d, limits)
    ensures DayKept(CloseRemaining(e), d, limits)
    decreases |e.open|
  {
    hide Close, DayKept;
    if |e.open| > 0 {
      var p := e.open[0];
      CloseIs(e, 0, p.idx - 1, p.mark, DataEnd);
      CloseKeepsDay(e, 0, p.idx - 1, p.mark, DataEnd, d, limits);
      CloseRemainingKeepsDay(Close(e, 0, p.idx - 1, p.mark, DataEnd), d, limits);
    }
  }

  lemma {:induction false} AdvanceKeepsDay(e: Engine, until: int, d: DayMarks, cfg: Config)
    requires PositionsValid(e.open) && DayKept(e, d, cfg.limits)
    ensures DayKept(Advance(e, until, cfg), d, cfg.limits)
    decreases TicksLeft(e.open)
  {
    var j := NextIndex(e.open, until);
    hide DayKept, ApplyTick;
    if j != -1 {
      TickKeepsDay(e, j, d, cfg);
      TickProgress(e, j, cfg);
      GuardKeepsDay(ApplyTick(e, j, cfg), d, cfg);
      AdvanceKeepsDay(TickOnce(e, j, cfg), until, d, cfg);
    }
  }

  lemma GuardKeepsDay(e: Engine, d: DayMarks, cfg: Config)
    requires PositionsValid(e.open) && DayKept(e, d, cfg.limits) && Recorded(e, d.points, Equity(e))
    ensures DayKept(GuardCheck(e, cfg), d, cfg.limits)
  {
    hide FlattenAll, Equity, DayKept, Recorded, ShouldHalt;
    var decision := ShouldHalt(Mark(Equity(e), e.dayStart, e.dayStart), cfg.limits);
    if decision.Some? {
      HaltKeepsDay(e, decision.value, d, cfg.limits);
      FlattenKeepsDay(e.(halted := decision), d, cfg.limits);
    }
  }

  lemma HaltKeepsDay(e: Engine, kind: HaltKind, d: DayMarks, limits: Limits)
    requires DayKept(e, d, limits) && Recorded(e, d.points, Equity(e))
    requires ShouldHalt(Mark(Equity(e), e.dayStart, e.dayStart), limits) == Some(kind)
    ensures DayKept(e.(halted := Some(kind)), d, limits)
  {
    hide Equity, LostLimit;
    var halted := e.(halted := Some(kind));
    HaltLost(Equity(e), e.dayStart, kind, limits);
    hide ShouldHalt;
    assert forall v :: Recorded(e, d.points, v) ==> Recorded(halted, d.points, v);
  }

  lemma HaltLost(equity: real, dayStart: real, kind: HaltKind, limits: Limits)
    requires ShouldHalt(Mark(equity, dayStart, dayStart), limits) == Some(kind)
    ensures LostLimit(dayStart - equity, kind, limits)
  {
  }

  lemma EntryKeepsDay(e: Engine, t: EntryTry, closeNs: int, d: DayMarks, cfg: Config)
    requires t.Valid() && DayKept(e, d, cfg.limits)
    ensures DayKept(TryOpen(e, t, closeNs, cfg), d, cfg.limits)
  {
    hide EntryTick, AdmittedLots, Record, NewPos, DayKept;
    var tick := EntryTick(e, t, closeNs);
    if tick.Some? {
      var lots := AdmittedLots(e, t, tick.value, cfg);
      if lots.Some? {
        var p := NewPos(e, t, tick.value, lots.value);
        var e1 := e.(cash := e.cash - p.entryCommission, open := e.open + [p]);
        Unmoved(e, e1, d, cfg.limits);
        RecordKeepsDay(e1, p.entryNs, d, cfg.limits);
      }
    }
  }

  lemma {:induction false} DayBarsKeepDay(e: Engine, bars: seq<BarEvent>, d: DayMarks, cfg: Config)
    requires PositionsValid(e.open) && DayKept(e, d, cfg.limits)
    requires forall b :: b in bars ==> b.Valid()
    ensures DayKept(DayBars(e, bars, cfg), d, cfg.limits)
  {
    hide DayKept, TryOpen;
    if |bars| > 0 {
      var m := |bars| - 1;
      DayBarsKeepDay(e, bars[..m], d, cfg);
      var e1 := DayBars(e, bars[..m], cfg);
      AdvanceKeepsDay(e1, bars[m].closeNs, d, cfg);
      assert bars[m].Valid();
      if bars[m].signal.Some? {
        EntryKeepsDay(Advance(e1, bars[m].closeNs, cfg), bars[m].signal.value, bars[m].closeNs, d, cfg);
      }
    }
  }

  /**
   What a day leaves behind, after any number of its bars and at its end: its low and high are the extremes
   of its opening equity and everything it recorded, its loss streak counts its own last losing trades, and
   it has halted only on a recorded equity that lost the halt's limit.
   */
  lemma DayRecordExactly(e: Engine, day: DayInput, cfg: Config)
    requires day.Valid()
    ensures DayKept(DayBars(StartDay(e), day.bars, cfg), DayMarks(|e.curve|, |e.trades|), cfg.limits)
    ensures DayKept(RunDay(e, day, cfg), DayMarks(|e.curve|, |e.trades|), cfg.limits)
    ensures var r := RunDay(e, day, cfg); var row := RowOf(e, r);
      row.low == r.dayLow && row.high == r.dayHigh && row.halted == r.halted
  {
    var d := DayMarks(|e.curve|, |e.trades|);
    var e0 := StartDay(e);
    assert DayKept(e0, d, cfg.limits);
    hide DayKept;
    var e1 := DayBars(e0, day.bars, cfg);
    DayBarsKeepDay(e0, day.bars, d, cfg);
    AdvanceKeepsDay(e1, day.nextResetNs, d, cfg);
    CloseRemainingKeepsDay(Advance(e1, day.nextResetNs, cfg), d, cfg.limits);
  }
}
