/**
 Entries, trading days and whole runs of the tick backtest on values, and what every run keeps:
 cash conservation, the day's range, the open-book rules and the frozen day after a halt.
 */
module DaySpec {
  import opened Common
  import opened FtmoRules
  import opened Sizing
  import opened TickAdvance
  import opened TickSpec

  /** A signal together with what the engine looks up for it before trying to open. */
  datatype EntryTry = EntryTry(
    sig: PricedSignal, spec: ContractSpec, ticks: Option<Ticks>,
    dayExcluded: bool, flattenNs: int, pastFridayCutoff: bool)
  {
    ghost predicate Valid() {
      && spec.Valid()
      && StopDistance(sig) > 0.0
      && (ticks.Some? ==> ticks.value.Valid())
    }
  }

  /** The open book as the rules engine sees it. */
  function RiskBook(open: seq<Pos>): (r: seq<OpenPosition>)
    ensures |r| == |open|
    ensures forall i :: 0 <= i < |open| ==> r[i].symbol == open[i].symbol && r[i].side == open[i].side
  {
    seq(|open|, i requires 0 <= i < |open| =>
      OpenPosition(open[i].symbol, open[i].side,
                   RiskToStop(open[i].side, open[i].lots, open[i].mark, open[i].stop, open[i].spec)))
  }

  function StateOf(e: Engine): AccountState {
    AccountState(Equity(e), e.dayStart, e.dayStart, RiskBook(e.open), e.consecutiveLosses)
  }

  /** The entry fill: one slippage beyond the touched side. */
  function EntryFill(side: Side, bid: real, ask: real, spec: ContractSpec): real {
    if side == Long then ask + spec.slippage else bid - spec.slippage
  }

  predicate FillBeyondLevels(sig: PricedSignal, fill: real) {
    if sig.side == Long then fill <= sig.stop || fill >= sig.target
    else fill >= sig.stop || fill <= sig.target
  }

  /** The position an accepted signal opens at tick `i`. */
  function NewPos(e: Engine, t: EntryTry, i: nat, lots: real): Pos
    requires t.Valid() && t.ticks.Some? && i < |t.ticks.value.ts|
  {
    var bid := t.ticks.value.bid[i];
    var ask := t.ticks.value.ask[i];
    var mark := if t.sig.side == Long then bid else ask;
    MarkPos(
      Pos(|e.trades| + |e.open|, t.sig.symbol, t.sig.side, lots, t.spec,
          t.ticks.value.ts[i], EntryFill(t.sig.side, bid, ask, t.spec), t.sig.stop, t.sig.stop, t.sig.target,
          t.flattenNs, t.ticks.value, i + 1, mark, t.spec.commissionPerLotSide * lots,
          (ask - bid) * t.spec.ValuePerPriceUnit(lots), false, 0.0, 0.0),
      mark)
  }

  /** The tick an entry would fill on, if the signal gets as far as the pre-trade gate. */
  function EntryTick(e: Engine, t: EntryTry, closeNs: int): (r: Option<nat>)
    requires t.Valid()
    ensures r.Some? ==> t.ticks.Some? && r.value < |t.ticks.value.ts|
    ensures r.Some? ==> e.halted.None? && closeNs <= t.ticks.value.ts[r.value] < t.flattenNs
  {
    if t.dayExcluded || e.halted.Some? || t.ticks.None? then None
    else
      var i := LowerBound(t.ticks.value.ts, closeNs);
      if i >= |t.ticks.value.ts| || t.ticks.value.ts[i] >= t.flattenNs then None else Some(i)
  }

  /** The lot count the gate and the sizing admit at tick `i`, if any. */
  function AdmittedLots(e: Engine, t: EntryTry, i: nat, cfg: Config): (r: Option<real>)
    requires t.Valid() && t.ticks.Some? && i < |t.ticks.value.ts|
    ensures r.Some? ==> r.value > 0.0
    ensures r.Some? ==>
      CanOpen(t.sig.symbol, t.sig.side, StateOf(e), t.pastFridayCutoff, cfg.limits,
                 ProjectedLoss(t.sig, t.spec, cfg.riskAmount, t.ticks.value.ask[i] - t.ticks.value.bid[i])) == Allowed
  {
    var bid := t.ticks.value.bid[i];
    var ask := t.ticks.value.ask[i];
    if CanOpen(t.sig.symbol, t.sig.side, StateOf(e), t.pastFridayCutoff, cfg.limits,
               ProjectedLoss(t.sig, t.spec, cfg.riskAmount, ask - bid)) != Allowed then None
    else
      var size := SizeFor(t.sig, t.spec, cfg.riskAmount);
      if !size.Lots? || size.lots <= 0.0 || FillBeyondLevels(t.sig, EntryFill(t.sig.side, bid, ask, t.spec)) then None
      else Some(size.lots)
  }

  function TryOpen(e: Engine, t: EntryTry, closeNs: int, cfg: Config): Engine
    requires t.Valid()
  {
    match EntryTick(e, t, closeNs)
    case None => e
    case Some(i) =>
      match AdmittedLots(e, t, i, cfg)
      case None => e
      case Some(lots) =>
        var p := NewPos(e, t, i, lots);
        Record(e.(cash := e.cash - p.entryCommission, open := e.open + [p]), p.entryNs)
  }

  // ------------------------------------------------------------ days and runs

  /** A completed bar and the signal the strategy returned for it. */
  datatype BarEvent = BarEvent(closeNs: int, signal: Option<EntryTry>) {
    ghost predicate Valid() { signal.Some? ==> signal.value.Valid() }
  }

  datatype DayInput = DayInput(bars: seq<BarEvent>, nextResetNs: int) {
    ghost predicate Valid() { forall b :: b in bars ==> b.Valid() }
  }

  datatype DayRow = DayRow(start: real, low: real, high: real, end: real, trades: nat, halted: Option<HaltKind>)

  function BarStep(e: Engine, b: BarEvent, cfg: Config): Engine
    requires PositionsValid(e.open) && b.Valid()
  {
    var e1 := Advance(e, b.closeNs, cfg);
    match b.signal
    case None => e1
    case Some(t) => TryOpen(e1, t, b.closeNs, cfg)
  }

  function StartDay(e: Engine): Engine {
    e.(open := [], dayStart := e.cash, dayLow := e.cash, dayHigh := e.cash, consecutiveLosses := 0, halted := None)
  }

  function DayBars(e: Engine, bars: seq<BarEvent>, cfg: Config): (r: Engine)
    requires PositionsValid(e.open) && forall b :: b in bars ==> b.Valid()
    ensures PositionsValid(r.open)
  {
    if |bars| == 0 then e
    else
      var n := |bars| - 1;
      var e1 := DayBars(e, bars[..n], cfg);
      BarStep(e1, bars[n], cfg)
  }

  /** Close what is still open when the ticks ran out, at its last mark. */
  function CloseRemaining(e: Engine): Engine
    requires PositionsValid(e.open)
    decreases |e.open|
  {
    if |e.open| == 0 then e
    else CloseRemaining(Close(e, 0, e.open[0].idx - 1, e.open[0].mark, DataEnd))
  }

  function RunDay(e: Engine, day: DayInput, cfg: Config): Engine
    requires day.Valid()
  {
    CloseRemaining(Advance(DayBars(StartDay(e), day.bars, cfg), day.nextResetNs, cfg))
  }

  function RowOf(before: Engine, after: Engine): DayRow {
    DayRow(after.dayStart, after.dayLow, after.dayHigh, after.cash,
           if |after.trades| >= |before.trades| then |after.trades| - |before.trades| else 0, after.halted)
  }

  function RunDays(e: Engine, days: seq<DayInput>, cfg: Config): (r: (Engine, seq<DayRow>))
    requires forall d :: d in days ==> d.Valid()
    ensures |r.1| == |days|
  {
    if |days| == 0 then (e, [])
    else
      var n := |days| - 1;
      var (e1, rows) := RunDays(e, days[..n], cfg);
      var e2 := RunDay(e1, days[n], cfg);
      (e2, rows + [RowOf(e1, e2)])
  }

  function Fresh(initial: real): Engine {
    Engine(initial, [], [], [], initial, initial, initial, 0, None)
  }

  // ------------------------------------------------------------ the invariant

  function Pnls(trades: seq<Trade>): (r: seq<real>)
    ensures |r| == |trades| && forall i :: 0 <= i < |r| ==> r[i] == trades[i].pnl
  {
    seq(|trades|, i requires 0 <= i < |trades| => trades[i].pnl)
  }

  function EntryCommissions(open: seq<Pos>): (r: seq<real>)
    ensures |r| == |open| && forall i :: 0 <= i < |r| ==> r[i] == open[i].entryCommission
  {
    seq(|open|, i requires 0 <= i < |open| => open[i].entryCommission)
  }

  /** Cash is the initial balance plus closed-trade P&L less the entry commissions still open. */
  ghost predicate Conserved(e: Engine, base: Base) {
    e.cash == base.initial + Sum(Pnls(e.trades)) - Sum(EntryCommissions(e.open))
  }

  /** The day's range holds the day's start and the current equity. */
  ghost predicate RangeHolds(e: Engine) {
    && e.dayLow <= e.dayStart <= e.dayHigh
    && e.dayLow <= Equity(e) <= e.dayHigh
  }

  /** Identities are the creation order, and all of them have been given out. */
  ghost predicate IdsOrdered(e: Engine) {
    && (forall i, j :: 0 <= i < j < |e.open| ==> e.open[i].id < e.open[j].id)
    && (forall i :: 0 <= i < |e.open| ==> e.open[i].id < |e.trades| + |e.open|)
  }

  /**
   An open position: its stop is the initial stop until the one breakeven move and the entry from
   then on, entry and levels are in order, and its excursion range holds the current mark.
   */
  ghost predicate PosSound(p: Pos) {
    && LevelsSound(p)
    && p.mae <= p.Unrealized(p.mark) - p.entryCommission <= p.mfe
  }

  ghost predicate LevelsSound(p: Pos) {
    && p.Valid() && p.spec.Valid() && p.lots > 0.0
    && p.stop == (if p.beDone then p.entry else p.initialStop)
    && (if p.side == Long then p.initialStop < p.entry < p.target else p.target < p.entry < p.initialStop)
    && p.entryNs <= p.ticks.ts[p.idx - 1]
  }

  /** How far `price` is beyond `level` in the position's losing direction is not negative. */
  predicate AtOrBeyond(side: Side, price: real, level: real) {
    if side == Long then price <= level else price >= level
  }

  /**
   A closed trade: it exits no earlier than it entered, its excursion range holds its P&L, a target
   exit is exactly at the target and gains before commissions, a stop or breakeven exit is at the
   stop or worse and does not gain, and a breakeven exit had its stop at the entry.
   */
  ghost predicate TradeSound(t: Trade) {
    && t.entryTs <= t.exitTs
    && t.mae <= t.pnl <= t.mfe
    && (t.reason == Target ==> t.exitPrice == t.target && t.pnl + t.commission > 0.0)
    && (t.reason == StopLoss ==> AtOrBeyond(t.side, t.exitPrice, t.stop) && t.pnl + t.commission < 0.0)
    && (t.reason == Breakeven ==>
          AtOrBeyond(t.side, t.exitPrice, t.stop) && t.stop == t.entryPrice && t.pnl + t.commission <= 0.0)
  }

  ghost predicate Sound(e: Engine) {
    && (forall j :: 0 <= j < |e.open| ==> PosSound(e.open[j]))
    && (forall j :: 0 <= j < |e.trades| ==> TradeSound(e.trades[j]))
  }

  /** Exits the engine makes: the reason fits the position and the price. */
  ghost predicate ExitFits(p: Pos, i: nat, price: real, reason: ExitReason) {
    && p.idx <= i + 1 && i < |p.ticks.ts|
    && (reason == Target ==> price == p.target)
    && (reason == StopLoss ==> AtOrBeyond(p.side, price, p.stop) && !p.beDone)
    && (reason == Breakeven ==> AtOrBeyond(p.side, price, p.stop) && p.beDone)
  }

  lemma GrossSign(p: Pos, price: real)
    requires p.spec.Valid() && p.lots > 0.0
    ensures p.Unrealized(price) > 0.0 <==> (if p.side == Long then price > p.entry else price < p.entry)
    ensures p.Unrealized(price) < 0.0 <==> (if p.side == Long then price < p.entry else price > p.entry)
  {
    var unit := p.spec.ValuePerPriceUnit(p.lots);
    assert p.lots * p.spec.contractSize > 0.0;
    assert unit > 0.0;
    var move := if p.side == Long then price - p.entry else p.entry - price;
    SignOfProduct(move, unit);
  }

  lemma SignOfProduct(a: real, k: real)
    requires k > 0.0
    ensures a * k > 0.0 <==> a > 0.0
    ensures a * k < 0.0 <==> a < 0.0
  {
  }

  lemma TradeOfSound(p: Pos, i: nat, price: real, reason: ExitReason)
    requires PosSound(p) && ExitFits(p, i, price, reason)
    ensures TradeSound(TradeOf(p, i, price, reason))
  {
    GrossSign(p, price);
  }

  /** What a day starts from: the account's initial balance, the day's opening equity and earlier trades. */
  datatype Base = Base(initial: real, dayStart: real, trades: seq<Trade>)

  ghost predicate Inv(e: Engine, base: Base, cfg: Config) {
    && e.dayStart == base.dayStart
    && base.trades <= e.trades
    && PositionsValid(e.open)
    && Conserved(e, base)
    && RangeHolds(e)
    && IdsOrdered(e)
    && BookGood(e.open, cfg.limits)
    && Sound(e)
  }

  /** The open-book rules hold, provided the gate's look at one group is enough. */
  ghost predicate BookGood(open: seq<Pos>, limits: Limits) {
    limits.Valid() && SidesGuarded(limits) ==> BookOk(RiskBook(open), limits)
  }

  /** The book rules read only symbols and sides. */
  lemma BookRulesIgnoreRisk(a: seq<OpenPosition>, b: seq<OpenPosition>, limits: Limits)
    requires |a| == |b|
    requires forall i :: 0 <= i < |a| ==> a[i].symbol == b[i].symbol && a[i].side == b[i].side
    requires BookOk(a, limits)
    ensures BookOk(b, limits)
  {
    assert Symbols(a) == Symbols(b);
    forall i, j, g | 0 <= i < |b| && 0 <= j < |b| && g in limits.correlatedGroups && b[i].symbol in g && b[j].symbol in g
      ensures b[i].side == b[j].side
    {
      assert a[i].symbol in g && a[j].symbol in g;
    }
  }

  lemma SameRosterKeepsBook(a: seq<Pos>, b: seq<Pos>, limits: Limits)
    requires |a| == |b| && BookGood(a, limits)
    requires forall i :: 0 <= i < |a| ==> a[i].symbol == b[i].symbol && a[i].side == b[i].side
    ensures BookGood(b, limits)
  {
    if limits.Valid() && SidesGuarded(limits) {
      BookRulesIgnoreRisk(RiskBook(a), RiskBook(b), limits);
    }
  }

  lemma CloseConserves(e: Engine, j: nat, i: nat, price: real, reason: ExitReason, base: Base)
    requires j < |e.open| && i < |e.open[j].ticks.ts|
    requires Conserved(e, base)
    ensures Conserved(Close(e, j, i, price, reason), base)
  {
    var p := e.open[j];
    var trade := TradeOf(p, i, price, reason);
    assert Pnls(e.trades + [trade]) == Pnls(e.trades) + [trade.pnl];
    SumAppend(Pnls(e.trades), trade.pnl);
    var fees := EntryCommissions(e.open);
    assert EntryCommissions(Without(e.open, j)) == fees[..j] + fees[j + 1..];
    SumRemove(fees, j);
  }

  lemma WithoutKeepsBook(open: seq<Pos>, j: nat, limits: Limits)
    requires j < |open| && BookGood(open, limits)
    ensures BookGood(Without(open, j), limits)
  {
    if limits.Valid() && SidesGuarded(limits) {
      CloseKeepsBook(RiskBook(open), j, limits);
      assert RiskBook(Without(open, j)) == RiskBook(open)[..j] + RiskBook(open)[j + 1..];
    }
  }

  lemma CloseKeepsInv(e: Engine, j: nat, i: nat, price: real, reason: ExitReason, base: Base, cfg: Config)
    requires j < |e.open|
    requires Inv(e, base, cfg) && ExitFits(e.open[j], i, price, reason)
    ensures Inv(Close(e, j, i, price, reason), base, cfg)
  {
    var e1 := Close(e, j, i, price, reason);
    TradeOfSound(e.open[j], i, price, reason);
    CloseConserves(e, j, i, price, reason, base);
    WithoutKeepsBook(e.open, j, cfg.limits);
    CloseKeepsIds(e, j, i, price, reason);
    hide Conserved, IdsOrdered, BookGood, RiskBook, TradeOf, Equity, PosSound, TradeSound, ExitFits;
  }

  lemma CloseKeepsIds(e: Engine, j: nat, i: nat, price: real, reason: ExitReason)
    requires j < |e.open| && i < |e.open[j].ticks.ts| && IdsOrdered(e)
    ensures IdsOrdered(Close(e, j, i, price, reason))
  {
    hide TradeOf, Equity;
  }

  /** Moving one position on by a tick keeps everything but the range, which the next record restores. */
  lemma MoveKeepsInv(e: Engine, j: nat, q: Pos, ts: int, base: Base, cfg: Config)
    requires j < |e.open| && Inv(e, base, cfg)
    requires Succeeds(e.open[j], q) && PosSound(q)
    ensures Inv(Record(e.(open := e.open[j := q]), ts), base, cfg)
  {
    var e1 := e.(open := e.open[j := q]);
    MoveKeepsBooks(e, j, q, base, cfg);
    assert Sound(e1) by { hide PosSound, TradeSound; }
    assert PositionsValid(e1.open);
    assert e1.dayLow <= e1.dayStart <= e1.dayHigh && e1.dayStart == base.dayStart && base.trades <= e1.trades;
    hide *;
    RecordKeepsAll(e1, ts, base, cfg);
  }

  lemma MoveKeepsBooks(e: Engine, j: nat, q: Pos, base: Base, cfg: Config)
    requires j < |e.open| && Conserved(e, base) && IdsOrdered(e) && BookGood(e.open, cfg.limits)
    requires Succeeds(e.open[j], q)
    ensures var e1 := e.(open := e.open[j := q]);
      Conserved(e1, base) && IdsOrdered(e1) && BookGood(e1.open, cfg.limits)
  {
    hide BookGood;
    var e1 := e.(open := e.open[j := q]);
    assert EntryCommissions(e1.open) == EntryCommissions(e.open);
    SameRosterKeepsBook(e.open, e1.open, cfg.limits);
  }

  lemma IndexKeepsFloating(open: seq<Pos>, j: nat, idx: nat)
    requires j < |open|
    ensures Floating(open[j := open[j].(idx := idx)]) == Floating(open)
  {
    var moved := open[j := open[j].(idx := idx)];
    forall k | 0 <= k < |open| ensures Floating(moved)[k] == Floating(open)[k] {
      assert moved[k].Unrealized(moved[k].mark) == open[k].Unrealized(open[k].mark);
    }
  }

  /** Advancing only the tick index changes nothing that is measured. */
  lemma IndexKeepsInv(e: Engine, j: nat, idx: nat, base: Base, cfg: Config)
    requires j < |e.open| && Inv(e, base, cfg)
    requires PosSound(e.open[j].(idx := idx))
    ensures Inv(e.(open := e.open[j := e.open[j].(idx := idx)]), base, cfg)
  {
    assert e.open[j].(idx := idx).Valid();
    hide BookGood, Floating, TradeSound, PosSound;
    var open := e.open[j := e.open[j].(idx := idx)];
    assert EntryCommissions(open) == EntryCommissions(e.open);
    IndexKeepsFloating(e.open, j, idx);
    SameRosterKeepsBook(e.open, open, cfg.limits);
  }

  lemma MarkSound(p: Pos, price: real)
    requires LevelsSound(p)
    ensures PosSound(MarkPos(p, price))
    ensures Succeeds(p.(idx := p.idx - 1), MarkPos(p, price))
  {
    var q := MarkPos(p, price);
    assert q.spec == p.spec && q.lots == p.lots && q.side == p.side && q.entry == p.entry;
  }

  /** A tick either makes a fitting exit or leaves a sound position one tick further on. */
  lemma ResolveSound(p: Pos, beR: real)
    requires PosSound(p) && p.idx < |p.ticks.ts|
    ensures var q := p.(idx := p.idx + 1);
      match Resolve(q, p.idx, beR)
      case Exit(price, reason) => PosSound(q) && ExitFits(q, p.idx, price, reason)
      case Stay(r) => Succeeds(p, r) && PosSound(r)
  {
    var q := p.(idx := p.idx + 1);
    SteppedSound(p);
    assert p.spec.slippage >= 0.0 && p.ticks.Valid();
    hide PosSound, LevelsSound, MarkPos;
    var mark := if p.side == Long then p.ticks.bid[p.idx] else p.ticks.ask[p.idx];
    MarkSound(q, mark);
    MarkSound(q.(stop := q.entry, beDone := true), mark);
  }

  lemma SteppedSound(p: Pos)
    requires PosSound(p) && p.idx < |p.ticks.ts|
    ensures var q := p.(idx := p.idx + 1);
      PosSound(q) && LevelsSound(q) && LevelsSound(q.(stop := q.entry, beDone := true))
  {
    assert p.ticks.ts[p.idx - 1] <= p.ticks.ts[p.idx];
    assert p.(idx := p.idx + 1).Unrealized(p.mark) == p.Unrealized(p.mark);
  }

  lemma ApplyTickKeepsInv(e: Engine, j: nat, base: Base, cfg: Config)
    requires Inv(e, base, cfg)
    requires j < |e.open| && e.open[j].idx < |e.open[j].ticks.ts|
    ensures Inv(ApplyTick(e, j, cfg), base, cfg)
  {
    var i := e.open[j].idx;
    var p := e.open[j].(idx := i + 1);
    assert PosSound(e.open[j]);
    ResolveSound(e.open[j], cfg.breakevenR);
    assert e.open[j].Valid();
    hide Conserved, RangeHolds, IdsOrdered, BookGood, RiskBook, Close, Record, Resolve, Succeeds, PosSound, Sound, ExitFits;
    match Resolve(p, i, cfg.breakevenR) {
      case Exit(price, reason) =>
        IndexKeepsInv(e, j, i + 1, base, cfg);
        CloseKeepsInv(e.(open := e.open[j := p]), j, i, price, reason, base, cfg);
      case Stay(q) =>
        MoveKeepsInv(e, j, q, p.ticks.ts[i], base, cfg);
    }
  }

  lemma CloseFirstKeepsInv(e: Engine, price: real, reason: ExitReason, base: Base, cfg: Config)
    requires |e.open| > 0 && Inv(e, base, cfg) && reason in {GuardHalt, DataEnd}
    ensures e.open[0].Valid()
    ensures Inv(Close(e, 0, e.open[0].idx - 1, price, reason), base, cfg)
  {
    assert ExitFits(e.open[0], e.open[0].idx - 1, price, reason);
    hide Conserved, RangeHolds, IdsOrdered, BookGood, Sound, Close, ExitFits;
    CloseKeepsInv(e, 0, e.open[0].idx - 1, price, reason, base, cfg);
  }

  lemma InvValid(e: Engine, base: Base, cfg: Config)
    requires Inv(e, base, cfg)
    ensures PositionsValid(e.open)
  {
  }

  lemma {:induction false} FlattenKeepsInv(e: Engine, base: Base, cfg: Config)
    requires Inv(e, base, cfg)
    ensures PositionsValid(e.open)
    ensures Inv(FlattenAll(e), base, cfg)
    decreases |e.open|
  {
    InvValid(e, base, cfg);
    hide Inv, MarketExitPrice, TradeOf, Equity;
    if |e.open| > 0 {
      var price := MarketExitPrice(e.open[0], e.open[0].idx - 1);
      CloseFirstKeepsInv(e, price, GuardHalt, base, cfg);
      FlattenKeepsInv(Close(e, 0, e.open[0].idx - 1, price, GuardHalt), base, cfg);
    }
  }

  lemma TickKeepsInv(e: Engine, j: nat, base: Base, cfg: Config)
    requires Inv(e, base, cfg)
    requires j < |e.open| && e.open[j].idx < |e.open[j].ticks.ts|
    ensures Inv(TickOnce(e, j, cfg), base, cfg)
  {
    ApplyTickKeepsInv(e, j, base, cfg);
    hide ApplyTick, Conserved, RangeHolds, IdsOrdered, BookOk;
    GuardKeepsInv(ApplyTick(e, j, cfg), base, cfg);
  }

  lemma GuardKeepsInv(e: Engine, base: Base, cfg: Config)
    requires Inv(e, base, cfg)
    ensures Inv(GuardCheck(e, cfg), base, cfg)
  {
    var decision := ShouldHalt(Mark(Equity(e), e.dayStart, e.dayStart), cfg.limits);
    if decision.Some? {
      var halted := e.(halted := decision);
      assert Equity(halted) == Equity(e);
      FlattenKeepsInv(halted, base, cfg);
    }
  }

  lemma {:induction false} AdvanceKeepsInv(e: Engine, until: int, base: Base, cfg: Config)
    requires Inv(e, base, cfg)
    ensures Inv(Advance(e, until, cfg), base, cfg)
    decreases TicksLeft(e.open)
  {
    var j := NextIndex(e.open, until);
    if j != -1 {
      TickKeepsInv(e, j, base, cfg);
      TickProgress(e, j, cfg);
      AdvanceKeepsInv(TickOnce(e, j, cfg), until, base, cfg);
    }
  }

  lemma TryOpenKeepsInv(e: Engine, t: EntryTry, closeNs: int, base: Base, cfg: Config)
    requires t.Valid() && Inv(e, base, cfg)
    ensures Inv(TryOpen(e, t, closeNs, cfg), base, cfg)
  {
    hide Conserved, RangeHolds, IdsOrdered, BookGood, RiskBook, AdmittedLots, NewPos, Record;
    var tick := EntryTick(e, t, closeNs);
    if tick.Some? {
      var i := tick.value;
      var admitted := AdmittedLots(e, t, i, cfg);
      if admitted.Some? {
        var p := NewPos(e, t, i, admitted.value);
        AppendKeepsInv(e, t, i, p, base, cfg);
      }
    }
  }

  lemma AppendKeepsInv(e: Engine, t: EntryTry, i: nat, p: Pos, base: Base, cfg: Config)
    requires t.Valid() && Inv(e, base, cfg)
    requires t.ticks.Some? && i < |t.ticks.value.ts|
    requires AdmittedLots(e, t, i, cfg).Some?
    requires p == NewPos(e, t, i, AdmittedLots(e, t, i, cfg).value)
    ensures Inv(Record(e.(cash := e.cash - p.entryCommission, open := e.open + [p]), p.entryNs), base, cfg)
  {
    var e1 := e.(cash := e.cash - p.entryCommission, open := e.open + [p]);
    AppendConserves(e, p, base);
    AppendKeepsBook(e, t, i, p, cfg);
    NewPosSound(e, t, i, cfg);
    assert PositionsValid(e1.open);
    assert Sound(e1);
    assert IdsOrdered(e1);
    assert e1.dayLow <= e1.dayStart <= e1.dayHigh && e1.dayStart == base.dayStart && base.trades <= e1.trades;
    hide *;
    RecordKeepsAll(e1, p.entryNs, base, cfg);
  }

  lemma RecordKeepsAll(e: Engine, ts: int, base: Base, cfg: Config)
    requires PositionsValid(e.open) && Conserved(e, base) && IdsOrdered(e) && BookGood(e.open, cfg.limits)
    requires Sound(e)
    requires e.dayLow <= e.dayStart <= e.dayHigh && e.dayStart == base.dayStart && base.trades <= e.trades
    ensures Inv(Record(e, ts), base, cfg)
  {
    hide BookGood;
  }

  lemma NewPosSound(e: Engine, t: EntryTry, i: nat, cfg: Config)
    requires t.Valid() && t.ticks.Some? && i < |t.ticks.value.ts|
    requires AdmittedLots(e, t, i, cfg).Some?
    ensures PosSound(NewPos(e, t, i, AdmittedLots(e, t, i, cfg).value))
  {
    hide CanOpen, SizeFor, ProjectedLoss;
  }

  lemma AppendConserves(e: Engine, p: Pos, base: Base)
    requires Conserved(e, base)
    ensures Conserved(e.(cash := e.cash - p.entryCommission, open := e.open + [p]), base)
  {
    assert EntryCommissions(e.open + [p]) == EntryCommissions(e.open) + [p.entryCommission];
    SumAppend(EntryCommissions(e.open), p.entryCommission);
  }

  lemma AppendKeepsBook(e: Engine, t: EntryTry, i: nat, p: Pos, cfg: Config)
    requires t.Valid() && t.ticks.Some? && i < |t.ticks.value.ts|
    requires BookGood(e.open, cfg.limits)
    requires AdmittedLots(e, t, i, cfg).Some?
    requires p.symbol == t.sig.symbol && p.side == t.sig.side
    ensures BookGood(e.open + [p], cfg.limits)
  {
    hide BookOk, AdmittedLots;
    if !(cfg.limits.Valid() && SidesGuarded(cfg.limits)) { return; }
    var book := RiskBook(e.open + [p]);
    var risk := book[|e.open|].riskToStop;
    AdmitKeepsBook(t.sig.symbol, t.sig.side, StateOf(e), t.pastFridayCutoff, cfg.limits,
                   ProjectedLoss(t.sig, t.spec, cfg.riskAmount, t.ticks.value.ask[i] - t.ticks.value.bid[i]), risk);
    assert book == RiskBook(e.open) + [OpenPosition(p.symbol, p.side, risk)];
  }

  // ------------------------------------------------------------ days

  lemma BarKeepsInv(e: Engine, b: BarEvent, base: Base, cfg: Config)
    requires Inv(e, base, cfg) && b.Valid()
    ensures Inv(BarStep(e, b, cfg), base, cfg)
  {
    AdvanceKeepsInv(e, b.closeNs, base, cfg);
    hide Conserved, RangeHolds, IdsOrdered, BookGood, TryOpen;
    if b.signal.Some? {
      TryOpenKeepsInv(Advance(e, b.closeNs, cfg), b.signal.value, b.closeNs, base, cfg);
    }
  }

  lemma {:induction false} DayBarsKeepInv(e: Engine, bars: seq<BarEvent>, base: Base, cfg: Config)
    requires Inv(e, base, cfg)
    requires forall b :: b in bars ==> b.Valid()
    ensures Inv(DayBars(e, bars, cfg), base, cfg)
  {
    if |bars| > 0 {
      var n := |bars| - 1;
      DayBarsKeepInv(e, bars[..n], base, cfg);
      hide BarStep, Inv;
      BarKeepsInv(DayBars(e, bars[..n], cfg), bars[n], base, cfg);
    }
  }

  lemma {:induction false} CloseRemainingKeepsInv(e: Engine, base: Base, cfg: Config)
    requires Inv(e, base, cfg)
    ensures PositionsValid(e.open)
    ensures Inv(CloseRemaining(e), base, cfg) && CloseRemaining(e).open == []
    decreases |e.open|
  {
    InvValid(e, base, cfg);
    hide Inv, TradeOf, Equity;
    if |e.open| > 0 {
      CloseFirstKeepsInv(e, e.open[0].mark, DataEnd, base, cfg);
      CloseRemainingKeepsInv(Close(e, 0, e.open[0].idx - 1, e.open[0].mark, DataEnd), base, cfg);
    }
  }

  /** Between days: flat, every past trade sound, cash fully accounted for. */
  ghost predicate Settled(e: Engine, initial: real) {
    && e.open == []
    && e.cash == initial + Sum(Pnls(e.trades))
    && forall j :: 0 <= j < |e.trades| ==> TradeSound(e.trades[j])
  }

  lemma StartDayInv(e: Engine, initial: real, cfg: Config)
    requires Settled(e, initial)
    ensures Inv(StartDay(e), Base(initial, e.cash, e.trades), cfg)
  {
    SlotsAtMostSymbols([], cfg.limits);
    assert Symbols(RiskBook([])) == [];
  }

  /** One day: it starts at the cash it inherits, ends flat, and its cash change is its trades' P&L. */
  lemma RunDayKeeps(e: Engine, day: DayInput, initial: real, cfg: Config)
    requires day.Valid()
    requires Settled(e, initial)
    ensures var r := RunDay(e, day, cfg);
      && Settled(r, initial)
      && e.trades <= r.trades
      && r.dayStart == e.cash
      && r.dayLow <= r.dayStart <= r.dayHigh
      && r.dayLow <= r.cash <= r.dayHigh
  {
    var base := Base(initial, e.cash, e.trades);
    StartDayInv(e, initial, cfg);
    var e0 := StartDay(e);
    DayBarsKeepInv(e0, day.bars, base, cfg);
    var e1 := DayBars(e0, day.bars, cfg);
    AdvanceKeepsInv(e1, day.nextResetNs, base, cfg);
    var e2 := Advance(e1, day.nextResetNs, cfg);
    CloseRemainingKeepsInv(e2, base, cfg);
    var r := CloseRemaining(e2);
    assert EntryCommissions(r.open) == [] && Floating(r.open) == [];
  }

  /** Whatever the day's bars, at most one position per symbol is open, one side per group, slots within the maximum. */
  lemma BookRulesHoldAllDay(e: Engine, bars: seq<BarEvent>, until: int, initial: real, cfg: Config)
    requires cfg.limits.Valid() && SidesGuarded(cfg.limits)
    requires forall b :: b in bars ==> b.Valid()
    requires Settled(e, initial)
    ensures BookOk(RiskBook(Advance(DayBars(StartDay(e), bars, cfg), until, cfg).open), cfg.limits)
  {
    var base := Base(initial, e.cash, e.trades);
    StartDayInv(e, initial, cfg);
    DayBarsKeepInv(StartDay(e), bars, base, cfg);
    AdvanceKeepsInv(DayBars(StartDay(e), bars, cfg), until, base, cfg);
  }

  function RowTrades(rows: seq<DayRow>): nat {
    if |rows| == 0 then 0 else RowTrades(rows[..|rows| - 1]) + rows[|rows| - 1].trades
  }

  /** Row `k` starts where the previous row ended and its range holds both of its ends. */
  ghost predicate RowChains(rows: seq<DayRow>, k: nat, initial: real)
    requires k < |rows|
  {
    && rows[k].start == (if k == 0 then initial else rows[k - 1].end)
    && rows[k].low <= rows[k].start <= rows[k].high
    && rows[k].low <= rows[k].end <= rows[k].high
  }

  ghost predicate RowsChain(rows: seq<DayRow>, initial: real) {
    forall k :: 0 <= k < |rows| ==> RowChains(rows, k, initial)
  }

  /**
   Over any run: each day starts at the previous day's end, its range holds both ends, the trade
   counts add up to the trades, the last end is the initial balance plus the P&L of all trades, and
   every trade is sound.
   */
  lemma {:induction false} RunConserves(initial: real, days: seq<DayInput>, cfg: Config)
    requires forall d :: d in days ==> d.Valid()
    ensures var (e, rows) := RunDays(Fresh(initial), days, cfg);
      && RowsChain(rows, initial)
      && RowTrades(rows) == |e.trades|
      && Settled(e, initial)
      && e.cash == (if |rows| == 0 then initial else rows[|rows| - 1].end)
  {
    if |days| > 0 {
      var n := |days| - 1;
      RunConserves(initial, days[..n], cfg);
      var (e1, rows) := RunDays(Fresh(initial), days[..n], cfg);
      var e2 := RunDay(e1, days[n], cfg);
      assert RunDays(Fresh(initial), days, cfg) == (e2, rows + [RowOf(e1, e2)]);
      hide *;
      RunDayKeeps(e1, days[n], initial, cfg);
      RowOfDay(e1, e2, rows, initial);
    }
  }

  lemma RowOfDay(before: Engine, after: Engine, rows: seq<DayRow>, initial: real)
    requires RowsChain(rows, initial) && RowTrades(rows) == |before.trades|
    requires before.cash == (if |rows| == 0 then initial else rows[|rows| - 1].end)
    requires before.trades <= after.trades && after.dayStart == before.cash
    requires after.dayLow <= after.dayStart <= after.dayHigh && after.dayLow <= after.cash <= after.dayHigh
    ensures var all := rows + [RowOf(before, after)];
      RowsChain(all, initial) && RowTrades(all) == |after.trades| && all[|rows|].end == after.cash
  {
    RowsExtend(rows, RowOf(before, after), initial);
  }

  lemma RowsExtend(rows: seq<DayRow>, row: DayRow, initial: real)
    requires RowsChain(rows, initial)
    requires row.start == if |rows| == 0 then initial else rows[|rows| - 1].end
    requires row.low <= row.start <= row.high && row.low <= row.end <= row.high
    ensures RowsChain(rows + [row], initial)
    ensures RowTrades(rows + [row]) == RowTrades(rows) + row.trades
  {
    var all := rows + [row];
    assert all[..|rows|] == rows;
    forall k | 0 <= k < |all| ensures RowChains(all, k, initial) {
      if k < |rows| { assert RowChains(rows, k, initial); }
    }
  }

  // ------------------------------------------------------------ halts

  ghost predicate HaltedIsFlat(e: Engine) {
    e.halted.Some? ==> e.open == []
  }

  lemma {:induction false} AdvanceKeepsHaltedFlat(e: Engine, until: int, cfg: Config)
    requires PositionsValid(e.open) && HaltedIsFlat(e)
    ensures HaltedIsFlat(Advance(e, until, cfg))
    decreases TicksLeft(e.open)
  {
    var j := NextIndex(e.open, until);
    if j != -1 {
      var e1 := ApplyTick(e, j, cfg);
      var decision := ShouldHalt(Mark(Equity(e1), e1.dayStart, e1.dayStart), cfg.limits);
      if decision.Some? { FlattenAllEmpties(e1.(halted := decision)); }
      assert HaltedIsFlat(TickOnce(e, j, cfg));
      TickProgress(e, j, cfg);
      AdvanceKeepsHaltedFlat(TickOnce(e, j, cfg), until, cfg);
    }
  }

  lemma {:induction false} DayBarsKeepHaltedFlat(e: Engine, bars: seq<BarEvent>, cfg: Config)
    requires PositionsValid(e.open) && HaltedIsFlat(e)
    requires forall b :: b in bars ==> b.Valid()
    ensures HaltedIsFlat(DayBars(e, bars, cfg))
  {
    if |bars| > 0 {
      var n := |bars| - 1;
      DayBarsKeepHaltedFlat(e, bars[..n], cfg);
      AdvanceKeepsHaltedFlat(DayBars(e, bars[..n], cfg), bars[n].closeNs, cfg);
    }
  }

  lemma HaltFreezesBar(e: Engine, b: BarEvent, cfg: Config)
    requires PositionsValid(e.open) && HaltedIsFlat(e) && e.halted.Some? && b.Valid()
    ensures BarStep(e, b, cfg) == e
  {
    assert Advance(e, b.closeNs, cfg) == e;
  }

  /**
   A halt freezes the day: if the guard has halted by bar `n`, no later bar of the day opens,
   closes or marks anything, whatever it signals.
   */
  lemma {:induction false} HaltFreezesDay(e: Engine, bars: seq<BarEvent>, n: nat, cfg: Config)
    requires PositionsValid(e.open) && HaltedIsFlat(e)
    requires forall b :: b in bars ==> b.Valid()
    requires n <= |bars| && DayBars(e, bars[..n], cfg).halted.Some?
    ensures DayBars(e, bars, cfg) == DayBars(e, bars[..n], cfg)
  {
    hide BarStep, PositionsValid, HaltedIsFlat;
    if n < |bars| {
      var m := |bars| - 1;
      assert bars[..m][..n] == bars[..n];
      HaltFreezesDay(e, bars[..m], n, cfg);
      DayBarsKeepHaltedFlat(e, bars[..m], cfg);
      assert DayBars(e, bars, cfg) == BarStep(DayBars(e, bars[..m], cfg), bars[m], cfg);
      HaltFreezesBar(DayBars(e, bars[..m], cfg), bars[m], cfg);
    } else {
      assert bars[..n] == bars;
    }
  }

  // ------------------------------------------------------------ bar granularity

  lemma {:induction false} DayBarsConcat(e: Engine, a: seq<BarEvent>, b: seq<BarEvent>, cfg: Config)
    requires PositionsValid(e.open)
    requires forall x :: x in a || x in b ==> x.Valid()
    ensures DayBars(e, a + b, cfg) == DayBars(DayBars(e, a, cfg), b, cfg)
  {
    if |b| == 0 {
      assert a + b == a;
    } else {
      var n := |b| - 1;
      assert (a + b)[..|a + b| - 1] == a + b[..n];
      assert forall x :: x in a + b ==> x.Valid();
      DayBarsConcat(e, a, b[..n], cfg);
    }
  }

  /** Bars without a signal only cut the tick stream: leaving one out before a later bar changes nothing. */
  lemma SilentBarsAreRedundant(e: Engine, before: seq<BarEvent>, t: int, next: BarEvent, after: seq<BarEvent>, cfg: Config)
    requires PositionsValid(e.open) && next.Valid()
    requires forall x :: x in before || x in after ==> x.Valid()
    requires t <= next.closeNs
    ensures forall x :: x in before + [BarEvent(t, None)] + [next] + after ==> x.Valid()
    ensures forall x :: x in before + [next] + after ==> x.Valid()
    ensures DayBars(e, before + [BarEvent(t, None)] + [next] + after, cfg) == DayBars(e, before + [next] + after, cfg)
  {
    var silent := BarEvent(t, None);
    DayBarsConcat(e, before + [silent] + [next], after, cfg);
    DayBarsConcat(e, before + [next], after, cfg);
    DayBarsConcat(e, before, [silent] + [next], cfg);
    assert before + [silent] + [next] == before + ([silent] + [next]);
    DayBarsConcat(e, before, [next], cfg);
    var e0 := DayBars(e, before, cfg);
    AdvanceSplits(e0, t, next.closeNs, cfg);
    DayBarsConcat(e0, [silent], [next], cfg);
    OneBar(e0, silent, cfg);
    OneBar(e0, next, cfg);
    OneBar(Advance(e0, t, cfg), next, cfg);
  }

  lemma OneBar(e: Engine, b: BarEvent, cfg: Config)
    requires PositionsValid(e.open) && b.Valid()
    ensures DayBars(e, [b], cfg) == BarStep(e, b, cfg)
  {
    assert [b][..0] == [];
    assert DayBars(e, [], cfg) == e;
  }
}
