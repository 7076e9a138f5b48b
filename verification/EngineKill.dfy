/**
 How a kill of the backtest ends: its orders go through the capped path, so the book is emptied exactly
 when that path can take them all; and a run in which it cannot.
 */
module EngineKill {
  import opened Common
  import opened Costs
  import opened RebalanceSpec
  import opened RebalanceSafety
  import opened DurableState
  import opened Portfolio
  import opened EngineBacktest
  import opened EngineEquity

  // ------------------------------------------------------------ how a kill ends

  /** The symbols held, in column order. */
  function HeldSymbols(columns: seq<string>, positions: map<string, real>): seq<string> {
    if |columns| == 0 then []
    else HeldSymbols(columns[..|columns| - 1], positions)
         + if Shares(positions, columns[|columns| - 1]) > 0.0 then [columns[|columns| - 1]] else []
  }

  ghost predicate NothingHeldIn(columns: seq<string>, positions: map<string, real>) {
    forall sym :: sym in columns ==> Shares(positions, sym) <= 0.0
  }

  /** A full exit passes the risk filter: the symbol is priced and selling costs less than it brings. */
  predicate ExitPasses(cfg: RiskConfig, prices: map<string, real>, symbol: string, shares: real) {
    Priced(prices, symbol) && OrderCost(cfg.costs, shares, prices[symbol]) < shares * prices[symbol]
  }

  /** A full-exit sale of all that is held. */
  ghost predicate IsExit(o: Order, positions: map<string, real>) {
    o.side == Sell && o.fullExit && o.limit.None? && o.shares == Shares(positions, o.symbol) > 0.0
  }

  /** What a kill's orders are: one full exit per holding. */
  ghost predicate ExitsAll(orders: seq<Order>, symbols: seq<string>, positions: map<string, real>) {
    && |orders| == |symbols|
    && forall i :: 0 <= i < |orders| ==> orders[i].symbol == symbols[i] && IsExit(orders[i], positions)
  }

  lemma {:induction false} LiquidationExitsAll(columns: seq<string>, positions: map<string, real>, nextId: int)
    ensures ExitsAll(Liquidation(columns, positions, nextId), HeldSymbols(columns, positions), positions)
  {
    hide Shares;
    if |columns| > 0 {
      LiquidationExitsAll(columns[..|columns| - 1], positions, nextId);
    }
  }

  lemma {:induction false} HeldSymbolsAre(columns: seq<string>, positions: map<string, real>)
    ensures forall sym :: sym in HeldSymbols(columns, positions) <==> sym in columns && Shares(positions, sym) > 0.0
    ensures DistinctColumns(columns) ==> DistinctColumns(HeldSymbols(columns, positions))
  {
    hide Shares;
    if |columns| > 0 {
      var n := |columns| - 1;
      HeldSymbolsAre(columns[..n], positions);
      assert columns == columns[..n] + [columns[n]];
      assert DistinctColumns(columns) ==> columns[n] !in columns[..n];
    }
  }

  lemma CostShare(cost: real, notional: real)
    requires notional > 0.0
    ensures cost / notional >= 1.0 <==> cost >= notional
  {
    var q := cost / notional;
    assert q * notional == cost;
    if q >= 1.0 {
      MulMono(1.0, q, notional);
    } else {
      assert (1.0 - q) * notional > 0.0;
      assert (1.0 - q) * notional == notional - q * notional;
    }
  }

  lemma ExitFiltered(cfg: RiskConfig, o: Order, prices: map<string, real>)
    requires o.fullExit && o.shares > 0.0
    ensures Filter(cfg, o, prices).None? <==> ExitPasses(cfg, prices, o.symbol, o.shares)
  {
    hide OrderCost;
    if Priced(prices, o.symbol) {
      var notional := o.shares * prices[o.symbol];
      assert notional > 0.0;
      CostShare(OrderCost(cfg.costs, o.shares, prices[o.symbol]), notional);
    }
  }

  /** An exit that passes is sold in full; one that does not is dropped and changes nothing. */
  lemma ExitSold(cfg: RiskConfig, prices: map<string, real>, r: Run, o: Order)
    requires !r.raised && r.budget.Some? && r.budget.value >= 1 && IsExit(o, r.venue.positions)
    ensures var n := SubmitEscalating(Market(cfg.costs, BENIGN, prices), cfg, prices, 1, r, o);
      && !n.raised && n.budget.Some? && n.budget.value >= r.budget.value - 1
      && n.venue.positions == if ExitPasses(cfg, prices, o.symbol, o.shares) then r.venue.positions - {o.symbol} else r.venue.positions
  {
    var m := Market(cfg.costs, BENIGN, prices);
    ExitFiltered(cfg, o, prices);
    assert Fillable(BENIGN, o) == o.shares;
    assert Held(r.venue, o.symbol) == o.shares;
    hide Filter, OrderCost, Fee;
  }

  /** After the exits `tried`, each holding is gone if its exit passed and untouched otherwise. */
  ghost predicate Exited(cfg: RiskConfig, prices: map<string, real>, before: map<string, real>, after: map<string, real>,
                         tried: seq<string>)
  {
    forall sym :: Shares(after, sym)
      == if sym in tried && ExitPasses(cfg, prices, sym, Shares(before, sym)) then 0.0 else Shares(before, sym)
  }

  lemma {:induction false} ExitsSold(cfg: RiskConfig, prices: map<string, real>, start: Run, sells: seq<Order>,
                                     symbols: seq<string>)
    requires !start.raised && start.budget.Some? && start.budget.value >= |sells|
    requires ExitsAll(sells, symbols, start.venue.positions) && DistinctColumns(symbols)
    ensures var n := SendSells(Market(cfg.costs, BENIGN, prices), cfg, prices, 1, start, sells);
      && !n.raised && n.budget.Some? && n.budget.value >= start.budget.value - |sells|
      && Exited(cfg, prices, start.venue.positions, n.venue.positions, symbols)
  {
    hide SubmitEscalating, ExitPasses;
    if |sells| > 0 {
      var n := |sells| - 1;
      var o := sells[n];
      assert symbols == symbols[..n] + [symbols[n]] && symbols[n] !in symbols[..n];
      ExitsSold(cfg, prices, start, sells[..n], symbols[..n]);
      var before := SendSells(Market(cfg.costs, BENIGN, prices), cfg, prices, 1, start, sells[..n]);
      assert Shares(before.venue.positions, o.symbol) == Shares(start.venue.positions, o.symbol);
      ExitSold(cfg, prices, before, o);
    }
  }

  lemma {:induction false} OnlySells(orders: seq<Order>)
    requires forall i :: 0 <= i < |orders| ==> orders[i].side == Sell
    ensures OfSide(orders, Sell) == orders && OfSide(orders, Buy) == []
  {
    if |orders| > 0 {
      OnlySells(orders[..|orders| - 1]);
    }
  }

  /** A rebalance of exits only: the first ones, up to the cap, are tried, and those that pass are gone. */
  lemma RebalanceExits(cfg: RiskConfig, prices: map<string, real>, v: Venue, orders: seq<Order>, symbols: seq<string>, nextId: int)
    requires cfg.maxOrdersPerDay >= 0 && ExitsAll(orders, symbols, v.positions) && DistinctColumns(symbols)
    ensures var n := Rebalance(Market(cfg.costs, BENIGN, prices), cfg, prices, 1, v, orders, nextId, false);
      !n.raised && Exited(cfg, prices, v.positions, n.venue.positions, symbols[..MinI(|symbols|, cfg.maxOrdersPerDay)])
  {
    hide ExitPasses, Shares, SendSells, Kept, OfSide, OverTheCap, AllDropped, Exited, ExitsAll, DistinctColumns;
    var k := MinI(|orders|, cfg.maxOrdersPerDay);
    ExitPlan(cfg, orders, symbols, v.positions);
    var start := Opening(cfg, v, orders, nextId, false);
    ExitsSold(cfg, prices, start, orders[..k], symbols[..k]);
  }

  lemma ExitPlan(cfg: RiskConfig, orders: seq<Order>, symbols: seq<string>, positions: map<string, real>)
    requires cfg.maxOrdersPerDay >= 0 && ExitsAll(orders, symbols, positions) && DistinctColumns(symbols)
    ensures var k := MinI(|orders|, cfg.maxOrdersPerDay); var plan := Planned(cfg, orders, false);
      && plan == orders[..k] && OfSide(plan, Sell) == plan && OfSide(plan, Buy) == []
      && |orders| == |symbols| && ExitsAll(orders[..k], symbols[..k], positions) && DistinctColumns(symbols[..k])
  {
    var k := MinI(|orders|, cfg.maxOrdersPerDay);
    OnlySells(orders);
    OnlySells(orders[..k]);
    assert orders + [] == orders && orders[..|orders|] == orders;
    hide OfSide;
  }

  /** The fill leg of a kill. */
  lemma KillLegSells(s: Setup, b: Book, marks: map<string, real>, symbols: seq<string>)
    requires s.risk.maxOrdersPerDay >= 0 && b.pending.Some? && !b.raised
    requires ExitsAll(b.pending.value, symbols, b.positions) && DistinctColumns(symbols)
    ensures var r := FillLeg(s, b, marks);
      && !r.raised && r.pending.None? && r.engine == b.engine
      && Exited(s.risk, marks, b.positions, r.positions, symbols[..MinI(|symbols|, s.risk.maxOrdersPerDay)])
  {
    hide Rebalance, Worth, Exited, ExitsAll, DistinctColumns;
    RebalanceExits(s.risk, marks, Venue(b.cash, b.positions, 0, []), b.pending.value, symbols, b.nextId);
  }

  /**
   A kill's fill leg flattens the book exactly when the holdings are no more than the daily order cap and
   each of them passes the filter at the bar's marks.
   */
  lemma KillLegFlattensExactly(s: Setup, b: Book, marks: map<string, real>, id: int)
    requires s.risk.maxOrdersPerDay >= 0 && DistinctColumns(s.columns) && !b.raised
    requires b.pending == Some(Liquidation(s.columns, b.positions, id))
    ensures var r := FillLeg(s, b, marks); var symbols := HeldSymbols(s.columns, b.positions);
      && !r.raised && r.pending.None? && r.engine == b.engine
      && (NothingHeldIn(s.columns, r.positions)
          <==> |symbols| <= s.risk.maxOrdersPerDay
               && forall sym :: sym in symbols ==> ExitPasses(s.risk, marks, sym, Shares(b.positions, sym)))
  {
    var symbols := HeldSymbols(s.columns, b.positions);
    LiquidationExitsAll(s.columns, b.positions, id);
    HeldSymbolsAre(s.columns, b.positions);
    hide FillLeg, HeldSymbols, Liquidation, ExitPasses, Shares, ExitsAll;
    KillLegSells(s, b, marks, symbols);
    var r := FillLeg(s, b, marks);
    var cap := s.risk.maxOrdersPerDay;
    if |symbols| > cap {
      var last := symbols[cap];
      assert last in symbols && last !in symbols[..cap];
      assert Shares(r.positions, last) == Shares(b.positions, last) > 0.0;
    } else {
      assert symbols[..|symbols|] == symbols;
    }
  }

  /** The last bar killed: the book is halted and its pending orders, if any, close everything. */
  ghost predicate Killed(s: Setup, b: Book, id: int) {
    && b.engine.halted
    && var orders := Liquidation(s.columns, b.positions, id); b.pending == if |orders| == 0 then None else Some(orders)
  }

  lemma KillBar(s: Setup, b: Book, visible: seq<Row>, marks: map<string, real>)
    requires |visible| > 0 && s.risk.maxOrdersPerDay >= 0
    requires !b.engine.halted && Bar(s, b, visible, marks).engine.halted
    ensures exists id :: Killed(s, Bar(s, b, visible, marks), id)
  {
    hide Worth, Rebalance, Decide, Liquidation, Deposits, PreTrade;
    var today := visible[|visible| - 1].date;
    var c := Deposits(s.contribution, FirstUncredited(b, today), today).value;
    var filled := FillLeg(s, Credit(b, c, today), marks);
    assert Killed(s, Bar(s, b, visible, marks), filled.nextId);
  }

  /** Exactly the cases in which a kill's orders empty the book. */
  ghost predicate Closable(s: Setup, positions: map<string, real>, marks: map<string, real>) {
    var symbols := HeldSymbols(s.columns, positions);
    && |symbols| <= s.risk.maxOrdersPerDay
    && forall sym :: sym in symbols ==> ExitPasses(s.risk, marks, sym, Shares(positions, sym))
  }

  lemma HaltedLegs(s: Setup, b: Book, visible: seq<Row>, marks: map<string, real>, today: int, c: real)
    requires |visible| > 0 && b.engine.halted
    ensures var equity := Equity(s, b, marks); var verdict := GateVerdict(s, b, equity, today, c);
      var r := Close(DecisionLeg(s, GateLeg(s, b, verdict), visible, verdict, equity), equity, today, c);
      r.positions == b.positions && r.pending == b.pending && r.engine.halted && r.raised == b.raised
  {
    hide Worth, Decide, Liquidation, PreTrade;
  }

  /** With nothing pending a halted book keeps what it holds. */
  lemma HaltedBookFrozen(s: Setup, b: Book, visible: seq<Row>, marks: map<string, real>)
    requires |visible| > 0 && s.risk.maxOrdersPerDay >= 0 && b.engine.halted && b.pending.None?
    ensures var r := Bar(s, b, visible, marks); r.positions == b.positions && r.engine.halted && r.pending.None?
  {
    hide GateVerdict, GateLeg, DecisionLeg, Close, Deposits, FirstUncredited, Equity;
    var today := visible[|visible| - 1].date;
    var deposits := Deposits(s.contribution, FirstUncredited(b, today), today);
    if !b.raised && deposits.Some? {
      HaltedLegs(s, Credit(b, deposits.value, today), visible, marks, today, deposits.value);
    }
  }

  lemma KilledNextBar(s: Setup, b: Book, visible: seq<Row>, marks: map<string, real>, id: int)
    requires |visible| > 0 && s.risk.maxOrdersPerDay >= 0 && DistinctColumns(s.columns)
    requires Killed(s, b, id) && !Bar(s, b, visible, marks).raised
    ensures var r := Bar(s, b, visible, marks);
      r.engine.halted && r.pending.None? && (NothingHeldIn(s.columns, r.positions) <==> Closable(s, b.positions, marks))
  {
    hide FillLeg, GateVerdict, GateLeg, DecisionLeg, Close, Deposits, FirstUncredited, Equity, Liquidation, HeldSymbols, ExitPasses;
    LiquidationExitsAll(s.columns, b.positions, id);
    HeldSymbolsAre(s.columns, b.positions);
    if |Liquidation(s.columns, b.positions, id)| == 0 {
      HaltedBookFrozen(s, b, visible, marks);
    } else {
      var today := visible[|visible| - 1].date;
      var c := Deposits(s.contribution, FirstUncredited(b, today), today).value;
      var credited := Credit(b, c, today);
      KillLegFlattensExactly(s, credited, marks, id);
      HaltedLegs(s, FillLeg(s, credited, marks), visible, marks, today, c);
    }
  }

  lemma {:induction false} FrozenRun(s: Setup, initial: real, rows: seq<Row>, n: nat, k: nat)
    requires n <= k <= |rows| && s.risk.maxOrdersPerDay >= 0
    requires After(s, initial, rows, n).engine.halted && After(s, initial, rows, n).pending.None?
    ensures var r := After(s, initial, rows, k);
      r.positions == After(s, initial, rows, n).positions && r.engine.halted && r.pending.None?
    decreases k
  {
    hide Bar, CarriedForward;
    if k > n {
      FrozenRun(s, initial, rows, n, k - 1);
      HaltedBookFrozen(s, After(s, initial, rows, k - 1), rows[..k], CarriedForward(rows)[k - 1]);
    }
  }

  /**
   A kill is liquidated through the capped path: from the bar after it on the book is empty exactly when
   the holdings at the kill were no more than the daily order cap and each could be sold for more than its
   cost at that bar's marks; otherwise the rest is held for ever.
   */
  lemma KillFlattensExactly(s: Setup, initial: real, rows: seq<Row>, n: nat, k: nat)
    requires 0 < n < k <= |rows| && s.risk.maxOrdersPerDay >= 0 && DistinctColumns(s.columns)
    requires !After(s, initial, rows, n - 1).engine.halted && After(s, initial, rows, n).engine.halted
    requires !After(s, initial, rows, n + 1).raised
    ensures NothingHeldIn(s.columns, After(s, initial, rows, k).positions)
      <==> Closable(s, After(s, initial, rows, n).positions, CarriedForward(rows)[n])
  {
    hide Bar, CarriedForward, Closable, Killed, NothingHeldIn;
    KillBar(s, After(s, initial, rows, n - 1), rows[..n], CarriedForward(rows)[n - 1]);
    var b := After(s, initial, rows, n);
    var id :| Killed(s, b, id);
    KilledNextBar(s, b, rows[..n + 1], CarriedForward(rows)[n], id);
    FrozenRun(s, initial, rows, n + 1, k);
  }

  // ------------------------------------------------------------ a kill that does not flatten

  const FREE := CostConfig(false, 0.0, 0.0, 0.0, 0.0, 0.0)

  /** Half in A from the first bar, the other half in B from the second; one order a day; no costs, no deposits. */
  const ONE_A_DAY := Setup(
    GateConfig(0.2, 0.0, 0.9, 1), ClampConfig(false, false, 1.0, 1.0), RiskConfig(FREE, 0.0, 1.0, 1), 0.0, ["A", "B"], ["A", "B"],
    (visible: seq<Row>) => Some(if |visible| == 1 then [("A", 0.5)] else [("A", 0.5), ("B", 0.5)]),
    (d: int) => 0.0, (i: int) => i < 2)

  const PAR := map["A" := 1.0, "B" := 1.0]
  const HALVED := map["A" := 0.5, "B" := 0.5]

  /** Two bars at par, then a crash to half. */
  const CRASH := [Row(0, PAR), Row(1, PAR), Row(2, HALVED)]

  lemma FreeOfCost(shares: real, price: real)
    ensures OrderCost(FREE, shares, price) == 0.0 && Fee(FREE, shares, price) == 0.0
  {
  }

  /** A single buy that the cash covers, free of cost. */
  lemma FreeBuy(b: Book, marks: map<string, real>, o: Order)
    requires b.pending == Some([o]) && o.side == Buy && o.shares > 0.0 && o.limit.None? && !o.fullExit
    requires Priced(marks, o.symbol) && o.shares * marks[o.symbol] <= b.cash
    ensures var r := FillLeg(ONE_A_DAY, b, marks);
      && r.raised == b.raised && r.pending.None? && r.engine == b.engine && r.nextId == b.nextId && r.prevDate == b.prevDate
      && r.cash == b.cash - o.shares * marks[o.symbol]
      && r.positions == b.positions[o.symbol := Shares(b.positions, o.symbol) + o.shares]
  {
    hide Worth, Rebalance, Shares;
    FreeRebalance(Venue(b.cash, b.positions, 0, []), marks, o, b.nextId);
  }

  lemma FreeRebalance(v: Venue, marks: map<string, real>, o: Order, nextId: int)
    requires o.side == Buy && o.shares > 0.0 && o.limit.None? && !o.fullExit
    requires Priced(marks, o.symbol) && o.shares * marks[o.symbol] <= v.cash
    ensures var n := Rebalance(Market(FREE, BENIGN, marks), ONE_A_DAY.risk, marks, 1, v, [o], nextId, false);
      && !n.raised && n.nextId == nextId
      && n.venue.cash == v.cash - o.shares * marks[o.symbol]
      && n.venue.positions == v.positions[o.symbol := Shares(v.positions, o.symbol) + o.shares]
  {
    hide OrderCost, OfSide, Planned, SubmitEscalating, Shares, AllDropped, OverTheCap, SendBuy, Needed;
    OneOrderPlan(ONE_A_DAY.risk, o);
    var start := Opening(ONE_A_DAY.risk, v, [o], nextId, false);
    FreeSend(start, marks, o);
    var m := Market(FREE, BENIGN, marks);
    assert SendSells(m, ONE_A_DAY.risk, marks, 1, start, []) == start;
    assert [o][..0] == [];
    assert SendBuys(m, ONE_A_DAY.risk, marks, 1, start, [o]) == SendBuy(m, ONE_A_DAY.risk, marks, 1, start, o);
  }

  lemma FreeSend(r: Run, marks: map<string, real>, o: Order)
    requires !r.raised && r.budget == Some(1) && o.side == Buy && o.shares > 0.0 && o.limit.None? && !o.fullExit
    requires Priced(marks, o.symbol) && o.shares * marks[o.symbol] <= r.venue.cash
    ensures var n := SendBuy(Market(FREE, BENIGN, marks), ONE_A_DAY.risk, marks, 1, r, o);
      && !n.raised && n.nextId == r.nextId
      && n.venue.cash == r.venue.cash - o.shares * marks[o.symbol]
      && n.venue.positions == r.venue.positions[o.symbol := Shares(r.venue.positions, o.symbol) + o.shares]
  {
    hide OrderCost, SubmitEscalating, Shares;
    FreeOfCost(o.shares, marks[o.symbol]);
    FreeSubmission(r, marks, o);
  }

  lemma OneOrderPlan(cfg: RiskConfig, o: Order)
    requires cfg.maxOrdersPerDay == 1 && o.side == Buy
    ensures OfSide(Planned(cfg, [o], false), Sell) == [] && OfSide(Planned(cfg, [o], false), Buy) == [o]
  {
    OneOrderSorted(o);
    hide OfSide;
  }

  lemma OneOrderSorted(o: Order)
    requires o.side == Buy
    ensures OfSide([o], Sell) == [] && OfSide([o], Buy) == [o] && Sorted([o]) == [o]
  {
    assert [o][..0] == [];
  }

  lemma FreeSubmission(r: Run, marks: map<string, real>, o: Order)
    requires !r.raised && r.budget == Some(1) && o.side == Buy && o.shares > 0.0 && o.limit.None? && !o.fullExit
    requires Priced(marks, o.symbol) && o.shares * marks[o.symbol] <= r.venue.cash
    ensures var n := SubmitEscalating(Market(FREE, BENIGN, marks), ONE_A_DAY.risk, marks, 1, r, o);
      && !n.raised && n.nextId == r.nextId
      && n.venue.cash == r.venue.cash - o.shares * marks[o.symbol]
      && n.venue.positions == r.venue.positions[o.symbol := Shares(r.venue.positions, o.symbol) + o.shares]
  {
    var px := marks[o.symbol];
    FreeOfCost(o.shares, px);
    var notional := o.shares * px;
    assert notional > 0.0 && 0.0 / notional == 0.0;
    assert Needed(FREE, o.shares, px) == notional;
    assert Fillable(BENIGN, o) == o.shares;
    hide OrderCost, Fee, Needed, Fillable;
  }

  /** What the strategy of the example wants to hold. */
  lemma ExampleTargets()
    ensures ToMap(Clamp(ONE_A_DAY.clamp, [("A", 0.5)])) == map["A" := 0.5]
    ensures ToMap(Clamp(ONE_A_DAY.clamp, [("A", 0.5), ("B", 0.5)])) == map["A" := 0.5, "B" := 0.5]
  {
    var one: Weights := [("A", 0.5)];
    var two: Weights := [("A", 0.5), ("B", 0.5)];
    assert ONE_A_DAY.clamp.Valid();
    assert one[..0] == [] && two[..1] == one;
    assert Gross(one) == 0.5 && Gross(two) == 1.0;
    InBoundsUntouched(ONE_A_DAY.clamp, one);
    InBoundsUntouched(ONE_A_DAY.clamp, two);
    hide Clamp;
  }

  lemma ExampleConcerned(positions: map<string, real>)
    requires positions == map[] || positions == map["A" := 50.0]
    ensures Concerned(["A", "B"], positions, map["A" := 0.5]) == ["A"]
    ensures Concerned(["A", "B"], positions, map["A" := 0.5, "B" := 0.5]) == ["A", "B"]
  {
    assert ["A", "B"][..1] == ["A"] && ["A"][..0] == [];
    var one, two := map["A" := 0.5], map["A" := 0.5, "B" := 0.5];
    assert Concerned(["A"], positions, one) == ["A"] && Concerned(["A"], positions, two) == ["A"];
  }

  lemma HalfOfHundred()
    ensures TargetShares(0.5, 100.0, 1.0) == 50
    ensures MoveFor(0.0, 0.5, 1.0, 100.0, 0.0) == Change(50.0) && MoveFor(50.0, 0.5, 1.0, 100.0, 0.0) == Move.Stay
  {
    assert 0.5 * 100.0 / 1.0 == 50.0;
    assert WeightAt(50.0, 1.0, 100.0) >= 0.0;
  }

  /** The last symbol's part of a diff. */
  lemma DiffLast(symbols: seq<string>, s: string, positions: map<string, real>, targets: map<string, real>,
                 prices: map<string, real>, equity: real, band: real, id: int)
    requires AllPriced(symbols, prices) && Priced(prices, s) && equity > 0.0
    ensures AllPriced(symbols + [s], prices)
    ensures var before := Diff(symbols, positions, targets, prices, equity, band, id); var held := Shares(positions, s);
      Diff(symbols + [s], positions, targets, prices, equity, band, id)
      == before + OrderFor(id + |before|, s, held, MoveFor(held, WeightOf(targets, s), prices[s], equity, band))
  {
    hide OrderFor, MoveFor, Shares, WeightOf;
    assert (symbols + [s])[..|symbols|] == symbols;
  }

  /** From a holding of nothing or of its target, half of a hundred at par. */
  lemma ExampleMove(id: int, symbol: string)
    ensures OrderFor(id, symbol, 0.0, MoveFor(0.0, 0.5, 1.0, 100.0, 0.0)) == [Order(id, symbol, Buy, 50.0, false, None)]
    ensures OrderFor(id, symbol, 50.0, MoveFor(50.0, 0.5, 1.0, 100.0, 0.0)) == []
  {
    HalfOfHundred();
  }

  lemma FirstDiff(id: int)
    ensures AllPriced(["A"], PAR)
    ensures Sorted(Diff(["A"], map[], map["A" := 0.5], PAR, 100.0, 0.0, id)) == [Order(id, "A", Buy, 50.0, false, None)]
  {
    hide MoveFor, OrderFor, Sorted;
    ExampleMove(id, "A");
    DiffLast([], "A", map[], map["A" := 0.5], PAR, 100.0, 0.0, id);
    assert [] + ["A"] == ["A"];
    OneOrderSorted(Order(id, "A", Buy, 50.0, false, None));
  }

  lemma SecondDiff(id: int)
    ensures AllPriced(["A", "B"], PAR)
    ensures Sorted(Diff(["A", "B"], map["A" := 50.0], map["A" := 0.5, "B" := 0.5], PAR, 100.0, 0.0, id))
         == [Order(id, "B", Buy, 50.0, false, None)]
  {
    hide MoveFor, OrderFor, Sorted;
    var held, targets := map["A" := 50.0], map["A" := 0.5, "B" := 0.5];
    ExampleMove(id, "A");
    ExampleMove(id, "B");
    DiffLast([], "A", held, targets, PAR, 100.0, 0.0, id);
    DiffLast(["A"], "B", held, targets, PAR, 100.0, 0.0, id);
    assert [] + ["A"] == ["A"] && ["A"] + ["B"] == ["A", "B"];
    OneOrderSorted(Order(id, "B", Buy, 50.0, false, None));
  }

  const CALM := DEFAULTS.(peakEquity := 100.0, lastEquity := 100.0)

  lemma NoDeposits(from: int, day: int)
    requires from == day
    ensures Deposits(ONE_A_DAY.contribution, from, day) == Some(0.0)
  {
    assert Deposits(ONE_A_DAY.contribution, from, day - 1) == Some(0.0);
  }

  /** With nothing deposited and equity still at its peak the gate is open. */
  lemma CalmGate(e: EngineState, today: int)
    requires e == CALM || e == CALM.(lastEquityDate := Some(0))
    ensures PreTrade(ONE_A_DAY.gate, e, 100.0, today, 0.0) == Open
  {
    assert Drawdown(e, 100.0, 0.0) == 0.0;
    assert 100.0 / 100.0 == 1.0;
  }

  lemma ParPrices(b: Book, row: Row)
    requires row.closes == PAR
    ensures LatestPrices(ONE_A_DAY, b, row) == PAR
  {
  }

  /** What the example decides, from its parts. */
  lemma ExampleDecides(b: Book, visible: seq<Row>, symbols: seq<string>, targets: map<string, real>, o: Order)
    requires |visible| > 0 && visible[|visible| - 1].closes == PAR && forall sym :: sym in b.positions ==> sym in PAR
    requires targets == ToMap(Clamp(ONE_A_DAY.clamp, ONE_A_DAY.strategy(visible).value))
    requires symbols == Concerned(["A", "B"], b.positions, targets) && forall sym :: sym in targets || sym in symbols ==> sym in PAR
    requires AllPriced(symbols, PAR) && Sorted(Diff(symbols, b.positions, targets, PAR, 100.0, 0.0, b.nextId)) == [o]
    ensures Decide(ONE_A_DAY, b, visible, 100.0) == Some([o])
  {
    hide Clamp, ToMap, Concerned, Diff, OfSide, LatestPrices, Sorted;
    ParPrices(b, visible[|visible| - 1]);
  }

  lemma FirstDecision(b: Book)
    requires b.positions == map[]
    ensures Decide(ONE_A_DAY, b, CRASH[..1], 100.0) == Some([Order(b.nextId, "A", Buy, 50.0, false, None)])
  {
    hide Decide, Clamp, ToMap, Concerned, Diff, OfSide, Sorted;
    ExampleTargets();
    ExampleConcerned(b.positions);
    FirstDiff(b.nextId);
    assert CRASH[..1] == [Row(0, PAR)];
    ExampleDecides(b, [Row(0, PAR)], ["A"], map["A" := 0.5], Order(b.nextId, "A", Buy, 50.0, false, None));
  }

  lemma SecondDecision(b: Book)
    requires b.positions == map["A" := 50.0]
    ensures Decide(ONE_A_DAY, b, CRASH[..2], 100.0) == Some([Order(b.nextId, "B", Buy, 50.0, false, None)])
  {
    hide Decide, Clamp, ToMap, Concerned, Diff, OfSide, Sorted;
    ExampleTargets();
    ExampleConcerned(b.positions);
    SecondDiff(b.nextId);
    assert CRASH[..2] == [Row(0, PAR), Row(1, PAR)];
    ExampleDecides(b, [Row(0, PAR), Row(1, PAR)], ["A", "B"], map["A" := 0.5, "B" := 0.5],
                   Order(b.nextId, "B", Buy, 50.0, false, None));
  }

  lemma ExampleWorth(marks: map<string, real>)
    requires marks == PAR || marks == HALVED
    ensures Worth(["A", "B"], map[], marks) == 0.0
    ensures Worth(["A", "B"], map["A" := 50.0], marks) == 50.0 * marks["A"]
    ensures Worth(["A", "B"], map["A" := 50.0, "B" := 50.0], marks) == 50.0 * marks["A"] + 50.0 * marks["B"]
  {
    assert ["A", "B"][..1] == ["A"] && ["A"][..0] == [];
  }

  lemma FirstBar()
    ensures var r := Bar(ONE_A_DAY, Start(100.0), CRASH[..1], PAR);
      && r.cash == 100.0 && r.positions == map[] && !r.raised && r.prevDate == Some(0)
      && r.engine == CALM.(lastEquityDate := Some(0))
      && r.pending == Some([Order(1, "A", Buy, 50.0, false, None)])
  {
    hide Worth, Decide, Deposits, PreTrade;
    NoDeposits(0, 0);
    ExampleWorth(PAR);
    CalmGate(CALM, 0);
    FirstDecision(Credit(Start(100.0), 0.0, 0));
    assert CRASH[..1][0].date == 0;
  }

  lemma SecondBar(b: Book)
    requires b.cash == 100.0 && b.positions == map[] && !b.raised && b.prevDate == Some(0)
    requires b.engine == CALM.(lastEquityDate := Some(0)) && b.pending == Some([Order(1, "A", Buy, 50.0, false, None)])
    ensures var r := Bar(ONE_A_DAY, b, CRASH[..2], PAR);
      && r.cash == 50.0 && r.positions == map["A" := 50.0] && !r.raised && r.prevDate == Some(1)
      && r.engine == CALM.(lastEquityDate := Some(1))
      && r.pending == Some([Order(b.nextId, "B", Buy, 50.0, false, None)])
  {
    hide Worth, Decide, Deposits, PreTrade, FillLeg;
    NoDeposits(1, 1);
    ExampleWorth(PAR);
    CalmGate(b.engine, 1);
    var credited := Credit(b, 0.0, 1);
    FreeBuy(credited, PAR, b.pending.value[0]);
    var filled := FillLeg(ONE_A_DAY, credited, PAR);
    assert filled.positions == map["A" := 50.0];
    SecondDecision(filled);
    assert CRASH[..2][1].date == 1;
  }

  lemma CrashBar(b: Book, id: int)
    requires b.cash == 50.0 && b.positions == map["A" := 50.0] && !b.raised && b.prevDate == Some(1)
    requires b.engine == CALM.(lastEquityDate := Some(1))
    requires b.pending == Some([Order(id, "B", Buy, 50.0, false, None)])
    ensures var r := Bar(ONE_A_DAY, b, CRASH, HALVED);
      r.positions == map["A" := 50.0, "B" := 50.0] && r.engine.halted
  {
    hide Worth, Decide, Deposits, FillLeg, Liquidation;
    NoDeposits(2, 2);
    ExampleWorth(HALVED);
    var credited := Credit(b, 0.0, 2);
    FreeBuy(credited, HALVED, b.pending.value[0]);
    var filled := FillLeg(ONE_A_DAY, credited, HALVED);
    assert filled.positions == map["A" := 50.0, "B" := 50.0];
    assert Equity(ONE_A_DAY, filled, HALVED) == 75.0;
    assert Drawdown(filled.engine, 75.0, 0.0) == 25.0 / 100.0;
  }

  lemma CrashMarks()
    ensures |CarriedForward(CRASH)| == 3 && CarriedForward(CRASH)[0] == PAR && CarriedForward(CRASH)[1] == PAR
         && CarriedForward(CRASH)[2] == HALVED
  {
    assert CRASH[..2][..1][..0] == [] && CRASH[..2][..1] == [Row(0, PAR)] && CRASH[..2] == [Row(0, PAR), Row(1, PAR)];
    assert CarriedForward([Row(0, PAR)]) == [PAR];
    assert [Row(0, PAR), Row(1, PAR)][..1] == [Row(0, PAR)];
    assert PAR + PAR == PAR && PAR + HALVED == HALVED;
    assert CarriedForward([Row(0, PAR), Row(1, PAR)]) == [PAR, PAR];
  }

  /** After the crash both halves are held and the engine is halted; before it, it was not. */
  lemma AfterCrash()
    ensures After(ONE_A_DAY, 100.0, CRASH, 3).positions == map["A" := 50.0, "B" := 50.0]
    ensures After(ONE_A_DAY, 100.0, CRASH, 3).engine.halted && !After(ONE_A_DAY, 100.0, CRASH, 2).engine.halted
  {
    hide Bar, CarriedForward;
    CrashMarks();
    FirstBar();
    assert CRASH[..3] == CRASH;
    var one := After(ONE_A_DAY, 100.0, CRASH, 1);
    assert After(ONE_A_DAY, 100.0, CRASH, 0) == Start(100.0);
    SecondBar(one);
    var two := After(ONE_A_DAY, 100.0, CRASH, 2);
    CrashBar(two, one.nextId);
  }

  /**
   A run that is killed and never emptied: two holdings, one order a day, everything priced and free to
   sell. However the prices go on after the crash, one holding is left on every later bar.
   */
  lemma KillCanLeaveHoldings(more: seq<Row>, k: nat)
    requires Ascending(CRASH + more) && 3 < k <= |CRASH + more|
    ensures After(ONE_A_DAY, 100.0, CRASH + more, 3).engine.halted
    ensures !NothingHeldIn(["A", "B"], After(ONE_A_DAY, 100.0, CRASH + more, k).positions)
  {
    hide After, CarriedForward, NothingHeldIn, ExitPasses;
    var rows := CRASH + more;
    assert rows[..3] == CRASH[..3] && rows[..2] == CRASH[..2];
    NoLookahead(ONE_A_DAY, 100.0, rows, CRASH, 3);
    NoLookahead(ONE_A_DAY, 100.0, rows, CRASH, 2);
    AfterCrash();
    EveryDayIsCredited(ONE_A_DAY, 100.0, rows, 4);
    KillFlattensExactly(ONE_A_DAY, 100.0, rows, 3, k);
    assert ["A", "B"][..1] == ["A"] && ["A"][..0] == [];
    assert HeldSymbols(["A", "B"], map["A" := 50.0, "B" := 50.0]) == ["A", "B"];
  }
}
