/**
 What the backtest's equity consists of: the initial balance, every calendar day's deposit, the gains of
 the carried-forward marks and the order costs of all fills.
 */
module EngineEquity {
  import opened Common
  import opened Costs
  import opened RebalanceSpec
  import opened RebalanceSafety
  import opened DurableState
  import opened Portfolio
  import opened EngineBacktest

  // ------------------------------------------------------------ what equity consists of

  /** What the holdings carried into bar `n` gained from that bar's marks. */
  function MarkGain(s: Setup, initial: real, rows: seq<Row>, n: nat): real
    requires 0 < n <= |rows| && s.risk.maxOrdersPerDay >= 0
  {
    var held := After(s, initial, rows, n - 1).positions;
    var marks := CarriedForward(rows);
    Worth(s.columns, held, marks[n - 1]) - (if n == 1 then 0.0 else Worth(s.columns, held, marks[n - 2]))
  }

  function MarkGains(s: Setup, initial: real, rows: seq<Row>, n: nat): real
    requires n <= |rows| && s.risk.maxOrdersPerDay >= 0
  {
    if n == 0 then 0.0 else MarkGains(s, initial, rows, n - 1) + MarkGain(s, initial, rows, n)
  }

  lemma {:induction false} NothingHeld(columns: seq<string>, marks: map<string, real>)
    ensures Worth(columns, map[], marks) == 0.0
  {
    if |columns| > 0 {
      NothingHeld(columns[..|columns| - 1], marks);
    }
  }

  lemma DecisionKeepsBook(s: Setup, b: Book, visible: seq<Row>, verdict: Option<Gate>, equity: real, today: int, c: real)
    requires |visible| > 0
    ensures var r := Close(DecisionLeg(s, GateLeg(s, b, verdict), visible, verdict, equity), equity, today, c);
      && r.cash == b.cash && r.positions == b.positions && r.contributions == b.contributions && r.costsPaid == b.costsPaid
      && r.raised == b.raised && r.curve == b.curve + [equity] && r.filled == b.filled
  {
    hide Decide, Liquidation;
  }

  lemma FillLegMoves(s: Setup, b: Book, marks: map<string, real>)
    requires s.risk.maxOrdersPerDay >= 0
    ensures var r := FillLeg(s, b, marks);
      && r.contributions == b.contributions && r.curve == b.curve
      && (!r.raised ==> Equity(s, r, marks) == Equity(s, b, marks) - (r.costsPaid - b.costsPaid))
  {
    hide Rebalance, Worth;
  }

  /** One bar's equity, from the book carried into it. */
  lemma BarConserves(s: Setup, b: Book, visible: seq<Row>, marks: map<string, real>)
    requires |visible| > 0 && s.risk.maxOrdersPerDay >= 0 && !Bar(s, b, visible, marks).raised
    ensures var r := Bar(s, b, visible, marks);
      && !b.raised
      && r.curve == b.curve + [Equity(s, r, marks)]
      && Equity(s, r, marks)
         == b.cash + Worth(s.columns, b.positions, marks) + (r.contributions - b.contributions) - (r.costsPaid - b.costsPaid)
  {
    hide Worth, FillLeg, GateVerdict, GateLeg, DecisionLeg, Close, Deposits, FirstUncredited;
    var today := visible[|visible| - 1].date;
    var c := Deposits(s.contribution, FirstUncredited(b, today), today).value;
    var credited := Credit(b, c, today);
    FillLegMoves(s, credited, marks);
    var filled := FillLeg(s, credited, marks);
    var equity := Equity(s, filled, marks);
    DecisionKeepsBook(s, filled, visible, GateVerdict(s, filled, equity, today, c), equity, today, c);
  }

  /**
   Equity is conserved at every bar: it is the initial equity, plus every deposit so far, plus what the
   carried-forward marks gave the shares held into each bar, less the execution costs.
   */
  lemma {:induction false} EquityIsConserved(s: Setup, initial: real, rows: seq<Row>, n: nat)
    requires 0 < n <= |rows| && s.risk.maxOrdersPerDay >= 0 && !After(s, initial, rows, n).raised
    ensures var b := After(s, initial, rows, n);
      && |b.curve| == n
      && b.curve[n - 1] == Equity(s, b, CarriedForward(rows)[n - 1])
      && b.curve[n - 1] == initial + b.contributions + MarkGains(s, initial, rows, n) - b.costsPaid
  {
    hide Worth, Bar, CarriedForward;
    var before := After(s, initial, rows, n - 1);
    BarConserves(s, before, rows[..n], CarriedForward(rows)[n - 1]);
    if n > 1 {
      EquityIsConserved(s, initial, rows, n - 1);
    } else {
      NothingHeld(s.columns, CarriedForward(rows)[0]);
      assert MarkGains(s, initial, rows, 0) == 0.0;
    }
  }

  // ------------------------------------------------------------ what the costs consist of

  /** Costs of the fills, order by order. */
  function FillCosts(costs: CostConfig, results: seq<Result>): real {
    if |results| == 0 then 0.0
    else
      var last := results[|results| - 1];
      FillCosts(costs, results[..|results| - 1]) + if last.filled > 0.0 then OrderCost(costs, last.filled, last.price) else 0.0
  }

  /** What deleting dust can at most be worth: the tolerance at each fill's price. */
  function DustBound(results: seq<Result>): real {
    if |results| == 0 then 0.0
    else DustBound(results[..|results| - 1]) + Times(DUST, results[|results| - 1].price)
  }

  ghost predicate DistinctColumns(columns: seq<string>) {
    forall i, j :: 0 <= i < j < |columns| ==> columns[i] != columns[j]
  }

  /** Changing one symbol's holding changes the value by its own. */
  lemma {:induction false} WorthMoves(columns: seq<string>, p: map<string, real>, q: map<string, real>, marks: map<string, real>, symbol: string)
    requires DistinctColumns(columns) && forall t :: t != symbol ==> Shares(p, t) == Shares(q, t)
    ensures Worth(columns, q, marks) - Worth(columns, p, marks)
         == if symbol in columns then Holding(q, marks, symbol) - Holding(p, marks, symbol) else 0.0
  {
    if |columns| > 0 {
      var n := |columns| - 1;
      WorthMoves(columns[..n], p, q, marks, symbol);
      assert symbol in columns <==> symbol in columns[..n] || symbol == columns[n];
      assert columns[n] !in columns[..n];
      hide Times, MarkOf;
    }
  }

  lemma HoldingDifference(a: real, b: real, price: real)
    ensures Times(a, price) - Times(b, price) == Times(a - b, price)
  {
  }

  lemma SmallTimes(x: real, tolerance: real, price: real)
    requires -tolerance <= x <= tolerance && price > 0.0
    ensures -Times(tolerance, price) <= Times(x, price) <= Times(tolerance, price)
  {
    MulMono(x, tolerance, price);
    MulMono(-x, tolerance, price);
    assert (-x) * price == -(x * price);
  }

  /** A venue's worth at its own prices, over the frame's columns. */
  function VenueWorth(columns: seq<string>, v: Venue, prices: map<string, real>): real {
    v.cash + Worth(columns, v.positions, prices)
  }

  /** One execution loses its own cost, and at most the dust tolerance besides. */
  ghost predicate LosesCost(columns: seq<string>, m: Market, v: Venue, r: Venue, res: Result) {
    var cost := if res.filled > 0.0 then OrderCost(m.costs, res.filled, res.price) else 0.0;
    && res.price >= 0.0
    && AbsR(VenueWorth(columns, v, m.prices) - VenueWorth(columns, r, m.prices) - cost) <= Times(DUST, res.price)
  }

  lemma PriceOfDust(price: real)
    requires price >= 0.0
    ensures Times(DUST, price) >= 0.0 && Times(DUST, 0.0) == 0.0
  {
    MulMono(0.0, DUST, price);
  }

  lemma NothingExecuted(columns: seq<string>, m: Market, v: Venue, res: Result)
    requires res.filled == 0.0 && res.price == 0.0
    ensures LosesCost(columns, m, v, v, res)
  {
    PriceOfDust(0.0);
  }

  lemma BuyLosesCost(columns: seq<string>, m: Market, v: Venue, symbol: string, filled: real, res: Result)
    requires DistinctColumns(columns) && symbol in columns && Priced(m.prices, symbol) && filled > 0.0
    requires res.filled == filled && res.price == m.prices[symbol]
    ensures var r := v.(cash := v.cash - Needed(m.costs, filled, m.prices[symbol]),
                        positions := v.positions[symbol := Held(v, symbol) + filled]);
      LosesCost(columns, m, v, r, res)
  {
    var px := m.prices[symbol];
    var after := v.positions[symbol := Held(v, symbol) + filled];
    WorthMoves(columns, v.positions, after, m.prices, symbol);
    HoldingDifference(Held(v, symbol) + filled, Held(v, symbol), px);
    assert Times(filled, px) == filled * px;
    PriceOfDust(px);
    hide Worth, Times, OrderCost;
  }

  lemma SellLosesCost(columns: seq<string>, m: Market, v: Venue, symbol: string, filled: real, res: Result)
    requires DistinctColumns(columns) && symbol in columns && Priced(m.prices, symbol) && 0.0 < filled <= Held(v, symbol) + DUST
    requires res.filled == filled && res.price == m.prices[symbol]
    ensures var r := v.(cash := v.cash + Proceeds(m.costs, filled, m.prices[symbol]),
                        positions := PutHolding(v.positions, symbol, Held(v, symbol) - filled));
      LosesCost(columns, m, v, r, res)
  {
    var px := m.prices[symbol];
    var left := Held(v, symbol) - filled;
    var after := PutHolding(v.positions, symbol, left);
    WorthMoves(columns, v.positions, after, m.prices, symbol);
    var kept := if left <= DUST then 0.0 else left;
    assert Shares(after, symbol) == kept;
    HoldingDifference(kept, Held(v, symbol), px);
    HoldingDifference(kept, left, px);
    HoldingDifference(left, Held(v, symbol), px);
    assert Times(filled, px) == filled * px && Times(left - Held(v, symbol), px) == -(filled * px);
    SmallTimes(kept - left, DUST, px);
    hide Worth, Times, OrderCost, PutHolding;
  }

  lemma ExecutionLosesCost(columns: seq<string>, m: Market, v: Venue, o: Order)
    requires DistinctColumns(columns) && MarketOk(m) && o.shares > 0.0 && (Priced(m.prices, o.symbol) ==> o.symbol in columns)
    ensures var (r, res) := ExecuteOne(m, v, o); LosesCost(columns, m, v, r, res)
  {
    var (r, res) := ExecuteOne(m, v, o);
    FillablePart(m.knobs, o);
    var filled := Fillable(m.knobs, o);
    hide LosesCost, Needed, Proceeds, PutHolding, Fillable, Fee, Scripted;
    if res.filled == 0.0 {
      NothingExecuted(columns, m, v, res);
    } else if o.side == Buy {
      BuyLosesCost(columns, m, v, o.symbol, filled, res);
    } else {
      SellLosesCost(columns, m, v, o.symbol, filled, res);
    }
  }

  /** Over part of a run: what the venue lost is the costs of the fills, up to the dust. */
  ghost predicate LostCosts(columns: seq<string>, m: Market, a: Run, b: Run) {
    && |a.results| <= |b.results|
    && AbsR(VenueWorth(columns, a.venue, m.prices) - VenueWorth(columns, b.venue, m.prices)
            - (FillCosts(m.costs, b.results) - FillCosts(m.costs, a.results)))
       <= DustBound(b.results) - DustBound(a.results)
  }

  lemma LostCostsChain(columns: seq<string>, m: Market, a: Run, b: Run, c: Run)
    requires LostCosts(columns, m, a, b) && LostCosts(columns, m, b, c)
    ensures LostCosts(columns, m, a, c)
  {
    hide VenueWorth, FillCosts, DustBound;
  }

  lemma LostNothing(columns: seq<string>, m: Market, a: Run, b: Run)
    requires b.results == a.results && b.venue.cash == a.venue.cash && b.venue.positions == a.venue.positions
    ensures LostCosts(columns, m, a, b)
  {
    hide FillCosts, DustBound, Worth;
  }

  lemma OneResultMore(columns: seq<string>, m: Market, a: Run, b: Run, at: Venue, res: Result)
    requires at.cash == a.venue.cash && at.positions == a.venue.positions
    requires b.results == a.results + [res] && LosesCost(columns, m, at, b.venue, res)
    ensures LostCosts(columns, m, a, b)
  {
    assert (a.results + [res])[..|a.results|] == a.results;
    hide Worth, OrderCost, Times;
  }

  lemma SingleLosesCosts(columns: seq<string>, m: Market, cfg: RiskConfig, prices: map<string, real>, r: Run, o: Order)
    requires DistinctColumns(columns) && MarketOk(m) && m.knobs == BENIGN
    requires o.shares > 0.0 && (Priced(m.prices, o.symbol) ==> o.symbol in columns)
    ensures LostCosts(columns, m, r, SubmitSingle(m, cfg, prices, r, o).0)
    ensures r.raised || !SubmitSingle(m, cfg, prices, r, o).0.raised
  {
    var at := r.venue.(seen := r.venue.seen + 1, submissions := r.venue.submissions + [o]);
    ExecutionLosesCost(columns, m, at, o);
    BenignIsTerminal(m, at, o);
    var (v, res) := ExecuteOne(m, at, o);
    var (n, answer) := SubmitSingle(m, cfg, prices, r, o);
    hide ExecuteOne, Filter, LostCosts, LosesCost, MarketOk;
    if answer.Some? {
      OneResultMore(columns, m, r, n, at, res);
    } else {
      LostNothing(columns, m, r, n);
    }
  }

  /** Without failure injection every answer is terminal. */
  lemma BenignIsTerminal(m: Market, v: Venue, o: Order)
    requires m.knobs == BENIGN
    ensures IsTerminal(ExecuteOne(m, v, o).1.status)
  {
    hide Needed, Proceeds, Fee, Fillable;
  }

  lemma EscalatingLosesCosts(columns: seq<string>, m: Market, cfg: RiskConfig, prices: map<string, real>, r: Run, o: Order)
    requires DistinctColumns(columns) && MarketOk(m) && m.knobs == BENIGN
    requires o.shares > 0.0 && (Priced(m.prices, o.symbol) ==> o.symbol in columns) && !r.raised
    ensures LostCosts(columns, m, r, SubmitEscalating(m, cfg, prices, 1, r, o)) && !SubmitEscalating(m, cfg, prices, 1, r, o).raised
  {
    hide SubmitSingle, LostCosts, MarketOk;
    SingleLosesCosts(columns, m, cfg, prices, r, o);
    var (first, answer) := SubmitSingle(m, cfg, prices, r, o);
    if !first.raised && Escalates(o, 1, answer) {
      var market := Order(first.nextId, o.symbol, o.side, o.shares, o.fullExit, None);
      var again := first.(nextId := first.nextId + 1);
      SingleLosesCosts(columns, m, cfg, prices, again, market);
      var n := SubmitEscalating(m, cfg, prices, 1, r, o);
      SameCosts(columns, m, first, again, SubmitSingle(m, cfg, prices, again, market).0, n);
      LostCostsChain(columns, m, r, first, n);
    }
  }

  lemma SameCosts(columns: seq<string>, m: Market, a: Run, a1: Run, b: Run, b1: Run)
    requires LostCosts(columns, m, a1, b)
    requires a1.venue == a.venue && a1.results == a.results && b1.venue == b.venue && b1.results == b.results
    ensures LostCosts(columns, m, a, b1)
  {
    hide VenueWorth, FillCosts, DustBound;
  }

  lemma BuyLosesCosts(columns: seq<string>, m: Market, cfg: RiskConfig, prices: map<string, real>, r: Run, o: Order)
    requires DistinctColumns(columns) && MarketOk(m) && m.knobs == BENIGN && cfg.costs.Valid()
    requires o.shares > 0.0 && (Priced(m.prices, o.symbol) ==> o.symbol in columns) && !r.raised
    ensures LostCosts(columns, m, r, SendBuy(m, cfg, prices, 1, r, o)) && !SendBuy(m, cfg, prices, 1, r, o).raised
  {
    hide SubmitEscalating, LostCosts, MarketOk, Resized, Needed;
    LostNothing(columns, m, r, Drop(r, o, NoPriceAtSizing));
    LostNothing(columns, m, r, Drop(r, o, NoCash));
    if Priced(prices, o.symbol) {
      EscalatingLosesCosts(columns, m, cfg, prices, r, o);
      var resized := Resized(cfg.costs, o.shares, prices[o.symbol], r.venue.cash);
      if resized > 0 {
        var order := Order(r.nextId, o.symbol, Buy, resized as real, false, o.limit);
        var next := r.(nextId := r.nextId + 1);
        EscalatingLosesCosts(columns, m, cfg, prices, next, order);
        SameCosts(columns, m, r, next, SubmitEscalating(m, cfg, prices, 1, next, order), SubmitEscalating(m, cfg, prices, 1, next, order));
      }
    }
  }

  ghost predicate OrdersUsable(columns: seq<string>, m: Market, orders: seq<Order>) {
    forall i :: 0 <= i < |orders| ==> orders[i].shares > 0.0 && (Priced(m.prices, orders[i].symbol) ==> orders[i].symbol in columns)
  }

  lemma {:induction false} SellsLoseCosts(columns: seq<string>, m: Market, cfg: RiskConfig, prices: map<string, real>, r: Run, sells: seq<Order>)
    requires DistinctColumns(columns) && MarketOk(m) && m.knobs == BENIGN && OrdersUsable(columns, m, sells) && !r.raised
    ensures LostCosts(columns, m, r, SendSells(m, cfg, prices, 1, r, sells)) && !SendSells(m, cfg, prices, 1, r, sells).raised
  {
    hide SubmitEscalating, LostCosts, MarketOk;
    if |sells| == 0 {
      LostNothing(columns, m, r, r);
    } else {
      var n := |sells| - 1;
      SellsLoseCosts(columns, m, cfg, prices, r, sells[..n]);
      var before := SendSells(m, cfg, prices, 1, r, sells[..n]);
      EscalatingLosesCosts(columns, m, cfg, prices, before, sells[n]);
      LostCostsChain(columns, m, r, before, SubmitEscalating(m, cfg, prices, 1, before, sells[n]));
    }
  }

  lemma {:induction false} BuysLoseCosts(columns: seq<string>, m: Market, cfg: RiskConfig, prices: map<string, real>, r: Run, buys: seq<Order>)
    requires DistinctColumns(columns) && MarketOk(m) && m.knobs == BENIGN && cfg.costs.Valid()
    requires OrdersUsable(columns, m, buys) && !r.raised
    ensures LostCosts(columns, m, r, SendBuys(m, cfg, prices, 1, r, buys)) && !SendBuys(m, cfg, prices, 1, r, buys).raised
  {
    hide SendBuy, LostCosts, MarketOk;
    if |buys| == 0 {
      LostNothing(columns, m, r, r);
    } else {
      var n := |buys| - 1;
      BuysLoseCosts(columns, m, cfg, prices, r, buys[..n]);
      var before := SendBuys(m, cfg, prices, 1, r, buys[..n]);
      BuyLosesCosts(columns, m, cfg, prices, before, buys[n]);
      LostCostsChain(columns, m, r, before, SendBuy(m, cfg, prices, 1, before, buys[n]));
    }
  }

  /** A whole rebalance without failure injection: it never aborts, and it loses its fills' costs, up to dust. */
  lemma RebalanceLosesCosts(columns: seq<string>, m: Market, cfg: RiskConfig, prices: map<string, real>, v: Venue,
                            orders: seq<Order>, nextId: int)
    requires DistinctColumns(columns) && MarketOk(m) && m.knobs == BENIGN && cfg.costs.Valid() && cfg.maxOrdersPerDay >= 0
    requires OrdersUsable(columns, m, orders)
    ensures var n := Rebalance(m, cfg, prices, 1, v, orders, nextId, false);
      && !n.raised
      && AbsR(VenueWorth(columns, v, m.prices) - VenueWorth(columns, n.venue, m.prices) - FillCosts(m.costs, n.results))
         <= DustBound(n.results)
  {
    hide OfSide, Planned, SendSells, SendBuys, LostCosts, OrdersUsable, Kept, OverTheCap, MarketOk;
    var start := Opening(cfg, v, orders, nextId, false);
    var plan := Planned(cfg, orders, false);
    PlanUsable(columns, m, cfg, orders);
    SellsLoseCosts(columns, m, cfg, prices, start, OfSide(plan, Sell));
    var sold := SendSells(m, cfg, prices, 1, start, OfSide(plan, Sell));
    BuysLoseCosts(columns, m, cfg, prices, sold, OfSide(plan, Buy));
    var n := SendBuys(m, cfg, prices, 1, sold, OfSide(plan, Buy));
    LostCostsChain(columns, m, start, sold, n);
    FromNothing(columns, m, start, n);
  }

  /** One fill leg charges its fills' order costs, up to the value of deleted dust; and it never aborts. */
  lemma FillLegCharges(s: Setup, b: Book, marks: map<string, real>)
    requires DistinctColumns(s.columns) && s.risk.costs.Valid() && s.risk.maxOrdersPerDay >= 0 && b.pending.Some? && !b.raised
    requires OrdersUsable(s.columns, Market(s.risk.costs, BENIGN, marks), b.pending.value)
    ensures var r := FillLeg(s, b, marks);
      && !r.raised && b.filled <= r.filled
      && AbsR((r.costsPaid - b.costsPaid) - FillCosts(s.risk.costs, r.filled[|b.filled|..])) <= DustBound(r.filled[|b.filled|..])
  {
    var m := Market(s.risk.costs, BENIGN, marks);
    var v := Venue(b.cash, b.positions, 0, []);
    hide Rebalance, OrdersUsable, FillCosts, DustBound, Worth;
    RebalanceLosesCosts(s.columns, m, s.risk, marks, v, b.pending.value, b.nextId);
    var n := Rebalance(m, s.risk, marks, 1, v, b.pending.value, b.nextId, false);
    assert (b.filled + n.results)[|b.filled|..] == n.results;
  }

  lemma FromNothing(columns: seq<string>, m: Market, a: Run, b: Run)
    requires LostCosts(columns, m, a, b) && a.results == []
    ensures AbsR(VenueWorth(columns, a.venue, m.prices) - VenueWorth(columns, b.venue, m.prices) - FillCosts(m.costs, b.results))
         <= DustBound(b.results)
  {
    assert FillCosts(m.costs, a.results) == 0.0 && DustBound(a.results) == 0.0;
    hide VenueWorth, FillCosts, DustBound;
  }

  lemma PlanUsable(columns: seq<string>, m: Market, cfg: RiskConfig, orders: seq<Order>)
    requires cfg.maxOrdersPerDay >= 0 && OrdersUsable(columns, m, orders)
    ensures OrdersUsable(columns, m, OfSide(Planned(cfg, orders, false), Sell))
    ensures OrdersUsable(columns, m, OfSide(Planned(cfg, orders, false), Buy))
  {
    SideUsable(columns, m, orders, Sell);
    SideUsable(columns, m, orders, Buy);
    var plan := Planned(cfg, orders, false);
    assert OrdersUsable(columns, m, plan) by { hide OfSide; }
    SideUsable(columns, m, plan, Sell);
    SideUsable(columns, m, plan, Buy);
  }

  lemma {:induction false} SideUsable(columns: seq<string>, m: Market, orders: seq<Order>, side: Side)
    requires OrdersUsable(columns, m, orders)
    ensures OrdersUsable(columns, m, OfSide(orders, side))
  {
    if |orders| > 0 {
      SideUsable(columns, m, orders[..|orders| - 1], side);
    }
  }

  // ------------------------------------------------------------ what a run has pending

  /** Orders for a positive number of shares of the frame's symbols. */
  ghost predicate InFrame(columns: seq<string>, orders: seq<Order>) {
    forall i :: 0 <= i < |orders| ==> orders[i].shares > 0.0 && orders[i].symbol in columns
  }

  ghost predicate PendingInFrame(s: Setup, b: Book) {
    b.pending.Some? ==> InFrame(s.columns, b.pending.value)
  }

  lemma {:induction false} LiquidationInFrame(columns: seq<string>, positions: map<string, real>, nextId: int)
    ensures InFrame(columns, Liquidation(columns, positions, nextId))
  {
    if |columns| > 0 {
      LiquidationInFrame(columns[..|columns| - 1], positions, nextId);
    }
  }

  lemma {:induction false} ConcernedInFrame(columns: seq<string>, positions: map<string, real>, targets: map<string, real>)
    ensures forall sym :: sym in Concerned(columns, positions, targets) ==> sym in columns
  {
    if |columns| > 0 {
      ConcernedInFrame(columns[..|columns| - 1], positions, targets);
    }
  }

  lemma {:induction false} DiffInFrame(columns: seq<string>, symbols: seq<string>, positions: map<string, real>,
                                       targets: map<string, real>, prices: map<string, real>, equity: real, band: real, nextId: int)
    requires AllPriced(symbols, prices) && equity > 0.0
    requires forall sym :: sym in symbols ==> sym in columns
    ensures InFrame(columns, Diff(symbols, positions, targets, prices, equity, band, nextId))
  {
    hide TargetShares, WeightAt;
    if |symbols| > 0 {
      DiffInFrame(columns, symbols[..|symbols| - 1], positions, targets, prices, equity, band, nextId);
      assert symbols[|symbols| - 1] in symbols;
    }
  }

  lemma {:induction false} OfSideInFrame(columns: seq<string>, orders: seq<Order>, side: Side)
    requires InFrame(columns, orders)
    ensures InFrame(columns, OfSide(orders, side))
  {
    if |orders| > 0 {
      OfSideInFrame(columns, orders[..|orders| - 1], side);
    }
  }

  lemma DecideInFrame(s: Setup, b: Book, visible: seq<Row>, equity: real)
    requires |visible| > 0 && equity > 0.0
    ensures Decide(s, b, visible, equity).Some? ==> InFrame(s.columns, Decide(s, b, visible, equity).value)
  {
    hide InFrame, Diff, OfSide, Concerned, DataUsable, Clamp, LatestPrices;
    if Decide(s, b, visible, equity).Some? {
      var last := visible[|visible| - 1];
      var targets := ToMap(Clamp(s.clamp, s.strategy(visible).value));
      var symbols := Concerned(s.columns, b.positions, targets);
      var prices := LatestPrices(s, b, last);
      ConcernedInFrame(s.columns, b.positions, targets);
      DiffInFrame(s.columns, symbols, b.positions, targets, prices, equity, s.band, b.nextId);
      var diff := Diff(symbols, b.positions, targets, prices, equity, s.band, b.nextId);
      OfSideInFrame(s.columns, diff, Sell);
      OfSideInFrame(s.columns, diff, Buy);
      ConcatInFrame(s.columns, OfSide(diff, Sell), OfSide(diff, Buy));
    }
  }

  lemma ConcatInFrame(columns: seq<string>, a: seq<Order>, b: seq<Order>)
    requires InFrame(columns, a) && InFrame(columns, b)
    ensures InFrame(columns, a + b)
  {
  }

  lemma LegsKeepPending(s: Setup, b: Book, visible: seq<Row>, verdict: Option<Gate>, equity: real, today: int, c: real)
    requires |visible| > 0 && PendingInFrame(s, b)
    ensures PendingInFrame(s, Close(DecisionLeg(s, GateLeg(s, b, verdict), visible, verdict, equity), equity, today, c))
  {
    hide InFrame, Decide, Liquidation;
    LiquidationInFrame(s.columns, b.positions, b.nextId);
    var g := GateLeg(s, b, verdict);
    if equity > 0.0 {
      DecideInFrame(s, g, visible, equity);
    }
  }

  // ------------------------------------------------------------ what a run has charged and credited

  /** Sum of the contributions of the calendar days `from..to`. */
  function CalendarTotal(contribution: int -> real, from: int, to: int): real
    decreases if to < from then 0 else to - from + 1
  {
    if to < from then 0.0 else CalendarTotal(contribution, from, to - 1) + contribution(to)
  }

  /** A withdrawal is scheduled on one of the days `from..to`. */
  ghost predicate WithdrawalIn(contribution: int -> real, from: int, to: int) {
    exists d :: from <= d <= to && contribution(d) < 0.0
  }

  lemma {:induction false} DepositsAre(contribution: int -> real, from: int, to: int)
    ensures Deposits(contribution, from, to).None? <==> WithdrawalIn(contribution, from, to)
    ensures Deposits(contribution, from, to).Some? ==>
      Deposits(contribution, from, to).value == CalendarTotal(contribution, from, to) >= 0.0
    decreases if to < from then 0 else to - from + 1
  {
    if from <= to {
      DepositsAre(contribution, from, to - 1);
      assert WithdrawalIn(contribution, from, to) <==> WithdrawalIn(contribution, from, to - 1) || contribution(to) < 0.0;
    }
  }

  lemma {:induction false} CalendarSplits(contribution: int -> real, from: int, mid: int, until: int)
    requires from - 1 <= mid <= until
    ensures CalendarTotal(contribution, from, until) == CalendarTotal(contribution, from, mid) + CalendarTotal(contribution, mid + 1, until)
    ensures WithdrawalIn(contribution, from, until) <==> WithdrawalIn(contribution, from, mid) || WithdrawalIn(contribution, mid + 1, until)
    decreases until - mid
  {
    if mid < until {
      CalendarSplits(contribution, from, mid, until - 1);
    }
  }

  ghost predicate Ascending(rows: seq<Row>) {
    forall i, j :: 0 <= i <= j < |rows| ==> rows[i].date <= rows[j].date
  }

  /** Costs charged so far against the order costs of all fills so far. */
  ghost predicate CostsAccounted(s: Setup, b: Book) {
    AbsR(b.costsPaid - FillCosts(s.risk.costs, b.filled)) <= DustBound(b.filled)
  }

  lemma {:induction false} FillSumsConcat(costs: CostConfig, a: seq<Result>, b: seq<Result>)
    ensures FillCosts(costs, a + b) == FillCosts(costs, a) + FillCosts(costs, b)
    ensures DustBound(a + b) == DustBound(a) + DustBound(b)
  {
    hide OrderCost, Times;
    if |b| == 0 {
      assert a + b == a;
    } else {
      assert (a + b)[..|a + b| - 1] == a + b[..|b| - 1];
      FillSumsConcat(costs, a, b[..|b| - 1]);
    }
  }

  lemma InFrameUsable(columns: seq<string>, m: Market, orders: seq<Order>)
    requires InFrame(columns, orders)
    ensures OrdersUsable(columns, m, orders)
  {
  }

  lemma FillLegAccounts(s: Setup, b: Book, marks: map<string, real>)
    requires DistinctColumns(s.columns) && s.risk.costs.Valid() && s.risk.maxOrdersPerDay >= 0 && !b.raised
    requires PendingInFrame(s, b) && CostsAccounted(s, b)
    ensures var r := FillLeg(s, b, marks); !r.raised && PendingInFrame(s, r) && CostsAccounted(s, r) && r.prevDate == b.prevDate
  {
    hide Rebalance, OrdersUsable, FillCosts, DustBound, Worth, InFrame;
    if b.pending.Some? {
      InFrameUsable(s.columns, Market(s.risk.costs, BENIGN, marks), b.pending.value);
      FillLegCharges(s, b, marks);
      var r := FillLeg(s, b, marks);
      assert r.filled == b.filled + r.filled[|b.filled|..];
      FillSumsConcat(s.risk.costs, b.filled, r.filled[|b.filled|..]);
    }
  }

  /** What the run keeps: usable pending orders, accounted costs, and deposits for every day up to the last bar. */
  ghost predicate RunAccounted(s: Setup, b: Book, first: int, last: Option<int>) {
    && PendingInFrame(s, b) && CostsAccounted(s, b)
    && (!b.raised ==>
          b.prevDate == last
          && b.contributions == match last case None => 0.0 case Some(d) => CalendarTotal(s.contribution, first, d))
  }

  lemma BarAccounts(s: Setup, b: Book, visible: seq<Row>, marks: map<string, real>, first: int, last: Option<int>)
    requires |visible| > 0 && DistinctColumns(s.columns) && s.risk.costs.Valid() && s.risk.maxOrdersPerDay >= 0
    requires RunAccounted(s, b, first, last)
    requires var today := visible[|visible| - 1].date;
      match last case None => today == first case Some(d) => first <= d <= today
    ensures var today := visible[|visible| - 1].date; var r := Bar(s, b, visible, marks);
      && RunAccounted(s, r, first, Some(today))
      && (r.raised <==> b.raised || WithdrawalIn(s.contribution, FirstUncredited(b, today), today))
  {
    hide Worth, FillLeg, GateVerdict, GateLeg, DecisionLeg, Close, Deposits, PendingInFrame, FillCosts, DustBound, CalendarTotal,
      WithdrawalIn;
    var today := visible[|visible| - 1].date;
    if !b.raised {
      var from := FirstUncredited(b, today);
      DepositsAre(s.contribution, from, today);
      var deposits := Deposits(s.contribution, from, today);
      if deposits.Some? {
        var c := deposits.value;
        var credited := Credit(b, c, today);
        CreditKeepsPending(s, b, c, today);
        FillLegAccounts(s, credited, marks);
        FillLegMoves(s, credited, marks);
        var filled := FillLeg(s, credited, marks);
        var equity := Equity(s, filled, marks);
        var verdict := GateVerdict(s, filled, equity, today, c);
        LegsKeepPending(s, filled, visible, verdict, equity, today, c);
        DecisionKeepsBook(s, filled, visible, verdict, equity, today, c);
        LegsKeepDate(s, filled, visible, verdict, equity, today, c);
        if last.Some? {
          CalendarSplits(s.contribution, first, last.value, today);
        }
      } else {
        RaisedKeepsPending(s, b);
      }
    }
  }

  lemma CreditKeepsPending(s: Setup, b: Book, c: real, today: int)
    requires PendingInFrame(s, b)
    ensures PendingInFrame(s, Credit(b, c, today))
  {
  }

  lemma RaisedKeepsPending(s: Setup, b: Book)
    requires PendingInFrame(s, b)
    ensures PendingInFrame(s, b.(raised := true))
  {
  }

  lemma LegsKeepDate(s: Setup, b: Book, visible: seq<Row>, verdict: Option<Gate>, equity: real, today: int, c: real)
    requires |visible| > 0
    ensures Close(DecisionLeg(s, GateLeg(s, b, verdict), visible, verdict, equity), equity, today, c).prevDate == b.prevDate
  {
    hide Decide, Liquidation;
  }

  lemma {:induction false} RunIsAccounted(s: Setup, initial: real, rows: seq<Row>, n: nat)
    requires n <= |rows| && DistinctColumns(s.columns) && s.risk.costs.Valid() && s.risk.maxOrdersPerDay >= 0 && Ascending(rows)
    ensures var b := After(s, initial, rows, n); var first := if |rows| == 0 then 0 else rows[0].date;
      && RunAccounted(s, b, first, if n == 0 then None else Some(rows[n - 1].date))
      && (b.raised <==> n > 0 && WithdrawalIn(s.contribution, first, rows[n - 1].date))
  {
    hide Bar, CarriedForward, WithdrawalIn, CalendarTotal;
    if n == 0 {
      assert FillCosts(s.risk.costs, []) == 0.0 && DustBound([]) == 0.0;
    } else {
      var first := rows[0].date;
      RunIsAccounted(s, initial, rows, n - 1);
      var b := After(s, initial, rows, n - 1);
      hide CostsAccounted, PendingInFrame;
      var last := if n == 1 then None else Some(rows[n - 2].date);
      assert rows[..n][n - 1] == rows[n - 1];
      BarAccounts(s, b, rows[..n], CarriedForward(rows)[n - 1], first, last);
      if n > 1 {
        CalendarSplits(s.contribution, first, rows[n - 2].date, rows[n - 1].date);
      }
    }
  }

  /**
   Over the whole run the costs paid are the order costs of all fills, up to the value of deleted dust at
   each fill's price.
   */
  lemma CostsPaidAreOrderCosts(s: Setup, initial: real, rows: seq<Row>, n: nat)
    requires n <= |rows| && DistinctColumns(s.columns) && s.risk.costs.Valid() && s.risk.maxOrdersPerDay >= 0 && Ascending(rows)
    ensures var b := After(s, initial, rows, n);
      AbsR(b.costsPaid - FillCosts(s.risk.costs, b.filled)) <= DustBound(b.filled)
  {
    hide FillCosts, DustBound, After, PendingInFrame;
    RunIsAccounted(s, initial, rows, n);
  }

  /**
   The run credits every calendar day from its first bar to its last, trading day or not; and it aborts
   exactly when a withdrawal is scheduled on one of them.
   */
  lemma EveryDayIsCredited(s: Setup, initial: real, rows: seq<Row>, n: nat)
    requires 0 < n <= |rows| && DistinctColumns(s.columns) && s.risk.costs.Valid() && s.risk.maxOrdersPerDay >= 0 && Ascending(rows)
    ensures var b := After(s, initial, rows, n);
      && (b.raised <==> exists d :: rows[0].date <= d <= rows[n - 1].date && s.contribution(d) < 0.0)
      && (!b.raised ==> b.contributions == CalendarTotal(s.contribution, rows[0].date, rows[n - 1].date))
  {
    hide CostsAccounted, After, PendingInFrame, CalendarTotal;
    RunIsAccounted(s, initial, rows, n);
  }

  /**
   Equity in terms of the inputs and the fills: initial equity, every calendar day's deposit, the mark
   gains of what was held, less the order costs of all fills, up to the value of deleted dust.
   */
  lemma EquityExplained(s: Setup, initial: real, rows: seq<Row>, n: nat)
    requires 0 < n <= |rows| && DistinctColumns(s.columns) && s.risk.costs.Valid() && s.risk.maxOrdersPerDay >= 0 && Ascending(rows)
    requires forall d :: rows[0].date <= d <= rows[n - 1].date ==> s.contribution(d) >= 0.0
    ensures var b := After(s, initial, rows, n);
      && |b.curve| == n
      && AbsR(b.curve[n - 1] - (initial + CalendarTotal(s.contribution, rows[0].date, rows[n - 1].date)
                                + MarkGains(s, initial, rows, n) - FillCosts(s.risk.costs, b.filled)))
         <= DustBound(b.filled)
  {
    hide After, CalendarTotal, MarkGains, FillCosts, DustBound;
    EveryDayIsCredited(s, initial, rows, n);
    EquityIsConserved(s, initial, rows, n);
    CostsPaidAreOrderCosts(s, initial, rows, n);
  }
}
