/**
 What every rebalance keeps, for any orders, fill fractions, scripted statuses and outage: cash and
 holdings never go negative, sells precede buys, the budget holds, and no order is over-filled.
 */
module RebalanceSafety {
  import opened Common
  import opened Costs
  import opened RebalanceSpec

  ghost predicate KnobsOk(k: Knobs) {
    forall s :: s in k.fillFraction ==> 0.0 <= k.fillFraction[s] <= 1.0
  }

  ghost predicate MarketOk(m: Market) {
    m.costs.Valid() && KnobsOk(m.knobs)
  }

  ghost predicate OrdersOk(orders: seq<Order>) {
    forall i :: 0 <= i < |orders| ==> orders[i].shares > 0.0
  }

  /** Cash within the venue's tolerance of zero, and only real holdings on the books. */
  ghost predicate VenueOk(v: Venue) {
    v.cash >= -DUST && forall s :: s in v.positions ==> v.positions[s] > 0.0
  }

  // ------------------------------------------------------------ one execution

  lemma ExecuteKeepsVenue(m: Market, v: Venue, o: Order)
    requires MarketOk(m) && VenueOk(v) && o.shares > 0.0
    ensures VenueOk(ExecuteOne(m, v, o).0)
    ensures ExecuteOne(m, v, o).0 == v.(cash := ExecuteOne(m, v, o).0.cash, positions := ExecuteOne(m, v, o).0.positions)
  {
    hide Proceeds, Needed, Fee, Scripted, Fillable;
  }

  /** The venue fills between nothing and all of an order. */
  lemma FillablePart(k: Knobs, o: Order)
    requires KnobsOk(k) && o.shares > 0.0
    ensures 0.0 <= Fillable(k, o) <= o.shares
  {
    var frac := k.Fraction(o.symbol);
    assert 0.0 <= frac <= 1.0;
    MulMono(frac, 1.0, o.shares);
    MulMono(0.0, frac, o.shares);
    assert o.shares * frac == frac * o.shares;
  }

  /** An execution answers its own order, fills at most all of it, and a zero fill leaves the venue alone. */
  lemma ExecuteAnswers(m: Market, v: Venue, o: Order)
    requires MarketOk(m) && o.shares > 0.0
    ensures var (r, res) := ExecuteOne(m, v, o);
      res.order == o && 0.0 <= res.filled <= o.shares && (res.filled == 0.0 ==> r == v)
  {
    FillablePart(m.knobs, o);
    hide Proceeds, Fee, Scripted, Needed, Fillable;
  }

  /** The venue refuses this buy for lack of cash. */
  ghost predicate CashRejects(m: Market, v: Venue, o: Order) {
    var filled := Fillable(m.knobs, o);
    && (Scripted(m.knobs, o).None? || Scripted(m.knobs, o).value == Filled)
    && o.side == Buy && Priced(m.prices, o.symbol) && filled > 0.0
    && Needed(m.costs, filled, m.prices[o.symbol]) > v.cash + DUST
  }

  /** A part of an order needs no more cash than the whole. */
  lemma PartNeedsLess(m: Market, o: Order, price: real)
    requires MarketOk(m) && o.shares > 0.0 && price > 0.0
    ensures Needed(m.costs, Fillable(m.knobs, o), price) <= Needed(m.costs, o.shares, price)
  {
    hide Needed, Fillable;
    FillablePart(m.knobs, o);
    NeededMonotone(m.costs, Fillable(m.knobs, o), o.shares, price);
  }

  /** A buy the cash covers in full is never refused for cash, whatever fraction of it fills. */
  lemma CoveredBuyPasses(m: Market, v: Venue, o: Order)
    requires MarketOk(m) && o.shares > 0.0 && o.side == Buy && Priced(m.prices, o.symbol)
    requires Needed(m.costs, o.shares, m.prices[o.symbol]) <= v.cash
    ensures !CashRejects(m, v, o)
    ensures ExecuteOne(m, v, o).1.status == Rejected ==> Scripted(m.knobs, o) == Some(Rejected)
  {
    hide Needed, Proceeds, Fee, Scripted, KnobsOk, Fillable;
    PartNeedsLess(m, o, m.prices[o.symbol]);
  }

  // ------------------------------------------------------------ one submission

  /** What one call of `SubmitSingle` may do to the run. */
  ghost predicate SingleStep(r: Run, o: Order, n: Run, answer: Option<Result>) {
    && VenueOk(n.venue)
    && (n.venue.submissions == r.venue.submissions || n.venue.submissions == r.venue.submissions + [o])
    && (r.budget.None? <==> n.budget.None?)
    && (r.budget.Some? && r.budget.value >= 0 ==>
          0 <= n.budget.value
          && |n.venue.submissions| + n.budget.value <= |r.venue.submissions| + r.budget.value)
    && n.results == r.results + (if answer.Some? then [answer.value] else [])
    && (answer.Some? ==> answer.value.order == o && 0.0 <= answer.value.filled <= o.shares)
    && (answer.Some? && answer.value.filled == 0.0 ==>
          n.venue.cash == r.venue.cash && n.venue.positions == r.venue.positions)
    && n.nextId == r.nextId && n.escalations == r.escalations
  }

  lemma SubmitOneSteps(m: Market, v: Venue, o: Order)
    requires MarketOk(m) && VenueOk(v) && o.shares > 0.0
    ensures var (n, answer) := SubmitOne(m, v, o);
      && VenueOk(n)
      && (n.submissions == v.submissions || n.submissions == v.submissions + [o])
      && (answer.Some? ==> answer.value.order == o && 0.0 <= answer.value.filled <= o.shares)
      && (answer.Some? && answer.value.filled == 0.0 ==> n.cash == v.cash && n.positions == v.positions)
  {
    hide ExecuteOne, VenueOk, MarketOk;
    var at := v.(seen := v.seen + 1, submissions := v.submissions + [o]);
    VenueFrame(v, at);
    VenueFrame(v, v.(seen := v.seen + 1));
    ExecuteKeepsVenue(m, at, o);
    ExecuteAnswers(m, at, o);
  }

  lemma SubmitSingleSteps(m: Market, cfg: RiskConfig, prices: map<string, real>, r: Run, o: Order)
    requires MarketOk(m) && VenueOk(r.venue) && o.shares > 0.0
    ensures var (n, answer) := SubmitSingle(m, cfg, prices, r, o); SingleStep(r, o, n, answer)
  {
    hide SubmitOne, Filter, VenueOk, MarketOk;
    SubmitOneSteps(m, r.venue, o);
    assert r.results + [] == r.results;
    var answer := SubmitSingle(m, cfg, prices, r, o).1;
    assert answer.Some? ==> answer == SubmitOne(m, r.venue, o).1;
  }

  lemma VenueFrame(v: Venue, w: Venue)
    requires VenueOk(v) && w.cash == v.cash && w.positions == v.positions
    ensures VenueOk(w)
  {
  }

  // ------------------------------------------------------------ one planned order

  /** Shares filled for one symbol on one side. */
  function FilledFor(results: seq<Result>, symbol: string, side: Side): real {
    if |results| == 0 then 0.0
    else
      var last := results[|results| - 1];
      FilledFor(results[..|results| - 1], symbol, side)
      + if last.order.symbol == symbol && last.order.side == side then last.filled else 0.0
  }

  function SharesFor(orders: seq<Order>, symbol: string, side: Side): real {
    if |orders| == 0 then 0.0
    else
      var last := orders[|orders| - 1];
      SharesFor(orders[..|orders| - 1], symbol, side) + if last.symbol == symbol && last.side == side then last.shares else 0.0
  }

  lemma FilledAppend(results: seq<Result>, res: Result, symbol: string, side: Side)
    ensures FilledFor(results + [res], symbol, side)
         == FilledFor(results, symbol, side) + if res.order.symbol == symbol && res.order.side == side then res.filled else 0.0
  {
    assert (results + [res])[..|results|] == results;
  }

  /** Appended submissions, all of one side. */
  ghost predicate AppendsSide(before: seq<Order>, after: seq<Order>, side: Side) {
    && |before| <= |after| && after[..|before|] == before
    && forall i :: |before| <= i < |after| ==> after[i].side == side
  }

  /** What the handling of one planned order may do to the run. */
  ghost predicate OrderStep(r: Run, n: Run, symbol: string, side: Side, shares: real) {
    && VenueOk(n.venue)
    && AppendsSide(r.venue.submissions, n.venue.submissions, side)
    && |n.venue.submissions| <= |r.venue.submissions| + 2
    && (r.budget.None? <==> n.budget.None?)
    && (r.budget.Some? && r.budget.value >= 0 ==>
          0 <= n.budget.value
          && |n.venue.submissions| + n.budget.value <= |r.venue.submissions| + r.budget.value)
    && (forall s, d :: FilledFor(n.results, s, d)
          <= FilledFor(r.results, s, d) + if s == symbol && d == side then shares else 0.0)
  }

  /** What one submission can add to the filled shares. */
  lemma SingleFills(r: Run, o: Order, n: Run, answer: Option<Result>)
    requires SingleStep(r, o, n, answer)
    ensures var got := if answer.Some? then answer.value.filled else 0.0;
      forall s, d :: FilledFor(n.results, s, d) == FilledFor(r.results, s, d) + if s == o.symbol && d == o.side then got else 0.0
  {
    hide VenueOk, FilledFor;
    if answer.Some? {
      forall s, d ensures FilledFor(n.results, s, d)
          == FilledFor(r.results, s, d) + (if s == o.symbol && d == o.side then answer.value.filled else 0.0) {
        FilledAppend(r.results, answer.value, s, d);
      }
    } else {
      assert n.results == r.results;
    }
  }

  /** One submission, then possibly the same shares again at market after a first answer of nothing. */
  lemma TwoSteps(r: Run, o: Order, first: Run, got: Option<Result>, market: Order, second: Run, more: Option<Result>, n: Run)
    requires SingleStep(r, o, first, got) && got.Some? && got.value.filled == 0.0
    requires market.symbol == o.symbol && market.side == o.side && market.shares == o.shares
    requires SingleStep(first.(nextId := first.nextId + 1), market, second, more)
    requires n.venue == second.venue && n.budget == second.budget && n.results == second.results
    ensures OrderStep(r, n, o.symbol, o.side, o.shares)
  {
    SingleFills(r, o, first, got);
    SingleFills(first.(nextId := first.nextId + 1), market, second, more);
    hide VenueOk, FilledFor;
  }

  lemma OneStep(r: Run, o: Order, n: Run, answer: Option<Result>)
    requires SingleStep(r, o, n, answer) && o.shares > 0.0
    ensures OrderStep(r, n, o.symbol, o.side, o.shares)
  {
    SingleFills(r, o, n, answer);
    hide VenueOk, FilledFor;
  }

  lemma EscalatingSteps(m: Market, cfg: RiskConfig, prices: map<string, real>, maxHops: int, r: Run, o: Order)
    requires MarketOk(m) && VenueOk(r.venue) && o.shares > 0.0
    ensures OrderStep(r, SubmitEscalating(m, cfg, prices, maxHops, r, o), o.symbol, o.side, o.shares)
  {
    hide SubmitSingle, SingleStep, OrderStep, VenueOk, MarketOk;
    SubmitSingleSteps(m, cfg, prices, r, o);
    var (first, answer) := SubmitSingle(m, cfg, prices, r, o);
    if first.raised || !Escalates(o, maxHops, answer) {
      OneStep(r, o, first, answer);
    } else {
      var market := Order(first.nextId, o.symbol, o.side, o.shares, o.fullExit, None);
      var again := first.(nextId := first.nextId + 1);
      StepVenue(r, o, first, answer);
      SubmitSingleSteps(m, cfg, prices, again, market);
      var (second, more) := SubmitSingle(m, cfg, prices, again, market);
      TwoSteps(r, o, first, answer, market, second, more, SubmitEscalating(m, cfg, prices, maxHops, r, o));
    }
  }

  lemma StepVenue(r: Run, o: Order, n: Run, answer: Option<Result>)
    requires SingleStep(r, o, n, answer)
    ensures VenueOk(n.venue)
  {
  }

  lemma BuySteps(m: Market, cfg: RiskConfig, prices: map<string, real>, maxHops: int, r: Run, o: Order)
    requires MarketOk(m) && cfg.costs.Valid() && VenueOk(r.venue) && o.shares > 0.0 && o.side == Buy
    ensures OrderStep(r, SendBuy(m, cfg, prices, maxHops, r, o), o.symbol, Buy, o.shares)
  {
    hide SubmitEscalating, Resized, Needed, VenueOk, FilledFor;
    if Priced(prices, o.symbol) {
      var px := prices[o.symbol];
      var available := r.venue.cash;
      EscalatingSteps(m, cfg, prices, maxHops, r, o);
      var resized := Resized(cfg.costs, o.shares, px, available);
      if resized > 0 {
        ResizedWithinPlan(cfg.costs, o.shares, px, available);
        var order := Order(r.nextId, o.symbol, Buy, resized as real, false, o.limit);
        EscalatingSteps(m, cfg, prices, maxHops, r.(nextId := r.nextId + 1), order);
      }
    }
  }

  /** A resized buy is affordable and never larger than planned. */
  lemma ResizedWithinPlan(costs: CostConfig, planned: real, price: real, available: real)
    requires costs.Valid() && price > 0.0 && Resized(costs, planned, price, available) > 0
    ensures Resized(costs, planned, price, available) as real <= planned
    ensures Affordable(costs, Resized(costs, planned, price, available), price, available)
  {
    var seed := SeedSize(planned, price, available);
    OneShrinkIsEnough(costs, seed, price, available);
    hide OrderCost, ShrinkFrom, Affordable;
  }

  // ------------------------------------------------------------ the whole run

  /** The order in which a run's submissions go out. */
  ghost predicate SellsThenBuys(before: seq<Order>, after: seq<Order>) {
    && |before| <= |after| && after[..|before|] == before
    && forall i, j :: |before| <= i < j < |after| && after[i].side == Buy ==> after[j].side == Buy
  }

  ghost predicate PhaseStep(r: Run, n: Run, orders: seq<Order>, side: Side) {
    && VenueOk(n.venue)
    && AppendsSide(r.venue.submissions, n.venue.submissions, side)
    && |n.venue.submissions| <= |r.venue.submissions| + 2 * |orders|
    && (r.budget.None? <==> n.budget.None?)
    && (r.budget.Some? && r.budget.value >= 0 ==>
          0 <= n.budget.value
          && |n.venue.submissions| + n.budget.value <= |r.venue.submissions| + r.budget.value)
    && (forall s, d :: FilledFor(n.results, s, d) <= FilledFor(r.results, s, d) + SharesFor(orders, s, d))
  }

  lemma {:induction false} SharesNonNegative(orders: seq<Order>, symbol: string, side: Side)
    requires OrdersOk(orders)
    ensures SharesFor(orders, symbol, side) >= 0.0
  {
    if |orders| > 0 {
      SharesNonNegative(orders[..|orders| - 1], symbol, side);
    }
  }

  lemma PhaseExtends(r: Run, mid: Run, n: Run, orders: seq<Order>, o: Order)
    requires PhaseStep(r, mid, orders, o.side) && o.shares > 0.0
    requires n == mid || OrderStep(mid, n, o.symbol, o.side, o.shares)
    ensures PhaseStep(r, n, orders + [o], o.side)
  {
    hide VenueOk, FilledFor, SharesFor;
    forall s, d ensures FilledFor(n.results, s, d) <= FilledFor(r.results, s, d) + SharesFor(orders + [o], s, d) {
      SharesAppend(orders, o, s, d);
    }
  }

  lemma SharesAppend(orders: seq<Order>, o: Order, symbol: string, side: Side)
    ensures SharesFor(orders + [o], symbol, side)
         == SharesFor(orders, symbol, side) + if o.symbol == symbol && o.side == side then o.shares else 0.0
  {
    assert (orders + [o])[..|orders|] == orders;
  }

  lemma EmptyPhase(r: Run, side: Side)
    requires VenueOk(r.venue)
    ensures PhaseStep(r, r, [], side)
  {
  }

  lemma {:induction false} SellPhase(m: Market, cfg: RiskConfig, prices: map<string, real>, maxHops: int, r: Run, sells: seq<Order>)
    requires MarketOk(m) && VenueOk(r.venue) && OrdersOk(sells)
    requires forall i :: 0 <= i < |sells| ==> sells[i].side == Sell
    ensures PhaseStep(r, SendSells(m, cfg, prices, maxHops, r, sells), sells, Sell)
  {
    hide VenueOk, SubmitEscalating, OrderStep;
    if |sells| == 0 {
      EmptyPhase(r, Sell);
    } else {
      var n := |sells| - 1;
      SellPhase(m, cfg, prices, maxHops, r, sells[..n]);
      var mid := SendSells(m, cfg, prices, maxHops, r, sells[..n]);
      EscalatingSteps(m, cfg, prices, maxHops, mid, sells[n]);
      PhaseExtends(r, mid, SendSells(m, cfg, prices, maxHops, r, sells), sells[..n], sells[n]);
      assert sells[..n] + [sells[n]] == sells;
    }
  }

  lemma {:induction false} BuyPhase(m: Market, cfg: RiskConfig, prices: map<string, real>, maxHops: int, r: Run, buys: seq<Order>)
    requires MarketOk(m) && cfg.costs.Valid() && VenueOk(r.venue) && OrdersOk(buys)
    requires forall i :: 0 <= i < |buys| ==> buys[i].side == Buy
    ensures PhaseStep(r, SendBuys(m, cfg, prices, maxHops, r, buys), buys, Buy)
  {
    hide VenueOk, SendBuy, OrderStep;
    if |buys| == 0 {
      EmptyPhase(r, Buy);
    } else {
      var n := |buys| - 1;
      BuyPhase(m, cfg, prices, maxHops, r, buys[..n]);
      var mid := SendBuys(m, cfg, prices, maxHops, r, buys[..n]);
      BuySteps(m, cfg, prices, maxHops, mid, buys[n]);
      PhaseExtends(r, mid, SendBuys(m, cfg, prices, maxHops, r, buys), buys[..n], buys[n]);
      assert buys[..n] + [buys[n]] == buys;
    }
  }

  lemma {:induction false} OfSideIs(orders: seq<Order>, side: Side)
    ensures forall i :: 0 <= i < |OfSide(orders, side)| ==> OfSide(orders, side)[i].side == side
    ensures OrdersOk(orders) ==> OrdersOk(OfSide(orders, side))
    ensures forall s, d :: SharesFor(OfSide(orders, side), s, d) == if d == side then SharesFor(orders, s, d) else 0.0
  {
    if |orders| > 0 {
      var n := |orders| - 1;
      OfSideIs(orders[..n], side);
      var before := OfSide(orders[..n], side);
      assert OfSide(orders, side) == if orders[n].side == side then before + [orders[n]] else before;
      assert orders[..n] + [orders[n]] == orders;
      forall s, d ensures SharesFor(OfSide(orders, side), s, d) == if d == side then SharesFor(orders, s, d) else 0.0 {
        SharesAppend(orders[..n], orders[n], s, d);
        if orders[n].side == side {
          SharesAppend(before, orders[n], s, d);
        }
      }
    }
  }

  lemma PlanIsOk(cfg: RiskConfig, orders: seq<Order>, liquidation: bool)
    requires cfg.maxOrdersPerDay >= 0 && OrdersOk(orders)
    ensures OrdersOk(Planned(cfg, orders, liquidation))
  {
    OfSideIs(orders, Sell);
    OfSideIs(orders, Buy);
    hide OfSide;
  }

  /**
   A rebalance's safety, for every order list, fill fraction, scripted status and mid-flight outage:
   cash and holdings stay non-negative (cash within the venue's tolerance), every sell is submitted
   before any buy, a capped run submits at most the cap with escalations counted, and no symbol is
   filled beyond what was planned for it.
   */
  lemma RebalanceIsSafe(m: Market, cfg: RiskConfig, prices: map<string, real>, maxHops: int, v: Venue, orders: seq<Order>,
                        nextId: int, liquidation: bool)
    requires MarketOk(m) && cfg.costs.Valid() && cfg.maxOrdersPerDay >= 1 && VenueOk(v) && OrdersOk(orders)
    ensures var n := Rebalance(m, cfg, prices, maxHops, v, orders, nextId, liquidation);
      && VenueOk(n.venue)
      && SellsThenBuys(v.submissions, n.venue.submissions)
      && (!liquidation ==> |n.venue.submissions| <= |v.submissions| + cfg.maxOrdersPerDay)
      && (forall s, d :: FilledFor(n.results, s, d) <= SharesFor(Planned(cfg, orders, liquidation), s, d))
  {
    hide Planned, OfSide, SendSells, SendBuys, SharesFor, FilledFor, Kept, VenueOk, OrdersOk, MarketOk;
    var plan := Planned(cfg, orders, liquidation);
    PlanIsOk(cfg, orders, liquidation);
    OfSideIs(plan, Sell);
    OfSideIs(plan, Buy);
    var start := Opening(cfg, v, orders, nextId, liquidation);
    NothingFilled(start);
    hide Opening;
    OpeningIs(cfg, v, orders, nextId, liquidation);
    SellPhase(m, cfg, prices, maxHops, start, OfSide(plan, Sell));
    var sold := SendSells(m, cfg, prices, maxHops, start, OfSide(plan, Sell));
    BuyPhase(m, cfg, prices, maxHops, sold, OfSide(plan, Buy));
    forall s, d ensures SharesFor(plan, s, d) >= 0.0 {
      SharesNonNegative(plan, s, d);
    }
  }

  lemma NothingFilled(r: Run)
    requires r.results == []
    ensures forall s, d :: FilledFor(r.results, s, d) == 0.0
  {
  }

  lemma OpeningIs(cfg: RiskConfig, v: Venue, orders: seq<Order>, nextId: int, liquidation: bool)
    requires cfg.maxOrdersPerDay >= 0
    ensures var start := Opening(cfg, v, orders, nextId, liquidation);
      start.venue == v && start.results == [] && start.budget == if liquidation then None else Some(cfg.maxOrdersPerDay)
  {
  }

  // ------------------------------------------------------------ no cash rejections

  /** Rejected buys were rejected on the script, never for cash. */
  ghost predicate OnlyScripted(m: Market, results: seq<Result>, from: nat) {
    forall i :: from <= i < |results| && results[i].order.side == Buy && results[i].status == Rejected ==>
      Scripted(m.knobs, results[i].order) == Some(Rejected)
  }

  lemma SingleNotCashRejected(m: Market, cfg: RiskConfig, r: Run, o: Order)
    requires MarketOk(m) && o.shares > 0.0 && o.side == Buy && Priced(m.prices, o.symbol)
    requires Needed(m.costs, o.shares, m.prices[o.symbol]) <= r.venue.cash
    ensures var (n, answer) := SubmitSingle(m, cfg, m.prices, r, o);
      answer.Some? && answer.value.status == Rejected ==> Scripted(m.knobs, o) == Some(Rejected)
  {
    hide ExecuteOne, Filter, Scripted, Needed, MarketOk;
    CoveredBuyPasses(m, r.venue.(seen := r.venue.seen + 1, submissions := r.venue.submissions + [o]), o);
  }

  lemma CoveredBuyNotCashRejected(m: Market, cfg: RiskConfig, maxHops: int, r: Run, o: Order)
    requires MarketOk(m) && VenueOk(r.venue) && o.shares > 0.0 && o.side == Buy && Priced(m.prices, o.symbol)
    requires Needed(m.costs, o.shares, m.prices[o.symbol]) <= r.venue.cash
    ensures OnlyScripted(m, SubmitEscalating(m, cfg, m.prices, maxHops, r, o).results, |r.results|)
  {
    hide SubmitSingle, Scripted, Needed, MarketOk, VenueOk;
    SubmitSingleSteps(m, cfg, m.prices, r, o);
    SingleNotCashRejected(m, cfg, r, o);
    var (first, answer) := SubmitSingle(m, cfg, m.prices, r, o);
    if !first.raised && Escalates(o, maxHops, answer) {
      var market := Order(first.nextId, o.symbol, o.side, o.shares, o.fullExit, None);
      var again := first.(nextId := first.nextId + 1);
      SubmitSingleSteps(m, cfg, m.prices, again, market);
      SingleNotCashRejected(m, cfg, again, market);
    }
  }

  /**
   When the engine's prices and costs are the venue's, no buy that is sent, resized or not, and no
   escalation of it, is rejected for cash.
   */
  lemma BuyNotCashRejected(m: Market, cfg: RiskConfig, maxHops: int, r: Run, o: Order)
    requires MarketOk(m) && cfg.costs == m.costs && VenueOk(r.venue) && o.shares > 0.0 && o.side == Buy
    ensures OnlyScripted(m, SendBuy(m, cfg, m.prices, maxHops, r, o).results, |r.results|)
  {
    hide SubmitEscalating, Resized, Needed, VenueOk, Scripted;
    if Priced(m.prices, o.symbol) {
      var px := m.prices[o.symbol];
      var resized := Resized(cfg.costs, o.shares, px, r.venue.cash);
      if Needed(cfg.costs, o.shares, px) <= r.venue.cash {
        CoveredBuyNotCashRejected(m, cfg, maxHops, r, o);
      } else if resized > 0 {
        ResizedWithinPlan(cfg.costs, o.shares, px, r.venue.cash);
        var order := Order(r.nextId, o.symbol, Buy, resized as real, false, o.limit);
        CoveredBuyNotCashRejected(m, cfg, maxHops, r.(nextId := r.nextId + 1), order);
      }
    }
  }

  /** The cap drops buys before sells: if any sell is dropped, no buy is kept; nothing is lost or invented. */
  lemma CapSparesSells(orders: seq<Order>, cap: int)
    requires cap >= 0
    ensures Kept(orders, cap) + OverTheCap(orders, cap) == Sorted(orders) && |Kept(orders, cap)| <= cap
    ensures multiset(Sorted(orders)) == multiset(orders)
    ensures (exists o :: o in OverTheCap(orders, cap) && o.side == Sell) ==> forall o :: o in Kept(orders, cap) ==> o.side == Sell
  {
    hide OfSide;
    SidesSplit(orders);
    assert multiset(Sorted(orders)) == multiset(OfSide(orders, Sell)) + multiset(OfSide(orders, Buy));
    OfSideIs(orders, Sell);
    OfSideIs(orders, Buy);
    if |Sorted(orders)| > cap {
      DroppedSell(OfSide(orders, Sell), OfSide(orders, Buy), cap);
    }
  }

  lemma DroppedSell(sells: seq<Order>, buys: seq<Order>, cap: int)
    requires cap >= 0
    requires (forall i :: 0 <= i < |sells| ==> sells[i].side == Sell) && (forall i :: 0 <= i < |buys| ==> buys[i].side == Buy)
    requires cap < |sells + buys|
    ensures (exists o :: o in (sells + buys)[cap..] && o.side == Sell) ==> forall o :: o in (sells + buys)[..cap] ==> o.side == Sell
  {
    if o :| o in (sells + buys)[cap..] && o.side == Sell {
      var k :| 0 <= k < |(sells + buys)[cap..]| && (sells + buys)[cap..][k] == o;
      assert (sells + buys)[cap + k] == o;
    }
  }

  lemma AppendCounts<T>(xs: seq<T>, x: T)
    ensures multiset(xs + [x]) == multiset(xs) + multiset{x}
  {
  }

  lemma JoinSide<T>(a: seq<T>, b: seq<T>, all: seq<T>, x: T)
    requires multiset(a) + multiset(b) == multiset(all)
    ensures multiset(a + [x]) + multiset(b) == multiset(all + [x])
    ensures multiset(a) + multiset(b + [x]) == multiset(all + [x])
  {
    AppendCounts(all, x);
    AppendCounts(a, x);
    AppendCounts(b, x);
  }

  /** One more order joins its own side. */
  lemma SideStep(orders: seq<Order>, n: nat, side: Side)
    requires n + 1 == |orders|
    ensures OfSide(orders, side)
         == OfSide(orders[..n], side) + if orders[n].side == side then [orders[n]] else []
  {
    assert orders[..|orders| - 1] == orders[..n];
  }

  lemma NoSides()
    ensures OfSide([], Sell) == [] && OfSide([], Buy) == []
  {
  }

  lemma {:induction false} SidesSplit(orders: seq<Order>)
    ensures multiset(OfSide(orders, Sell)) + multiset(OfSide(orders, Buy)) == multiset(orders)
  {
    hide OfSide;
    if |orders| == 0 {
      NoSides();
    } else {
      var n := |orders| - 1;
      SidesSplit(orders[..n]);
      SideStep(orders, n, Sell);
      SideStep(orders, n, Buy);
      var sells, buys := OfSide(orders[..n], Sell), OfSide(orders[..n], Buy);
      JoinSide(sells, buys, orders[..n], orders[n]);
      assert sells + [] == sells && buys + [] == buys;
      assert orders == orders[..n] + [orders[n]];
    }
  }
}
