/**
 The rebalance in plain figures: what a round trip costs, which orders the risk filter lets through, what one
 execution fills and moves, and when a limit order is sent again at market.
 */
module RebalanceRules {
  import opened Common
  import opened Costs
  import opened RebalanceSpec

  // ------------------------------------------------------------ costs

  /** The venue's fee on `shares` worth `notional`: the larger of the minimum and the per-share fee, or a rate. */
  ghost predicate FeeIs(cfg: CostConfig, shares: real, notional: real, fee: real) {
    if !cfg.fixedPerOrder then fee == cfg.proportionalRate * notional
    else if shares <= 0.0 then fee == 0.0
    else fee >= cfg.fixedMinFee && fee >= cfg.perShareFee * shares && fee in {cfg.fixedMinFee, cfg.perShareFee * shares}
  }

  /** Buying and selling the same shares at one price costs the whole spread, the slippage twice and two fees. */
  lemma RoundTripCost(cfg: CostConfig, shares: real, price: real, fee: real)
    requires FeeIs(cfg, shares, shares * price, fee)
    ensures Fee(cfg, shares, price) == fee
    ensures Needed(cfg, shares, price) - Proceeds(cfg, shares, price)
         == 2.0 * fee + (cfg.spreadBps + 2.0 * cfg.slippageBps) / 10000.0 * (shares * price)
    ensures Needed(cfg, shares, price) - shares * price == shares * price - Proceeds(cfg, shares, price)
  {
    assert Commission(cfg, shares, shares * price) == fee;
    TwiceTheRate(cfg.spreadBps, cfg.slippageBps, shares * price);
    hide Commission;
  }

  lemma TwiceTheRate(spread: real, slippage: real, notional: real)
    ensures 2.0 * ((spread / 2.0 / 10000.0 + slippage / 10000.0) * notional)
         == (spread + 2.0 * slippage) / 10000.0 * notional
  {
    assert 2.0 * (spread / 2.0 / 10000.0 + slippage / 10000.0) == (spread + 2.0 * slippage) / 10000.0;
  }

  // ------------------------------------------------------------ the risk filter

  /**
   A priced order passes when it is worth the minimum and its cost is at most the allowed share of that worth; a
   full exit passes whenever selling costs less than it brings.
   */
  ghost predicate Passes(cfg: RiskConfig, o: Order, prices: map<string, real>) {
    && o.symbol in prices && prices[o.symbol] > 0.0
    && var worth := o.shares * prices[o.symbol];
       if o.fullExit then OrderCost(cfg.costs, o.shares, prices[o.symbol]) < worth
       else worth >= cfg.minOrderNotional && OrderCost(cfg.costs, o.shares, prices[o.symbol]) <= cfg.maxCostFraction * worth
  }

  lemma RatioOf(cost: real, worth: real, limit: real)
    requires worth > 0.0
    ensures cost / worth > limit <==> cost > limit * worth
    ensures cost / worth >= 1.0 <==> cost >= worth
  {
    var q := cost / worth;
    assert q * worth == cost;
    SignTimes(q - limit, worth);
    SignTimes(q - 1.0, worth);
    assert (q - limit) * worth == cost - limit * worth;
    assert (q - 1.0) * worth == cost - worth;
  }

  lemma PositiveWorth(shares: real, price: real)
    requires shares > 0.0 && price > 0.0
    ensures shares * price > 0.0
  {
  }

  lemma FilterExactly(cfg: RiskConfig, o: Order, prices: map<string, real>)
    requires o.shares > 0.0
    ensures Filter(cfg, o, prices).None? <==> Passes(cfg, o, prices)
    ensures Filter(cfg, o, prices) == Some(NoPrice) <==> !(o.symbol in prices && prices[o.symbol] > 0.0)
    ensures Filter(cfg, o, prices) == Some(Dust) ==> o.fullExit
    ensures Filter(cfg, o, prices) in {Some(BelowMinimum), Some(CostTooHigh)} ==> !o.fullExit
  {
    hide OrderCost;
    if o.symbol in prices && prices[o.symbol] > 0.0 {
      PositiveWorth(o.shares, prices[o.symbol]);
      RatioOf(OrderCost(cfg.costs, o.shares, prices[o.symbol]), o.shares * prices[o.symbol], cfg.maxCostFraction);
    }
  }

  // ------------------------------------------------------------ one execution

  /** Nothing scripted, or a scripted fill. */
  ghost predicate Answers(k: Knobs, o: Order) {
    if o.id in k.byId then k.byId[o.id] == Filled
    else if o.symbol in k.bySymbol then k.bySymbol[o.symbol] == Filled
    else !k.rejectAll
  }

  /** The shares the venue would fill: the configured fraction of the order, all of it by default. */
  ghost function Wanted(k: Knobs, o: Order): real {
    o.shares * (if o.symbol in k.fillFraction then k.fillFraction[o.symbol] else 1.0)
  }

  /** A buy the cash covers up to the tolerance, or a sale of what is held that brings at least nothing. */
  ghost predicate Executable(m: Market, v: Venue, o: Order) {
    && Answers(m.knobs, o) && o.symbol in m.prices && m.prices[o.symbol] > 0.0 && Wanted(m.knobs, o) > 0.0
    && (if o.side == Buy then Needed(m.costs, Wanted(m.knobs, o), m.prices[o.symbol]) <= v.cash + DUST
        else Wanted(m.knobs, o) <= Held(v, o.symbol) + DUST
             && Proceeds(m.costs, Wanted(m.knobs, o), m.prices[o.symbol]) >= 0.0)
  }

  /**
   An order fills exactly when it is executable, at the venue's price and up to the configured fraction: the cash
   pays or receives it with its costs, the holding moves by the filled shares, and a holding within the tolerance
   of nothing is deleted. An order that does not fill moves nothing.
   */
  lemma ExecutesExactly(m: Market, v: Venue, o: Order)
    ensures var (r, res) := ExecuteOne(m, v, o); var n := Wanted(m.knobs, o);
      && (res.filled > 0.0 <==> Executable(m, v, o))
      && (!Executable(m, v, o) ==> r == v && res.filled == 0.0 && res.status != Filled && res.commission == 0.0)
      && (Executable(m, v, o) ==>
            var px := m.prices[o.symbol];
            && res == Result(o, res.status, n, px, Fee(m.costs, n, px))
            && (res.status == Filled <==> !(o.symbol in m.knobs.fillFraction && m.knobs.fillFraction[o.symbol] < 1.0))
            && (res.status != Filled ==> res.status == PartiallyFilled)
            && r.cash == (if o.side == Buy then v.cash - Needed(m.costs, n, px) else v.cash + Proceeds(m.costs, n, px))
            && (o.side == Buy ==> r.positions == v.positions[o.symbol := Held(v, o.symbol) + n])
            && (o.side == Sell ==> if Held(v, o.symbol) - n <= DUST then r.positions == v.positions - {o.symbol}
                                   else r.positions == v.positions[o.symbol := Held(v, o.symbol) - n]))
  {
    hide Needed, Proceeds, Fee;
    assert Fillable(m.knobs, o) == Wanted(m.knobs, o);
    hide Fillable, Wanted;
  }

  // ------------------------------------------------------------ one submission and its escalation

  /** A submission may still be made: the liquidation path has no budget to spend. */
  ghost predicate InBudget(r: Run) {
    r.budget.None? || r.budget.value >= 1
  }

  /** The venue has gone silent by its next submission. */
  ghost predicate Out(m: Market, v: Venue) {
    m.knobs.outageAfter.Some? && v.seen + 1 > m.knobs.outageAfter.value
  }

  /**
   An order reaches the venue exactly when the budget allows it and the filter passes it, and costs the budget
   one; otherwise it is dropped and nothing else moves. It is answered unless the venue is out.
   */
  lemma SubmitsExactly(m: Market, cfg: RiskConfig, prices: map<string, real>, r: Run, o: Order)
    requires o.shares > 0.0
    ensures var (n, answer) := SubmitSingle(m, cfg, prices, r, o); var sends := InBudget(r) && Passes(cfg, o, prices);
      && (n.venue.seen == r.venue.seen + (if sends then 1 else 0))
      && n.venue.submissions == r.venue.submissions + (if sends && !Out(m, r.venue) then [o] else [])
      && (sends ==> n.dropped == r.dropped && (r.budget.Some? ==> n.budget == Some(r.budget.value - 1)))
      && (!sends ==> answer.None? && n == r.(dropped := n.dropped) && |n.dropped| == |r.dropped| + 1
                     && n.dropped[..|r.dropped|] == r.dropped && n.dropped[|r.dropped|].order == o)
      && (sends && Out(m, r.venue) ==> n.raised && answer.None?)
  {
    FilterExactly(cfg, o, prices);
    hide Filter, Passes, OrderCost;
    VenueCounts(m, r.venue, o);
    hide SubmitOne;
  }

  lemma VenueCounts(m: Market, v: Venue, o: Order)
    ensures var (n, answer) := SubmitOne(m, v, o);
      && n.seen == v.seen + 1 && (answer.None? <==> Out(m, v))
      && n.submissions == v.submissions + (if Out(m, v) then [] else [o])
  {
    hide Needed, Proceeds, Fee, Scripted, Fillable;
  }

  /** The first try was answered with nothing filled, for a limit order, and a hop is allowed. */
  ghost predicate GotNothing(o: Order, maxHops: int, first: Run, answer: Option<Result>) {
    && !first.raised && maxHops >= 1 && o.limit.Some?
    && answer.Some? && answer.value.status != Filled && answer.value.filled == 0.0
  }

  /**
   A planned order is submitted once; it is submitted a second time, at market, whole and under the next fresh id,
   exactly when it is a limit order whose answer filled nothing, and the budget and the filter let it through.
   */
  lemma EscalatesExactly(m: Market, cfg: RiskConfig, prices: map<string, real>, maxHops: int, r: Run, o: Order)
    requires o.shares > 0.0
    ensures var (first, answer) := SubmitSingle(m, cfg, prices, r, o);
      var n := SubmitEscalating(m, cfg, prices, maxHops, r, o);
      var market := Order(first.nextId, o.symbol, o.side, o.shares, o.fullExit, None);
      && (!GotNothing(o, maxHops, first, answer) ==> n == first)
      && (GotNothing(o, maxHops, first, answer) ==>
            && n.nextId == first.nextId + 1
            && n.venue.seen == first.venue.seen + (if InBudget(first) && Passes(cfg, market, prices) then 1 else 0)
            && n.venue.submissions == first.venue.submissions
                 + (if InBudget(first) && Passes(cfg, market, prices) && !Out(m, first.venue) then [market] else [])
            && n.escalations == first.escalations
                 + (if InBudget(first) && Passes(cfg, market, prices) && !n.raised then 1 else 0))
  {
    hide SubmitSingle, Passes;
    var (first, answer) := SubmitSingle(m, cfg, prices, r, o);
    var next := first.(nextId := first.nextId + 1);
    var market := Order(first.nextId, o.symbol, o.side, o.shares, o.fullExit, None);
    SubmitsExactly(m, cfg, prices, next, market);
    SingleKeepsIds(m, cfg, prices, next, market);
  }

  lemma SingleKeepsIds(m: Market, cfg: RiskConfig, prices: map<string, real>, r: Run, o: Order)
    ensures var (n, answer) := SubmitSingle(m, cfg, prices, r, o); n.nextId == r.nextId && n.escalations == r.escalations
    requires o.shares > 0.0
    ensures var (n, answer) := SubmitSingle(m, cfg, prices, r, o);
      !r.raised ==> (answer.Some? <==> InBudget(r) && Passes(cfg, o, prices) && !n.raised)
  {
    FilterExactly(cfg, o, prices);
    hide Filter, Passes, OrderCost;
    VenueCounts(m, r.venue, o);
    hide SubmitOne;
  }

  /** An answered submission is recorded; a status that leaves the order open, or an outage, ends the run. */
  lemma AnswersExactly(m: Market, cfg: RiskConfig, prices: map<string, real>, r: Run, o: Order)
    requires o.shares > 0.0 && InBudget(r) && Passes(cfg, o, prices) && !r.raised
    ensures var (n, answer) := SubmitSingle(m, cfg, prices, r, o);
      var at := r.venue.(seen := r.venue.seen + 1, submissions := r.venue.submissions + [o]);
      var open := ExecuteOne(m, at, o).1.status in {New, Submitted, Unknown};
      && (n.raised <==> Out(m, r.venue) || open)
      && (answer.Some? <==> !n.raised)
      && (answer.Some? ==> answer.value == ExecuteOne(m, at, o).1 && n.results == r.results + [answer.value])
      && (!Out(m, r.venue) ==> n.venue == ExecuteOne(m, at, o).0)
  {
    FilterExactly(cfg, o, prices);
    hide Filter, Passes, OrderCost, ExecuteOne;
  }

  // ------------------------------------------------------------ what the cap drops

  /** The orders beyond the cap, sells before buys, each dropped for it. */
  ghost predicate CapDrops(dropped: seq<Dropped>, orders: seq<Order>, cap: int) {
    var sorted := OfSide(orders, Sell) + OfSide(orders, Buy);
    if |sorted| <= cap || cap < 0 then dropped == []
    else |dropped| == |sorted| - cap && forall i :: 0 <= i < |dropped| ==> dropped[i] == Dropped(sorted[cap + i], OverCap)
  }

  lemma {:induction false} AllDroppedAre(orders: seq<Order>, reason: DropReason)
    ensures |AllDropped(orders, reason)| == |orders|
    ensures forall i :: 0 <= i < |orders| ==> AllDropped(orders, reason)[i] == Dropped(orders[i], reason)
  {
    if |orders| > 0 { AllDroppedAre(orders[..|orders| - 1], reason); }
  }

  lemma {:induction false} SellsKeepDrops(m: Market, cfg: RiskConfig, prices: map<string, real>, maxHops: int, r: Run, sells: seq<Order>)
    ensures r.dropped <= SendSells(m, cfg, prices, maxHops, r, sells).dropped
  {
    if |sells| > 0 {
      var before := SendSells(m, cfg, prices, maxHops, r, sells[..|sells| - 1]);
      SellsKeepDrops(m, cfg, prices, maxHops, r, sells[..|sells| - 1]);
      EscalatingKeepsDrops(m, cfg, prices, maxHops, before, sells[|sells| - 1]);
      hide SubmitEscalating;
    }
  }

  lemma EscalatingKeepsDrops(m: Market, cfg: RiskConfig, prices: map<string, real>, maxHops: int, r: Run, o: Order)
    ensures r.dropped <= SubmitEscalating(m, cfg, prices, maxHops, r, o).dropped
  {
    hide Filter, SubmitOne;
  }

  lemma {:induction false} BuysKeepDrops(m: Market, cfg: RiskConfig, prices: map<string, real>, maxHops: int, r: Run, buys: seq<Order>)
    ensures r.dropped <= SendBuys(m, cfg, prices, maxHops, r, buys).dropped
  {
    if |buys| > 0 {
      var before := SendBuys(m, cfg, prices, maxHops, r, buys[..|buys| - 1]);
      BuysKeepDrops(m, cfg, prices, maxHops, r, buys[..|buys| - 1]);
      BuyKeepsDrops(m, cfg, prices, maxHops, before, buys[|buys| - 1]);
      hide SendBuy;
    }
  }

  lemma BuyKeepsDrops(m: Market, cfg: RiskConfig, prices: map<string, real>, maxHops: int, r: Run, o: Order)
    ensures r.dropped <= SendBuy(m, cfg, prices, maxHops, r, o).dropped
  {
    hide SubmitEscalating, Resized, Needed;
    if Priced(prices, o.symbol) {
      EscalatingKeepsDrops(m, cfg, prices, maxHops, r, o);
      var resized := Resized(cfg.costs, o.shares, prices[o.symbol], r.venue.cash);
      EscalatingKeepsDrops(m, cfg, prices, maxHops, r.(nextId := r.nextId + 1),
                           Order(r.nextId, o.symbol, Buy, resized as real, false, o.limit));
    }
  }

  /** Whatever happens in the run, it reports first the orders the cap dropped; a liquidation has no cap and drops none. */
  lemma RebalanceReportsCapped(m: Market, cfg: RiskConfig, prices: map<string, real>, maxHops: int, v: Venue,
                               orders: seq<Order>, nextId: int, liquidation: bool) returns (capped: seq<Dropped>)
    requires cfg.maxOrdersPerDay >= 0
    ensures capped <= Rebalance(m, cfg, prices, maxHops, v, orders, nextId, liquidation).dropped
    ensures if liquidation then capped == [] else CapDrops(capped, orders, cfg.maxOrdersPerDay)
  {
    var plan := Planned(cfg, orders, liquidation);
    var opening := Opening(cfg, v, orders, nextId, liquidation);
    var sold := SendSells(m, cfg, prices, maxHops, opening, OfSide(plan, Sell));
    AllDroppedAre(OverTheCap(orders, cfg.maxOrdersPerDay), OverCap);
    SellsKeepDrops(m, cfg, prices, maxHops, opening, OfSide(plan, Sell));
    BuysKeepDrops(m, cfg, prices, maxHops, sold, OfSide(plan, Buy));
    capped := opening.dropped;
    hide SendSells, SendBuys, OfSide;
  }
}
