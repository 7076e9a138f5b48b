/**
 One rebalance on values: the paper broker with its failure knobs, the risk filter, the submission
 budget, the single escalation and the two phases, one function per call of the engine.
 */
module RebalanceSpec {
  import opened Common
  import opened Costs

  datatype Side = Buy | Sell

  datatype Status = New | Submitted | PartiallyFilled | Filled | Cancelled | Rejected | Expired | Error | Unknown

  predicate IsSuccess(s: Status) { s == Filled }

  predicate IsTerminal(s: Status) {
    s in {Filled, PartiallyFilled, Cancelled, Rejected, Expired, Error}
  }

  /** Orders are for a positive number of shares; the source refuses to construct any other. */
  datatype Order = Order(id: int, symbol: string, side: Side, shares: real, fullExit: bool, limit: Option<real>)

  datatype Result = Result(order: Order, status: Status, filled: real, price: real, commission: real)

  datatype DropReason =
    | NoPrice | BelowMinimum | CostTooHigh | Dust | OverCap | BudgetSpent | NoPriceAtSizing | NoCash

  datatype Dropped = Dropped(order: Order, reason: DropReason)

  /** Failure injection: fill fractions, scripted statuses, an outage, a rejecting venue. */
  datatype Knobs = Knobs(
    fillFraction: map<string, real>, byId: map<int, Status>, bySymbol: map<string, Status>,
    outageAfter: Option<int>, rejectAll: bool)
  {
    function Fraction(symbol: string): real {
      if symbol in fillFraction then fillFraction[symbol] else 1.0
    }
  }

  datatype Venue = Venue(cash: real, positions: map<string, real>, seen: nat, submissions: seq<Order>)

  /** Fixed for the run: costs, knobs, and the venue's own prices. */
  datatype Market = Market(costs: CostConfig, knobs: Knobs, prices: map<string, real>)

  function Held(v: Venue, symbol: string): real {
    if symbol in v.positions then v.positions[symbol] else 0.0
  }

  function Scripted(k: Knobs, o: Order): Option<Status> {
    if o.id in k.byId then Some(k.byId[o.id])
    else if o.symbol in k.bySymbol then Some(k.bySymbol[o.symbol])
    else if k.rejectAll then Some(Rejected)
    else None
  }

  predicate Priced(prices: map<string, real>, symbol: string) {
    symbol in prices && prices[symbol] > 0.0
  }

  const DUST: real := 0.000000001

  /** Positions at or below the tolerance are deleted. */
  function PutHolding(positions: map<string, real>, symbol: string, shares: real): map<string, real> {
    if shares <= DUST then positions - {symbol} else positions[symbol := shares]
  }

  /** The part of an order the venue can fill. */
  function Fillable(k: Knobs, o: Order): real {
    o.shares * k.Fraction(o.symbol)
  }

  /** What the venue does with an order it accepts for execution. */
  function ExecuteOne(m: Market, v: Venue, o: Order): (Venue, Result) {
    var scripted := Scripted(m.knobs, o);
    if scripted.Some? && scripted.value != Filled then (v, Result(o, scripted.value, 0.0, 0.0, 0.0))
    else if !Priced(m.prices, o.symbol) then (v, Result(o, Rejected, 0.0, 0.0, 0.0))
    else
      var px := m.prices[o.symbol];
      var frac := m.knobs.Fraction(o.symbol);
      var filled := Fillable(m.knobs, o);
      var held := Held(v, o.symbol);
      if filled <= 0.0 then (v, Result(o, Cancelled, 0.0, 0.0, 0.0))
      else if o.side == Buy && Needed(m.costs, filled, px) > v.cash + DUST then (v, Result(o, Rejected, 0.0, 0.0, 0.0))
      else if o.side == Sell && (filled > held + DUST || Proceeds(m.costs, filled, px) < 0.0) then
        (v, Result(o, Rejected, 0.0, 0.0, 0.0))
      else
        var done := Result(o, if frac >= 1.0 then Filled else PartiallyFilled, filled, px, Fee(m.costs, filled, px));
        if o.side == Buy then
          (v.(cash := v.cash - Needed(m.costs, filled, px), positions := v.positions[o.symbol := held + filled]), done)
        else
          (v.(cash := v.cash + Proceeds(m.costs, filled, px),
              positions := PutHolding(v.positions, o.symbol, held - filled)), done)
  }

  /** A submission either is answered or meets the outage; an outage leaves no trace at the venue. */
  function SubmitOne(m: Market, v: Venue, o: Order): (Venue, Option<Result>) {
    var seen := v.(seen := v.seen + 1);
    if m.knobs.outageAfter.Some? && seen.seen > m.knobs.outageAfter.value then (seen, None)
    else
      var (v1, r) := ExecuteOne(m, seen.(submissions := seen.submissions + [o]), o);
      (v1, Some(r))
  }

  // ------------------------------------------------------------ the risk filter

  datatype RiskConfig = RiskConfig(
    costs: CostConfig, minOrderNotional: real, maxCostFraction: real, maxOrdersPerDay: int)

  /** Whole cost over notional exceeds `limit`, or the notional is nil. */
  predicate CostExceeds(cfg: RiskConfig, o: Order, price: real, limit: real) {
    o.shares * price <= 0.0 || OrderCost(cfg.costs, o.shares, price) / (o.shares * price) > limit
  }

  predicate CostEats(cfg: RiskConfig, o: Order, price: real) {
    o.shares * price <= 0.0 || OrderCost(cfg.costs, o.shares, price) / (o.shares * price) >= 1.0
  }

  function Filter(cfg: RiskConfig, o: Order, prices: map<string, real>): Option<DropReason> {
    if !Priced(prices, o.symbol) then Some(NoPrice)
    else
      var px := prices[o.symbol];
      if o.shares * px < cfg.minOrderNotional && !o.fullExit then Some(BelowMinimum)
      else if CostExceeds(cfg, o, px, cfg.maxCostFraction) && !o.fullExit then Some(CostTooHigh)
      else if o.fullExit && CostEats(cfg, o, px) then Some(Dust)
      else None
  }

  function OfSide(orders: seq<Order>, side: Side): seq<Order> {
    if |orders| == 0 then []
    else OfSide(orders[..|orders| - 1], side) + if orders[|orders| - 1].side == side then [orders[|orders| - 1]] else []
  }

  function Sorted(orders: seq<Order>): seq<Order> {
    OfSide(orders, Sell) + OfSide(orders, Buy)
  }

  /** Keep the first `cap` in submission order, so that sells survive the cap before buys. */
  function Kept(orders: seq<Order>, cap: int): seq<Order>
    requires cap >= 0
  {
    if |Sorted(orders)| <= cap then Sorted(orders) else Sorted(orders)[..cap]
  }

  /** The orders the cap drops. */
  function OverTheCap(orders: seq<Order>, cap: int): seq<Order>
    requires cap >= 0
  {
    if |Sorted(orders)| <= cap then [] else Sorted(orders)[cap..]
  }

  function AllDropped(orders: seq<Order>, reason: DropReason): seq<Dropped> {
    if |orders| == 0 then [] else AllDropped(orders[..|orders| - 1], reason) + [Dropped(orders[|orders| - 1], reason)]
  }

  // ------------------------------------------------------------ the run

  /** `budget` is None on the liquidation path; `raised` is an execution error leaving the run. */
  datatype Run = Run(
    venue: Venue, budget: Option<int>, nextId: int, results: seq<Result>, dropped: seq<Dropped>, escalations: nat, raised: bool)

  function Drop(r: Run, o: Order, reason: DropReason): Run {
    r.(dropped := r.dropped + [Dropped(o, reason)])
  }

  /** One order through the budget and the risk filter to the venue; the answer if there is one. */
  function SubmitSingle(m: Market, cfg: RiskConfig, prices: map<string, real>, r: Run, o: Order): (Run, Option<Result>) {
    if r.budget.Some? && r.budget.value < 1 then (Drop(r, o, BudgetSpent), None)
    else
      match Filter(cfg, o, prices)
      case Some(reason) => (Drop(r, o, reason), None)
      case None =>
        var spent := r.(budget := if r.budget.Some? then Some(r.budget.value - 1) else None);
        var (v, answer) := SubmitOne(m, r.venue, o);
        match answer
        case None => (spent.(venue := v, raised := true), None)
        case Some(res) =>
          if !IsTerminal(res.status) then (spent.(venue := v, raised := true), None)
          else (spent.(venue := v, results := r.results + [res]), Some(res))
  }

  predicate Escalates(o: Order, maxHops: int, answer: Option<Result>) {
    o.limit.Some? && maxHops >= 1 && answer.Some? && !IsSuccess(answer.value.status) && answer.value.filled == 0.0
  }

  /** A limit order that got nothing is sent once more at market, under a fresh id. */
  function SubmitEscalating(m: Market, cfg: RiskConfig, prices: map<string, real>, maxHops: int, r: Run, o: Order): Run {
    var (first, answer) := SubmitSingle(m, cfg, prices, r, o);
    if first.raised || !Escalates(o, maxHops, answer) then first
    else
      var market := Order(first.nextId, o.symbol, o.side, o.shares, o.fullExit, None);
      var (second, more) := SubmitSingle(m, cfg, prices, first.(nextId := first.nextId + 1), market);
      if more.Some? then second.(escalations := second.escalations + 1) else second
  }

  function SendSells(m: Market, cfg: RiskConfig, prices: map<string, real>, maxHops: int, r: Run, sells: seq<Order>): Run {
    if |sells| == 0 then r
    else
      var before := SendSells(m, cfg, prices, maxHops, r, sells[..|sells| - 1]);
      if before.raised then before else SubmitEscalating(m, cfg, prices, maxHops, before, sells[|sells| - 1])
  }

  /** One buy, sized off the cash the venue reports now. */
  function SendBuy(m: Market, cfg: RiskConfig, prices: map<string, real>, maxHops: int, r: Run, o: Order): Run {
    if !Priced(prices, o.symbol) then Drop(r, o, NoPriceAtSizing)
    else
      var px := prices[o.symbol];
      var available := r.venue.cash;
      if Needed(cfg.costs, o.shares, px) <= available then SubmitEscalating(m, cfg, prices, maxHops, r, o)
      else
        var resized := Resized(cfg.costs, o.shares, px, available);
        if resized <= 0 then Drop(r, o, NoCash)
        else
          var order := Order(r.nextId, o.symbol, Buy, resized as real, false, o.limit);
          SubmitEscalating(m, cfg, prices, maxHops, r.(nextId := r.nextId + 1), order)
  }

  function SendBuys(m: Market, cfg: RiskConfig, prices: map<string, real>, maxHops: int, r: Run, buys: seq<Order>): Run {
    if |buys| == 0 then r
    else
      var before := SendBuys(m, cfg, prices, maxHops, r, buys[..|buys| - 1]);
      if before.raised then before else SendBuy(m, cfg, prices, maxHops, before, buys[|buys| - 1])
  }

  function Planned(cfg: RiskConfig, orders: seq<Order>, liquidation: bool): seq<Order>
    requires cfg.maxOrdersPerDay >= 0
  {
    if liquidation then orders else Kept(orders, cfg.maxOrdersPerDay)
  }

  function Opening(cfg: RiskConfig, v: Venue, orders: seq<Order>, nextId: int, liquidation: bool): Run
    requires cfg.maxOrdersPerDay >= 0
  {
    Run(v, if liquidation then None else Some(cfg.maxOrdersPerDay), nextId, [],
        if liquidation then [] else AllDropped(OverTheCap(orders, cfg.maxOrdersPerDay), OverCap), 0, false)
  }

  /** Sells first, each to its end; then buys, each off re-read cash. */
  function Rebalance(m: Market, cfg: RiskConfig, prices: map<string, real>, maxHops: int, v: Venue, orders: seq<Order>,
                     nextId: int, liquidation: bool): Run
    requires cfg.maxOrdersPerDay >= 0
  {
    var plan := Planned(cfg, orders, liquidation);
    var sold := SendSells(m, cfg, prices, maxHops, Opening(cfg, v, orders, nextId, liquidation), OfSide(plan, Sell));
    if sold.raised then sold else SendBuys(m, cfg, prices, maxHops, sold, OfSide(plan, Buy))
  }
}
