/**
 The rebalance as it runs: the paper broker and the execution loop updated in place, each method
 proved to move its value exactly as `RebalanceSpec` says.
 */
module Rebalancer {
  import opened Common
  import opened Costs
  import opened RebalanceSpec

  class PaperBroker {
    const market: Market
    var cash: real
    var positions: map<string, real>
    var ordersSeen: nat
    var submissions: seq<Order>

    function View(): Venue
      reads this
    {
      Venue(cash, positions, ordersSeen, submissions)
    }

    constructor (market: Market, cash: real, positions: map<string, real>)
      ensures this.market == market && View() == Venue(cash, positions, 0, [])
    {
      this.market, this.cash, this.positions := market, cash, positions;
      ordersSeen, submissions := 0, [];
    }

    method ExecuteOne(o: Order) returns (res: Result)
      modifies this`cash, this`positions
      ensures (View(), res) == RebalanceSpec.ExecuteOne(market, old(View()), o)
    {
      hide Needed, Proceeds, Fee, Fillable, Scripted;
      var scripted := Scripted(market.knobs, o);
      if scripted.Some? && scripted.value != Filled {
        return Result(o, scripted.value, 0.0, 0.0, 0.0);
      }
      if !Priced(market.prices, o.symbol) {
        return Result(o, Rejected, 0.0, 0.0, 0.0);
      }
      var px := market.prices[o.symbol];
      var frac := market.knobs.Fraction(o.symbol);
      var filled := Fillable(market.knobs, o);
      if filled <= 0.0 {
        return Result(o, Cancelled, 0.0, 0.0, 0.0);
      }
      var held := if o.symbol in positions then positions[o.symbol] else 0.0;
      if o.side == Buy {
        var needed := Needed(market.costs, filled, px);
        if needed > cash + DUST {
          return Result(o, Rejected, 0.0, 0.0, 0.0);
        }
        cash := cash - needed;
        positions := positions[o.symbol := held + filled];
      } else {
        if filled > held + DUST {
          return Result(o, Rejected, 0.0, 0.0, 0.0);
        }
        var proceeds := Proceeds(market.costs, filled, px);
        if proceeds < 0.0 {
          return Result(o, Rejected, 0.0, 0.0, 0.0);
        }
        cash := cash + proceeds;
        if held - filled <= DUST {
          positions := positions - {o.symbol};
        } else {
          positions := positions[o.symbol := held - filled];
        }
      }
      res := Result(o, if frac >= 1.0 then Filled else PartiallyFilled, filled, px,
                    Fee(market.costs, filled, px));
    }

    /** Submit one approved order; None is the simulated outage. */
    method Submit(o: Order) returns (answer: Option<Result>)
      modifies this
      ensures (View(), answer) == SubmitOne(market, old(View()), o)
    {
      hide RebalanceSpec.ExecuteOne;
      ordersSeen := ordersSeen + 1;
      if market.knobs.outageAfter.Some? && ordersSeen > market.knobs.outageAfter.value {
        return None;
      }
      submissions := submissions + [o];
      var res := ExecuteOne(o);
      answer := Some(res);
    }
  }

  class Execution {
    const broker: PaperBroker
    const cfg: RiskConfig
    const prices: map<string, real>
    const maxHops: int
    var budget: Option<int>
    var nextId: int
    var results: seq<Result>
    var dropped: seq<Dropped>
    var escalations: nat
    var raised: bool

    function View(): Run
      reads this, broker
    {
      Run(broker.View(), budget, nextId, results, dropped, escalations, raised)
    }

    constructor (broker: PaperBroker, cfg: RiskConfig, prices: map<string, real>, maxHops: int, nextId: int)
      ensures this.broker == broker && this.cfg == cfg && this.prices == prices && this.maxHops == maxHops
      ensures View() == Run(broker.View(), None, nextId, [], [], 0, false)
    {
      this.broker, this.cfg, this.prices, this.maxHops, this.nextId := broker, cfg, prices, maxHops, nextId;
      budget, results, dropped, escalations, raised := None, [], [], 0, false;
    }

    method SubmitSingle(o: Order) returns (answer: Option<Result>)
      modifies this, broker
      ensures (View(), answer) == RebalanceSpec.SubmitSingle(broker.market, cfg, prices, old(View()), o)
    {
      hide Filter, SubmitOne;
      if budget.Some? && budget.value < 1 {
        dropped := dropped + [Dropped(o, BudgetSpent)];
        return None;
      }
      var reason := Filter(cfg, o, prices);
      if reason.Some? {
        dropped := dropped + [Dropped(o, reason.value)];
        return None;
      }
      if budget.Some? {
        budget := Some(budget.value - 1);
      }
      var res := broker.Submit(o);
      if res.None? || !IsTerminal(res.value.status) {
        raised := true;
        return None;
      }
      results := results + [res.value];
      answer := res;
    }

    method SubmitWithEscalation(o: Order)
      modifies this, broker
      ensures View() == SubmitEscalating(broker.market, cfg, prices, maxHops, old(View()), o)
    {
      hide RebalanceSpec.SubmitSingle;
      var answer := SubmitSingle(o);
      if !raised && Escalates(o, maxHops, answer) {
        var market := Order(nextId, o.symbol, o.side, o.shares, o.fullExit, None);
        nextId := nextId + 1;
        var more := SubmitSingle(market);
        if more.Some? {
          escalations := escalations + 1;
        }
      }
    }

    method SellAll(sells: seq<Order>)
      requires !raised
      modifies this, broker
      ensures View() == SendSells(broker.market, cfg, prices, maxHops, old(View()), sells)
    {
      hide SubmitEscalating;
      var i := 0;
      assert sells[..0] == [];
      while i < |sells| && !raised
        invariant 0 <= i <= |sells|
        invariant View() == SendSells(broker.market, cfg, prices, maxHops, old(View()), sells[..i])
      {
        assert sells[..i + 1][..i] == sells[..i];
        SubmitWithEscalation(sells[i]);
        i := i + 1;
      }
      if raised {
        StaysRaisedSelling(broker.market, cfg, prices, maxHops, old(View()), sells, i);
      }
      assert sells[..|sells|] == sells;
    }

    method BuyOne(o: Order)
      modifies this, broker
      ensures View() == SendBuy(broker.market, cfg, prices, maxHops, old(View()), o)
    {
      hide SubmitEscalating, Needed, OrderCost, Resized;
      var available := broker.cash;
      if !Priced(prices, o.symbol) {
        dropped := dropped + [Dropped(o, NoPriceAtSizing)];
        return;
      }
      var px := prices[o.symbol];
      if Needed(cfg.costs, o.shares, px) <= available {
        SubmitWithEscalation(o);
        return;
      }
      var resized := ResizeBuy(cfg.costs, o.shares, px, available);
      if resized <= 0 {
        dropped := dropped + [Dropped(o, NoCash)];
        return;
      }
      var order := Order(nextId, o.symbol, Buy, resized as real, false, o.limit);
      nextId := nextId + 1;
      SubmitWithEscalation(order);
    }

    method BuyAll(buys: seq<Order>)
      requires !raised
      modifies this, broker
      ensures View() == SendBuys(broker.market, cfg, prices, maxHops, old(View()), buys)
    {
      hide SendBuy;
      var i := 0;
      assert buys[..0] == [];
      while i < |buys| && !raised
        invariant 0 <= i <= |buys|
        invariant View() == SendBuys(broker.market, cfg, prices, maxHops, old(View()), buys[..i])
      {
        assert buys[..i + 1][..i] == buys[..i];
        BuyOne(buys[i]);
        i := i + 1;
      }
      if raised {
        StaysRaisedBuying(broker.market, cfg, prices, maxHops, old(View()), buys, i);
      }
      assert buys[..|buys|] == buys;
    }

    /** One rebalance or, with `liquidation`, one uncapped kill. */
    method ExecuteRebalance(orders: seq<Order>, liquidation: bool)
      requires cfg.maxOrdersPerDay >= 0
      requires results == [] && dropped == [] && escalations == 0 && !raised
      modifies this, broker
      ensures View() == Rebalance(broker.market, cfg, prices, maxHops, old(broker.View()), orders, old(nextId), liquidation)
    {
      hide OfSide, Kept, OverTheCap, SendSells, SendBuys, AllDropped;
      var plan := orders;
      if liquidation {
        budget := None;
      } else {
        budget := Some(cfg.maxOrdersPerDay);
        plan := Kept(orders, cfg.maxOrdersPerDay);
        dropped := AllDropped(OverTheCap(orders, cfg.maxOrdersPerDay), OverCap);
      }
      SellAll(OfSide(plan, Sell));
      if !raised {
        BuyAll(OfSide(plan, Buy));
      }
    }
  }

  lemma {:induction false} StaysRaisedSelling(m: Market, cfg: RiskConfig, prices: map<string, real>, maxHops: int, r: Run,
                                              sells: seq<Order>, i: nat)
    requires i <= |sells| && SendSells(m, cfg, prices, maxHops, r, sells[..i]).raised
    ensures SendSells(m, cfg, prices, maxHops, r, sells) == SendSells(m, cfg, prices, maxHops, r, sells[..i])
  {
    if i == |sells| {
      assert sells[..i] == sells;
    } else {
      assert sells[..|sells| - 1][..i] == sells[..i];
      StaysRaisedSelling(m, cfg, prices, maxHops, r, sells[..|sells| - 1], i);
    }
  }

  lemma {:induction false} StaysRaisedBuying(m: Market, cfg: RiskConfig, prices: map<string, real>, maxHops: int, r: Run,
                                             buys: seq<Order>, i: nat)
    requires i <= |buys| && SendBuys(m, cfg, prices, maxHops, r, buys[..i]).raised
    ensures SendBuys(m, cfg, prices, maxHops, r, buys) == SendBuys(m, cfg, prices, maxHops, r, buys[..i])
  {
    if i == |buys| {
      assert buys[..i] == buys;
    } else {
      assert buys[..|buys| - 1][..i] == buys[..i];
      StaysRaisedBuying(m, cfg, prices, maxHops, r, buys[..|buys| - 1], i);
    }
  }
}
