/**
 What the simulated broker executes, in prices: every execution of every replay is at the bar's open moved
 against the trader by the configured slippage, on the tick grid; an order is filled whole at the first open
 after it was sent, and its two parts trade at one price.
 */
module SimFills {
  import opened Common
  import opened Ledger
  import opened OmsSpec
  import opened Guardrails
  import opened SimSpec
  import opened SimAccounting

  // ------------------------------------------------------------ one price

  ghost predicate Multiple(n: int, price: real, tick: real) {
    price == n as real * tick
  }

  ghost predicate OnGrid(price: real, tick: real) {
    exists n :: Multiple(n, price, tick)
  }

  /** `n` ticks are within half a tick of `want`, and an even number of ticks at exactly half. */
  ghost predicate NearestPoint(n: int, price: real, want: real, tick: real) {
    && Multiple(n, price, tick)
    && AbsR(price - want) <= AbsR(tick) / 2.0
    && (AbsR(price - want) == AbsR(tick) / 2.0 ==> n % 2 == 0)
  }

  ghost predicate NearestTo(price: real, want: real, tick: real) {
    exists n :: NearestPoint(n, price, want, tick)
  }

  /** A buy pays the slippage on top of the open and a sale gets it less. */
  ghost function Worse(cfg: SimConfig, action: Action, open: real): real {
    if action == Buy then open + cfg.slippageTicks as real * cfg.tickSize
    else open - cfg.slippageTicks as real * cfg.tickSize
  }

  /** The grid point nearest to the worse price, and the worse price itself when the open is on the grid. */
  ghost predicate Slipped(cfg: SimConfig, action: Action, open: real, price: real) {
    && NearestTo(price, Worse(cfg, action, open), cfg.tickSize)
    && (OnGrid(open, cfg.tickSize) ==> price == Worse(cfg, action, open))
  }

  lemma RoundsNear(x: real)
    ensures -0.5 <= RoundHalfEven(x) as real - x <= 0.5
    ensures RoundHalfEven(x) as real - x in {-0.5, 0.5} ==> RoundHalfEven(x) % 2 == 0
    ensures x == x.Floor as real ==> RoundHalfEven(x) == x.Floor
  {
  }

  lemma Scale(n: int, x: real, want: real, tick: real)
    requires tick != 0.0 && x == want / tick && -0.5 <= n as real - x <= 0.5
    ensures AbsR(n as real * tick - want) <= AbsR(tick) / 2.0
    ensures AbsR(n as real * tick - want) == AbsR(tick) / 2.0 ==> n as real - x in {-0.5, 0.5}
  {
    var d := n as real - x;
    assert x * tick == want;
    assert n as real * tick - want == d * tick;
    if tick > 0.0 {
      ScaleBy(d, tick);
    } else {
      ScaleBy(d, -tick);
      assert d * tick == -(d * -tick);
    }
  }

  lemma ScaleBy(d: real, t: real)
    requires t > 0.0 && -0.5 <= d <= 0.5
    ensures -t / 2.0 <= d * t <= t / 2.0
    ensures d * t == t / 2.0 ==> d == 0.5
    ensures d * t == -t / 2.0 ==> d == -0.5
  {
    MulMono(-0.5, d, t);
    MulMono(d, 0.5, t);
    if d < 0.5 { assert (0.5 - d) * t > 0.0; }
    if d > -0.5 { assert (d + 0.5) * t > 0.0; }
  }

  lemma WholeMultiple(k: int, want: real, tick: real)
    requires tick != 0.0 && want == k as real * tick
    ensures RoundHalfEven(want / tick) as real * tick == want
  {
    var x := want / tick;
    assert x * tick == want;
    assert (x - k as real) * tick == 0.0;
    assert x == k as real;
    RoundsNear(x);
  }

  lemma FillPriceIs(cfg: SimConfig, action: Action, open: real)
    requires cfg.tickSize != 0.0
    ensures FillPrice(cfg, action, open)
         == RoundHalfEven(Worse(cfg, action, open) / cfg.tickSize) as real * cfg.tickSize
  {
    hide RoundHalfEven;
    var slip := cfg.slippageTicks as real * cfg.tickSize;
    var raw := if action == Buy then open + slip else open - slip;
    assert raw == Worse(cfg, action, open);
    assert FillPrice(cfg, action, open) == RoundHalfEven(raw / cfg.tickSize) as real * cfg.tickSize;
  }

  lemma NearestIs(price: real, want: real, tick: real)
    requires tick != 0.0 && price == RoundHalfEven(want / tick) as real * tick
    ensures NearestTo(price, want, tick)
  {
    hide RoundHalfEven;
    RoundsNear(want / tick);
    Scale(RoundHalfEven(want / tick), want / tick, want, tick);
    assert NearestPoint(RoundHalfEven(want / tick), price, want, tick);
  }

  lemma GridOpen(cfg: SimConfig, action: Action, open: real, price: real)
    requires cfg.tickSize != 0.0 && OnGrid(open, cfg.tickSize)
    requires price == RoundHalfEven(Worse(cfg, action, open) / cfg.tickSize) as real * cfg.tickSize
    ensures price == Worse(cfg, action, open)
  {
    hide RoundHalfEven;
    var m :| Multiple(m, open, cfg.tickSize);
    AddMultiples(m, cfg.slippageTicks, cfg.tickSize);
    if action == Buy {
      WholeMultiple(m + cfg.slippageTicks, Worse(cfg, action, open), cfg.tickSize);
    } else {
      WholeMultiple(m - cfg.slippageTicks, Worse(cfg, action, open), cfg.tickSize);
    }
  }

  lemma FillPriceSlips(cfg: SimConfig, action: Action, open: real)
    requires cfg.tickSize != 0.0
    ensures Slipped(cfg, action, open, FillPrice(cfg, action, open))
  {
    hide RoundHalfEven, FillPrice, NearestTo, OnGrid, Worse;
    var price := FillPrice(cfg, action, open);
    FillPriceIs(cfg, action, open);
    NearestIs(price, Worse(cfg, action, open), cfg.tickSize);
    if OnGrid(open, cfg.tickSize) { GridOpen(cfg, action, open, price); }
  }

  lemma AddMultiples(m: int, k: int, tick: real)
    ensures (m + k) as real * tick == m as real * tick + k as real * tick
    ensures (m - k) as real * tick == m as real * tick - k as real * tick
  {
    assert (m + k) as real == m as real + k as real;
    assert (m - k) as real == m as real - k as real;
  }

  // ------------------------------------------------------------ one order

  /** The log entry is an execution of `p` in its own direction, at a slipped price. */
  ghost predicate ExecutesFor(cfg: SimConfig, open: real, p: SimOrder, entry: LogEntry) {
    && entry.Executed? && !p.cancelled
    && entry.orderId == p.orderId && entry.symbol == p.intent.symbol
    && (if p.intent.action == Buy then 0 < entry.signedQuantity <= p.intent.quantity
        else -p.intent.quantity <= entry.signedQuantity < 0)
    && Slipped(cfg, p.intent.action, open, entry.price)
  }

  /** Every execution the log gained belongs to one of `orders`. */
  ghost predicate LogGrows(cfg: SimConfig, open: real, orders: seq<SimOrder>, before: seq<LogEntry>, after: seq<LogEntry>) {
    && before <= after
    && forall k :: |before| <= k < |after| && after[k].Executed? ==> BelongsTo(cfg, open, orders, after[k])
  }

  ghost predicate BelongsTo(cfg: SimConfig, open: real, orders: seq<SimOrder>, entry: LogEntry) {
    exists i :: 0 <= i < |orders| && ExecutesFor(cfg, open, orders[i], entry)
  }

  /** `p` is filled whole, at a slipped price. */
  ghost predicate FilledWhole(cfg: SimConfig, open: real, p: SimOrder, o: Oms) {
    && p.orderId in o.orders
    && o.orders[p.orderId].state == Filled
    && o.orders[p.orderId].filled == p.intent.quantity
    && Slipped(cfg, p.intent.action, open, o.orders[p.orderId].avgPrice)
  }

  lemma BlendSame(avg: real, prev: int, price: real, qty: int)
    requires 0 <= prev && 0 < qty && (prev == 0 || avg == price)
    ensures BlendedPrice(avg, prev, price, qty) == price
  {
    var n := (prev + qty) as real;
    assert n == prev as real + qty as real;
    assert avg * prev as real == price * prev as real;
    assert avg * prev as real + price * qty as real == price * n;
    assert price * n / n == price;
  }

  /** One part of an order in the audit log and in its order record. */
  lemma PartLogged(o: Oms, nextId: int, execSeq: nat, p: SimOrder, filled: int, part: int, price: real)
    requires Core(o, nextId, execSeq) && InFlight(o, p, filled) && 0 < part <= p.intent.quantity - filled && 0 <= filled
    requires filled == 0 || o.orders[p.orderId].avgPrice == price
    ensures var r := OnFill(o, PartFill(p, part, price, execSeq + 1));
      && |r.log| == |o.log| + 2 && r.log[..|o.log|] == o.log && r.log[|o.log|].Moved?
      && r.log[|o.log| + 1] == Executed(p.orderId, ExecId(execSeq + 1), p.intent.symbol,
                                        if p.intent.action == Buy then part else -part, price)
      && p.orderId in r.orders && r.orders[p.orderId].filled == filled + part
      && r.orders[p.orderId].avgPrice == price
      && (filled + part == p.intent.quantity ==> r.orders[p.orderId].state == Filled)
      && r.orders.Keys == o.orders.Keys
      && (forall id :: id in o.orders && id != p.orderId ==> r.orders[id] == o.orders[id])
  {
    hide OnFill, Accepts, ApplyFillSpec, KeysOk, OrdersOk, EqualEverywhere, ExecId, OrderOk, LedgerQuantity, PositionOf,
      AbsI, BlendedPrice;
    var f := PartFill(p, part, price, execSeq + 1);
    assert ExecId(execSeq + 1) !in o.seen;
    PartAccepted(o, execSeq, p, filled, part, price);
    FillEffect(o, f);
    PartOrder(o.orders[p.orderId], f, p, filled, part);
    BlendSame(o.orders[p.orderId].avgPrice, filled, price, part);
  }

  /** An order's executions at `price`, in one part or two, as the log and the order record show them. */
  ghost predicate OrderTraded(cfg: SimConfig, s: Session, r: Session, p: SimOrder, price: real) {
    var halves := cfg.splitFills && p.intent.quantity >= 2;
    var sign := if p.intent.action == Buy then 1 else -1;
    var n := |s.oms.log|;
    && s.oms.log <= r.oms.log && |r.oms.log| == n + (if halves then 4 else 2)
    && r.oms.log[n].Moved?
    && r.oms.log[n + 1] == Executed(p.orderId, ExecId(s.broker.execSeq + 1), p.intent.symbol,
                                    sign * (if halves then p.intent.quantity / 2 else p.intent.quantity), price)
    && (halves ==> r.oms.log[n + 2].Moved?)
    && (halves ==> r.oms.log[n + 3] == Executed(p.orderId, ExecId(s.broker.execSeq + 2), p.intent.symbol,
                                                sign * (p.intent.quantity - p.intent.quantity / 2), price))
    && r.broker.execSeq == s.broker.execSeq + (if halves then 2 else 1)
    && r.broker.commissions == s.broker.commissions + p.intent.quantity as real * cfg.commission
    && p.orderId in r.oms.orders && r.oms.orders[p.orderId].state == Filled
    && r.oms.orders[p.orderId].filled == p.intent.quantity && r.oms.orders[p.orderId].avgPrice == price
    && r.oms.orders.Keys == s.oms.orders.Keys
    && (forall id :: id in s.oms.orders && id != p.orderId ==> r.oms.orders[id] == s.oms.orders[id])
  }

  /** The broker's counters and what the parts did to the order system. */
  lemma PartCounts(cfg: SimConfig, s: Session, p: SimOrder, part: int, price: real, time: int)
    ensures var r := FillPart(cfg, s, p, part, price, time);
      && r.oms == OnFill(s.oms, PartFill(p, part, price, s.broker.execSeq + 1))
      && r.broker.execSeq == s.broker.execSeq + 1
      && r.broker.commissions == s.broker.commissions + part as real * cfg.commission
  {
    hide OnFill, OnOmsFill, Accepts, PartFill;
  }

  lemma MidFacts(s: Session, p: SimOrder, filled: int, rest: seq<SimOrder>)
    requires Mid(s, p, filled, rest)
    ensures Core(s.oms, s.broker.nextId, s.broker.execSeq) && InFlight(s.oms, p, filled) && 0 < p.intent.quantity
  {
  }

  lemma OrderTrades(cfg: SimConfig, s: Session, p: SimOrder, rest: seq<SimOrder>, bar: Bar)
    requires cfg.tickSize != 0.0 && Sane(s, [p] + rest) && !p.cancelled
    ensures 0 < p.intent.quantity
    ensures OrderTraded(cfg, s, FillOrder(cfg, s, p, bar), p, FillPrice(cfg, p.intent.action, bar.open))
  {
    hide Sane, Mid, FillPart, FillPrice, InFlight, Core, ExecId, OnFill;
    HeadFirst(s, p, rest);
    MidFacts(s, p, 0, rest);
    var price := FillPrice(cfg, p.intent.action, bar.open);
    var qty := p.intent.quantity;
    if cfg.splitFills && qty >= 2 {
      HalvesTrade(cfg, s, p, rest, price, bar.time);
    } else {
      PartLogged(s.oms, s.broker.nextId, s.broker.execSeq, p, 0, qty, price);
      PartCounts(cfg, s, p, qty, price, bar.time);
    }
  }

  lemma HalvesTrade(cfg: SimConfig, s: Session, p: SimOrder, rest: seq<SimOrder>, price: real, time: int)
    requires Mid(s, p, 0, rest) && cfg.splitFills && p.intent.quantity >= 2
    ensures var half := p.intent.quantity / 2;
      OrderTraded(cfg, s, FillPart(cfg, FillPart(cfg, s, p, half, price, time), p, p.intent.quantity - half, price, time),
                  p, price)
  {
    hide Sane, Mid, FillPart, InFlight, Core, ExecId, OnFill;
    var qty := p.intent.quantity;
    MidFacts(s, p, 0, rest);
    var half := FillPart(cfg, s, p, qty / 2, price, time);
    PartLogged(s.oms, s.broker.nextId, s.broker.execSeq, p, 0, qty / 2, price);
    PartCounts(cfg, s, p, qty / 2, price, time);
    FillPartSane(cfg, s, p, 0, rest, qty / 2, price, time);
    MidFacts(half, p, qty / 2, rest);
    PartLogged(half.oms, half.broker.nextId, half.broker.execSeq, p, qty / 2, qty - qty / 2, price);
    PartCounts(cfg, half, p, qty - qty / 2, price, time);
    Charges(qty / 2, qty - qty / 2, cfg.commission);
  }

  lemma Charges(a: int, b: int, c: real)
    ensures a as real * c + b as real * c == (a + b) as real * c
  {
    assert (a + b) as real == a as real + b as real;
  }

  // ------------------------------------------------------------ one bar's open

  /** Units of the orders the broker still works on. */
  function LiveUnits(orders: seq<SimOrder>): int {
    if |orders| == 0 then 0
    else LiveUnits(orders[..|orders| - 1])
         + (if orders[|orders| - 1].cancelled then 0 else orders[|orders| - 1].intent.quantity)
  }

  /** The first `n` orders are done: filled whole at this open, charged for, and all the log gained is theirs. */
  ghost predicate OpenDone(cfg: SimConfig, open: real, s: Session, r: Session, orders: seq<SimOrder>, n: nat)
    requires n <= |orders|
  {
    && (forall i :: 0 <= i < n && !orders[i].cancelled ==> FilledWhole(cfg, open, orders[i], r.oms))
    && LogGrows(cfg, open, orders, s.oms.log, r.oms.log)
    && r.broker.commissions == s.broker.commissions + LiveUnits(orders[..n]) as real * cfg.commission
  }

  lemma TradedBelongs(cfg: SimConfig, open: real, s: Session, r: Session, orders: seq<SimOrder>, i: nat, price: real)
    requires i < |orders| && !orders[i].cancelled && 0 < orders[i].intent.quantity
    requires Slipped(cfg, orders[i].intent.action, open, price) && OrderTraded(cfg, s, r, orders[i], price)
    ensures LogGrows(cfg, open, orders, s.oms.log, r.oms.log)
    ensures FilledWhole(cfg, open, orders[i], r.oms)
  {
    hide Slipped, ExecId;
    var p := orders[i];
    assert p.intent.quantity >= 2 ==> 0 < p.intent.quantity / 2 <= p.intent.quantity;
    forall k | |s.oms.log| <= k < |r.oms.log| && r.oms.log[k].Executed?
      ensures BelongsTo(cfg, open, orders, r.oms.log[k])
    {
      assert ExecutesFor(cfg, open, p, r.oms.log[k]);
    }
  }

  lemma GrowsTwice(cfg: SimConfig, open: real, orders: seq<SimOrder>, a: seq<LogEntry>, b: seq<LogEntry>, c: seq<LogEntry>)
    requires LogGrows(cfg, open, orders, a, b) && LogGrows(cfg, open, orders, b, c)
    ensures LogGrows(cfg, open, orders, a, c)
  {
    hide BelongsTo;
  }

  lemma {:induction false} FillOrdersDone(cfg: SimConfig, s: Session, orders: seq<SimOrder>, n: nat, bar: Bar)
    requires cfg.tickSize != 0.0 && n <= |orders| && Sane(s, orders)
    ensures OpenDone(cfg, bar.open, s, FillOrders(cfg, s, orders[..n], bar), orders, n)
    decreases n
  {
    hide Sane, FillOrder, FillPrice, BelongsTo, FilledWhole, OrderTraded;
    if n > 0 {
      FillOrdersDone(cfg, s, orders, n - 1, bar);
      FillOrdersSane(cfg, s, orders, n - 1, bar);
      assert orders[n - 1..] == [orders[n - 1]] + orders[n..];
      assert orders[..n][..n - 1] == orders[..n - 1];
      var before := FillOrders(cfg, s, orders[..n - 1], bar);
      assert FillOrders(cfg, s, orders[..n], bar) == FillOrder(cfg, before, orders[n - 1], bar);
      SaneDistinct(s, orders);
      DoneStep(cfg, s, before, orders, n, bar);
    }
  }

  lemma SaneDistinct(s: Session, orders: seq<SimOrder>)
    requires Sane(s, orders)
    ensures DistinctIds(orders)
  {
  }

  lemma DoneStep(cfg: SimConfig, s: Session, before: Session, orders: seq<SimOrder>, n: nat, bar: Bar)
    requires cfg.tickSize != 0.0 && 0 < n <= |orders|
    requires Sane(before, [orders[n - 1]] + orders[n..]) && DistinctIds(orders)
    requires OpenDone(cfg, bar.open, s, before, orders, n - 1)
    ensures OpenDone(cfg, bar.open, s, FillOrder(cfg, before, orders[n - 1], bar), orders, n)
  {
    hide Sane, FillPrice, Slipped, FillPart, OrderTraded, LogGrows, FilledWhole;
    var p := orders[n - 1];
    var r := FillOrder(cfg, before, p, bar);
    assert orders[..n][..n - 1] == orders[..n - 1];
    if !p.cancelled {
      var price := FillPrice(cfg, p.intent.action, bar.open);
      OrderTrades(cfg, before, p, orders[n..], bar);
      FillPriceSlips(cfg, p.intent.action, bar.open);
      TradedBelongs(cfg, bar.open, before, r, orders, n - 1, price);
      GrowsTwice(cfg, bar.open, orders, s.oms.log, before.oms.log, r.oms.log);
      Charges(LiveUnits(orders[..n - 1]), p.intent.quantity, cfg.commission);
      EarlierStay(cfg, bar.open, before, r, orders, n, price);
      TradedCharges(cfg, before, r, p, price);
    }
  }

  lemma TradedCharges(cfg: SimConfig, s: Session, r: Session, p: SimOrder, price: real)
    requires OrderTraded(cfg, s, r, p, price)
    ensures r.broker.commissions == s.broker.commissions + p.intent.quantity as real * cfg.commission
  {
    hide ExecId;
  }

  ghost predicate DistinctIds(orders: seq<SimOrder>) {
    forall i, j :: 0 <= i < j < |orders| ==> orders[i].orderId != orders[j].orderId
  }

  lemma EarlierStay(cfg: SimConfig, open: real, before: Session, r: Session, orders: seq<SimOrder>, n: nat, price: real)
    requires 0 < n <= |orders| && DistinctIds(orders) && OrderTraded(cfg, before, r, orders[n - 1], price)
    requires forall i :: 0 <= i < n - 1 && !orders[i].cancelled ==> FilledWhole(cfg, open, orders[i], before.oms)
    ensures forall i :: 0 <= i < n - 1 && !orders[i].cancelled ==> FilledWhole(cfg, open, orders[i], r.oms)
  {
    hide Slipped, ExecId;
  }

  /**
   At a bar's open every order the broker still works on is filled whole at the slipped open, the account is
   charged once for every unit, and every execution the audit log gains is such a fill.
   */
  lemma OpenFillsSlipped(cfg: SimConfig, s: Session, bar: Bar)
    requires cfg.tickSize != 0.0 && Sane(s, s.broker.pending)
    ensures var r := ProcessBarOpen(cfg, s, bar);
      OpenDone(cfg, bar.open, s, r, s.broker.pending, |s.broker.pending|) && r.broker.pending == []
  {
    var orders := s.broker.pending;
    var s0 := s.(broker := s.broker.(pending := []));
    assert Sane(s0, orders);
    hide Sane;
    BarOpenSane(cfg, s, bar);
    FillOrdersDone(cfg, s0, orders, |orders|, bar);
    assert orders[..|orders|] == orders;
  }

  // ------------------------------------------------------------ whole runs

  /** The log gained no execution. */
  ghost predicate Quiet(before: seq<LogEntry>, after: seq<LogEntry>) {
    before <= after && forall k :: |before| <= k < |after| ==> !after[k].Executed?
  }

  lemma PlaceQuiet(s: Session, intent: Intent)
    ensures Quiet(s.oms.log, Place(s, intent).oms.log)
  {
  }

  lemma RouteQuiet(cfg: SimConfig, rcfg: RiskConfig, s: Session, intent: Intent)
    ensures Quiet(s.oms.log, Route(cfg, rcfg, s, intent).oms.log)
  {
    hide ValidateSpec, SnapshotFor, Place;
    PlaceQuiet(s, intent);
  }

  lemma {:induction false} RouteAllQuiet(cfg: SimConfig, rcfg: RiskConfig, s: Session, intents: seq<Intent>)
    ensures Quiet(s.oms.log, RouteAll(cfg, rcfg, s, intents).oms.log)
  {
    hide Route;
    if |intents| > 0 {
      var n := |intents| - 1;
      RouteAllQuiet(cfg, rcfg, s, intents[..n]);
      RouteQuiet(cfg, rcfg, RouteAll(cfg, rcfg, s, intents[..n]), intents[n]);
    }
  }

  lemma CancelOneQuiet(s: Session, id: int)
    ensures Quiet(s.oms.log, CancelOne(s, id).oms.log)
  {
    hide MarkCancelled, Working;
  }

  lemma {:induction false} CancelEachQuiet(s: Session, ids: seq<int>)
    ensures Quiet(s.oms.log, CancelEach(s, ids).oms.log)
  {
    hide CancelOne;
    if |ids| > 0 {
      CancelEachQuiet(s, ids[..|ids| - 1]);
      CancelOneQuiet(CancelEach(s, ids[..|ids| - 1]), ids[|ids| - 1]);
    }
  }

  lemma KillQuiet(cfg: SimConfig, rcfg: RiskConfig, s: Session, flattenId: int)
    ensures Quiet(s.oms.log, KillSwitchFired(cfg, rcfg, s, flattenId).oms.log)
  {
    hide CancelEach, RouteAll, FlattenSpec, Held, Quantities, OpenIds;
    if !s.flattened {
      var s1 := s.(flattened := true);
      CancelEachQuiet(s1, OpenIds(s1.oms));
      var c := CancelAll(s1);
      RouteAllQuiet(cfg, rcfg, c, FlattenSpec(Held(c.oms), Quantities(c.oms), flattenId));
    }
  }

  lemma MarkQuiet(cfg: SimConfig, rcfg: RiskConfig, s: Session, bar: Bar)
    ensures Quiet(s.oms.log, MarkBar(cfg, rcfg, s, bar).oms.log)
  {
    hide KillSwitchFired, Trips, UpdateEquitySpec, MarkSpec, Equity;
    forall t: Session | t.oms == s.oms ensures Quiet(s.oms.log, KillSwitchFired(cfg, rcfg, t, bar.flattenId).oms.log) {
      KillQuiet(cfg, rcfg, t, bar.flattenId);
    }
  }

  /** The execution is one of a bar of `bars`, on the side its sign says. */
  ghost predicate ExecutedAtABar(cfg: SimConfig, bars: seq<Bar>, entry: LogEntry)
    requires entry.Executed?
  {
    && entry.signedQuantity != 0
    && exists k :: 0 <= k < |bars| && Slipped(cfg, if entry.signedQuantity > 0 then Buy else Sell, bars[k].open, entry.price)
  }

  ghost predicate AllAtBars(cfg: SimConfig, bars: seq<Bar>, log: seq<LogEntry>) {
    forall k :: 0 <= k < |log| && log[k].Executed? ==> ExecutedAtABar(cfg, bars, log[k])
  }

  lemma StepExecutes(cfg: SimConfig, rcfg: RiskConfig, s: Session, bars: seq<Bar>, bar: Bar)
    requires cfg.tickSize != 0.0 && Sane(s, s.broker.pending) && AllAtBars(cfg, bars, s.oms.log)
    ensures AllAtBars(cfg, bars + [bar], StepBar(cfg, rcfg, s, bar).oms.log)
  {
    hide Sane, ProcessBarOpen, MarkBar, RouteAll, Slipped;
    MoreBars(cfg, bars, bar, s.oms.log);
    if !s.raised {
      var s1 := s.(tally := s.tally.(bars := s.tally.bars + 1));
      assert Sane(s1, s1.broker.pending) by { SaneIgnoresTally(s, s1); }
      OpenFillsSlipped(cfg, s1, bar);
      var filled := ProcessBarOpen(cfg, s1, bar);
      GrownAtBars(cfg, bars, bar, s1.broker.pending, s1.oms.log, filled.oms.log);
      MarkQuiet(cfg, rcfg, filled, bar);
      RouteAllQuiet(cfg, rcfg, MarkBar(cfg, rcfg, filled, bar), bar.intents);
    }
  }

  lemma SaneIgnoresTally(s: Session, t: Session)
    requires Sane(s, s.broker.pending) && t.oms == s.oms && t.broker == s.broker
    ensures Sane(t, t.broker.pending)
  {
  }

  lemma MoreBars(cfg: SimConfig, bars: seq<Bar>, bar: Bar, log: seq<LogEntry>)
    requires AllAtBars(cfg, bars, log)
    ensures AllAtBars(cfg, bars + [bar], log)
  {
    hide Slipped;
    var all := bars + [bar];
    forall i | 0 <= i < |log| && log[i].Executed? ensures ExecutedAtABar(cfg, all, log[i]) {
      assert ExecutedAtABar(cfg, bars, log[i]);
      var k :| 0 <= k < |bars|
        && Slipped(cfg, if log[i].signedQuantity > 0 then Buy else Sell, bars[k].open, log[i].price);
      assert all[k] == bars[k];
    }
  }

  lemma GrownAtBars(cfg: SimConfig, bars: seq<Bar>, bar: Bar, orders: seq<SimOrder>, before: seq<LogEntry>, after: seq<LogEntry>)
    requires AllAtBars(cfg, bars + [bar], before) && LogGrows(cfg, bar.open, orders, before, after)
    ensures AllAtBars(cfg, bars + [bar], after)
  {
    hide Slipped;
    var all := bars + [bar];
    assert all[|bars|] == bar;
    forall i | 0 <= i < |after| && after[i].Executed? ensures ExecutedAtABar(cfg, all, after[i]) {
      if i < |before| {
        assert after[i] == before[i];
      } else {
        assert BelongsTo(cfg, bar.open, orders, after[i]);
        var j :| 0 <= j < |orders| && ExecutesFor(cfg, bar.open, orders[j], after[i]);
      }
    }
  }

  /**
   Over any replay from a fresh session, whatever the strategy sends: every execution in the audit log is at
   some bar's open, on the tick grid and moved by the slippage against the side its sign says.
   */
  lemma {:induction false} RunExecutesSlipped(cfg: SimConfig, rcfg: RiskConfig, bars: seq<Bar>)
    requires cfg.tickSize != 0.0
    ensures AllAtBars(cfg, bars, RunSession(cfg, rcfg, FRESH, bars).oms.log)
  {
    hide AllAtBars, Sane, StepBar;
    if |bars| == 0 {
      NothingLogged(cfg, bars);
    } else {
      var n := |bars| - 1;
      RunExecutesSlipped(cfg, rcfg, bars[..n]);
      RunSane(cfg, rcfg, bars[..n]);
      StepExecutes(cfg, rcfg, RunSession(cfg, rcfg, FRESH, bars[..n]), bars[..n], bars[n]);
      assert bars[..n] + [bars[n]] == bars;
    }
  }

  lemma NothingLogged(cfg: SimConfig, bars: seq<Bar>)
    ensures AllAtBars(cfg, bars, FRESH.oms.log)
  {
  }
}
