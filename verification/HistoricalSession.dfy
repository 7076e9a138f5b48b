/**
 The replay as it runs: the simulated broker and the session loop over the order system and the
 guardrails, each method proved to move the session's value exactly as `SimSpec` says.
 */
module HistoricalReplay {
  import opened Common
  import opened Ledger
  import opened OmsSpec
  import opened OrderManagement
  import opened Guardrails
  import opened SimSpec

  class SimulatedBroker {
    var nextId: int
    var pending: seq<SimOrder>
    var execSeq: nat
    var commissionsPaid: real
    var ordersReceived: seq<Intent>

    function View(): Broker
      reads this
    {
      Broker(nextId, pending, execSeq, commissionsPaid, ordersReceived)
    }

    constructor ()
      ensures View() == FRESH.broker
    {
      nextId, pending, execSeq, commissionsPaid, ordersReceived := 1000, [], 0, 0.0, [];
    }

    method PlaceOrder(intent: Intent) returns (id: int)
      modifies this
      ensures id == old(nextId) + 1
      ensures View() == old(View()).(nextId := id, pending := old(pending) + [SimOrder(id, intent, false)],
                                     received := old(ordersReceived) + [intent])
    {
      nextId := nextId + 1;
      pending := pending + [SimOrder(nextId, intent, false)];
      ordersReceived := ordersReceived + [intent];
      id := nextId;
    }

    /** Flag a working order; `confirmed` says the order system is to be told. */
    method CancelOrder(id: int) returns (confirmed: bool)
      modifies this`pending
      ensures confirmed <==> Working(old(pending), id)
      ensures pending == MarkCancelled(old(pending), id)
    {
      ghost var before := pending;
      for i := 0 to |pending|
        invariant pending == before
        invariant forall k :: 0 <= k < i ==> !(pending[k].orderId == id && !pending[k].cancelled)
      {
        if pending[i].orderId == id && !pending[i].cancelled {
          MarkAt(pending, id, i);
          pending := pending[i := pending[i].(cancelled := true)];
          assert before[i].orderId == id && !before[i].cancelled;
          return true;
        }
      }
      MarkNone(pending, id);
      confirmed := false;
    }

    method HasPending() returns (r: bool)
      ensures r <==> SimSpec.HasPending(pending)
    {
      for i := 0 to |pending|
        invariant forall k :: 0 <= k < i ==> pending[k].cancelled
      {
        if !pending[i].cancelled {
          return true;
        }
      }
      r := false;
    }
  }

  lemma {:induction false} MarkAt(pending: seq<SimOrder>, id: int, i: nat)
    requires i < |pending| && pending[i].orderId == id && !pending[i].cancelled
    requires forall k :: 0 <= k < i ==> !(pending[k].orderId == id && !pending[k].cancelled)
    ensures MarkCancelled(pending, id) == pending[i := pending[i].(cancelled := true)]
  {
    if i > 0 {
      MarkAt(pending[1..], id, i - 1);
      assert pending == [pending[0]] + pending[1..];
    }
  }

  lemma {:induction false} MarkNone(pending: seq<SimOrder>, id: int)
    requires forall k :: 0 <= k < |pending| ==> !(pending[k].orderId == id && !pending[k].cancelled)
    ensures MarkCancelled(pending, id) == pending && !Working(pending, id)
  {
    if |pending| > 0 {
      MarkNone(pending[1..], id);
      assert pending == [pending[0]] + pending[1..];
    }
  }

  class HistoricalSession {
    const cfg: SimConfig
    const broker: SimulatedBroker
    const oms: OrderManagementSystem
    const risk: RiskGuardrails
    var cycle: Cycle
    var tally: Tally
    var lastPrice: Option<real>
    var prevEquity: Option<real>
    var flattened: bool
    var raised: bool

    ghost predicate Valid()
      reads this, oms
    {
      && oms.Valid()
      && this !in oms.Repr && broker !in oms.Repr && risk !in oms.Repr
      && cfg.tickSize != 0.0
    }

    ghost function View(): Session
      requires Valid()
      reads this, broker, oms, oms.Repr, risk
    {
      Session(oms.View(), broker.View(), risk.View(), cycle, tally, lastPrice, prevEquity, flattened, raised)
    }

    constructor (cfg: SimConfig, rcfg: RiskConfig)
      requires cfg.tickSize != 0.0
      ensures Valid() && this.cfg == cfg && risk.cfg == rcfg && View() == FRESH
      ensures fresh(broker) && fresh(oms) && fresh(oms.Repr) && fresh(risk)
    {
      this.cfg := cfg;
      broker := new SimulatedBroker();
      oms := new OrderManagementSystem();
      risk := new RiskGuardrails(rcfg);
      cycle, tally := Cycle(None, 0.0, 0.0, []), Tally(0, 0, 0, 0, 0, 0, false, None, []);
      lastPrice, prevEquity, flattened, raised := None, None, false, false;
    }

    // ---------------------------------------------------------- accounting

    method RealizedTotal() returns (r: real)
      requires Valid()
      ensures r == Realized(oms.View())
    {
      oms.Fields();
      hide OrderManagementSystem.View;
      r := 0.0;
      for i := 0 to |oms.symbols|
        invariant r == RealizedUpTo(oms.View(), i)
      {
        if oms.symbols[i] in oms.positions {
          r := r + oms.positions[oms.symbols[i]].realizedPnl;
        }
      }
    }

    method Equity(mark: real) returns (r: real)
      requires Valid()
      ensures r == SimSpec.Equity(cfg, oms.View(), broker.commissionsPaid, mark)
    {
      oms.Fields();
      hide OrderManagementSystem.View;
      var realized := RealizedTotal();
      var unrealized := 0.0;
      for i := 0 to |oms.symbols|
        invariant unrealized == UnrealizedUpTo(oms.View(), mark, i)
      {
        if oms.symbols[i] in oms.positions {
          var p := oms.positions[oms.symbols[i]];
          unrealized := unrealized + p.quantity as real * (mark - p.avgPrice);
        }
      }
      r := cfg.initialCash + cfg.multiplier * (realized + unrealized) - broker.commissionsPaid;
    }

    method NetPosition() returns (r: int)
      requires Valid()
      ensures r == SimSpec.NetPosition(oms.View())
    {
      oms.Fields();
      hide OrderManagementSystem.View;
      r := 0;
      for i := 0 to |oms.symbols|
        invariant r == NetUpTo(oms.View(), i)
      {
        if oms.symbols[i] in oms.positions {
          r := r + oms.positions[oms.symbols[i]].quantity;
        }
      }
    }

    method PositionQuantities() returns (held: seq<string>, quantities: map<string, int>)
      requires Valid()
      ensures held == Held(oms.View()) && quantities == Quantities(oms.View())
    {
      oms.Fields();
      hide OrderManagementSystem.View;
      held := [];
      for i := 0 to |oms.symbols|
        invariant held == HeldUpTo(oms.View(), i)
      {
        if oms.symbols[i] in oms.positions && oms.positions[oms.symbols[i]].quantity != 0 {
          held := held + [oms.symbols[i]];
        }
      }
      quantities := map s | s in oms.positions && oms.positions[s].quantity != 0 :: oms.positions[s].quantity;
    }

    // ---------------------------------------------------------- orders

    /** The order system's fill callback: round-trip bookkeeping. */
    method OnOmsFill(units: int, time: int)
      requires Valid()
      modifies this`cycle
      ensures Valid()
      ensures cycle == SimSpec.OnOmsFill(cfg, old(cycle), oms.View(), broker.commissionsPaid, units, time)
    {
      var pos := NetPosition();
      if pos != 0 && cycle.entryTime.None? {
        var realized := RealizedTotal();
        cycle := cycle.(entryTime := Some(time), entryRealized := realized, entryCommission := broker.commissionsPaid);
      } else if pos == 0 && cycle.entryTime.Some? {
        var realized := RealizedTotal();
        hide TripPnl;
        var pnl := TripPnl(cfg, cycle, realized, broker.commissionsPaid);
        cycle := cycle.(entryTime := None, trips := cycle.trips + [RoundTrip(cycle.entryTime.value, time, units, pnl)]);
      }
    }

    method Snapshot(symbol: string) returns (snap: Guardrails.Snapshot)
      requires Valid()
      ensures snap == SnapshotFor(cfg, oms.View(), lastPrice, symbol)
    {
      var held, quantities := PositionQuantities();
      var price := if lastPrice.Some? then lastPrice.value else 0.0;
      snap := Guardrails.Snapshot(held, quantities, map[symbol := price], map[symbol := cfg.multiplier]);
    }

    /** Hand an approved intent to the broker and record it. */
    method PlaceApproved(intent: Intent)
      requires Valid()
      modifies this`tally, broker, oms, oms.Repr
      ensures Valid() && fresh(oms.Repr - old(oms.Repr))
      ensures View() == Place(old(View()), intent)
    {
      hide OrderManagementSystem.View, Submit;
      if risk.killSwitch && intent.source != RiskFlatten {
        tally := tally.(ordersAfterKill := tally.ordersAfterKill + 1);
      }
      var id := broker.PlaceOrder(intent);
      oms.Submit(intent, Some(id));
      tally := tally.(maxOrderQuantity := MaxI(tally.maxOrderQuantity, intent.quantity));
    }

    method Route(intent: Intent)
      requires Valid()
      modifies this`tally, broker, oms, oms.Repr
      ensures Valid() && fresh(oms.Repr - old(oms.Repr))
      ensures View() == SimSpec.Route(cfg, risk.cfg, old(View()), intent)
    {
      hide OrderManagementSystem.View, ValidateSpec, SnapshotFor, Place;
      var snap := Snapshot(intent.symbol);
      var decision := risk.Validate(intent, snap);
      if decision.Refuse? {
        tally := tally.(rejections := tally.rejections + 1);
      } else {
        PlaceApproved(intent);
      }
    }

    method RouteEach(intents: seq<Intent>)
      requires Valid()
      modifies this`tally, broker, oms, oms.Repr
      ensures Valid() && fresh(oms.Repr - old(oms.Repr))
      ensures View() == RouteAll(cfg, risk.cfg, old(View()), intents)
    {
      hide OrderManagementSystem.View, SimSpec.Route, View, Valid;
      assert intents[..0] == [];
      for i := 0 to |intents|
        invariant Valid() && fresh(oms.Repr - old(oms.Repr))
        invariant View() == RouteAll(cfg, risk.cfg, old(View()), intents[..i])
      {
        assert intents[..i + 1][..i] == intents[..i];
        Route(intents[i]);
      }
      assert intents[..|intents|] == intents;
    }

    /** Cancel one order at the order system and, if it still works on it, at the broker. */
    method Cancel(id: int)
      requires Valid()
      modifies broker`pending, oms, oms.Repr
      ensures Valid() && oms.Repr == old(oms.Repr)
      ensures View() == CancelOne(old(View()), id)
    {
      hide OrderManagementSystem.View, OmsSpec.Cancel, OnStatus, Terminal, MarkCancelled, Working;
      var requested := oms.Cancel(id);
      if requested {
        var confirmed := broker.CancelOrder(id);
        if confirmed {
          oms.OnOrderStatus(id, Cancelled);
        } else {
          assert broker.pending == old(broker.pending) by { NotWorking(old(broker.pending), id); }
        }
      } else {
        assert oms.View() == old(oms.View()) by { CancelRefused(old(oms.View()), id); }
      }
    }

    method OpenOrders() returns (open: seq<int>)
      requires Valid()
      ensures open == OpenIds(oms.View())
    {
      oms.Fields();
      hide OrderManagementSystem.View, Terminal;
      open := [];
      for i := 0 to |oms.ids|
        invariant open == OpenUpTo(oms.View(), i)
      {
        if oms.ids[i] in oms.orders && !Terminal(oms.orders[oms.ids[i]].state) {
          open := open + [oms.ids[i]];
        }
      }
    }

    method CancelEverything()
      requires Valid()
      modifies broker`pending, oms, oms.Repr
      ensures Valid() && oms.Repr == old(oms.Repr)
      ensures View() == CancelAll(old(View()))
    {
      hide OrderManagementSystem.View, CancelOne, OpenIds;
      var open := OpenOrders();
      assert open[..0] == [];
      for i := 0 to |open|
        invariant Valid() && oms.Repr == old(oms.Repr)
        invariant View() == CancelEach(old(View()), open[..i])
      {
        assert open[..i + 1][..i] == open[..i];
        Cancel(open[i]);
      }
      assert open[..|open|] == open;
    }

    // ---------------------------------------------------------- fills

    /** One execution: applied, fed back, charged. */
    method FillPart(order: SimOrder, part: int, price: real, time: int)
      requires Valid()
      modifies this`cycle, broker`execSeq, broker`commissionsPaid, oms, oms.Repr
      ensures Valid() && fresh(oms.Repr - old(oms.Repr))
      ensures View() == SimSpec.FillPart(cfg, old(View()), order, part, price, time)
    {
      hide OrderManagementSystem.View, OmsSpec.OnFill, Accepts, SimSpec.OnOmsFill, ExecId;
      broker.execSeq := broker.execSeq + 1;
      var signed := if order.intent.action == Buy then part else -part;
      var applied := oms.OnFill(Fill(order.orderId, order.intent.symbol, signed, price, ExecId(broker.execSeq)));
      if applied {
        OnOmsFill(AbsI(part), time);
      }
      broker.commissionsPaid := broker.commissionsPaid + part as real * cfg.commission;
    }

    method FillOrder(order: SimOrder, bar: Bar)
      requires Valid()
      modifies this`cycle, broker`execSeq, broker`commissionsPaid, oms, oms.Repr
      ensures Valid() && fresh(oms.Repr - old(oms.Repr))
      ensures View() == SimSpec.FillOrder(cfg, old(View()), order, bar)
    {
      hide OrderManagementSystem.View, SimSpec.FillPart, FillPrice;
      if order.cancelled {
        return;
      }
      var price := FillPrice(cfg, order.intent.action, bar.open);
      var qty := order.intent.quantity;
      if cfg.splitFills && qty >= 2 {
        FillPart(order, qty / 2, price, bar.time);
        FillPart(order, qty - qty / 2, price, bar.time);
      } else {
        FillPart(order, qty, price, bar.time);
      }
    }

    method ProcessBarOpen(bar: Bar)
      requires Valid()
      modifies this`cycle, broker, oms, oms.Repr
      ensures Valid() && fresh(oms.Repr - old(oms.Repr))
      ensures View() == SimSpec.ProcessBarOpen(cfg, old(View()), bar)
    {
      hide OrderManagementSystem.View, SimSpec.FillOrder;
      var pending := broker.pending;
      broker.pending := [];
      ghost var start := View();
      assert pending[..0] == [];
      for i := 0 to |pending|
        invariant Valid() && fresh(oms.Repr - old(oms.Repr))
        invariant View() == FillOrders(cfg, start, pending[..i], bar)
      {
        assert pending[..i + 1][..i] == pending[..i];
        FillOrder(pending[i], bar);
      }
      assert pending[..|pending|] == pending;
    }

    // ---------------------------------------------------------- the loop

    method KillSwitchFired(flattenId: int)
      requires Valid()
      modifies this, broker, oms, oms.Repr
      ensures Valid() && fresh(oms.Repr - old(oms.Repr))
      ensures View() == SimSpec.KillSwitchFired(cfg, risk.cfg, old(View()), flattenId)
    {
      hide OrderManagementSystem.View, CancelAll, RouteAll, FlattenSpec, Held, Quantities;
      if flattened {
        return;
      }
      flattened := true;
      CancelEverything();
      var held, quantities := PositionQuantities();
      var intents := risk.FlattenIntents(held, quantities, flattenId);
      RouteEach(intents);
    }

    /** The start-of-day mark: the previous close's equity, unless the switch is on. */
    method MarkDay() returns (refused: bool)
      requires Valid()
      modifies risk
      ensures Valid() && refused == (prevEquity.Some? && !old(risk.killSwitch) && prevEquity.value <= 0.0)
      ensures risk.View() == if prevEquity.Some? && !old(risk.killSwitch) then MarkSpec(old(risk.View()), prevEquity.value) else old(risk.View())
      ensures refused ==> risk.View() == old(risk.View())
    {
      refused := false;
      if prevEquity.Some? && !risk.killSwitch {
        refused := risk.MarkStartOfDay(prevEquity.value);
      }
    }

    /** Mark equity at the close and drive the breaker; `raised` is the guardrails' ValueError. */
    method MarkBar(bar: Bar)
      requires Valid()
      modifies this, broker, oms, oms.Repr, risk
      ensures Valid() && fresh(oms.Repr - old(oms.Repr))
      ensures View() == SimSpec.MarkBar(cfg, risk.cfg, old(View()), bar)
    {
      hide OrderManagementSystem.View, SimSpec.KillSwitchFired, SimSpec.Equity, Trips, UpdateEquitySpec, MarkSpec, DailyLimit;
      lastPrice := Some(bar.close);
      var equity := Equity(bar.close);
      var refused := MarkDay();
      if refused {
        raised := true;
        return;
      }
      var tripped := risk.UpdateEquity(equity);
      if tripped {
        tally := tally.(killTripped := true);
        KillSwitchFired(bar.flattenId);
      }
      prevEquity := Some(equity);
      tally := tally.(curve := tally.curve + [(bar.time, equity)]);
    }

    method TrackExposure()
      requires Valid()
      modifies this`tally
      ensures Valid()
      ensures View() == Track(old(View()))
    {
      hide OrderManagementSystem.View;
      var pos := NetPosition();
      var pending := broker.HasPending();
      tally := tally.(maxPosition := MaxI(tally.maxPosition, pos), minPosition := MinI(tally.minPosition, pos));
      if tally.killTripped && tally.positionAfterKill.None? && !pending {
        tally := tally.(positionAfterKill := Some(pos));
      }
    }

    method OnBar(bar: Bar)
      requires Valid()
      modifies this, broker, oms, oms.Repr, risk
      ensures Valid() && fresh(oms.Repr - old(oms.Repr))
      ensures View() == StepBar(cfg, risk.cfg, old(View()), bar)
    {
      hide OrderManagementSystem.View, SimSpec.ProcessBarOpen, SimSpec.MarkBar, RouteAll, Track;
      if raised {
        return;
      }
      tally := tally.(bars := tally.bars + 1);
      ProcessBarOpen(bar);
      MarkBar(bar);
      if raised {
        return;
      }
      RouteEach(bar.intents);
      TrackExposure();
    }

    /** Replay the bars; an exception out of the start-of-day mark ends the replay. */
    method Run(bars: seq<Bar>)
      requires Valid()
      modifies this, broker, oms, oms.Repr, risk
      ensures Valid() && fresh(oms.Repr - old(oms.Repr))
      ensures View() == RunSession(cfg, risk.cfg, old(View()), bars)
    {
      hide OrderManagementSystem.View, StepBar, View;
      assert bars[..0] == [];
      for i := 0 to |bars|
        invariant Valid() && fresh(oms.Repr - old(oms.Repr))
        invariant View() == RunSession(cfg, risk.cfg, old(View()), bars[..i])
      {
        assert bars[..i + 1][..i] == bars[..i];
        OnBar(bars[i]);
      }
      assert bars[..|bars|] == bars;
    }

    /** Recompute equity from the orders alone. */
    method ReplayEquityFromFills(mark: real) returns (equity: real)
      requires Valid()
      ensures equity == ReplayEquity(cfg, oms.View(), broker.commissionsPaid, mark)
    {
      oms.Fields();
      hide OrderManagementSystem.View, Worth;
      var start := cfg.initialCash - broker.commissionsPaid;
      var cash, pos := start, 0;
      for i := 0 to |oms.ids|
        invariant (cash, pos) == ReplayUpTo(cfg, oms.View(), start, i)
      {
        if oms.ids[i] in oms.orders && oms.orders[oms.ids[i]].filledQuantity != 0 {
          var mo := oms.orders[oms.ids[i]];
          var signed := if mo.intent.SignedQuantity() > 0 then mo.filledQuantity else -mo.filledQuantity;
          cash := cash - Worth(cfg.multiplier, signed, mo.avgFillPrice);
          pos := pos + signed;
        }
      }
      equity := cash + Worth(cfg.multiplier, pos, mark);
    }

    /** End of the data: cancel what still works and read the final figures. */
    method Finish() returns (res: Outcome)
      requires Valid()
      modifies this, broker, oms, oms.Repr
      ensures Valid() && View() == CancelAll(old(View()))
      ensures res == OutcomeOf(cfg, View())
    {
      hide OrderManagementSystem.View, CancelAll, SimSpec.Equity, SimSpec.NetPosition, ReplayEquity, OpenIds;
      CancelEverything();
      var open := OpenOrders();
      var position := NetPosition();
      var mark := if lastPrice.Some? then lastPrice.value else 0.0;
      var equity := Equity(mark);
      var replayed := ReplayEquityFromFills(mark);
      var afterKill := if tally.killTripped && tally.positionAfterKill.None? then Some(position) else tally.positionAfterKill;
      res := Outcome(|open|, position, equity, afterKill, AbsR(equity - replayed));
    }
  }

  lemma NotWorking(pending: seq<SimOrder>, id: int)
    requires !Working(pending, id)
    ensures MarkCancelled(pending, id) == pending
  {
    MarkNone(pending, id);
  }

  lemma CancelRefused(o: Oms, id: int)
    requires !(id in o.orders && !Terminal(o.orders[id].state))
    ensures OmsSpec.Cancel(o, id) == o
  {
  }
}
