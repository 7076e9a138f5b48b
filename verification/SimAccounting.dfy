/**
 What every replay keeps, whatever the strategy sends: the order book stays sound, every open order
 is one the broker still works on, and the ledger equals the raw orders at every mark.
 */
module SimAccounting {
  import opened Common
  import opened Ledger
  import opened OmsSpec
  import opened Guardrails
  import opened SimSpec

  // ------------------------------------------------------------ execution ids never repeat

  lemma DigitsDiffer(a: nat, b: nat)
    requires a < 10 && b < 10 && DIGITS[a] == DIGITS[b]
    ensures a == b
  {
  }

  lemma {:induction false} DecimalInjective(a: nat, b: nat)
    requires Decimal(a) == Decimal(b)
    ensures a == b
  {
    var x, y := Decimal(a), Decimal(b);
    assert x[|x| - 1] == DIGITS[a % 10] && y[|y| - 1] == DIGITS[b % 10];
    DigitsDiffer(a % 10, b % 10);
    if a >= 10 && b >= 10 {
      assert x[..|x| - 1] == Decimal(a / 10) && y[..|y| - 1] == Decimal(b / 10);
      DecimalInjective(a / 10, b / 10);
    } else if a < 10 {
      DecimalNonEmpty(b / 10);
    } else {
      DecimalNonEmpty(a / 10);
    }
  }

  lemma DecimalNonEmpty(n: nat)
    ensures |Decimal(n)| > 0
  {
  }

  lemma ExecIdInjective(a: nat, b: nat)
    requires ExecId(a) == ExecId(b)
    ensures a == b
  {
    assert ExecId(a)[4..] == Decimal(a) && ExecId(b)[4..] == Decimal(b);
    DecimalInjective(a, b);
  }

  // ------------------------------------------------------------ the invariant

  ghost predicate EqualEverywhere(o: Oms) {
    forall mark :: LedgerEqualsOrders(o, mark)
  }

  /** A sound order book whose ids and execution ids are all behind the broker's counters. */
  ghost predicate Core(o: Oms, nextId: int, execSeq: nat) {
    && KeysOk(o) && OrdersOk(o) && EqualEverywhere(o)
    && (forall id :: id in o.orders ==> id <= nextId)
    && (forall k: nat :: k > execSeq ==> ExecId(k) !in o.seen)
  }

  /** The order as the broker holds it, `filled` units into its execution. */
  ghost predicate InFlight(o: Oms, p: SimOrder, filled: int) {
    && p.orderId in o.orders
    && o.orders[p.orderId].intent == p.intent
    && o.orders[p.orderId].filled == filled
    && !Terminal(o.orders[p.orderId].state)
    && 0 < p.intent.quantity
  }

  ghost predicate QueueOk(o: Oms, queue: seq<SimOrder>) {
    && (forall i :: 0 <= i < |queue| && !queue[i].cancelled ==> InFlight(o, queue[i], 0))
    && (forall i, j :: 0 <= i < j < |queue| ==> queue[i].orderId != queue[j].orderId)
  }

  /** Every order that is still open is in the broker's queue. */
  ghost predicate AllOpenWorking(o: Oms, queue: seq<SimOrder>) {
    forall id :: id in o.orders && !Terminal(o.orders[id].state) ==> Working(queue, id)
  }

  ghost predicate Sane(s: Session, queue: seq<SimOrder>) {
    && Core(s.oms, s.broker.nextId, s.broker.execSeq)
    && QueueOk(s.oms, queue)
    && AllOpenWorking(s.oms, queue)
    && (forall i :: 0 <= i < |queue| ==> queue[i].orderId <= s.broker.nextId)
  }

  lemma GoodStep(o: Oms, ev: Event)
    requires KeysOk(o) && OrdersOk(o) && EqualEverywhere(o) && FreshSubmit(o, ev) && !ev.SeedEvent?
    ensures KeysOk(Step(o, ev)) && OrdersOk(Step(o, ev)) && EqualEverywhere(Step(o, ev))
  {
    StepKeepsOrders(o, ev);
    hide KeysOk, OrdersOk, LedgerEqualsOrders, Step;
    forall mark ensures LedgerEqualsOrders(Step(o, ev), mark) {
      StepKeepsEquality(o, ev, mark);
    }
  }

  lemma FreshSane()
    ensures Sane(FRESH, FRESH.broker.pending)
  {
    forall mark ensures LedgerEqualsOrders(EMPTY, mark) {
      assert LedgerValues(EMPTY, mark) == [] && OrderGains(EMPTY, mark) == [];
    }
  }

  // ------------------------------------------------------------ executions

  function Signed(action: Action, units: int): int {
    if action == Buy then units else -units
  }

  /** The execution passes every check of the order system, with the intent's direction. */
  lemma PartAccepted(o: Oms, execSeq: nat, p: SimOrder, filled: int, part: int, price: real)
    requires OrdersOk(o) && ExecId(execSeq + 1) !in o.seen
    requires InFlight(o, p, filled) && 0 < part <= p.intent.quantity - filled
    ensures var f := PartFill(p, part, price, execSeq + 1);
      && Accepts(o, f) && f.signedQuantity != 0 && AbsI(f.signedQuantity) == part
      && LedgerQuantity(o.orders[p.orderId], f) == Signed(p.intent.action, part)
      && f.orderId == p.orderId && f.symbol == p.intent.symbol && f.price == price
  {
  }

  /** An order after one more execution. */
  lemma PartOrder(ov: OrderView, f: Fill, p: SimOrder, filled: int, part: int)
    requires ov.intent == p.intent && ov.filled == filled && 0 < part <= p.intent.quantity - filled
    requires f.signedQuantity != 0 && AbsI(f.signedQuantity) == part
    ensures var r := AfterFill(ov, f);
      && r.intent == p.intent && r.filled == filled + part
      && r.state == if filled + part == p.intent.quantity then Filled else PartiallyFilled
  {
    hide BlendedPrice;
  }

  lemma PartCore(o: Oms, nextId: int, execSeq: nat, p: SimOrder, filled: int, part: int, price: real)
    requires Core(o, nextId, execSeq) && InFlight(o, p, filled) && 0 < part <= p.intent.quantity - filled
    ensures Core(OnFill(o, PartFill(p, part, price, execSeq + 1)), nextId, execSeq + 1)
  {
    hide OnFill, Accepts, ApplyFillSpec, KeysOk, OrdersOk, EqualEverywhere, ExecId, OrderOk, LedgerQuantity, AfterFill,
      PositionOf, AbsI, InFlight;
    var f := PartFill(p, part, price, execSeq + 1);
    assert ExecId(execSeq + 1) !in o.seen;
    PartAccepted(o, execSeq, p, filled, part, price);
    GoodStep(o, FillEvent(f));
    FillEffect(o, f);
    var r := OnFill(o, f);
    assert r.seen <= o.seen + {ExecId(execSeq + 1)};
    forall k: nat | k > execSeq + 1 ensures ExecId(k) !in r.seen {
      if ExecId(k) == ExecId(execSeq + 1) { ExecIdInjective(k, execSeq + 1); }
    }
    assert r.orders.Keys == o.orders.Keys + {f.orderId};
  }

  /** What one execution of `part` more units does to the order system. */
  lemma PartEffect(o: Oms, nextId: int, execSeq: nat, p: SimOrder, filled: int, part: int, price: real)
    requires Core(o, nextId, execSeq) && InFlight(o, p, filled) && 0 < part <= p.intent.quantity - filled
    ensures var f := PartFill(p, part, price, execSeq + 1); var r := OnFill(o, f);
      && Accepts(o, f) && AbsI(f.signedQuantity) == part
      && r.orders.Keys == o.orders.Keys
      && (forall id :: id in o.orders && id != p.orderId ==> r.orders[id] == o.orders[id])
      && (filled + part < p.intent.quantity ==> InFlight(r, p, filled + part))
      && (filled + part == p.intent.quantity ==> r.orders[p.orderId].state == Filled)
      && r.positions == o.positions[p.intent.symbol :=
           ApplyFillSpec(PositionOf(o, p.intent.symbol), Signed(p.intent.action, part), price)]
      && r.symbols == (if p.intent.symbol in o.positions then o.symbols else o.symbols + [p.intent.symbol])
  {
    hide OnFill, Accepts, ApplyFillSpec, KeysOk, OrdersOk, EqualEverywhere, ExecId, OrderOk, LedgerQuantity, AfterFill,
      PositionOf, AbsI;
    var f := PartFill(p, part, price, execSeq + 1);
    assert ExecId(execSeq + 1) !in o.seen;
    PartAccepted(o, execSeq, p, filled, part, price);
    FillEffect(o, f);
    PartOrder(o.orders[p.orderId], f, p, filled, part);
  }

  /** `p` is `filled` units into its execution and `rest` is still to come. */
  ghost predicate Mid(s: Session, p: SimOrder, filled: int, rest: seq<SimOrder>) {
    && Core(s.oms, s.broker.nextId, s.broker.execSeq)
    && InFlight(s.oms, p, filled)
    && QueueOk(s.oms, rest)
    && AllOpenWorking(s.oms, [p] + rest)
    && (forall i :: 0 <= i < |rest| ==> rest[i].orderId != p.orderId && rest[i].orderId <= s.broker.nextId)
  }

  lemma HeadFirst(s: Session, p: SimOrder, rest: seq<SimOrder>)
    requires Sane(s, [p] + rest) && !p.cancelled
    ensures Mid(s, p, 0, rest)
  {
    var queue := [p] + rest;
    assert queue[0] == p;
    assert forall i :: 0 <= i < |rest| ==> rest[i] == queue[i + 1];
    hide Core, InFlight;
  }

  lemma CancelledHead(s: Session, p: SimOrder, rest: seq<SimOrder>)
    requires Sane(s, [p] + rest) && p.cancelled
    ensures Sane(s, rest)
  {
    var queue := [p] + rest;
    assert forall i :: 0 <= i < |rest| ==> rest[i] == queue[i + 1];
    hide Core, InFlight;
    forall id | id in s.oms.orders && !Terminal(s.oms.orders[id].state) ensures Working(rest, id) {
      WorkingBeyondHead(p, rest, id);
    }
  }

  lemma WorkingBeyondHead(p: SimOrder, rest: seq<SimOrder>, id: int)
    requires Working([p] + rest, id) && (p.cancelled || p.orderId != id)
    ensures Working(rest, id)
  {
    var queue := [p] + rest;
    var i :| 0 <= i < |queue| && queue[i].orderId == id && !queue[i].cancelled;
    assert rest[i - 1] == queue[i];
  }

  /** Orders other than the executing one stay queued as they were. */
  lemma QueueUnaffected(o: Oms, r: Oms, id: int, rest: seq<SimOrder>)
    requires QueueOk(o, rest) && r.orders.Keys == o.orders.Keys
    requires forall i :: i in o.orders && i != id ==> r.orders[i] == o.orders[i]
    requires forall i :: 0 <= i < |rest| ==> rest[i].orderId != id
    ensures QueueOk(r, rest)
  {
  }

  lemma OpenUnaffected(o: Oms, r: Oms, p: SimOrder, rest: seq<SimOrder>)
    requires AllOpenWorking(o, [p] + rest) && r.orders.Keys == o.orders.Keys && p.orderId in o.orders
    requires !Terminal(o.orders[p.orderId].state)
    requires forall i :: i in o.orders && i != p.orderId ==> r.orders[i] == o.orders[i]
    ensures AllOpenWorking(r, [p] + rest)
    ensures Terminal(r.orders[p.orderId].state) ==> AllOpenWorking(r, rest)
  {
    hide Terminal, Working;
    forall id | id in r.orders && !Terminal(r.orders[id].state) ensures Working([p] + rest, id) {
    }
    if Terminal(r.orders[p.orderId].state) {
      forall id | id in r.orders && !Terminal(r.orders[id].state) ensures Working(rest, id) {
        WorkingBeyondHead(p, rest, id);
      }
    }
  }

  /** One part of an order keeps the replay sound and moves only that order and its symbol. */
  lemma FillPartSane(cfg: SimConfig, s: Session, p: SimOrder, filled: int, rest: seq<SimOrder>, part: int, price: real, time: int)
    requires Mid(s, p, filled, rest) && 0 < part <= p.intent.quantity - filled
    ensures var r := FillPart(cfg, s, p, part, price, time);
      && (filled + part < p.intent.quantity ==> Mid(r, p, filled + part, rest))
      && (filled + part == p.intent.quantity ==> Sane(r, rest))
      && Accepts(s.oms, PartFill(p, part, price, s.broker.execSeq + 1))
      && r.oms.positions == s.oms.positions[p.intent.symbol :=
           ApplyFillSpec(PositionOf(s.oms, p.intent.symbol), Signed(p.intent.action, part), price)]
      && r.oms.symbols == (if p.intent.symbol in s.oms.positions then s.oms.symbols else s.oms.symbols + [p.intent.symbol])
  {
    hide OnFill, Accepts, ApplyFillSpec, Core, InFlight, OnOmsFill, PositionOf, QueueOk, AllOpenWorking, AbsI;
    var seq1 := s.broker.execSeq;
    PartCore(s.oms, s.broker.nextId, seq1, p, filled, part, price);
    PartEffect(s.oms, s.broker.nextId, seq1, p, filled, part, price);
    var r := FillPart(cfg, s, p, part, price, time);
    StillOpen(s.oms, p, filled);
    QueueUnaffected(s.oms, r.oms, p.orderId, rest);
    OpenUnaffected(s.oms, r.oms, p, rest);
  }

  lemma StillOpen(o: Oms, p: SimOrder, filled: int)
    requires InFlight(o, p, filled)
    ensures p.orderId in o.orders && !Terminal(o.orders[p.orderId].state)
  {
  }

  lemma FillOrderSane(cfg: SimConfig, s: Session, p: SimOrder, rest: seq<SimOrder>, bar: Bar)
    requires cfg.tickSize != 0.0 && Sane(s, [p] + rest)
    ensures Sane(FillOrder(cfg, s, p, bar), rest)
  {
    hide Sane, Mid, FillPart, FillPrice, InFlight;
    if p.cancelled {
      CancelledHead(s, p, rest);
    } else {
      HeadFirst(s, p, rest);
      InFlightPositive(s, p, rest);
      var price := FillPrice(cfg, p.intent.action, bar.open);
      var qty := p.intent.quantity;
      if cfg.splitFills && qty >= 2 {
        FillPartSane(cfg, s, p, 0, rest, qty / 2, price, bar.time);
        FillPartSane(cfg, FillPart(cfg, s, p, qty / 2, price, bar.time), p, qty / 2, rest, qty - qty / 2, price, bar.time);
      } else {
        FillPartSane(cfg, s, p, 0, rest, qty, price, bar.time);
      }
    }
  }

  lemma InFlightPositive(s: Session, p: SimOrder, rest: seq<SimOrder>)
    requires Mid(s, p, 0, rest)
    ensures 0 < p.intent.quantity
  {
  }

  lemma {:induction false} FillOrdersSane(cfg: SimConfig, s: Session, orders: seq<SimOrder>, n: nat, bar: Bar)
    requires cfg.tickSize != 0.0 && n <= |orders| && Sane(s, orders)
    ensures Sane(FillOrders(cfg, s, orders[..n], bar), orders[n..])
  {
    hide Sane, FillOrder;
    if n == 0 {
      assert orders[0..] == orders;
    } else {
      FillOrdersSane(cfg, s, orders, n - 1, bar);
      assert orders[n - 1..] == [orders[n - 1]] + orders[n..];
      assert orders[..n][..n - 1] == orders[..n - 1];
      FillOrderSane(cfg, FillOrders(cfg, s, orders[..n - 1], bar), orders[n - 1], orders[n..], bar);
    }
  }

  lemma BarOpenSane(cfg: SimConfig, s: Session, bar: Bar)
    requires cfg.tickSize != 0.0 && Sane(s, s.broker.pending)
    ensures Sane(ProcessBarOpen(cfg, s, bar), [])
    ensures ProcessBarOpen(cfg, s, bar).broker.pending == []
  {
    var orders := s.broker.pending;
    var s0 := s.(broker := s.broker.(pending := []));
    assert Sane(s0, orders);
    hide Sane;
    FillOrdersSane(cfg, s0, orders, |orders|, bar);
    assert orders[..|orders|] == orders && orders[|orders|..] == [];
    FillOrdersQuiet(cfg, s0, orders, bar);
  }

  /** Filling touches nothing but the books, the round trips and the broker's counters. */
  lemma {:induction false} FillOrdersQuiet(cfg: SimConfig, s: Session, orders: seq<SimOrder>, bar: Bar)
    requires cfg.tickSize != 0.0
    ensures var r := FillOrders(cfg, s, orders, bar);
      r == s.(oms := r.oms, cycle := r.cycle,
              broker := s.broker.(execSeq := r.broker.execSeq, commissions := r.broker.commissions))
  {
    if |orders| > 0 {
      FillOrdersQuiet(cfg, s, orders[..|orders| - 1], bar);
      hide OnFill, OnOmsFill, Accepts, PartFill, FillPrice, AbsI;
    }
  }

  // ------------------------------------------------------------ placing and cancelling

  lemma PlaceSane(s: Session, intent: Intent)
    requires Sane(s, s.broker.pending) && intent.quantity > 0
    ensures Sane(Place(s, intent), Place(s, intent).broker.pending)
    ensures Place(s, intent).oms.positions == s.oms.positions && Place(s, intent).oms.symbols == s.oms.symbols
  {
    hide Submit, KeysOk, OrdersOk, EqualEverywhere, ExecId, MaxI, QueueOk, AllOpenWorking;
    var id := s.broker.nextId + 1;
    GoodStep(s.oms, SubmitEvent(intent, Some(id)));
    SubmitAdds(s.oms, intent, id);
    PlacedQueue(s.oms, Submit(s.oms, intent, Some(id)), s.broker.pending, intent, id);
  }

  lemma PlacedQueue(o: Oms, r: Oms, pending: seq<SimOrder>, intent: Intent, id: int)
    requires QueueOk(o, pending) && AllOpenWorking(o, pending) && id !in o.orders && intent.quantity > 0
    requires forall i :: 0 <= i < |pending| ==> pending[i].orderId < id
    requires r.orders == o.orders[id := OrderView(id, intent, Submitted, 0, 0.0, [Submitted])]
    ensures QueueOk(r, pending + [SimOrder(id, intent, false)]) && AllOpenWorking(r, pending + [SimOrder(id, intent, false)])
  {
    var queue := pending + [SimOrder(id, intent, false)];
    assert queue[|queue| - 1].orderId == id;
    forall i | 0 <= i < |queue| && !queue[i].cancelled ensures InFlight(r, queue[i], 0) {
      if i < |queue| - 1 { assert queue[i] == pending[i]; }
    }
    forall k | k in r.orders && !Terminal(r.orders[k].state) ensures Working(queue, k) {
      if k != id {
        var i :| 0 <= i < |pending| && pending[i].orderId == k && !pending[i].cancelled;
        assert queue[i] == pending[i];
      }
    }
  }

  lemma SubmitAdds(o: Oms, intent: Intent, id: int)
    requires id !in o.orders
    ensures Submit(o, intent, Some(id)).orders == o.orders[id := OrderView(id, intent, Submitted, 0, 0.0, [Submitted])]
    ensures Submit(o, intent, Some(id)).positions == o.positions && Submit(o, intent, Some(id)).symbols == o.symbols
    ensures Submit(o, intent, Some(id)).seen == o.seen
  {
    assert [] + [Submitted] == [Submitted];
  }

  lemma ApprovedQuantity(rcfg: RiskConfig, kill: bool, intent: Intent, snap: Snapshot)
    requires ValidateSpec(rcfg, kill, intent, snap).Allow?
    ensures intent.quantity > 0 && (kill ==> intent.source == RiskFlatten) && !IsBlank(intent.symbol)
  {
    hide IsBlank, GrossNotional, Notional;
  }

  lemma RouteSane(cfg: SimConfig, rcfg: RiskConfig, s: Session, intent: Intent)
    requires Sane(s, s.broker.pending)
    ensures Sane(Route(cfg, rcfg, s, intent), Route(cfg, rcfg, s, intent).broker.pending)
    ensures Route(cfg, rcfg, s, intent).tally.ordersAfterKill == s.tally.ordersAfterKill
    ensures Route(cfg, rcfg, s, intent).guard == s.guard
  {
    var snap := SnapshotFor(cfg, s.oms, s.lastPrice, intent.symbol);
    if ValidateSpec(rcfg, s.guard.kill, intent, snap).Allow? {
      ApprovedQuantity(rcfg, s.guard.kill, intent, snap);
      PlaceSane(s, intent);
    }
    hide ValidateSpec, SnapshotFor, Submit;
  }

  lemma {:induction false} RouteAllSane(cfg: SimConfig, rcfg: RiskConfig, s: Session, intents: seq<Intent>)
    requires Sane(s, s.broker.pending)
    ensures Sane(RouteAll(cfg, rcfg, s, intents), RouteAll(cfg, rcfg, s, intents).broker.pending)
    ensures RouteAll(cfg, rcfg, s, intents).tally.ordersAfterKill == s.tally.ordersAfterKill
    ensures RouteAll(cfg, rcfg, s, intents).guard == s.guard
  {
    hide Sane, Route;
    if |intents| > 0 {
      var n := |intents| - 1;
      RouteAllSane(cfg, rcfg, s, intents[..n]);
      RouteSane(cfg, rcfg, RouteAll(cfg, rcfg, s, intents[..n]), intents[n]);
    }
  }

  lemma LiveStates(ov: OrderView, id: int)
    requires OrderOk(ov, id) && !Terminal(ov.state)
    ensures Cancelled in NextStates(ov.state) && (PendingCancel in NextStates(ov.state) <==> ov.state != PendingCancel)
    ensures ov.orderId == id && ov.state in {Submitted, PartiallyFilled, PendingCancel}
  {
    PathNeverCreated(ov.history, ov.state);
  }

  /** A cancel request and the broker's confirmation end any live order and touch nothing else. */
  lemma CancelConfirmed(o: Oms, id: int)
    requires OrdersOk(o) && id in o.orders && !Terminal(o.orders[id].state)
    ensures var r := OnStatus(Cancel(o, id), id, Cancelled);
      && r.orders.Keys == o.orders.Keys && r.orders[id].state == Cancelled
      && (forall i :: i in o.orders && i != id ==> r.orders[i] == o.orders[i])
      && r.positions == o.positions && r.symbols == o.symbols && r.seen == o.seen
  {
    var ov := o.orders[id];
    LiveStates(ov, id);
    var asked := Cancel(o, id);
    assert asked.orders[id].state == PendingCancel;
    hide OrderOk, OrdersOk;
  }

  lemma CancelCore(o: Oms, id: int, nextId: int, execSeq: nat)
    requires Core(o, nextId, execSeq) && id in o.orders && !Terminal(o.orders[id].state)
    ensures Core(OnStatus(Cancel(o, id), id, Cancelled), nextId, execSeq)
  {
    hide KeysOk, OrdersOk, EqualEverywhere, Cancel, OnStatus, ExecId, Terminal;
    CancelConfirmed(o, id);
    GoodStep(o, CancelEvent(id));
    GoodStep(Cancel(o, id), StatusEvent(id, Cancelled));
  }

  lemma {:induction false} MarkedPending(pending: seq<SimOrder>, id: int)
    ensures var r := MarkCancelled(pending, id);
      && |r| == |pending|
      && (forall i :: 0 <= i < |r| ==> r[i].orderId == pending[i].orderId)
      && (forall i :: 0 <= i < |r| && (pending[i].cancelled || pending[i].orderId != id) ==> r[i] == pending[i])
      && (forall i :: 0 <= i < |r| && !r[i].cancelled ==> r[i] == pending[i])
  {
    if |pending| > 0 && !(pending[0].orderId == id && !pending[0].cancelled) {
      MarkedPending(pending[1..], id);
    }
  }

  lemma MarkedOne(pending: seq<SimOrder>, id: int, k: int)
    requires Working(pending, id) && 0 <= k < |pending| && pending[k].orderId == id
    requires forall i, j :: 0 <= i < j < |pending| ==> pending[i].orderId != pending[j].orderId
    ensures |MarkCancelled(pending, id)| == |pending| && MarkCancelled(pending, id)[k].cancelled
  {
    MarkedPending(pending, id);
    if pending[0].orderId != id || pending[0].cancelled {
      if k > 0 {
        var i :| 0 <= i < |pending| && pending[i].orderId == id && !pending[i].cancelled;
        assert pending[1..][i - 1] == pending[i];
        MarkedOne(pending[1..], id, k - 1);
      }
    }
  }

  /** The broker's queue after one cancellation, given what it does to the orders. */
  lemma CancelledQueue(o: Oms, r: Oms, pending: seq<SimOrder>, id: int)
    requires QueueOk(o, pending) && AllOpenWorking(o, pending) && Working(pending, id)
    requires id in o.orders && r.orders.Keys == o.orders.Keys && Terminal(r.orders[id].state)
    requires forall i :: i in o.orders && i != id ==> r.orders[i] == o.orders[i]
    ensures QueueOk(r, MarkCancelled(pending, id)) && AllOpenWorking(r, MarkCancelled(pending, id))
  {
    MarkedPending(pending, id);
    hide MarkCancelled, Terminal;
    var queue := MarkCancelled(pending, id);
    forall i | 0 <= i < |queue| && !queue[i].cancelled ensures InFlight(r, queue[i], 0) {
      assert queue[i] == pending[i] && InFlight(o, pending[i], 0);
      if pending[i].orderId == id { MarkedOne(pending, id, i); }
    }
    forall j | j in r.orders && !Terminal(r.orders[j].state) ensures Working(queue, j) {
      var i :| 0 <= i < |pending| && pending[i].orderId == j && !pending[i].cancelled;
      assert queue[i] == pending[i];
    }
  }

  /** What one cancellation leaves: the order closed, every other order and position as before. */
  lemma CancelOneSane(s: Session, id: int)
    requires Sane(s, s.broker.pending) && id in s.oms.orders
    ensures var r := CancelOne(s, id);
      && Sane(r, r.broker.pending)
      && r.oms.orders.Keys == s.oms.orders.Keys && Terminal(r.oms.orders[id].state)
      && (forall i :: i in s.oms.orders && i != id ==> r.oms.orders[i] == s.oms.orders[i])
      && r.oms.positions == s.oms.positions && r.oms.symbols == s.oms.symbols
      && r == s.(oms := r.oms, broker := s.broker.(pending := r.broker.pending))
  {
    hide Core, Cancel, OnStatus, MarkCancelled, QueueOk, AllOpenWorking, Working, OrdersOk;
    if !Terminal(s.oms.orders[id].state) {
      var pending := s.broker.pending;
      CoreOrders(s.oms, s.broker.nextId, s.broker.execSeq);
      CancelConfirmed(s.oms, id);
      CancelCore(s.oms, id, s.broker.nextId, s.broker.execSeq);
      OpenIsWorking(s.oms, pending, id);
      MarkedPending(pending, id);
      CancelledQueue(s.oms, OnStatus(Cancel(s.oms, id), id, Cancelled), pending, id);
    }
  }

  lemma CoreOrders(o: Oms, nextId: int, execSeq: nat)
    requires Core(o, nextId, execSeq)
    ensures OrdersOk(o)
  {
  }

  lemma OpenIsWorking(o: Oms, pending: seq<SimOrder>, id: int)
    requires AllOpenWorking(o, pending) && id in o.orders && !Terminal(o.orders[id].state)
    ensures Working(pending, id)
  {
  }

  lemma {:induction false} CancelEachSane(s: Session, ids: seq<int>)
    requires Sane(s, s.broker.pending) && forall i :: 0 <= i < |ids| ==> ids[i] in s.oms.orders
    ensures var r := CancelEach(s, ids);
      && Sane(r, r.broker.pending)
      && r.oms.orders.Keys == s.oms.orders.Keys
      && (forall i :: i in s.oms.orders && Terminal(s.oms.orders[i].state) ==> Terminal(r.oms.orders[i].state))
      && (forall i :: 0 <= i < |ids| ==> Terminal(r.oms.orders[ids[i]].state))
      && r.oms.positions == s.oms.positions && r.oms.symbols == s.oms.symbols
      && r == s.(oms := r.oms, broker := s.broker.(pending := r.broker.pending))
  {
    hide Sane, CancelOne, Terminal;
    if |ids| > 0 {
      var n := |ids| - 1;
      CancelEachSane(s, ids[..n]);
      CancelOneSane(CancelEach(s, ids[..n]), ids[n]);
      assert forall i :: 0 <= i < n ==> ids[i] == ids[..n][i];
    }
  }

  lemma {:induction false} OpenIdsAre(o: Oms, n: nat)
    requires n <= |o.ids|
    ensures forall i :: 0 <= i < |OpenUpTo(o, n)| ==> OpenUpTo(o, n)[i] in o.orders
    ensures forall j :: 0 <= j < n && o.ids[j] in o.orders && !Terminal(o.orders[o.ids[j]].state) ==>
              o.ids[j] in OpenUpTo(o, n)
    ensures (forall j :: 0 <= j < n && o.ids[j] in o.orders ==> Terminal(o.orders[o.ids[j]].state)) ==> OpenUpTo(o, n) == []
  {
    hide Terminal;
    if n > 0 {
      OpenIdsAre(o, n - 1);
    }
  }

  /** Cancelling everything leaves no order open, in the order system or at the broker. */
  lemma CancelAllCloses(s: Session)
    requires Sane(s, s.broker.pending)
    ensures var r := CancelAll(s);
      && Sane(r, r.broker.pending)
      && OpenIds(r.oms) == []
      && !HasPending(r.broker.pending)
      && r.oms.positions == s.oms.positions && r.oms.symbols == s.oms.symbols
      && r == s.(oms := r.oms, broker := s.broker.(pending := r.broker.pending))
  {
    OpenIdsAre(s.oms, |s.oms.ids|);
    CancelEachSane(s, OpenIds(s.oms));
    var r := CancelAll(s);
    forall id | id in r.oms.orders ensures Terminal(r.oms.orders[id].state) {
      assert id in s.oms.ids;
      var j :| 0 <= j < |s.oms.ids| && s.oms.ids[j] == id;
      if !Terminal(s.oms.orders[id].state) {
        assert id in OpenIds(s.oms);
      }
    }
    OpenIdsAre(r.oms, |r.oms.ids|);
    AllCancelled(r.oms, r.broker.pending);
  }

  lemma AllCancelled(o: Oms, queue: seq<SimOrder>)
    requires QueueOk(o, queue) && forall id :: id in o.orders ==> Terminal(o.orders[id].state)
    ensures !HasPending(queue)
  {
  }

  // ------------------------------------------------------------ whole runs

  lemma KillSane(cfg: SimConfig, rcfg: RiskConfig, s: Session, flattenId: int)
    requires Sane(s, s.broker.pending)
    ensures var r := KillSwitchFired(cfg, rcfg, s, flattenId);
      Sane(r, r.broker.pending) && r.guard == s.guard && r.tally.ordersAfterKill == s.tally.ordersAfterKill
  {
    hide CancelAll, RouteAll, FlattenSpec, Held, Quantities;
    var s1 := s.(flattened := true);
    assert Sane(s1, s1.broker.pending);
    hide Sane;
    CancelAllCloses(s1);
    var c := CancelAll(s1);
    RouteAllSane(cfg, rcfg, c, FlattenSpec(Held(c.oms), Quantities(c.oms), flattenId));
  }

  /** Sanity only looks at the order book and the broker. */
  lemma SaneFrame(s: Session, r: Session, queue: seq<SimOrder>)
    requires Sane(s, queue) && r.oms == s.oms && r.broker.nextId == s.broker.nextId && r.broker.execSeq == s.broker.execSeq
    ensures Sane(r, queue)
  {
  }

  lemma MarkSane(cfg: SimConfig, rcfg: RiskConfig, s: Session, bar: Bar)
    requires Sane(s, s.broker.pending)
    ensures var r := MarkBar(cfg, rcfg, s, bar);
      Sane(r, r.broker.pending) && r.tally.ordersAfterKill == s.tally.ordersAfterKill
  {
    hide Sane, KillSwitchFired, Equity, Trips, UpdateEquitySpec, MarkSpec;
    var equity := Equity(cfg, s.oms, s.broker.commissions, bar.close);
    var marked := if s.prevEquity.Some? && !s.guard.kill then MarkSpec(s.guard, s.prevEquity.value) else s.guard;
    var s2 := s.(lastPrice := Some(bar.close)).(guard := UpdateEquitySpec(rcfg, marked, equity));
    var s3 := s2.(tally := s2.tally.(killTripped := true));
    SaneFrame(s, s2, s.broker.pending);
    SaneFrame(s, s3, s.broker.pending);
    KillSane(cfg, rcfg, s3, bar.flattenId);
    var k := KillSwitchFired(cfg, rcfg, s3, bar.flattenId);
    var r := MarkBar(cfg, rcfg, s, bar);
    SaneFrame(s, r.(oms := s.oms, broker := s.broker), s.broker.pending);
    SaneFrame(k, r.(oms := k.oms, broker := k.broker), k.broker.pending);
    assert (r.oms == s.oms && r.broker == s.broker) || (r.oms == k.oms && r.broker == k.broker);
    assert r == r.(oms := r.oms, broker := r.broker);
  }

  lemma BarOpenQuiet(cfg: SimConfig, s: Session, bar: Bar)
    requires cfg.tickSize != 0.0
    ensures var r := ProcessBarOpen(cfg, s, bar);
      r == s.(oms := r.oms, cycle := r.cycle,
              broker := s.broker.(pending := [], execSeq := r.broker.execSeq, commissions := r.broker.commissions))
  {
    FillOrdersQuiet(cfg, s.(broker := s.broker.(pending := [])), s.broker.pending, bar);
  }

  lemma TrackQuiet(s: Session)
    ensures Track(s) == s.(tally := Track(s).tally) && Track(s).tally.ordersAfterKill == s.tally.ordersAfterKill
  {
  }

  lemma StepSane(cfg: SimConfig, rcfg: RiskConfig, s: Session, bar: Bar)
    requires cfg.tickSize != 0.0 && Sane(s, s.broker.pending)
    ensures var r := StepBar(cfg, rcfg, s, bar);
      Sane(r, r.broker.pending) && r.tally.ordersAfterKill == s.tally.ordersAfterKill
  {
    hide ProcessBarOpen, MarkBar, RouteAll, Sane, NetPosition, Track;
    if !s.raised {
      var s0 := s.(tally := s.tally.(bars := s.tally.bars + 1));
      SaneFrame(s, s0, s0.broker.pending);
      BarOpenSane(cfg, s0, bar);
      BarOpenQuiet(cfg, s0, bar);
      var filled := ProcessBarOpen(cfg, s0, bar);
      MarkSane(cfg, rcfg, filled, bar);
      var marked := MarkBar(cfg, rcfg, filled, bar);
      RouteAllSane(cfg, rcfg, marked, bar.intents);
      var routed := RouteAll(cfg, rcfg, marked, bar.intents);
      TrackQuiet(routed);
      SaneFrame(routed, Track(routed), routed.broker.pending);
    }
  }

  /** Sound after every bar, for every strategy; and no strategy order is placed once the switch is on. */
  lemma {:induction false} RunSane(cfg: SimConfig, rcfg: RiskConfig, bars: seq<Bar>)
    requires cfg.tickSize != 0.0
    ensures var r := RunSession(cfg, rcfg, FRESH, bars);
      Sane(r, r.broker.pending) && r.tally.ordersAfterKill == 0
  {
    FreshSane();
    hide Sane, StepBar;
    if |bars| > 0 {
      RunSane(cfg, rcfg, bars[..|bars| - 1]);
      StepSane(cfg, rcfg, RunSession(cfg, rcfg, FRESH, bars[..|bars| - 1]), bars[|bars| - 1]);
    }
  }

  // ------------------------------------------------------------ the two equities

  lemma {:induction false} RealizedPlusUnrealized(o: Oms, mark: real, n: nat)
    requires n <= |o.symbols|
    ensures RealizedUpTo(o, n) + UnrealizedUpTo(o, mark, n) == Sum(LedgerValues(o, mark)[..n])
  {
    hide PositionOf, UnrealizedPnl;
    if n > 0 {
      RealizedPlusUnrealized(o, mark, n - 1);
      assert LedgerValues(o, mark)[..n][..n - 1] == LedgerValues(o, mark)[..n - 1];
    }
  }

  lemma {:induction false} ReplayIsGains(cfg: SimConfig, o: Oms, cash: real, mark: real, n: nat)
    requires n <= |o.ids|
    ensures var (c, pos) := ReplayUpTo(cfg, o, cash, n);
      c + Worth(cfg.multiplier, pos, mark) == cash + cfg.multiplier * Sum(OrderGains(o, mark)[..n])
  {
    hide OrderGains, GainOf, OrderGain, Worth, Sum;
    if n == 0 {
      assert OrderGains(o, mark)[..0] == [];
      NothingYet(cfg.multiplier, mark);
    } else {
      ReplayIsGains(cfg, o, cash, mark, n - 1);
      var gains := OrderGains(o, mark);
      assert gains[..n] == gains[..n - 1] + [gains[n - 1]];
      SumAppend(gains[..n - 1], gains[n - 1]);
      ReplayOne(cfg, o, cash, mark, n);
      hide ReplayUpTo;
      var (c, pos) := ReplayUpTo(cfg, o, cash, n - 1);
      ReplayStep(cfg.multiplier, c, pos, SignedFilledOf(o, o.ids[n - 1]), AvgPriceOf(o, o.ids[n - 1]), mark, cash,
                 Sum(gains[..n - 1]));
    }
  }

  lemma NothingYet(m: real, mark: real)
    ensures Sum([]) == 0.0 && Worth(m, 0, mark) == 0.0 && m * 0.0 == 0.0
  {
  }

  function SignedFilledOf(o: Oms, id: int): int {
    if id in o.orders then o.orders[id].SignedFilled() else 0
  }

  function AvgPriceOf(o: Oms, id: int): real {
    if id in o.orders then o.orders[id].avgPrice else 0.0
  }

  /** Skipping an order without fills counts it all the same. */
  lemma ReplayOne(cfg: SimConfig, o: Oms, cash: real, mark: real, n: nat)
    requires 0 < n <= |o.ids|
    ensures var (c, pos) := ReplayUpTo(cfg, o, cash, n - 1); var id := o.ids[n - 1];
      ReplayUpTo(cfg, o, cash, n)
      == (c - Worth(cfg.multiplier, SignedFilledOf(o, id), AvgPriceOf(o, id)), pos + SignedFilledOf(o, id))
    ensures OrderGains(o, mark)[n - 1] == Gain(SignedFilledOf(o, o.ids[n - 1]), AvgPriceOf(o, o.ids[n - 1]), mark)
  {
    NoUnits(cfg.multiplier, AvgPriceOf(o, o.ids[n - 1]), mark);
    hide Worth;
  }

  lemma NoUnits(m: real, avg: real, mark: real)
    ensures Worth(m, 0, avg) == 0.0 && Gain(0, avg, mark) == 0.0
  {
  }

  /** What `units` gain between two prices. */
  function Gain(units: int, from: real, to: real): real {
    units as real * (to - from)
  }

  lemma ReplayStep(m: real, c: real, pos: int, signed: int, avg: real, mark: real, cash: real, sum: real)
    requires c + Worth(m, pos, mark) == cash + m * sum
    ensures c - Worth(m, signed, avg) + Worth(m, pos + signed, mark) == cash + m * (sum + Gain(signed, avg, mark))
  {
    SpreadValue(signed as real, mark, avg);
    assert (pos + signed) as real == pos as real + signed as real;
    assert Worth(m, pos + signed, mark) == m * pos as real * mark + m * signed as real * mark;
    assert m * Gain(signed, avg, mark) == m * signed as real * mark - m * signed as real * avg;
    assert m * (sum + Gain(signed, avg, mark)) == m * sum + m * Gain(signed, avg, mark);
  }

  /** The ledger's equity is the raw orders' equity, at every mark. */
  lemma EquitiesAgree(cfg: SimConfig, o: Oms, commissions: real, mark: real)
    requires LedgerEqualsOrders(o, mark) && OrdersOk(o)
    ensures Equity(cfg, o, commissions, mark) == ReplayEquity(cfg, o, commissions, mark)
  {
    hide RealizedUpTo, UnrealizedUpTo, ReplayUpTo, Sum, OrdersOk, KeysOk, LedgerValues, OrderGains, Worth;
    RealizedPlusUnrealized(o, mark, |o.symbols|);
    ReplayIsGains(cfg, o, cfg.initialCash - commissions, mark, |o.ids|);
    var total := Sum(LedgerValues(o, mark));
    assert Realized(o) + Unrealized(o, mark) == total by {
      assert LedgerValues(o, mark)[..|o.symbols|] == LedgerValues(o, mark);
    }
    assert Sum(OrderGains(o, mark)[..|o.ids|]) == total by {
      assert OrderGains(o, mark)[..|o.ids|] == OrderGains(o, mark);
    }
    var (cash, pos) := ReplayUpTo(cfg, o, cfg.initialCash - commissions, |o.ids|);
    ghost var replayed := cfg.multiplier * Sum(OrderGains(o, mark)[..|o.ids|]);
    assert cash + Worth(cfg.multiplier, pos, mark) == cfg.initialCash - commissions + replayed;
    assert replayed == cfg.multiplier * (Realized(o) + Unrealized(o, mark));
  }

  /**
   The replay's own cross-check can never fail: for every strategy, every bar sequence and every
   configuration the accounting error is exactly zero, and no order is left open.
   */
  lemma AccountingErrorIsZero(cfg: SimConfig, rcfg: RiskConfig, bars: seq<Bar>)
    requires cfg.tickSize != 0.0
    ensures var r := OutcomeOf(cfg, CancelAll(RunSession(cfg, rcfg, FRESH, bars)));
      r.accountingError == 0.0 && r.openOrders == 0
  {
    hide Sane, RunSession, CancelAll, Equity, ReplayEquity, OpenIds;
    var s := RunSession(cfg, rcfg, FRESH, bars);
    RunSane(cfg, rcfg, bars);
    CancelAllCloses(s);
    var r := CancelAll(s);
    SaneIsBalanced(r, LastOrZero(r.lastPrice));
    EquitiesAgree(cfg, r.oms, r.broker.commissions, LastOrZero(r.lastPrice));
  }

  lemma SaneIsBalanced(s: Session, mark: real)
    requires Sane(s, s.broker.pending)
    ensures LedgerEqualsOrders(s.oms, mark) && OrdersOk(s.oms) && KeysOk(s.oms)
  {
  }
}
