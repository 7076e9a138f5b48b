/**
 The historical replay on values: the simulated broker, the risk gate, the order book and the
 session loop, one function per step, over every sequence of bars and strategy orders.
 */
module SimSpec {
  import opened Common
  import opened Ledger
  import opened OmsSpec
  import opened Guardrails

  datatype SimConfig = SimConfig(
    multiplier: real, tickSize: real, slippageTicks: int, commission: real, initialCash: real, splitFills: bool)

  datatype SimOrder = SimOrder(orderId: int, intent: Intent, cancelled: bool)

  datatype RoundTrip = RoundTrip(entryTime: int, exitTime: int, units: int, pnl: real)

  /** One bar, with what the strategy answers to it and the intent counter a flattening starts from. */
  datatype Bar = Bar(time: int, open: real, close: real, intents: seq<Intent>, flattenId: int)

  datatype Broker = Broker(nextId: int, pending: seq<SimOrder>, execSeq: nat, commissions: real, received: seq<Intent>)

  /** Round-trip bookkeeping. */
  datatype Cycle = Cycle(entryTime: Option<int>, entryRealized: real, entryCommission: real, trips: seq<RoundTrip>)

  datatype Tally = Tally(
    bars: nat, rejections: nat, ordersAfterKill: nat, maxOrderQuantity: int, maxPosition: int, minPosition: int,
    killTripped: bool, positionAfterKill: Option<int>, curve: seq<(int, real)>)

  datatype Session = Session(
    oms: Oms, broker: Broker, guard: GuardState, cycle: Cycle, tally: Tally,
    lastPrice: Option<real>, prevEquity: Option<real>, flattened: bool, raised: bool)

  const FRESH := Session(
    EMPTY, Broker(1000, [], 0, 0.0, []), ARMED, Cycle(None, 0.0, 0.0, []),
    Tally(0, 0, 0, 0, 0, 0, false, None, []), None, None, false, false)

  // ------------------------------------------------------------ prices and identifiers

  /** Python's round: to the nearest integer, ties to even. */
  function RoundHalfEven(x: real): int {
    var f := x.Floor;
    var d := x - f as real;
    if d < 0.5 || (d == 0.5 && f % 2 == 0) then f else f + 1
  }

  /** The next bar's open, one slippage against the trader, on the tick grid. */
  function FillPrice(cfg: SimConfig, action: Action, open: real): real
    requires cfg.tickSize != 0.0
  {
    var slip := cfg.slippageTicks as real * cfg.tickSize;
    var raw := if action == Buy then open + slip else open - slip;
    RoundHalfEven(raw / cfg.tickSize) as real * cfg.tickSize
  }

  const DIGITS := "0123456789"

  function Decimal(n: nat): string {
    if n < 10 then [DIGITS[n]] else Decimal(n / 10) + [DIGITS[n % 10]]
  }

  function ExecId(n: nat): string {
    "sim-" + Decimal(n)
  }

  // ------------------------------------------------------------ accounting

  function RealizedUpTo(o: Oms, n: nat): real
    requires n <= |o.symbols|
  {
    if n == 0 then 0.0 else RealizedUpTo(o, n - 1) + PositionOf(o, o.symbols[n - 1]).realized
  }

  function UnrealizedUpTo(o: Oms, mark: real, n: nat): real
    requires n <= |o.symbols|
  {
    if n == 0 then 0.0 else UnrealizedUpTo(o, mark, n - 1) + UnrealizedPnl(PositionOf(o, o.symbols[n - 1]), mark)
  }

  function NetUpTo(o: Oms, n: nat): int
    requires n <= |o.symbols|
  {
    if n == 0 then 0 else NetUpTo(o, n - 1) + PositionOf(o, o.symbols[n - 1]).quantity
  }

  function Realized(o: Oms): real { RealizedUpTo(o, |o.symbols|) }
  function Unrealized(o: Oms, mark: real): real { UnrealizedUpTo(o, mark, |o.symbols|) }
  function NetPosition(o: Oms): int { NetUpTo(o, |o.symbols|) }

  function Equity(cfg: SimConfig, o: Oms, commissions: real, mark: real): real {
    cfg.initialCash + cfg.multiplier * (Realized(o) + Unrealized(o, mark)) - commissions
  }

  /** Symbols with a non-zero net position, in ledger order. */
  function HeldUpTo(o: Oms, n: nat): seq<string>
    requires n <= |o.symbols|
  {
    if n == 0 then []
    else if PositionOf(o, o.symbols[n - 1]).quantity == 0 then HeldUpTo(o, n - 1)
    else HeldUpTo(o, n - 1) + [o.symbols[n - 1]]
  }

  function Held(o: Oms): seq<string> { HeldUpTo(o, |o.symbols|) }

  function Quantities(o: Oms): map<string, int> {
    map s | s in o.positions && o.positions[s].quantity != 0 :: o.positions[s].quantity
  }

  function LastOrZero(p: Option<real>): real {
    match p case Some(x) => x case None => 0.0
  }

  function SnapshotFor(cfg: SimConfig, o: Oms, lastPrice: Option<real>, symbol: string): Snapshot {
    Snapshot(Held(o), Quantities(o), map[symbol := LastOrZero(lastPrice)], map[symbol := cfg.multiplier])
  }

  // ------------------------------------------------------------ orders in and out

  function Place(s: Session, intent: Intent): Session {
    var id := s.broker.nextId + 1;
    s.(broker := s.broker.(nextId := id, pending := s.broker.pending + [SimOrder(id, intent, false)],
                           received := s.broker.received + [intent]),
       oms := Submit(s.oms, intent, Some(id)),
       tally := s.tally.(
         ordersAfterKill := s.tally.ordersAfterKill + (if s.guard.kill && intent.source != RiskFlatten then 1 else 0),
         maxOrderQuantity := MaxI(s.tally.maxOrderQuantity, intent.quantity)))
  }

  /** The risk gate decides; an approved order is placed. */
  function Route(cfg: SimConfig, rcfg: RiskConfig, s: Session, intent: Intent): Session {
    if ValidateSpec(rcfg, s.guard.kill, intent, SnapshotFor(cfg, s.oms, s.lastPrice, intent.symbol)).Refuse? then
      s.(tally := s.tally.(rejections := s.tally.rejections + 1))
    else Place(s, intent)
  }

  function RouteAll(cfg: SimConfig, rcfg: RiskConfig, s: Session, intents: seq<Intent>): Session {
    if |intents| == 0 then s
    else Route(cfg, rcfg, RouteAll(cfg, rcfg, s, intents[..|intents| - 1]), intents[|intents| - 1])
  }

  /** The broker still works on this order. */
  predicate Working(pending: seq<SimOrder>, id: int) {
    exists i :: 0 <= i < |pending| && pending[i].orderId == id && !pending[i].cancelled
  }

  /** Flag the first working order with this id. */
  function MarkCancelled(pending: seq<SimOrder>, id: int): seq<SimOrder> {
    if |pending| == 0 then []
    else if pending[0].orderId == id && !pending[0].cancelled then [pending[0].(cancelled := true)] + pending[1..]
    else [pending[0]] + MarkCancelled(pending[1..], id)
  }

  /** Cancel one order: the state machine asks, the broker confirms if it still works on it. */
  function CancelOne(s: Session, id: int): Session {
    if id !in s.oms.orders || Terminal(s.oms.orders[id].state) then s
    else
      var asked := Cancel(s.oms, id);
      if Working(s.broker.pending, id) then
        s.(oms := OnStatus(asked, id, Cancelled), broker := s.broker.(pending := MarkCancelled(s.broker.pending, id)))
      else s.(oms := asked)
  }

  function CancelEach(s: Session, ids: seq<int>): Session {
    if |ids| == 0 then s else CancelOne(CancelEach(s, ids[..|ids| - 1]), ids[|ids| - 1])
  }

  function OpenUpTo(o: Oms, n: nat): seq<int>
    requires n <= |o.ids|
  {
    if n == 0 then []
    else if o.ids[n - 1] !in o.orders || Terminal(o.orders[o.ids[n - 1]].state) then OpenUpTo(o, n - 1)
    else OpenUpTo(o, n - 1) + [o.ids[n - 1]]
  }

  function OpenIds(o: Oms): seq<int> { OpenUpTo(o, |o.ids|) }

  function CancelAll(s: Session): Session {
    CancelEach(s, OpenIds(s.oms))
  }

  // ------------------------------------------------------------ fills

  /** A cycle's result at its last execution, before that execution is charged. */
  function TripPnl(cfg: SimConfig, c: Cycle, realized: real, commissions: real): real {
    cfg.multiplier * (realized - c.entryRealized) - (commissions - c.entryCommission)
  }

  /** What the fill callback does to the round-trip bookkeeping. */
  function OnOmsFill(cfg: SimConfig, c: Cycle, o: Oms, commissions: real, units: int, time: int): Cycle {
    var pos := NetPosition(o);
    if pos != 0 && c.entryTime.None? then
      c.(entryTime := Some(time), entryRealized := Realized(o), entryCommission := commissions)
    else if pos == 0 && c.entryTime.Some? then
      c.(entryTime := None,
         trips := c.trips + [RoundTrip(c.entryTime.value, time, units, TripPnl(cfg, c, Realized(o), commissions))])
    else c
  }

  function PartFill(order: SimOrder, part: int, price: real, execSeq: nat): Fill {
    Fill(order.orderId, order.intent.symbol, if order.intent.action == Buy then part else -part, price, ExecId(execSeq))
  }

  /** One execution: applied by the order system, fed back, then charged. */
  function FillPart(cfg: SimConfig, s: Session, order: SimOrder, part: int, price: real, time: int): Session {
    var f := PartFill(order, part, price, s.broker.execSeq + 1);
    var oms := OnFill(s.oms, f);
    s.(oms := oms,
       cycle := if Accepts(s.oms, f) then OnOmsFill(cfg, s.cycle, oms, s.broker.commissions, AbsI(part), time) else s.cycle,
       broker := s.broker.(execSeq := s.broker.execSeq + 1,
                           commissions := s.broker.commissions + part as real * cfg.commission))
  }

  /** An uncancelled order fills at the bar's open, in two parts when it can be split. */
  function FillOrder(cfg: SimConfig, s: Session, order: SimOrder, bar: Bar): Session
    requires cfg.tickSize != 0.0
  {
    if order.cancelled then s
    else
      var price := FillPrice(cfg, order.intent.action, bar.open);
      var qty := order.intent.quantity;
      if cfg.splitFills && qty >= 2 then
        FillPart(cfg, FillPart(cfg, s, order, qty / 2, price, bar.time), order, qty - qty / 2, price, bar.time)
      else FillPart(cfg, s, order, qty, price, bar.time)
  }

  function FillOrders(cfg: SimConfig, s: Session, orders: seq<SimOrder>, bar: Bar): Session
    requires cfg.tickSize != 0.0
  {
    if |orders| == 0 then s else FillOrder(cfg, FillOrders(cfg, s, orders[..|orders| - 1], bar), orders[|orders| - 1], bar)
  }

  function ProcessBarOpen(cfg: SimConfig, s: Session, bar: Bar): Session
    requires cfg.tickSize != 0.0
  {
    FillOrders(cfg, s.(broker := s.broker.(pending := [])), s.broker.pending, bar)
  }

  // ------------------------------------------------------------ the session loop

  function KillSwitchFired(cfg: SimConfig, rcfg: RiskConfig, s: Session, flattenId: int): Session {
    if s.flattened then s
    else
      var c := CancelAll(s.(flattened := true));
      RouteAll(cfg, rcfg, c, FlattenSpec(Held(c.oms), Quantities(c.oms), flattenId))
  }

  /** Mark equity at the close and drive the breaker. */
  function MarkBar(cfg: SimConfig, rcfg: RiskConfig, s: Session, bar: Bar): Session {
    var s1 := s.(lastPrice := Some(bar.close));
    var equity := Equity(cfg, s.oms, s.broker.commissions, bar.close);
    if s.prevEquity.Some? && !s.guard.kill && s.prevEquity.value <= 0.0 then s1.(raised := true)
    else
      var marked := if s.prevEquity.Some? && !s.guard.kill then MarkSpec(s.guard, s.prevEquity.value) else s.guard;
      var s2 := s1.(guard := UpdateEquitySpec(rcfg, marked, equity));
      var s3 :=
        if Trips(rcfg, marked, equity) then
          KillSwitchFired(cfg, rcfg, s2.(tally := s2.tally.(killTripped := true)), bar.flattenId)
        else s2;
      s3.(prevEquity := Some(equity), tally := s3.tally.(curve := s3.tally.curve + [(bar.time, equity)]))
  }

  predicate HasPending(pending: seq<SimOrder>) {
    exists i :: 0 <= i < |pending| && !pending[i].cancelled
  }

  /** Exposure extremes, from the live ledger. */
  function Track(s: Session): Session {
    var pos := NetPosition(s.oms);
    s.(tally := s.tally.(
      maxPosition := MaxI(s.tally.maxPosition, pos),
      minPosition := MinI(s.tally.minPosition, pos),
      positionAfterKill :=
        if s.tally.killTripped && s.tally.positionAfterKill.None? && !HasPending(s.broker.pending) then Some(pos)
        else s.tally.positionAfterKill))
  }

  function StepBar(cfg: SimConfig, rcfg: RiskConfig, s: Session, bar: Bar): Session
    requires cfg.tickSize != 0.0
  {
    if s.raised then s
    else
      var filled := ProcessBarOpen(cfg, s.(tally := s.tally.(bars := s.tally.bars + 1)), bar);
      var marked := MarkBar(cfg, rcfg, filled, bar);
      if marked.raised then marked else Track(RouteAll(cfg, rcfg, marked, bar.intents))
  }

  function RunSession(cfg: SimConfig, rcfg: RiskConfig, s: Session, bars: seq<Bar>): Session
    requires cfg.tickSize != 0.0
  {
    if |bars| == 0 then s else StepBar(cfg, rcfg, RunSession(cfg, rcfg, s, bars[..|bars| - 1]), bars[|bars| - 1])
  }

  // ------------------------------------------------------------ the end of the data

  /** Currency value of `units` contracts at `price`. */
  function Worth(multiplier: real, units: int, price: real): real {
    multiplier * units as real * price
  }

  /** Cash and units of the first `n` orders, recomputed from the orders alone. */
  function ReplayUpTo(cfg: SimConfig, o: Oms, cash: real, n: nat): (real, int)
    requires n <= |o.ids|
  {
    if n == 0 then (cash, 0)
    else
      var (c, pos) := ReplayUpTo(cfg, o, cash, n - 1);
      if o.ids[n - 1] !in o.orders || o.orders[o.ids[n - 1]].filled == 0 then (c, pos)
      else
        var ov := o.orders[o.ids[n - 1]];
        (c - Worth(cfg.multiplier, ov.SignedFilled(), ov.avgPrice), pos + ov.SignedFilled())
  }

  function ReplayEquity(cfg: SimConfig, o: Oms, commissions: real, mark: real): real {
    var (cash, pos) := ReplayUpTo(cfg, o, cfg.initialCash - commissions, |o.ids|);
    cash + Worth(cfg.multiplier, pos, mark)
  }

  datatype Outcome = Outcome(
    openOrders: nat, finalPosition: int, finalEquity: real, positionAfterKill: Option<int>, accountingError: real)

  /** Cancel what is still working, then read the final figures off the closed session. */
  function OutcomeOf(cfg: SimConfig, s: Session): Outcome {
    var mark := LastOrZero(s.lastPrice);
    var equity := Equity(cfg, s.oms, s.broker.commissions, mark);
    var position := NetPosition(s.oms);
    Outcome(
      |OpenIds(s.oms)|, position, equity,
      if s.tally.killTripped && s.tally.positionAfterKill.None? then Some(position) else s.tally.positionAfterKill,
      AbsR(equity - ReplayEquity(cfg, s.oms, s.broker.commissions, mark)))
  }
}
