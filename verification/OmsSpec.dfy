/**
 The order management system on values: the order state machine, the fill ledger and the audit
 log, one function per event, and what every sequence of events keeps.
 */
module OmsSpec {
  import opened Common
  import opened Ledger

  datatype Action = Buy | Sell

  datatype OrderType = Market | Limit

  datatype IntentSource = FromStrategy | RiskFlatten | Operator

  datatype Intent = Intent(
    action: Action, symbol: string, quantity: int, orderType: OrderType, limitPrice: Option<real>,
    source: IntentSource, strategyId: string, intentId: int)
  {
    function SignedQuantity(): int { if action == Buy then quantity else -quantity }
  }

  datatype OrderState = Created | Submitted | PartiallyFilled | Filled | PendingCancel | Cancelled | Rejected

  /** The transition table. */
  function NextStates(s: OrderState): set<OrderState> {
    match s
    case Created => {Submitted, Rejected}
    case Submitted => {PartiallyFilled, Filled, PendingCancel, Cancelled, Rejected}
    case PartiallyFilled => {PartiallyFilled, Filled, PendingCancel, Cancelled}
    case PendingCancel => {PartiallyFilled, Filled, Cancelled}
    case Filled => {}
    case Cancelled => {}
    case Rejected => {}
  }

  predicate Terminal(s: OrderState) { s == Filled || s == Cancelled || s == Rejected }

  datatype OrderView = OrderView(
    orderId: int, intent: Intent, state: OrderState, filled: int, avgPrice: real, history: seq<OrderState>)
  {
    function Remaining(): int { intent.quantity - filled }

    /** Cash value of what has been filled, at the average price. */
    function Cost(): real { avgPrice * filled as real }

    /** Filled quantity with the intent's direction. */
    function SignedFilled(): int { if intent.SignedQuantity() > 0 then filled else -filled }
  }

  datatype Fill = Fill(orderId: int, symbol: string, signedQuantity: int, price: real, execId: string)

  /** The audit log's three kinds of lines. */
  datatype LogEntry =
    | Seeded(symbol: string, quantity: int, avgPrice: real)
    | Moved(orderId: int, from: OrderState, to: OrderState)
    | Executed(orderId: int, execId: string, symbol: string, signedQuantity: int, price: real)

  /** Dictionaries keep their keys in insertion order beside the mapping. */
  datatype Oms = Oms(
    ids: seq<int>, orders: map<int, OrderView>,
    symbols: seq<string>, positions: map<string, PositionView>,
    seen: set<string>, log: seq<LogEntry>)

  const EMPTY := Oms([], map[], [], map[], {}, [])

  // ------------------------------------------------------------ events

  function PutOrder(o: Oms, ov: OrderView): Oms {
    o.(ids := if ov.orderId in o.orders then o.ids else o.ids + [ov.orderId],
       orders := o.orders[ov.orderId := ov])
  }

  function PutPosition(o: Oms, symbol: string, p: PositionView): Oms {
    o.(symbols := if symbol in o.positions then o.symbols else o.symbols + [symbol],
       positions := o.positions[symbol := p])
  }

  /** Apply a transition if the table allows it; an illegal one changes nothing. */
  function Transition(o: Oms, id: int, next: OrderState): Oms
    requires id in o.orders
  {
    var ov := o.orders[id];
    if next !in NextStates(ov.state) then o
    else o.(orders := o.orders[id := ov.(state := next, history := ov.history + [next])],
            log := o.log + [Moved(ov.orderId, ov.state, next)])
  }

  /** The id a submit records: the broker's, or a negative one when the broker failed. */
  function SubmitId(intent: Intent, placed: Option<int>): int {
    match placed
    case Some(id) => id
    case None => -intent.intentId
  }

  function Submit(o: Oms, intent: Intent, placed: Option<int>): Oms {
    var id := SubmitId(intent, placed);
    Transition(PutOrder(o, OrderView(id, intent, Created, 0, 0.0, [])), id, if placed.Some? then Submitted else Rejected)
  }

  function Cancel(o: Oms, id: int): Oms {
    if id !in o.orders || Terminal(o.orders[id].state) then o else Transition(o, id, PendingCancel)
  }

  function OnStatus(o: Oms, id: int, state: OrderState): Oms {
    if id !in o.orders || state == o.orders[id].state || state == PartiallyFilled || state == Filled then o
    else Transition(o, id, state)
  }

  /** The fill passes every check: fresh execution, known live order, quantity within what is left. */
  predicate Accepts(o: Oms, f: Fill) {
    && !(f.execId != "" && f.execId in o.seen)
    && f.orderId in o.orders
    && !Terminal(o.orders[f.orderId].state)
    && 0 < AbsI(f.signedQuantity) <= o.orders[f.orderId].Remaining()
  }

  /** Volume-weighted average price after `qty` more at `price`. */
  function BlendedPrice(avg: real, prev: int, price: real, qty: int): real
    requires prev + qty != 0
  {
    (avg * prev as real + price * qty as real) / (prev + qty) as real
  }

  /** The order with the fill counted in. */
  function FilledOrder(ov: OrderView, qty: int, price: real): OrderView
    requires 0 < qty
  {
    ov.(filled := ov.filled + qty,
        avgPrice := if ov.filled + qty == 0 then 0.0 else BlendedPrice(ov.avgPrice, ov.filled, price, qty))
  }

  /** The ledger follows the intent's direction, not the sign the broker reported. */
  function LedgerQuantity(ov: OrderView, f: Fill): int {
    if ov.intent.SignedQuantity() > 0 then AbsI(f.signedQuantity) else -(AbsI(f.signedQuantity) as int)
  }

  function PositionOf(o: Oms, symbol: string): PositionView {
    if symbol in o.positions then o.positions[symbol] else FLAT
  }

  /** The execution marked seen and counted into its order. */
  function Counted(o: Oms, f: Fill, qty: int): Oms
    requires f.orderId in o.orders && 0 < qty
  {
    o.(seen := if f.execId == "" then o.seen else o.seen + {f.execId},
       orders := o.orders[f.orderId := FilledOrder(o.orders[f.orderId], qty, f.price)])
  }

  /** The same execution also in the ledger, before the order's state moves. */
  function Booked(o: Oms, f: Fill, qty: int, signed: int): (r: Oms)
    requires f.orderId in o.orders && 0 < qty
    ensures f.orderId in r.orders
  {
    var c := Counted(o, f, qty);
    PutPosition(c, f.symbol, ApplyFillSpec(PositionOf(c, f.symbol), signed, f.price))
  }

  /** An accepted execution's whole effect. */
  function Execute(o: Oms, f: Fill, qty: int, signed: int, next: OrderState): Oms
    requires f.orderId in o.orders && 0 < qty
  {
    var moved := Transition(Booked(o, f, qty, signed), f.orderId, next);
    moved.(log := moved.log + [Executed(f.orderId, f.execId, f.symbol, signed, f.price)])
  }

  function OnFill(o: Oms, f: Fill): Oms {
    if !Accepts(o, f) then o
    else
      var ov := o.orders[f.orderId];
      var qty := AbsI(f.signedQuantity);
      Execute(o, f, qty, LedgerQuantity(ov, f), if qty == ov.Remaining() then Filled else PartiallyFilled)
  }

  /** Import a broker position; refused over a live one. */
  function Seed(o: Oms, symbol: string, quantity: int, avgPrice: real): Oms {
    if PositionOf(o, symbol).quantity != 0 || quantity == 0 then o
    else
      var o1 := PutPosition(o, symbol, PositionView(quantity, avgPrice, 0.0));
      o1.(log := o1.log + [Seeded(symbol, quantity, avgPrice)])
  }

  datatype Event =
    | SubmitEvent(intent: Intent, placed: Option<int>)
    | CancelEvent(id: int)
    | StatusEvent(id: int, state: OrderState)
    | FillEvent(fill: Fill)
    | SeedEvent(symbol: string, quantity: int, avgPrice: real)

  function Step(o: Oms, ev: Event): Oms {
    match ev
    case SubmitEvent(intent, placed) => Submit(o, intent, placed)
    case CancelEvent(id) => Cancel(o, id)
    case StatusEvent(id, state) => OnStatus(o, id, state)
    case FillEvent(f) => OnFill(o, f)
    case SeedEvent(s, q, avg) => Seed(o, s, q, avg)
  }

  function Run(o: Oms, events: seq<Event>): Oms {
    if |events| == 0 then o else Step(Run(o, events[..|events| - 1]), events[|events| - 1])
  }

  // ------------------------------------------------------------ what every event keeps

  /** `history` is a path in the transition table from Created to `last`. */
  ghost predicate IsPath(history: seq<OrderState>, last: OrderState) {
    && |history| > 0
    && history[0] in NextStates(Created)
    && (forall i :: 0 < i < |history| ==> history[i] in NextStates(history[i - 1]))
    && history[|history| - 1] == last
  }

  ghost predicate OrderOk(ov: OrderView, id: int) {
    && ov.orderId == id
    && 0 <= ov.filled
    && (ov.filled > 0 ==> ov.filled <= ov.intent.quantity)
    && (ov.state == Filled <==> ov.filled > 0 && ov.filled == ov.intent.quantity)
    && (ov.state == Submitted || ov.state == Rejected ==> ov.filled == 0)
    && (ov.state == PartiallyFilled ==> 0 < ov.filled)
    && IsPath(ov.history, ov.state)
  }

  ghost predicate KeysOk(o: Oms) {
    && (forall id :: id in o.ids <==> id in o.orders)
    && (forall i, j :: 0 <= i < j < |o.ids| ==> o.ids[i] != o.ids[j])
    && (forall s :: s in o.symbols <==> s in o.positions)
    && (forall i, j :: 0 <= i < j < |o.symbols| ==> o.symbols[i] != o.symbols[j])
  }

  ghost predicate OrdersOk(o: Oms) {
    forall id :: id in o.orders ==> OrderOk(o.orders[id], id)
  }

  lemma PathNeverCreated(history: seq<OrderState>, last: OrderState)
    requires IsPath(history, last)
    ensures last != Created
  {
    if |history| > 1 {
      assert history[|history| - 1] in NextStates(history[|history| - 2]);
    }
  }

  lemma PathExtends(history: seq<OrderState>, last: OrderState, next: OrderState)
    requires IsPath(history, last) && next in NextStates(last)
    ensures IsPath(history + [next], next)
  {
    var h := history + [next];
    forall i | 0 < i < |h| ensures h[i] in NextStates(h[i - 1]) {
      if i < |history| { assert h[i] == history[i] && h[i - 1] == history[i - 1]; }
    }
  }

  lemma TransitionKeeps(o: Oms, id: int, next: OrderState)
    requires KeysOk(o) && OrdersOk(o) && id in o.orders
    requires next != Filled && next != PartiallyFilled
    ensures KeysOk(Transition(o, id, next)) && OrdersOk(Transition(o, id, next))
  {
    var ov := o.orders[id];
    assert OrderOk(ov, id);
    PathNeverCreated(ov.history, ov.state);
    if next in NextStates(ov.state) {
      PathExtends(ov.history, ov.state, next);
      assert OrderOk(ov.(state := next, history := ov.history + [next]), id) by { hide IsPath; }
    }
    hide OrderOk;
  }

  lemma FilledOrderOk(ov: OrderView, f: Fill)
    requires OrderOk(ov, f.orderId) && !Terminal(ov.state) && 0 < AbsI(f.signedQuantity) <= ov.Remaining()
    ensures var next := if AbsI(f.signedQuantity) == ov.Remaining() then Filled else PartiallyFilled;
      && next in NextStates(ov.state)
      && OrderOk(FilledOrder(ov, AbsI(f.signedQuantity), f.price).(state := next, history := ov.history + [next]), f.orderId)
  {
    PathNeverCreated(ov.history, ov.state);
    PathExtends(ov.history, ov.state, if AbsI(f.signedQuantity) == ov.Remaining() then Filled else PartiallyFilled);
    hide BlendedPrice, IsPath;
  }

  /** The order record an accepted fill leaves behind. */
  function AfterFill(ov: OrderView, f: Fill): OrderView
    requires f.signedQuantity != 0
  {
    var next := if AbsI(f.signedQuantity) == ov.Remaining() then Filled else PartiallyFilled;
    FilledOrder(ov, AbsI(f.signedQuantity), f.price).(state := next, history := ov.history + [next])
  }

  /** The whole effect of an accepted fill, field by field. */
  lemma FillEffect(o: Oms, f: Fill)
    requires OrdersOk(o) && Accepts(o, f)
    ensures var ov := o.orders[f.orderId]; var r := OnFill(o, f); var signed := LedgerQuantity(ov, f);
      && r.ids == o.ids
      && r.orders == o.orders[f.orderId := AfterFill(ov, f)]
      && r.symbols == (if f.symbol in o.positions then o.symbols else o.symbols + [f.symbol])
      && r.positions == o.positions[f.symbol := ApplyFillSpec(PositionOf(o, f.symbol), signed, f.price)]
      && r.seen == (if f.execId == "" then o.seen else o.seen + {f.execId})
      && r.log == o.log + [Moved(f.orderId, ov.state, AfterFill(ov, f).state)]
                  + [Executed(f.orderId, f.execId, f.symbol, signed, f.price)]
  {
    var ov := o.orders[f.orderId];
    assert OrderOk(ov, f.orderId);
    FilledOrderOk(ov, f);
    hide OrderOk, BlendedPrice, ApplyFillSpec;
    var filled := FilledOrder(ov, AbsI(f.signedQuantity), f.price);
    assert o.orders[f.orderId := filled][f.orderId := AfterFill(ov, f)] == o.orders[f.orderId := AfterFill(ov, f)];
  }

  lemma FillKeepsOrders(o: Oms, f: Fill)
    requires KeysOk(o) && OrdersOk(o) && Accepts(o, f)
    ensures KeysOk(OnFill(o, f)) && OrdersOk(OnFill(o, f))
  {
    FillEffect(o, f);
    assert OrderOk(o.orders[f.orderId], f.orderId);
    FilledOrderOk(o.orders[f.orderId], f);
    hide OrderOk, OnFill, ApplyFillSpec, FilledOrder;
  }

  lemma NewOrderOk(ov: OrderView, first: OrderState)
    requires ov.state == Created && ov.filled == 0 && ov.history == [] && first in {Submitted, Rejected}
    ensures OrderOk(ov.(state := first, history := ov.history + [first]), ov.orderId)
  {
    assert [] + [first] == [first];
  }

  lemma SubmitKeepsOrders(o: Oms, intent: Intent, placed: Option<int>)
    requires KeysOk(o) && OrdersOk(o)
    ensures KeysOk(Submit(o, intent, placed)) && OrdersOk(Submit(o, intent, placed))
  {
    var first := if placed.Some? then Submitted else Rejected;
    var ov := OrderView(SubmitId(intent, placed), intent, Created, 0, 0.0, []);
    NewOrderOk(ov, first);
    hide OrderOk;
  }

  /**
   Every event, however late, duplicated, oversized, mis-signed or unknown, keeps the state machine
   sound: quantities within the order, FILLED exactly when fully filled, histories in the table.
   */
  lemma StepKeepsOrders(o: Oms, ev: Event)
    requires KeysOk(o) && OrdersOk(o)
    ensures KeysOk(Step(o, ev)) && OrdersOk(Step(o, ev))
  {
    hide OrderOk, OrdersOk, Transition, OnFill, Submit;
    match ev {
      case SubmitEvent(intent, placed) => SubmitKeepsOrders(o, intent, placed);
      case CancelEvent(id) =>
        if id in o.orders { TransitionKeeps(o, id, PendingCancel); }
      case StatusEvent(id, state) =>
        if id in o.orders && state != Filled && state != PartiallyFilled { TransitionKeeps(o, id, state); }
      case FillEvent(f) =>
        if Accepts(o, f) { FillKeepsOrders(o, f); } else { RefusedFill(o, f); }
      case SeedEvent(s, q, avg) => SeedKeepsOrders(o, s, q, avg);
    }
  }

  lemma RefusedFill(o: Oms, f: Fill)
    requires !Accepts(o, f)
    ensures OnFill(o, f) == o
  {
  }

  lemma SeedKeepsOrders(o: Oms, symbol: string, quantity: int, avgPrice: real)
    requires KeysOk(o) && OrdersOk(o)
    ensures KeysOk(Seed(o, symbol, quantity, avgPrice)) && OrdersOk(Seed(o, symbol, quantity, avgPrice))
  {
    hide OrderOk;
  }

  /** A finished order is never touched again, unless its own id is submitted a second time. */
  lemma TerminalIsFinal(o: Oms, ev: Event, id: int)
    requires id in o.orders && Terminal(o.orders[id].state)
    requires ev.SubmitEvent? ==> SubmitId(ev.intent, ev.placed) != id
    ensures id in Step(o, ev).orders && Step(o, ev).orders[id] == o.orders[id]
  {
  }

  // ------------------------------------------------------------ the log accounts for everything

  function FilledOf(log: seq<LogEntry>, id: int): int {
    if |log| == 0 then 0
    else FilledOf(log[..|log| - 1], id)
         + (match log[|log| - 1] case Executed(i, _, _, q, _) => (if i == id then AbsI(q) as int else 0) case _ => 0)
  }

  function CostOf(log: seq<LogEntry>, id: int): real {
    if |log| == 0 then 0.0
    else CostOf(log[..|log| - 1], id)
         + (match log[|log| - 1] case Executed(i, _, _, q, p) => (if i == id then AbsI(q) as real * p else 0.0) case _ => 0.0)
  }

  function ExecCount(log: seq<LogEntry>, x: string): int {
    if |log| == 0 then 0
    else ExecCount(log[..|log| - 1], x)
         + (match log[|log| - 1] case Executed(_, e, _, _, _) => (if e == x then 1 else 0) case _ => 0)
  }

  /** Seeded and executed units of a symbol. */
  function NetOf(log: seq<LogEntry>, symbol: string): int {
    if |log| == 0 then 0
    else NetOf(log[..|log| - 1], symbol)
         + (match log[|log| - 1]
            case Executed(_, _, s, q, _) => (if s == symbol then q else 0)
            case Seeded(s, q, _) => (if s == symbol then q else 0)
            case Moved(_, _, _) => 0)
  }

  lemma LogAppend(log: seq<LogEntry>, e: LogEntry)
    ensures (log + [e])[..|log|] == log
    ensures forall id :: FilledOf(log + [e], id) == FilledOf(log, id) + FilledOf([e], id)
    ensures forall id :: CostOf(log + [e], id) == CostOf(log, id) + CostOf([e], id)
    ensures forall x :: ExecCount(log + [e], x) == ExecCount(log, x) + ExecCount([e], x)
    ensures forall s :: NetOf(log + [e], s) == NetOf(log, s) + NetOf([e], s)
  {
    assert (log + [e])[..|log|] == log;
    forall id ensures FilledOf(log + [e], id) == FilledOf(log, id) + FilledOf([e], id)
                      && CostOf(log + [e], id) == CostOf(log, id) + CostOf([e], id) {
      OrderTallies(log, e, id);
    }
    forall x ensures ExecCount(log + [e], x) == ExecCount(log, x) + ExecCount([e], x)
                     && NetOf(log + [e], x) == NetOf(log, x) + NetOf([e], x) {
      TextTallies(log, e, x);
    }
  }

  lemma OrderTallies(log: seq<LogEntry>, e: LogEntry, id: int)
    ensures FilledOf(log + [e], id) == FilledOf(log, id) + FilledOf([e], id)
    ensures CostOf(log + [e], id) == CostOf(log, id) + CostOf([e], id)
  {
    assert (log + [e])[..|log|] == log && [e][..0] == [];
  }

  lemma TextTallies(log: seq<LogEntry>, e: LogEntry, x: string)
    ensures ExecCount(log + [e], x) == ExecCount(log, x) + ExecCount([e], x)
    ensures NetOf(log + [e], x) == NetOf(log, x) + NetOf([e], x)
  {
    assert (log + [e])[..|log|] == log && [e][..0] == [];
  }

  /** Filled quantity and cost of every order are the sums of its accepted executions. */
  ghost predicate FillsAccounted(o: Oms) {
    && (forall id :: id in o.orders ==>
          o.orders[id].filled == FilledOf(o.log, id) && o.orders[id].Cost() == CostOf(o.log, id))
    && (forall id :: id !in o.orders ==> FilledOf(o.log, id) == 0 && CostOf(o.log, id) == 0.0)
  }

  /** Each non-empty execution id has been applied exactly once if seen, never otherwise. */
  ghost predicate ExecsOnce(o: Oms) {
    forall x :: x != "" ==> ExecCount(o.log, x) == if x in o.seen then 1 else 0
  }

  /** Each symbol's position is its seeds plus its signed executions. */
  ghost predicate PositionsAccounted(o: Oms) {
    forall s :: PositionOf(o, s).quantity == NetOf(o.log, s)
  }

  ghost predicate Reconciled(o: Oms) {
    FillsAccounted(o) && ExecsOnce(o) && PositionsAccounted(o)
  }

  ghost predicate Accounted(o: Oms) {
    KeysOk(o) && OrdersOk(o) && Reconciled(o)
  }

  /** The broker never hands out an id that is already recorded. */
  ghost predicate FreshSubmit(o: Oms, ev: Event) {
    ev.SubmitEvent? ==> SubmitId(ev.intent, ev.placed) !in o.orders
  }

  lemma MovedIsSilent(log: seq<LogEntry>, id: int, from: OrderState, to: OrderState)
    ensures forall i :: FilledOf(log + [Moved(id, from, to)], i) == FilledOf(log, i)
    ensures forall i :: CostOf(log + [Moved(id, from, to)], i) == CostOf(log, i)
    ensures forall x :: ExecCount(log + [Moved(id, from, to)], x) == ExecCount(log, x)
    ensures forall s :: NetOf(log + [Moved(id, from, to)], s) == NetOf(log, s)
  {
    LogAppend(log, Moved(id, from, to));
  }

  lemma TransitionReconciled(o: Oms, id: int, next: OrderState)
    requires id in o.orders && Reconciled(o)
    ensures Reconciled(Transition(o, id, next))
  {
    var ov := o.orders[id];
    MovedIsSilent(o.log, ov.orderId, ov.state, next);
    assert ov.(state := next, history := ov.history + [next]).Cost() == ov.Cost();
    hide FilledOf, CostOf, ExecCount, NetOf, NextStates;
  }

  lemma SubmitReconciled(o: Oms, intent: Intent, placed: Option<int>)
    requires Reconciled(o) && SubmitId(intent, placed) !in o.orders
    ensures Reconciled(Submit(o, intent, placed))
  {
    var ov := OrderView(SubmitId(intent, placed), intent, Created, 0, 0.0, []);
    assert ov.Cost() == 0.0;
    hide Transition, FilledOf, CostOf, ExecCount, NetOf;
    assert Reconciled(PutOrder(o, ov));
    TransitionReconciled(PutOrder(o, ov), ov.orderId, if placed.Some? then Submitted else Rejected);
  }

  lemma BlendKeepsCost(avg: real, prev: int, price: real, qty: int)
    requires prev >= 0 && qty > 0
    ensures BlendedPrice(avg, prev, price, qty) * (prev + qty) as real == avg * prev as real + price * qty as real
  {
  }

  /** What an execution line adds to each of the four tallies. */
  lemma ExecutedTallies(log: seq<LogEntry>, id: int, exec: string, symbol: string, signed: int, price: real)
    ensures var e := Executed(id, exec, symbol, signed, price);
      && (forall i :: FilledOf(log + [e], i) == FilledOf(log, i) + if i == id then AbsI(signed) else 0)
      && (forall i :: CostOf(log + [e], i) == CostOf(log, i) + if i == id then AbsI(signed) as real * price else 0.0)
      && (forall x :: ExecCount(log + [e], x) == ExecCount(log, x) + if x == exec then 1 else 0)
      && (forall s :: NetOf(log + [e], s) == NetOf(log, s) + if s == symbol then signed else 0)
  {
    LogAppend(log, Executed(id, exec, symbol, signed, price));
    assert [Executed(id, exec, symbol, signed, price)][..0] == [];
  }

  lemma AfterFillTallies(ov: OrderView, f: Fill)
    requires ov.filled >= 0 && f.signedQuantity != 0
    ensures AfterFill(ov, f).filled == ov.filled + AbsI(f.signedQuantity)
    ensures AfterFill(ov, f).Cost() == ov.Cost() + AbsI(f.signedQuantity) as real * f.price
    ensures AbsI(LedgerQuantity(ov, f)) == AbsI(f.signedQuantity)
  {
    BlendKeepsCost(ov.avgPrice, ov.filled, f.price, AbsI(f.signedQuantity));
    hide BlendedPrice;
  }

  lemma FillsAfter(o: Oms, r: Oms, id: int, ov: OrderView, qty: int, cost: real)
    requires FillsAccounted(o) && id in o.orders && r.orders == o.orders[id := ov]
    requires ov.filled == o.orders[id].filled + qty && ov.Cost() == o.orders[id].Cost() + cost
    requires forall i :: FilledOf(r.log, i) == FilledOf(o.log, i) + if i == id then qty else 0
    requires forall i :: CostOf(r.log, i) == CostOf(o.log, i) + if i == id then cost else 0.0
    ensures FillsAccounted(r)
  {
    hide FilledOf, CostOf, OrderView.Cost;
  }

  lemma ExecsAfter(o: Oms, r: Oms, exec: string)
    requires ExecsOnce(o) && !(exec != "" && exec in o.seen)
    requires r.seen == if exec == "" then o.seen else o.seen + {exec}
    requires forall x :: ExecCount(r.log, x) == ExecCount(o.log, x) + if x == exec then 1 else 0
    ensures ExecsOnce(r)
  {
    hide ExecCount;
  }

  lemma PositionsAfter(o: Oms, r: Oms, symbol: string, p: PositionView, signed: int)
    requires PositionsAccounted(o) && r.positions == o.positions[symbol := p]
    requires p.quantity == PositionOf(o, symbol).quantity + signed
    requires forall s :: NetOf(r.log, s) == NetOf(o.log, s) + if s == symbol then signed else 0
    ensures PositionsAccounted(r)
  {
    hide NetOf;
  }

  /** What acceptance says about the order and the execution. */
  lemma AcceptedFacts(o: Oms, f: Fill)
    requires OrdersOk(o) && Accepts(o, f)
    ensures f.orderId in o.orders && f.signedQuantity != 0
    ensures OrderOk(o.orders[f.orderId], f.orderId) && o.orders[f.orderId].filled >= 0
    ensures !(f.execId != "" && f.execId in o.seen)
  {
    assert OrderOk(o.orders[f.orderId], f.orderId);
  }

  lemma LedgerMoves(o: Oms, f: Fill, ov: OrderView)
    ensures ApplyFillSpec(PositionOf(o, f.symbol), LedgerQuantity(ov, f), f.price).quantity
         == PositionOf(o, f.symbol).quantity + LedgerQuantity(ov, f)
  {
    hide WeightedAverage, ClosedPnl;
  }

  /** What an accepted fill's two log lines add to each of the four tallies. */
  lemma FillTallies(before: seq<LogEntry>, log: seq<LogEntry>, moved: LogEntry, f: Fill, signed: int)
    requires moved.Moved? && AbsI(signed) == AbsI(f.signedQuantity)
    requires log == before + [moved] + [Executed(f.orderId, f.execId, f.symbol, signed, f.price)]
    ensures var q := AbsI(f.signedQuantity);
      && (forall i :: FilledOf(log, i) == FilledOf(before, i) + if i == f.orderId then q else 0)
      && (forall i :: CostOf(log, i) == CostOf(before, i) + if i == f.orderId then q as real * f.price else 0.0)
      && (forall x :: ExecCount(log, x) == ExecCount(before, x) + if x == f.execId then 1 else 0)
      && (forall s :: NetOf(log, s) == NetOf(before, s) + if s == f.symbol then signed else 0)
  {
    hide FilledOf, CostOf, ExecCount, NetOf, AbsI;
    MovedIsSilent(before, moved.orderId, moved.from, moved.to);
    ExecutedTallies(before + [moved], f.orderId, f.execId, f.symbol, signed, f.price);
  }

  lemma FillReconciled(o: Oms, f: Fill)
    requires Accounted(o) && Accepts(o, f)
    ensures Reconciled(OnFill(o, f))
  {
    hide OnFill, Accepts, AfterFill, ApplyFillSpec, FilledOf, CostOf, ExecCount, NetOf, OrderOk, OrdersOk, KeysOk,
      LedgerQuantity, PositionOf, OrderView.Cost, FillsAccounted, ExecsOnce, PositionsAccounted, AbsI;
    AcceptedFacts(o, f);
    FillEffect(o, f);
    var ov := o.orders[f.orderId];
    var r := OnFill(o, f);
    var qty := AbsI(f.signedQuantity);
    AfterFillTallies(ov, f);
    FillTallies(o.log, r.log, Moved(f.orderId, ov.state, AfterFill(ov, f).state), f, LedgerQuantity(ov, f));
    LedgerMoves(o, f, ov);
    FillsAfter(o, r, f.orderId, AfterFill(ov, f), qty, qty as real * f.price);
    ExecsAfter(o, r, f.execId);
    PositionsAfter(o, r, f.symbol, ApplyFillSpec(PositionOf(o, f.symbol), LedgerQuantity(ov, f), f.price), LedgerQuantity(ov, f));
  }

  lemma SeedReconciled(o: Oms, symbol: string, quantity: int, avgPrice: real)
    requires Reconciled(o)
    ensures Reconciled(Seed(o, symbol, quantity, avgPrice))
  {
    LogAppend(o.log, Seeded(symbol, quantity, avgPrice));
    assert [Seeded(symbol, quantity, avgPrice)][..0] == [];
  }

  /** Every event keeps the books: fills, execution ids and positions all reconcile with the log. */
  lemma StepAccounted(o: Oms, ev: Event)
    requires Accounted(o) && FreshSubmit(o, ev)
    ensures Accounted(Step(o, ev))
  {
    StepKeepsOrders(o, ev);
    hide KeysOk, OrdersOk, Reconciled, Transition, OnFill, Submit, Seed;
    match ev {
      case SubmitEvent(intent, placed) => SubmitReconciled(o, intent, placed);
      case CancelEvent(id) =>
        if id in o.orders { TransitionReconciled(o, id, PendingCancel); }
      case StatusEvent(id, state) =>
        if id in o.orders { TransitionReconciled(o, id, state); }
      case FillEvent(f) =>
        if Accepts(o, f) { FillReconciled(o, f); } else { RefusedFill(o, f); }
      case SeedEvent(s, q, avg) => SeedReconciled(o, s, q, avg);
    }
  }

  ghost predicate FreshRun(o: Oms, events: seq<Event>) {
    forall n :: 0 <= n < |events| ==> FreshSubmit(Run(o, events[..n]), events[n])
  }

  /** The books reconcile after any run from an empty system. */
  lemma {:induction false} RunAccounted(events: seq<Event>)
    requires FreshRun(EMPTY, events)
    ensures Accounted(Run(EMPTY, events))
  {
    if |events| > 0 {
      var n := |events| - 1;
      assert forall m :: 0 <= m < n ==> events[..n][..m] == events[..m];
      assert forall m :: 0 <= m < n ==> FreshSubmit(Run(EMPTY, events[..m]), events[m]);
      RunAccounted(events[..n]);
      StepAccounted(Run(EMPTY, events[..n]), events[n]);
    }
  }

  /** Without any freshness assumption the state machine itself is sound after any run. */
  lemma {:induction false} RunKeepsOrders(events: seq<Event>)
    ensures KeysOk(Run(EMPTY, events)) && OrdersOk(Run(EMPTY, events))
  {
    if |events| > 0 {
      RunKeepsOrders(events[..|events| - 1]);
      StepKeepsOrders(Run(EMPTY, events[..|events| - 1]), events[|events| - 1]);
    }
  }

  // ------------------------------------------------------------ the two equity computations agree

  /** Realised plus unrealised P&L of every symbol, all marked at `mark` as the simulator does. */
  function LedgerValues(o: Oms, mark: real): (r: seq<real>)
    ensures |r| == |o.symbols| && forall i :: 0 <= i < |r| ==> r[i] == Value(PositionOf(o, o.symbols[i]), mark)
  {
    seq(|o.symbols|, i requires 0 <= i < |o.symbols| => Value(PositionOf(o, o.symbols[i]), mark))
  }

  /** What an order's signed filled quantity gained at `mark`, from its own average price. */
  function OrderGain(ov: OrderView, mark: real): real {
    ov.SignedFilled() as real * (mark - ov.avgPrice)
  }

  function GainOf(o: Oms, id: int, mark: real): real {
    if id in o.orders then OrderGain(o.orders[id], mark) else 0.0
  }

  function OrderGains(o: Oms, mark: real): (r: seq<real>)
    ensures |r| == |o.ids| && forall i :: 0 <= i < |r| ==> r[i] == GainOf(o, o.ids[i], mark)
  {
    seq(|o.ids|, i requires 0 <= i < |o.ids| => GainOf(o, o.ids[i], mark))
  }

  /** The position ledger's total P&L at `mark` is the raw orders' and `extra` besides. */
  ghost predicate LedgerExceedsOrders(o: Oms, mark: real, extra: real) {
    KeysOk(o) && Sum(LedgerValues(o, mark)) == Sum(OrderGains(o, mark)) + extra
  }

  /** The position ledger and the raw orders give the same total P&L at `mark`. */
  ghost predicate LedgerEqualsOrders(o: Oms, mark: real) {
    LedgerExceedsOrders(o, mark, 0.0)
  }

  lemma PutOrderGains(o: Oms, ov: OrderView, mark: real)
    requires KeysOk(o)
    ensures KeysOk(PutOrder(o, ov))
    ensures Sum(OrderGains(PutOrder(o, ov), mark))
         == Sum(OrderGains(o, mark)) - GainOf(o, ov.orderId, mark) + OrderGain(ov, mark)
  {
    hide OrderGain, Sum;
    var r := PutOrder(o, ov);
    var gains, after := OrderGains(o, mark), OrderGains(r, mark);
    if ov.orderId in o.orders {
      var k :| 0 <= k < |o.ids| && o.ids[k] == ov.orderId;
      forall i | 0 <= i < |after| ensures after[i] == gains[k := OrderGain(ov, mark)][i] {
      }
      assert after == gains[k := OrderGain(ov, mark)];
      SumUpdate(gains, k, OrderGain(ov, mark));
    } else {
      assert after == gains + [OrderGain(ov, mark)];
      SumAppend(gains, OrderGain(ov, mark));
    }
  }

  lemma FlatIsWorthless(mark: real)
    ensures Value(FLAT, mark) == 0.0
  {
  }

  lemma PositionOfPut(o: Oms, symbol: string, p: PositionView)
    ensures forall s :: PositionOf(PutPosition(o, symbol, p), s) == if s == symbol then p else PositionOf(o, s)
    ensures symbol !in o.positions ==> PositionOf(o, symbol) == FLAT
  {
  }

  lemma PutPositionValues(o: Oms, symbol: string, p: PositionView, mark: real)
    requires KeysOk(o)
    ensures KeysOk(PutPosition(o, symbol, p))
    ensures Sum(LedgerValues(PutPosition(o, symbol, p), mark))
         == Sum(LedgerValues(o, mark)) - Value(PositionOf(o, symbol), mark) + Value(p, mark)
  {
    FlatIsWorthless(mark);
    hide Value, Sum, PositionOf;
    PositionOfPut(o, symbol, p);
    var r := PutPosition(o, symbol, p);
    var values, after := LedgerValues(o, mark), LedgerValues(r, mark);
    if symbol in o.positions {
      var k :| 0 <= k < |o.symbols| && o.symbols[k] == symbol;
      forall i | 0 <= i < |after| ensures after[i] == values[k := Value(p, mark)][i] {
      }
      assert after == values[k := Value(p, mark)];
      SumUpdate(values, k, Value(p, mark));
    } else {
      assert after == values + [Value(p, mark)];
      SumAppend(values, Value(p, mark));
    }
  }

  lemma TransitionGains(o: Oms, id: int, next: OrderState, mark: real)
    requires KeysOk(o) && id in o.orders
    ensures KeysOk(Transition(o, id, next))
    ensures Sum(OrderGains(Transition(o, id, next), mark)) == Sum(OrderGains(o, mark))
    ensures Sum(LedgerValues(Transition(o, id, next), mark)) == Sum(LedgerValues(o, mark))
  {
    var r := Transition(o, id, next);
    assert LedgerValues(r, mark) == LedgerValues(o, mark);
    forall i | 0 <= i < |o.ids| ensures OrderGains(r, mark)[i] == OrderGains(o, mark)[i] {
      assert OrderGain(r.orders[o.ids[i]], mark) == OrderGain(o.orders[o.ids[i]], mark);
    }
    assert OrderGains(r, mark) == OrderGains(o, mark);
  }

  lemma FilledOrderGain(ov: OrderView, f: Fill, mark: real)
    requires ov.filled >= 0 && f.signedQuantity != 0
    ensures OrderGain(FilledOrder(ov, AbsI(f.signedQuantity), f.price), mark)
         == OrderGain(ov, mark) + LedgerQuantity(ov, f) as real * (mark - f.price)
  {
    var qty := AbsI(f.signedQuantity);
    var r := FilledOrder(ov, qty, f.price);
    BlendKeepsCost(ov.avgPrice, ov.filled, f.price, qty);
    hide BlendedPrice;
    var d := if ov.intent.SignedQuantity() > 0 then 1.0 else -1.0;
    GainArithmetic(d, ov.filled as real, qty as real, ov.avgPrice, f.price, r.avgPrice, mark);
    assert r.SignedFilled() as real == d * (ov.filled as real + qty as real);
    assert ov.SignedFilled() as real == d * ov.filled as real;
    assert LedgerQuantity(ov, f) as real == d * qty as real;
  }

  lemma GainArithmetic(d: real, prev: real, qty: real, avg: real, price: real, newAvg: real, mark: real)
    requires newAvg * (prev + qty) == avg * prev + price * qty
    ensures d * (prev + qty) * (mark - newAvg) == d * prev * (mark - avg) + d * qty * (mark - price)
  {
    assert (prev + qty) * (mark - newAvg) == prev * (mark - avg) + qty * (mark - price) by {
      SpreadValue(prev + qty, mark, newAvg);
      SpreadValue(prev, mark, avg);
      SpreadValue(qty, mark, price);
      assert (prev + qty) * mark == prev * mark + qty * mark;
    }
    assert d * (prev + qty) * (mark - newAvg) == d * ((prev + qty) * (mark - newAvg));
    assert d * (prev * (mark - avg) + qty * (mark - price)) == d * prev * (mark - avg) + d * qty * (mark - price);
  }

  /** The orders' side of an accepted fill, given which fields it changes. */
  lemma FillMovesGains(o: Oms, r: Oms, ov: OrderView, mark: real)
    requires KeysOk(o) && ov.orderId in o.orders
    requires r.ids == o.ids && r.orders == o.orders[ov.orderId := ov]
    ensures Sum(OrderGains(r, mark)) == Sum(OrderGains(o, mark)) - GainOf(o, ov.orderId, mark) + OrderGain(ov, mark)
  {
    PutOrderGains(o, ov, mark);
    hide OrderGain, GainOf, Sum, KeysOk, OrderGains;
    OnlyPositionsChanged(PutOrder(o, ov), r, mark);
  }

  /** The ledger's side of an accepted fill, given which fields it changes. */
  lemma FillMovesLedger(o: Oms, r: Oms, symbol: string, p: PositionView, mark: real)
    requires KeysOk(o)
    requires r.symbols == (if symbol in o.positions then o.symbols else o.symbols + [symbol])
    requires r.positions == o.positions[symbol := p]
    ensures Sum(LedgerValues(r, mark)) == Sum(LedgerValues(o, mark)) - Value(PositionOf(o, symbol), mark) + Value(p, mark)
  {
    PutPositionValues(o, symbol, p, mark);
    hide Value, Sum, KeysOk, LedgerValues, PositionOf;
    OnlyOrdersChanged(PutPosition(o, symbol, p), r, mark);
  }

  /** What `signed` units executed at `price` are worth more at `mark`. */
  function ExecutedGain(signed: int, price: real, mark: real): real {
    signed as real * (mark - price)
  }

  /** An accepted fill moves the orders' total by the execution's gain. */
  lemma FillMovesOrderTotal(o: Oms, f: Fill, mark: real)
    requires KeysOk(o) && OrdersOk(o) && Accepts(o, f)
    ensures Sum(OrderGains(OnFill(o, f), mark))
         == Sum(OrderGains(o, mark)) + ExecutedGain(LedgerQuantity(o.orders[f.orderId], f), f.price, mark)
  {
    hide OnFill, Accepts, AfterFill, ApplyFillSpec, OrderOk, OrdersOk, KeysOk, LedgerQuantity, OrderGain, Sum, OrderGains, AbsI;
    AcceptedFacts(o, f);
    FillEffect(o, f);
    var ov := o.orders[f.orderId];
    AfterFillGain(ov, f, mark);
    AfterFillId(ov, f);
    FillMovesGains(o, OnFill(o, f), AfterFill(ov, f), mark);
  }

  /** An accepted fill moves the ledger's total by the execution's gain. */
  lemma FillMovesLedgerTotal(o: Oms, f: Fill, mark: real)
    requires KeysOk(o) && OrdersOk(o) && Accepts(o, f)
    ensures Sum(LedgerValues(OnFill(o, f), mark))
         == Sum(LedgerValues(o, mark)) + ExecutedGain(LedgerQuantity(o.orders[f.orderId], f), f.price, mark)
  {
    hide OnFill, Accepts, AfterFill, ApplyFillSpec, OrderOk, OrdersOk, KeysOk, LedgerQuantity, Value, Sum, LedgerValues,
      PositionOf, AbsI;
    AcceptedFacts(o, f);
    FillEffect(o, f);
    var signed := LedgerQuantity(o.orders[f.orderId], f);
    FillMovesValue(PositionOf(o, f.symbol), signed, f.price, mark);
    FillMovesLedger(o, OnFill(o, f), f.symbol, ApplyFillSpec(PositionOf(o, f.symbol), signed, f.price), mark);
  }

  lemma FillKeepsExtra(o: Oms, f: Fill, mark: real, extra: real)
    requires LedgerExceedsOrders(o, mark, extra) && OrdersOk(o) && Accepts(o, f)
    ensures LedgerExceedsOrders(OnFill(o, f), mark, extra)
  {
    hide OnFill, Accepts, OrdersOk, KeysOk, LedgerQuantity, Sum, LedgerValues, OrderGains, ExecutedGain;
    FillKeepsOrders(o, f);
    FillMovesOrderTotal(o, f, mark);
    FillMovesLedgerTotal(o, f, mark);
  }

  lemma AfterFillId(ov: OrderView, f: Fill)
    requires f.signedQuantity != 0 && OrderOk(ov, f.orderId)
    ensures AfterFill(ov, f).orderId == f.orderId
  {
  }

  lemma OnlyOrdersChanged(a: Oms, b: Oms, mark: real)
    requires a.symbols == b.symbols && a.positions == b.positions
    ensures LedgerValues(a, mark) == LedgerValues(b, mark)
  {
  }

  lemma OnlyPositionsChanged(a: Oms, b: Oms, mark: real)
    requires a.ids == b.ids && a.orders == b.orders
    ensures OrderGains(a, mark) == OrderGains(b, mark)
  {
  }

  lemma AfterFillGain(ov: OrderView, f: Fill, mark: real)
    requires ov.filled >= 0 && f.signedQuantity != 0
    ensures OrderGain(AfterFill(ov, f), mark) == OrderGain(ov, mark) + LedgerQuantity(ov, f) as real * (mark - f.price)
  {
    FilledOrderGain(ov, f, mark);
    var filled := FilledOrder(ov, AbsI(f.signedQuantity), f.price);
    var r := AfterFill(ov, f);
    hide FilledOrder;
    assert r.filled == filled.filled && r.avgPrice == filled.avgPrice && r.intent == filled.intent;
  }

  lemma SameBooks(a: Oms, b: Oms, mark: real)
    requires KeysOk(a)
    requires a.ids == b.ids && a.orders == b.orders && a.symbols == b.symbols && a.positions == b.positions
    ensures KeysOk(b)
    ensures OrderGains(a, mark) == OrderGains(b, mark) && LedgerValues(a, mark) == LedgerValues(b, mark)
  {
  }

  /** Every event but a seed leaves the difference between ledger and orders alone. */
  lemma StepKeepsExtra(o: Oms, ev: Event, mark: real, extra: real)
    requires LedgerExceedsOrders(o, mark, extra) && OrdersOk(o) && FreshSubmit(o, ev) && !ev.SeedEvent?
    ensures LedgerExceedsOrders(Step(o, ev), mark, extra)
  {
    hide OrdersOk, Transition, OnFill, Submit, OrderGains, LedgerValues, Sum;
    match ev {
      case SubmitEvent(intent, placed) => SubmitKeepsExtra(o, intent, placed, mark, extra);
      case CancelEvent(id) =>
        if id in o.orders { TransitionGains(o, id, PendingCancel, mark); }
      case StatusEvent(id, state) =>
        if id in o.orders { TransitionGains(o, id, state, mark); }
      case FillEvent(f) =>
        if Accepts(o, f) { FillKeepsExtra(o, f, mark, extra); } else { RefusedFill(o, f); }
    }
  }

  lemma SubmitKeepsExtra(o: Oms, intent: Intent, placed: Option<int>, mark: real, extra: real)
    requires LedgerExceedsOrders(o, mark, extra) && SubmitId(intent, placed) !in o.orders
    ensures LedgerExceedsOrders(Submit(o, intent, placed), mark, extra)
  {
    var ov := OrderView(SubmitId(intent, placed), intent, Created, 0, 0.0, []);
    PutOrderGains(o, ov, mark);
    assert OrderGain(ov, mark) == 0.0;
    assert LedgerValues(PutOrder(o, ov), mark) == LedgerValues(o, mark);
    hide Transition, OrderGains, LedgerValues, Sum;
    TransitionGains(PutOrder(o, ov), ov.orderId, if placed.Some? then Submitted else Rejected, mark);
  }

  /** What a seed brings into the ledger, its own open P&L, less what was realised on the symbol, which it drops. */
  function SeedEffect(o: Oms, ev: Event, mark: real): real {
    if ev.SeedEvent? && ev.quantity != 0 && PositionOf(o, ev.symbol).quantity == 0 then
      ev.quantity as real * (mark - ev.avgPrice) - PositionOf(o, ev.symbol).realized
    else 0.0
  }

  function SeedEffects(events: seq<Event>, mark: real): real {
    if |events| == 0 then 0.0
    else
      var n := |events| - 1;
      SeedEffects(events[..n], mark) + SeedEffect(Run(EMPTY, events[..n]), events[n], mark)
  }

  lemma SeedAccepted(o: Oms, symbol: string, quantity: int, avg: real, mark: real)
    requires KeysOk(o) && PositionOf(o, symbol).quantity == 0 && quantity != 0
    ensures var r := Seed(o, symbol, quantity, avg);
      && KeysOk(r) && OrderGains(r, mark) == OrderGains(o, mark)
      && Sum(LedgerValues(r, mark))
         == Sum(LedgerValues(o, mark)) + quantity as real * (mark - avg) - PositionOf(o, symbol).realized
  {
    var seed := PositionView(quantity, avg, 0.0);
    assert Value(seed, mark) == quantity as real * (mark - avg);
    assert Value(PositionOf(o, symbol), mark) == PositionOf(o, symbol).realized;
    hide Value, LedgerValues, OrderGains, Sum;
    PutPositionValues(o, symbol, seed, mark);
    var put, r := PutPosition(o, symbol, seed), Seed(o, symbol, quantity, avg);
    SameBooks(put, r, mark);
    OnlyPositionsChanged(o, r, mark);
  }

  lemma SeedMovesLedger(o: Oms, symbol: string, quantity: int, avg: real, mark: real)
    requires KeysOk(o)
    ensures var r := Seed(o, symbol, quantity, avg);
      && KeysOk(r) && OrderGains(r, mark) == OrderGains(o, mark)
      && Sum(LedgerValues(r, mark)) == Sum(LedgerValues(o, mark)) + SeedEffect(o, SeedEvent(symbol, quantity, avg), mark)
  {
    hide LedgerValues, OrderGains, Sum, KeysOk, PositionOf;
    if PositionOf(o, symbol).quantity == 0 && quantity != 0 {
      SeedAccepted(o, symbol, quantity, avg, mark);
    }
  }

  /** One event moves the difference by its seed effect. */
  lemma StepMovesExtra(o: Oms, ev: Event, mark: real, extra: real)
    requires LedgerExceedsOrders(o, mark, extra) && OrdersOk(o) && FreshSubmit(o, ev)
    ensures LedgerExceedsOrders(Step(o, ev), mark, extra + SeedEffect(o, ev, mark))
  {
    hide OrdersOk, KeysOk, Seed, Submit, Cancel, OnStatus, OnFill, LedgerValues, OrderGains, Sum, PositionOf, FreshSubmit;
    if ev.SeedEvent? {
      SeedMovesLedger(o, ev.symbol, ev.quantity, ev.avgPrice, mark);
    } else {
      StepKeepsExtra(o, ev, mark, extra);
    }
  }

  lemma StepKeepsEquality(o: Oms, ev: Event, mark: real)
    requires LedgerEqualsOrders(o, mark) && OrdersOk(o) && FreshSubmit(o, ev) && !ev.SeedEvent?
    ensures LedgerEqualsOrders(Step(o, ev), mark)
  {
    hide LedgerExceedsOrders, OrdersOk, FreshSubmit, Step;
    StepKeepsExtra(o, ev, mark, 0.0);
  }

  /**
   Ledger against raw orders: after any run of fresh submits, over any interleaving of partial fills,
   reversals through flat, seeds and rejected or duplicate events, the average-cost ledger's total P&L at
   every mark is the per-order average prices' and what the seeds brought in less what they dropped.
   */
  lemma {:induction false} RunExplainsLedger(events: seq<Event>, mark: real)
    requires FreshRun(EMPTY, events)
    ensures LedgerExceedsOrders(Run(EMPTY, events), mark, SeedEffects(events, mark))
  {
    if |events| > 0 {
      var n := |events| - 1;
      assert forall m :: 0 <= m < n ==> events[..n][..m] == events[..m];
      assert forall m :: 0 <= m < n ==> FreshSubmit(Run(EMPTY, events[..m]), events[m]);
      RunExplainsLedger(events[..n], mark);
      RunKeepsOrders(events[..n]);
      hide OrdersOk, KeysOk, LedgerExceedsOrders, Step, SeedEffect;
      StepMovesExtra(Run(EMPTY, events[..n]), events[n], mark, SeedEffects(events[..n], mark));
    } else {
      assert LedgerValues(EMPTY, mark) == [] && OrderGains(EMPTY, mark) == [];
    }
  }

  lemma {:induction false} NoSeedsNoEffects(events: seq<Event>, mark: real)
    requires forall ev :: ev in events ==> !ev.SeedEvent?
    ensures SeedEffects(events, mark) == 0.0
  {
    if |events| > 0 {
      NoSeedsNoEffects(events[..|events| - 1], mark);
    }
  }

  /** Without seeds the two totals are equal, at every mark. */
  lemma RunKeepsEquality(events: seq<Event>, mark: real)
    requires FreshRun(EMPTY, events)
    requires forall ev :: ev in events ==> !ev.SeedEvent?
    ensures LedgerEqualsOrders(Run(EMPTY, events), mark)
  {
    hide LedgerExceedsOrders, Run, SeedEffects;
    RunExplainsLedger(events, mark);
    NoSeedsNoEffects(events, mark);
  }

  /**
   Seeding replaces the symbol's ledger entry, so the total P&L of the ledger moves by the seed's
   own open P&L exactly when nothing had been realised on that symbol; otherwise it is lost.
   */
  lemma SeedDropsRealized(o: Oms, symbol: string, quantity: int, avg: real, mark: real)
    requires KeysOk(o) && PositionOf(o, symbol).quantity == 0 && quantity != 0
    ensures KeysOk(Seed(o, symbol, quantity, avg))
    ensures Sum(LedgerValues(Seed(o, symbol, quantity, avg), mark))
            == Sum(LedgerValues(o, mark)) + quantity as real * (mark - avg)
      <==> PositionOf(o, symbol).realized == 0.0
  {
    hide Seed, LedgerValues, Sum, PositionOf;
    SeedMovesLedger(o, symbol, quantity, avg, mark);
  }

  const BUY_ONE := Intent(Buy, "MES", 1, Market, None, FromStrategy, "example", 1)
  const SELL_ONE := Intent(Sell, "MES", 1, Market, None, FromStrategy, "example", 2)

  /** A round trip at a profit of one. */
  const PROFIT := [SubmitEvent(BUY_ONE, Some(1)), FillEvent(Fill(1, "MES", 1, 100.0, "a")),
                   SubmitEvent(SELL_ONE, Some(2)), FillEvent(Fill(2, "MES", -1, 101.0, "b"))]

  lemma SubmitTaken(o: Oms, intent: Intent, id: int)
    requires id !in o.orders
    ensures var r := Submit(o, intent, Some(id));
      && r.orders == o.orders[id := OrderView(id, intent, Submitted, 0, 0.0, [Submitted])]
      && r.positions == o.positions && r.seen == o.seen
  {
    assert [] + [Submitted] == [Submitted];
  }

  lemma UnitTaken(o: Oms, f: Fill, ov: OrderView)
    requires f.orderId in o.orders && o.orders[f.orderId] == ov && ov.state == Submitted && ov.filled == 0
    requires ov.intent.quantity == 1 && f.signedQuantity == ov.intent.SignedQuantity() && f.execId !in o.seen
    ensures var r := OnFill(o, f);
      && r.positions == o.positions[f.symbol := ApplyFillSpec(PositionOf(o, f.symbol), f.signedQuantity, f.price)]
      && r.orders.Keys == o.orders.Keys && (f.execId != "" ==> r.seen == o.seen + {f.execId})
  {
    hide ApplyFillSpec, BlendedPrice;
  }

  lemma OneMoreEvent(o: Oms, events: seq<Event>, n: nat)
    requires n < |events|
    ensures Run(o, events[..n + 1]) == Step(Run(o, events[..n]), events[n])
  {
    hide Step;
    assert events[..n + 1][..n] == events[..n];
  }

  /** The loss is real: a round trip has earned one, and after a seed of the same symbol nothing has been earned. */
  lemma SeedForgetsProfit()
    ensures PositionOf(Run(EMPTY, PROFIT), "MES") == PositionView(0, 0.0, 1.0)
    ensures PositionOf(Run(EMPTY, PROFIT + [SeedEvent("MES", 1, 100.0)]), "MES") == PositionView(1, 100.0, 0.0)
  {
    hide Run, Submit, OnFill, Transition;
    OneMoreEvent(EMPTY, PROFIT, 0);
    OneMoreEvent(EMPTY, PROFIT, 1);
    OneMoreEvent(EMPTY, PROFIT, 2);
    OneMoreEvent(EMPTY, PROFIT, 3);
    var o0, o1, o2, o3 := Run(EMPTY, PROFIT[..0]), Run(EMPTY, PROFIT[..1]), Run(EMPTY, PROFIT[..2]), Run(EMPTY, PROFIT[..3]);
    assert o0 == EMPTY by { NoEvents(PROFIT[..0]); }
    SubmitTaken(o0, BUY_ONE, 1);
    UnitTaken(o1, Fill(1, "MES", 1, 100.0, "a"), OrderView(1, BUY_ONE, Submitted, 0, 0.0, [Submitted]));
    assert ApplyFillSpec(FLAT, 1, 100.0) == PositionView(1, 100.0, 0.0);
    SubmitTaken(o2, SELL_ONE, 2);
    UnitTaken(o3, Fill(2, "MES", -1, 101.0, "b"), OrderView(2, SELL_ONE, Submitted, 0, 0.0, [Submitted]));
    assert ApplyFillSpec(PositionView(1, 100.0, 0.0), -1, 101.0) == PositionView(0, 0.0, 1.0);
    assert PROFIT[..4] == PROFIT;
    var seeded := PROFIT + [SeedEvent("MES", 1, 100.0)];
    OneMoreEvent(EMPTY, seeded, 4);
    assert seeded[..4] == PROFIT && seeded[..5] == seeded;
  }

  lemma NoEvents(events: seq<Event>)
    requires |events| == 0
    ensures Run(EMPTY, events) == EMPTY
  {
  }

  // ------------------------------------------------------------ single events in plain terms

  /** A submitted order is recorded under the broker's id as SUBMITTED; one the broker failed to place, under the negative intent id as REJECTED. */
  lemma SubmitExactly(o: Oms, intent: Intent, placed: Option<int>)
    ensures var r := Submit(o, intent, placed); var id := if placed.Some? then placed.value else -intent.intentId;
      var state := if placed.Some? then Submitted else Rejected;
      && r.orders == o.orders[id := OrderView(id, intent, state, 0, 0.0, [state])]
      && r.log == o.log + [Moved(id, Created, state)]
      && r.positions == o.positions && r.symbols == o.symbols && r.seen == o.seen
      && r.ids == (if id in o.orders then o.ids else o.ids + [id])
  {
    assert [] + [Submitted] == [Submitted] && [] + [Rejected] == [Rejected];
  }

  /** The order is known and not finished. */
  ghost predicate Live(o: Oms, id: int) {
    id in o.orders && o.orders[id].state !in {Filled, Cancelled, Rejected}
  }

  /**
   A report moves an order exactly when the order is live and the report is a cancellation, a first cancel request,
   or a rejection before anything has been filled or a cancel requested; it then moves to the reported state and
   nothing else changes.
   */
  lemma StatusExactly(o: Oms, id: int, state: OrderState)
    requires OrdersOk(o)
    ensures var r := OnStatus(o, id, state);
      var moves := Live(o, id) &&
        (|| state == Cancelled
         || (state == PendingCancel && o.orders[id].state != PendingCancel)
         || (state == Rejected && o.orders[id].state == Submitted));
      && (!moves ==> r == o)
      && (moves ==> r.orders == o.orders[id := o.orders[id].(state := state, history := o.orders[id].history + [state])]
                    && r.log == o.log + [Moved(id, o.orders[id].state, state)]
                    && r.ids == o.ids && r.positions == o.positions && r.symbols == o.symbols && r.seen == o.seen)
  {
    if id in o.orders {
      assert OrderOk(o.orders[id], id);
      PathNeverCreated(o.orders[id].history, o.orders[id].state);
    }
    hide OrderOk, OrdersOk;
  }

  /** A cancel asks for the cancellation of exactly the live orders that have not been asked for. */
  lemma CancelExactly(o: Oms, id: int)
    requires OrdersOk(o)
    ensures Cancel(o, id) == if Live(o, id) && o.orders[id].state != PendingCancel then OnStatus(o, id, PendingCancel) else o
  {
    StatusExactly(o, id, PendingCancel);
    if id in o.orders {
      assert OrderOk(o.orders[id], id);
      PathNeverCreated(o.orders[id].history, o.orders[id].state);
    }
    hide OrderOk, OrdersOk;
  }

  /** An execution is applied exactly when it is new, its order is live, and its size is positive and fits what is left. */
  lemma FillAppliedExactly(o: Oms, f: Fill)
    requires OrdersOk(o)
    ensures (|OnFill(o, f).log| > |o.log|) <==>
      && (f.execId == "" || f.execId !in o.seen) && Live(o, f.orderId)
      && f.signedQuantity != 0 && AbsI(f.signedQuantity) + o.orders[f.orderId].filled <= o.orders[f.orderId].intent.quantity
    ensures |OnFill(o, f).log| <= |o.log| ==> OnFill(o, f) == o
  {
    if Accepts(o, f) { FillEffect(o, f); }
    hide OrdersOk, AfterFill, ApplyFillSpec;
  }
}
