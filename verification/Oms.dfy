/**
 The order management system as it runs: order and position objects updated in place, each event
 proved to move the system's value exactly as `OmsSpec` says.
 */
module OrderManagement {
  import opened Common
  import opened Ledger
  import opened OmsSpec

  /** The record of one broker order. */
  class ManagedOrder {
    const orderId: int
    const intent: Intent
    var state: OrderState
    var filledQuantity: int
    var avgFillPrice: real
    var history: seq<OrderState>

    function View(): OrderView
      reads this
    {
      OrderView(orderId, intent, state, filledQuantity, avgFillPrice, history)
    }

    constructor (orderId: int, intent: Intent)
      ensures this.orderId == orderId && View() == OrderView(orderId, intent, Created, 0, 0.0, [])
    {
      this.orderId, this.intent := orderId, intent;
      state, filledQuantity, avgFillPrice, history := Created, 0, 0.0, [];
    }

    method CountFill(qty: int, price: real)
      requires 0 < qty
      modifies this
      ensures View() == FilledOrder(old(View()), qty, price)
    {
      hide BlendedPrice;
      var prev := filledQuantity;
      avgFillPrice := if prev + qty == 0 then 0.0 else BlendedPrice(avgFillPrice, prev, price, qty);
      filledQuantity := prev + qty;
    }
  }

  class OrderManagementSystem {
    var ids: seq<int>
    var orders: map<int, ManagedOrder>
    var symbols: seq<string>
    var positions: map<string, Position>
    var seenExecIds: set<string>
    var log: seq<LogEntry>
    ghost var Repr: set<object>

    /** Every record is filed under its own key, so no two keys share one. */
    ghost predicate Valid()
      reads this
    {
      && this !in Repr
      && (forall id :: id in orders ==> orders[id] in Repr && orders[id].orderId == id)
      && (forall s :: s in positions ==> positions[s] in Repr && positions[s].symbol == s)
    }

    ghost function View(): Oms
      requires Valid()
      reads this, Repr
    {
      Oms(ids, OrderViews(), symbols, PositionViews(), seenExecIds, log)
    }

    ghost function OrderViews(): map<int, OrderView>
      requires Valid()
      reads this, Repr
    {
      map id | id in orders :: orders[id].View()
    }

    ghost function PositionViews(): map<string, PositionView>
      requires Valid()
      reads this, Repr
    {
      map s | s in positions :: positions[s].View()
    }

    constructor ()
      ensures Valid() && fresh(Repr) && View() == EMPTY
    {
      ids, orders, symbols, positions, seenExecIds, log, Repr := [], map[], [], map[], {}, [], {};
    }

    /** What the value says about the fields. */
    lemma Fields()
      requires Valid()
      ensures View().ids == ids && View().symbols == symbols && View().seen == seenExecIds && View().log == log
      ensures View().orders.Keys == orders.Keys && View().positions.Keys == positions.Keys
      ensures forall id :: id in orders ==> View().orders[id] == orders[id].View()
      ensures forall s :: s in positions ==> View().positions[s] == positions[s].View()
    {
    }

    /** Append one line to the audit log. */
    method LogEvent(e: LogEntry)
      requires Valid()
      modifies this`log
      ensures Valid() && View() == old(View()).(log := old(View()).log + [e])
    {
      log := log + [e];
    }

    method MarkSeen(execId: string)
      requires Valid()
      modifies this`seenExecIds
      ensures Valid()
      ensures View() == old(View()).(seen := if execId == "" then old(View()).seen else old(View()).seen + {execId})
    {
      if execId != "" {
        seenExecIds := seenExecIds + {execId};
      }
    }

    /** Overwrite one order record's state. */
    method Advance(id: int, next: OrderState)
      requires Valid() && id in orders
      modifies orders[id]
      ensures Valid()
      ensures var ov := old(View()).orders[id];
        View() == old(View()).(orders := old(View()).orders[id := ov.(state := next, history := ov.history + [next])])
    {
      var mo := orders[id];
      mo.state := next;
      mo.history := mo.history + [next];
      assert forall i :: i in orders && i != id ==> orders[i].View() == old(View()).orders[i];
      ghost var ov := old(View()).orders[id];
      assert View().orders == old(View()).orders[id := ov.(state := next, history := ov.history + [next])];
      assert View().positions == old(View().positions);
    }

    method Transition(id: int, next: OrderState) returns (moved: bool)
      requires Valid() && id in orders
      modifies this`log, orders[id]
      ensures Valid() && View() == OmsSpec.Transition(old(View()), id, next)
      ensures moved <==> next in NextStates(old(orders[id].state))
    {
      Fields();
      hide View, Valid, NextStates;
      var mo := orders[id];
      if next !in NextStates(mo.state) {
        return false;
      }
      var from := mo.state;
      Advance(id, next);
      LogEvent(Moved(mo.orderId, from, next));
      moved := true;
    }

    /** File a new order record under its id. */
    method FileOrder(mo: ManagedOrder)
      requires Valid() && mo !in Repr
      modifies this`ids, this`orders, this`Repr
      ensures Valid() && View() == PutOrder(old(View()), mo.View())
      ensures orders == old(orders)[mo.orderId := mo] && Repr == old(Repr) + {mo}
    {
      ghost var before := View();
      if mo.orderId !in orders {
        ids := ids + [mo.orderId];
      }
      orders := orders[mo.orderId := mo];
      Repr := Repr + {mo};
      assert Valid();
      hide Valid;
      assert OrderViews() == before.orders[mo.orderId := mo.View()] by {
        hide PositionViews;
        assert forall i :: i in orders && i != mo.orderId ==> orders[i].View() == before.orders[i];
      }
      assert PositionViews() == before.positions by { hide OrderViews; }
      hide OrderViews, PositionViews;
    }

    /** Submit an approved intent; `placed` is the broker's answer, None when it failed. */
    method Submit(intent: Intent, placed: Option<int>)
      requires Valid()
      modifies this, Repr
      ensures Valid() && View() == OmsSpec.Submit(old(View()), intent, placed)
      ensures fresh(Repr - old(Repr))
    {
      hide View, Valid, OmsSpec.Transition;
      var id := SubmitId(intent, placed);
      var mo := new ManagedOrder(id, intent);
      FileOrder(mo);
      var _ := Transition(id, if placed.Some? then Submitted else Rejected);
    }

    /** Ask for cancellation; `requested` says the broker is to be told. */
    method Cancel(id: int) returns (requested: bool)
      requires Valid()
      modifies this, Repr
      ensures Valid() && View() == OmsSpec.Cancel(old(View()), id)
      ensures requested <==> id in old(View()).orders && !Terminal(old(View()).orders[id].state)
      ensures Repr == old(Repr)
    {
      Fields();
      if id !in orders || Terminal(orders[id].state) {
        return false;
      }
      hide View;
      var _ := Transition(id, PendingCancel);
      requested := true;
    }

    method OnOrderStatus(id: int, state: OrderState)
      requires Valid()
      modifies this, Repr
      ensures Valid() && View() == OmsSpec.OnStatus(old(View()), id, state)
      ensures Repr == old(Repr)
    {
      Fields();
      if id !in orders || state == orders[id].state || state == PartiallyFilled || state == Filled {
        return;
      }
      hide View;
      var _ := Transition(id, state);
    }

    /** Count an execution into its order. */
    method CountIn(id: int, qty: int, price: real)
      requires Valid() && id in orders && 0 < qty
      modifies orders[id]
      ensures Valid()
      ensures View() == old(View()).(orders := old(View()).orders[id := FilledOrder(old(View()).orders[id], qty, price)])
    {
      hide FilledOrder;
      orders[id].CountFill(qty, price);
      assert forall i :: i in orders && i != id ==> orders[i].View() == old(View()).orders[i];
      assert View().orders == old(View()).orders[id := FilledOrder(old(View()).orders[id], qty, price)];
      assert View().positions == old(View()).positions;
    }

    /** Make `record` the ledger's entry for `symbol`. */
    method PutRecord(symbol: string, record: Position)
      requires Valid() && record !in Repr && record.symbol == symbol
      modifies this`symbols, this`positions, this`Repr
      ensures Valid() && View() == PutPosition(old(View()), symbol, record.View())
      ensures positions == old(positions)[symbol := record] && Repr == old(Repr) + {record}
    {
      ghost var before := View();
      if symbol !in positions {
        symbols := symbols + [symbol];
      }
      positions := positions[symbol := record];
      Repr := Repr + {record};
      assert Valid();
      hide Valid;
      assert PositionViews() == before.positions[symbol := record.View()] by {
        hide OrderViews;
        assert forall s :: s in positions && s != symbol ==> positions[s].View() == before.positions[s];
      }
      assert OrderViews() == before.orders by { hide PositionViews; }
      hide OrderViews, PositionViews;
    }

    /** Apply a fill to an entry of the ledger. */
    method FillRecord(symbol: string, signed: int, price: real)
      requires Valid() && symbol in positions
      modifies positions[symbol]
      ensures Valid()
      ensures View() == PutPosition(old(View()), symbol, ApplyFillSpec(old(View()).positions[symbol], signed, price))
    {
      hide ApplyFillSpec;
      ghost var before := View();
      positions[symbol].ApplyFill(signed, price);
      assert forall s :: s in positions && s != symbol ==> positions[s].View() == before.positions[s];
      assert View().positions == before.positions[symbol := ApplyFillSpec(before.positions[symbol], signed, price)];
      assert View().orders == before.orders;
    }

    /** Book signed units into a symbol's position, opening the entry if needed. */
    method BookPosition(symbol: string, signed: int, price: real)
      requires Valid()
      modifies this`symbols, this`positions, this`Repr, if symbol in positions then {positions[symbol]} else {}
      ensures Valid() && fresh(Repr - old(Repr)) && old(Repr) <= Repr
      ensures View() == PutPosition(old(View()), symbol, ApplyFillSpec(PositionOf(old(View()), symbol), signed, price))
    {
      Fields();
      hide ApplyFillSpec, View, OrderViews, PositionViews;
      if symbol !in positions {
        var created := new Position(symbol, 0, 0.0);
        PutRecord(symbol, created);
      }
      FillRecord(symbol, signed, price);
    }

    /** Mark the execution seen and count it into its order. */
    method CountExecution(f: Fill, qty: int)
      requires Valid() && f.orderId in orders && 0 < qty
      modifies this`seenExecIds, orders[f.orderId]
      ensures Valid() && View() == Counted(old(View()), f, qty)
    {
      Fields();
      hide View, Valid, FilledOrder;
      MarkSeen(f.execId);
      CountIn(f.orderId, qty, f.price);
    }

    /** Count the execution in, move the order's state, log it. */
    method ApplyExecution(f: Fill, qty: int, signed: int, next: OrderState)
      requires Valid() && f.orderId in orders && 0 < qty
      modifies this, Repr
      ensures Valid() && fresh(Repr - old(Repr))
      ensures View() == Execute(old(View()), f, qty, signed, next)
    {
      Fields();
      hide View, NextStates, Counted, PutPosition, PositionOf, ApplyFillSpec, OmsSpec.Transition;
      CountExecution(f, qty);
      BookPosition(f.symbol, signed, f.price);
      var _ := Transition(f.orderId, next);
      LogEvent(Executed(f.orderId, f.execId, f.symbol, signed, f.price));
    }

    /** Apply one execution; `applied` says the fill callback is due. */
    method OnFill(f: Fill) returns (applied: bool)
      requires Valid()
      modifies this, Repr
      ensures Valid() && View() == OmsSpec.OnFill(old(View()), f)
      ensures applied <==> Accepts(old(View()), f)
      ensures fresh(Repr - old(Repr))
    {
      Fields();
      hide View, Valid, Terminal, Execute;
      applied := false;
      if f.execId == "" || f.execId !in seenExecIds {
        if f.orderId in orders && !Terminal(orders[f.orderId].state) {
          var mo := orders[f.orderId];
          var qty := AbsI(f.signedQuantity);
          var remaining := mo.intent.quantity - mo.filledQuantity;
          if 0 < qty <= remaining {
            var signed := if mo.intent.SignedQuantity() > 0 then qty else -(qty as int);
            ApplyExecution(f, qty, signed, if qty == remaining then Filled else PartiallyFilled);
            applied := true;
          }
        }
      }
    }

    /** Import a broker position; `refused` is the source's ValueError over a live entry. */
    method SeedPosition(symbol: string, quantity: int, avgPrice: real) returns (refused: bool)
      requires Valid()
      modifies this, Repr
      ensures Valid() && View() == Seed(old(View()), symbol, quantity, avgPrice)
      ensures refused <==> PositionOf(old(View()), symbol).quantity != 0
      ensures fresh(Repr - old(Repr))
    {
      Fields();
      hide View;
      if symbol in positions && positions[symbol].quantity != 0 {
        return true;
      }
      refused := false;
      if quantity == 0 {
        return;
      }
      var seeded := new Position(symbol, quantity, avgPrice);
      PutRecord(symbol, seeded);
      LogEvent(Seeded(symbol, quantity, avgPrice));
    }
  }
}
