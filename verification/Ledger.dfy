/**
 The net position of one symbol under average-cost accounting, with fills that may cross through
 flat, and the identity that ties it to the raw fills at every mark.
 */
module Ledger {
  import opened Common

  datatype PositionView = PositionView(quantity: int, avgPrice: real, realized: real)

  const FLAT := PositionView(0, 0.0, 0.0)

  /** Average of the held and the added units' prices, weighted by size. */
  function WeightedAverage(avg: real, held: int, price: real, added: int): real
    requires held + added != 0
  {
    (avg * AbsI(held) as real + price * AbsI(added) as real) / AbsI(held + added) as real
  }

  /** P&L booked by closing `closing` units of a book on one side. */
  function ClosedPnl(closing: int, direction: int, price: real, avg: real): real {
    closing as real * direction as real * (price - avg)
  }

  /** Average-cost update; a fill beyond flat closes first and opens the remainder at its own price. */
  function ApplyFillSpec(p: PositionView, signedQty: int, price: real): PositionView {
    if signedQty == 0 then p
    else if p.quantity == 0 || (p.quantity > 0) == (signedQty > 0) then
      p.(quantity := p.quantity + signedQty, avgPrice := WeightedAverage(p.avgPrice, p.quantity, price, signedQty))
    else
      var closing := MinI(AbsI(signedQty), AbsI(p.quantity));
      var direction := if p.quantity > 0 then 1 else -1;
      var quantity := p.quantity + signedQty;
      PositionView(
        quantity,
        if AbsI(signedQty) > closing then price else if quantity == 0 then 0.0 else p.avgPrice,
        p.realized + ClosedPnl(closing, direction, price, p.avgPrice))
  }

  function UnrealizedPnl(p: PositionView, lastPrice: real): real {
    p.quantity as real * (lastPrice - p.avgPrice)
  }

  /** Realised and unrealised P&L together. */
  function Value(p: PositionView, mark: real): real {
    p.realized + UnrealizedPnl(p, mark)
  }

  class Position {
    const symbol: string
    var quantity: int
    var avgPrice: real
    var realizedPnl: real

    function View(): PositionView
      reads this
    {
      PositionView(quantity, avgPrice, realizedPnl)
    }

    constructor (symbol: string, quantity: int, avgPrice: real)
      ensures this.symbol == symbol && View() == PositionView(quantity, avgPrice, 0.0)
    {
      this.symbol := symbol;
      this.quantity, this.avgPrice, realizedPnl := quantity, avgPrice, 0.0;
    }

    method ApplyFill(signedQty: int, price: real)
      modifies this
      ensures View() == ApplyFillSpec(old(View()), signedQty, price)
    {
      hide WeightedAverage, ClosedPnl;
      if signedQty == 0 {
        return;
      }
      if quantity == 0 || (quantity > 0) == (signedQty > 0) {
        var total := quantity + signedQty;
        avgPrice := WeightedAverage(avgPrice, quantity, price, signedQty);
        quantity := total;
        return;
      }
      var closing := MinI(AbsI(signedQty), AbsI(quantity));
      var direction := if quantity > 0 then 1 else -1;
      realizedPnl := realizedPnl + ClosedPnl(closing, direction, price, avgPrice);
      var remainder := AbsI(signedQty) - closing;
      quantity := quantity + signedQty;
      if remainder > 0 {
        avgPrice := price;
      } else if quantity == 0 {
        avgPrice := 0.0;
      }
    }
  }

  // ------------------------------------------------------------ the ledger identity

  /** Weighting units of one sign keeps the total cost. */
  lemma WeightedAverageKeepsCost(avg: real, held: int, price: real, added: int)
    requires added != 0 && (held == 0 || (held > 0) == (added > 0))
    ensures (held + added) as real * WeightedAverage(avg, held, price, added) == held as real * avg + added as real * price
  {
    var h, a, n := AbsI(held) as real, AbsI(added) as real, AbsI(held + added) as real;
    var w := WeightedAverage(avg, held, price, added);
    assert w * n == avg * h + price * a;
    if added > 0 {
      assert (held + added) as real == n && held as real == h && added as real == a;
    } else {
      assert (held + added) as real == -n && held as real == -h && added as real == -a;
      assert (-n) * w == -(w * n);
      assert (-h) * avg + (-a) * price == -(avg * h + price * a);
    }
  }

  /**
   Whatever the fill does (opens, adds, reduces, closes, reverses through flat), realised plus
   unrealised P&L at any mark moves by exactly the fill's own gain at that mark.
   */
  lemma FillMovesValue(p: PositionView, signedQty: int, price: real, mark: real)
    ensures Value(ApplyFillSpec(p, signedQty, price), mark)
         == Value(p, mark) + signedQty as real * (mark - price)
  {
    hide WeightedAverage;
    var r := ApplyFillSpec(p, signedQty, price);
    var q := p.quantity as real;
    var s := signedQty as real;
    if signedQty == 0 {
    } else if p.quantity == 0 || (p.quantity > 0) == (signedQty > 0) {
      WeightedAverageKeepsCost(p.avgPrice, p.quantity, price, signedQty);
      OpeningArithmetic(q, s, p.avgPrice, price, mark, r.avgPrice);
    } else {
      var closed := MinI(AbsI(signedQty), AbsI(p.quantity)) as real * (if p.quantity > 0 then 1 else -1) as real;
      ClosingArithmetic(q, s, closed, p.avgPrice, price, mark, r.avgPrice);
    }
  }

  lemma SpreadValue(q: real, mark: real, price: real)
    ensures q * (mark - price) == q * mark - q * price
  {
  }

  lemma OpeningArithmetic(q: real, s: real, avg: real, price: real, mark: real, newAvg: real)
    requires (q + s) * newAvg == q * avg + s * price
    ensures (q + s) * (mark - newAvg) == q * (mark - avg) + s * (mark - price)
  {
    SpreadValue(q + s, mark, newAvg);
    SpreadValue(q, mark, avg);
    SpreadValue(s, mark, price);
    assert (q + s) * mark == q * mark + s * mark;
  }

  lemma ClosingArithmetic(q: real, s: real, closed: real, avg: real, price: real, mark: real, newAvg: real)
    requires
      || (closed == -s && newAvg == avg)
      || (closed == q && newAvg == price)
      || (closed == q == -s)
    ensures closed * (price - avg) + (q + s) * (mark - newAvg) == q * (mark - avg) + s * (mark - price)
  {
    SpreadValue(closed, price, avg);
    SpreadValue(q + s, mark, newAvg);
    SpreadValue(q, mark, avg);
    SpreadValue(s, mark, price);
    assert (q + s) * mark == q * mark + s * mark;
    assert (q + s) * newAvg == q * newAvg + s * newAvg;
  }

  /** Signed sum of a run of fills. */
  function FillQuantity(fills: seq<(int, real)>): int {
    if |fills| == 0 then 0 else FillQuantity(fills[..|fills| - 1]) + fills[|fills| - 1].0
  }

  function ApplyFills(p: PositionView, fills: seq<(int, real)>): PositionView {
    if |fills| == 0 then p
    else ApplyFillSpec(ApplyFills(p, fills[..|fills| - 1]), fills[|fills| - 1].0, fills[|fills| - 1].1)
  }

  /** A book brought back to flat has realised exactly the cash its fills moved. */
  function FillCash(fills: seq<(int, real)>): real {
    if |fills| == 0 then 0.0
    else FillCash(fills[..|fills| - 1]) - fills[|fills| - 1].0 as real * fills[|fills| - 1].1
  }

  lemma {:induction false} FillsMoveQuantity(p: PositionView, fills: seq<(int, real)>)
    ensures ApplyFills(p, fills).quantity == p.quantity + FillQuantity(fills)
  {
    if |fills| > 0 {
      FillsMoveQuantity(p, fills[..|fills| - 1]);
    }
  }

  lemma {:induction false} FillsMoveValue(p: PositionView, fills: seq<(int, real)>, mark: real)
    ensures Value(ApplyFills(p, fills), mark)
         == Value(p, mark) + FillQuantity(fills) as real * mark + FillCash(fills)
  {
    hide Value, ApplyFillSpec;
    if |fills| > 0 {
      var n := |fills| - 1;
      FillsMoveValue(p, fills[..n], mark);
      FillMovesValue(ApplyFills(p, fills[..n]), fills[n].0, fills[n].1, mark);
      AddMarked(Value(p, mark), FillQuantity(fills[..n]), FillCash(fills[..n]), fills[n].0, fills[n].1, mark);
    }
  }

  lemma AddMarked(start: real, held: int, cash: real, qty: int, price: real, mark: real)
    ensures (start + held as real * mark + cash) + qty as real * (mark - price)
         == start + (held + qty) as real * mark + (cash - qty as real * price)
  {
    SpreadValue(qty as real, mark, price);
    assert (held + qty) as real == held as real + qty as real;
    assert (held as real + qty as real) * mark == held as real * mark + qty as real * mark;
  }

  /** From flat back to flat, in whatever partial fills and reversals: realised P&L is the net cash. */
  lemma FlatRealisesCash(fills: seq<(int, real)>)
    requires FillQuantity(fills) == 0
    ensures ApplyFills(FLAT, fills).quantity == 0
    ensures ApplyFills(FLAT, fills).realized == FillCash(fills)
  {
    FillsMoveQuantity(FLAT, fills);
    FillsMoveValue(FLAT, fills, 0.0);
  }

  /** Absolute units. */
  ghost function Units(n: int): int { if n < 0 then -n else n }

  /**
   Average cost, exactly: a fill on the held side realises nothing and weighs the prices by size; a fill on the
   other side books the closed units at the old average, leaves that average to what stays, and gives a reversed
   remainder the fill's own price.
   */
  lemma AverageCostExactly(p: PositionView, signedQty: int, price: real)
    requires signedQty != 0
    ensures var r := ApplyFillSpec(p, signedQty, price); var adds := p.quantity == 0 || (p.quantity > 0) == (signedQty > 0);
      && r.quantity == p.quantity + signedQty
      && (adds ==> r.realized == p.realized
                   && r.quantity as real * r.avgPrice == p.quantity as real * p.avgPrice + signedQty as real * price)
      && (!adds && Units(signedQty) < Units(p.quantity) ==>
            r.avgPrice == p.avgPrice && r.realized == p.realized - signedQty as real * (price - p.avgPrice))
      && (!adds && Units(signedQty) >= Units(p.quantity) ==>
            r.realized == p.realized + p.quantity as real * (price - p.avgPrice)
            && r.avgPrice == (if r.quantity == 0 then 0.0 else price))
  {
    if p.quantity == 0 || (p.quantity > 0) == (signedQty > 0) {
      AddingIs(p, signedQty, price);
    } else {
      ClosingIs(p, signedQty, price);
    }
    hide *;
  }

  lemma AddingIs(p: PositionView, signedQty: int, price: real)
    requires signedQty != 0 && (p.quantity == 0 || (p.quantity > 0) == (signedQty > 0))
    ensures var r := ApplyFillSpec(p, signedQty, price);
      && r.quantity == p.quantity + signedQty && r.realized == p.realized
      && r.quantity as real * r.avgPrice == p.quantity as real * p.avgPrice + signedQty as real * price
  {
    hide WeightedAverage;
    WeightedAverageKeepsCost(p.avgPrice, p.quantity, price, signedQty);
  }

  lemma ClosingIs(p: PositionView, signedQty: int, price: real)
    requires signedQty != 0 && p.quantity != 0 && (p.quantity > 0) != (signedQty > 0)
    ensures var r := ApplyFillSpec(p, signedQty, price); var part := Units(signedQty) < Units(p.quantity);
      && r.quantity == p.quantity + signedQty
      && r.avgPrice == (if part then p.avgPrice else if r.quantity == 0 then 0.0 else price)
      && (part ==> r.realized == p.realized - signedQty as real * (price - p.avgPrice))
      && (!part ==> r.realized == p.realized + p.quantity as real * (price - p.avgPrice))
  {
    hide WeightedAverage, ClosedPnl;
    ClosedUnits(p, signedQty, price);
    NegatedUnits(signedQty, price - p.avgPrice);
  }

  lemma NegatedUnits(n: int, x: real)
    ensures (-n) as real * x == -(n as real * x)
  {
    assert (-n) as real == -(n as real);
  }

  lemma ClosedUnits(p: PositionView, signedQty: int, price: real)
    requires p.quantity != 0 && signedQty != 0 && (p.quantity > 0) != (signedQty > 0)
    ensures var closing := MinI(AbsI(signedQty), AbsI(p.quantity)); var direction := if p.quantity > 0 then 1 else -1;
      ClosedPnl(closing, direction, price, p.avgPrice)
      == (if Units(signedQty) < Units(p.quantity) then -signedQty else p.quantity) as real * (price - p.avgPrice)
  {
    var closing := MinI(AbsI(signedQty), AbsI(p.quantity));
    var direction := if p.quantity > 0 then 1 else -1;
    assert closing as real * direction as real == (closing * direction) as real;
  }
}
