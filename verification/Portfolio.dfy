/**
 Target weights to orders: the weight clamp, the whole-share diff against the book, and convergence;
 clamped weights are a fixpoint of the clamp, and an executed diff is a fixpoint of the diff.
 */
module Portfolio {
  import opened Common
  import opened RebalanceSpec

  // ------------------------------------------------------------ the weight clamp

  datatype ClampConfig = ClampConfig(allowShort: bool, allowLeverage: bool, maxWeight: real, maxGross: real)
  {
    predicate Valid() {
      0.0 < maxWeight <= 1.0 && 0.0 < maxGross <= 10.0 && (maxGross <= 1.0 || allowLeverage)
    }
  }

  /** Weights in dictionary order, one entry per symbol. */
  type Weights = seq<(string, real)>

  function ClampOne(cfg: ClampConfig, w: real): real {
    MinR(if cfg.allowShort then w else MaxR(0.0, w), cfg.maxWeight)
  }

  function ClampEach(cfg: ClampConfig, ws: Weights): (r: Weights)
    ensures |r| == |ws| && forall i :: 0 <= i < |r| ==> r[i] == (ws[i].0, ClampOne(cfg, ws[i].1))
  {
    seq(|ws|, i requires 0 <= i < |ws| => (ws[i].0, ClampOne(cfg, ws[i].1)))
  }

  function Gross(ws: Weights): real {
    if |ws| == 0 then 0.0 else Gross(ws[..|ws| - 1]) + AbsR(ws[|ws| - 1].1)
  }

  function GrossCap(cfg: ClampConfig): real {
    if cfg.allowLeverage then cfg.maxGross else MinR(1.0, cfg.maxGross)
  }

  function Times(w: real, factor: real): real { w * factor }

  function Scale(ws: Weights, factor: real): (r: Weights)
    ensures |r| == |ws| && forall i :: 0 <= i < |r| ==> r[i] == (ws[i].0, Times(ws[i].1, factor))
  {
    seq(|ws|, i requires 0 <= i < |ws| => (ws[i].0, Times(ws[i].1, factor)))
  }

  function Clamp(cfg: ClampConfig, ws: Weights): Weights {
    var clamped := ClampEach(cfg, ws);
    var gross := Gross(clamped);
    if gross > GrossCap(cfg) && gross > 0.0 then Scale(clamped, GrossCap(cfg) / gross) else clamped
  }

  method ClampWeights(cfg: ClampConfig, ws: Weights) returns (clamped: Weights)
    ensures clamped == Clamp(cfg, ws)
  {
    clamped := [];
    var gross := 0.0;
    for i := 0 to |ws|
      invariant clamped == ClampEach(cfg, ws)[..i] && gross == Gross(ClampEach(cfg, ws)[..i])
    {
      var w := ws[i].1;
      if !cfg.allowShort {
        w := MaxR(0.0, w);
      }
      w := MinR(w, cfg.maxWeight);
      assert ClampEach(cfg, ws)[..i + 1] == ClampEach(cfg, ws)[..i] + [(ws[i].0, w)];
      GrossAppend(ClampEach(cfg, ws)[..i], (ws[i].0, w));
      clamped := clamped + [(ws[i].0, w)];
      gross := gross + AbsR(w);
    }
    assert ClampEach(cfg, ws)[..|ws|] == ClampEach(cfg, ws);
    var cap := if cfg.allowLeverage then cfg.maxGross else MinR(1.0, cfg.maxGross);
    if gross > cap && gross > 0.0 {
      clamped := Scale(clamped, cap / gross);
    }
  }

  lemma GrossAppend(ws: Weights, e: (string, real))
    ensures Gross(ws + [e]) == Gross(ws) + AbsR(e.1)
  {
    assert (ws + [e])[..|ws|] == ws;
  }

  lemma ScaleAbs(w: real, factor: real)
    requires factor >= 0.0
    ensures AbsR(Times(w, factor)) == Times(AbsR(w), factor)
  {
    if w < 0.0 {
      MulMono(w, 0.0, factor);
      assert -(w * factor) == (-w) * factor;
    } else {
      MulMono(0.0, w, factor);
    }
  }

  lemma {:induction false} ScaledGross(ws: Weights, factor: real)
    requires factor >= 0.0
    ensures Gross(Scale(ws, factor)) == Times(Gross(ws), factor)
  {
    if |ws| > 0 {
      var n := |ws| - 1;
      hide Times;
      ScaledGross(ws[..n], factor);
      assert Scale(ws, factor)[..n] == Scale(ws[..n], factor);
      ScaleAbs(ws[n].1, factor);
      TimesSum(Gross(ws[..n]), AbsR(ws[n].1), factor);
    }
  }

  lemma TimesSum(a: real, b: real, factor: real)
    ensures Times(a + b, factor) == Times(a, factor) + Times(b, factor)
  {
  }

  lemma PartOfGross(cap: real, gross: real)
    requires 0.0 < cap < gross
    ensures 0.0 < cap / gross < 1.0 && Times(gross, cap / gross) == cap
  {
    var q := cap / gross;
    assert q * gross == cap;
    if q >= 1.0 {
      MulMono(1.0, q, gross);
    }
    if q <= 0.0 {
      MulMono(q, 0.0, gross);
    }
  }

  /** Each weight within bounds and the book within the gross cap. */
  ghost predicate InBounds(cfg: ClampConfig, ws: Weights) {
    && (forall i :: 0 <= i < |ws| ==> ws[i].1 <= cfg.maxWeight && (cfg.allowShort || 0.0 <= ws[i].1))
    && Gross(ws) <= GrossCap(cfg)
  }

  lemma ScaledWeight(w: real, factor: real, cap: real)
    requires 0.0 < factor < 1.0 && w <= cap && cap > 0.0
    ensures Times(w, factor) <= cap && (0.0 <= w ==> 0.0 <= Times(w, factor))
  {
    var scaled := Times(w, factor);
    assert scaled == factor * w;
    if w >= 0.0 {
      MulMono(factor, 1.0, w);
      assert scaled <= w;
      MulMono(0.0, w, factor);
    } else {
      MulMono(w, 0.0, factor);
      assert scaled <= 0.0;
    }
  }

  /** Clamped weights are in bounds, cap the gross exposure, and keep every symbol. */
  lemma ClampBounds(cfg: ClampConfig, ws: Weights)
    requires cfg.Valid()
    ensures InBounds(cfg, Clamp(cfg, ws))
    ensures |Clamp(cfg, ws)| == |ws| && forall i :: 0 <= i < |ws| ==> Clamp(cfg, ws)[i].0 == ws[i].0
  {
    hide Times, Gross;
    var clamped := ClampEach(cfg, ws);
    var gross := Gross(clamped);
    if gross > GrossCap(cfg) {
      PartOfGross(GrossCap(cfg), gross);
      ScaledGross(clamped, GrossCap(cfg) / gross);
      forall i | 0 <= i < |ws| ensures Clamp(cfg, ws)[i].1 <= cfg.maxWeight && (cfg.allowShort || 0.0 <= Clamp(cfg, ws)[i].1) {
        ScaledWeight(clamped[i].1, GrossCap(cfg) / gross, cfg.maxWeight);
      }
    }
  }

  /** Weights in bounds are left alone, so clamping twice is clamping once. */
  lemma ClampIsStable(cfg: ClampConfig, ws: Weights)
    requires cfg.Valid()
    ensures InBounds(cfg, ws) ==> Clamp(cfg, ws) == ws
    ensures Clamp(cfg, Clamp(cfg, ws)) == Clamp(cfg, ws)
  {
    ClampBounds(cfg, ws);
    InBoundsUntouched(cfg, Clamp(cfg, ws));
    if InBounds(cfg, ws) {
      InBoundsUntouched(cfg, ws);
    }
  }

  lemma InBoundsUntouched(cfg: ClampConfig, ws: Weights)
    requires cfg.Valid() && InBounds(cfg, ws)
    ensures Clamp(cfg, ws) == ws
  {
    assert ClampEach(cfg, ws) == ws;
  }

  // ------------------------------------------------------------ the diff

  function Shares(positions: map<string, real>, symbol: string): real {
    if symbol in positions then positions[symbol] else 0.0
  }

  function WeightOf(targets: map<string, real>, symbol: string): real {
    if symbol in targets then targets[symbol] else 0.0
  }

  /** Whole shares the target weight buys. */
  function TargetShares(weight: real, equity: real, price: real): int
    requires price > 0.0
  {
    (weight * equity / price).Floor
  }

  /** The part of equity that `shares` at `price` are worth. */
  function WeightAt(shares: real, price: real, equity: real): real
    requires equity > 0.0
  {
    shares * price / equity
  }

  datatype Move = Stay | Exit | Change(delta: real)

  /** What the diff does with one symbol; a full exit is never filtered, a small change is. */
  function MoveFor(held: real, weight: real, price: real, equity: real, band: real): Move
    requires price > 0.0 && equity > 0.0
  {
    var target := TargetShares(weight, equity, price);
    var delta := target as real - held;
    if target == 0 && held > 0.0 then Exit
    else if delta == 0.0 then Stay
    else if WeightAt(AbsR(delta), price, equity) < band then Stay
    else Change(delta)
  }

  function OrderFor(id: int, symbol: string, held: real, move: Move): seq<Order> {
    match move
    case Stay => []
    case Exit => [Order(id, symbol, Sell, held, true, None)]
    case Change(delta) =>
      if delta > 0.0 then [Order(id, symbol, Buy, delta, false, None)] else [Order(id, symbol, Sell, -delta, false, None)]
  }

  /** Every symbol has a usable price. */
  ghost predicate AllPriced(symbols: seq<string>, prices: map<string, real>) {
    forall s :: s in symbols ==> Priced(prices, s)
  }

  /** Orders for the symbols in the given order, before sells are put first. */
  function Diff(symbols: seq<string>, positions: map<string, real>, targets: map<string, real>, prices: map<string, real>,
                equity: real, band: real, nextId: int): seq<Order>
    requires AllPriced(symbols, prices) && equity > 0.0
  {
    if |symbols| == 0 then []
    else
      var s := symbols[|symbols| - 1];
      assert s in symbols;
      var before := Diff(symbols[..|symbols| - 1], positions, targets, prices, equity, band, nextId);
      var held := Shares(positions, s);
      before + OrderFor(nextId + |before|, s, held, MoveFor(held, WeightOf(targets, s), prices[s], equity, band))
  }

  /** The symbols a diff is about: everything held and every non-zero target, in sorted order in the source. */
  ghost predicate Concerns(symbols: seq<string>, positions: map<string, real>, targets: map<string, real>) {
    && (forall i, j :: 0 <= i < j < |symbols| ==> symbols[i] != symbols[j])
    && (forall s :: s in symbols <==> Shares(positions, s) > 0.0 || WeightOf(targets, s) != 0.0)
  }

  /** None is the source's refusal: a symbol without a usable price. */
  method ComputeOrders(symbols: seq<string>, positions: map<string, real>, targets: map<string, real>,
                       prices: map<string, real>, equity: real, band: real, nextId: int) returns (orders: Option<seq<Order>>)
    requires equity > 0.0
    ensures orders.Some? <==> AllPriced(symbols, prices)
    ensures orders.Some? ==> orders.value == Sorted(Diff(symbols, positions, targets, prices, equity, band, nextId))
  {
    hide MoveFor, OrderFor, OfSide;
    var found := [];
    for i := 0 to |symbols|
      invariant AllPriced(symbols[..i], prices)
      invariant found == Diff(symbols[..i], positions, targets, prices, equity, band, nextId)
    {
      var s := symbols[i];
      if !Priced(prices, s) {
        return None;
      }
      assert symbols[..i + 1][..i] == symbols[..i];
      var held := if s in positions then positions[s] else 0.0;
      var weight := if s in targets then targets[s] else 0.0;
      var move := MoveFor(held, weight, prices[s], equity, band);
      found := found + OrderFor(nextId + |found|, s, held, move);
    }
    assert symbols[..|symbols|] == symbols;
    orders := Some(OfSide(found, Sell) + OfSide(found, Buy));
  }

  // ------------------------------------------------------------ applying the diff

  function SignedShares(o: Order): real {
    if o.side == Buy then o.shares else -o.shares
  }

  /** Positions after every order has filled in full. */
  function Applied(positions: map<string, real>, orders: seq<Order>): map<string, real> {
    if |orders| == 0 then positions
    else
      var before := Applied(positions, orders[..|orders| - 1]);
      var o := orders[|orders| - 1];
      before[o.symbol := Shares(before, o.symbol) + SignedShares(o)]
  }

  function Net(orders: seq<Order>, symbol: string): real {
    if |orders| == 0 then 0.0
    else Net(orders[..|orders| - 1], symbol)
         + if orders[|orders| - 1].symbol == symbol then SignedShares(orders[|orders| - 1]) else 0.0
  }

  lemma {:induction false} AppliedIsNet(positions: map<string, real>, orders: seq<Order>, symbol: string)
    ensures Shares(Applied(positions, orders), symbol) == Shares(positions, symbol) + Net(orders, symbol)
  {
    if |orders| > 0 {
      AppliedIsNet(positions, orders[..|orders| - 1], symbol);
    }
  }

  lemma {:induction false} NetConcat(a: seq<Order>, b: seq<Order>, symbol: string)
    ensures Net(a + b, symbol) == Net(a, symbol) + Net(b, symbol)
  {
    if |b| == 0 {
      assert a + b == a;
    } else {
      NetConcat(a, b[..|b| - 1], symbol);
      assert (a + b)[..|a + b| - 1] == a + b[..|b| - 1];
    }
  }

  /** Putting sells first changes no symbol's net. */
  lemma {:induction false} NetSorted(orders: seq<Order>, symbol: string)
    ensures Net(Sorted(orders), symbol) == Net(orders, symbol)
  {
    NetBySide(orders, symbol);
    NetConcat(OfSide(orders, Sell), OfSide(orders, Buy), symbol);
  }

  lemma {:induction false} NetBySide(orders: seq<Order>, symbol: string)
    ensures Net(OfSide(orders, Sell), symbol) + Net(OfSide(orders, Buy), symbol) == Net(orders, symbol)
  {
    if |orders| > 0 {
      var n := |orders| - 1;
      NetBySide(orders[..n], symbol);
      NetConcat(OfSide(orders[..n], Sell), [orders[n]], symbol);
      NetConcat(OfSide(orders[..n], Buy), [orders[n]], symbol);
      NetOne(orders[n], symbol);
      assert OfSide(orders[..n], Sell) + [] == OfSide(orders[..n], Sell);
      assert OfSide(orders[..n], Buy) + [] == OfSide(orders[..n], Buy);
    }
  }

  lemma NetOne(o: Order, symbol: string)
    ensures Net([o], symbol) == if o.symbol == symbol then SignedShares(o) else 0.0
  {
    assert [o][..0] == [];
  }

  /** What a move leaves held. */
  function HeldAfter(held: real, weight: real, price: real, equity: real, band: real): real
    requires price > 0.0 && equity > 0.0
  {
    if MoveFor(held, weight, price, equity, band) == Stay then held else TargetShares(weight, equity, price) as real
  }

  lemma MoveNets(id: int, symbol: string, held: real, weight: real, price: real, equity: real, band: real, s: string)
    requires price > 0.0 && equity > 0.0
    ensures Net(OrderFor(id, symbol, held, MoveFor(held, weight, price, equity, band)), s)
         == if s == symbol then HeldAfter(held, weight, price, equity, band) - held else 0.0
  {
    var orders := OrderFor(id, symbol, held, MoveFor(held, weight, price, equity, band));
    if |orders| == 1 {
      NetOne(orders[0], s);
      assert orders == [orders[0]];
    }
    hide Net, TargetShares;
  }

  lemma {:induction false} DiffNets(symbols: seq<string>, positions: map<string, real>, targets: map<string, real>,
                                    prices: map<string, real>, equity: real, band: real, nextId: int, s: string)
    requires AllPriced(symbols, prices) && equity > 0.0
    requires forall i, j :: 0 <= i < j < |symbols| ==> symbols[i] != symbols[j]
    ensures Net(Diff(symbols, positions, targets, prices, equity, band, nextId), s)
         == if s in symbols then HeldAfter(Shares(positions, s), WeightOf(targets, s), prices[s], equity, band) - Shares(positions, s)
            else 0.0
  {
    hide Net, HeldAfter, MoveFor, OrderFor;
    if |symbols| == 0 {
      assert Net([], s) == 0.0 by { NetNone(s); }
    } else {
      var n := |symbols| - 1;
      var last := symbols[n];
      assert last in symbols;
      DiffNets(symbols[..n], positions, targets, prices, equity, band, nextId, s);
      var before := Diff(symbols[..n], positions, targets, prices, equity, band, nextId);
      var held := Shares(positions, last);
      MoveNets(nextId + |before|, last, held, WeightOf(targets, last), prices[last], equity, band, s);
      NetConcat(before, OrderFor(nextId + |before|, last, held, MoveFor(held, WeightOf(targets, last), prices[last], equity, band)), s);
      assert s in symbols <==> s in symbols[..n] || s == last;
      assert last !in symbols[..n];
    }
  }

  lemma NetNone(symbol: string)
    ensures Net([], symbol) == 0.0
  {
  }

  /** The book after the computed orders have filled in full. */
  function Rebalanced(symbols: seq<string>, positions: map<string, real>, targets: map<string, real>, prices: map<string, real>,
                      equity: real, band: real, nextId: int): map<string, real>
    requires AllPriced(symbols, prices) && equity > 0.0
  {
    Applied(positions, Sorted(Diff(symbols, positions, targets, prices, equity, band, nextId)))
  }

  lemma RebalancedHolds(symbols: seq<string>, positions: map<string, real>, targets: map<string, real>, prices: map<string, real>,
                        equity: real, band: real, nextId: int, s: string)
    requires AllPriced(symbols, prices) && equity > 0.0 && Concerns(symbols, positions, targets)
    ensures Shares(Rebalanced(symbols, positions, targets, prices, equity, band, nextId), s)
         == if s in symbols then HeldAfter(Shares(positions, s), WeightOf(targets, s), prices[s], equity, band)
            else Shares(positions, s)
  {
    var diff := Diff(symbols, positions, targets, prices, equity, band, nextId);
    DiffNets(symbols, positions, targets, prices, equity, band, nextId, s);
    NetSorted(diff, s);
    AppliedIsNet(positions, Sorted(diff), s);
    hide Net, HeldAfter, Diff, Applied, Sorted, Shares;
  }

  lemma StaysPut(held: real, weight: real, price: real, equity: real, band: real)
    requires price > 0.0 && equity > 0.0
    ensures MoveFor(HeldAfter(held, weight, price, equity, band), weight, price, equity, band) == Stay
  {
    hide TargetShares;
  }

  lemma {:induction false} NothingToDo(symbols: seq<string>, positions: map<string, real>, targets: map<string, real>,
                                       prices: map<string, real>, equity: real, band: real, nextId: int)
    requires AllPriced(symbols, prices) && equity > 0.0
    requires forall s :: s in symbols ==> MoveFor(Shares(positions, s), WeightOf(targets, s), prices[s], equity, band) == Stay
    ensures Diff(symbols, positions, targets, prices, equity, band, nextId) == []
  {
    hide MoveFor;
    if |symbols| > 0 {
      NothingToDo(symbols[..|symbols| - 1], positions, targets, prices, equity, band, nextId);
    }
  }

  /**
   Applying the orders in full at the same prices and equity leaves nothing to do: a second diff, over
   whatever it then concerns, is empty, whatever the no-trade band.
   */
  lemma DiffIsFixpoint(symbols: seq<string>, positions: map<string, real>, targets: map<string, real>, prices: map<string, real>,
                       equity: real, band: real, nextId: int, again: seq<string>, laterId: int)
    requires AllPriced(symbols, prices) && equity > 0.0 && Concerns(symbols, positions, targets)
    requires Concerns(again, Rebalanced(symbols, positions, targets, prices, equity, band, nextId), targets)
    ensures var after := Rebalanced(symbols, positions, targets, prices, equity, band, nextId);
      && AllPriced(again, prices)
      && Diff(again, after, targets, prices, equity, band, laterId) == []
  {
    var after := Rebalanced(symbols, positions, targets, prices, equity, band, nextId);
    forall s | s in again
      ensures Priced(prices, s) && MoveFor(Shares(after, s), WeightOf(targets, s), prices[s], equity, band) == Stay
    {
      ConcernedBefore(symbols, positions, targets, prices, equity, band, nextId, again, s);
      hide Rebalanced, MoveFor, HeldAfter, Shares, Concerns;
      RebalancedHolds(symbols, positions, targets, prices, equity, band, nextId, s);
      StaysPut(Shares(positions, s), WeightOf(targets, s), prices[s], equity, band);
    }
    hide Rebalanced, MoveFor, Shares, Concerns;
    NothingToDo(again, after, targets, prices, equity, band, laterId);
  }

  /** Executing a diff brings no new symbol into view. */
  lemma ConcernedBefore(symbols: seq<string>, positions: map<string, real>, targets: map<string, real>, prices: map<string, real>,
                        equity: real, band: real, nextId: int, again: seq<string>, s: string)
    requires AllPriced(symbols, prices) && equity > 0.0 && Concerns(symbols, positions, targets)
    requires Concerns(again, Rebalanced(symbols, positions, targets, prices, equity, band, nextId), targets) && s in again
    ensures s in symbols
  {
    RebalancedHolds(symbols, positions, targets, prices, equity, band, nextId, s);
    hide Rebalanced, HeldAfter, Shares, WeightOf;
  }

  // ------------------------------------------------------------ how close it gets

  /** Actual weight against target weight of one symbol. */
  function Deviation(held: real, weight: real, price: real, equity: real): real
    requires equity > 0.0
  {
    AbsR(WeightAt(held, price, equity) - weight)
  }

  lemma FloorWeight(weight: real, equity: real, price: real)
    requires price > 0.0 && equity > 0.0
    ensures var actual := WeightAt(TargetShares(weight, equity, price) as real, price, equity);
      weight - WeightAt(1.0, price, equity) < actual <= weight
    ensures Times(TargetShares(weight, equity, price) as real, price) <= Times(weight, equity)
  {
    var t := TargetShares(weight, equity, price) as real;
    var q := weight * equity / price;
    assert q * price == weight * equity;
    assert t <= q < t + 1.0;
    WholeShares(t, q, price, t * price, weight * equity);
    Quotients(t, weight, equity, price, t * price, weight * equity);
  }

  lemma WholeShares(t: real, q: real, price: real, value: real, target: real)
    requires t <= q < t + 1.0 && price > 0.0 && value == t * price && target == q * price
    ensures value <= target
    ensures target < value + price
  {
    MulMono(t, q, price);
    var d := t + 1.0 - q;
    assert d * price > 0.0;
    assert d * price == value + price - target;
  }

  lemma Quotients(shares: real, weight: real, equity: real, price: real, value: real, target: real)
    requires equity > 0.0 && value == shares * price && target == weight * equity && value <= target < value + price
    ensures weight - WeightAt(1.0, price, equity) < WeightAt(shares, price, equity) <= weight
  {
    var a, p := WeightAt(shares, price, equity), WeightAt(1.0, price, equity);
    assert a * equity == value && p * equity == price;
    var up := weight - a;
    assert up * equity == target - value;
    SignOfFactor(up, equity);
    var gap := a + p - weight;
    assert gap * equity == value + price - target;
    SignOfFactor(gap, equity);
  }

  lemma SignOfFactor(x: real, positive: real)
    requires positive > 0.0
    ensures (x * positive >= 0.0 <==> x >= 0.0) && (x * positive > 0.0 <==> x > 0.0)
  {
  }

  /** After the diff every symbol is within the no-trade band plus one share of its target weight. */
  lemma DeviationAfter(held: real, weight: real, price: real, equity: real, band: real)
    requires price > 0.0 && equity > 0.0 && band >= 0.0
    ensures var after := HeldAfter(held, weight, price, equity, band);
      && Deviation(after, weight, price, equity) < band + WeightAt(1.0, price, equity)
      && (MoveFor(held, weight, price, equity, band) != Stay || band == 0.0 ==>
            Deviation(after, weight, price, equity) < WeightAt(1.0, price, equity))
  {
    hide TargetShares, WeightAt;
    FloorWeight(weight, equity, price);
    SkippedGap(TargetShares(weight, equity, price) as real, held, price, equity);
  }

  lemma SkippedGap(t: real, held: real, price: real, equity: real)
    requires price > 0.0 && equity > 0.0
    ensures AbsR(WeightAt(held, price, equity) - WeightAt(t, price, equity)) == WeightAt(AbsR(t - held), price, equity)
    ensures WeightAt(AbsR(t - held), price, equity) >= 0.0
  {
    var unit := price / equity;
    assert unit > 0.0;
    PerUnit(held, price, equity);
    PerUnit(t, price, equity);
    PerUnit(AbsR(t - held), price, equity);
    hide WeightAt;
    ScaleAbs(held - t, unit);
    assert (held - t) * unit == held * unit - t * unit;
    MulMono(0.0, AbsR(t - held), unit);
  }

  lemma PerUnit(shares: real, price: real, equity: real)
    requires equity > 0.0
    ensures WeightAt(shares, price, equity) == shares * (price / equity)
  {
    var unit := price / equity;
    assert unit * equity == price;
    assert (shares * unit) * equity == shares * price;
  }

  /** A symbol counts as converged within the tolerance or one share's weight. */
  predicate ConvergedAt(held: real, weight: real, price: real, equity: real, tolerance: real)
    requires equity > 0.0
  {
    Deviation(held, weight, price, equity) <= MaxR(tolerance, WeightAt(1.0, price, equity))
  }

  /** Convergence can be judged: equity is positive and everything held has a usable price; otherwise the source raises. */
  predicate Judgeable(positions: map<string, real>, prices: map<string, real>, equity: real) {
    equity > 0.0 && forall s :: s in positions && positions[s] > 0.0 ==> Priced(prices, s)
  }

  /** One symbol is where it should be; without a usable price only its target weight counts. */
  predicate AtTarget(s: string, positions: map<string, real>, targets: map<string, real>, prices: map<string, real>,
                     equity: real, tolerance: real)
    requires equity > 0.0
  {
    if Priced(prices, s) then ConvergedAt(Shares(positions, s), WeightOf(targets, s), prices[s], equity, tolerance)
    else AbsR(WeightOf(targets, s)) <= MaxR(tolerance, 0.0)
  }

  /** Every symbol on the book or in the targets is. */
  predicate Converged(positions: map<string, real>, targets: map<string, real>, prices: map<string, real>,
                      equity: real, tolerance: real)
    requires equity > 0.0
  {
    forall s :: s in positions.Keys + targets.Keys ==> AtTarget(s, positions, targets, prices, equity, tolerance)
  }

  /** `symbols` enumerates the book and the targets; None is the source's error. */
  method IsConverged(symbols: seq<string>, positions: map<string, real>, targets: map<string, real>, prices: map<string, real>,
                     equity: real, tolerance: real) returns (r: Option<bool>)
    requires forall s :: s in symbols <==> s in positions || s in targets
    ensures r.Some? <==> Judgeable(positions, prices, equity)
    ensures r.Some? ==> (r.value <==> Converged(positions, targets, prices, equity, tolerance))
  {
    hide Deviation;
    if equity <= 0.0 {
      return None;
    }
    for i := 0 to |symbols|
      invariant forall k :: 0 <= k < i ==> Priced(prices, symbols[k]) || Shares(positions, symbols[k]) <= 0.0
    {
      var s := symbols[i];
      if !Priced(prices, s) && s in positions && positions[s] > 0.0 {
        return None;
      }
    }
    assert Judgeable(positions, prices, equity) by {
      AllJudged(symbols, positions, prices, equity);
    }
    for i := 0 to |symbols|
      invariant forall k :: 0 <= k < i ==> AtTarget(symbols[k], positions, targets, prices, equity, tolerance)
    {
      var s := symbols[i];
      var held := if s in positions then positions[s] else 0.0;
      var weight := if s in targets then targets[s] else 0.0;
      var deviation := if Priced(prices, s) then Deviation(held, weight, prices[s], equity) else AbsR(weight);
      var granularity := if Priced(prices, s) then WeightAt(1.0, prices[s], equity) else 0.0;
      if deviation > MaxR(tolerance, granularity) {
        assert s in symbols && !AtTarget(s, positions, targets, prices, equity, tolerance);
        return Some(false);
      }
    }
    r := Some(true);
  }

  lemma AllJudged(symbols: seq<string>, positions: map<string, real>, prices: map<string, real>, equity: real)
    requires equity > 0.0 && forall s :: s in positions ==> s in symbols
    requires forall k :: 0 <= k < |symbols| ==> Priced(prices, symbols[k]) || Shares(positions, symbols[k]) <= 0.0
    ensures Judgeable(positions, prices, equity)
  {
  }

  /** Short positions no target asks for, which a diff never touches. */
  ghost predicate StrayShort(s: string, symbols: seq<string>, positions: map<string, real>) {
    s !in symbols && Shares(positions, s) < 0.0
  }

  /**
   With no band an executed diff can be judged, and has converged, whatever the tolerance, exactly when every
   short position that no target asks for is within it of nothing; so always when there is none.
   */
  lemma ExecutedDiffConverges(symbols: seq<string>, positions: map<string, real>, targets: map<string, real>,
                              prices: map<string, real>, equity: real, nextId: int, tolerance: real)
    requires AllPriced(symbols, prices) && equity > 0.0 && Concerns(symbols, positions, targets)
    ensures var after := Rebalanced(symbols, positions, targets, prices, equity, 0.0, nextId);
      && Judgeable(after, prices, equity)
      && (Converged(after, targets, prices, equity, tolerance)
          <==> forall s :: StrayShort(s, symbols, positions) && Priced(prices, s) ==>
                 ConvergedAt(Shares(positions, s), 0.0, prices[s], equity, tolerance))
  {
    var after := Rebalanced(symbols, positions, targets, prices, equity, 0.0, nextId);
    forall s ensures s in symbols ==> AtTarget(s, after, targets, prices, equity, tolerance)
      ensures s !in symbols ==> Shares(after, s) == Shares(positions, s) <= 0.0 && WeightOf(targets, s) == 0.0
    {
      AfterDiff(symbols, positions, targets, prices, equity, nextId, tolerance, s);
    }
    hide Rebalanced, Concerns, ConvergedAt;
    forall s | s !in symbols && s in after.Keys + targets.Keys && !StrayShort(s, symbols, positions)
      ensures AtTarget(s, after, targets, prices, equity, tolerance)
    {
      NothingIsAtTarget(s, after, targets, prices, equity, tolerance);
    }
    forall s | StrayShort(s, symbols, positions) ensures s in after {
    }
  }

  /** What an executed diff leaves of one symbol. */
  lemma AfterDiff(symbols: seq<string>, positions: map<string, real>, targets: map<string, real>, prices: map<string, real>,
                  equity: real, nextId: int, tolerance: real, s: string)
    requires AllPriced(symbols, prices) && equity > 0.0 && Concerns(symbols, positions, targets)
    ensures var after := Rebalanced(symbols, positions, targets, prices, equity, 0.0, nextId);
      && (s in symbols ==> AtTarget(s, after, targets, prices, equity, tolerance))
      && (s !in symbols ==> Shares(after, s) == Shares(positions, s) <= 0.0 && WeightOf(targets, s) == 0.0)
  {
    RebalancedHolds(symbols, positions, targets, prices, equity, 0.0, nextId, s);
    if s in symbols {
      DeviationAfter(Shares(positions, s), WeightOf(targets, s), prices[s], equity, 0.0);
    }
    hide Rebalanced, HeldAfter, Deviation, Shares, MoveFor;
  }

  lemma NothingIsAtTarget(s: string, positions: map<string, real>, targets: map<string, real>, prices: map<string, real>,
                          equity: real, tolerance: real)
    requires equity > 0.0 && Shares(positions, s) == 0.0 && WeightOf(targets, s) == 0.0
    ensures AtTarget(s, positions, targets, prices, equity, tolerance)
  {
    if Priced(prices, s) {
      SkippedGap(0.0, 1.0, prices[s], equity);
      assert WeightAt(0.0, prices[s], equity) == 0.0;
    }
  }

  /** Value of the whole-share targets. */
  function TargetValue(ws: Weights, prices: map<string, real>, equity: real): real
    requires forall i :: 0 <= i < |ws| ==> Priced(prices, ws[i].0)
  {
    if |ws| == 0 then 0.0
    else
      var e := ws[|ws| - 1];
      assert Priced(prices, ws[|ws| - 1].0);
      TargetValue(ws[..|ws| - 1], prices, equity) + Times(TargetShares(e.1, equity, prices[e.0]) as real, prices[e.0])
  }

  lemma {:induction false} TargetsCostAtMost(ws: Weights, prices: map<string, real>, equity: real)
    requires equity > 0.0 && forall i :: 0 <= i < |ws| ==> Priced(prices, ws[i].0)
    ensures TargetValue(ws, prices, equity) <= Times(Gross(ws), equity)
  {
    if |ws| > 0 {
      var n := |ws| - 1;
      TargetsCostAtMost(ws[..n], prices, equity);
      FloorWeight(ws[n].1, equity, prices[ws[n].0]);
      MulMono(ws[n].1, AbsR(ws[n].1), equity);
      TimesSum(Gross(ws[..n]), AbsR(ws[n].1), equity);
    }
  }

  /** Without leverage the share targets of clamped weights cost at most the equity. */
  lemma ClampedTargetsFit(cfg: ClampConfig, ws: Weights, prices: map<string, real>, equity: real)
    requires cfg.Valid() && !cfg.allowLeverage && equity > 0.0 && forall i :: 0 <= i < |ws| ==> Priced(prices, ws[i].0)
    ensures forall i :: 0 <= i < |Clamp(cfg, ws)| ==> Priced(prices, Clamp(cfg, ws)[i].0)
    ensures TargetValue(Clamp(cfg, ws), prices, equity) <= equity
  {
    ClampBounds(cfg, ws);
    TargetsCostAtMost(Clamp(cfg, ws), prices, equity);
    hide Clamp, TargetValue, Gross;
    MulMono(Gross(Clamp(cfg, ws)), 1.0, equity);
  }
}
