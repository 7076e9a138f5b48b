/**
 What one bar of the rebalancing backtest decides, in plain figures: whether it kills, stands down or trades,
 which orders it leaves for the next bar, and what the closing figures become.
 */
module EngineGate {
  import opened Common
  import opened Costs
  import opened RebalanceSpec
  import opened DurableState
  import opened Portfolio
  import opened EngineBacktest
  import EngineEquity
  import opened EngineKill

  /** The gate runs on this bar: the account is live and worth something. */
  ghost predicate Gated(b: Book, equity: real) {
    !b.engine.halted && equity > 0.0
  }

  ghost predicate BarKills(s: Setup, b: Book, equity: real, c: real) {
    Gated(b, equity) && DurableState.Killed(s.gate, b.engine, equity, c)
  }

  /** A decision bar on which the gate neither kills nor stands down. */
  ghost predicate BarDecides(s: Setup, b: Book, i: int, equity: real, today: int, c: real) {
    && Gated(b, equity) && s.decides(i)
    && !DurableState.Killed(s.gate, b.engine, equity, c) && !LostToday(s.gate, b.engine, equity, today, c)
  }

  /** The account a bar's gate looks at: deposits `c` credited, the previous bar's orders filled at these marks. */
  ghost predicate FilledAt(s: Setup, b: Book, visible: seq<Row>, marks: map<string, real>, c: real, filled: Book)
    requires |visible| > 0 && s.risk.maxOrdersPerDay >= 0
  {
    var today := visible[|visible| - 1].date;
    && !b.raised && Deposits(s.contribution, FirstUncredited(b, today), today) == Some(c)
    && filled == FillLeg(s, Credit(b, c, today), marks) && !filled.raised
  }

  lemma FillLegClears(s: Setup, b: Book, marks: map<string, real>)
    requires s.risk.maxOrdersPerDay >= 0
    ensures FillLeg(s, b, marks).engine == b.engine && FillLeg(s, b, marks).curve == b.curve
    ensures !FillLeg(s, b, marks).raised ==> FillLeg(s, b, marks).pending.None?
  {
    hide Rebalance, EngineBacktest.Equity;
  }

  lemma {:induction false} DepositsNotNegative(contribution: int -> real, from: int, until: int)
    ensures Deposits(contribution, from, until).Some? ==> Deposits(contribution, from, until).value >= 0.0
    decreases if until < from then 0 else until - from + 1
  {
    if from <= until {
      DepositsNotNegative(contribution, from, until - 1);
    }
  }

  /**
   What a bar leaves pending, exactly: the liquidation when its gate kills, the decision's orders when it is a
   decision bar that neither kills nor stands down, and nothing otherwise. A bar that stands down, like one that
   decides nothing, leaves no order for the next bar, and no verdict moves cash or holdings on its own bar.
   */
  lemma BarLeavesExactly(s: Setup, b: Book, visible: seq<Row>, marks: map<string, real>, c: real, filled: Book)
    requires |visible| > 0 && s.risk.maxOrdersPerDay >= 0 && s.gate.Valid()
    requires FilledAt(s, b, visible, marks, c, filled)
    ensures var today := visible[|visible| - 1].date; var i := |visible| - 1;
      var equity := filled.cash + Worth(s.columns, filled.positions, marks); var r := Bar(s, b, visible, marks);
      && !r.raised && r.cash == filled.cash && r.positions == filled.positions && r.filled == filled.filled
      && (r.engine.halted <==> b.engine.halted || BarKills(s, filled, equity, c))
      && (BarKills(s, filled, equity, c) ==>
            if |HeldSymbols(s.columns, filled.positions)| == 0 then r.pending.None?
            else r.pending.Some? && ExitsAll(r.pending.value, HeldSymbols(s.columns, filled.positions), filled.positions))
      && (BarDecides(s, filled, i, equity, today, c) ==> r.pending == Decide(s, filled, visible, equity))
      && (!BarKills(s, filled, equity, c) && !BarDecides(s, filled, i, equity, today, c) ==> r.pending.None?)
      && ((Gated(filled, equity) && !BarKills(s, filled, equity, c) && LostToday(s.gate, filled.engine, equity, today, c))
          ==> r.pending.None?)
  {
    hide FillLeg, Worth, Decide, Deposits, Liquidation, PreTrade, DurableState.Killed, LostToday, FirstUncredited, HeldSymbols,
      ExitsAll;
    var today := visible[|visible| - 1].date;
    var equity := filled.cash + Worth(s.columns, filled.positions, marks);
    FillLegClears(s, Credit(b, c, today), marks);
    VerdictExactly(s.gate, filled.engine, equity, today, c);
    LiquidationExitsAll(s.columns, filled.positions, filled.nextId);
    SameLength(Liquidation(s.columns, filled.positions, filled.nextId), HeldSymbols(s.columns, filled.positions),
               filled.positions);
  }

  lemma SameLength(orders: seq<Order>, symbols: seq<string>, positions: map<string, real>)
    requires ExitsAll(orders, symbols, positions)
    ensures |orders| == |symbols|
  {
  }

  /** The figures a bar closes with: deposits raise the peak, and a date's first equity is the one kept for it. */
  lemma BarClosesExactly(s: Setup, b: Book, visible: seq<Row>, marks: map<string, real>, c: real, filled: Book)
    requires |visible| > 0 && s.risk.maxOrdersPerDay >= 0
    requires FilledAt(s, b, visible, marks, c, filled)
    ensures var today := visible[|visible| - 1].date;
      var equity := filled.cash + Worth(s.columns, filled.positions, marks); var r := Bar(s, b, visible, marks);
      && r.engine.peakEquity == (if b.engine.peakEquity + c < equity then equity else b.engine.peakEquity + c)
      && r.engine.lastEquity == (if b.engine.lastEquityDate == Some(today) then b.engine.lastEquity else equity)
      && r.engine.lastEquityDate == Some(today) && r.curve == b.curve + [equity]
  {
    hide FillLeg, Worth, Decide, Liquidation, PreTrade, Deposits, FirstUncredited;
    var today := visible[|visible| - 1].date;
    FillLegClears(s, Credit(b, c, today), marks);
    DepositsNotNegative(s.contribution, FirstUncredited(b, today), today);
  }

  // ------------------------------------------------------------ what a decision needs

  /** The strategy answered, every universe symbol and every holding closed on the last visible bar. */
  ghost predicate DataComplete(s: Setup, b: Book, visible: seq<Row>)
    requires |visible| > 0
  {
    var closes := visible[|visible| - 1].closes;
    && (forall sym :: sym in s.universe ==> sym in closes)
    && (forall sym :: sym in b.positions && b.positions[sym] > 0.0 ==> sym in closes)
    && s.strategy(visible).Some?
  }

  /** An order for a symbol of the universe or a holding, with a positive close of its own on the last visible bar. */
  ghost predicate OrderOnData(s: Setup, b: Book, closes: map<string, real>, o: Order) {
    && o.symbol in s.columns && o.symbol in closes && closes[o.symbol] > 0.0
    && (o.symbol in s.universe || (o.symbol in b.positions && b.positions[o.symbol] > 0.0))
  }

  /** Orders come from complete data only, and each is for a symbol with a positive close on the last visible bar. */
  lemma DecidedOnData(s: Setup, b: Book, visible: seq<Row>, equity: real)
    requires |visible| > 0 && equity > 0.0
    ensures var d := Decide(s, b, visible, equity);
      && (d.Some? ==> |d.value| > 0 && DataComplete(s, b, visible))
      && (d.Some? ==> forall k :: 0 <= k < |d.value| ==> OrderOnData(s, b, visible[|visible| - 1].closes, d.value[k]))
  {
    hide Diff, OfSide, Concerned, Clamp, LatestPrices, ToMap;
    var d := Decide(s, b, visible, equity);
    if d.Some? {
      var last := visible[|visible| - 1];
      var targets := ToMap(Clamp(s.clamp, s.strategy(visible).value));
      var symbols := Concerned(s.columns, b.positions, targets);
      var prices := LatestPrices(s, b, last);
      EngineEquity.ConcernedInFrame(s.columns, b.positions, targets);
      var diff := Diff(symbols, b.positions, targets, prices, equity, s.band, b.nextId);
      EngineEquity.DiffInFrame(symbols, symbols, b.positions, targets, prices, equity, s.band, b.nextId);
      EngineEquity.OfSideInFrame(symbols, diff, Sell);
      EngineEquity.OfSideInFrame(symbols, diff, Buy);
      PricesAreCloses(s, b, last);
      forall k | 0 <= k < |d.value| ensures OrderOnData(s, b, last.closes, d.value[k]) {
        assert d.value[k].symbol in symbols;
      }
    }
  }

  lemma PricesAreCloses(s: Setup, b: Book, last: Row)
    ensures forall sym :: sym in LatestPrices(s, b, last) ==>
      && sym in last.closes && LatestPrices(s, b, last)[sym] == last.closes[sym]
      && (sym in s.universe || (sym in b.positions && b.positions[sym] > 0.0))
  {
  }

  /** The symbols a decision is about: what is held and what has a target, in column order. */
  lemma {:induction false} ConcernedExactly(columns: seq<string>, positions: map<string, real>, targets: map<string, real>, symbol: string)
    ensures symbol in Concerned(columns, positions, targets) <==>
      && symbol in columns
      && ((symbol in positions && positions[symbol] > 0.0) || (symbol in targets && targets[symbol] != 0.0))
  {
    if |columns| > 0 {
      var n := |columns| - 1;
      ConcernedExactly(columns[..n], positions, targets, symbol);
      assert columns == columns[..n] + [columns[n]];
    }
  }

  /** A target outside the frame, or one that is neither in the universe nor held, refuses the whole decision. */
  lemma StrayTargetRefuses(s: Setup, b: Book, visible: seq<Row>, equity: real, weights: Weights, i: nat)
    requires |visible| > 0 && equity > 0.0 && s.strategy(visible) == Some(weights)
    requires i < |weights| && Distinct(weights) && Clamp(s.clamp, weights)[i].1 != 0.0
    requires var symbol := weights[i].0;
      symbol !in s.columns || (symbol !in s.universe && !(symbol in b.positions && b.positions[symbol] > 0.0))
    ensures Decide(s, b, visible, equity).None?
  {
    hide Diff, OfSide, LatestPrices;
    var last := visible[|visible| - 1];
    var clamped := Clamp(s.clamp, weights);
    var targets := ToMap(clamped);
    TargetsAre(clamped, i);
    var symbol := weights[i].0;
    ConcernedExactly(s.columns, b.positions, targets, symbol);
    PricesAreCloses(s, b, last);
    if symbol in s.columns { assert symbol in Concerned(s.columns, b.positions, targets); }
    hide Clamp, Concerned, ToMap;
  }

  ghost predicate Distinct(ws: Weights) {
    forall i, j :: 0 <= i < j < |ws| ==> ws[i].0 != ws[j].0
  }

  lemma {:induction false} TargetsAre(ws: Weights, i: nat)
    requires i < |ws| && Distinct(ws)
    ensures ws[i].0 in ToMap(ws) && ToMap(ws)[ws[i].0] == ws[i].1
  {
    var n := |ws| - 1;
    if i < n { TargetsAre(ws[..n], i); }
  }
}
