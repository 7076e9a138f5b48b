/**
 The rebalancing backtest: deposits, carried-forward marks, the fill leg through the live execution
 path, the risk gate and the decision leg, bar by bar; and what it may see.
 */
module EngineBacktest {
  import opened Common
  import opened Costs
  import opened RebalanceSpec
  import Rebalancer
  import opened RebalanceSafety
  import opened DurableState
  import opened Portfolio

  /** One bar: its date as a day count and the closes that are present. */
  datatype Row = Row(date: int, closes: map<string, real>)

  /** `columns` are the frame's symbols in sorted order; the strategy sees rows and answers weights or a data refusal. */
  datatype Setup = Setup(
    gate: GateConfig, clamp: ClampConfig, risk: RiskConfig, band: real, columns: seq<string>, universe: seq<string>,
    strategy: seq<Row> -> Option<Weights>, contribution: int -> real, decides: int -> bool)

  const BENIGN := Knobs(map[], map[], map[], None, false)

  datatype Book = Book(
    cash: real, positions: map<string, real>, engine: EngineState, pending: Option<seq<Order>>,
    contributions: real, costsPaid: real, curve: seq<real>, prevDate: Option<int>, nextId: int,
    filled: seq<Result>, raised: bool)

  function Start(initial: real): Book {
    Book(initial, map[], DEFAULTS.(peakEquity := initial, lastEquity := initial), None, 0.0, 0.0, [], None, 1, [], false)
  }

  // ------------------------------------------------------------ marks

  /** The whole frame carried forward: each row overrides what came before it. */
  function CarriedForward(rows: seq<Row>): (r: seq<map<string, real>>)
    ensures |r| == |rows|
  {
    if |rows| == 0 then []
    else
      var before := CarriedForward(rows[..|rows| - 1]);
      before + [if |before| == 0 then rows[0].closes else before[|before| - 1] + rows[|rows| - 1].closes]
  }

  function MarkOf(marks: map<string, real>, symbol: string): real {
    if symbol in marks then marks[symbol] else 0.0
  }

  function Holding(positions: map<string, real>, marks: map<string, real>, symbol: string): real {
    Times(Shares(positions, symbol), MarkOf(marks, symbol))
  }

  /** Value of the holdings over the given symbols. */
  function Worth(columns: seq<string>, positions: map<string, real>, marks: map<string, real>): real {
    if |columns| == 0 then 0.0
    else Worth(columns[..|columns| - 1], positions, marks) + Holding(positions, marks, columns[|columns| - 1])
  }

  // ------------------------------------------------------------ one bar

  /** Deposits of the days `from..to`; None when one of them is a withdrawal. */
  function Deposits(contribution: int -> real, from: int, to: int): Option<real>
    decreases if to < from then 0 else to - from + 1
  {
    if to < from then Some(0.0)
    else
      match Deposits(contribution, from, to - 1)
      case None => None
      case Some(sum) => if contribution(to) < 0.0 then None else Some(sum + contribution(to))
  }

  function FirstUncredited(b: Book, today: int): int {
    match b.prevDate case None => today case Some(d) => d + 1
  }

  function Credit(b: Book, c: real, today: int): Book {
    b.(cash := b.cash + (if c > 0.0 then c else 0.0), contributions := b.contributions + (if c > 0.0 then c else 0.0),
       prevDate := Some(today))
  }

  function Equity(s: Setup, b: Book, marks: map<string, real>): real {
    b.cash + Worth(s.columns, b.positions, marks)
  }

  /** Orders decided on the previous bar fill now, at the marks, through the live rebalance. */
  function FillLeg(s: Setup, b: Book, marks: map<string, real>): Book
    requires s.risk.maxOrdersPerDay >= 0
  {
    if b.pending.None? then b
    else
      var m := Market(s.risk.costs, BENIGN, marks);
      var n := Rebalance(m, s.risk, marks, 1, Venue(b.cash, b.positions, 0, []), b.pending.value, b.nextId, false);
      if n.raised then b.(raised := true)
      else
        var after := b.(cash := n.venue.cash, positions := n.venue.positions, nextId := n.nextId);
        after.(costsPaid := b.costsPaid + (Equity(s, b, marks) - Equity(s, after, marks)),
               filled := b.filled + n.results, pending := None)
  }

  /** One full-exit sale per holding, in column order. */
  function Liquidation(columns: seq<string>, positions: map<string, real>, nextId: int): seq<Order> {
    if |columns| == 0 then []
    else
      var before := Liquidation(columns[..|columns| - 1], positions, nextId);
      var sym := columns[|columns| - 1];
      if Shares(positions, sym) > 0.0 then before + [Order(nextId + |before|, sym, Sell, Shares(positions, sym), true, None)]
      else before
  }

  /** The gate's verdict on this bar, None when it does not run. */
  function GateVerdict(s: Setup, b: Book, equity: real, today: int, c: real): Option<Gate> {
    if !b.engine.halted && equity > 0.0 then Some(PreTrade(s.gate, b.engine, equity, today, c)) else None
  }

  function GateLeg(s: Setup, b: Book, verdict: Option<Gate>): Book {
    if verdict != Some(HardKill) then b
    else
      var orders := Liquidation(s.columns, b.positions, b.nextId);
      b.(engine := b.engine.(halted := true), pending := if |orders| == 0 then None else Some(orders),
         nextId := b.nextId + |orders|)
  }

  function ToMap(ws: Weights): map<string, real> {
    if |ws| == 0 then map[] else ToMap(ws[..|ws| - 1])[ws[|ws| - 1].0 := ws[|ws| - 1].1]
  }

  /** Every universe symbol and every holding has a close on the last visible bar. */
  predicate DataUsable(s: Setup, b: Book, last: Row) {
    && (forall sym :: sym in s.universe ==> sym in last.closes)
    && (forall sym :: sym in b.positions && b.positions[sym] > 0.0 ==> sym in last.closes)
  }

  /** The symbols a diff concerns, in sorted order; None when a target is outside the frame. */
  function Concerned(columns: seq<string>, positions: map<string, real>, targets: map<string, real>): seq<string> {
    if |columns| == 0 then []
    else
      var before := Concerned(columns[..|columns| - 1], positions, targets);
      var sym := columns[|columns| - 1];
      if Shares(positions, sym) > 0.0 || WeightOf(targets, sym) != 0.0 then before + [sym] else before
  }

  predicate TargetsInFrame(columns: seq<string>, targets: map<string, real>) {
    forall sym :: sym in targets && targets[sym] != 0.0 ==> sym in columns
  }

  predicate AllHavePrices(symbols: seq<string>, prices: map<string, real>) {
    forall sym :: sym in symbols ==> Priced(prices, sym)
  }

  /** The closes of the universe and the holdings, the only prices the order computation is given. */
  function LatestPrices(s: Setup, b: Book, last: Row): map<string, real> {
    map sym | sym in last.closes && (sym in s.universe || Shares(b.positions, sym) > 0.0) :: last.closes[sym]
  }

  /** The decision of a bar, from the visible rows only: the new pending orders, None when there are none. */
  function Decide(s: Setup, b: Book, visible: seq<Row>, equity: real): Option<seq<Order>>
    requires |visible| > 0 && equity > 0.0
  {
    var last := visible[|visible| - 1];
    if !DataUsable(s, b, last) then None
    else
      match s.strategy(visible)
      case None => None
      case Some(weights) =>
        var targets := ToMap(Clamp(s.clamp, weights));
        var symbols := Concerned(s.columns, b.positions, targets);
        var prices := LatestPrices(s, b, last);
        if !TargetsInFrame(s.columns, targets) || !AllHavePrices(symbols, prices) then None
        else
          var orders := Sorted(Diff(symbols, b.positions, targets, prices, equity, s.band, b.nextId));
          if |orders| == 0 then None else Some(orders)
  }

  function DecisionLeg(s: Setup, b: Book, visible: seq<Row>, verdict: Option<Gate>, equity: real): Book
    requires |visible| > 0
  {
    if !s.decides(|visible| - 1) || b.engine.halted || equity <= 0.0 || verdict.None? || verdict.value == HardKill then b
    else if verdict.value == StandDown then b.(pending := None)
    else
      var orders := Decide(s, b, visible, equity);
      b.(pending := orders, nextId := b.nextId + if orders.Some? then |orders.value| else 0)
  }

  function Close(b: Book, equity: real, today: int, c: real): Book {
    var e := b.engine.(peakEquity := MaxR(b.engine.peakEquity + MaxR(c, 0.0), equity));
    b.(engine := if e.lastEquityDate == Some(today) then e else e.(lastEquity := equity, lastEquityDate := Some(today)),
       curve := b.curve + [equity])
  }

  /** The bar after `visible`'s last row is known; `marks` is that row of the carried-forward frame. */
  function Bar(s: Setup, b: Book, visible: seq<Row>, marks: map<string, real>): Book
    requires |visible| > 0 && s.risk.maxOrdersPerDay >= 0
  {
    var today := visible[|visible| - 1].date;
    if b.raised then b
    else
      match Deposits(s.contribution, FirstUncredited(b, today), today)
      case None => b.(raised := true)
      case Some(c) =>
        var filled := FillLeg(s, Credit(b, c, today), marks);
        if filled.raised then filled
        else
          var equity := Equity(s, filled, marks);
          var verdict := GateVerdict(s, filled, equity, today, c);
          Close(DecisionLeg(s, GateLeg(s, filled, verdict), visible, verdict, equity), equity, today, c)
  }

  /** The book after the first `n` bars of the frame. */
  function After(s: Setup, initial: real, rows: seq<Row>, n: nat): Book
    requires n <= |rows| && s.risk.maxOrdersPerDay >= 0
  {
    if n == 0 then Start(initial) else Bar(s, After(s, initial, rows, n - 1), rows[..n], CarriedForward(rows)[n - 1])
  }

  // ------------------------------------------------------------ the loop

  method FillPending(s: Setup, b: Book, marks: map<string, real>) returns (after: Book)
    requires s.risk.maxOrdersPerDay >= 0
    ensures after == FillLeg(s, b, marks)
  {
    hide Worth, Rebalance;
    if b.pending.None? {
      return b;
    }
    var broker := new Rebalancer.PaperBroker(Market(s.risk.costs, BENIGN, marks), b.cash, b.positions);
    var execution := new Rebalancer.Execution(broker, s.risk, marks, 1, b.nextId);
    execution.ExecuteRebalance(b.pending.value, false);
    if execution.raised {
      return b.(raised := true);
    }
    after := b.(cash := broker.cash, positions := broker.positions, nextId := execution.nextId);
    after := after.(costsPaid := b.costsPaid + (Equity(s, b, marks) - Equity(s, after, marks)),
                    filled := b.filled + execution.results, pending := None);
  }

  method RunBacktest(s: Setup, initial: real, rows: seq<Row>) returns (book: Book)
    requires s.risk.maxOrdersPerDay >= 0
    ensures book == After(s, initial, rows, |rows|)
  {
    hide Worth, FillLeg, GateVerdict, GateLeg, DecisionLeg, Close, Deposits;
    book := Start(initial);
    var marks := CarriedForward(rows);
    for i := 0 to |rows|
      invariant book == After(s, initial, rows, i)
    {
      var visible := rows[..i + 1];
      var today := rows[i].date;
      if !book.raised {
        var c := Deposits(s.contribution, FirstUncredited(book, today), today);
        if c.None? {
          book := book.(raised := true);
        } else {
          var filled := FillPending(s, Credit(book, c.value, today), marks[i]);
          book := filled;
          if !book.raised {
            var equity := Equity(s, filled, marks[i]);
            var verdict := GateVerdict(s, filled, equity, today, c.value);
            book := GateLeg(s, book, verdict);
            book := DecisionLeg(s, book, visible, verdict, equity);
            book := Close(book, equity, today, c.value);
          }
        }
      }
    }
  }

  // ------------------------------------------------------------ no lookahead

  /** A row of the carried-forward frame depends on that row and earlier ones only. */
  lemma {:induction false} CarriedPrefix(rows: seq<Row>, n: nat)
    requires n <= |rows|
    ensures CarriedForward(rows)[..n] == CarriedForward(rows[..n])
  {
    if n < |rows| {
      CarriedPrefix(rows[..|rows| - 1], n);
      assert rows[..|rows| - 1][..n] == rows[..n];
    } else {
      assert rows[..n] == rows;
    }
  }

  /** Where the closes are missing the mark stays what it was. */
  lemma MissingCloseKeepsMark(rows: seq<Row>, symbol: string)
    requires |rows| >= 2 && symbol !in rows[|rows| - 1].closes
    ensures MarkOf(CarriedForward(rows)[|rows| - 1], symbol) == MarkOf(CarriedForward(rows)[|rows| - 2], symbol)
  {
    assert |CarriedForward(rows[..|rows| - 1])| > 0;
  }

  /**
   Two frames that agree on their first `n` bars give the same book after them, whatever follows: same
   equity, positions, cash, halt and pending orders, for every strategy and decision schedule.
   */
  lemma {:induction false} NoLookahead(s: Setup, initial: real, rows: seq<Row>, others: seq<Row>, n: nat)
    requires s.risk.maxOrdersPerDay >= 0 && n <= |rows| && n <= |others| && rows[..n] == others[..n]
    ensures After(s, initial, rows, n) == After(s, initial, others, n)
  {
    hide Bar, CarriedForward;
    if n > 0 {
      assert rows[..n - 1] == rows[..n][..n - 1] && others[..n - 1] == others[..n][..n - 1];
      NoLookahead(s, initial, rows, others, n - 1);
      CarriedPrefix(rows, n);
      CarriedPrefix(others, n);
      assert CarriedForward(rows)[n - 1] == CarriedForward(rows)[..n][n - 1];
      assert CarriedForward(others)[n - 1] == CarriedForward(others)[..n][n - 1];
    }
  }
}
