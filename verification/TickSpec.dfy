/**
 The one-tick-at-a-time meaning of the tick backtest, on values: the earliest unprocessed tick among
 the open positions (ties go to the position opened first) is resolved and the guard then looks at
 the account.
 */
module TickSpec {
  import opened Common
  import opened FtmoRules
  import opened Sizing

  /** One UTC day of ticks of one symbol. */
  datatype Ticks = Ticks(ts: seq<int>, bid: seq<real>, ask: seq<real>) {
    ghost predicate Valid() {
      && |bid| == |ts| && |ask| == |ts|
      && forall i, j :: 0 <= i <= j < |ts| ==> ts[i] <= ts[j]
    }
  }

  /** Index of the first time stamp not before `t` (numpy's left searchsorted). */
  function LowerBound(ts: seq<int>, t: int): (r: nat)
    requires forall i, j :: 0 <= i <= j < |ts| ==> ts[i] <= ts[j]
    ensures r <= |ts|
    ensures forall i :: 0 <= i < r ==> ts[i] < t
    ensures forall i :: r <= i < |ts| ==> t <= ts[i]
  {
    if |ts| == 0 then 0
    else if ts[|ts| - 1] < t then |ts|
    else LowerBound(ts[..|ts| - 1], t)
  }

  datatype ExitReason = StopLoss | Breakeven | Target | TimeExit | GuardHalt | DataEnd

  /** An open position. `id` is its creation number and stands for the object's identity. */
  datatype Pos = Pos(
    id: nat, symbol: string, side: Side, lots: real, spec: ContractSpec,
    entryNs: int, entry: real, stop: real, initialStop: real, target: real, flattenNs: int,
    ticks: Ticks, idx: nat, mark: real, entryCommission: real, spreadCost: real,
    beDone: bool, mae: real, mfe: real)
  {
    ghost predicate Valid() {
      ticks.Valid() && 0 < idx <= |ticks.ts|
    }

    function RDist(): real { AbsR(entry - initialStop) }

    function Unrealized(price: real): real {
      (if side == Long then price - entry else entry - price) * spec.ValuePerPriceUnit(lots)
    }

    function ExitCommission(): real { spec.commissionPerLotSide * lots }

    /** Whether an unprocessed tick before `until` is left. */
    predicate HasTick(until: int) {
      idx < |ticks.ts| && ticks.ts[idx] < until
    }
  }

  datatype Trade = Trade(
    entryTs: int, exitTs: int, symbol: string, side: Side, pnl: real, mae: real, mfe: real,
    entryPrice: real, exitPrice: real, stop: real, target: real, lots: real,
    reason: ExitReason, commission: real, spreadCost: real)

  datatype Config = Config(limits: Limits, breakevenR: real, riskAmount: real)

  /** The mutable fields of the engine. */
  datatype Engine = Engine(
    cash: real, open: seq<Pos>, trades: seq<Trade>, curve: seq<(int, real)>,
    dayStart: real, dayLow: real, dayHigh: real, consecutiveLosses: int, halted: Option<HaltKind>)

  // ------------------------------------------------------------ account figures

  function Floating(open: seq<Pos>): (r: seq<real>)
    ensures |r| == |open| && forall i :: 0 <= i < |open| ==> r[i] == open[i].Unrealized(open[i].mark)
  {
    seq(|open|, i requires 0 <= i < |open| => open[i].Unrealized(open[i].mark))
  }

  function Equity(e: Engine): real { e.cash + Sum(Floating(e.open)) }

  function Record(e: Engine, ts: int): Engine {
    var eq := Equity(e);
    e.(curve := e.curve + [(ts, eq)], dayLow := MinR(e.dayLow, eq), dayHigh := MaxR(e.dayHigh, eq))
  }

  /** Move the mark and widen the excursion range, entry commission included. */
  function MarkPos(p: Pos, price: real): Pos {
    var contrib := p.Unrealized(price) - p.entryCommission;
    p.(mark := price, mae := MinR(p.mae, contrib), mfe := MaxR(p.mfe, contrib))
  }

  function Without(open: seq<Pos>, j: nat): seq<Pos>
    requires j < |open|
  {
    open[..j] + open[j + 1..]
  }

  function TradeOf(p: Pos, i: nat, price: real, reason: ExitReason): Trade
    requires i < |p.ticks.ts|
  {
    var pnl := p.Unrealized(price) - p.ExitCommission() - p.entryCommission;
    Trade(p.entryNs, p.ticks.ts[i], p.symbol, p.side, pnl, MinR(p.mae, pnl), MaxR(p.mfe, pnl),
          p.entry, price, p.stop, p.target, p.lots, reason,
          p.ExitCommission() + p.entryCommission, p.spreadCost)
  }

  /** Close the `j`-th open position at `price`, stamped with its `i`-th tick. */
  function Close(e: Engine, j: nat, i: nat, price: real, reason: ExitReason): Engine
    requires j < |e.open| && i < |e.open[j].ticks.ts|
  {
    var p := e.open[j];
    var trade := TradeOf(p, i, price, reason);
    Record(e.(cash := e.cash + (p.Unrealized(price) - p.ExitCommission()),
              open := Without(e.open, j),
              consecutiveLosses := if trade.pnl < 0.0 then e.consecutiveLosses + 1 else 0,
              trades := e.trades + [trade]),
           trade.exitTs)
  }

  function MarketExitPrice(p: Pos, i: nat): real
    requires p.ticks.Valid() && i < |p.ticks.ts|
  {
    if p.side == Long then p.ticks.bid[i] - p.spec.slippage else p.ticks.ask[i] + p.spec.slippage
  }

  // ------------------------------------------------------------ one tick

  datatype Outcome = Exit(price: real, reason: ExitReason) | Stay(pos: Pos)

  /** What tick `i` does to a position: time exit, stop, target, breakeven move, or a new mark. */
  function Resolve(p: Pos, i: nat, beR: real): Outcome
    requires p.ticks.Valid() && i < |p.ticks.ts|
  {
    var bid := p.ticks.bid[i];
    var ask := p.ticks.ask[i];
    if p.ticks.ts[i] >= p.flattenNs then Exit(MarketExitPrice(p, i), TimeExit)
    else if p.side == Long then
      if bid <= p.stop then Exit(bid - p.spec.slippage, if p.beDone then Breakeven else StopLoss)
      else if bid >= p.target then Exit(p.target, Target)
      else Stay(MarkPos(if !p.beDone && bid >= p.entry + beR * p.RDist() then p.(stop := p.entry, beDone := true) else p, bid))
    else
      if ask >= p.stop then Exit(ask + p.spec.slippage, if p.beDone then Breakeven else StopLoss)
      else if ask <= p.target then Exit(p.target, Target)
      else Stay(MarkPos(if !p.beDone && ask <= p.entry - beR * p.RDist() then p.(stop := p.entry, beDone := true) else p, ask))
  }

  ghost predicate PositionsValid(open: seq<Pos>) {
    forall j :: 0 <= j < |open| ==> open[j].Valid()
  }

  /** Close every open position in order at its last processed tick. */
  function FlattenAll(e: Engine): Engine
    requires PositionsValid(e.open)
    decreases |e.open|
  {
    if |e.open| == 0 then e
    else
      var p := e.open[0];
      FlattenAll(Close(e, 0, p.idx - 1, MarketExitPrice(p, p.idx - 1), GuardHalt))
  }

  /** The guard's look at the account after a tick; a breach halts and flattens. */
  function GuardCheck(e: Engine, cfg: Config): Engine
    requires PositionsValid(e.open)
  {
    match ShouldHalt(Mark(Equity(e), e.dayStart, e.dayStart), cfg.limits)
    case None => e
    case Some(kind) => FlattenAll(e.(halted := Some(kind)))
  }

  /** The effect of a tick on the book, before the guard looks. */
  function ApplyTick(e: Engine, j: nat, cfg: Config): (r: Engine)
    requires PositionsValid(e.open)
    requires j < |e.open| && e.open[j].idx < |e.open[j].ticks.ts|
    ensures PositionsValid(r.open)
  {
    var i := e.open[j].idx;
    var p := e.open[j].(idx := i + 1);
    match Resolve(p, i, cfg.breakevenR)
    case Exit(price, reason) => Close(e.(open := e.open[j := p]), j, i, price, reason)
    case Stay(q) => Record(e.(open := e.open[j := q]), p.ticks.ts[i])
  }

  function TickOnce(e: Engine, j: nat, cfg: Config): Engine
    requires PositionsValid(e.open)
    requires j < |e.open| && e.open[j].idx < |e.open[j].ticks.ts|
  {
    GuardCheck(ApplyTick(e, j, cfg), cfg)
  }

  /** `q` is `p` one tick later: same identity and terms, next tick index. */
  ghost predicate Succeeds(p: Pos, q: Pos) {
    && q.id == p.id && q.symbol == p.symbol && q.side == p.side && q.lots == p.lots && q.spec == p.spec
    && q.entry == p.entry && q.entryCommission == p.entryCommission
    && q.ticks == p.ticks && q.idx == p.idx + 1
  }

  // ------------------------------------------------------------ the next tick

  /** Position `j` holds the earliest tick before `until`; earlier positions win ties. */
  ghost predicate IsNext(open: seq<Pos>, until: int, j: nat) {
    && j < |open|
    && open[j].HasTick(until)
    && forall k :: 0 <= k < |open| && open[k].HasTick(until) ==>
         open[j].ticks.ts[open[j].idx] < open[k].ticks.ts[open[k].idx]
         || (open[j].ticks.ts[open[j].idx] == open[k].ticks.ts[open[k].idx] && j <= k)
  }

  /** No open position has an unprocessed tick before `until`. */
  ghost predicate Idle(open: seq<Pos>, until: int) {
    forall k :: 0 <= k < |open| ==> !open[k].HasTick(until)
  }

  /** The position to serve next, or -1 when no tick before `until` is left. */
  function NextIndex(open: seq<Pos>, until: int): (r: int)
    ensures r == -1 <==> Idle(open, until)
    ensures r != -1 ==> 0 <= r && IsNext(open, until, r)
    ensures forall j: nat :: IsNext(open, until, j) ==> j == r
  {
    if |open| == 0 then -1
    else
      var n := |open| - 1;
      var r := NextIndex(open[..n], until);
      if open[n].HasTick(until)
         && (r == -1 || open[n].ticks.ts[open[n].idx] < open[r].ticks.ts[open[r].idx])
      then n else r
  }
}
