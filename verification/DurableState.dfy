/**
 The rebalancing engine's state file, its pre-trade gate and its daily cycle: what one save does step
 by step, what one undisturbed cycle does, and how many rebalances a period can see.
 */
module DurableState {
  import opened Common

  datatype EngineState = EngineState(
    halted: bool, peakEquity: real, lastEquity: real, lastEquityDate: Option<int>,
    lastCompletedPeriod: Option<int>, retries: nat, retryPeriod: Option<int>,
    positions: map<string, real>, cash: real)

  const DEFAULTS := EngineState(false, 0.0, 0.0, None, None, 0, None, map[], 0.0)

  /** A file either carries a state under a matching checksum or is unreadable. */
  datatype Content = Good(state: EngineState) | Torn

  datatype Disk = Disk(main: Option<Content>, backup: Option<Content>, temp: Option<Content>)

  datatype LoadResult = Loaded(state: EngineState) | Refused

  function LoadSpec(d: Disk, allowFresh: bool): LoadResult {
    match d.main
    case Some(Good(s)) => Loaded(s)
    case Some(Torn) => Refused
    case None => if d.backup.None? && allowFresh then Loaded(DEFAULTS) else Refused
  }

  /** The four durable steps of a save: a torn temp file, a full one, the old file set aside, the rename. */
  datatype SaveStep = OpenTemp | WriteTemp | SetAside | Rename

  function SaveEffect(d: Disk, s: EngineState, step: SaveStep): Disk {
    match step
    case OpenTemp => d.(temp := Some(Torn))
    case WriteTemp => d.(temp := Some(Good(s)))
    case SetAside => if d.main.Some? && d.main.value.Good? then d.(main := None, backup := d.main) else d
    case Rename => d.(main := d.temp, temp := None)
  }

  function Saved(d: Disk, s: EngineState): Disk {
    SaveEffect(SaveEffect(SaveEffect(SaveEffect(d, s, OpenTemp), s, WriteTemp), s, SetAside), s, Rename)
  }

  class StateFile {
    var main: Option<Content>
    var backup: Option<Content>
    var temp: Option<Content>

    function View(): Disk
      reads this
    {
      Disk(main, backup, temp)
    }

    constructor ()
      ensures View() == Disk(None, None, None)
    {
      main, backup, temp := None, None, None;
    }

    method Load(allowFresh: bool) returns (r: LoadResult)
      ensures r == LoadSpec(View(), allowFresh)
    {
      if main.None? && backup.None? {
        if allowFresh {
          return Loaded(DEFAULTS);
        }
        return Refused;
      }
      if main.Some? {
        if main.value.Good? {
          return Loaded(main.value.state);
        }
        return Refused;
      }
      r := Refused;
    }

    method Save(s: EngineState)
      modifies this
      ensures View() == Saved(old(View()), s)
      ensures LoadSpec(View(), false) == Loaded(s)
    {
      temp := Some(Torn);
      temp := Some(Good(s));
      if main.Some? && main.value.Good? {
        backup := main;
        main := None;
      }
      main := temp;
      temp := None;
    }
  }

  /** A completed save is what the next load returns, and the previous valid state is the backup. */
  lemma SaveThenLoad(d: Disk, s: EngineState, allowFresh: bool)
    ensures LoadSpec(Saved(d, s), allowFresh) == Loaded(s)
    ensures Saved(d, s).backup == if LoadSpec(d, false).Loaded? then Some(Good(LoadSpec(d, false).state)) else d.backup
  {
  }

  /** Cut a save after any of its steps: the load gives the old state, the new one, or refuses; never anything else. */
  lemma InterruptedSave(d: Disk, s: EngineState)
    requires LoadSpec(d, false).Loaded?
    ensures var d1 := SaveEffect(d, s, OpenTemp); var d2 := SaveEffect(d1, s, WriteTemp);
      var d3 := SaveEffect(d2, s, SetAside); var d4 := SaveEffect(d3, s, Rename);
      && LoadSpec(d1, false) == LoadSpec(d, false) && LoadSpec(d2, false) == LoadSpec(d, false)
      && LoadSpec(d3, false) == Refused && LoadSpec(d4, false) == Loaded(s)
  {
  }

  // ------------------------------------------------------------ the pre-trade gate

  datatype GateConfig = GateConfig(
    maxDrawdown: real, minEquityFloor: real, maxDailyLoss: real, maxRetries: nat)
  {
    predicate Valid() {
      0.0 < maxDrawdown < 1.0 && minEquityFloor >= 0.0 && 0.0 < maxDailyLoss < 1.0 && maxRetries >= 1
    }
  }

  datatype Gate = Open | StandDown | HardKill

  function Drawdown(prior: EngineState, equity: real, flows: real): real {
    var peak := MaxR(prior.peakEquity + flows, equity);
    if peak <= 0.0 then 0.0 else (peak - equity) / peak
  }

  function DailyReturn(prior: EngineState, equity: real, today: int, flows: real): real {
    if prior.lastEquity > 0.0 && prior.lastEquityDate != Some(today) then (equity - flows) / prior.lastEquity - 1.0 else 0.0
  }

  function PreTrade(cfg: GateConfig, prior: EngineState, equity: real, today: int, flows: real): Gate {
    if prior.peakEquity >= cfg.minEquityFloor && equity < cfg.minEquityFloor then HardKill
    else if Drawdown(prior, equity, flows) > cfg.maxDrawdown then HardKill
    else if DailyReturn(prior, equity, today, flows) < -cfg.maxDailyLoss then StandDown
    else Open
  }

  lemma DivisionExceeds(loss: real, peak: real, limit: real)
    requires peak > 0.0
    ensures loss / peak > limit <==> loss > limit * peak
  {
    var q := loss / peak;
    assert q * peak == loss;
    var gap := q - limit;
    assert gap * peak == loss - limit * peak;
    if gap > 0.0 {
      assert gap * peak > 0.0;
    } else {
      MulMono(gap, 0.0, peak);
    }
  }

  /** A deposit cannot mask a daily loss: added to equity and declared, it leaves the daily return alone. */
  lemma DepositKeepsDailyReturn(prior: EngineState, equity: real, today: int, deposit: real)
    ensures DailyReturn(prior, equity + deposit, today, deposit) == DailyReturn(prior, equity, today, 0.0)
  {
  }

  /**
   It does create drawdown headroom, which the gate's documentation denies: below the peak, the loss
   that kills grows from the limit times the old peak to the limit times the peak plus the deposit.
   The two verdicts on drawdown agree exactly when the loss is outside that gap.
   */
  lemma DepositWidensDrawdown(cfg: GateConfig, prior: EngineState, equity: real, deposit: real)
    requires cfg.Valid() && deposit >= 0.0 && prior.peakEquity > 0.0 && equity <= prior.peakEquity
    ensures var before := Drawdown(prior, equity, 0.0) > cfg.maxDrawdown;
      var after := Drawdown(prior, equity + deposit, deposit) > cfg.maxDrawdown;
      (before == after) <==>
        !(cfg.maxDrawdown * prior.peakEquity < prior.peakEquity - equity <= cfg.maxDrawdown * (prior.peakEquity + deposit))
  {
    var loss := prior.peakEquity - equity;
    DivisionExceeds(loss, prior.peakEquity, cfg.maxDrawdown);
    DivisionExceeds(loss, prior.peakEquity + deposit, cfg.maxDrawdown);
    assert cfg.maxDrawdown * prior.peakEquity <= cfg.maxDrawdown * (prior.peakEquity + deposit);
    assert Drawdown(prior, equity, 0.0) == loss / prior.peakEquity;
    assert Drawdown(prior, equity + deposit, deposit) == loss / (prior.peakEquity + deposit);
  }

  /** A concrete masked kill: thirty down from a hundred, with fifty paid in. */
  lemma DepositMasksKill()
    ensures var cfg := GateConfig(0.25, 0.0, 0.5, 1);
      var prior := DEFAULTS.(peakEquity := 100.0);
      && PreTrade(cfg, prior, 70.0, 0, 0.0) == HardKill
      && PreTrade(cfg, prior, 120.0, 0, 50.0) == Open
  {
    assert 30.0 / 100.0 > 0.25 && 30.0 / 150.0 <= 0.25;
  }

  // ------------------------------------------------------------ one undisturbed cycle

  /**
   What the venue and the strategy contribute to one cycle: the account before and after, whether the
   price checks pass, whether the strategy or the order computation refuses its data after the gate,
   whether the target yields orders, whether a holding of the re-read book lacks a usable price and whether
   that book has converged.
   */
  datatype CycleInput = CycleInput(
    today: int, period: int, flows: real, equity: real, holdsAnything: bool, pricesOk: bool, decisionDay: bool,
    dataRefused: bool, hasOrders: bool, unpricedAfter: bool, convergedAfter: bool, equityAfter: real, positionsAfter: map<string, real>, cashAfter: real)

  datatype Trading = NothingSent | Liquidated | Rebalanced

  /** `Failed` is an error after the orders have gone out: nothing is saved. */
  datatype CycleResult = Aborted | Failed(sent: Trading) | Done(sent: Trading, next: EngineState)

  /** Convergence cannot be judged on the re-read account: the source raises. */
  predicate Unjudged(c: CycleInput) {
    c.equityAfter <= 0.0 || c.unpricedAfter
  }

  function Flows(prior: EngineState, c: CycleInput): real {
    if prior.lastEquityDate == Some(c.today) then 0.0 else c.flows
  }

  /** Retries belong to one period; a new period starts clean. */
  function ForPeriod(s: EngineState, period: int): EngineState {
    if s.retryPeriod == Some(period) then s else s.(retryPeriod := Some(period), retries := 0)
  }

  /** The rebalance goes out: open period, orders to send, retries left. */
  predicate SendsRebalance(cfg: GateConfig, s: EngineState, c: CycleInput) {
    s.lastCompletedPeriod != Some(c.period) && c.hasOrders && ForPeriod(s, c.period).retries < cfg.maxRetries
  }

  /** Completion is convergence, never an order count; a rebalance that did not converge costs one retry. */
  function AfterDecision(s: EngineState, c: CycleInput, traded: bool): EngineState {
    if c.convergedAfter then s.(lastCompletedPeriod := Some(c.period), retries := 0)
    else if traded then s.(retries := s.retries + 1)
    else s
  }

  /** The closing overwrite: deposits raise the peak one for one. */
  function Closed(s: EngineState, c: CycleInput, flows: real): EngineState {
    s.(peakEquity := MaxR(s.peakEquity + MaxR(flows, 0.0), c.equityAfter), lastEquity := c.equityAfter,
       lastEquityDate := Some(c.today), positions := c.positionsAfter, cash := c.cashAfter)
  }

  function CycleSpec(cfg: GateConfig, prior: EngineState, c: CycleInput): CycleResult {
    if prior.halted || !c.pricesOk || Flows(prior, c) < 0.0 then Aborted
    else
      match PreTrade(cfg, prior, c.equity, c.today, Flows(prior, c))
      case HardKill =>
        Done(if c.holdsAnything then Liquidated else NothingSent, Closed(prior.(halted := true), c, Flows(prior, c)))
      case StandDown => Done(NothingSent, Closed(prior, c, Flows(prior, c)))
      case Open =>
        if !c.decisionDay || c.equity <= 0.0 then Done(NothingSent, Closed(prior, c, Flows(prior, c)))
        else if c.dataRefused then Aborted
        else
          var traded := SendsRebalance(cfg, prior, c);
          var sent := if traded then Rebalanced else NothingSent;
          if Unjudged(c) then Failed(sent)
          else Done(sent, Closed(AfterDecision(ForPeriod(prior, c.period), c, traded), c, Flows(prior, c)))
  }

  /** What a cycle sends, whether or not it comes to its end. */
  function Orders(r: CycleResult): seq<Trading> {
    if r.Aborted? || r.sent == NothingSent then [] else [r.sent]
  }

  /** What the cycle leaves on disk; a kill is on disk before anything is liquidated. */
  function DiskAfter(cfg: GateConfig, d: Disk, c: CycleInput): Disk {
    match LoadSpec(d, false)
    case Refused => d
    case Loaded(prior) =>
      match CycleSpec(cfg, prior, c)
      case Done(_, next) => if next.halted then Saved(Saved(d, prior.(halted := true)), next) else Saved(d, next)
      case _ => d
  }

  class Runner {
    const cfg: GateConfig
    const store: StateFile
    var sent: seq<Trading>

    constructor (cfg: GateConfig, store: StateFile)
      ensures this.cfg == cfg && this.store == store && sent == []
    {
      this.cfg, this.store, sent := cfg, store, [];
    }

    /** One daily cycle; `ok` is false when it raises: unreadable or halted state, bad data, an account it cannot judge. */
    method RunCycle(c: CycleInput) returns (ok: bool)
      modifies this`sent, store
      ensures store.View() == DiskAfter(cfg, old(store.View()), c)
      ensures var before := LoadSpec(old(store.View()), false);
        && (ok <==> before.Loaded? && CycleSpec(cfg, before.state, c).Done?)
        && sent == old(sent) + if before.Loaded? then Orders(CycleSpec(cfg, before.state, c)) else []
    {
      hide PreTrade, Saved;
      var prior := store.Load(false);
      if prior.Refused? || prior.state.halted || !c.pricesOk {
        return false;
      }
      var state := prior.state;
      var flows := if state.lastEquityDate == Some(c.today) then 0.0 else c.flows;
      if flows < 0.0 {
        return false;
      }
      var gate := PreTrade(cfg, state, c.equity, c.today, flows);
      var traded := false;
      if gate == HardKill {
        state := state.(halted := true);
        store.Save(state);
        if c.holdsAnything {
          sent := sent + [Liquidated];
        }
      } else if gate == Open && c.decisionDay && c.equity > 0.0 {
        if c.dataRefused {
          return false;
        }
        if state.retryPeriod != Some(c.period) {
          state := state.(retryPeriod := Some(c.period), retries := 0);
        }
        if state.lastCompletedPeriod != Some(c.period) && c.hasOrders && state.retries < cfg.maxRetries {
          sent := sent + [Rebalanced];
          traded := true;
        }
        if c.equityAfter <= 0.0 || c.unpricedAfter {
          return false;
        }
        if c.convergedAfter {
          state := state.(lastCompletedPeriod := Some(c.period), retries := 0);
        } else if traded {
          state := state.(retries := state.retries + 1);
        }
      }
      state := state.(peakEquity := MaxR(state.peakEquity + MaxR(flows, 0.0), c.equityAfter), lastEquity := c.equityAfter,
                      lastEquityDate := Some(c.today), positions := c.positionsAfter, cash := c.cashAfter);
      store.Save(state);
      ok := true;
    }
  }

  // ------------------------------------------------------------ many cycles

  /** The state after a run of undisturbed cycles. */
  function StateAfter(cfg: GateConfig, s: EngineState, cs: seq<CycleInput>): EngineState {
    if |cs| == 0 then s
    else
      var before := StateAfter(cfg, s, cs[..|cs| - 1]);
      match CycleSpec(cfg, before, cs[|cs| - 1])
      case Done(_, next) => next
      case _ => before
  }

  /** Rebalances sent for one period. */
  function Rebalances(cfg: GateConfig, s: EngineState, cs: seq<CycleInput>, period: int): nat {
    if |cs| == 0 then 0
    else
      var last := cs[|cs| - 1];
      var result := CycleSpec(cfg, StateAfter(cfg, s, cs[..|cs| - 1]), last);
      Rebalances(cfg, s, cs[..|cs| - 1], period) + if Orders(result) == [Rebalanced] && last.period == period then 1 else 0
  }

  /** Those of them whose cycle failed before its save. */
  function Unsaved(cfg: GateConfig, s: EngineState, cs: seq<CycleInput>, period: int): nat {
    if |cs| == 0 then 0
    else
      var last := cs[|cs| - 1];
      var result := CycleSpec(cfg, StateAfter(cfg, s, cs[..|cs| - 1]), last);
      Unsaved(cfg, s, cs[..|cs| - 1], period)
      + if result.Failed? && Orders(result) == [Rebalanced] && last.period == period then 1 else 0
  }

  ghost predicate PeriodsInOrder(cs: seq<CycleInput>) {
    forall i, j :: 0 <= i < j < |cs| ==> cs[i].period <= cs[j].period
  }

  lemma {:induction false} NoneElsewhere(cfg: GateConfig, s: EngineState, cs: seq<CycleInput>, period: int)
    requires forall i :: 0 <= i < |cs| ==> cs[i].period != period
    ensures Rebalances(cfg, s, cs, period) == 0 == Unsaved(cfg, s, cs, period)
  {
    if |cs| > 0 {
      NoneElsewhere(cfg, s, cs[..|cs| - 1], period);
    }
  }

  /** Until the period is over, its rebalances are covered by the retry counter or it has converged. */
  ghost predicate RetriesCover(now: EngineState, n: nat, period: int) {
    n == 0 || now.lastCompletedPeriod == Some(period) || (now.retryPeriod == Some(period) && n <= now.retries)
  }

  lemma CycleKeepsCover(cfg: GateConfig, s: EngineState, c: CycleInput, n: nat, period: int)
    requires RetriesCover(s, n, period) && n <= cfg.maxRetries && c.period == period
    ensures var result := CycleSpec(cfg, s, c);
      var m := n + if result.Done? && result.sent == Rebalanced then 1 else 0;
      m <= cfg.maxRetries && RetriesCover(if result.Done? then result.next else s, m, period)
  {
    hide PreTrade;
  }

  /**
   In any run of cycles whose periods do not go back, one period sees at most `maxRetries` rebalances
   besides those whose cycle raised before its save.
   */
  lemma {:induction false} RebalancesBounded(cfg: GateConfig, s: EngineState, cs: seq<CycleInput>, period: int)
    requires PeriodsInOrder(cs)
    ensures Unsaved(cfg, s, cs, period) <= Rebalances(cfg, s, cs, period) <= cfg.maxRetries + Unsaved(cfg, s, cs, period)
    ensures (forall i :: 0 <= i < |cs| ==> cs[i].period <= period) ==>
      RetriesCover(StateAfter(cfg, s, cs), Rebalances(cfg, s, cs, period) - Unsaved(cfg, s, cs, period), period)
  {
    if |cs| > 0 {
      var n := |cs| - 1;
      RebalancesBounded(cfg, s, cs[..n], period);
      hide PreTrade, Closed, CycleSpec, RetriesCover;
      if cs[n].period == period {
        CycleKeepsCover(cfg, StateAfter(cfg, s, cs[..n]), cs[n],
                        Rebalances(cfg, s, cs[..n], period) - Unsaved(cfg, s, cs[..n], period), period);
      } else if cs[n].period < period {
        NoneElsewhere(cfg, s, cs, period);
        NothingToCover(StateAfter(cfg, s, cs), period);
      }
    } else {
      NothingToCover(s, period);
    }
  }

  lemma NothingToCover(s: EngineState, period: int)
    ensures RetriesCover(s, 0, period)
  {
  }

  /** Once halted, a cycle aborts: no order, nothing written, for ever. */
  lemma {:induction false} HaltedForever(cfg: GateConfig, s: EngineState, cs: seq<CycleInput>)
    requires s.halted
    ensures StateAfter(cfg, s, cs) == s
  {
    if |cs| > 0 {
      HaltedForever(cfg, s, cs[..|cs| - 1]);
    }
  }

  // ------------------------------------------------------------ verdicts and cycles in plain figures

  /** Below an armed floor, or down from the flow-adjusted peak by more than the limit's share of it. */
  ghost predicate Killed(cfg: GateConfig, prior: EngineState, equity: real, flows: real) {
    var peak := if prior.peakEquity + flows < equity then equity else prior.peakEquity + flows;
    || (prior.peakEquity >= cfg.minEquityFloor && equity < cfg.minEquityFloor)
    || (peak > 0.0 && peak - equity > cfg.maxDrawdown * peak)
  }

  /** Without its deposits the account has lost more than the daily limit's share of another day's equity. */
  ghost predicate LostToday(cfg: GateConfig, prior: EngineState, equity: real, today: int, flows: real) {
    && prior.lastEquity > 0.0 && prior.lastEquityDate != Some(today)
    && prior.lastEquity - (equity - flows) > cfg.maxDailyLoss * prior.lastEquity
  }

  /** The gate kills, stands down or opens exactly by these inequalities, the kill first. */
  lemma VerdictExactly(cfg: GateConfig, prior: EngineState, equity: real, today: int, flows: real)
    requires cfg.Valid()
    ensures var v := PreTrade(cfg, prior, equity, today, flows);
      && (v == HardKill <==> Killed(cfg, prior, equity, flows))
      && (v == StandDown <==> !Killed(cfg, prior, equity, flows) && LostToday(cfg, prior, equity, today, flows))
      && (v == Open <==> !Killed(cfg, prior, equity, flows) && !LostToday(cfg, prior, equity, today, flows))
  {
    var peak := MaxR(prior.peakEquity + flows, equity);
    if peak > 0.0 { DivisionExceeds(peak - equity, peak, cfg.maxDrawdown); }
    if prior.lastEquity > 0.0 {
      var kept := equity - flows;
      LossOfReturn(kept, prior.lastEquity);
      DivisionExceeds(prior.lastEquity - kept, prior.lastEquity, cfg.maxDailyLoss);
    }
  }

  lemma LossOfReturn(kept: real, last: real)
    requires last > 0.0
    ensures kept / last - 1.0 == -((last - kept) / last)
  {
    var q := kept / last;
    var l := (last - kept) / last;
    assert q * last == kept && l * last == last - kept;
    ZeroFactor(q + l - 1.0, last);
  }

  lemma ZeroFactor(a: real, k: real)
    requires k > 0.0 && a * k == 0.0
    ensures a == 0.0
  {
  }

  /** What the gate and the closing figures count as deposited: nothing on a second cycle of the same day. */
  ghost predicate NewFlows(prior: EngineState, c: CycleInput, flows: real) {
    flows == if prior.lastEquityDate == Some(c.today) then 0.0 else c.flows
  }

  /** The cycle gets as far as a decision: allowed to run, neither killed nor stood down, on a decision day with capital. */
  ghost predicate ReachesDecision(cfg: GateConfig, prior: EngineState, c: CycleInput, flows: real) {
    && !prior.halted && c.pricesOk && flows >= 0.0
    && !Killed(cfg, prior, c.equity, flows) && !LostToday(cfg, prior, c.equity, c.today, flows)
    && c.decisionDay && c.equity > 0.0
  }

  /** The retries already spent on the cycle's period. */
  ghost function Spent(prior: EngineState, c: CycleInput): nat {
    if prior.retryPeriod == Some(c.period) then prior.retries else 0
  }

  /**
   What a cycle sends, exactly: a rebalance when it reaches a decision on good data for a period that has not
   converged, with orders to send and retries left; a liquidation when the gate kills an account with holdings;
   otherwise nothing. A day stood down sends nothing.
   */
  lemma CycleSendsExactly(cfg: GateConfig, prior: EngineState, c: CycleInput, flows: real)
    requires cfg.Valid() && NewFlows(prior, c, flows)
    ensures var sent := Orders(CycleSpec(cfg, prior, c));
      && (sent == [Rebalanced] <==>
            && ReachesDecision(cfg, prior, c, flows) && !c.dataRefused
            && prior.lastCompletedPeriod != Some(c.period) && c.hasOrders && Spent(prior, c) < cfg.maxRetries)
      && (sent == [Liquidated] <==>
            !prior.halted && c.pricesOk && flows >= 0.0 && Killed(cfg, prior, c.equity, flows) && c.holdsAnything)
      && (sent == [Rebalanced] || sent == [Liquidated] || sent == [])
      && (!Killed(cfg, prior, c.equity, flows) && LostToday(cfg, prior, c.equity, c.today, flows) ==> sent == [])
  {
    hide PreTrade, Killed, LostToday, Closed, AfterDecision;
    VerdictExactly(cfg, prior, c.equity, c.today, flows);
  }

  /** Every field a completed cycle leaves. */
  lemma CycleStateExactly(cfg: GateConfig, prior: EngineState, c: CycleInput, flows: real)
    requires cfg.Valid() && NewFlows(prior, c, flows) && CycleSpec(cfg, prior, c).Done?
    ensures var next := CycleSpec(cfg, prior, c).next; var decides := ReachesDecision(cfg, prior, c, flows);
      var rebalanced := Orders(CycleSpec(cfg, prior, c)) == [Rebalanced];
      && (next.halted <==> Killed(cfg, prior, c.equity, flows))
      && next.lastCompletedPeriod == (if decides && c.convergedAfter then Some(c.period) else prior.lastCompletedPeriod)
      && next.retryPeriod == (if decides then Some(c.period) else prior.retryPeriod)
      && next.retries == (if !decides then prior.retries
                          else if c.convergedAfter then 0
                          else if rebalanced then Spent(prior, c) + 1 else Spent(prior, c))
      && next.peakEquity == (if prior.peakEquity + flows < c.equityAfter then c.equityAfter else prior.peakEquity + flows)
      && next.lastEquity == c.equityAfter && next.lastEquityDate == Some(c.today)
      && next.positions == c.positionsAfter && next.cash == c.cashAfter
  {
    hide PreTrade, Killed, LostToday;
    VerdictExactly(cfg, prior, c.equity, c.today, flows);
  }

  /** When a cycle is refused or fails: nothing is saved, and only a failed one may have sent its rebalance. */
  lemma CycleEndsExactly(cfg: GateConfig, prior: EngineState, c: CycleInput, flows: real)
    requires cfg.Valid() && NewFlows(prior, c, flows)
    ensures var r := CycleSpec(cfg, prior, c); var decides := ReachesDecision(cfg, prior, c, flows);
      && (r.Aborted? <==> prior.halted || !c.pricesOk || flows < 0.0 || (decides && c.dataRefused))
      && (r.Failed? <==> decides && !c.dataRefused && (c.equityAfter <= 0.0 || c.unpricedAfter))
  {
    hide PreTrade, Killed, LostToday, Closed, AfterDecision;
    VerdictExactly(cfg, prior, c.equity, c.today, flows);
  }

  /** A load gives the main file's state, or a fresh start when there is neither main file nor backup and one is allowed. */
  lemma LoadsExactly(d: Disk, allowFresh: bool)
    ensures var r := LoadSpec(d, allowFresh);
      && (r.Loaded? <==> (d.main.Some? && d.main.value.Good?) || (d.main.None? && d.backup.None? && allowFresh))
      && (r.Loaded? ==> r.state == if d.main.Some? then d.main.value.state else DEFAULTS)
  {
  }
}
