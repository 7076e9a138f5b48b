/**
 The daily cycle cut into its durable steps: every file operation of every save and every order is
 one event, and the process may die between any two. A kill survives all of it.
 */
module CrashSafety {
  import opened Common
  import opened DurableState

  datatype OrderKind = LiquidationOrder | RebalanceOrder

  /** Where the process is; a save in progress carries the state and the steps already done. */
  datatype At =
    | Off
    | HasState(c: CycleInput, prior: EngineState)
    | SavingKill(c: CycleInput, state: EngineState, done: nat)
    | Liquidating(c: CycleInput, state: EngineState)
    | Rebalancing(c: CycleInput, state: EngineState)
    | Closing(c: CycleInput, state: EngineState)
    | SavingEnd(state: EngineState, done: nat)

  /** `completed` is the state of the last save that reached its rename. */
  datatype World = World(disk: Disk, at: At, sent: seq<OrderKind>, completed: Option<EngineState>)

  datatype Event =
    | StartCycle(c: CycleInput)
    | Proceed
    | SendOrder
    | Crash
    | CorruptMain
    | HumanRestore

  function StepOf(done: nat): SaveStep {
    if done == 0 then OpenTemp else if done == 1 then WriteTemp else if done == 2 then SetAside else Rename
  }

  /** One step of a save, and what the world is once the rename has happened. */
  function SaveOne(w: World, s: EngineState, done: nat, finished: At, later: At): World {
    var disk := SaveEffect(w.disk, s, StepOf(done));
    if done >= 3 then w.(disk := disk, at := finished, completed := Some(s)) else w.(disk := disk, at := later)
  }

  function Advance(cfg: GateConfig, w: World): World {
    match w.at
    case Off => w
    case HasState(c, prior) =>
      if !c.pricesOk || Flows(prior, c) < 0.0 then w.(at := Off)
      else
        var gate := PreTrade(cfg, prior, c.equity, c.today, Flows(prior, c));
        if gate == HardKill then w.(at := SavingKill(c, prior.(halted := true), 0))
        else if gate == Open && c.decisionDay && c.equity > 0.0 then
          if c.dataRefused then w.(at := Off)
          else if SendsRebalance(cfg, prior, c) then w.(at := Rebalancing(c, ForPeriod(prior, c.period)))
          else if Unjudged(c) then w.(at := Off)
          else w.(at := Closing(c, AfterDecision(ForPeriod(prior, c.period), c, false)))
        else w.(at := Closing(c, prior))
    case SavingKill(c, s, done) => SaveOne(w, s, done, Liquidating(c, s), SavingKill(c, s, done + 1))
    case Liquidating(c, s) => w.(at := Closing(c, s))
    case Rebalancing(c, s) => if Unjudged(c) then w.(at := Off) else w.(at := Closing(c, AfterDecision(s, c, true)))
    case Closing(c, s) => w.(at := SavingEnd(Closed(s, c, Flows(s, c)), 0))
    case SavingEnd(s, done) => SaveOne(w, s, done, Off, SavingEnd(s, done + 1))
  }

  function Next(cfg: GateConfig, w: World, e: Event): World {
    match e
    case StartCycle(c) =>
      if w.at != Off then w
      else
        (match LoadSpec(w.disk, false)
         case Refused => w
         case Loaded(prior) => if prior.halted then w else w.(at := HasState(c, prior)))
    case Proceed => Advance(cfg, w)
    case SendOrder =>
      if w.at.Liquidating? then w.(sent := w.sent + [LiquidationOrder])
      else if w.at.Rebalancing? then w.(sent := w.sent + [RebalanceOrder])
      else w
    case Crash => w.(at := Off)
    case CorruptMain => if w.disk.main.Some? then w.(disk := w.disk.(main := Some(Torn))) else w
    case HumanRestore => if w.at == Off then w.(disk := w.disk.(main := w.disk.backup)) else w
  }

  function After(cfg: GateConfig, w: World, events: seq<Event>): World {
    if |events| == 0 then w else Next(cfg, After(cfg, w, events[..|events| - 1]), events[|events| - 1])
  }

  /** A bootstrapped installation: one completed save of the defaults. */
  const BOOTSTRAPPED := World(Saved(Disk(None, None, None), DEFAULTS), Off, [], Some(DEFAULTS))

  // ------------------------------------------------------------ the invariant

  predicate CompletedHalt(w: World) {
    w.completed.Some? && w.completed.value.halted
  }

  /** What is on the main file, and what the temp file must hold before the rename. */
  ghost predicate DiskFaithful(w: World) {
    && (w.disk.main.Some? && w.disk.main.value.Good? ==> Some(w.disk.main.value.state) == w.completed)
    && (w.at.SavingKill? && w.at.done >= 2 ==> w.disk.temp == Some(Good(w.at.state)))
    && (w.at.SavingEnd? && w.at.done >= 2 ==> w.disk.temp == Some(Good(w.at.state)))
  }

  /** A halt that is on disk is in the process's hands too; before that, only the kill's own save carries it. */
  ghost predicate HaltCarried(w: World) {
    match w.at
    case Off => true
    case HasState(_, prior) => !CompletedHalt(w) && !prior.halted
    case SavingKill(_, s, _) => !CompletedHalt(w) && s.halted
    case Liquidating(_, s) => CompletedHalt(w) && s.halted
    case Rebalancing(_, s) => !CompletedHalt(w)
    case Closing(_, s) => CompletedHalt(w) ==> s.halted
    case SavingEnd(s, _) => CompletedHalt(w) ==> s.halted
  }

  ghost predicate Inv(w: World) {
    DiskFaithful(w) && HaltCarried(w)
  }

  lemma StepKeepsInv(cfg: GateConfig, w: World, e: Event)
    requires Inv(w) && !e.HumanRestore?
    ensures Inv(Next(cfg, w, e))
    ensures CompletedHalt(w) ==> CompletedHalt(Next(cfg, w, e))
  {
    hide PreTrade, SendsRebalance;
  }

  ghost predicate NoRestore(events: seq<Event>) {
    forall i :: 0 <= i < |events| ==> !events[i].HumanRestore?
  }

  lemma {:induction false} RunKeepsInv(cfg: GateConfig, w: World, events: seq<Event>)
    requires Inv(w) && NoRestore(events)
    ensures Inv(After(cfg, w, events))
    ensures CompletedHalt(w) ==> CompletedHalt(After(cfg, w, events))
  {
    if |events| > 0 {
      RunKeepsInv(cfg, w, events[..|events| - 1]);
      hide Inv, Next, CompletedHalt;
      StepKeepsInv(cfg, After(cfg, w, events[..|events| - 1]), events[|events| - 1]);
    }
  }

  // ------------------------------------------------------------ main results

  /**
   Whatever was interrupted, corrupted or restarted, a load returns exactly the state of the last save
   that completed, or refuses; it never returns defaults, a torn save or an older state.
   */
  lemma LoadIsLastCompletedSave(cfg: GateConfig, events: seq<Event>)
    requires NoRestore(events)
    ensures var w := After(cfg, BOOTSTRAPPED, events);
      LoadSpec(w.disk, false) == Refused || (w.completed.Some? && LoadSpec(w.disk, false) == Loaded(w.completed.value))
  {
    RunKeepsInv(cfg, BOOTSTRAPPED, events);
  }

  /** Every liquidation order leaves after a halted state has been completely saved. */
  lemma LiquidationFollowsDurableHalt(cfg: GateConfig, events: seq<Event>, e: Event)
    requires NoRestore(events) && !e.HumanRestore?
    ensures var w := After(cfg, BOOTSTRAPPED, events); var r := Next(cfg, w, e);
      |r.sent| > |w.sent| && r.sent[|r.sent| - 1] == LiquidationOrder ==> CompletedHalt(w)
  {
    RunKeepsInv(cfg, BOOTSTRAPPED, events);
    hide PreTrade, SendsRebalance, Saved;
  }

  /** Inside the cycle that killed, only liquidation orders can still leave. */
  lemma AfterHaltOnlyLiquidation(cfg: GateConfig, w: World, e: Event)
    requires Inv(w) && CompletedHalt(w)
    ensures Next(cfg, w, e).sent == w.sent || Next(cfg, w, e).sent == w.sent + [LiquidationOrder]
  {
    hide PreTrade, SendsRebalance;
  }

  /**
   Once a halted state is durable and the killing cycle is over, or has died, no later cycle sends
   anything, however many are started, crashed or fed corrupted files.
   */
  lemma {:induction false} NoOrderAfterDurableHalt(cfg: GateConfig, w: World, events: seq<Event>)
    requires Inv(w) && CompletedHalt(w) && w.at == Off && NoRestore(events)
    ensures After(cfg, w, events).sent == w.sent && After(cfg, w, events).at == Off
  {
    if |events| > 0 {
      NoOrderAfterDurableHalt(cfg, w, events[..|events| - 1]);
      RunKeepsInv(cfg, w, events[..|events| - 1]);
    }
  }

  /** The bootstrapped world satisfies the invariant, so the results above hold of every run from it. */
  lemma BootstrapInv()
    ensures Inv(BOOTSTRAPPED) && LoadSpec(BOOTSTRAPPED.disk, false) == Loaded(DEFAULTS)
  {
  }

  // ------------------------------------------------------------ the cycle alone

  /** `n` steps of the process with nothing in between. */
  function Proceeding(cfg: GateConfig, w: World, n: nat): World {
    if n == 0 then w else Advance(cfg, Proceeding(cfg, w, n - 1))
  }

  lemma {:induction false} ProceedingSplits(cfg: GateConfig, w: World, m: nat, n: nat)
    ensures Proceeding(cfg, w, m + n) == Proceeding(cfg, Proceeding(cfg, w, m), n)
  {
    if n > 0 {
      hide Advance;
      ProceedingSplits(cfg, w, m, n - 1);
    }
  }

  lemma {:induction false} OffIdles(cfg: GateConfig, w: World, n: nat)
    requires w.at == Off
    ensures Proceeding(cfg, w, n) == w
  {
    if n > 0 {
      OffIdles(cfg, w, n - 1);
    }
  }

  lemma ClosingAlone(cfg: GateConfig, w: World)
    requires w.at.Closing?
    ensures var s := Closed(w.at.state, w.at.c, Flows(w.at.state, w.at.c));
      Proceeding(cfg, w, 5) == w.(at := Off, disk := Saved(w.disk, s), completed := Some(s))
  {
    hide Closed, Flows;
    var s := Closed(w.at.state, w.at.c, Flows(w.at.state, w.at.c));
    assert Proceeding(cfg, w, 1) == w.(at := SavingEnd(s, 0));
    assert Proceeding(cfg, w, 2) == w.(at := SavingEnd(s, 1), disk := SaveEffect(w.disk, s, OpenTemp));
    assert Proceeding(cfg, w, 3).at == SavingEnd(s, 2);
    assert Proceeding(cfg, w, 4).at == SavingEnd(s, 3);
  }

  lemma KillSaveAlone(cfg: GateConfig, w: World)
    requires w.at.SavingKill? && w.at.done == 0
    ensures Proceeding(cfg, w, 5)
         == w.(at := Closing(w.at.c, w.at.state), disk := Saved(w.disk, w.at.state), completed := Some(w.at.state))
  {
    var c, s := w.at.c, w.at.state;
    assert Proceeding(cfg, w, 1) == w.(at := SavingKill(c, s, 1), disk := SaveEffect(w.disk, s, OpenTemp));
    assert Proceeding(cfg, w, 2).at == SavingKill(c, s, 2);
    assert Proceeding(cfg, w, 3).at == SavingKill(c, s, 3);
    assert Proceeding(cfg, w, 4).at == Liquidating(c, s);
  }

  lemma DecisionQuiet(s: EngineState, c: CycleInput, traded: bool)
    ensures var r := AfterDecision(ForPeriod(s, c.period), c, traded);
      r.halted == s.halted && Flows(r, c) == Flows(s, c)
  {
  }

  /** The disk after the cycle's part that follows the gate. */
  lemma TailAlone(cfg: GateConfig, w: World, n: nat)
    requires w.at.Closing?
    ensures var s := Closed(w.at.state, w.at.c, Flows(w.at.state, w.at.c));
      Proceeding(cfg, w, 5 + n) == w.(at := Off, disk := Saved(w.disk, s), completed := Some(s))
  {
    hide Advance, Closed, Saved;
    ClosingAlone(cfg, w);
    ProceedingSplits(cfg, w, 5, n);
    OffIdles(cfg, Proceeding(cfg, w, 5), n);
  }

  lemma KillAlone(cfg: GateConfig, w: World)
    requires w.at.SavingKill? && w.at.done == 0
    ensures var s := Closed(w.at.state, w.at.c, Flows(w.at.state, w.at.c)); var r := Proceeding(cfg, w, 10);
      r.at == Off && r.disk == Saved(Saved(w.disk, w.at.state), s)
  {
    hide Advance, Closed, Saved;
    KillSaveAlone(cfg, w);
    ProceedingSplits(cfg, w, 5, 5);
    TailAlone(cfg, Proceeding(cfg, w, 5), 0);
  }

  lemma RebalanceAlone(cfg: GateConfig, w: World)
    requires w.at.Rebalancing? && !Unjudged(w.at.c)
    ensures var t := AfterDecision(w.at.state, w.at.c, true); var r := Proceeding(cfg, w, 10);
      r.at == Off && r.disk == Saved(w.disk, Closed(t, w.at.c, Flows(t, w.at.c)))
  {
    hide Closed, Saved, AfterDecision, Flows;
    assert Proceeding(cfg, w, 1) == w.(at := Closing(w.at.c, AfterDecision(w.at.state, w.at.c, true))) by {
      assert Proceeding(cfg, w, 0) == w;
    }
    hide Advance;
    ProceedingSplits(cfg, w, 1, 9);
    TailAlone(cfg, Proceeding(cfg, w, 1), 4);
  }

  lemma RebalanceUnjudged(cfg: GateConfig, w: World)
    requires w.at.Rebalancing? && Unjudged(w.at.c)
    ensures Proceeding(cfg, w, 10) == w.(at := Off)
  {
    assert Proceeding(cfg, w, 1) == w.(at := Off) by {
      assert Proceeding(cfg, w, 0) == w;
    }
    hide Advance;
    ProceedingSplits(cfg, w, 1, 9);
    OffIdles(cfg, w.(at := Off), 9);
  }

  lemma FromState(cfg: GateConfig, w: World)
    requires w.at.HasState? && !w.at.prior.halted
    ensures var r := Proceeding(cfg, w, 11);
      && r.at == Off
      && r.disk == match CycleSpec(cfg, w.at.prior, w.at.c)
           case Done(_, next) =>
             if next.halted then Saved(Saved(w.disk, w.at.prior.(halted := true)), next) else Saved(w.disk, next)
           case _ => w.disk
  {
    hide PreTrade, Closed, Saved, SendsRebalance, AfterDecision, ForPeriod;
    var c, prior := w.at.c, w.at.prior;
    var w1 := Advance(cfg, w);
    assert Proceeding(cfg, w, 1) == w1 by { assert Proceeding(cfg, w, 0) == w; }
    ProceedingSplits(cfg, w, 1, 10);
    DecisionQuiet(prior, c, true);
    DecisionQuiet(prior, c, false);
    ClosedQuiet(prior, c);
    if w1.at == Off {
      OffIdles(cfg, w1, 10);
    } else if w1.at.SavingKill? {
      ClosedQuiet(prior.(halted := true), c);
      KillAlone(cfg, w1);
    } else if w1.at.Rebalancing? && Unjudged(c) {
      RebalanceUnjudged(cfg, w1);
    } else if w1.at.Rebalancing? {
      ClosedQuiet(AfterDecision(ForPeriod(prior, c.period), c, true), c);
      RebalanceAlone(cfg, w1);
    } else {
      ClosedQuiet(w1.at.state, c);
      TailAlone(cfg, w1, 5);
    }
  }

  lemma ClosedQuiet(s: EngineState, c: CycleInput)
    ensures forall flows :: Closed(s, c, flows).halted == s.halted
  {
  }

  /**
   With no crash and no corruption the steps add up to the cycle: eleven of them are always enough,
   and they leave the disk as the cycle's specification says.
   */
  lemma CycleAlone(cfg: GateConfig, w: World, c: CycleInput)
    requires w.at == Off
    ensures var r := Proceeding(cfg, Next(cfg, w, StartCycle(c)), 11);
      r.at == Off && r.disk == DiskAfter(cfg, w.disk, c)
  {
    hide PreTrade, Closed, Saved, SendsRebalance, AfterDecision, Advance, Proceeding;
    var w0 := Next(cfg, w, StartCycle(c));
    if w0.at == Off {
      OffIdles(cfg, w0, 11);
    } else {
      FromState(cfg, w0);
    }
  }

  // ------------------------------------------------------------ retries under crashes

  /**
   Counting one period over a run: rebalances begun, those of them a crash or an account that cannot be
   judged took before their save was complete, whether one is under way, and whether a later period's cycle
   has begun.
   */
  datatype Tally = Tally(begun: nat, lost: nat, open: bool, passed: bool)

  function CountOne(cfg: GateConfig, w: World, t: Tally, e: Event, period: int): Tally {
    match e
    case StartCycle(c) => if w.at == Off && Next(cfg, w, e).at.HasState? && c.period > period then t.(passed := true) else t
    case Proceed =>
      if w.at.HasState? && Next(cfg, w, e).at.Rebalancing? && w.at.c.period == period then t.(begun := t.begun + 1, open := true)
      else if w.at.Rebalancing? && t.open && Unjudged(w.at.c) then t.(lost := t.lost + 1, open := false)
      else if w.at.SavingEnd? && w.at.done >= 3 then t.(open := false)
      else t
    case Crash => if t.open then t.(lost := t.lost + 1, open := false) else t
    case _ => t
  }

  function Count(cfg: GateConfig, events: seq<Event>, period: int): Tally {
    if |events| == 0 then Tally(0, 0, false, false)
    else
      var n := |events| - 1;
      CountOne(cfg, After(cfg, BOOTSTRAPPED, events[..n]), Count(cfg, events[..n], period), events[n], period)
  }

  /** Cycles are started in calendar order. */
  ghost predicate StartsInOrder(events: seq<Event>) {
    forall i, j :: 0 <= i < j < |events| && events[i].StartCycle? && events[j].StartCycle? ==>
      events[i].c.period <= events[j].c.period
  }

  /** Some cycle of at least this period has been started. */
  ghost predicate Reached(events: seq<Event>, period: int) {
    exists i :: 0 <= i < |events| && events[i].StartCycle? && events[i].c.period >= period
  }

  /** The period of the cycle under way, while it still matters. */
  function PeriodAt(at: At, otherwise: int): int {
    match at
    case HasState(c, _) => c.period
    case SavingKill(c, _, _) => c.period
    case Liquidating(c, _) => c.period
    case Rebalancing(c, _) => c.period
    case Closing(c, _) => c.period
    case _ => otherwise
  }

  /** Whatever state is on its way to disk covers the period's rebalances but for the lost ones. */
  ghost predicate Covered(w: World, t: Tally, max: nat, period: int) {
    && t.lost <= t.begun <= t.lost + max && w.completed.Some?
    && var n := t.begun - t.lost;
       && (t.open ==> n >= 1 && (w.at.Rebalancing? || w.at.Closing? || w.at.SavingEnd?))
       && RetriesCover(w.completed.value, if t.open then n - 1 else n, period)
       && match w.at
          case Off => true
          case HasState(_, prior) => RetriesCover(prior, n, period)
          case SavingKill(_, s, _) => RetriesCover(s, n, period)
          case Liquidating(_, s) => RetriesCover(s, n, period)
          case Rebalancing(c, s) =>
            if t.open then c.period == period && s.retryPeriod == Some(period) && n <= s.retries + 1
            else c.period < period
          case Closing(_, s) => RetriesCover(s, n, period)
          case SavingEnd(s, _) => RetriesCover(s, n, period)
  }

  ghost predicate TallyInv(w: World, t: Tally, max: nat, period: int) {
    && (t.passed ==> !t.open && t.lost <= t.begun <= t.lost + max && PeriodAt(w.at, period + 1) > period)
    && (!t.passed ==> Covered(w, t, max, period) && PeriodAt(w.at, period) <= period
                      && (t.begun > 0 ==> PeriodAt(w.at, period) == period))
  }

  lemma DecisionCovers(s: EngineState, c: CycleInput, n: nat, period: int, traded: bool)
    requires n == 0 || c.period == period
    ensures RetriesCover(s, n, period) && (n > 0 || c.period != period) ==>
      RetriesCover(AfterDecision(ForPeriod(s, c.period), c, traded), n, period)
    ensures n == 0 ==> RetriesCover(AfterDecision(ForPeriod(s, c.period), c, traded), n, period)
  {
  }

  lemma ClosedCovers(s: EngineState, c: CycleInput, flows: real, n: nat, period: int)
    requires RetriesCover(s, n, period)
    ensures RetriesCover(Closed(s, c, flows), n, period)
  {
  }

  lemma ProceedTallied(cfg: GateConfig, w: World, t: Tally, period: int)
    requires Inv(w) && TallyInv(w, t, cfg.maxRetries, period)
    ensures TallyInv(Next(cfg, w, Proceed), CountOne(cfg, w, t, Proceed, period), cfg.maxRetries, period)
  {
    hide PreTrade, Closed, SaveEffect, Flows;
    match w.at {
      case HasState(c, prior) =>
        if !t.passed {
          DecisionCovers(prior, c, t.begun - t.lost, period, false);
        }
      case Rebalancing(c, s) =>
      case Closing(c, s) =>
        if !t.passed {
          ClosedCovers(s, c, Flows(s, c), t.begun - t.lost, period);
        }
      case _ =>
    }
  }

  lemma StartTallied(cfg: GateConfig, w: World, t: Tally, c: CycleInput, period: int)
    requires Inv(w) && TallyInv(w, t, cfg.maxRetries, period)
    requires (t.begun > 0 ==> c.period >= period) && (t.passed ==> c.period > period)
    ensures TallyInv(Next(cfg, w, StartCycle(c)), CountOne(cfg, w, t, StartCycle(c), period), cfg.maxRetries, period)
  {
    hide RetriesCover;
  }

  lemma OtherTallied(cfg: GateConfig, w: World, t: Tally, e: Event, period: int)
    requires TallyInv(w, t, cfg.maxRetries, period) && (e.SendOrder? || e.Crash? || e.CorruptMain?)
    ensures TallyInv(Next(cfg, w, e), CountOne(cfg, w, t, e, period), cfg.maxRetries, period)
  {
    hide RetriesCover;
  }

  lemma FreshTally(cfg: GateConfig, period: int)
    ensures TallyInv(BOOTSTRAPPED, Tally(0, 0, false, false), cfg.maxRetries, period)
  {
  }

  /** The cycle under way was started by one of the events. */
  ghost predicate Started(events: seq<Event>, at: At) {
    PeriodAt(at, 0) == PeriodAt(at, 1) ==> Reached(events, PeriodAt(at, 0))
  }

  lemma ReachedGrows(events: seq<Event>, period: int)
    requires |events| > 0
    ensures Reached(events[..|events| - 1], period) ==> Reached(events, period)
    ensures events[|events| - 1].StartCycle? && events[|events| - 1].c.period >= period ==> Reached(events, period)
  {
    var n := |events| - 1;
    if i :| 0 <= i < n && events[..n][i].StartCycle? && events[..n][i].c.period >= period {
      assert events[i].StartCycle? && events[i].c.period >= period;
    }
    if events[n].StartCycle? && events[n].c.period >= period {
      assert 0 <= n < |events|;
    }
  }

  lemma StartedGrows(cfg: GateConfig, w: World, events: seq<Event>)
    requires |events| > 0 && Started(events[..|events| - 1], w.at)
    ensures Started(events, Next(cfg, w, events[|events| - 1]).at)
  {
    hide Reached, PreTrade, SendsRebalance, AfterDecision, Closed, SaveEffect, Flows;
    var e := events[|events| - 1];
    ReachedGrows(events, PeriodAt(w.at, 0));
    if e.StartCycle? {
      ReachedGrows(events, e.c.period);
    }
  }

  lemma TallyReached(cfg: GateConfig, w: World, t: Tally, events: seq<Event>, period: int)
    requires |events| > 0 && Started(events[..|events| - 1], w.at)
    requires (t.begun > 0 ==> Reached(events, period)) && (t.passed ==> Reached(events, period + 1))
    ensures var r := CountOne(cfg, w, t, events[|events| - 1], period);
      (r.begun > 0 ==> Reached(events, period)) && (r.passed ==> Reached(events, period + 1))
  {
    hide Reached, PreTrade, SendsRebalance, AfterDecision, Closed, SaveEffect, Flows;
    var e := events[|events| - 1];
    ReachedGrows(events, PeriodAt(w.at, 0));
    ReachedGrows(events, period + 1);
  }

  lemma LaterStart(events: seq<Event>, period: int)
    requires |events| > 0 && StartsInOrder(events) && events[|events| - 1].StartCycle?
    requires Reached(events[..|events| - 1], period)
    ensures events[|events| - 1].c.period >= period
  {
  }

  lemma {:induction false} RunTallied(cfg: GateConfig, events: seq<Event>, period: int)
    requires NoRestore(events) && StartsInOrder(events)
    ensures var w, t := After(cfg, BOOTSTRAPPED, events), Count(cfg, events, period);
      && TallyInv(w, t, cfg.maxRetries, period) && Started(events, w.at)
      && (t.begun > 0 ==> Reached(events, period)) && (t.passed ==> Reached(events, period + 1))
  {
    hide Inv, Next, TallyInv, CountOne, Reached;
    if |events| == 0 {
      FreshTally(cfg, period);
    } else {
      var n := |events| - 1;
      var e := events[n];
      RunTallied(cfg, events[..n], period);
      BootstrapInv();
      RunKeepsInv(cfg, BOOTSTRAPPED, events[..n]);
      var w, t := After(cfg, BOOTSTRAPPED, events[..n]), Count(cfg, events[..n], period);
      ReachedGrows(events, period);
      ReachedGrows(events, period + 1);
      StartedGrows(cfg, w, events);
      TallyReached(cfg, w, t, events, period);
      hide Started, StartsInOrder;
      TallyStep(cfg, w, t, events, period);
    }
  }

  lemma TallyStep(cfg: GateConfig, w: World, t: Tally, events: seq<Event>, period: int)
    requires |events| > 0 && NoRestore(events) && StartsInOrder(events)
    requires Inv(w) && TallyInv(w, t, cfg.maxRetries, period)
    requires var before := events[..|events| - 1];
      (t.begun > 0 ==> Reached(before, period)) && (t.passed ==> Reached(before, period + 1))
    ensures var e := events[|events| - 1]; TallyInv(Next(cfg, w, e), CountOne(cfg, w, t, e, period), cfg.maxRetries, period)
  {
    hide Inv, Next, TallyInv, CountOne, Reached, StartsInOrder;
    var e := events[|events| - 1];
    if e.StartCycle? {
      if t.begun > 0 { LaterStart(events, period); }
      if t.passed { LaterStart(events, period + 1); }
      StartTallied(cfg, w, t, e.c, period);
    } else if e.Proceed? {
      ProceedTallied(cfg, w, t, period);
    } else {
      OtherTallied(cfg, w, t, e, period);
    }
  }

  /**
   Under any crashes and corruption, with cycles started in calendar order, one period begins at most the
   configured number of rebalances and one more for each that was lost between its orders and the end of
   its save.
   */
  lemma RetriesUnderCrashes(cfg: GateConfig, events: seq<Event>, period: int)
    requires NoRestore(events) && StartsInOrder(events)
    ensures Count(cfg, events, period).begun <= cfg.maxRetries + Count(cfg, events, period).lost
  {
    RunTallied(cfg, events, period);
    hide RetriesCover;
  }

  // ------------------------------------------------------------ the bound is attained

  /** The world and the count after some events, from given ones. */
  function Tallied(cfg: GateConfig, w: World, t: Tally, events: seq<Event>, period: int): (World, Tally) {
    if |events| == 0 then (w, t)
    else
      var (v, u) := Tallied(cfg, w, t, events[..|events| - 1], period);
      (Next(cfg, v, events[|events| - 1]), CountOne(cfg, v, u, events[|events| - 1], period))
  }

  lemma {:induction false} TalliedExtends(cfg: GateConfig, a: seq<Event>, b: seq<Event>, period: int)
    ensures (After(cfg, BOOTSTRAPPED, a + b), Count(cfg, a + b, period))
         == Tallied(cfg, After(cfg, BOOTSTRAPPED, a), Count(cfg, a, period), b, period)
  {
    hide Next, CountOne;
    if |b| == 0 {
      assert a + b == a;
    } else {
      assert (a + b)[..|a + b| - 1] == a + b[..|b| - 1];
      TalliedExtends(cfg, a, b[..|b| - 1], period);
    }
  }

  lemma OneMore(cfg: GateConfig, w: World, t: Tally, events: seq<Event>, n: nat, period: int)
    requires n < |events|
    ensures var (v, u) := Tallied(cfg, w, t, events[..n], period);
      Tallied(cfg, w, t, events[..n + 1], period) == (Next(cfg, v, events[n]), CountOne(cfg, v, u, events[n], period))
  {
    hide Next, CountOne;
    assert events[..n + 1][..n] == events[..n];
  }

  /** Any day just above the equity floor with orders to send and a book that does not converge. */
  function StubbornDay(cfg: GateConfig, period: int): CycleInput {
    var equity := cfg.minEquityFloor + 1.0;
    CycleInput(1, period, 0.0, equity, false, true, true, false, true, false, false, equity, map[], equity)
  }

  /** The state after `k` such days: nothing converged, `k` retries used. */
  function Retried(cfg: GateConfig, period: int, k: nat): EngineState {
    var equity := cfg.minEquityFloor + 1.0;
    if k == 0 then DEFAULTS else EngineState(false, equity, equity, Some(1), None, k, Some(period), map[], equity)
  }

  lemma StubbornGate(cfg: GateConfig, period: int, k: nat)
    requires cfg.Valid()
    ensures var c := StubbornDay(cfg, period); var s := Retried(cfg, period, k);
      Flows(s, c) == 0.0 && PreTrade(cfg, s, c.equity, c.today, 0.0) == Open
  {
    assert Drawdown(Retried(cfg, period, k), cfg.minEquityFloor + 1.0, 0.0) == 0.0;
  }

  lemma StubbornSends(cfg: GateConfig, period: int, k: nat, c: CycleInput)
    requires cfg.Valid() && k < cfg.maxRetries && c == StubbornDay(cfg, period)
    ensures SendsRebalance(cfg, Retried(cfg, period, k), c) && !Unjudged(c)
  {
  }

  const DYING := [Proceed, SendOrder, Crash]
  const WHOLE := [Proceed, SendOrder, Proceed, Proceed, Proceed, Proceed, Proceed, Proceed]

  /** A stubborn day's cycle up to its orders. */
  lemma SendsOnce(cfg: GateConfig, w: World, t: Tally, period: int, k: nat, rest: seq<Event>)
    requires cfg.Valid() && k < cfg.maxRetries && w.at == Off && LoadSpec(w.disk, false) == Loaded(Retried(cfg, period, k))
    requires !t.open && |rest| >= 2 && rest[0] == Proceed && rest[1] == SendOrder
    ensures var c := StubbornDay(cfg, period);
      Tallied(cfg, w, t, ([StartCycle(c)] + rest)[..3], period)
      == (w.(at := Rebalancing(c, ForPeriod(Retried(cfg, period, k), period)), sent := w.sent + [RebalanceOrder]),
          t.(begun := t.begun + 1, open := true))
  {
    hide PreTrade, SendsRebalance, ForPeriod, StubbornDay, Retried, Tallied;
    var c := StubbornDay(cfg, period);
    StubbornGate(cfg, period, k);
    StubbornSends(cfg, period, k, c);
    StubbornFields(cfg, period, k);
    var events := [StartCycle(c)] + rest;
    NoneYet(cfg, w, t, events, period);
    OneMore(cfg, w, t, events, 0, period);
    OneMore(cfg, w, t, events, 1, period);
    OneMore(cfg, w, t, events, 2, period);
  }

  lemma NoneYet(cfg: GateConfig, w: World, t: Tally, events: seq<Event>, period: int)
    ensures Tallied(cfg, w, t, events[..0], period) == (w, t)
  {
  }

  lemma StubbornFields(cfg: GateConfig, period: int, k: nat)
    ensures var c := StubbornDay(cfg, period);
      c.pricesOk && c.decisionDay && !c.dataRefused && c.period == period && c.equity == cfg.minEquityFloor + 1.0
    ensures !Retried(cfg, period, k).halted
  {
  }

  /** One that dies before saving: one begun, one lost, nothing on disk. */
  lemma DyingDay(cfg: GateConfig, w: World, t: Tally, period: int, k: nat)
    requires cfg.Valid() && k < cfg.maxRetries && w.at == Off && LoadSpec(w.disk, false) == Loaded(Retried(cfg, period, k))
    requires !t.open
    ensures Tallied(cfg, w, t, [StartCycle(StubbornDay(cfg, period))] + DYING, period)
         == (w.(sent := w.sent + [RebalanceOrder]), t.(begun := t.begun + 1, lost := t.lost + 1))
  {
    hide StubbornDay, Retried, ForPeriod, Tallied;
    var events := [StartCycle(StubbornDay(cfg, period))] + DYING;
    SendsOnce(cfg, w, t, period, k, DYING);
    OneMore(cfg, w, t, events, 3, period);
    assert events[..4] == events;
  }

  lemma RetrySaved(cfg: GateConfig, period: int, k: nat)
    requires cfg.Valid()
    ensures var c := StubbornDay(cfg, period); var s := AfterDecision(ForPeriod(Retried(cfg, period, k), period), c, true);
      !Unjudged(c) && Closed(s, c, Flows(s, c)) == Retried(cfg, period, k + 1)
  {
  }

  lemma {:induction false} TalliedSplits(cfg: GateConfig, w: World, t: Tally, a: seq<Event>, b: seq<Event>, period: int)
    ensures var (v, u) := Tallied(cfg, w, t, a, period); Tallied(cfg, w, t, a + b, period) == Tallied(cfg, v, u, b, period)
  {
    hide Next, CountOne;
    if |b| == 0 {
      assert a + b == a;
    } else {
      assert (a + b)[..|a + b| - 1] == a + b[..|b| - 1];
      TalliedSplits(cfg, w, t, a, b[..|b| - 1], period);
    }
  }

  const SETTLING := [Proceed, Proceed]
  const SAVING := [Proceed, Proceed, Proceed, Proceed]

  /** From the orders to the final state, without a save yet. */
  lemma Settles(cfg: GateConfig, w: World, t: Tally, period: int)
    requires w.at.Rebalancing? && !Unjudged(w.at.c)
    ensures var s := AfterDecision(w.at.state, w.at.c, true);
      Tallied(cfg, w, t, SETTLING, period) == (w.(at := SavingEnd(Closed(s, w.at.c, Flows(s, w.at.c)), 0)), t)
  {
    hide AfterDecision, Closed, Flows, Tallied;
    NoneYet(cfg, w, t, SETTLING, period);
    OneMore(cfg, w, t, SETTLING, 0, period);
    OneMore(cfg, w, t, SETTLING, 1, period);
    assert SETTLING[..2] == SETTLING;
  }

  /** The four steps of the final save close the count. */
  lemma Saves(cfg: GateConfig, w: World, t: Tally, s: EngineState, period: int)
    requires w.at == SavingEnd(s, 0)
    ensures Tallied(cfg, w, t, SAVING, period)
         == (w.(at := Off, disk := Saved(w.disk, s), completed := Some(s)), t.(open := false))
  {
    hide Tallied, SaveEffect;
    NoneYet(cfg, w, t, SAVING, period);
    OneMore(cfg, w, t, SAVING, 0, period);
    OneMore(cfg, w, t, SAVING, 1, period);
    OneMore(cfg, w, t, SAVING, 2, period);
    OneMore(cfg, w, t, SAVING, 3, period);
    assert SAVING[..4] == SAVING;
  }

  /** One that completes: one begun, none lost, one more retry on disk. */
  lemma WholeDay(cfg: GateConfig, w: World, t: Tally, period: int, k: nat)
    requires cfg.Valid() && k < cfg.maxRetries && w.at == Off && LoadSpec(w.disk, false) == Loaded(Retried(cfg, period, k))
    requires !t.open
    ensures var (r, u) := Tallied(cfg, w, t, [StartCycle(StubbornDay(cfg, period))] + WHOLE, period);
      && r.at == Off && LoadSpec(r.disk, false) == Loaded(Retried(cfg, period, k + 1)) && r.sent == w.sent + [RebalanceOrder]
      && u == t.(begun := t.begun + 1)
  {
    hide StubbornDay, Retried, ForPeriod, AfterDecision, Closed, Tallied, Saved, Unjudged, Flows;
    var events := [StartCycle(StubbornDay(cfg, period))] + WHOLE;
    SendsOnce(cfg, w, t, period, k, WHOLE);
    RetrySaved(cfg, period, k);
    var (sent, t1) := Tallied(cfg, w, t, events[..3], period);
    Settles(cfg, sent, t1, period);
    var (saving, t2) := Tallied(cfg, sent, t1, SETTLING, period);
    Saves(cfg, saving, t2, Retried(cfg, period, k + 1), period);
    SaveThenLoad(saving.disk, Retried(cfg, period, k + 1), false);
    TalliedSplits(cfg, w, t, events[..3], SETTLING, period);
    TalliedSplits(cfg, w, t, events[..3] + SETTLING, SAVING, period);
    assert events == events[..3] + SETTLING + SAVING;
  }

  /** `lost` dying cycles and then `kept` completed ones, all of one period. */
  function StubbornRun(cfg: GateConfig, period: int, lost: nat, kept: nat): seq<Event> {
    if kept > 0 then StubbornRun(cfg, period, lost, kept - 1) + ([StartCycle(StubbornDay(cfg, period))] + WHOLE)
    else if lost > 0 then StubbornRun(cfg, period, lost - 1, 0) + ([StartCycle(StubbornDay(cfg, period))] + DYING)
    else []
  }

  /** No restore, and every cycle is started on the same day. */
  ghost predicate OneDayOnly(events: seq<Event>, c: CycleInput) {
    forall e :: e in events ==> !e.HumanRestore? && (e.StartCycle? ==> e.c == c)
  }

  lemma {:induction false} StubbornRunIsOneDay(cfg: GateConfig, period: int, lost: nat, kept: nat)
    ensures OneDayOnly(StubbornRun(cfg, period, lost, kept), StubbornDay(cfg, period))
  {
    hide StubbornDay;
    if kept > 0 {
      StubbornRunIsOneDay(cfg, period, lost, kept - 1);
    } else if lost > 0 {
      StubbornRunIsOneDay(cfg, period, lost - 1, 0);
    }
  }

  lemma OneDayInOrder(events: seq<Event>, c: CycleInput)
    requires OneDayOnly(events, c)
    ensures NoRestore(events) && StartsInOrder(events)
  {
    forall i | 0 <= i < |events| ensures !events[i].HumanRestore? && (events[i].StartCycle? ==> events[i].c == c) {
      assert events[i] in events;
    }
  }

  /**
   The lost ones are forgotten: a run of cycles, each of which sends its orders, begins every retry there is
   and all the lost ones besides. It is the same day's cycle every time.
   */
  lemma {:induction false} LostRetriesAreForgotten(cfg: GateConfig, period: int, lost: nat, kept: nat)
    requires cfg.Valid() && kept <= cfg.maxRetries
    ensures var run := StubbornRun(cfg, period, lost, kept); var w := After(cfg, BOOTSTRAPPED, run);
      && w.at == Off && LoadSpec(w.disk, false) == Loaded(Retried(cfg, period, kept))
      && w.sent == seq(lost + kept, _ => RebalanceOrder)
      && Count(cfg, run, period) == Tally(lost + kept, lost, false, false)
  {
    hide StubbornDay, Retried, Tallied, Next, CountOne;
    var day := StartCycle(StubbornDay(cfg, period));
    if kept > 0 {
      LostRetriesAreForgotten(cfg, period, lost, kept - 1);
      var run := StubbornRun(cfg, period, lost, kept - 1);
      TalliedExtends(cfg, run, [day] + WHOLE, period);
      WholeDay(cfg, After(cfg, BOOTSTRAPPED, run), Count(cfg, run, period), period, kept - 1);
      assert seq(lost + kept - 1, _ => RebalanceOrder) + [RebalanceOrder] == seq(lost + kept, _ => RebalanceOrder);
    } else if lost > 0 {
      LostRetriesAreForgotten(cfg, period, lost - 1, 0);
      var run := StubbornRun(cfg, period, lost - 1, 0);
      TalliedExtends(cfg, run, [day] + DYING, period);
      DyingDay(cfg, After(cfg, BOOTSTRAPPED, run), Count(cfg, run, period), period, 0);
      assert seq(lost - 1, _ => RebalanceOrder) + [RebalanceOrder] == seq(lost, _ => RebalanceOrder);
    } else {
      NothingRetried(cfg, period);
    }
  }

  lemma NothingRetried(cfg: GateConfig, period: int)
    ensures LoadSpec(BOOTSTRAPPED.disk, false) == Loaded(Retried(cfg, period, 0))
  {
  }

  /** No run without a restore, cycles in order and at most `lost` rebalances lost, begins more than `limit` in the period. */
  ghost predicate AtMost(cfg: GateConfig, period: int, lost: nat, limit: nat) {
    forall events :: NoRestore(events) && StartsInOrder(events) && Count(cfg, events, period).lost <= lost ==>
      Count(cfg, events, period).begun <= limit
  }

  /**
   Exactly how often a period can be traded: as many times as there are retries, and once more for every
   rebalance lost between its orders and the end of its save. So the retry limit itself holds of all runs
   exactly when none may be lost.
   */
  lemma RetryLimitExactly(cfg: GateConfig, period: int, lost: nat, limit: nat)
    requires cfg.Valid()
    ensures AtMost(cfg, period, lost, limit) <==> cfg.maxRetries + lost <= limit
  {
    hide Count, NoRestore, StartsInOrder;
    if cfg.maxRetries + lost <= limit {
      forall events | NoRestore(events) && StartsInOrder(events) && Count(cfg, events, period).lost <= lost
        ensures Count(cfg, events, period).begun <= limit
      {
        RetriesUnderCrashes(cfg, events, period);
      }
    } else {
      var run := StubbornRun(cfg, period, lost, cfg.maxRetries);
      LostRetriesAreForgotten(cfg, period, lost, cfg.maxRetries);
      StubbornRunIsOneDay(cfg, period, lost, cfg.maxRetries);
      OneDayInOrder(run, StubbornDay(cfg, period));
      assert Count(cfg, run, period).begun > limit;
    }
  }

  // ------------------------------------------------------------ why a backup is never used by itself

  const STRICT := GateConfig(0.25, 0.0, 0.5, 1)

  /** A deposit of a thousand of which a hundred is left: a drawdown of nine tenths. */
  const RUIN := CycleInput(1, 7, 1000.0, 100.0, true, true, true, false, false, false, false, 100.0, map[], 100.0)

  /** The killing cycle up to the end of its first save; then the process dies. */
  const KILLED_THEN_DEAD := [StartCycle(RUIN), Proceed, Proceed, Proceed, Proceed, Proceed, Crash]

  lemma RuinKills()
    ensures Flows(DEFAULTS, RUIN) == 1000.0 && PreTrade(STRICT, DEFAULTS, 100.0, 1, 1000.0) == HardKill
  {
    assert Drawdown(DEFAULTS, 100.0, 1000.0) == 900.0 / 1000.0;
  }

  lemma AfterMore(cfg: GateConfig, w: World, events: seq<Event>, n: nat)
    requires n < |events|
    ensures After(cfg, w, events[..0]) == w
    ensures After(cfg, w, events[..n + 1]) == Next(cfg, After(cfg, w, events[..n]), events[n])
  {
    hide Next;
    assert events[..n + 1][..n] == events[..n];
  }

  lemma AfterKill()
    ensures var w := After(STRICT, BOOTSTRAPPED, KILLED_THEN_DEAD);
      w.at == Off && w.disk == Saved(BOOTSTRAPPED.disk, DEFAULTS.(halted := true))
  {
    hide PreTrade, After, Flows, SaveEffect;
    RuinKills();
    BootstrapInv();
    var events := KILLED_THEN_DEAD;
    AfterMore(STRICT, BOOTSTRAPPED, events, 0);
    AfterMore(STRICT, BOOTSTRAPPED, events, 1);
    AfterMore(STRICT, BOOTSTRAPPED, events, 2);
    AfterMore(STRICT, BOOTSTRAPPED, events, 3);
    AfterMore(STRICT, BOOTSTRAPPED, events, 4);
    AfterMore(STRICT, BOOTSTRAPPED, events, 5);
    AfterMore(STRICT, BOOTSTRAPPED, events, 6);
    assert events[..7] == events;
  }

  /**
   Why the store never falls back to its backup by itself: from the first installation, a cycle kills and
   dies right after its first save, and restoring the backup turns the halted engine into a live one.
   */
  lemma RestoreCanUndoAHalt()
    ensures var w := After(STRICT, BOOTSTRAPPED, KILLED_THEN_DEAD);
      && LoadSpec(w.disk, false) == Loaded(DEFAULTS.(halted := true))
      && LoadSpec(Next(STRICT, w, HumanRestore).disk, false) == Loaded(DEFAULTS)
  {
    hide After;
    AfterKill();
    BootstrapInv();
    SaveThenLoad(BOOTSTRAPPED.disk, DEFAULTS.(halted := true), false);
  }

  /** A killing cycle that comes to its end saves twice: then the backup is halted as well, and a restore revives nothing. */
  lemma WholeKillSurvivesRestore(cfg: GateConfig, w: World, c: CycleInput)
    requires w.at == Off && LoadSpec(w.disk, false).Loaded?
    requires var result := CycleSpec(cfg, LoadSpec(w.disk, false).state, c); result.Done? && result.next.halted
    ensures var r := Proceeding(cfg, Next(cfg, w, StartCycle(c)), 11); var restored := LoadSpec(Next(cfg, r, HumanRestore).disk, false);
      restored.Loaded? && restored.state.halted
  {
    hide PreTrade, Closed, Proceeding, SaveEffect, CycleSpec, Advance;
    CycleAlone(cfg, w, c);
    var prior := LoadSpec(w.disk, false).state;
    var killed := prior.(halted := true);
    var next := CycleSpec(cfg, prior, c).next;
    SaveThenLoad(w.disk, killed, false);
    SaveThenLoad(Saved(w.disk, killed), next, false);
    hide Saved;
  }

  // ------------------------------------------------------------ where rebalance orders come from

  /** The gate opened on `prior`, on a decision day with capital, for a period with orders and retries left. */
  ghost predicate MayRebalance(cfg: GateConfig, prior: EngineState, c: CycleInput) {
    var flows := if prior.lastEquityDate == Some(c.today) then 0.0 else c.flows;
    && ReachesDecision(cfg, prior, c, flows) && !c.dataRefused
    && prior.lastCompletedPeriod != Some(c.period) && c.hasOrders && Spent(prior, c) < cfg.maxRetries
  }

  /** What the process holds comes from the last completed save. */
  ghost predicate Sourced(cfg: GateConfig, w: World) {
    match w.at
    case HasState(c, prior) => w.completed == Some(prior) && !prior.halted
    case Rebalancing(c, s) => w.completed.Some? && MayRebalance(cfg, w.completed.value, c)
    case _ => true
  }

  lemma StepKeepsSource(cfg: GateConfig, w: World, e: Event)
    requires cfg.Valid() && Inv(w) && Sourced(cfg, w) && !e.HumanRestore?
    ensures Sourced(cfg, Next(cfg, w, e))
  {
    hide PreTrade, SendsRebalance, MayRebalance, AfterDecision, Closed, ForPeriod, SaveEffect;
    if e.Proceed? && w.at.HasState? && w.at.c.pricesOk && Flows(w.at.prior, w.at.c) >= 0.0 {
      DecisionReached(cfg, w.at.prior, w.at.c);
    }
  }

  lemma DecisionReached(cfg: GateConfig, prior: EngineState, c: CycleInput)
    requires cfg.Valid() && !prior.halted && c.pricesOk && Flows(prior, c) >= 0.0
    ensures PreTrade(cfg, prior, c.equity, c.today, Flows(prior, c)) == Open && c.decisionDay && c.equity > 0.0
            && !c.dataRefused && SendsRebalance(cfg, prior, c)
            ==> MayRebalance(cfg, prior, c)
  {
    VerdictExactly(cfg, prior, c.equity, c.today, Flows(prior, c));
    hide PreTrade, Killed, LostToday;
  }

  lemma {:induction false} RunKeepsSource(cfg: GateConfig, events: seq<Event>)
    requires cfg.Valid() && NoRestore(events)
    ensures Inv(After(cfg, BOOTSTRAPPED, events)) && Sourced(cfg, After(cfg, BOOTSTRAPPED, events))
  {
    RunKeepsInv(cfg, BOOTSTRAPPED, events);
    if |events| > 0 {
      RunKeepsSource(cfg, events[..|events| - 1]);
      hide Inv, Next, Sourced;
      StepKeepsSource(cfg, After(cfg, BOOTSTRAPPED, events[..|events| - 1]), events[|events| - 1]);
    }
  }

  /**
   Under any crashes and corruption, a rebalance order leaves only in a cycle whose gate opened on the state of the last
   completed save: not halted, neither killed nor stood down by it, on a decision day with capital, for a period not yet
   converged with retries left; and a liquidation order only on a saved halt.
   */
  lemma OrdersFollowTheGate(cfg: GateConfig, events: seq<Event>, e: Event)
    requires cfg.Valid() && NoRestore(events) && !e.HumanRestore?
    ensures var w := After(cfg, BOOTSTRAPPED, events); var r := Next(cfg, w, e);
      || r.sent == w.sent
      || (e == SendOrder && r == w.(sent := w.sent + [LiquidationOrder]) && CompletedHalt(w))
      || (e == SendOrder && r == w.(sent := w.sent + [RebalanceOrder])
          && w.at.Rebalancing? && w.completed.Some? && MayRebalance(cfg, w.completed.value, w.at.c))
  {
    RunKeepsSource(cfg, events);
    hide PreTrade, SendsRebalance, MayRebalance, Saved;
  }

  /** What a crash, a corrupted main file and a person restoring the backup do, and all they do. */
  lemma FaultsExactly(cfg: GateConfig, w: World)
    ensures Next(cfg, w, Crash) == w.(at := Off)
    ensures Next(cfg, w, CorruptMain) == if w.disk.main.Some? then w.(disk := w.disk.(main := Some(Torn))) else w
    ensures w.at == Off ==> Next(cfg, w, HumanRestore) == w.(disk := w.disk.(main := w.disk.backup))
  {
  }
}
