/**
 What a bar of the replay records, in plain figures: the equity it marks, when its breaker fires, which orders
 the gate lets through to the broker, and the exposure extremes and curve of a whole run.
 */
module SimTally {
  import opened Common
  import opened Ledger
  import opened OmsSpec
  import opened Guardrails
  import opened SimSpec
  import opened SimAccounting
  import opened SimSafety
  import opened SimRoundTrips

  /** An order is sent on exactly when the gate allows it, and the counters say which of the two happened. */
  lemma RouteExactly(cfg: SimConfig, rcfg: RiskConfig, s: Session, intent: Intent)
    ensures var r := Route(cfg, rcfg, s, intent);
      var allowed := ValidateSpec(rcfg, s.guard.kill, intent, SnapshotFor(cfg, s.oms, s.lastPrice, intent.symbol)).Allow?;
      && r.broker.received == s.broker.received + (if allowed then [intent] else [])
      && r.tally.rejections == s.tally.rejections + (if allowed then 0 else 1)
      && r.tally.maxOrderQuantity == (if allowed && intent.quantity > s.tally.maxOrderQuantity then intent.quantity
                                      else s.tally.maxOrderQuantity)
      && r.tally.ordersAfterKill == s.tally.ordersAfterKill
      && (allowed ==> |r.broker.pending| == |s.broker.pending| + 1
                      && r.broker.pending[|s.broker.pending|] == SimOrder(s.broker.nextId + 1, intent, false)
                      && r.broker.pending[..|s.broker.pending|] == s.broker.pending)
  {
    hide SnapshotFor, Submit, IsBlank, CheckCaps;
    var snap := SnapshotFor(cfg, s.oms, s.lastPrice, intent.symbol);
    if ValidateSpec(rcfg, s.guard.kill, intent, snap).Allow? { ApprovedQuantity(rcfg, s.guard.kill, intent, snap); }
    hide ValidateSpec;
  }

  /** The gate sees the book as it stands, one price for the order's own symbol, and the contract multiplier. */
  lemma GateSees(cfg: SimConfig, o: Oms, lastPrice: Option<real>, symbol: string)
    ensures var snap := SnapshotFor(cfg, o, lastPrice, symbol);
      && (forall s :: snap.PositionIn(s) == if s in o.positions then o.positions[s].quantity else 0)
      && snap.prices == map[symbol := if lastPrice.Some? then lastPrice.value else 0.0]
      && snap.multipliers == map[symbol := cfg.multiplier]
  {
    hide Held;
  }

  // ------------------------------------------------------------ one bar

  /** The day's start the breaker compares with: the previous close's equity while the switch is off. */
  ghost function DayMark(s: Session): Option<real> {
    if s.prevEquity.Some? && !s.guard.kill then s.prevEquity else s.guard.startOfDay
  }

  /** The previous close was worthless: the source raises instead of marking the day. */
  ghost predicate MarkRefused(s: Session) {
    s.prevEquity.Some? && !s.guard.kill && s.prevEquity.value <= 0.0
  }

  /** The loss from the day's start to `equity` reaches the cash limit or its share of the start. */
  ghost predicate BreakerFires(rcfg: RiskConfig, s: Session, equity: real) {
    && !s.guard.kill && DayMark(s).Some?
    && var start := DayMark(s).value;
       start - equity >= rcfg.maxDailyLoss || start - equity >= rcfg.maxDailyLossPct * start
  }

  /** What the close of a bar leaves, the fills of its open being in `s`. */
  lemma MarkExactly(cfg: SimConfig, rcfg: RiskConfig, s: Session, bar: Bar)
    requires Sane(s, s.broker.pending) && !s.raised
    ensures var r := MarkBar(cfg, rcfg, s, bar); var equity := Equity(cfg, s.oms, s.broker.commissions, bar.close);
      && (r.raised <==> MarkRefused(s))
      && SimRoundTrips.SameBooks(s, r) && Sane(r, r.broker.pending)
      && (!MarkRefused(s) ==>
            && r.prevEquity == Some(equity) && r.lastPrice == Some(bar.close)
            && r.tally.curve == s.tally.curve + [(bar.time, equity)]
            && (r.guard.kill <==> s.guard.kill || BreakerFires(rcfg, s, equity))
            && r.guard.startOfDay == DayMark(s)
            && (r.tally.killTripped <==> s.tally.killTripped || BreakerFires(rcfg, s, equity))
            && r.tally.bars == s.tally.bars && r.tally.positionAfterKill == s.tally.positionAfterKill
            && r.tally.maxPosition == s.tally.maxPosition && r.tally.minPosition == s.tally.minPosition)
  {
    MarkBooks(cfg, rcfg, s, bar);
    MarkSane(cfg, rcfg, s, bar);
    hide Equity, Sane, SimRoundTrips.SameBooks, KillSwitchFired, Trips, UpdateEquitySpec, MarkSpec, DayMark, BreakerFires;
    var equity := Equity(cfg, s.oms, s.broker.commissions, bar.close);
    var marked := if s.prevEquity.Some? && !s.guard.kill then MarkSpec(s.guard, s.prevEquity.value) else s.guard;
    var s2 := s.(lastPrice := Some(bar.close), guard := UpdateEquitySpec(rcfg, marked, equity));
    if !MarkRefused(s) { BreakerIs(rcfg, s, marked, equity); }
    KillKeepsRecord(cfg, rcfg, s2.(tally := s2.tally.(killTripped := true)), bar.flattenId);
  }

  lemma BreakerIs(rcfg: RiskConfig, s: Session, marked: GuardState, equity: real)
    requires marked == if s.prevEquity.Some? && !s.guard.kill then MarkSpec(s.guard, s.prevEquity.value) else s.guard
    requires !MarkRefused(s)
    ensures Trips(rcfg, marked, equity) <==> BreakerFires(rcfg, s, equity)
    ensures var g := UpdateEquitySpec(rcfg, marked, equity);
      g.startOfDay == DayMark(s) && (g.kill <==> s.guard.kill || BreakerFires(rcfg, s, equity))
  {
  }

  lemma {:induction false} RoutingKeepsRecord(cfg: SimConfig, rcfg: RiskConfig, s: Session, intents: seq<Intent>)
    ensures RecordKept(s, RouteAll(cfg, rcfg, s, intents))
  {
    hide ValidateSpec, SnapshotFor, Submit;
    if |intents| > 0 { RoutingKeepsRecord(cfg, rcfg, s, intents[..|intents| - 1]); }
  }

  /** Everything the tally and the breaker remember, apart from the order counters. */
  ghost predicate RecordKept(s: Session, r: Session) {
    && r.guard == s.guard && r.prevEquity == s.prevEquity && r.lastPrice == s.lastPrice && r.raised == s.raised
    && r.tally == s.tally.(rejections := r.tally.rejections, ordersAfterKill := r.tally.ordersAfterKill,
                           maxOrderQuantity := r.tally.maxOrderQuantity)
  }

  lemma {:induction false} CancellingKeepsRecord(s: Session, ids: seq<int>)
    ensures RecordKept(s, CancelEach(s, ids))
  {
    hide Working, MarkCancelled, Cancel, OnStatus;
    if |ids| > 0 { CancellingKeepsRecord(s, ids[..|ids| - 1]); }
  }

  lemma KillKeepsRecord(cfg: SimConfig, rcfg: RiskConfig, s: Session, flattenId: int)
    ensures RecordKept(s, KillSwitchFired(cfg, rcfg, s, flattenId))
  {
    hide CancelEach, RouteAll, FlattenSpec, Held, Quantities, OpenIds;
    if !s.flattened {
      var s1 := s.(flattened := true);
      CancellingKeepsRecord(s1, OpenIds(s1.oms));
      var c := CancelAll(s1);
      RoutingKeepsRecord(cfg, rcfg, c, FlattenSpec(Held(c.oms), Quantities(c.oms), flattenId));
    }
  }

  lemma Framed(cfg: SimConfig, s: Session, r: Session, mark: real)
    requires SimRoundTrips.SameBooks(s, r)
    ensures NetPosition(s.oms) == NetPosition(r.oms)
    ensures Equity(cfg, s.oms, s.broker.commissions, mark) == Equity(cfg, r.oms, r.broker.commissions, mark)
  {
    NetFrame(s.oms, r.oms, |s.oms.symbols|);
    RealizedFrame(s.oms, r.oms, |s.oms.symbols|);
    UnrealizedFrame(s.oms, r.oms, mark, |s.oms.symbols|);
    hide NetUpTo, RealizedUpTo, UnrealizedUpTo;
  }

  lemma {:induction false} NetFrame(o: Oms, r: Oms, n: nat)
    requires o.positions == r.positions && o.symbols == r.symbols && n <= |o.symbols|
    ensures NetUpTo(o, n) == NetUpTo(r, n)
  {
    if n > 0 { NetFrame(o, r, n - 1); }
  }

  lemma {:induction false} UnrealizedFrame(o: Oms, r: Oms, mark: real, n: nat)
    requires o.positions == r.positions && o.symbols == r.symbols && n <= |o.symbols|
    ensures UnrealizedUpTo(o, mark, n) == UnrealizedUpTo(r, mark, n)
  {
    if n > 0 { UnrealizedFrame(o, r, mark, n - 1); }
  }

  /** Something the broker still works on. */
  ghost predicate StillPending(s: Session) {
    exists i :: 0 <= i < |s.broker.pending| && !s.broker.pending[i].cancelled
  }

  /** What one bar adds to the tally, `equity` being what the account is worth at its close. */
  ghost predicate BarRecorded(cfg: SimConfig, rcfg: RiskConfig, s: Session, bar: Bar, r: Session, equity: real) {
    var net := NetPosition(r.oms);
    && equity == Equity(cfg, r.oms, r.broker.commissions, bar.close)
    && r.prevEquity == Some(equity) && r.lastPrice == Some(bar.close)
    && r.tally.bars == s.tally.bars + 1 && r.tally.curve == s.tally.curve + [(bar.time, equity)]
    && (r.guard.kill <==> s.guard.kill || BreakerFires(rcfg, s, equity))
    && (r.tally.killTripped <==> s.tally.killTripped || BreakerFires(rcfg, s, equity))
    && r.tally.maxPosition == (if net > s.tally.maxPosition then net else s.tally.maxPosition)
    && r.tally.minPosition == (if net < s.tally.minPosition then net else s.tally.minPosition)
    && r.tally.positionAfterKill == (if s.tally.positionAfterKill.Some? || !r.tally.killTripped || StillPending(r)
                                     then s.tally.positionAfterKill else Some(net))
  }

  /** A bar raises exactly when the previous close was worthless; otherwise it records this, and only this. */
  lemma BarExactly(cfg: SimConfig, rcfg: RiskConfig, s: Session, bar: Bar)
    requires cfg.tickSize != 0.0 && Sane(s, s.broker.pending) && !s.raised
    ensures var r := StepBar(cfg, rcfg, s, bar);
      && (r.raised <==> MarkRefused(s))
      && (!r.raised ==> BarRecorded(cfg, rcfg, s, bar, r, Equity(cfg, r.oms, r.broker.commissions, bar.close)))
  {
    hide Equity, Sane, SimRoundTrips.SameBooks, RouteAll, MarkBar, ProcessBarOpen, NetUpTo, BreakerFires, MarkRefused, DayMark;
    var s0 := s.(tally := s.tally.(bars := s.tally.bars + 1));
    var f := ProcessBarOpen(cfg, s0, bar);
    assert Sane(s0, s0.broker.pending) by { SaneTally(s, s0); }
    BarOpenSane(cfg, s0, bar);
    BarOpenQuiet(cfg, s0, bar);
    SameMarks(rcfg, s, f, Equity(cfg, f.oms, f.broker.commissions, bar.close));
    MarkExactly(cfg, rcfg, f, bar);
    var marked := MarkBar(cfg, rcfg, f, bar);
    RouteAllBooks(cfg, rcfg, marked, bar.intents);
    RoutingKeepsRecord(cfg, rcfg, marked, bar.intents);
    var routed := RouteAll(cfg, rcfg, marked, bar.intents);
    Framed(cfg, f, marked, bar.close);
    Framed(cfg, marked, routed, bar.close);
    assert !marked.raised ==> StepBar(cfg, rcfg, s, bar) == Track(routed);
  }

  lemma SaneTally(s: Session, t: Session)
    requires Sane(s, s.broker.pending) && t.oms == s.oms && t.broker == s.broker
    ensures Sane(t, t.broker.pending)
  {
  }

  lemma SameMarks(rcfg: RiskConfig, s: Session, f: Session, equity: real)
    requires f.guard == s.guard && f.prevEquity == s.prevEquity
    ensures DayMark(f) == DayMark(s) && MarkRefused(f) == MarkRefused(s)
    ensures BreakerFires(rcfg, f, equity) == BreakerFires(rcfg, s, equity)
  {
  }

  // ------------------------------------------------------------ whole runs

  /** The session after the first `k` bars. */
  ghost function At(cfg: SimConfig, rcfg: RiskConfig, bars: seq<Bar>, k: nat): Session
    requires cfg.tickSize != 0.0 && k <= |bars|
  {
    RunSession(cfg, rcfg, FRESH, bars[..k])
  }

  /** The curve point of bar `k` is the account's equity at its close. */
  ghost predicate PointExact(cfg: SimConfig, rcfg: RiskConfig, bars: seq<Bar>, k: nat, point: (int, real))
    requires cfg.tickSize != 0.0 && k < |bars|
  {
    var r := At(cfg, rcfg, bars, k + 1);
    point == (bars[k].time, Equity(cfg, r.oms, r.broker.commissions, bars[k].close))
  }

  ghost predicate NetAt(cfg: SimConfig, rcfg: RiskConfig, bars: seq<Bar>, k: nat, net: int)
    requires cfg.tickSize != 0.0 && k <= |bars|
  {
    net == NetPosition(At(cfg, rcfg, bars, k).oms)
  }

  /** The curve has one exact point a bar, and the extremes are those of the net position at the ends of the bars. */
  ghost predicate TallyExact(cfg: SimConfig, rcfg: RiskConfig, bars: seq<Bar>, n: nat)
    requires cfg.tickSize != 0.0 && n <= |bars|
  {
    var t := At(cfg, rcfg, bars, n).tally;
    && t.bars == n && |t.curve| == n
    && (forall k :: 0 <= k < n ==> PointExact(cfg, rcfg, bars, k, t.curve[k]))
    && (forall k, net :: 0 <= k <= n && NetAt(cfg, rcfg, bars, k, net) ==> t.minPosition <= net <= t.maxPosition)
    && (exists k :: 0 <= k <= n && NetAt(cfg, rcfg, bars, k, t.maxPosition))
    && (exists k :: 0 <= k <= n && NetAt(cfg, rcfg, bars, k, t.minPosition))
  }

  /**
   Over every replay that does not raise, whatever the strategy sends: the equity curve has one point a bar, the
   account's equity at its close, and the reported exposure extremes are the greatest and the least net position
   at the ends of the bars.
   */
  lemma {:induction false} RunTallies(cfg: SimConfig, rcfg: RiskConfig, bars: seq<Bar>, n: nat)
    requires cfg.tickSize != 0.0 && n <= |bars| && !At(cfg, rcfg, bars, n).raised
    ensures TallyExact(cfg, rcfg, bars, n)
    decreases n
  {
    if n == 0 {
      assert bars[..0] == [];
      assert At(cfg, rcfg, bars, 0) == FRESH;
      assert NetAt(cfg, rcfg, bars, 0, 0);
    } else {
      hide StepBar, Equity, NetUpTo, Sane, TallyExact;
      assert bars[..n][..n - 1] == bars[..n - 1] && bars[..n][n - 1] == bars[n - 1];
      var s := At(cfg, rcfg, bars, n - 1);
      var r := At(cfg, rcfg, bars, n);
      assert r == StepBar(cfg, rcfg, s, bars[n - 1]);
      RaisedStays(cfg, rcfg, s, bars[n - 1]);
      RunTallies(cfg, rcfg, bars, n - 1);
      RunSane(cfg, rcfg, bars[..n - 1]);
      BarExactly(cfg, rcfg, s, bars[n - 1]);
      TallyStep(cfg, rcfg, bars, n);
    }
  }

  lemma RaisedStays(cfg: SimConfig, rcfg: RiskConfig, s: Session, bar: Bar)
    requires cfg.tickSize != 0.0
    ensures s.raised ==> StepBar(cfg, rcfg, s, bar).raised
  {
  }

  lemma TallyStep(cfg: SimConfig, rcfg: RiskConfig, bars: seq<Bar>, n: nat)
    requires cfg.tickSize != 0.0 && 0 < n <= |bars| && TallyExact(cfg, rcfg, bars, n - 1)
    requires var r := At(cfg, rcfg, bars, n);
      BarRecorded(cfg, rcfg, At(cfg, rcfg, bars, n - 1), bars[n - 1], r,
                  Equity(cfg, r.oms, r.broker.commissions, bars[n - 1].close))
    ensures TallyExact(cfg, rcfg, bars, n)
  {
    hide At, Equity, NetUpTo, BreakerFires, StillPending;
    var before := At(cfg, rcfg, bars, n - 1).tally;
    var r := At(cfg, rcfg, bars, n);
    assert NetAt(cfg, rcfg, bars, n, NetPosition(r.oms));
    assert PointExact(cfg, rcfg, bars, n - 1, r.tally.curve[n - 1]);
    forall k | 0 <= k < n ensures PointExact(cfg, rcfg, bars, k, r.tally.curve[k]) {
      if k < n - 1 { assert PointExact(cfg, rcfg, bars, k, before.curve[k]); }
    }
  }

  /**
   What a run reports once everything still working has been cancelled: the last bar's net position and its equity at
   the last close, and after a trip always a position, the first one with nothing pending or else the final one.
   */
  lemma OutcomeExactly(cfg: SimConfig, rcfg: RiskConfig, bars: seq<Bar>)
    requires cfg.tickSize != 0.0 && |bars| > 0
    ensures var s := RunSession(cfg, rcfg, FRESH, bars); var r := OutcomeOf(cfg, CancelAll(s));
      && r.finalPosition == NetPosition(s.oms) && r.openOrders == 0
      && (!s.raised ==> r.finalEquity == Equity(cfg, s.oms, s.broker.commissions, bars[|bars| - 1].close))
      && r.positionAfterKill == (if s.tally.killTripped && s.tally.positionAfterKill.None? then Some(NetPosition(s.oms))
                                 else s.tally.positionAfterKill)
  {
    hide Sane, RunSession, CancelAll, Equity, ReplayEquity, OpenIds, NetUpTo, StepBar;
    var s := RunSession(cfg, rcfg, FRESH, bars);
    RunSane(cfg, rcfg, bars);
    CancelAllCloses(s);
    var c := CancelAll(s);
    CancellingAllKeepsRecord(s);
    Framed(cfg, s, c, LastOrZero(s.lastPrice));
    if !s.raised { LastPriceIs(cfg, rcfg, bars); }
  }

  lemma CancellingAllKeepsRecord(s: Session)
    ensures RecordKept(s, CancelAll(s))
  {
    hide CancelEach, OpenIds;
    CancellingKeepsRecord(s, OpenIds(s.oms));
  }

  lemma LastPriceIs(cfg: SimConfig, rcfg: RiskConfig, bars: seq<Bar>)
    requires cfg.tickSize != 0.0 && |bars| > 0 && !RunSession(cfg, rcfg, FRESH, bars).raised
    ensures RunSession(cfg, rcfg, FRESH, bars).lastPrice == Some(bars[|bars| - 1].close)
  {
    var n := |bars| - 1;
    var s := RunSession(cfg, rcfg, FRESH, bars[..n]);
    assert RunSession(cfg, rcfg, FRESH, bars) == StepBar(cfg, rcfg, s, bars[n]);
    RunSane(cfg, rcfg, bars[..n]);
    RaisedStays(cfg, rcfg, s, bars[n]);
    hide *;
    BarExactly(cfg, rcfg, s, bars[n]);
    RecordedPrice(cfg, rcfg, s, bars[n]);
  }

  lemma RecordedPrice(cfg: SimConfig, rcfg: RiskConfig, s: Session, bar: Bar)
    requires cfg.tickSize != 0.0
    requires var r := StepBar(cfg, rcfg, s, bar);
      BarRecorded(cfg, rcfg, s, bar, r, Equity(cfg, r.oms, r.broker.commissions, bar.close))
    ensures StepBar(cfg, rcfg, s, bar).lastPrice == Some(bar.close)
  {
    hide StepBar, Equity, NetUpTo;
  }
}
