/**
 Two replays from a fresh session, bar by bar: a round trip whose recorded result leaves out its exit
 commission, and a kill on a worthless close that is never flattened.
 */
module SimExamples {
  import opened Common
  import opened Ledger
  import opened OmsSpec
  import opened Guardrails
  import opened SimSpec
  import opened SimAccounting
  import opened SimSafety
  import opened SimRoundTrips

  /** One currency unit a point, a tick and an execution; a thousand to start with. */
  const CFG := SimConfig(1.0, 1.0, 0, 1.0, 1000.0, false)
  const RULES := RiskConfig(10, 1000000.0, 10, 1000000.0, 100.0, 0.5, false)

  const SIGNAL := Bar(0, 100.0, 100.0, [BUY_ONE], 0)
  const HOLD_AND_SELL := Bar(1, 100.0, 100.0, [SELL_ONE], 0)
  const EXIT := Bar(2, 101.0, 101.0, [], 0)
  const WORTHLESS := Bar(1, 100.0, 0.0, [], 0)

  lemma {:induction false} RunConcat(cfg: SimConfig, rcfg: RiskConfig, s: Session, a: seq<Bar>, b: seq<Bar>)
    requires cfg.tickSize != 0.0
    ensures RunSession(cfg, rcfg, s, a + b) == RunSession(cfg, rcfg, RunSession(cfg, rcfg, s, a), b)
  {
    hide StepBar;
    if |b| == 0 {
      assert a + b == a;
    } else {
      assert (a + b)[..|a + b| - 1] == a + b[..|b| - 1];
      RunConcat(cfg, rcfg, s, a, b[..|b| - 1]);
    }
  }

  lemma RunOne(cfg: SimConfig, rcfg: RiskConfig, s: Session, bar: Bar)
    requires cfg.tickSize != 0.0
    ensures RunSession(cfg, rcfg, s, [bar]) == StepBar(cfg, rcfg, s, bar)
  {
    hide StepBar;
    assert [bar][..0] == [];
    assert RunSession(cfg, rcfg, s, []) == s;
  }

  /** The ledger has nothing but `p` on the one symbol, or nothing at all. */
  ghost predicate LedgerIs(o: Oms, p: Option<PositionView>) {
    match p
    case None => o.symbols == [] && o.positions == map[]
    case Some(v) => o.symbols == ["MES"] && o.positions == map["MES" := v]
  }

  lemma LedgerFigures(o: Oms, p: Option<PositionView>, mark: real)
    requires LedgerIs(o, p)
    ensures var v := match p case None => FLAT case Some(x) => x;
      && NetPosition(o) == v.quantity && Realized(o) == v.realized && Unrealized(o, mark) == UnrealizedPnl(v, mark)
      && Qty(o, "MES") == v.quantity
  {
    if p.Some? {
      assert NetUpTo(o, 0) == 0 && RealizedUpTo(o, 0) == 0.0 && UnrealizedUpTo(o, mark, 0) == 0.0;
    }
  }

  lemma SnapshotFigures(s: Session, p: Option<PositionView>)
    requires LedgerIs(s.oms, p) && s.lastPrice == Some(100.0)
    requires p.Some? ==> p.value.quantity == 1
    ensures var snap := SnapshotFor(CFG, s.oms, s.lastPrice, "MES"); var held := if p.None? then 0 else 1;
      && snap.PositionIn("MES") == held && snap.Price("MES") == Some(100.0) && snap.Multiplier("MES") == 1.0
      && GrossNotional(snap) == Some(100.0 * held as real)
  {
    var snap := SnapshotFor(CFG, s.oms, s.lastPrice, "MES");
    assert GrossUpTo(snap, 0) == Some(0.0);
    if p.None? {
      assert Held(s.oms) == [] && Quantities(s.oms) == map[];
    } else {
      assert HeldUpTo(s.oms, 0) == [];
      assert Held(s.oms) == ["MES"] && Quantities(s.oms) == map["MES" := 1];
      assert Leg(snap, "MES") == Some(100.0);
    }
  }

  lemma Named()
    ensures !IsBlank("MES")
  {
    assert 'M' in "MES";
  }

  /** Either signal passes the gate at a price of a hundred. */
  lemma SignalApproved(s: Session, p: Option<PositionView>, intent: Intent)
    requires LedgerIs(s.oms, p) && !s.guard.kill && s.lastPrice == Some(100.0)
    requires (intent == BUY_ONE && p.None?) || (intent == SELL_ONE && p.Some? && p.value.quantity == 1)
    ensures RouteAll(CFG, RULES, s, [intent]) == Place(s, intent)
  {
    hide IsBlank, SnapshotFor, GrossNotional, RouteAll, Snapshot.PositionIn, Snapshot.Price, Snapshot.Multiplier, LedgerIs, Place;
    RouteOne(CFG, RULES, s, intent);
    SnapshotFigures(s, p);
    Named();
  }

  /** A close that does not trip: the books stay, the switch stays off. */
  lemma CalmClose(s: Session, p: Option<PositionView>, bar: Bar, equity: real)
    requires LedgerIs(s.oms, p) && !s.guard.kill && bar.close == 100.0
    requires equity == Equity(CFG, s.oms, s.broker.commissions, 100.0) && equity > 950.0
    requires s.prevEquity.None? ==> s.guard.startOfDay.None?
    requires s.prevEquity.Some? ==> s.prevEquity.value == 1000.0
    ensures var r := MarkBar(CFG, RULES, s, bar);
      && r.oms == s.oms && r.broker == s.broker && r.cycle == s.cycle && r.raised == s.raised
      && !r.guard.kill && r.lastPrice == Some(100.0) && r.prevEquity == Some(equity)
      && (s.prevEquity.None? ==> r.guard.startOfDay.None?)
  {
    hide Equity;
    QuietMark(CFG, RULES, s, bar);
  }

  /** Placing an order touches neither the ledger nor the cycle. */
  lemma PlacedAndTracked(s: Session, intent: Intent)
    ensures var r := Track(Place(s, intent));
      && r.oms.positions == s.oms.positions && r.oms.symbols == s.oms.symbols && r.cycle == s.cycle && r.guard == s.guard
      && r.prevEquity == s.prevEquity && r.raised == s.raised
      && r.broker.pending == s.broker.pending + [SimOrder(s.broker.nextId + 1, intent, false)]
      && r.broker.commissions == s.broker.commissions && r.broker.received == s.broker.received + [intent]
  {
    hide NetPosition, HasPending;
  }

  /** A pending order of one unit fills at the open and is charged once. */
  lemma UnitFills(s: Session, p: SimOrder, bar: Bar, price: real)
    requires Sane(s, s.broker.pending) && s.broker.pending == [p] && !p.cancelled
    requires p.intent.symbol == "MES" && p.intent.quantity == 1 && bar.open == price && price == price.Floor as real
    ensures var r := ProcessBarOpen(CFG, s, bar);
      && r.oms.positions
         == s.oms.positions["MES" := ApplyFillSpec(PositionOf(s.oms, "MES"), Signed(p.intent.action, 1), price)]
      && r.oms.symbols == (if "MES" in s.oms.positions then s.oms.symbols else s.oms.symbols + ["MES"])
      && r.broker.commissions == s.broker.commissions + 1.0 && r.broker.pending == []
      && r.cycle == OnOmsFill(CFG, s.cycle, r.oms, s.broker.commissions, 1, bar.time)
  {
    hide Sane, Mid, FillPart, OnOmsFill, ApplyFillSpec, PositionOf, ProcessBarOpen;
    var s0 := s.(broker := s.broker.(pending := []));
    SaneFrame(s, s0, [p]);
    assert [p] + [] == [p];
    HeadFirst(s0, p, []);
    OpenOne(CFG, s, p, bar);
    WholePrice(p.intent.action, price);
    FillPartSane(CFG, s0, p, 0, [], 1, price, bar.time);
    PartCharged(s0, p, price, bar.time);
    assert FillOrder(CFG, s0, p, bar) == FillPart(CFG, s0, p, 1, price, bar.time);
  }

  lemma WholePrice(action: Action, price: real)
    requires price == price.Floor as real
    ensures FillPrice(CFG, action, price) == price
  {
    assert 0 as real * 1.0 == 0.0;
    assert price / 1.0 == price;
  }

  lemma PartCharged(s: Session, p: SimOrder, price: real, time: int)
    requires Accepts(s.oms, PartFill(p, 1, price, s.broker.execSeq + 1))
    ensures var r := FillPart(CFG, s, p, 1, price, time);
      && r.broker.commissions == s.broker.commissions + 1.0 && r.broker.pending == s.broker.pending
      && r.cycle == OnOmsFill(CFG, s.cycle, r.oms, s.broker.commissions, 1, time)
  {
    hide OnFill, OnOmsFill, Accepts;
  }

  function Counted(s: Session): Session {
    s.(tally := s.tally.(bars := s.tally.bars + 1))
  }

  /** The stages of a bar. */
  lemma Stages(s: Session, bar: Bar)
    requires !s.raised
    ensures var marked := MarkBar(CFG, RULES, ProcessBarOpen(CFG, Counted(s), bar), bar);
      !marked.raised ==> StepBar(CFG, RULES, s, bar) == Track(RouteAll(CFG, RULES, marked, bar.intents))
  {
    hide MarkBar, ProcessBarOpen, Track, RouteAll;
  }

  // ------------------------------------------------------------ the bars both runs share

  /** After the signal bar: one buy pending, nothing traded yet. */
  ghost predicate Ordered(s: Session) {
    && Safe(CFG, RULES, s) && !s.guard.kill && s.prevEquity == Some(1000.0)
    && LedgerIs(s.oms, None) && s.broker.commissions == 0.0 && s.cycle == FRESH.cycle
    && |s.broker.pending| == 1 && s.broker.pending[0].intent == BUY_ONE && !s.broker.pending[0].cancelled
    && s.broker.received == [BUY_ONE]
  }

  lemma AfterSignal()
    ensures Ordered(StepBar(CFG, RULES, FRESH, SIGNAL))
  {
    FreshSafe(CFG, RULES);
    StepSafe(CFG, RULES, FRESH, SIGNAL);
    Stages(FRESH, SIGNAL);
    hide Safe, Sane, ProcessBarOpen, MarkBar, RouteAll, Place, Track, StepBar;
    var s0 := Counted(FRESH);
    OpenIdle(CFG, s0, SIGNAL);
    LedgerFigures(s0.oms, None, 100.0);
    CalmClose(s0, None, SIGNAL, 1000.0);
    var marked := MarkBar(CFG, RULES, s0, SIGNAL);
    SignalApproved(marked, None, BUY_ONE);
    PlacedAndTracked(marked, BUY_ONE);
    assert [] + [BUY_ONE] == [BUY_ONE];
  }

  /** The next bar's open: one unit held at a hundred, one execution charged. */
  lemma BuyFills(s: Session, bar: Bar)
    requires Ordered(s) && bar.open == 100.0
    ensures var r := ProcessBarOpen(CFG, Counted(s), bar);
      && LedgerIs(r.oms, Some(PositionView(1, 100.0, 0.0))) && r.broker.commissions == 1.0 && r.broker.pending == []
      && r.cycle == Cycle(Some(bar.time), 0.0, 0.0, [])
      && AtOpen(CFG, RULES, r) && r.guard == s.guard && r.prevEquity == s.prevEquity && r.broker.received == s.broker.received
  {
    hide Safe, Sane, ProcessBarOpen, AtOpen;
    var s0 := Counted(s);
    CountBarSafe(CFG, RULES, s, s.tally.bars + 1);
    OpenedSafe(CFG, RULES, s0, bar);
    BarOpenQuiet(CFG, s0, bar);
    SafeSane(s0);
    assert s0.broker.pending == [s0.broker.pending[0]];
    UnitFills(s0, s0.broker.pending[0], bar, 100.0);
    assert ApplyFillSpec(FLAT, 1, 100.0) == PositionView(1, 100.0, 0.0);
    var r := ProcessBarOpen(CFG, s0, bar);
    LedgerFigures(r.oms, Some(PositionView(1, 100.0, 0.0)), 100.0);
  }

  lemma SafeSane(s: Session)
    requires Safe(CFG, RULES, s)
    ensures Sane(s, s.broker.pending) && !s.raised
  {
  }

  // ------------------------------------------------------------ a round trip that loses its exit commission

  ghost predicate Selling(s: Session) {
    && Safe(CFG, RULES, s) && !s.guard.kill
    && LedgerIs(s.oms, Some(PositionView(1, 100.0, 0.0))) && s.broker.commissions == 1.0
    && s.cycle == Cycle(Some(1), 0.0, 0.0, [])
    && |s.broker.pending| == 1 && s.broker.pending[0].intent == SELL_ONE && !s.broker.pending[0].cancelled
  }

  lemma AfterHold(s: Session)
    requires Ordered(s)
    ensures Selling(StepBar(CFG, RULES, s, HOLD_AND_SELL))
  {
    SafeSane(s);
    StepSafe(CFG, RULES, s, HOLD_AND_SELL);
    Stages(s, HOLD_AND_SELL);
    hide Safe, Sane, ProcessBarOpen, MarkBar, RouteAll, Place, Track, AtOpen, StepBar;
    BuyFills(s, HOLD_AND_SELL);
    var filled := ProcessBarOpen(CFG, Counted(s), HOLD_AND_SELL);
    var p := Some(PositionView(1, 100.0, 0.0));
    LedgerFigures(filled.oms, p, 100.0);
    OpenLive(filled);
    CalmClose(filled, p, HOLD_AND_SELL, 999.0);
    var marked := MarkBar(CFG, RULES, filled, HOLD_AND_SELL);
    SignalApproved(marked, p, SELL_ONE);
    PlacedAndTracked(marked, SELL_ONE);
    assert [] + [SimOrder(marked.broker.nextId + 1, SELL_ONE, false)] == [SimOrder(marked.broker.nextId + 1, SELL_ONE, false)];
  }

  lemma OpenLive(s: Session)
    requires AtOpen(CFG, RULES, s)
    ensures !s.raised && Sane(s, s.broker.pending)
  {
  }

  /** The sale at 101: flat, one earned, two executions charged, and the trip recorded as nil. */
  lemma SaleFills(s: Session)
    requires Selling(s)
    ensures var r := ProcessBarOpen(CFG, Counted(s), EXIT);
      && LedgerIs(r.oms, Some(PositionView(0, 0.0, 1.0))) && r.broker.commissions == 2.0
      && r.cycle.trips == [RoundTrip(1, 2, 1, 0.0)] && AtOpen(CFG, RULES, r)
  {
    hide Safe, Sane, ProcessBarOpen, AtOpen, ApplyFillSpec, OnOmsFill;
    var s0 := Counted(s);
    CountBarSafe(CFG, RULES, s, s.tally.bars + 1);
    OpenedSafe(CFG, RULES, s0, EXIT);
    SafeSane(s0);
    assert s0.broker.pending == [s0.broker.pending[0]];
    UnitFills(s0, s0.broker.pending[0], EXIT, 101.0);
    var r := ProcessBarOpen(CFG, s0, EXIT);
    SoldAt();
    assert LedgerIs(r.oms, Some(PositionView(0, 0.0, 1.0)));
    LedgerFigures(r.oms, Some(PositionView(0, 0.0, 1.0)), 101.0);
    TripRecorded(r.oms);
  }

  lemma SoldAt()
    ensures ApplyFillSpec(PositionView(1, 100.0, 0.0), -1, 101.0) == PositionView(0, 0.0, 1.0)
  {
  }

  lemma TripRecorded(o: Oms)
    requires NetPosition(o) == 0 && Realized(o) == 1.0
    ensures OnOmsFill(CFG, Cycle(Some(1), 0.0, 0.0, []), o, 1.0, 1, 2) == Cycle(None, 0.0, 0.0, [RoundTrip(1, 2, 1, 0.0)])
  {
    hide NetPosition, Realized, TripPnl;
    assert TripPnl(CFG, Cycle(Some(1), 0.0, 0.0, []), 1.0, 1.0) == 0.0 by { NilTrip(); }
    assert [] + [RoundTrip(1, 2, 1, 0.0)] == [RoundTrip(1, 2, 1, 0.0)];
  }

  lemma NilTrip()
    ensures TripPnl(CFG, Cycle(Some(1), 0.0, 0.0, []), 1.0, 1.0) == 0.0
  {
  }

  lemma AfterExit(s: Session)
    requires Selling(s)
    ensures var r := StepBar(CFG, RULES, s, EXIT);
      && LedgerIs(r.oms, Some(PositionView(0, 0.0, 1.0))) && r.broker.commissions == 2.0
      && r.cycle.trips == [RoundTrip(1, 2, 1, 0.0)]
  {
    SafeSane(s);
    Stages(s, EXIT);
    hide Safe, Sane, ProcessBarOpen, MarkBar, RouteAll, Track, AtOpen, AtClose, StepBar;
    SaleFills(s);
    var filled := ProcessBarOpen(CFG, Counted(s), EXIT);
    OpenLive(filled);
    MarkBooks(CFG, RULES, filled, EXIT);
    CloseSafe(CFG, RULES, filled, EXIT);
    var marked := MarkBar(CFG, RULES, filled, EXIT);
    CloseLive(CFG, RULES, marked);
    RouteAllBooks(CFG, RULES, marked, []);
    TrackQuiet(RouteAll(CFG, RULES, marked, []));
  }

  /**
   A completed round trip with a gap: bought at 100 and sold at 101, one paid for each execution. The trip
   is recorded as nil, the account has lost one.
   */
  lemma RoundTripLosesExitCommission()
    ensures ConfigValid(CFG, RULES) && !RULES.allowShort && OneIntentEach([SIGNAL, HOLD_AND_SELL, EXIT])
    ensures var r := RunSession(CFG, RULES, FRESH, [SIGNAL, HOLD_AND_SELL, EXIT]);
      && NetPosition(r.oms) == 0 && r.cycle.trips == [RoundTrip(1, 2, 1, 0.0)] && PnlTotal(r.cycle.trips) == 0.0
      && Equity(CFG, r.oms, r.broker.commissions, 101.0) == 999.0 != CFG.initialCash + PnlTotal(r.cycle.trips)
  {
    hide StepBar, RunSession, Ordered, Selling;
    var bars := [SIGNAL, HOLD_AND_SELL, EXIT];
    AfterSignal();
    var one := StepBar(CFG, RULES, FRESH, SIGNAL);
    AfterHold(one);
    var two := StepBar(CFG, RULES, one, HOLD_AND_SELL);
    AfterExit(two);
    RunOne(CFG, RULES, FRESH, SIGNAL);
    RunConcat(CFG, RULES, FRESH, [SIGNAL], [HOLD_AND_SELL]);
    RunOne(CFG, RULES, one, HOLD_AND_SELL);
    RunConcat(CFG, RULES, FRESH, [SIGNAL] + [HOLD_AND_SELL], [EXIT]);
    RunOne(CFG, RULES, two, EXIT);
    assert bars == [SIGNAL] + [HOLD_AND_SELL] + [EXIT];
    var r := RunSession(CFG, RULES, FRESH, bars);
    LedgerFigures(r.oms, Some(PositionView(0, 0.0, 1.0)), 101.0);
    assert r.cycle.trips[..0] == [];
  }

  // ------------------------------------------------------------ a kill that never flattens

  lemma AfterWorthless(s: Session)
    requires Ordered(s)
    ensures var r := StepBar(CFG, RULES, s, WORTHLESS); r.guard.kill && Qty(r.oms, "MES") == 1
  {
    SafeSane(s);
    Stages(s, WORTHLESS);
    hide Safe, Sane, ProcessBarOpen, MarkBar, RouteAll, Track, AtOpen, KillSwitchFired, StepBar, Qty;
    BuyFills(s, WORTHLESS);
    var filled := ProcessBarOpen(CFG, Counted(s), WORTHLESS);
    LedgerFigures(filled.oms, Some(PositionView(1, 100.0, 0.0)), 0.0);
    WorthlessTrips(filled);
    TrippingMark(CFG, RULES, filled, WORTHLESS);
    var marked := MarkBar(CFG, RULES, filled, WORTHLESS);
    SameQuantities(filled.oms, marked.oms);
    RouteOne(CFG, RULES, marked, BUY_ONE);
    TrackQuiet(marked);
  }

  lemma WorthlessTrips(s: Session)
    requires Realized(s.oms) == 0.0 && Unrealized(s.oms, 0.0) == UnrealizedPnl(PositionView(1, 100.0, 0.0), 0.0)
    requires s.broker.commissions == 1.0 && !s.guard.kill && s.prevEquity == Some(1000.0)
    ensures Trips(RULES, Marked(s), Equity(CFG, s.oms, s.broker.commissions, 0.0))
  {
    hide Realized, Unrealized;
    assert Equity(CFG, s.oms, s.broker.commissions, 0.0) == 899.0;
  }

  /**
   A kill on a bar whose close is not positive: one unit bought at 100, the next close is worthless, the
   breaker fires, and whatever bars follow the unit is held to the end.
   */
  lemma KillNeverFlattens(later: seq<Bar>)
    requires OneIntentEach(later)
    ensures ConfigValid(CFG, RULES) && !RULES.allowShort && OneIntentEach([SIGNAL, WORTHLESS])
    ensures var r := RunSession(CFG, RULES, FRESH, [SIGNAL, WORTHLESS] + later); r.guard.kill && Qty(r.oms, "MES") == 1
  {
    hide StepBar, RunSession, Ordered, Qty, Safe;
    AfterSignal();
    var one := StepBar(CFG, RULES, FRESH, SIGNAL);
    AfterWorthless(one);
    OrderedSafe(one);
    var two := StepBar(CFG, RULES, one, WORTHLESS);
    RunOne(CFG, RULES, FRESH, SIGNAL);
    RunConcat(CFG, RULES, FRESH, [SIGNAL], [WORTHLESS]);
    RunOne(CFG, RULES, one, WORTHLESS);
    assert [SIGNAL] + [WORTHLESS] == [SIGNAL, WORTHLESS];
    RunConcat(CFG, RULES, FRESH, [SIGNAL, WORTHLESS], later);
    if |later| > 0 {
      StepSafe(CFG, RULES, one, WORTHLESS);
      FlatAfterTrip(CFG, RULES, one, WORTHLESS, later);
      KilledRun(CFG, RULES, two, later);
      StoppedKilled(RunSession(CFG, RULES, two, later));
    } else {
      assert later == [];
      NoBars(two);
    }
  }

  lemma OrderedSafe(s: Session)
    requires Ordered(s)
    ensures Safe(CFG, RULES, s) && !s.guard.kill
  {
  }

  lemma StoppedKilled(s: Session)
    requires Stopped(CFG, RULES, s)
    ensures s.guard.kill
  {
  }

  lemma NoBars(s: Session)
    ensures RunSession(CFG, RULES, s, []) == s
  {
  }
}
