/**
 The round-trip law of the replay: each recorded cycle leaves out the commission of its last exit
 execution, and with that one correction the cycles add up to the whole net result.
 */
module SimRoundTrips {
  import opened Common
  import opened Ledger
  import opened OmsSpec
  import opened Guardrails
  import opened SimSpec
  import opened SimAccounting
  import opened SimSafety

  /** Recorded results, each corrected by the commission of its final execution. */
  function TripTotal(trips: seq<RoundTrip>, commission: real): real {
    if |trips| == 0 then 0.0
    else TripTotal(trips[..|trips| - 1], commission) + trips[|trips| - 1].pnl - trips[|trips| - 1].units as real * commission
  }

  function PnlTotal(trips: seq<RoundTrip>): real {
    if |trips| == 0 then 0.0 else PnlTotal(trips[..|trips| - 1]) + trips[|trips| - 1].pnl
  }

  function UnitsTotal(trips: seq<RoundTrip>): int {
    if |trips| == 0 then 0 else UnitsTotal(trips[..|trips| - 1]) + trips[|trips| - 1].units
  }

  /** Net result booked so far, when the book was as it is now. */
  function NetBooked(cfg: SimConfig, realized: real, commissions: real): real {
    cfg.multiplier * realized - commissions
  }

  ghost predicate Flat(o: Oms) {
    forall t :: Qty(o, t) == 0
  }

  /** Every recorded trip ended with an execution of at least one unit. */
  ghost predicate TripsReal(trips: seq<RoundTrip>) {
    forall i :: 0 <= i < |trips| ==> trips[i].units > 0
  }

  /** Between cycles the closed trips explain the booked result; inside one they explain it at its entry. */
  ghost predicate Cycled(cfg: SimConfig, s: Session) {
    TripsReal(s.cycle.trips) && Accounted(cfg, s)
  }

  ghost predicate Accounted(cfg: SimConfig, s: Session) {
    match s.cycle.entryTime
    case None =>
      Flat(s.oms) && NetBooked(cfg, Realized(s.oms), s.broker.commissions) == TripTotal(s.cycle.trips, cfg.commission)
    case Some(_) =>
      !Flat(s.oms) && NetBooked(cfg, s.cycle.entryRealized, s.cycle.entryCommission) == TripTotal(s.cycle.trips, cfg.commission)
  }

  // ------------------------------------------------------------ the ledger's realised total

  lemma {:induction false} RealizedSame(o: Oms, r: Oms, symbol: string, n: nat)
    requires n <= |o.symbols| && n <= |r.symbols| && r.symbols[..n] == o.symbols[..n]
    requires forall i :: 0 <= i < n ==> o.symbols[i] != symbol
    requires forall t :: t != symbol ==> PositionOf(r, t) == PositionOf(o, t)
    ensures RealizedUpTo(r, n) == RealizedUpTo(o, n)
  {
    hide PositionOf;
    if n > 0 {
      assert r.symbols[..n][n - 1] == o.symbols[..n][n - 1];
      assert r.symbols[..n - 1] == r.symbols[..n][..n - 1] && o.symbols[..n - 1] == o.symbols[..n][..n - 1];
      RealizedSame(o, r, symbol, n - 1);
    }
  }

  lemma {:induction false} RealizedMoves(o: Oms, r: Oms, symbol: string, k: nat, n: nat)
    requires k < n <= |o.symbols| && r.symbols == o.symbols && o.symbols[k] == symbol
    requires forall i, j :: 0 <= i < j < |o.symbols| ==> o.symbols[i] != o.symbols[j]
    requires forall t :: t != symbol ==> PositionOf(r, t) == PositionOf(o, t)
    ensures RealizedUpTo(r, n)
         == RealizedUpTo(o, n) - PositionOf(o, symbol).realized + PositionOf(r, symbol).realized
  {
    hide PositionOf;
    if n == k + 1 {
      RealizedSame(o, r, symbol, k);
    } else {
      RealizedMoves(o, r, symbol, k, n - 1);
      assert o.symbols[n - 1] != symbol;
    }
  }

  lemma PutPositions(o: Oms, r: Oms, symbol: string, p: PositionView)
    requires r.positions == o.positions[symbol := p]
    ensures forall t :: t != symbol ==> PositionOf(r, t) == PositionOf(o, t)
    ensures PositionOf(r, symbol) == p
    ensures symbol !in o.positions ==> PositionOf(o, symbol) == FLAT
  {
  }

  lemma RealizedPut(o: Oms, r: Oms, symbol: string, p: PositionView)
    requires KeysOk(o) && r.positions == o.positions[symbol := p]
    requires r.symbols == (if symbol in o.positions then o.symbols else o.symbols + [symbol])
    ensures Realized(r) == Realized(o) - PositionOf(o, symbol).realized + p.realized
  {
    hide RealizedUpTo, PositionOf;
    PutPositions(o, r, symbol, p);
    if symbol in o.positions {
      var k :| 0 <= k < |o.symbols| && o.symbols[k] == symbol;
      RealizedMoves(o, r, symbol, k, |o.symbols|);
    } else {
      assert symbol !in o.symbols;
      RealizedSame(o, r, symbol, |o.symbols|);
      RealizedLast(r);
      assert r.symbols[|o.symbols|] == symbol;
    }
  }

  lemma RealizedLast(o: Oms)
    requires |o.symbols| > 0
    ensures Realized(o) == RealizedUpTo(o, |o.symbols| - 1) + PositionOf(o, o.symbols[|o.symbols| - 1]).realized
  {
    hide PositionOf;
  }

  lemma {:induction false} FlatUnrealized(o: Oms, mark: real, n: nat)
    requires n <= |o.symbols| && Flat(o)
    ensures UnrealizedUpTo(o, mark, n) == 0.0
  {
    if n > 0 {
      FlatUnrealized(o, mark, n - 1);
      assert Qty(o, o.symbols[n - 1]) == 0;
    }
  }

  /** Opening from flat realises nothing. */
  lemma OpeningRealisesNothing(p: PositionView, signed: int, price: real)
    requires p.quantity == 0
    ensures ApplyFillSpec(p, signed, price).realized == p.realized
  {
    hide WeightedAverage;
  }

  // ------------------------------------------------------------ one execution

  lemma TripAppended(trips: seq<RoundTrip>, t: RoundTrip, commission: real)
    ensures TripTotal(trips + [t], commission) == TripTotal(trips, commission) + t.pnl - t.units as real * commission
  {
    assert (trips + [t])[..|trips|] == trips;
  }

  lemma ExitArithmetic(cfg: SimConfig, r0: real, r1: real, c0: real, c1: real, charge: real, total: real, pnl: real)
    requires NetBooked(cfg, r0, c0) == total
    requires pnl == cfg.multiplier * (r1 - r0) - (c1 - c0)
    ensures NetBooked(cfg, r1, c1 + charge) == total + pnl - charge
  {
    assert cfg.multiplier * (r1 - r0) == cfg.multiplier * r1 - cfg.multiplier * r0;
  }

  /** The callback and the charge of one execution keep the law. */
  lemma CycleAdvances(cfg: SimConfig, c: Cycle, o: Oms, r: Oms, commissions: real, part: int, time: int)
    requires part > 0
    requires NetPosition(r) == 0 <==> Flat(r)
    requires Flat(o) ==> !Flat(r) && Realized(r) == Realized(o)
    requires TripsReal(c.trips)
    requires match c.entryTime
      case None => Flat(o) && NetBooked(cfg, Realized(o), commissions) == TripTotal(c.trips, cfg.commission)
      case Some(_) => !Flat(o) && NetBooked(cfg, c.entryRealized, c.entryCommission) == TripTotal(c.trips, cfg.commission)
    ensures TripsReal(OnOmsFill(cfg, c, r, commissions, part, time).trips)
    ensures var n := OnOmsFill(cfg, c, r, commissions, part, time);
      match n.entryTime
      case None => Flat(r)
        && NetBooked(cfg, Realized(r), commissions + part as real * cfg.commission) == TripTotal(n.trips, cfg.commission)
      case Some(_) => !Flat(r) && NetBooked(cfg, n.entryRealized, n.entryCommission) == TripTotal(n.trips, cfg.commission)
  {
    hide Flat, NetPosition, Realized, TripTotal, NetBooked;
    if NetPosition(r) == 0 && c.entryTime.Some? {
      var trip := OnOmsFill(cfg, c, r, commissions, part, time).trips[|c.trips|];
      TripAppended(c.trips, trip, cfg.commission);
      ExitArithmetic(cfg, c.entryRealized, Realized(r), c.entryCommission, commissions, part as real * cfg.commission,
                     TripTotal(c.trips, cfg.commission), trip.pnl);
    }
  }

  /** Half-way through an order the book is still between its two ends. */
  lemma PartWithinCap(o: Oms, r: Oms, p: SimOrder, filled: int, part: int, cap: int)
    requires WithinCap(o, cap) && !IsBlank(p.intent.symbol)
    requires OnlyMoved(o, r, p.intent.symbol, Signed(p.intent.action, part))
    requires 0 < part <= p.intent.quantity - filled
    requires 0 <= Qty(o, p.intent.symbol) + Signed(p.intent.action, p.intent.quantity - filled) <= cap
    requires forall t :: t != p.intent.symbol ==> Qty(o, t) == 0
    ensures WithinCap(r, cap)
    ensures 0 <= Qty(r, p.intent.symbol) + Signed(p.intent.action, p.intent.quantity - filled - part) <= cap
    ensures forall t :: t != p.intent.symbol ==> Qty(r, t) == 0
  {
    hide IsBlank, Qty;
  }

  /** One part of a fitting order keeps the cap and the round-trip law. */
  lemma PartCycled(cfg: SimConfig, s: Session, p: SimOrder, filled: int, part: int, price: real, time: int, cap: int)
    requires Mid(s, p, filled, []) && 0 < part <= p.intent.quantity - filled
    requires WithinCap(s.oms, cap) && !IsBlank(p.intent.symbol) && Cycled(cfg, s)
    requires 0 <= Qty(s.oms, p.intent.symbol) + Signed(p.intent.action, p.intent.quantity - filled) <= cap
    requires forall t :: t != p.intent.symbol ==> Qty(s.oms, t) == 0
    ensures var r := FillPart(cfg, s, p, part, price, time);
      && Cycled(cfg, r) && WithinCap(r.oms, cap)
      && 0 <= Qty(r.oms, p.intent.symbol) + Signed(p.intent.action, p.intent.quantity - filled - part) <= cap
      && (forall t :: t != p.intent.symbol ==> Qty(r.oms, t) == 0)
  {
    hide Mid, Sane, OnFill, Accepts, ApplyFillSpec, PositionOf, IsBlank, Realized, NetPosition, KeysOk, OnOmsFill, TripTotal;
    var r := FillPart(cfg, s, p, part, price, time);
    FillPartSane(cfg, s, p, filled, [], part, price, time);
    PartMoves(cfg, s, p, filled, part, price, time);
    MidKeys(s, p, filled);
    PartKeys(cfg, s, p, filled, part, price, time);
    PartWithinCap(s.oms, r.oms, p, filled, part, cap);
    NetWithinCap(r.oms, cap);
    var signed := Signed(p.intent.action, part);
    RealizedPut(s.oms, r.oms, p.intent.symbol, ApplyFillSpec(PositionOf(s.oms, p.intent.symbol), signed, price));
    if Flat(s.oms) {
      assert Qty(s.oms, p.intent.symbol) == 0;
      assert Qty(r.oms, p.intent.symbol) == signed;
      OpeningRealisesNothing(PositionOf(s.oms, p.intent.symbol), signed, price);
    }
    hide Flat, WithinCap, OnlyMoved;
    CycleAdvances(cfg, s.cycle, s.oms, r.oms, s.broker.commissions, part, time);
  }

  lemma MidKeys(s: Session, p: SimOrder, filled: int)
    requires Mid(s, p, filled, [])
    ensures KeysOk(s.oms)
  {
  }

  lemma PartKeys(cfg: SimConfig, s: Session, p: SimOrder, filled: int, part: int, price: real, time: int)
    requires Mid(s, p, filled, []) && 0 < part <= p.intent.quantity - filled
    ensures KeysOk(FillPart(cfg, s, p, part, price, time).oms)
  {
    hide OnFill, OnOmsFill, Accepts, KeysOk, OrdersOk, EqualEverywhere, InFlight, QueueOk, AllOpenWorking, PartFill, AbsI, ExecId;
    PartCore(s.oms, s.broker.nextId, s.broker.execSeq, p, filled, part, price);
  }

  // ------------------------------------------------------------ whole runs

  /** A fitting order's fill at the open keeps the law. */
  lemma OpenCycled(cfg: SimConfig, rcfg: RiskConfig, s: Session, bar: Bar)
    requires cfg.tickSize != 0.0 && Safe(cfg, rcfg, s) && Cycled(cfg, s)
    ensures Cycled(cfg, ProcessBarOpen(cfg, s, bar))
  {
    if s.broker.pending == [] {
      OpenIdle(cfg, s, bar);
    } else {
      var p := s.broker.pending[0];
      assert s.broker.pending == [p];
      assert Fits(s.oms, p, rcfg.maxPositionShares);
      var s0 := s.(broker := s.broker.(pending := []));
      SaneFrame(s, s0, [p]);
      assert [p] + [] == [p];
      HeadFirst(s0, p, []);
      InFlightPositive(s0, p, []);
      OpenOne(cfg, s, p, bar);
      hide Sane, Mid, FillPart, FillPrice, ProcessBarOpen, WithinCap, IsBlank, Qty, Realized, TripTotal, NetBooked, PendingFits;
      OrderCycled(cfg, s0, p, bar, rcfg.maxPositionShares);
    }
  }

  lemma OrderCycled(cfg: SimConfig, s: Session, p: SimOrder, bar: Bar, cap: int)
    requires cfg.tickSize != 0.0 && Mid(s, p, 0, []) && WithinCap(s.oms, cap) && Fits(s.oms, p, cap) && Cycled(cfg, s)
    ensures Cycled(cfg, FillOrder(cfg, s, p, bar))
  {
    hide Mid, FillPart, FillPrice, WithinCap, IsBlank, Qty, Cycled;
    InFlightPositive(s, p, []);
    var price := FillPrice(cfg, p.intent.action, bar.open);
    var qty := p.intent.quantity;
    if cfg.splitFills && qty >= 2 {
      PartCycled(cfg, s, p, 0, qty / 2, price, bar.time, cap);
      PartMoves(cfg, s, p, 0, qty / 2, price, bar.time);
      PartCycled(cfg, FillPart(cfg, s, p, qty / 2, price, bar.time), p, qty / 2, qty - qty / 2, price, bar.time, cap);
    } else {
      PartCycled(cfg, s, p, 0, qty, price, bar.time, cap);
    }
  }

  /** The law looks at the ledger, the cycle and the commissions only. */
  ghost predicate SameBooks(s: Session, r: Session) {
    && r.oms.positions == s.oms.positions && r.oms.symbols == s.oms.symbols
    && r.cycle == s.cycle && r.broker.commissions == s.broker.commissions
  }

  lemma {:induction false} RealizedFrame(o: Oms, r: Oms, n: nat)
    requires o.positions == r.positions && o.symbols == r.symbols && n <= |o.symbols|
    ensures RealizedUpTo(o, n) == RealizedUpTo(r, n)
  {
    if n > 0 {
      RealizedFrame(o, r, n - 1);
    }
  }

  lemma CycledFrame(cfg: SimConfig, s: Session, r: Session)
    requires Cycled(cfg, s) && SameBooks(s, r)
    ensures Cycled(cfg, r)
  {
    RealizedFrame(s.oms, r.oms, |s.oms.symbols|);
    assert forall t :: Qty(s.oms, t) == Qty(r.oms, t);
    hide TripTotal, RealizedUpTo;
  }

  lemma {:induction false} RouteAllBooks(cfg: SimConfig, rcfg: RiskConfig, s: Session, intents: seq<Intent>)
    ensures SameBooks(s, RouteAll(cfg, rcfg, s, intents))
  {
    if |intents| > 0 {
      RouteAllBooks(cfg, rcfg, s, intents[..|intents| - 1]);
      hide ValidateSpec, SnapshotFor;
    }
  }

  lemma MarkBooks(cfg: SimConfig, rcfg: RiskConfig, s: Session, bar: Bar)
    requires Sane(s, s.broker.pending)
    ensures SameBooks(s, MarkBar(cfg, rcfg, s, bar))
  {
    hide Equity, Trips, UpdateEquitySpec, MarkSpec, Sane, CancelAll, RouteAll, FlattenSpec, Held, Quantities;
    var equity := Equity(cfg, s.oms, s.broker.commissions, bar.close);
    var marked := if s.prevEquity.Some? && !s.guard.kill then MarkSpec(s.guard, s.prevEquity.value) else s.guard;
    var s3 := s.(lastPrice := Some(bar.close), guard := UpdateEquitySpec(rcfg, marked, equity),
                 tally := s.tally.(killTripped := true), flattened := true);
    SaneFrame(s, s3, s.broker.pending);
    CancelAllCloses(s3);
    var c := CancelAll(s3);
    RouteAllBooks(cfg, rcfg, c, FlattenSpec(Held(c.oms), Quantities(c.oms), bar.flattenId));
  }

  lemma StepCycled(cfg: SimConfig, rcfg: RiskConfig, s: Session, bar: Bar)
    requires cfg.tickSize != 0.0 && Safe(cfg, rcfg, s) && Cycled(cfg, s)
    ensures Cycled(cfg, StepBar(cfg, rcfg, s, bar))
  {
    hide Safe, Cycled, ProcessBarOpen, MarkBar, RouteAll, Track, AtOpen;
    var s0 := s.(tally := s.tally.(bars := s.tally.bars + 1));
    CountBarSafe(cfg, rcfg, s, s.tally.bars + 1);
    CycledFrame(cfg, s, s0);
    OpenCycled(cfg, rcfg, s0, bar);
    OpenedSafe(cfg, rcfg, s0, bar);
    var filled := ProcessBarOpen(cfg, s0, bar);
    OpenSaneEnough(cfg, rcfg, filled);
    MarkBooks(cfg, rcfg, filled, bar);
    var marked := MarkBar(cfg, rcfg, filled, bar);
    CycledFrame(cfg, filled, marked);
    RouteAllBooks(cfg, rcfg, marked, bar.intents);
    var routed := RouteAll(cfg, rcfg, marked, bar.intents);
    CycledFrame(cfg, marked, routed);
    TrackQuiet(routed);
    CycledFrame(cfg, routed, Track(routed));
  }

  lemma OpenSaneEnough(cfg: SimConfig, rcfg: RiskConfig, s: Session)
    requires AtOpen(cfg, rcfg, s)
    ensures Sane(s, s.broker.pending)
  {
  }

  lemma {:induction false} RunCycled(cfg: SimConfig, rcfg: RiskConfig, bars: seq<Bar>)
    requires ConfigValid(cfg, rcfg) && !rcfg.allowShort && OneIntentEach(bars)
    ensures Cycled(cfg, RunSession(cfg, rcfg, FRESH, bars)) && Safe(cfg, rcfg, RunSession(cfg, rcfg, FRESH, bars))
  {
    FreshSafe(cfg, rcfg);
    RunSafe(cfg, rcfg, FRESH, bars);
    if |bars| > 0 {
      hide Safe, Cycled, StepBar, OneIntent;
      RunCycled(cfg, rcfg, bars[..|bars| - 1]);
      StepCycled(cfg, rcfg, RunSession(cfg, rcfg, FRESH, bars[..|bars| - 1]), bars[|bars| - 1]);
    } else {
      assert Realized(EMPTY) == 0.0;
    }
  }

  lemma {:induction false} TotalsRelate(trips: seq<RoundTrip>, commission: real)
    ensures TripTotal(trips, commission) == PnlTotal(trips) - UnitsTotal(trips) as real * commission
  {
    if |trips| > 0 {
      var n := |trips| - 1;
      TotalsRelate(trips[..n], commission);
      assert (UnitsTotal(trips[..n]) + trips[n].units) as real * commission
          == UnitsTotal(trips[..n]) as real * commission + trips[n].units as real * commission;
    }
  }

  lemma {:induction false} UnitsPositive(trips: seq<RoundTrip>)
    requires TripsReal(trips)
    ensures UnitsTotal(trips) >= |trips|
  {
    if |trips| > 0 {
      UnitsPositive(trips[..|trips| - 1]);
    }
  }

  lemma NoCharge(units: int, commission: real)
    requires units >= 0
    ensures units as real * commission == 0.0 <==> units == 0 || commission == 0.0
  {
  }

  /**
   Whenever the book is flat, the equity at any mark is the initial cash plus the recorded round-trip
   results less the commissions of their final exit executions: the recorded results alone add up to
   the net result exactly when executions are free or no round trip has been completed.
   */
  lemma RoundTripsExplainEquity(cfg: SimConfig, rcfg: RiskConfig, bars: seq<Bar>, mark: real)
    requires ConfigValid(cfg, rcfg) && !rcfg.allowShort && OneIntentEach(bars)
    ensures var r := RunSession(cfg, rcfg, FRESH, bars);
      NetPosition(r.oms) == 0 ==>
        var equity := Equity(cfg, r.oms, r.broker.commissions, mark);
        && equity == cfg.initialCash + PnlTotal(r.cycle.trips) - UnitsTotal(r.cycle.trips) as real * cfg.commission
        && (equity == cfg.initialCash + PnlTotal(r.cycle.trips) <==> cfg.commission == 0.0 || r.cycle.trips == [])
  {
    hide Safe, RunSession, Cycled, Equity, NetPosition, PnlTotal, UnitsTotal, OneIntentEach;
    RunCycled(cfg, rcfg, bars);
    var r := RunSession(cfg, rcfg, FRESH, bars);
    SafeBook(cfg, rcfg, r);
    if NetPosition(r.oms) == 0 {
      FlatEquity(cfg, r, rcfg.maxPositionShares, mark);
      TripsAreReal(cfg, r);
      UnitsPositive(r.cycle.trips);
      NoCharge(UnitsTotal(r.cycle.trips), cfg.commission);
      NoTripsNoUnits(r.cycle.trips);
    }
  }

  lemma TripsAreReal(cfg: SimConfig, s: Session)
    requires Cycled(cfg, s)
    ensures TripsReal(s.cycle.trips)
  {
  }

  lemma NoTripsNoUnits(trips: seq<RoundTrip>)
    ensures trips == [] ==> UnitsTotal(trips) == 0
  {
  }

  lemma FlatEquity(cfg: SimConfig, s: Session, cap: int, mark: real)
    requires Cycled(cfg, s) && KeysOk(s.oms) && WithinCap(s.oms, cap) && NetPosition(s.oms) == 0
    ensures Equity(cfg, s.oms, s.broker.commissions, mark)
         == cfg.initialCash + PnlTotal(s.cycle.trips) - UnitsTotal(s.cycle.trips) as real * cfg.commission
  {
    hide KeysOk, WithinCap, NetPosition, TripTotal, Realized, PnlTotal, UnitsTotal;
    NetWithinCap(s.oms, cap);
    TotalsRelate(s.cycle.trips, cfg.commission);
    assert Flat(s.oms);
    FlatUnrealized(s.oms, mark, |s.oms.symbols|);
    assert Unrealized(s.oms, mark) == 0.0;
    assert cfg.multiplier * (Realized(s.oms) + 0.0) == cfg.multiplier * Realized(s.oms);
  }

  lemma SafeBook(cfg: SimConfig, rcfg: RiskConfig, s: Session)
    requires Safe(cfg, rcfg, s)
    ensures KeysOk(s.oms) && WithinCap(s.oms, rcfg.maxPositionShares)
  {
  }
}
