/**
 Whole-run safety of the replay with shorts off and at most one strategy order a bar: positions stay
 within the cap, the start-of-day mark never raises, and a tripped kill switch flattens the book.
 */
module SimSafety {
  import opened Common
  import opened Ledger
  import opened OmsSpec
  import opened Guardrails
  import opened SimSpec
  import opened SimAccounting

  /** What configuration loading demands of the risk block. */
  predicate ConfigValid(cfg: SimConfig, rcfg: RiskConfig) {
    && cfg.tickSize != 0.0 && cfg.initialCash > 0.0
    && rcfg.maxPositionShares > 0 && rcfg.maxOrderQuantity > 0 && rcfg.maxDailyLoss > 0.0
    && 0.0 < rcfg.maxDailyLossPct < 1.0
  }

  /** Both strategies emit at most one order a bar, and only the risk layer emits flattening orders. */
  predicate OneIntent(bar: Bar) {
    |bar.intents| <= 1 && forall i :: 0 <= i < |bar.intents| ==> bar.intents[i].source != RiskFlatten
  }

  function Qty(o: Oms, symbol: string): int {
    PositionOf(o, symbol).quantity
  }

  /** No short, no symbol over the cap, at most one symbol held, and no blank symbol traded. */
  ghost predicate WithinCap(o: Oms, cap: int) {
    && (forall s :: 0 <= Qty(o, s) <= cap)
    && (forall a, b :: Qty(o, a) != 0 && Qty(o, b) != 0 ==> a == b)
    && (forall s :: s in o.positions ==> !IsBlank(s))
  }

  /** Filling `p` keeps the book within the cap. */
  ghost predicate Fits(o: Oms, p: SimOrder, cap: int) {
    && !p.cancelled && !IsBlank(p.intent.symbol)
    && 0 <= Qty(o, p.intent.symbol) + p.intent.SignedQuantity() <= cap
    && forall s :: s != p.intent.symbol ==> Qty(o, s) == 0
  }

  /** `p` closes the whole book. */
  ghost predicate Closes(o: Oms, p: SimOrder) {
    Qty(o, p.intent.symbol) + p.intent.SignedQuantity() == 0
  }

  ghost predicate PendingFits(s: Session, cap: int) {
    && |s.broker.pending| <= 1
    && (forall i :: 0 <= i < |s.broker.pending| ==>
          Fits(s.oms, s.broker.pending[i], cap) && (s.guard.kill ==> Closes(s.oms, s.broker.pending[i])))
  }

  ghost predicate Safe(cfg: SimConfig, rcfg: RiskConfig, s: Session) {
    && Sane(s, s.broker.pending)
    && !s.raised
    && WithinCap(s.oms, rcfg.maxPositionShares)
    && PendingFits(s, rcfg.maxPositionShares)
    && (s.guard.kill <==> s.flattened) && (s.guard.kill <==> s.tally.killTripped)
    && (!s.guard.kill && s.prevEquity.Some? ==> s.prevEquity.value > 0.0)
    && (s.prevEquity.None? ==> s.oms == EMPTY && s.broker.commissions == 0.0 && s.broker.pending == [] && !s.guard.kill)
    && 0 <= s.tally.minPosition && s.tally.maxPosition <= rcfg.maxPositionShares
  }

  // ------------------------------------------------------------ held symbols

  lemma {:induction false} HeldAre(o: Oms, n: nat)
    requires n <= |o.symbols|
    ensures forall s :: s in HeldUpTo(o, n) <==> exists i :: 0 <= i < n && o.symbols[i] == s && Qty(o, s) != 0
    ensures (forall i, j :: 0 <= i < j < n ==> o.symbols[i] != o.symbols[j]) ==> Distinct(HeldUpTo(o, n))
  {
    hide PositionOf;
    if n > 0 {
      HeldAre(o, n - 1);
      if (forall i, j :: 0 <= i < j < n ==> o.symbols[i] != o.symbols[j]) && Qty(o, o.symbols[n - 1]) != 0 {
        assert o.symbols[n - 1] !in HeldUpTo(o, n - 1);
      }
      forall s ensures s in HeldUpTo(o, n) <==> exists i :: 0 <= i < n && o.symbols[i] == s && Qty(o, s) != 0 {
        if s in HeldUpTo(o, n - 1) {
          var i :| 0 <= i < n - 1 && o.symbols[i] == s && Qty(o, s) != 0;
          assert 0 <= i < n && o.symbols[i] == s;
        }
      }
    }
  }

  lemma HeldIff(o: Oms, s: string)
    requires KeysOk(o)
    ensures s in Held(o) <==> Qty(o, s) != 0
    ensures Distinct(Held(o))
    ensures s in Quantities(o) <==> Qty(o, s) != 0
    ensures Qty(o, s) != 0 ==> Quantities(o)[s] == Qty(o, s)
  {
    HeldAre(o, |o.symbols|);
    if Qty(o, s) != 0 {
      assert s in o.positions;
      assert s in o.symbols;
    }
  }

  lemma {:induction false} AllLegsPriced(snap: Snapshot, n: nat, i: nat)
    requires i < n <= |snap.symbols| && GrossUpTo(snap, n).Some?
    ensures Leg(snap, snap.symbols[i]).Some?
  {
    hide Leg;
    if i < n - 1 {
      AllLegsPriced(snap, n - 1, i);
    }
  }

  /** An approved strategy order leaves every other symbol flat and its own within the cap. */
  lemma ApprovedFits(cfg: SimConfig, rcfg: RiskConfig, s: Session, intent: Intent)
    requires KeysOk(s.oms) && !rcfg.allowShort && intent.source != RiskFlatten
    requires ValidateSpec(rcfg, s.guard.kill, intent, SnapshotFor(cfg, s.oms, s.lastPrice, intent.symbol)).Allow?
    ensures !s.guard.kill && !IsBlank(intent.symbol) && intent.quantity > 0
    ensures 0 <= Qty(s.oms, intent.symbol) + intent.SignedQuantity() <= rcfg.maxPositionShares
    ensures forall t :: t != intent.symbol ==> Qty(s.oms, t) == 0
  {
    var snap := SnapshotFor(cfg, s.oms, s.lastPrice, intent.symbol);
    hide IsBlank, Notional, PositionOf, HeldUpTo;
    HeldIff(s.oms, intent.symbol);
    assert snap.PositionIn(intent.symbol) == Qty(s.oms, intent.symbol);
    forall t | t != intent.symbol ensures Qty(s.oms, t) == 0 {
      HeldIff(s.oms, t);
      if Qty(s.oms, t) != 0 {
        var i :| 0 <= i < |snap.symbols| && snap.symbols[i] == t;
        AllLegsPriced(snap, |snap.symbols|, i);
      }
    }
  }

  // ------------------------------------------------------------ the bar's open

  lemma FillMovesQuantity(p: PositionView, signed: int, price: real)
    ensures ApplyFillSpec(p, signed, price).quantity == p.quantity + signed
  {
    hide WeightedAverage, ClosedPnl;
  }

  /** From `o` to `r` one symbol has moved by `units` and no other. */
  ghost predicate OnlyMoved(o: Oms, r: Oms, symbol: string, units: int) {
    && (forall t :: Qty(r, t) == if t == symbol then Qty(o, t) + units else Qty(o, t))
    && (forall t :: t in r.positions <==> t in o.positions || t == symbol)
  }

  lemma MovedTwice(a: Oms, b: Oms, c: Oms, symbol: string, m: int, n: int)
    requires OnlyMoved(a, b, symbol, m) && OnlyMoved(b, c, symbol, n)
    ensures OnlyMoved(a, c, symbol, m + n)
  {
    hide Qty;
  }

  /** One part of an order moves its symbol by that part. */
  lemma PartMoves(cfg: SimConfig, s: Session, p: SimOrder, filled: int, part: int, price: real, time: int)
    requires Mid(s, p, filled, []) && 0 < part <= p.intent.quantity - filled
    ensures var r := FillPart(cfg, s, p, part, price, time);
      && OnlyMoved(s.oms, r.oms, p.intent.symbol, Signed(p.intent.action, part))
      && (filled + part < p.intent.quantity ==> Mid(r, p, filled + part, []))
  {
    hide Mid, FillPart, ApplyFillSpec, Accepts, Sane, PositionOf;
    FillPartSane(cfg, s, p, filled, [], part, price, time);
    FillMovesQuantity(PositionOf(s.oms, p.intent.symbol), Signed(p.intent.action, part), price);
    PutMoves(s.oms, FillPart(cfg, s, p, part, price, time).oms, p.intent.symbol,
             ApplyFillSpec(PositionOf(s.oms, p.intent.symbol), Signed(p.intent.action, part), price),
             Signed(p.intent.action, part));
  }

  lemma PutMoves(o: Oms, r: Oms, symbol: string, q: PositionView, units: int)
    requires r.positions == o.positions[symbol := q] && q.quantity == Qty(o, symbol) + units
    ensures OnlyMoved(o, r, symbol, units)
  {
  }

  lemma OpenOne(cfg: SimConfig, s: Session, p: SimOrder, bar: Bar)
    requires cfg.tickSize != 0.0 && s.broker.pending == [p]
    ensures ProcessBarOpen(cfg, s, bar) == FillOrder(cfg, s.(broker := s.broker.(pending := [])), p, bar)
  {
    hide FillOrder;
    assert [p][..0] == [];
    var s0 := s.(broker := s.broker.(pending := []));
    assert FillOrders(cfg, s0, [], bar) == s0;
  }

  /** A pending order that fits fills at the open: its symbol moves by the whole order, nothing else. */
  lemma OpenMoves(cfg: SimConfig, s: Session, p: SimOrder, bar: Bar)
    requires cfg.tickSize != 0.0 && Sane(s, s.broker.pending) && s.broker.pending == [p] && !p.cancelled
    ensures OnlyMoved(s.oms, ProcessBarOpen(cfg, s, bar).oms, p.intent.symbol, p.intent.SignedQuantity())
  {
    hide Sane, Mid, FillPart, FillPrice, ProcessBarOpen, OnlyMoved;
    var s0 := s.(broker := s.broker.(pending := []));
    SaneFrame(s, s0, [p]);
    assert [p] + [] == [p];
    HeadFirst(s0, p, []);
    InFlightPositive(s0, p, []);
    OpenOne(cfg, s, p, bar);
    var price := FillPrice(cfg, p.intent.action, bar.open);
    var qty := p.intent.quantity;
    if cfg.splitFills && qty >= 2 {
      PartMoves(cfg, s0, p, 0, qty / 2, price, bar.time);
      var s1 := FillPart(cfg, s0, p, qty / 2, price, bar.time);
      PartMoves(cfg, s1, p, qty / 2, qty - qty / 2, price, bar.time);
      MovedTwice(s0.oms, s1.oms, FillPart(cfg, s1, p, qty - qty / 2, price, bar.time).oms, p.intent.symbol,
                 Signed(p.intent.action, qty / 2), Signed(p.intent.action, qty - qty / 2));
    } else {
      PartMoves(cfg, s0, p, 0, qty, price, bar.time);
    }
  }

  lemma OpenIdle(cfg: SimConfig, s: Session, bar: Bar)
    requires cfg.tickSize != 0.0 && s.broker.pending == []
    ensures ProcessBarOpen(cfg, s, bar) == s
  {
  }

  /** After the open: the book within the cap, and flat if the switch was already on with a closing order. */
  lemma OpenSafe(cfg: SimConfig, rcfg: RiskConfig, s: Session, bar: Bar)
    requires cfg.tickSize != 0.0 && Safe(cfg, rcfg, s)
    ensures var r := ProcessBarOpen(cfg, s, bar);
      && Sane(r, []) && r.broker.pending == [] && WithinCap(r.oms, rcfg.maxPositionShares)
      && (s.guard.kill && s.broker.pending != [] ==> forall t :: Qty(r.oms, t) == 0)
      && (s.broker.pending == [] ==> r == s)
  {
    BarOpenSane(cfg, s, bar);
    hide Sane, IsBlank, ProcessBarOpen;
    if s.broker.pending == [] {
      OpenIdle(cfg, s, bar);
    } else {
      var p := s.broker.pending[0];
      assert s.broker.pending == [p];
      assert Fits(s.oms, p, rcfg.maxPositionShares);
      OpenMoves(cfg, s, p, bar);
    }
  }

  // ------------------------------------------------------------ the kill switch

  lemma NothingToCancel(s: Session)
    requires Sane(s, []) && s.broker.pending == []
    ensures CancelAll(s) == s
  {
    OpenIdsAre(s.oms, |s.oms.ids|);
    forall j | 0 <= j < |s.oms.ids| && s.oms.ids[j] in s.oms.orders ensures Terminal(s.oms.orders[s.oms.ids[j]].state) {
      NoneWorking(s.oms.ids[j]);
    }
  }

  lemma NoneWorking(id: int)
    ensures !Working([], id)
  {
  }

  lemma TwoDiffer(xs: seq<string>, x: string)
    requires Distinct(xs) && |xs| > 1
    ensures exists y :: y in xs && y != x
  {
    var y := if xs[0] != x then xs[0] else xs[1];
    assert y in xs && y != x;
  }

  lemma SingletonOf(xs: seq<string>, x: string)
    requires Distinct(xs) && x in xs && forall y :: y in xs ==> y == x
    ensures xs == [x]
  {
    hide Distinct;
    if |xs| > 1 {
      TwoDiffer(xs, x);
    }
  }

  /** With one symbol held, flattening is one order closing it. */
  lemma FlattenOne(o: Oms, cap: int, symbol: string, flattenId: int)
    requires KeysOk(o) && WithinCap(o, cap) && Qty(o, symbol) != 0
    ensures FlattenSpec(Held(o), Quantities(o), flattenId) == [FlattenIntent(symbol, Qty(o, symbol), flattenId)]
  {
    hide PositionOf, IsBlank, HeldUpTo;
    HeldIff(o, symbol);
    forall y | y in Held(o) ensures y == symbol {
      HeldIff(o, y);
    }
    SingletonOf(Held(o), symbol);
    assert [symbol][..0] == [];
    assert SortSymbols([]) == [];
    assert SortSymbols([symbol]) == [symbol];
    assert FlattenFor([], Quantities(o), flattenId) == [];
  }

  lemma FlattenNone(o: Oms, flattenId: int)
    requires KeysOk(o) && forall t :: Qty(o, t) == 0
    ensures FlattenSpec(Held(o), Quantities(o), flattenId) == []
  {
    hide PositionOf, HeldUpTo;
    if Held(o) != [] {
      HeldIff(o, Held(o)[0]);
    }
  }

  /** A flattening order passes the gate exactly when the last price is usable. */
  lemma FlattenApproved(cfg: SimConfig, rcfg: RiskConfig, s: Session, symbol: string, id: int)
    requires KeysOk(s.oms) && WithinCap(s.oms, rcfg.maxPositionShares) && Qty(s.oms, symbol) > 0
    ensures ValidateSpec(rcfg, s.guard.kill, FlattenIntent(symbol, Qty(s.oms, symbol), id),
                         SnapshotFor(cfg, s.oms, s.lastPrice, symbol)).Allow?
      <==> LastOrZero(s.lastPrice) > 0.0
  {
    assert symbol in s.oms.positions;
    hide IsBlank, GrossNotional, Notional, HeldUpTo, Quantities;
  }

  /**
   The tripping bar: with the book filled and nothing pending, the switch sends one order closing the
   held symbol when the close is usable, and nothing at all when it is not.
   */
  lemma KillPlaces(cfg: SimConfig, rcfg: RiskConfig, s: Session, flattenId: int)
    requires Sane(s, []) && s.broker.pending == [] && !s.flattened && s.guard.kill
    requires WithinCap(s.oms, rcfg.maxPositionShares) && rcfg.maxPositionShares > 0
    ensures var r := KillSwitchFired(cfg, rcfg, s, flattenId);
      && r.oms.positions == s.oms.positions && r.flattened && r.guard == s.guard && r.raised == s.raised
      && r.lastPrice == s.lastPrice && r.prevEquity == s.prevEquity
      && r.tally.killTripped == s.tally.killTripped && r.tally.maxPosition == s.tally.maxPosition
      && r.tally.minPosition == s.tally.minPosition
      && PendingFits(r, rcfg.maxPositionShares)
      && (r.broker.pending != [] <==> (LastOrZero(s.lastPrice) > 0.0 && exists t :: Qty(s.oms, t) != 0))
  {
    hide Sane, CancelAll, Held, Quantities, FlattenSpec, IsBlank, KeysOk, RouteAll, PendingFits, Qty;
    var s1 := s.(flattened := true);
    SaneFrame(s, s1, []);
    NothingToCancel(s1);
    SaneKeys(s, []);
    if symbol :| Qty(s.oms, symbol) != 0 {
      FlattenOne(s.oms, rcfg.maxPositionShares, symbol, flattenId);
      KillOrder(cfg, rcfg, s1, symbol, flattenId);
    } else {
      FlattenNone(s.oms, flattenId);
      assert RouteAll(cfg, rcfg, s1, []) == s1 by { RouteOne(cfg, rcfg, s1, FlattenIntent("", 0, 0)); }
      assert PendingFits(s1, rcfg.maxPositionShares) by { NonePending(s1, rcfg.maxPositionShares); }
    }
  }

  lemma NonePending(s: Session, cap: int)
    requires s.broker.pending == []
    ensures PendingFits(s, cap)
  {
  }

  /** Routing the one closing order: it is pending afterwards exactly when the last price is usable. */
  lemma KillOrder(cfg: SimConfig, rcfg: RiskConfig, s: Session, symbol: string, id: int)
    requires KeysOk(s.oms) && WithinCap(s.oms, rcfg.maxPositionShares) && Qty(s.oms, symbol) != 0
    requires s.broker.pending == [] && rcfg.maxPositionShares > 0
    ensures var r := RouteAll(cfg, rcfg, s, [FlattenIntent(symbol, Qty(s.oms, symbol), id)]);
      && r.oms.positions == s.oms.positions
      && r == s.(oms := r.oms, broker := r.broker, tally := r.tally)
      && r.tally.killTripped == s.tally.killTripped && r.tally.maxPosition == s.tally.maxPosition
      && r.tally.minPosition == s.tally.minPosition
      && PendingFits(r, rcfg.maxPositionShares)
      && (r.broker.pending != [] <==> LastOrZero(s.lastPrice) > 0.0)
  {
    hide IsBlank, ValidateSpec, SnapshotFor, KeysOk, Submit, PositionOf;
    var intent := FlattenIntent(symbol, Qty(s.oms, symbol), id);
    assert Qty(s.oms, symbol) > 0;
    FlattenApproved(cfg, rcfg, s, symbol, id);
    RouteOne(cfg, rcfg, s, intent);
    PlaceSame(s, intent);
    hide RouteAll;
    HeldHasName(s.oms, rcfg.maxPositionShares, symbol);
    assert forall t :: t != symbol ==> Qty(s.oms, t) == 0;
  }

  lemma HeldHasName(o: Oms, cap: int, symbol: string)
    requires WithinCap(o, cap) && Qty(o, symbol) != 0
    ensures !IsBlank(symbol)
  {
    assert symbol in o.positions;
  }

  lemma RouteOne(cfg: SimConfig, rcfg: RiskConfig, s: Session, intent: Intent)
    ensures RouteAll(cfg, rcfg, s, [intent]) == Route(cfg, rcfg, s, intent)
    ensures RouteAll(cfg, rcfg, s, []) == s
  {
    assert [intent][..0] == [];
    hide Route;
    assert RouteAll(cfg, rcfg, s, []) == s;
  }

  lemma PlaceSame(s: Session, intent: Intent)
    ensures Place(s, intent).oms.positions == s.oms.positions
    ensures forall t :: Qty(Place(s, intent).oms, t) == Qty(s.oms, t)
  {
  }

  lemma SaneKeys(s: Session, queue: seq<SimOrder>)
    requires Sane(s, queue)
    ensures KeysOk(s.oms)
  {
  }

  // ------------------------------------------------------------ the close

  /** A safe session once the bar's fills are in. */
  ghost predicate AtOpen(cfg: SimConfig, rcfg: RiskConfig, s: Session) {
    && Sane(s, []) && s.broker.pending == [] && !s.raised
    && WithinCap(s.oms, rcfg.maxPositionShares)
    && (s.guard.kill <==> s.flattened) && (s.guard.kill <==> s.tally.killTripped)
    && (!s.guard.kill && s.prevEquity.Some? ==> s.prevEquity.value > 0.0)
    && (s.prevEquity.None? ==> s.oms == EMPTY && s.broker.commissions == 0.0 && !s.guard.kill)
    && 0 <= s.tally.minPosition && s.tally.maxPosition <= rcfg.maxPositionShares
  }

  lemma OpenedSafe(cfg: SimConfig, rcfg: RiskConfig, s: Session, bar: Bar)
    requires cfg.tickSize != 0.0 && Safe(cfg, rcfg, s)
    ensures AtOpen(cfg, rcfg, ProcessBarOpen(cfg, s, bar))
  {
    OpenSafe(cfg, rcfg, s, bar);
    BarOpenQuiet(cfg, s, bar);
    hide Sane, WithinCap, PendingFits, ProcessBarOpen;
  }

  /** The guard as the close's mark finds it: the start of day is the previous close, unless switched off. */
  function Marked(s: Session): GuardState {
    if s.prevEquity.Some? && !s.guard.kill then MarkSpec(s.guard, s.prevEquity.value) else s.guard
  }

  /** Any mark that does not trip a live breaker is positive. */
  lemma SurvivingMarkIsPositive(cfg: SimConfig, rcfg: RiskConfig, s: Session, mark: real)
    requires ConfigValid(cfg, rcfg) && AtOpen(cfg, rcfg, s)
    ensures var equity := Equity(cfg, s.oms, s.broker.commissions, mark);
      !UpdateEquitySpec(rcfg, Marked(s), equity).kill ==> equity > 0.0
  {
    hide Sane, WithinCap;
    if s.prevEquity.None? {
      assert Realized(EMPTY) == 0.0 && Unrealized(EMPTY, mark) == 0.0;
      assert cfg.multiplier * (0.0 + 0.0) == 0.0;
    } else {
      var equity := Equity(cfg, s.oms, s.broker.commissions, mark);
      hide Equity;
      if equity <= 0.0 && !s.guard.kill {
        RuinTrips(rcfg, Marked(s), equity);
      }
    }
  }

  /** A safe session after the close's mark, before the strategy speaks. */
  ghost predicate AtClose(cfg: SimConfig, rcfg: RiskConfig, s: Session) {
    && Sane(s, s.broker.pending) && !s.raised
    && WithinCap(s.oms, rcfg.maxPositionShares)
    && PendingFits(s, rcfg.maxPositionShares)
    && (!s.guard.kill ==> s.broker.pending == [])
    && (s.guard.kill <==> s.flattened) && (s.guard.kill <==> s.tally.killTripped)
    && s.prevEquity.Some? && (!s.guard.kill ==> s.prevEquity.value > 0.0)
    && 0 <= s.tally.minPosition && s.tally.maxPosition <= rcfg.maxPositionShares
  }

  /** Nothing but the mark itself happens at a close that does not trip the breaker. */
  lemma QuietMark(cfg: SimConfig, rcfg: RiskConfig, s: Session, bar: Bar)
    requires !(s.prevEquity.Some? && !s.guard.kill && s.prevEquity.value <= 0.0)
    requires !Trips(rcfg, Marked(s), Equity(cfg, s.oms, s.broker.commissions, bar.close))
    ensures var r := MarkBar(cfg, rcfg, s, bar); var equity := Equity(cfg, s.oms, s.broker.commissions, bar.close);
      && r == s.(lastPrice := Some(bar.close), guard := UpdateEquitySpec(rcfg, Marked(s), equity), prevEquity := Some(equity),
                 tally := r.tally)
      && r.tally == s.tally.(curve := r.tally.curve)
      && r.guard.kill == s.guard.kill
  {
    hide Equity, KillSwitchFired, DailyLimit;
  }

  /** The tripping close. */
  lemma TrippingMark(cfg: SimConfig, rcfg: RiskConfig, s: Session, bar: Bar)
    requires ConfigValid(cfg, rcfg) && AtOpen(cfg, rcfg, s)
    requires Trips(rcfg, Marked(s), Equity(cfg, s.oms, s.broker.commissions, bar.close))
    ensures var r := MarkBar(cfg, rcfg, s, bar);
      && !s.guard.kill && r.guard.kill && r.flattened && r.tally.killTripped && !r.raised
      && r.oms.positions == s.oms.positions
      && PendingFits(r, rcfg.maxPositionShares)
      && (r.broker.pending != [] <==> (bar.close > 0.0 && exists t :: Qty(s.oms, t) != 0))
      && r.prevEquity.Some?
      && r.tally.maxPosition == s.tally.maxPosition && r.tally.minPosition == s.tally.minPosition
  {
    hide Equity, KillSwitchFired, DailyLimit, Sane, WithinCap;
    var equity := Equity(cfg, s.oms, s.broker.commissions, bar.close);
    var s2 := s.(lastPrice := Some(bar.close)).(guard := UpdateEquitySpec(rcfg, Marked(s), equity));
    var s3 := s2.(tally := s2.tally.(killTripped := true));
    SaneFrame(s, s3, []);
    KillPlaces(cfg, rcfg, s3, bar.flattenId);
    var k := KillSwitchFired(cfg, rcfg, s3, bar.flattenId);
    var r := MarkBar(cfg, rcfg, s, bar);
    assert r.oms == k.oms && r.broker == k.broker && r.guard == k.guard && r.flattened == k.flattened;
  }

  lemma SamePositions(o: Oms, r: Oms, cap: int)
    requires r.positions == o.positions
    ensures forall t :: Qty(r, t) == Qty(o, t)
    ensures WithinCap(o, cap) <==> WithinCap(r, cap)
  {
    assert forall t :: Qty(r, t) == Qty(o, t);
    hide IsBlank;
  }

  lemma CloseSafe(cfg: SimConfig, rcfg: RiskConfig, s: Session, bar: Bar)
    requires ConfigValid(cfg, rcfg) && AtOpen(cfg, rcfg, s)
    ensures AtClose(cfg, rcfg, MarkBar(cfg, rcfg, s, bar))
  {
    hide Equity, KillSwitchFired, DailyLimit, Sane, WithinCap, Trips, MarkBar, UpdateEquitySpec;
    MarkSane2(cfg, rcfg, s, bar);
    SurvivingMarkIsPositive(cfg, rcfg, s, bar.close);
    var r := MarkBar(cfg, rcfg, s, bar);
    if Trips(rcfg, Marked(s), Equity(cfg, s.oms, s.broker.commissions, bar.close)) {
      TrippingMark(cfg, rcfg, s, bar);
      SamePositions(s.oms, r.oms, rcfg.maxPositionShares);
    } else {
      QuietMark(cfg, rcfg, s, bar);
    }
  }

  lemma MarkSane2(cfg: SimConfig, rcfg: RiskConfig, s: Session, bar: Bar)
    requires Sane(s, []) && s.broker.pending == []
    ensures var r := MarkBar(cfg, rcfg, s, bar); Sane(r, r.broker.pending)
  {
    MarkSane(cfg, rcfg, s, bar);
  }

  // ------------------------------------------------------------ the strategy's order

  /** Once the switch is on, a strategy's orders are only counted as rejections. */
  lemma {:induction false} KilledRefuses(cfg: SimConfig, rcfg: RiskConfig, s: Session, intents: seq<Intent>)
    requires s.guard.kill && forall i :: 0 <= i < |intents| ==> intents[i].source != RiskFlatten
    ensures RouteAll(cfg, rcfg, s, intents) == s.(tally := s.tally.(rejections := s.tally.rejections + |intents|))
  {
    if |intents| > 0 {
      KilledRefuses(cfg, rcfg, s, intents[..|intents| - 1]);
      hide IsBlank, CheckCaps, SnapshotFor;
    }
  }

  lemma SignalsSafe(cfg: SimConfig, rcfg: RiskConfig, s: Session, bar: Bar)
    requires ConfigValid(cfg, rcfg) && !rcfg.allowShort && AtClose(cfg, rcfg, s) && OneIntent(bar)
    ensures var r := RouteAll(cfg, rcfg, s, bar.intents);
      && AtCloseWithOrder(cfg, rcfg, r)
      && r.oms.positions == s.oms.positions && r.guard == s.guard && (s.guard.kill ==> r.broker == s.broker)
  {
    hide Sane, WithinCap, ValidateSpec, SnapshotFor, IsBlank;
    RouteAllSane(cfg, rcfg, s, bar.intents);
    if s.guard.kill {
      KilledRefuses(cfg, rcfg, s, bar.intents);
      hide RouteAll;
    } else if bar.intents == [] {
    } else {
      var intent := bar.intents[0];
      assert bar.intents == [intent];
      RouteOne(cfg, rcfg, s, intent);
      SaneKeys(s, s.broker.pending);
      if ValidateSpec(rcfg, s.guard.kill, intent, SnapshotFor(cfg, s.oms, s.lastPrice, intent.symbol)).Allow? {
        ApprovedFits(cfg, rcfg, s, intent);
        PlaceSame(s, intent);
        SamePositions(s.oms, Place(s, intent).oms, rcfg.maxPositionShares);
        hide RouteAll, Submit, Qty;
      }
    }
  }

  /** As `AtClose`, with the bar's order possibly pending. */
  ghost predicate AtCloseWithOrder(cfg: SimConfig, rcfg: RiskConfig, s: Session) {
    && Sane(s, s.broker.pending) && !s.raised
    && WithinCap(s.oms, rcfg.maxPositionShares)
    && PendingFits(s, rcfg.maxPositionShares)
    && (s.guard.kill <==> s.flattened) && (s.guard.kill <==> s.tally.killTripped)
    && s.prevEquity.Some? && (!s.guard.kill ==> s.prevEquity.value > 0.0)
    && 0 <= s.tally.minPosition && s.tally.maxPosition <= rcfg.maxPositionShares
  }

  lemma {:induction false} NetIsOneHolding(o: Oms, cap: int, n: nat)
    requires n <= |o.symbols| && WithinCap(o, cap)
    requires forall i, j :: 0 <= i < j < |o.symbols| ==> o.symbols[i] != o.symbols[j]
    ensures NetUpTo(o, n) == 0 || exists i :: 0 <= i < n && NetUpTo(o, n) == Qty(o, o.symbols[i])
    ensures NetUpTo(o, n) == 0 ==> forall i :: 0 <= i < n ==> Qty(o, o.symbols[i]) == 0
  {
    hide IsBlank;
    if n > 0 {
      NetIsOneHolding(o, cap, n - 1);
      var last := o.symbols[n - 1];
      assert PositionOf(o, last).quantity == Qty(o, last);
      if NetUpTo(o, n - 1) != 0 {
        var i :| 0 <= i < n - 1 && NetUpTo(o, n - 1) == Qty(o, o.symbols[i]);
        assert o.symbols[i] != last;
        assert Qty(o, last) == 0;
      }
    }
  }

  /** The net position is within the cap, and zero exactly when the book is flat. */
  lemma NetWithinCap(o: Oms, cap: int)
    requires KeysOk(o) && WithinCap(o, cap)
    ensures 0 <= NetPosition(o) <= cap
    ensures NetPosition(o) == 0 <==> forall t :: Qty(o, t) == 0
  {
    NetIsOneHolding(o, cap, |o.symbols|);
    hide NetUpTo, IsBlank;
    assert 0 <= Qty(o, "") <= cap;
    if NetPosition(o) == 0 {
      forall t ensures Qty(o, t) == 0 {
        if t in o.positions {
          assert t in o.symbols;
        }
      }
    }
  }

  lemma TrackSafe(cfg: SimConfig, rcfg: RiskConfig, s: Session)
    requires AtCloseWithOrder(cfg, rcfg, s)
    ensures Safe(cfg, rcfg, Track(s))
    ensures Track(s) == s.(tally := Track(s).tally)
  {
    hide Sane, WithinCap, PendingFits, NetPosition, HasPending;
    SaneKeys(s, s.broker.pending);
    NetWithinCap(s.oms, rcfg.maxPositionShares);
    SaneFrame(s, Track(s), s.broker.pending);
    PendingFitsFrame(s, Track(s), rcfg.maxPositionShares);
  }

  lemma PendingFitsFrame(s: Session, r: Session, cap: int)
    requires PendingFits(s, cap) && r.oms == s.oms && r.broker == s.broker && r.guard == s.guard
    ensures PendingFits(r, cap)
  {
  }

  // ------------------------------------------------------------ whole runs

  lemma CountBarSafe(cfg: SimConfig, rcfg: RiskConfig, s: Session, n: nat)
    requires Safe(cfg, rcfg, s)
    ensures Safe(cfg, rcfg, s.(tally := s.tally.(bars := n)))
  {
    var r := s.(tally := s.tally.(bars := n));
    hide Sane, WithinCap, PendingFits;
    SaneFrame(s, r, s.broker.pending);
    PendingFitsFrame(s, r, rcfg.maxPositionShares);
  }

  lemma OpenToClose(cfg: SimConfig, rcfg: RiskConfig, s: Session, bar: Bar)
    requires ConfigValid(cfg, rcfg) && Safe(cfg, rcfg, s)
    ensures AtClose(cfg, rcfg, MarkBar(cfg, rcfg, ProcessBarOpen(cfg, s, bar), bar))
  {
    TickNonZero(cfg, rcfg);
    hide Safe, AtOpen, AtClose, ProcessBarOpen, MarkBar, ConfigValid;
    OpenedSafe(cfg, rcfg, s, bar);
    CloseSafe(cfg, rcfg, ProcessBarOpen(cfg, s, bar), bar);
  }

  lemma CloseToEnd(cfg: SimConfig, rcfg: RiskConfig, s: Session, bar: Bar)
    requires ConfigValid(cfg, rcfg) && !rcfg.allowShort && AtClose(cfg, rcfg, s) && OneIntent(bar)
    ensures Safe(cfg, rcfg, Track(RouteAll(cfg, rcfg, s, bar.intents)))
  {
    hide Safe, AtClose, AtCloseWithOrder, RouteAll, Track, ConfigValid, OneIntent;
    SignalsSafe(cfg, rcfg, s, bar);
    TrackSafe(cfg, rcfg, RouteAll(cfg, rcfg, s, bar.intents));
  }

  lemma StepSafe(cfg: SimConfig, rcfg: RiskConfig, s: Session, bar: Bar)
    requires ConfigValid(cfg, rcfg) && !rcfg.allowShort && Safe(cfg, rcfg, s) && OneIntent(bar)
    ensures Safe(cfg, rcfg, StepBar(cfg, rcfg, s, bar))
  {
    hide Safe, AtClose, ProcessBarOpen, MarkBar, RouteAll, Track, OneIntent;
    SafeLive(cfg, rcfg, s);
    var s0 := s.(tally := s.tally.(bars := s.tally.bars + 1));
    CountBarSafe(cfg, rcfg, s, s.tally.bars + 1);
    OpenToClose(cfg, rcfg, s0, bar);
    var marked := MarkBar(cfg, rcfg, ProcessBarOpen(cfg, s0, bar), bar);
    CloseLive(cfg, rcfg, marked);
    CloseToEnd(cfg, rcfg, marked, bar);
  }

  lemma TickNonZero(cfg: SimConfig, rcfg: RiskConfig)
    requires ConfigValid(cfg, rcfg)
    ensures cfg.tickSize != 0.0
  {
  }

  lemma SafeLive(cfg: SimConfig, rcfg: RiskConfig, s: Session)
    requires Safe(cfg, rcfg, s)
    ensures !s.raised
  {
  }

  lemma CloseLive(cfg: SimConfig, rcfg: RiskConfig, s: Session)
    requires AtClose(cfg, rcfg, s)
    ensures !s.raised
  {
  }

  ghost predicate OneIntentEach(bars: seq<Bar>) {
    forall i :: 0 <= i < |bars| ==> OneIntent(bars[i])
  }

  lemma {:induction false} RunSafe(cfg: SimConfig, rcfg: RiskConfig, s: Session, bars: seq<Bar>)
    requires ConfigValid(cfg, rcfg) && !rcfg.allowShort && Safe(cfg, rcfg, s) && OneIntentEach(bars)
    ensures Safe(cfg, rcfg, RunSession(cfg, rcfg, s, bars))
  {
    hide Safe, StepBar, OneIntent;
    if |bars| > 0 {
      RunSafe(cfg, rcfg, s, bars[..|bars| - 1]);
      StepSafe(cfg, rcfg, RunSession(cfg, rcfg, s, bars[..|bars| - 1]), bars[|bars| - 1]);
    }
  }

  lemma FreshSafe(cfg: SimConfig, rcfg: RiskConfig)
    requires ConfigValid(cfg, rcfg)
    ensures Safe(cfg, rcfg, FRESH)
  {
    FreshSane();
    hide Sane, IsBlank;
  }

  /**
   The run's safety, for every bar sequence and every strategy that sends at most one order a bar:
   the start-of-day mark never raises, and every symbol's position is between zero and the cap.
   */
  lemma PositionsStayWithinCap(cfg: SimConfig, rcfg: RiskConfig, bars: seq<Bar>)
    requires ConfigValid(cfg, rcfg) && !rcfg.allowShort && OneIntentEach(bars)
    ensures var r := RunSession(cfg, rcfg, FRESH, bars);
      && !r.raised
      && (forall t :: 0 <= Qty(r.oms, t) <= rcfg.maxPositionShares)
      && 0 <= r.tally.minPosition && r.tally.maxPosition <= rcfg.maxPositionShares
  {
    FreshSafe(cfg, rcfg);
    RunSafe(cfg, rcfg, FRESH, bars);
    hide Sane, RunSession, Qty;
  }

  // ------------------------------------------------------------ after the trip

  /** Switch on, nothing pending: the session is over but for the marks. */
  ghost predicate Stopped(cfg: SimConfig, rcfg: RiskConfig, s: Session) {
    Safe(cfg, rcfg, s) && s.guard.kill && s.broker.pending == []
  }

  /** A bar after the trip only fills the closing order: nothing is sent and nothing else moves. */
  lemma KilledBar(cfg: SimConfig, rcfg: RiskConfig, s: Session, bar: Bar)
    requires ConfigValid(cfg, rcfg) && !rcfg.allowShort && Safe(cfg, rcfg, s) && OneIntent(bar) && s.guard.kill
    ensures var r := StepBar(cfg, rcfg, s, bar);
      && Stopped(cfg, rcfg, r)
      && (s.broker.pending != [] ==> forall t :: Qty(r.oms, t) == 0)
      && (s.broker.pending == [] ==> r.oms == s.oms)
      && r.broker.received == s.broker.received
  {
    hide Safe, StepBar, ProcessBarOpen, MarkBar, RouteAll, Track, Sane, WithinCap, Qty, ConfigValid, AtOpen, AtClose;
    TickNonZero(cfg, rcfg);
    StepSafe(cfg, rcfg, s, bar);
    var filled, marked := StepUnfolds(cfg, rcfg, s, bar);
    KilledMark(cfg, rcfg, filled, bar);
    KilledRefuses(cfg, rcfg, marked, bar.intents);
    TrackQuiet(RouteAll(cfg, rcfg, marked, bar.intents));
  }

  /** The stages of a safe bar. */
  lemma StepUnfolds(cfg: SimConfig, rcfg: RiskConfig, s: Session, bar: Bar) returns (filled: Session, marked: Session)
    requires ConfigValid(cfg, rcfg) && Safe(cfg, rcfg, s)
    ensures marked == MarkBar(cfg, rcfg, filled, bar)
    ensures StepBar(cfg, rcfg, s, bar) == Track(RouteAll(cfg, rcfg, marked, bar.intents))
    ensures AtOpen(cfg, rcfg, filled) && AtClose(cfg, rcfg, marked)
    ensures filled.guard == s.guard && filled.broker.pending == [] && filled.broker.received == s.broker.received
    ensures s.guard.kill && s.broker.pending != [] ==> forall t :: Qty(filled.oms, t) == 0
    ensures s.broker.pending == [] ==> filled.oms == s.oms
  {
    hide Safe, ProcessBarOpen, MarkBar, RouteAll, Track, Sane, WithinCap, Qty, AtOpen, AtClose;
    var s0 := s.(tally := s.tally.(bars := s.tally.bars + 1));
    CountBarSafe(cfg, rcfg, s, s.tally.bars + 1);
    SafeLive(cfg, rcfg, s);
    OpenSafe(cfg, rcfg, s0, bar);
    OpenedSafe(cfg, rcfg, s0, bar);
    BarOpenQuiet(cfg, s0, bar);
    filled := ProcessBarOpen(cfg, s0, bar);
    CloseSafe(cfg, rcfg, filled, bar);
    marked := MarkBar(cfg, rcfg, filled, bar);
    CloseLive(cfg, rcfg, marked);
  }

  lemma KilledMark(cfg: SimConfig, rcfg: RiskConfig, s: Session, bar: Bar)
    requires s.guard.kill
    ensures var r := MarkBar(cfg, rcfg, s, bar); r.oms == s.oms && r.broker == s.broker && r.guard.kill && r.raised == s.raised
  {
    hide Equity, DailyLimit, KillSwitchFired;
  }

  lemma {:induction false} KilledRun(cfg: SimConfig, rcfg: RiskConfig, s: Session, bars: seq<Bar>)
    requires ConfigValid(cfg, rcfg) && !rcfg.allowShort && Safe(cfg, rcfg, s) && OneIntentEach(bars) && s.guard.kill
    requires |bars| > 0
    ensures var r := RunSession(cfg, rcfg, s, bars);
      && Stopped(cfg, rcfg, r)
      && (s.broker.pending != [] ==> forall t :: Qty(r.oms, t) == 0)
      && (s.broker.pending == [] ==> r.oms == s.oms)
      && r.broker.received == s.broker.received
  {
    hide Safe, StepBar, OneIntent, Qty;
    var n := |bars| - 1;
    if n == 0 {
      assert bars[..0] == [];
      assert RunSession(cfg, rcfg, s, []) == s;
      KilledBar(cfg, rcfg, s, bars[0]);
    } else {
      KilledRun(cfg, rcfg, s, bars[..n]);
      KilledBar(cfg, rcfg, RunSession(cfg, rcfg, s, bars[..n]), bars[n]);
    }
  }

  /** A close that turns the switch on is a tripping close. */
  lemma MarkTrips(cfg: SimConfig, rcfg: RiskConfig, s: Session, bar: Bar)
    requires ConfigValid(cfg, rcfg) && AtOpen(cfg, rcfg, s) && !s.guard.kill && MarkBar(cfg, rcfg, s, bar).guard.kill
    ensures var r := MarkBar(cfg, rcfg, s, bar);
      && r.oms.positions == s.oms.positions
      && (r.broker.pending != [] <==> bar.close > 0.0 && exists t :: Qty(s.oms, t) != 0)
  {
    hide AtOpen, MarkBar, Equity, Trips, UpdateEquitySpec, Qty, PendingFits, ConfigValid;
    if !Trips(rcfg, Marked(s), Equity(cfg, s.oms, s.broker.commissions, bar.close)) {
      OpenMark(cfg, rcfg, s);
      QuietMark(cfg, rcfg, s, bar);
    } else {
      TrippingMark(cfg, rcfg, s, bar);
    }
  }

  lemma OpenMark(cfg: SimConfig, rcfg: RiskConfig, s: Session)
    requires AtOpen(cfg, rcfg, s)
    ensures !(s.prevEquity.Some? && !s.guard.kill && s.prevEquity.value <= 0.0)
  {
  }

  /** The bar on which the breaker fires leaves the book as it was, plus one closing order if the close is usable. */
  lemma TrippingBar(cfg: SimConfig, rcfg: RiskConfig, s: Session, bar: Bar)
    requires ConfigValid(cfg, rcfg) && !rcfg.allowShort && Safe(cfg, rcfg, s) && OneIntent(bar) && !s.guard.kill
    requires StepBar(cfg, rcfg, s, bar).guard.kill
    ensures var r := StepBar(cfg, rcfg, s, bar);
      Safe(cfg, rcfg, r) && (r.broker.pending != [] <==> bar.close > 0.0 && exists t :: Qty(r.oms, t) != 0)
  {
    TickNonZero(cfg, rcfg);
    hide Safe, StepBar, AtOpen, AtClose, AtCloseWithOrder, MarkBar, RouteAll, Track, Qty, ConfigValid, OneIntent;
    StepSafe(cfg, rcfg, s, bar);
    var filled, marked := StepUnfolds(cfg, rcfg, s, bar);
    SignalsSafe(cfg, rcfg, marked, bar);
    var routed := RouteAll(cfg, rcfg, marked, bar.intents);
    TrackQuiet(routed);
    MarkTrips(cfg, rcfg, filled, bar);
    SameQuantities(filled.oms, routed.oms);
  }

  lemma SameQuantities(o: Oms, r: Oms)
    requires r.positions == o.positions
    ensures forall t :: Qty(r, t) == Qty(o, t)
  {
  }

  /**
   After the breaker fires, the book is flat from the next bar's open on exactly when it was already
   flat or the tripping close was a usable price; otherwise the flattening is refused and the book
   stays as it is for the rest of the run. Either way nothing is ever sent again.
   */
  lemma FlatAfterTrip(cfg: SimConfig, rcfg: RiskConfig, s: Session, bar: Bar, later: seq<Bar>)
    requires ConfigValid(cfg, rcfg) && !rcfg.allowShort && Safe(cfg, rcfg, s) && OneIntent(bar) && OneIntentEach(later)
    requires !s.guard.kill && StepBar(cfg, rcfg, s, bar).guard.kill && |later| > 0
    ensures var t := StepBar(cfg, rcfg, s, bar); var r := RunSession(cfg, rcfg, t, later);
      && r.broker.received == t.broker.received
      && ((forall x :: Qty(r.oms, x) == 0) <==> bar.close > 0.0 || forall x :: Qty(t.oms, x) == 0)
      && (bar.close <= 0.0 ==> r.oms == t.oms)
  {
    TrippingBar(cfg, rcfg, s, bar);
    hide Safe, StepBar, RunSession, Qty;
    KilledRun(cfg, rcfg, StepBar(cfg, rcfg, s, bar), later);
  }
}
