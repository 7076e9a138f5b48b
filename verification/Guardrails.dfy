/**
 The pre-trade gate, the daily-loss circuit breaker and the kill switch of Mini-Prop OS, with what
 an approval guarantees about the book after the order.
 */
module Guardrails {
  import opened Common
  import opened OmsSpec

  datatype RiskConfig = RiskConfig(
    maxPositionShares: int, maxPositionNotional: real, maxOrderQuantity: int, maxGrossNotional: real,
    maxDailyLoss: real, maxDailyLossPct: real, allowShort: bool)

  /** Net units, reference prices and contract multipliers, positions in dictionary order. */
  datatype Snapshot = Snapshot(
    symbols: seq<string>, positions: map<string, int>, prices: map<string, real>, multipliers: map<string, real>)
  {
    function PositionIn(symbol: string): int {
      if symbol in positions then positions[symbol] else 0
    }

    function Price(symbol: string): Option<real> {
      if symbol in prices then Some(prices[symbol]) else None
    }

    function Multiplier(symbol: string): real {
      if symbol in multipliers then multipliers[symbol] else 1.0
    }

    /** The symbols enumerate the dictionary without repetition. */
    ghost predicate Wellformed() {
      && (forall s :: s in symbols <==> s in positions)
      && (forall i, j :: 0 <= i < j < |symbols| ==> symbols[i] != symbols[j])
    }
  }

  datatype Reason =
    | KillSwitchActive | EmptySymbol | BadQuantity | BadLimitPrice | NoReferencePrice | OrderTooLarge
    | WouldShort | TooManyShares | TooMuchNotional | UnpricedBook | TooMuchGross

  datatype Decision = Allow | Refuse(reason: Reason)

  function Notional(units: int, price: real, multiplier: real): real {
    AbsI(units) as real * price * multiplier
  }

  /** One held symbol's exposure; None when it has no usable price. */
  function Leg(snap: Snapshot, symbol: string): Option<real> {
    var qty := snap.PositionIn(symbol);
    if qty == 0 then Some(0.0)
    else
      match snap.Price(symbol)
      case Some(p) => if p <= 0.0 then None else Some(Notional(qty, p, snap.Multiplier(symbol)))
      case None => None
  }

  /** Exposure of the first `n` symbols; None when one of them cannot be priced. */
  function GrossUpTo(snap: Snapshot, n: nat): Option<real>
    requires n <= |snap.symbols|
  {
    if n == 0 then Some(0.0)
    else
      match (GrossUpTo(snap, n - 1), Leg(snap, snap.symbols[n - 1]))
      case (Some(total), Some(leg)) => Some(total + leg)
      case _ => None
  }

  function GrossNotional(snap: Snapshot): Option<real> {
    GrossUpTo(snap, |snap.symbols|)
  }

  predicate IsBlank(s: string) {
    forall c :: c in s ==> c in {' ', '\t', '\n', '\r'}
  }

  function ReferencePrice(intent: Intent, snap: Snapshot): Option<real> {
    if intent.orderType == Limit then intent.limitPrice else snap.Price(intent.symbol)
  }

  /** Checks 1 and 2: the kill switch and the parameters. */
  function CheckParameters(kill: bool, intent: Intent, snap: Snapshot): Decision {
    if kill && intent.source != RiskFlatten then Refuse(KillSwitchActive)
    else if IsBlank(intent.symbol) then Refuse(EmptySymbol)
    else if intent.quantity <= 0 then Refuse(BadQuantity)
    else if intent.orderType == Limit && (intent.limitPrice.None? || intent.limitPrice.value <= 0.0) then
      Refuse(BadLimitPrice)
    else
      match ReferencePrice(intent, snap)
      case Some(p) => if p <= 0.0 then Refuse(NoReferencePrice) else Allow
      case None => Refuse(NoReferencePrice)
  }

  /** Checks 3 to 6: the caps. */
  function CheckCaps(cfg: RiskConfig, intent: Intent, snap: Snapshot, price: real): Decision {
    var current := snap.PositionIn(intent.symbol);
    var resulting := current + intent.SignedQuantity();
    var mult := snap.Multiplier(intent.symbol);
    if intent.quantity > cfg.maxOrderQuantity then Refuse(OrderTooLarge)
    else if resulting < 0 && !cfg.allowShort then Refuse(WouldShort)
    else if AbsI(resulting) > cfg.maxPositionShares then Refuse(TooManyShares)
    else if Notional(resulting, price, mult) > cfg.maxPositionNotional then Refuse(TooMuchNotional)
    else
      match GrossNotional(snap)
      case None => Refuse(UnpricedBook)
      case Some(gross) =>
        if gross - Notional(current, price, mult) + Notional(resulting, price, mult) > cfg.maxGrossNotional then
          Refuse(TooMuchGross)
        else Allow
  }

  function ValidateSpec(cfg: RiskConfig, kill: bool, intent: Intent, snap: Snapshot): Decision {
    var first := CheckParameters(kill, intent, snap);
    if first.Refuse? then first
    else if intent.source == RiskFlatten then Allow
    else CheckCaps(cfg, intent, snap, ReferencePrice(intent, snap).value)
  }

  // ------------------------------------------------------------ circuit breaker

  datatype GuardState = GuardState(kill: bool, startOfDay: Option<real>, lastEquity: Option<real>)

  const ARMED := GuardState(false, None, None)

  function DailyLimit(cfg: RiskConfig, startOfDay: real): real {
    MinR(cfg.maxDailyLoss, cfg.maxDailyLossPct * startOfDay)
  }

  /** The breaker fires on this mark. */
  predicate Trips(cfg: RiskConfig, g: GuardState, equity: real) {
    g.startOfDay.Some? && !g.kill && g.startOfDay.value - equity >= DailyLimit(cfg, g.startOfDay.value)
  }

  function UpdateEquitySpec(cfg: RiskConfig, g: GuardState, equity: real): GuardState {
    g.(lastEquity := Some(equity), kill := g.kill || Trips(cfg, g, equity))
  }

  /** Marking a non-positive start of day raises in the source and changes nothing. */
  function MarkSpec(g: GuardState, equity: real): GuardState {
    if equity <= 0.0 then g else g.(startOfDay := Some(equity), lastEquity := Some(equity))
  }

  // ------------------------------------------------------------ flattening

  predicate StringLess(a: string, b: string) {
    if |b| == 0 then false
    else if |a| == 0 then true
    else a[0] < b[0] || (a[0] == b[0] && StringLess(a[1..], b[1..]))
  }

  function InsertSymbol(s: string, sorted: seq<string>): seq<string> {
    if |sorted| == 0 then [s]
    else if StringLess(sorted[0], s) then [sorted[0]] + InsertSymbol(s, sorted[1..])
    else [s] + sorted
  }

  function SortSymbols(symbols: seq<string>): seq<string> {
    if |symbols| == 0 then [] else InsertSymbol(symbols[|symbols| - 1], SortSymbols(symbols[..|symbols| - 1]))
  }

  function FlattenIntent(symbol: string, qty: int, id: int): Intent {
    Intent(if qty > 0 then Sell else Buy, symbol, AbsI(qty), Market, None, RiskFlatten, "risk", id)
  }

  /** Closing orders for the non-flat symbols of `order`, numbered from `firstId`. */
  function FlattenFor(order: seq<string>, positions: map<string, int>, firstId: int): seq<Intent> {
    if |order| == 0 then []
    else
      var rest := FlattenFor(order[..|order| - 1], positions, firstId);
      var s := order[|order| - 1];
      if s !in positions || positions[s] == 0 then rest
      else rest + [FlattenIntent(s, positions[s], firstId + |rest|)]
  }

  function FlattenSpec(symbols: seq<string>, positions: map<string, int>, firstId: int): seq<Intent> {
    FlattenFor(SortSymbols(symbols), positions, firstId)
  }

  class RiskGuardrails {
    const cfg: RiskConfig
    var killSwitch: bool
    var startOfDayEquity: Option<real>
    var lastEquity: Option<real>

    function View(): GuardState
      reads this
    {
      GuardState(killSwitch, startOfDayEquity, lastEquity)
    }

    constructor (cfg: RiskConfig)
      ensures this.cfg == cfg && View() == ARMED
    {
      this.cfg := cfg;
      killSwitch, startOfDayEquity, lastEquity := false, None, None;
    }

    method Trip()
      modifies this`killSwitch
      ensures View() == old(View()).(kill := true)
    {
      if !killSwitch {
        killSwitch := true;
      }
    }

    /** Only a named operator clears the switch; `refused` is the source's ValueError. */
    method Reset(operator: string) returns (refused: bool)
      modifies this`killSwitch
      ensures refused <==> operator == ""
      ensures View() == if refused then old(View()) else old(View()).(kill := false)
    {
      if operator == "" {
        return true;
      }
      killSwitch := false;
      refused := false;
    }

    /** `raised` is the source's ValueError. */
    method MarkStartOfDay(equity: real) returns (raised: bool)
      modifies this`startOfDayEquity, this`lastEquity
      ensures raised <==> equity <= 0.0
      ensures raised ==> View() == old(View())
      ensures View() == MarkSpec(old(View()), equity)
    {
      if equity <= 0.0 {
        return true;
      }
      startOfDayEquity, lastEquity := Some(equity), Some(equity);
      raised := false;
    }

    method UpdateEquity(equity: real) returns (tripped: bool)
      modifies this`killSwitch, this`lastEquity
      ensures View() == UpdateEquitySpec(cfg, old(View()), equity)
      ensures tripped <==> Trips(cfg, old(View()), equity)
    {
      lastEquity := Some(equity);
      if startOfDayEquity.None? || killSwitch {
        return false;
      }
      var loss := startOfDayEquity.value - equity;
      var limit := MinR(cfg.maxDailyLoss, cfg.maxDailyLossPct * startOfDayEquity.value);
      if loss >= limit {
        Trip();
        return true;
      }
      tripped := false;
    }

    method GrossOf(snap: Snapshot) returns (gross: Option<real>)
      ensures gross == GrossNotional(snap)
    {
      var total := 0.0;
      for i := 0 to |snap.symbols|
        invariant GrossUpTo(snap, i) == Some(total)
      {
        var leg := Leg(snap, snap.symbols[i]);
        if leg.None? {
          NoneForever(snap, i + 1, |snap.symbols|);
          return None;
        }
        total := total + leg.value;
      }
      gross := Some(total);
    }

    method Validate(intent: Intent, snap: Snapshot) returns (d: Decision)
      ensures d == ValidateSpec(cfg, killSwitch, intent, snap)
    {
      hide IsBlank;
      var first := CheckParameters(killSwitch, intent, snap);
      if first.Refuse? {
        return first;
      }
      var price := ReferencePrice(intent, snap).value;
      if intent.source == RiskFlatten {
        return Allow;
      }
      if intent.quantity > cfg.maxOrderQuantity {
        return Refuse(OrderTooLarge);
      }
      var current := snap.PositionIn(intent.symbol);
      var resulting := current + intent.SignedQuantity();
      if resulting < 0 && !cfg.allowShort {
        return Refuse(WouldShort);
      }
      if AbsI(resulting) > cfg.maxPositionShares {
        return Refuse(TooManyShares);
      }
      var mult := snap.Multiplier(intent.symbol);
      var resultingNotional := Notional(resulting, price, mult);
      if resultingNotional > cfg.maxPositionNotional {
        return Refuse(TooMuchNotional);
      }
      var gross := GrossOf(snap);
      if gross.None? {
        return Refuse(UnpricedBook);
      }
      var newGross := gross.value - Notional(current, price, mult) + resultingNotional;
      if newGross > cfg.maxGrossNotional {
        return Refuse(TooMuchGross);
      }
      d := Allow;
    }

    method FlattenIntents(symbols: seq<string>, positions: map<string, int>, firstId: int) returns (intents: seq<Intent>)
      ensures intents == FlattenSpec(symbols, positions, firstId)
    {
      intents := [];
      var order := SortSymbols(symbols);
      for i := 0 to |order|
        invariant intents == FlattenFor(order[..i], positions, firstId)
      {
        assert order[..i + 1][..i] == order[..i];
        if order[i] in positions && positions[order[i]] != 0 {
          intents := intents + [FlattenIntent(order[i], positions[order[i]], firstId + |intents|)];
        }
      }
      assert order[..|order|] == order;
    }
  }

  lemma {:induction false} NoneForever(snap: Snapshot, m: nat, n: nat)
    requires m <= n <= |snap.symbols| && GrossUpTo(snap, m).None?
    ensures GrossUpTo(snap, n).None?
  {
    if m < n {
      NoneForever(snap, m, n - 1);
    }
  }

  // ------------------------------------------------------------ what an approval means

  /** The book after the order has filled. */
  function After(snap: Snapshot, intent: Intent): Snapshot {
    snap.(symbols := if intent.symbol in snap.positions then snap.symbols else snap.symbols + [intent.symbol],
          positions := snap.positions[intent.symbol := snap.PositionIn(intent.symbol) + intent.SignedQuantity()])
  }

  ghost predicate WithinCaps(cfg: RiskConfig, snap: Snapshot, symbol: string, price: real) {
    && (snap.PositionIn(symbol) >= 0 || cfg.allowShort)
    && AbsI(snap.PositionIn(symbol)) <= cfg.maxPositionShares
    && Notional(snap.PositionIn(symbol), price, snap.Multiplier(symbol)) <= cfg.maxPositionNotional
    && (GrossNotional(snap).Some? ==> GrossNotional(snap).value <= cfg.maxGrossNotional)
  }

  lemma {:induction false} GrossUnchanged(snap: Snapshot, after: Snapshot, symbol: string, n: nat)
    requires n <= |snap.symbols| && n <= |after.symbols|
    requires snap.prices == after.prices && snap.multipliers == after.multipliers
    requires forall i :: 0 <= i < n ==> snap.symbols[i] == after.symbols[i] && snap.symbols[i] != symbol
    requires forall s :: s != symbol ==> snap.PositionIn(s) == after.PositionIn(s)
    ensures GrossUpTo(snap, n) == GrossUpTo(after, n)
  {
    if n > 0 {
      GrossUnchanged(snap, after, symbol, n - 1);
    }
  }

  /** Changing one priced symbol's units changes the gross exposure by the difference of its legs. */
  lemma {:induction false} GrossMoves(snap: Snapshot, after: Snapshot, symbol: string, k: nat, n: nat)
    requires k < n <= |snap.symbols| && snap.symbols == after.symbols && snap.symbols[k] == symbol
    requires forall i, j :: 0 <= i < j < |snap.symbols| ==> snap.symbols[i] != snap.symbols[j]
    requires snap.prices == after.prices && snap.multipliers == after.multipliers
    requires forall s :: s != symbol ==> snap.PositionIn(s) == after.PositionIn(s)
    requires Leg(snap, symbol).Some? && Leg(after, symbol).Some?
    ensures GrossUpTo(snap, n).Some? <==> GrossUpTo(after, n).Some?
    ensures GrossUpTo(snap, n).Some? ==>
      GrossUpTo(after, n).value == GrossUpTo(snap, n).value - Leg(snap, symbol).value + Leg(after, symbol).value
  {
    hide Leg;
    if n == k + 1 {
      GrossUnchanged(snap, after, symbol, k);
    } else {
      GrossMoves(snap, after, symbol, k, n - 1);
      assert snap.symbols[n - 1] != symbol;
      assert Leg(snap, snap.symbols[n - 1]) == Leg(after, snap.symbols[n - 1]) by { LegUnchanged(snap, after, snap.symbols[n - 1]); }
    }
  }

  lemma LegUnchanged(snap: Snapshot, after: Snapshot, s: string)
    requires snap.prices == after.prices && snap.multipliers == after.multipliers
    requires snap.PositionIn(s) == after.PositionIn(s)
    ensures Leg(snap, s) == Leg(after, s)
  {
  }

  lemma LegIsNotional(snap: Snapshot, s: string, price: real)
    requires snap.Price(s) == Some(price) && price > 0.0
    ensures Leg(snap, s) == Some(Notional(snap.PositionIn(s), price, snap.Multiplier(s)))
  {
    if snap.PositionIn(s) == 0 {
      assert Notional(0, price, snap.Multiplier(s)) == 0.0;
    }
  }

  /** For an order priced at the reference price, the sixth check bounds the gross exposure after it. */
  lemma GrossAfterOrder(snap: Snapshot, intent: Intent, price: real)
    requires snap.Wellformed() && snap.Price(intent.symbol) == Some(price) && price > 0.0
    ensures var after := After(snap, intent); var mult := snap.Multiplier(intent.symbol);
      && (GrossNotional(snap).Some? <==> GrossNotional(after).Some?)
      && (GrossNotional(snap).Some? ==>
            GrossNotional(after).value
            == GrossNotional(snap).value - Notional(snap.PositionIn(intent.symbol), price, mult)
               + Notional(after.PositionIn(intent.symbol), price, mult))
  {
    hide Leg, Notional, GrossUpTo;
    var after := After(snap, intent);
    LegIsNotional(snap, intent.symbol, price);
    LegIsNotional(after, intent.symbol, price);
    if intent.symbol in snap.positions {
      var k :| 0 <= k < |snap.symbols| && snap.symbols[k] == intent.symbol;
      GrossMoves(snap, after, intent.symbol, k, |snap.symbols|);
    } else {
      GrossUnchanged(snap, after, intent.symbol, |snap.symbols|);
      GrossLast(after);
      assert Notional(0, price, snap.Multiplier(intent.symbol)) == 0.0 by { NothingHeld(price, snap.Multiplier(intent.symbol)); }
    }
  }

  lemma GrossLast(snap: Snapshot)
    requires |snap.symbols| > 0
    ensures var n := |snap.symbols| - 1; var leg := Leg(snap, snap.symbols[n]);
      GrossNotional(snap) == match (GrossUpTo(snap, n), leg) case (Some(t), Some(l)) => Some(t + l) case _ => None
  {
    hide Leg;
  }

  lemma NothingHeld(price: real, mult: real)
    ensures Notional(0, price, mult) == 0.0
  {
  }

  /**
   A market order of a strategy passes exactly when the switch is off, its parameters are usable,
   the held book is priced, and the book AFTER it fills is within every cap.
   */
  lemma ApprovedExactly(cfg: RiskConfig, kill: bool, intent: Intent, snap: Snapshot)
    requires snap.Wellformed() && intent.orderType == Market && intent.source != RiskFlatten
    ensures ValidateSpec(cfg, kill, intent, snap).Allow? <==>
      && !kill && !IsBlank(intent.symbol) && 0 < intent.quantity <= cfg.maxOrderQuantity
      && snap.Price(intent.symbol).Some? && snap.Price(intent.symbol).value > 0.0
      && GrossNotional(snap).Some?
      && WithinCaps(cfg, After(snap, intent), intent.symbol, snap.Price(intent.symbol).value)
  {
    hide IsBlank, GrossNotional, Notional;
    if snap.Price(intent.symbol).Some? && snap.Price(intent.symbol).value > 0.0 {
      GrossAfterOrder(snap, intent, snap.Price(intent.symbol).value);
    }
  }

  // ------------------------------------------------------------ several orders on one bar

  /** Net units of `symbol` among the orders that fill. */
  function FilledNet(intents: seq<Intent>, fills: seq<bool>, symbol: string): int
    requires |fills| == |intents|
  {
    if |intents| == 0 then 0
    else
      var n := |intents| - 1;
      FilledNet(intents[..n], fills[..n], symbol)
      + if fills[n] && intents[n].symbol == symbol then intents[n].SignedQuantity() else 0
  }

  /** Units of `symbol` the orders on one side come to. */
  function SideTotal(intents: seq<Intent>, action: Action, symbol: string): int {
    if |intents| == 0 then 0
    else
      var n := |intents| - 1;
      SideTotal(intents[..n], action, symbol)
      + if intents[n].action == action && intents[n].symbol == symbol then intents[n].quantity else 0
  }

  /** Whichever of the orders fill, the position stays between zero and the cap. */
  ghost predicate StaysWithinCap(cfg: RiskConfig, snap: Snapshot, intents: seq<Intent>, symbol: string) {
    forall fills: seq<bool> :: |fills| == |intents| ==>
      0 <= snap.PositionIn(symbol) + FilledNet(intents, fills, symbol) <= cfg.maxPositionShares
  }

  ghost predicate Sized(intents: seq<Intent>) {
    forall i :: 0 <= i < |intents| ==> intents[i].quantity > 0
  }

  lemma {:induction false} FilledNetBetween(intents: seq<Intent>, fills: seq<bool>, symbol: string)
    requires |fills| == |intents| && Sized(intents)
    ensures -SideTotal(intents, Action.Sell, symbol) <= FilledNet(intents, fills, symbol) <= SideTotal(intents, Action.Buy, symbol)
  {
    if |intents| > 0 {
      FilledNetBetween(intents[..|intents| - 1], fills[..|intents| - 1], symbol);
    }
  }

  /** Only the orders on one side fill. */
  function OnlySide(intents: seq<Intent>, action: Action): (r: seq<bool>)
    ensures |r| == |intents| && forall i :: 0 <= i < |r| ==> (r[i] <==> intents[i].action == action)
  {
    seq(|intents|, i requires 0 <= i < |intents| => intents[i].action == action)
  }

  lemma {:induction false} OnlySideNets(intents: seq<Intent>, action: Action, symbol: string)
    ensures FilledNet(intents, OnlySide(intents, action), symbol)
         == if action == Action.Buy then SideTotal(intents, action, symbol) else -SideTotal(intents, action, symbol)
  {
    if |intents| > 0 {
      var n := |intents| - 1;
      assert OnlySide(intents, action)[..n] == OnlySide(intents[..n], action);
      OnlySideNets(intents[..n], action, symbol);
    }
  }

  /**
   Several orders gated against the same book stay within the cap, whichever of them fill, exactly when
   all the buys together do and all the sells together do: the gate itself looks at one order at a time.
   */
  lemma SameBarOrdersExactly(cfg: RiskConfig, snap: Snapshot, intents: seq<Intent>, symbol: string)
    requires Sized(intents)
    ensures StaysWithinCap(cfg, snap, intents, symbol)
      <==> snap.PositionIn(symbol) + SideTotal(intents, Action.Buy, symbol) <= cfg.maxPositionShares
           && 0 <= snap.PositionIn(symbol) - SideTotal(intents, Action.Sell, symbol)
  {
    hide FilledNet, SideTotal, OnlySide;
    OnlySideNets(intents, Action.Buy, symbol);
    OnlySideNets(intents, Action.Sell, symbol);
    assert |OnlySide(intents, Action.Buy)| == |intents| == |OnlySide(intents, Action.Sell)|;
    forall fills: seq<bool> | |fills| == |intents|
      ensures -SideTotal(intents, Action.Sell, symbol) <= FilledNet(intents, fills, symbol)
           <= SideTotal(intents, Action.Buy, symbol)
    {
      FilledNetBetween(intents, fills, symbol);
    }
    if StaysWithinCap(cfg, snap, intents, symbol) {
      assert 0 <= snap.PositionIn(symbol) + FilledNet(intents, OnlySide(intents, Action.Buy), symbol) <= cfg.maxPositionShares;
      assert 0 <= snap.PositionIn(symbol) + FilledNet(intents, OnlySide(intents, Action.Sell), symbol) <= cfg.maxPositionShares;
    } else {
      var fills: seq<bool> :| |fills| == |intents|
        && !(0 <= snap.PositionIn(symbol) + FilledNet(intents, fills, symbol) <= cfg.maxPositionShares);
      FilledNetBetween(intents, fills, symbol);
    }
  }

  /** Two full-cap buys are each approved against an empty book, and together exceed the cap. */
  lemma SameBarOrdersOvershoot()
    ensures var cfg := RiskConfig(10, 10000.0, 10, 10000.0, 100.0, 0.5, false);
      var snap := Snapshot([], map[], map["MES" := 100.0], map["MES" := 1.0]);
      var order := Intent(Action.Buy, "MES", 10, Market, None, FromStrategy, "example", 1);
      && ValidateSpec(cfg, false, order, snap).Allow?
      && !StaysWithinCap(cfg, snap, [order, order], "MES")
  {
    var cfg := RiskConfig(10, 10000.0, 10, 10000.0, 100.0, 0.5, false);
    var snap := Snapshot([], map[], map["MES" := 100.0], map["MES" := 1.0]);
    var order := Intent(Action.Buy, "MES", 10, Market, None, FromStrategy, "example", 1);
    assert 'M' in "MES";
    assert !IsBlank("MES");
    assert Notional(10, 100.0, 1.0) == 1000.0 && Notional(0, 100.0, 1.0) == 0.0;
    assert [order, order][..1] == [order] && [order][..0] == [];
    assert SideTotal([], Action.Buy, "MES") == 0 && SideTotal([order], Action.Buy, "MES") == 10;
    assert SideTotal([order, order], Action.Buy, "MES") == 20;
    hide StaysWithinCap, SideTotal, IsBlank, Notional;
    SameBarOrdersExactly(cfg, snap, [order, order], "MES");
  }

  // ------------------------------------------------------------ breaker and flattening

  /** With the loss fraction at most one, losing everything always trips an armed breaker. */
  lemma RuinTrips(cfg: RiskConfig, g: GuardState, equity: real)
    requires g.startOfDay.Some? && g.startOfDay.value > 0.0 && cfg.maxDailyLossPct <= 1.0
    requires equity <= 0.0
    ensures UpdateEquitySpec(cfg, g, equity).kill
  {
    MulMono(cfg.maxDailyLossPct, 1.0, g.startOfDay.value);
  }

  /** Units of `symbol` a list of orders trades, with sign. */
  function NetIntent(intents: seq<Intent>, symbol: string): int {
    if |intents| == 0 then 0
    else NetIntent(intents[..|intents| - 1], symbol)
         + if intents[|intents| - 1].symbol == symbol then intents[|intents| - 1].SignedQuantity() else 0
  }

  ghost predicate Distinct(xs: seq<string>) {
    forall i, j :: 0 <= i < j < |xs| ==> xs[i] != xs[j]
  }

  lemma {:induction false} InsertKeepsElements(s: string, xs: seq<string>)
    ensures multiset(InsertSymbol(s, xs)) == multiset(xs) + multiset{s}
  {
    if |xs| > 0 {
      assert xs == [xs[0]] + xs[1..];
      if StringLess(xs[0], s) {
        InsertKeepsElements(s, xs[1..]);
      }
    }
  }

  lemma {:induction false} SortKeepsElements(xs: seq<string>)
    ensures multiset(SortSymbols(xs)) == multiset(xs)
  {
    if |xs| > 0 {
      SortKeepsElements(xs[..|xs| - 1]);
      InsertKeepsElements(xs[|xs| - 1], SortSymbols(xs[..|xs| - 1]));
      assert xs == xs[..|xs| - 1] + [xs[|xs| - 1]];
    }
  }

  lemma {:induction false} FlattenForNets(order: seq<string>, positions: map<string, int>, firstId: int, symbol: string)
    requires Distinct(order)
    ensures NetIntent(FlattenFor(order, positions, firstId), symbol)
         == if symbol in order && symbol in positions then -positions[symbol] else 0
  {
    if |order| > 0 {
      var n := |order| - 1;
      FlattenForNets(order[..n], positions, firstId, symbol);
      var rest := FlattenFor(order[..n], positions, firstId);
      var s := order[n];
      assert symbol in order <==> symbol in order[..n] || symbol == s;
      if s in positions && positions[s] != 0 {
        assert (rest + [FlattenIntent(s, positions[s], firstId + |rest|)])[..|rest|] == rest;
      }
    }
  }

  lemma DistinctIsCounted(xs: seq<string>, ys: seq<string>)
    requires Distinct(xs) && multiset(xs) == multiset(ys)
    ensures Distinct(ys)
  {
    forall i, j | 0 <= i < j < |ys| ensures ys[i] != ys[j] {
      if ys[i] == ys[j] {
        assert ys == ys[..i] + [ys[i]] + ys[i + 1..j] + [ys[j]] + ys[j + 1..];
        assert multiset(ys)[ys[i]] >= 2;
        AtMostOnce(xs, ys[i]);
      }
    }
  }

  lemma {:induction false} AtMostOnce(xs: seq<string>, x: string)
    requires Distinct(xs)
    ensures multiset(xs)[x] <= 1
  {
    if |xs| > 0 {
      var n := |xs| - 1;
      assert xs == xs[..n] + [xs[n]];
      AtMostOnce(xs[..n], x);
      if xs[n] == x {
        assert x !in xs[..n];
      }
    }
  }

  /** The flattening orders trade every position to exactly zero and touch nothing else. */
  lemma FlattenZeroes(symbols: seq<string>, positions: map<string, int>, firstId: int, symbol: string)
    requires Distinct(symbols) && forall s :: s in symbols <==> s in positions
    ensures NetIntent(FlattenSpec(symbols, positions, firstId), symbol)
         == if symbol in positions then -positions[symbol] else 0
  {
    SortKeepsElements(symbols);
    DistinctIsCounted(symbols, SortSymbols(symbols));
    FlattenForNets(SortSymbols(symbols), positions, firstId, symbol);
    assert symbol in SortSymbols(symbols) <==> symbol in multiset(SortSymbols(symbols));
    assert symbol in symbols <==> symbol in multiset(symbols);
  }

  // ------------------------------------------------------------ the checks in plain figures

  /** The breaker trips exactly when it is armed, not tripped, and the loss from the day's start reaches either limit. */
  lemma BreakerTripsExactly(cfg: RiskConfig, g: GuardState, equity: real)
    ensures UpdateEquitySpec(cfg, g, equity).kill <==>
      g.kill || (g.startOfDay.Some? && (|| g.startOfDay.value - equity >= cfg.maxDailyLoss
                                        || g.startOfDay.value - equity >= cfg.maxDailyLossPct * g.startOfDay.value))
    ensures UpdateEquitySpec(cfg, g, equity).startOfDay == g.startOfDay
    ensures UpdateEquitySpec(cfg, g, equity).lastEquity == Some(equity)
  {
  }

  /** One holding's exposure: its units, long or short, at its price and multiplier; one without a price counts as given. */
  ghost predicate ExposureOf(snap: Snapshot, symbol: string, exposure: real) {
    var qty := if symbol in snap.positions then snap.positions[symbol] else 0;
    var mult := if symbol in snap.multipliers then snap.multipliers[symbol] else 1.0;
    if qty == 0 then exposure == 0.0
    else symbol in snap.prices && snap.prices[symbol] > 0.0
         && exposure == AbsI(qty) as real * snap.prices[symbol] * mult
  }

  /** The gross exposure is the sum of the holdings' exposures, and is unknown exactly when a held symbol has no price. */
  lemma {:induction false} GrossIsSum(snap: Snapshot, exposures: seq<real>, n: nat)
    requires n <= |snap.symbols| && |exposures| == |snap.symbols|
    requires forall i :: 0 <= i < n ==> ExposureOf(snap, snap.symbols[i], exposures[i])
    ensures GrossUpTo(snap, n) == Some(Sum(exposures[..n]))
    decreases n
  {
    if n > 0 {
      GrossIsSum(snap, exposures, n - 1);
      assert exposures[..n][..n - 1] == exposures[..n - 1];
      LegIsExposure(snap, snap.symbols[n - 1], exposures[n - 1]);
      hide Leg;
    }
  }

  lemma LegIsExposure(snap: Snapshot, symbol: string, exposure: real)
    requires ExposureOf(snap, symbol, exposure)
    ensures Leg(snap, symbol) == Some(exposure)
  {
    var qty := snap.PositionIn(symbol);
    if qty != 0 {
      assert snap.Price(symbol) == Some(snap.prices[symbol]);
      assert Notional(qty, snap.prices[symbol], snap.Multiplier(symbol)) == exposure;
    }
  }

  lemma {:induction false} GrossUnknown(snap: Snapshot, k: nat, n: nat)
    requires k < n <= |snap.symbols|
    requires forall exposure :: !ExposureOf(snap, snap.symbols[k], exposure)
    ensures GrossUpTo(snap, n).None?
    decreases n
  {
    if k == n - 1 {
      var leg := Leg(snap, snap.symbols[k]);
      if leg.Some? { assert ExposureOf(snap, snap.symbols[k], leg.value); }
    } else {
      GrossUnknown(snap, k, n - 1);
    }
  }

  /**
   The parameter checks, and the two exceptions: a flattening order needs a symbol, a positive quantity and a price
   but passes the kill switch and every cap; a limit order is judged at its own limit price.
   */
  lemma FlattenPassesExactly(cfg: RiskConfig, kill: bool, intent: Intent, snap: Snapshot)
    requires intent.source == RiskFlatten && intent.orderType == Market
    ensures ValidateSpec(cfg, kill, intent, snap).Allow? <==>
      && !IsBlank(intent.symbol) && intent.quantity > 0
      && intent.symbol in snap.prices && snap.prices[intent.symbol] > 0.0
  {
    hide IsBlank;
  }

  lemma LimitApprovedExactly(cfg: RiskConfig, kill: bool, intent: Intent, snap: Snapshot)
    requires intent.orderType == Limit && intent.source != RiskFlatten
    ensures ValidateSpec(cfg, kill, intent, snap).Allow? <==>
      && !kill && !IsBlank(intent.symbol) && 0 < intent.quantity <= cfg.maxOrderQuantity
      && intent.limitPrice.Some? && intent.limitPrice.value > 0.0 && GrossNotional(snap).Some?
      && var held := snap.PositionIn(intent.symbol);
         var after := if intent.action == Action.Buy then held + intent.quantity else held - intent.quantity;
         var unit := intent.limitPrice.value * snap.Multiplier(intent.symbol);
         && (after >= 0 || cfg.allowShort) && AbsI(after) <= cfg.maxPositionShares
         && AbsI(after) as real * unit <= cfg.maxPositionNotional
         && GrossNotional(snap).value - AbsI(held) as real * unit + AbsI(after) as real * unit <= cfg.maxGrossNotional
  {
    hide IsBlank, GrossNotional;
    if intent.limitPrice.Some? {
      var held := snap.PositionIn(intent.symbol);
      var after := held + intent.SignedQuantity();
      NotionalIs(held, intent.limitPrice.value, snap.Multiplier(intent.symbol));
      NotionalIs(after, intent.limitPrice.value, snap.Multiplier(intent.symbol));
      hide Notional;
    }
  }

  lemma NotionalIs(units: int, price: real, multiplier: real)
    ensures Notional(units, price, multiplier) == AbsI(units) as real * (price * multiplier)
  {
  }

  /** The gate's checks on an order, in its order, as the conditions that refuse it. `price` is what it is judged at. */
  ghost function Failures(cfg: RiskConfig, kill: bool, intent: Intent, snap: Snapshot, price: Option<real>): seq<(bool, Reason)> {
    var held := snap.PositionIn(intent.symbol);
    var after := if intent.action == Action.Buy then held + intent.quantity else held - intent.quantity;
    var p := if price.Some? then price.value else 0.0;
    var mult := snap.Multiplier(intent.symbol);
    var gross := GrossNotional(snap);
    [(kill && intent.source != RiskFlatten, KillSwitchActive),
     (IsBlank(intent.symbol), EmptySymbol),
     (intent.quantity <= 0, BadQuantity),
     (intent.orderType == Limit && (price.None? || p <= 0.0), BadLimitPrice),
     (price.None? || p <= 0.0, NoReferencePrice),
     (intent.quantity > cfg.maxOrderQuantity, OrderTooLarge),
     (after < 0 && !cfg.allowShort, WouldShort),
     (AbsI(after) > cfg.maxPositionShares, TooManyShares),
     (Notional(after, p, mult) > cfg.maxPositionNotional, TooMuchNotional),
     (gross.None?, UnpricedBook),
     (gross.Some? && gross.value - Notional(held, p, mult) + Notional(after, p, mult) > cfg.maxGrossNotional, TooMuchGross)]
  }

  /** What an order is judged at: its own limit price, or the market's price for its symbol. */
  ghost predicate JudgedAt(intent: Intent, snap: Snapshot, price: Option<real>) {
    if intent.orderType == Limit then price == intent.limitPrice
    else if intent.symbol in snap.prices then price == Some(snap.prices[intent.symbol]) else price.None?
  }

  /** A refusal names the first check that fails; a flattening order is not subject to those from the order size on. */
  lemma RefusedByFirst(cfg: RiskConfig, kill: bool, intent: Intent, snap: Snapshot, price: Option<real>, k: nat)
    requires JudgedAt(intent, snap, price) && k < |Failures(cfg, kill, intent, snap, price)|
    requires intent.source == RiskFlatten ==> k < 5
    requires var f := Failures(cfg, kill, intent, snap, price); f[k].0 && forall j :: 0 <= j < k ==> !f[j].0
    ensures ValidateSpec(cfg, kill, intent, snap) == Refuse(Failures(cfg, kill, intent, snap, price)[k].1)
  {
    hide IsBlank, GrossNotional, Notional;
    var f := Failures(cfg, kill, intent, snap, price);
    assert (k > 0 ==> !f[0].0) && (k > 1 ==> !f[1].0) && (k > 2 ==> !f[2].0) && (k > 3 ==> !f[3].0) && (k > 4 ==> !f[4].0);
    assert (k > 5 ==> !f[5].0) && (k > 6 ==> !f[6].0) && (k > 7 ==> !f[7].0) && (k > 8 ==> !f[8].0) && (k > 9 ==> !f[9].0);
  }

  /** `a` comes before `b`: it is a shorter beginning of it, or has the smaller character where they first differ. */
  ghost predicate ComesBefore(a: string, b: string) {
    exists k :: 0 <= k <= |a| && k < |b| && a[..k] == b[..k] && (k == |a| || a[k] < b[k])
  }

  lemma {:induction false} StringLessExactly(a: string, b: string)
    ensures StringLess(a, b) <==> ComesBefore(a, b)
  {
    if |a| == 0 || |b| == 0 {
      if |a| == 0 && |b| > 0 { assert a[..0] == b[..0]; }
    } else if a[0] != b[0] {
      assert a[..0] == b[..0];
      forall k | 0 < k <= |a| && k < |b| ensures a[..k] != b[..k] {
        assert a[..k][0] != b[..k][0];
      }
    } else {
      StringLessExactly(a[1..], b[1..]);
      if ComesBefore(a, b) {
        var k :| 0 <= k <= |a| && k < |b| && a[..k] == b[..k] && (k == |a| || a[k] < b[k]);
        assert a[1..][..k - 1] == a[..k][1..] && b[1..][..k - 1] == b[..k][1..];
        assert ComesBefore(a[1..], b[1..]);
      }
      if ComesBefore(a[1..], b[1..]) {
        var k :| 0 <= k <= |a[1..]| && k < |b[1..]| && a[1..][..k] == b[1..][..k] && (k == |a[1..]| || a[1..][k] < b[1..][k]);
        assert a[..k + 1] == [a[0]] + a[1..][..k] && b[..k + 1] == [b[0]] + b[1..][..k];
      }
    }
  }

  lemma {:induction false} LessIsTotal(a: string, b: string)
    ensures StringLess(a, b) || StringLess(b, a) || a == b
  {
    if |a| > 0 && |b| > 0 && a[0] == b[0] {
      LessIsTotal(a[1..], b[1..]);
      assert a == [a[0]] + a[1..] && b == [b[0]] + b[1..];
    }
  }

  lemma {:induction false} LessIsTransitive(a: string, b: string, c: string)
    requires StringLess(a, b) && StringLess(b, c)
    ensures StringLess(a, c)
  {
    if |a| > 0 && a[0] == b[0] && b[0] == c[0] { LessIsTransitive(a[1..], b[1..], c[1..]); }
  }

  ghost predicate InOrder(xs: seq<string>) {
    forall i, j :: 0 <= i < j < |xs| ==> StringLess(xs[i], xs[j]) || xs[i] == xs[j]
  }

  lemma {:induction false} InsertKeepsOrder(s: string, xs: seq<string>)
    requires InOrder(xs)
    ensures InOrder(InsertSymbol(s, xs))
    ensures forall x :: x in InsertSymbol(s, xs) ==> x == s || x in xs
  {
    if |xs| == 0 {
    } else if StringLess(xs[0], s) {
      assert InOrder(xs[1..]) by { TailInOrder(xs); }
      InsertKeepsOrder(s, xs[1..]);
      var tail := InsertSymbol(s, xs[1..]);
      forall x | x in tail ensures StringLess(xs[0], x) || xs[0] == x {
        if x != s { assert x in xs[1..]; }
      }
      HeadInOrder(xs[0], tail);
    } else {
      LessIsTotal(xs[0], s);
      forall x | x in xs ensures StringLess(s, x) || s == x {
        if x != xs[0] && s != xs[0] {
          var i :| 0 < i < |xs| && xs[i] == x;
          LessIsTransitive(s, xs[0], x);
        }
      }
      HeadInOrder(s, xs);
    }
  }

  lemma TailInOrder(xs: seq<string>)
    requires InOrder(xs) && |xs| > 0
    ensures InOrder(xs[1..])
  {
    hide StringLess;
  }

  lemma HeadInOrder(s: string, xs: seq<string>)
    requires InOrder(xs) && forall x :: x in xs ==> StringLess(s, x) || s == x
    ensures InOrder([s] + xs)
  {
    hide StringLess;
    forall i, j | 0 <= i < j < |xs| + 1 ensures StringLess(([s] + xs)[i], ([s] + xs)[j]) || ([s] + xs)[i] == ([s] + xs)[j] {
      if i == 0 { assert xs[j - 1] in xs; }
    }
  }

  lemma {:induction false} SortInOrder(xs: seq<string>)
    ensures InOrder(SortSymbols(xs))
  {
    if |xs| > 0 {
      hide InOrder;
      SortInOrder(xs[..|xs| - 1]);
      InsertKeepsOrder(xs[|xs| - 1], SortSymbols(xs[..|xs| - 1]));
    } else {
      hide StringLess;
    }
  }

  /** Orders for symbols of `order`, in that order, numbered from `firstId`. */
  ghost predicate NumberedFrom(r: seq<Intent>, order: seq<string>, firstId: int) {
    && (forall i :: 0 <= i < |r| ==> NumberedAs(r[i], order, firstId + i))
    && (forall i, j :: 0 <= i < j < |r| ==> StringLess(r[i].symbol, r[j].symbol) || r[i].symbol == r[j].symbol)
  }

  ghost predicate NumberedAs(intent: Intent, order: seq<string>, id: int) {
    intent.intentId == id && intent.source == RiskFlatten && intent.orderType == Market && intent.symbol in order
  }

  lemma {:induction false} FlattenForOrdered(order: seq<string>, positions: map<string, int>, firstId: int)
    requires InOrder(order)
    ensures NumberedFrom(FlattenFor(order, positions, firstId), order, firstId)
  {
    hide StringLess;
    if |order| > 0 {
      var n := |order| - 1;
      FlattenForOrdered(order[..n], positions, firstId);
      var rest := FlattenFor(order[..n], positions, firstId);
      forall i | 0 <= i < |rest|
        ensures NumberedAs(rest[i], order, firstId + i)
        ensures StringLess(rest[i].symbol, order[n]) || rest[i].symbol == order[n]
      {
        assert NumberedAs(rest[i], order[..n], firstId + i);
        var k :| 0 <= k < n && order[..n][k] == rest[i].symbol;
        assert order[k] == rest[i].symbol;
      }
      assert order[n] in order;
      hide InOrder;
    }
  }

  /** The flattening orders come in symbol order and are numbered from the first id on. */
  lemma FlattenOrdered(symbols: seq<string>, positions: map<string, int>, firstId: int)
    ensures var r := FlattenSpec(symbols, positions, firstId);
      && (forall i :: 0 <= i < |r| ==> r[i].intentId == firstId + i && r[i].source == RiskFlatten && r[i].orderType == Market)
      && (forall i, j :: 0 <= i < j < |r| ==> ComesBefore(r[i].symbol, r[j].symbol) || r[i].symbol == r[j].symbol)
  {
    SortInOrder(symbols);
    FlattenForOrdered(SortSymbols(symbols), positions, firstId);
    hide InOrder, ComesBefore, StringLess;
    var r := FlattenSpec(symbols, positions, firstId);
    forall i | 0 <= i < |r| ensures r[i].intentId == firstId + i && r[i].source == RiskFlatten && r[i].orderType == Market {
      assert NumberedAs(r[i], SortSymbols(symbols), firstId + i);
    }
    forall i, j | 0 <= i < j < |r| ensures ComesBefore(r[i].symbol, r[j].symbol) || r[i].symbol == r[j].symbol {
      StringLessExactly(r[i].symbol, r[j].symbol);
    }
  }
}
