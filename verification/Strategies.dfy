/**
 The two strategies of Mini-Prop OS: what they emit on a bar, and how the adaptive one keeps its own
 books and learns its entry thresholds.
 */
module Strategies {
  import opened Common
  import opened Ledger
  import opened OmsSpec
  import SimSpec
  import SimSafety

  function Ema(prev: Option<real>, alpha: real, x: real): real {
    match prev case None => x case Some(p) => p + alpha * (x - p)
  }

  /** The sign of fast against slow; equal averages keep the previous sign. */
  function CrossSign(fast: real, slow: real, prev: Option<int>): Option<int> {
    if fast > slow then Some(1) else if fast < slow then Some(-1) else prev
  }

  function MarketOrder(action: Action, symbol: string, quantity: int, strategyId: string, id: int): Intent {
    Intent(action, symbol, quantity, Market, None, FromStrategy, strategyId, id)
  }

  // ------------------------------------------------------------ plain crossover

  datatype CrossConfig = CrossConfig(symbol: string, fastPeriod: nat, slowPeriod: nat, quantity: int, warmup: nat)
  {
    predicate Valid() { 1 <= fastPeriod < slowPeriod && slowPeriod >= 2 && quantity >= 1 }
    function AlphaFast(): real { 2.0 / (fastPeriod + 1) as real }
    function AlphaSlow(): real { 2.0 / (slowPeriod + 1) as real }
  }

  datatype CrossState = CrossState(barsSeen: nat, position: int, fast: Option<real>, slow: Option<real>, sign: Option<int>)

  function CrossBar(cfg: CrossConfig, s: CrossState, barSymbol: string, close: real, id: int): (CrossState, seq<Intent>) {
    if cfg.symbol != "" && barSymbol != cfg.symbol then (s, [])
    else
      var seen := s.(barsSeen := s.barsSeen + 1);
      if close <= 0.0 then (seen, [])
      else
        var fast := Ema(s.fast, cfg.AlphaFast(), close);
        var slow := Ema(s.slow, cfg.AlphaSlow(), close);
        var sign := CrossSign(fast, slow, s.sign);
        var next := seen.(fast := Some(fast), slow := Some(slow), sign := sign);
        if next.barsSeen < cfg.warmup || s.sign.None? || sign == s.sign then (next, [])
        else if sign == Some(1) && s.position == 0 then
          (next, [MarketOrder(Action.Buy, cfg.symbol, cfg.quantity, "ema_crossover", id)])
        else if sign == Some(-1) && s.position > 0 then
          (next, [MarketOrder(Action.Sell, cfg.symbol, s.position, "ema_crossover", id)])
        else (next, [])
  }

  class EmaCrossover {
    const cfg: CrossConfig
    var barsSeen: nat
    var position: int
    var emaFast: Option<real>
    var emaSlow: Option<real>
    var crossSign: Option<int>

    function View(): CrossState
      reads this
    {
      CrossState(barsSeen, position, emaFast, emaSlow, crossSign)
    }

    constructor (cfg: CrossConfig)
      requires cfg.Valid()
      ensures this.cfg == cfg && View() == CrossState(0, 0, None, None, None)
    {
      this.cfg := cfg;
      barsSeen, position, emaFast, emaSlow, crossSign := 0, 0, None, None, None;
    }

    method OnBar(barSymbol: string, close: real, id: int) returns (intents: seq<Intent>)
      modifies this
      ensures (View(), intents) == CrossBar(cfg, old(View()), barSymbol, close, id)
    {
      if cfg.symbol != "" && barSymbol != cfg.symbol {
        return [];
      }
      barsSeen := barsSeen + 1;
      if close <= 0.0 {
        return [];
      }
      emaFast := Some(Ema(emaFast, cfg.AlphaFast(), close));
      emaSlow := Some(Ema(emaSlow, cfg.AlphaSlow(), close));
      var prev := crossSign;
      crossSign := CrossSign(emaFast.value, emaSlow.value, prev);
      if barsSeen < cfg.warmup || prev.None? || crossSign == prev {
        return [];
      }
      if crossSign == Some(1) && position == 0 {
        return [MarketOrder(Action.Buy, cfg.symbol, cfg.quantity, "ema_crossover", id)];
      }
      if crossSign == Some(-1) && position > 0 {
        return [MarketOrder(Action.Sell, cfg.symbol, position, "ema_crossover", id)];
      }
      intents := [];
    }

    method OnOwnFill(signed: int)
      modifies this`position
      ensures position == old(position) + signed
    {
      position := position + signed;
    }
  }

  // ------------------------------------------------------------ adaptive crossover

  datatype Regime = LowVol | NormalVol | HighVol | ExtremeVol

  datatype AdaptiveConfig = AdaptiveConfig(
    symbol: string, alphaFast: real, alphaSlow: real, alphaVolFast: real, alphaVolSlow: real, baseQuantity: int, warmup: nat,
    highRatio: real, extremeRatio: real, confirmWindow: nat, learn: bool, kStep: real, kMin: real, kMax: real, riskPerTrade: real)
  {
    predicate Valid() {
      && baseQuantity >= 1 && 1.0 < highRatio < extremeRatio && confirmWindow >= 1
      && 0.0 <= kMin <= kMax && kStep > 0.0 && riskPerTrade >= 0.0
    }
  }

  /** Entry thresholds; the extreme regime never enters and has none. */
  datatype Thresholds = Thresholds(low: real, normal: real, high: real)
  {
    function At(r: Regime): real {
      match r case LowVol => low case HighVol => high case _ => normal
    }

    function With(r: Regime, k: real): Thresholds {
      match r case LowVol => this.(low := k) case NormalVol => this.(normal := k) case HighVol => this.(high := k) case ExtremeVol => this
    }
  }

  const DEFAULT_THRESHOLDS := Thresholds(0.05, 0.15, 0.35)

  /** The strategy's own books of the running round trip. */
  datatype Trip = Trip(regime: Option<Regime>, avgPrice: real, qty: int, exitPnl: real)

  const NO_TRIP := Trip(None, 0.0, 0, 0.0)

  datatype AdaptiveState = AdaptiveState(
    barsSeen: nat, position: int, fast: Option<real>, slow: Option<real>, volFast: Option<real>, volSlow: Option<real>,
    atr: Option<real>, prevClose: Option<real>, sign: Option<int>, pendingBars: nat,
    thresholds: Thresholds, trip: Trip, trades: nat, wins: nat)

  /**
   A bar with the figures the model takes as given: the absolute log return on the previous close, the
   diffusion move at the new volatility and the quantity the risk budget allows.
   */
  datatype AdaptiveInput = AdaptiveInput(
    symbol: string, high: real, low: real, close: real, absReturn: real, expectedMove: real, budgeted: int, id: int)

  function RegimeOf(cfg: AdaptiveConfig, volFast: Option<real>, volSlow: Option<real>): Regime {
    if volFast.None? || volFast.value == 0.0 || volSlow.None? || volSlow.value <= 0.0 then NormalVol
    else
      var ratio := volFast.value / volSlow.value;
      if ratio >= cfg.extremeRatio then ExtremeVol
      else if ratio >= cfg.highRatio then HighVol
      else if ratio <= 0.7 then LowVol
      else NormalVol
  }

  function RegimeSize(cfg: AdaptiveConfig, r: Regime): int {
    match r case ExtremeVol => 0 case HighVol => MaxI(1, cfg.baseQuantity / 2) case _ => cfg.baseQuantity
  }

  /** The regime size, reduced to the risk budget when there is one. */
  function EntryQuantity(cfg: AdaptiveConfig, r: Regime, budgeted: int): int {
    var size := RegimeSize(cfg, r);
    if size <= 0 || cfg.riskPerTrade <= 0.0 then size else MinI(budgeted, size)
  }

  function TrueRange(i: AdaptiveInput, prev: real): real {
    MaxR(i.high - i.low, MaxR(AbsR(i.high - prev), AbsR(i.low - prev)))
  }

  function Indicators(cfg: AdaptiveConfig, s: AdaptiveState, i: AdaptiveInput): AdaptiveState {
    var live := s.prevClose.Some? && s.prevClose.value > 0.0;
    s.(fast := Some(Ema(s.fast, cfg.alphaFast, i.close)), slow := Some(Ema(s.slow, cfg.alphaSlow, i.close)),
       volFast := if live then Some(Ema(s.volFast, cfg.alphaVolFast, i.absReturn)) else s.volFast,
       volSlow := if live then Some(Ema(s.volSlow, cfg.alphaVolSlow, i.absReturn)) else s.volSlow,
       atr := if live then Some(Ema(s.atr, 2.0 / 15.0, TrueRange(i, s.prevClose.value))) else s.atr,
       prevClose := Some(i.close))
  }

  function ExitOrder(cfg: AdaptiveConfig, position: int, id: int): seq<Intent> {
    if position > 0 then [MarketOrder(Action.Sell, cfg.symbol, position, "adaptive_ema", id)] else []
  }

  /** The diffusion band, or the average true range while there is no volatility estimate. */
  function Band(i: AdaptiveInput, atr: Option<real>): real {
    if i.expectedMove != 0.0 then i.expectedMove else match atr case Some(a) => a case None => 0.0
  }

  predicate Confirms(cfg: AdaptiveConfig, s: AdaptiveState, r: Regime, i: AdaptiveInput) {
    && s.fast.Some? && s.slow.Some?
    && var spread := s.fast.value - s.slow.value;
       spread >= s.thresholds.At(r) * Band(i, s.atr) && EntryQuantity(cfg, r, i.budgeted) > 0 && spread > 0.0
  }

  /** The signal part, once indicators are updated and the strategy is warm. */
  function Signal(cfg: AdaptiveConfig, s: AdaptiveState, prevSign: Option<int>, i: AdaptiveInput): (AdaptiveState, seq<Intent>) {
    var r := RegimeOf(cfg, s.volFast, s.volSlow);
    var crossed := prevSign.Some? && s.sign != prevSign;
    if r == ExtremeVol then (s.(pendingBars := 0), ExitOrder(cfg, s.position, i.id))
    else if crossed && s.sign == Some(-1) then (s.(pendingBars := 0), ExitOrder(cfg, s.position, i.id))
    else
      var armed := if crossed && s.sign == Some(1) && s.position == 0 then s.(pendingBars := cfg.confirmWindow) else s;
      if armed.pendingBars > 0 && armed.position == 0 then
        if Confirms(cfg, armed, r, i) then
          (armed.(pendingBars := 0, trip := armed.trip.(regime := Some(r))),
           [MarketOrder(Action.Buy, cfg.symbol, EntryQuantity(cfg, r, i.budgeted), "adaptive_ema", i.id)])
        else (armed.(pendingBars := armed.pendingBars - 1), [])
      else (armed, [])
  }

  function AdaptiveBar(cfg: AdaptiveConfig, s: AdaptiveState, i: AdaptiveInput): (AdaptiveState, seq<Intent>) {
    if cfg.symbol != "" && i.symbol != cfg.symbol then (s, [])
    else
      var seen := s.(barsSeen := s.barsSeen + 1);
      if i.close <= 0.0 then (seen, [])
      else
        var updated := Indicators(cfg, seen, i);
        var next := updated.(sign := CrossSign(updated.fast.value, updated.slow.value, s.sign));
        if next.barsSeen < cfg.warmup then (next, []) else Signal(cfg, next, s.sign, i)
  }

  /** A finished round trip moves its regime's threshold one bounded step: down on a win, up on a loss. */
  function Learn(cfg: AdaptiveConfig, s: AdaptiveState, pnl: real): AdaptiveState {
    var r := match s.trip.regime case Some(x) => x case None => NormalVol;
    var step := if pnl > 0.0 then -cfg.kStep else cfg.kStep;
    s.(trades := s.trades + 1, wins := s.wins + (if pnl > 0.0 then 1 else 0), trip := NO_TRIP,
       thresholds := if cfg.learn && r != ExtremeVol then
                       s.thresholds.With(r, MinR(cfg.kMax, MaxR(cfg.kMin, s.thresholds.At(r) + step)))
                     else s.thresholds)
  }

  /** The strategy's books after one own fill, before learning. */
  function BookFill(t: Trip, wasFlat: bool, signed: int, price: real): Trip {
    if signed > 0 then
      if wasFlat then t.(avgPrice := price, qty := signed, exitPnl := 0.0)
      else if t.qty + signed == 0 then t
      else t.(avgPrice := (t.avgPrice * t.qty as real + price * signed as real) / (t.qty + signed) as real, qty := t.qty + signed)
    else t.(exitPnl := t.exitPnl + (-signed) as real * (price - t.avgPrice))
  }

  function AdaptiveFill(cfg: AdaptiveConfig, s: AdaptiveState, signed: int, price: real): AdaptiveState {
    var booked := s.(position := s.position + signed, trip := BookFill(s.trip, s.position == 0, signed, price));
    if signed <= 0 && booked.position == 0 && booked.trip.qty > 0 then Learn(cfg, booked, booked.trip.exitPnl) else booked
  }

  const ADAPTIVE_START := AdaptiveState(0, 0, None, None, None, None, None, None, None, 0, DEFAULT_THRESHOLDS, NO_TRIP, 0, 0)

  class AdaptiveEma {
    const cfg: AdaptiveConfig
    var state: AdaptiveState

    constructor (cfg: AdaptiveConfig)
      requires cfg.Valid()
      ensures this.cfg == cfg
      ensures state == ADAPTIVE_START
    {
      this.cfg := cfg;
      state := ADAPTIVE_START;
    }

    method OnBar(i: AdaptiveInput) returns (intents: seq<Intent>)
      modifies this
      ensures (state, intents) == AdaptiveBar(cfg, old(state), i)
    {
      hide RegimeOf, Indicators, Confirms, EntryQuantity;
      if cfg.symbol != "" && i.symbol != cfg.symbol {
        return [];
      }
      state := state.(barsSeen := state.barsSeen + 1);
      if i.close <= 0.0 {
        return [];
      }
      var prevSign := state.sign;
      IndicatorsKnown(cfg, state, i);
      state := Indicators(cfg, state, i);
      state := state.(sign := CrossSign(state.fast.value, state.slow.value, prevSign));
      if state.barsSeen < cfg.warmup {
        return [];
      }
      intents := Emit(prevSign, i);
    }

    /** The signal part of a bar. */
    method Emit(prevSign: Option<int>, i: AdaptiveInput) returns (intents: seq<Intent>)
      modifies this
      ensures (state, intents) == Signal(cfg, old(state), prevSign, i)
    {
      hide RegimeOf, Confirms, EntryQuantity;
      var r := RegimeOf(cfg, state.volFast, state.volSlow);
      if r == ExtremeVol {
        state := state.(pendingBars := 0);
        intents := ExitOrder(cfg, state.position, i.id);
        return;
      }
      var crossed := prevSign.Some? && state.sign != prevSign;
      if crossed && state.sign == Some(-1) {
        state := state.(pendingBars := 0);
        intents := ExitOrder(cfg, state.position, i.id);
        return;
      }
      if crossed && state.sign == Some(1) && state.position == 0 {
        state := state.(pendingBars := cfg.confirmWindow);
      }
      intents := [];
      if state.pendingBars > 0 && state.position == 0 {
        if Confirms(cfg, state, r, i) {
          state := state.(pendingBars := 0, trip := state.trip.(regime := Some(r)));
          intents := [MarketOrder(Action.Buy, cfg.symbol, EntryQuantity(cfg, r, i.budgeted), "adaptive_ema", i.id)];
        } else {
          state := state.(pendingBars := state.pendingBars - 1);
        }
      }
    }

    method OnOwnFill(signed: int, price: real)
      modifies this
      ensures state == AdaptiveFill(cfg, old(state), signed, price)
    {
      hide BookFill, Learn;
      var wasFlat := state.position == 0;
      state := state.(position := state.position + signed, trip := BookFill(state.trip, wasFlat, signed, price));
      if signed <= 0 && state.position == 0 && state.trip.qty > 0 {
        state := Learn(cfg, state, state.trip.exitPnl);
      }
    }
  }

  lemma IndicatorsKnown(cfg: AdaptiveConfig, s: AdaptiveState, i: AdaptiveInput)
    ensures Indicators(cfg, s, i).fast.Some? && Indicators(cfg, s, i).slow.Some?
  {
  }

  // ------------------------------------------------------------ what a bar can emit

  /** One order at most: a buy from flat, or the sale of the whole position. */
  ghost predicate OneOrder(intents: seq<Intent>, symbol: string, position: int) {
    && |intents| <= 1
    && forall k :: 0 <= k < |intents| ==>
         && intents[k].symbol == symbol && intents[k].source == FromStrategy && intents[k].orderType == Market
         && 0 < intents[k].quantity
         && (if intents[k].action == Action.Buy then position == 0 else intents[k].quantity == position)
  }

  lemma CrossoverEmitsOne(cfg: CrossConfig, s: CrossState, barSymbol: string, close: real, id: int)
    requires cfg.Valid()
    ensures OneOrder(CrossBar(cfg, s, barSymbol, close, id).1, cfg.symbol, s.position)
    ensures CrossBar(cfg, s, barSymbol, close, id).0.position == s.position
  {
    hide Ema, CrossSign, CrossConfig.AlphaFast, CrossConfig.AlphaSlow;
  }

  /** The adaptive strategy too, with an entry never above the base quantity and none in extreme volatility. */
  lemma AdaptiveEmitsOne(cfg: AdaptiveConfig, s: AdaptiveState, i: AdaptiveInput)
    requires cfg.Valid()
    ensures var (n, intents) := AdaptiveBar(cfg, s, i);
      && OneOrder(intents, cfg.symbol, s.position) && n.position == s.position
      && (forall k :: 0 <= k < |intents| && intents[k].action == Action.Buy ==>
            intents[k].quantity <= cfg.baseQuantity && RegimeOf(cfg, n.volFast, n.volSlow) != ExtremeVol)
  {
    hide Ema, CrossSign, TrueRange, Confirms, RegimeOf, Band;
    EntryNeverAboveBase(cfg, i);
  }

  lemma EntryNeverAboveBase(cfg: AdaptiveConfig, i: AdaptiveInput)
    requires cfg.Valid()
    ensures forall r :: EntryQuantity(cfg, r, i.budgeted) <= cfg.baseQuantity
    ensures forall s, r :: Confirms(cfg, s, r, i) ==> EntryQuantity(cfg, r, i.budgeted) > 0
  {
    hide Band;
  }

  /** Either strategy's bars meet the one-order condition of the replay's safety results. */
  lemma StrategyBarsAreSafe(bar: SimSpec.Bar, symbol: string, position: int)
    requires OneOrder(bar.intents, symbol, position)
    ensures SimSafety.OneIntent(bar)
  {
  }

  // ------------------------------------------------------------ learning

  /** Learning keeps every threshold it touches inside the bounds, and touches only the trip's regime. */
  lemma LearningIsBounded(cfg: AdaptiveConfig, s: AdaptiveState, pnl: real, r: Regime)
    requires cfg.Valid()
    ensures var k := Learn(cfg, s, pnl).thresholds.At(r);
      && (k == s.thresholds.At(r) || cfg.kMin <= k <= cfg.kMax)
      && (cfg.kMin <= s.thresholds.At(r) <= cfg.kMax ==>
            cfg.kMin <= k <= cfg.kMax && -cfg.kStep <= k - s.thresholds.At(r) <= cfg.kStep)
  {
  }

  /** What reaches the adaptive strategy: bars and its own executions. */
  datatype StrategyEvent = NewBar(i: AdaptiveInput) | OwnFill(signed: int, price: real)

  function AdaptiveStep(cfg: AdaptiveConfig, s: AdaptiveState, e: StrategyEvent): AdaptiveState {
    match e case NewBar(i) => AdaptiveBar(cfg, s, i).0 case OwnFill(signed, price) => AdaptiveFill(cfg, s, signed, price)
  }

  function AdaptiveRun(cfg: AdaptiveConfig, s: AdaptiveState, es: seq<StrategyEvent>): AdaptiveState {
    if |es| == 0 then s else AdaptiveStep(cfg, AdaptiveRun(cfg, s, es[..|es| - 1]), es[|es| - 1])
  }

  /** The event completes a round trip that regime `r` learns from. */
  predicate LearnsFor(cfg: AdaptiveConfig, s: AdaptiveState, e: StrategyEvent, r: Regime) {
    && cfg.learn && e.OwnFill? && e.signed <= 0 && s.position + e.signed == 0 && s.trip.qty > 0
    && r == (match s.trip.regime case Some(x) => x case None => NormalVol)
  }

  /** Round trips regime `r` has learned from. */
  function TripsLearned(cfg: AdaptiveConfig, es: seq<StrategyEvent>, r: Regime): nat {
    if |es| == 0 then 0
    else
      var n := |es| - 1;
      TripsLearned(cfg, es[..n], r) + if LearnsFor(cfg, AdaptiveRun(cfg, ADAPTIVE_START, es[..n]), es[n], r) then 1 else 0
  }

  lemma StepMovesThreshold(cfg: AdaptiveConfig, s: AdaptiveState, e: StrategyEvent, r: Regime)
    requires cfg.Valid() && r != ExtremeVol
    ensures var k := AdaptiveStep(cfg, s, e).thresholds.At(r);
      if LearnsFor(cfg, s, e, r) then cfg.kMin <= k <= cfg.kMax else k == s.thresholds.At(r)
  {
    hide Ema, CrossSign, TrueRange, Confirms, RegimeOf, EntryQuantity;
  }

  lemma {:induction false} ThresholdAfter(cfg: AdaptiveConfig, es: seq<StrategyEvent>, r: Regime)
    requires cfg.Valid() && r != ExtremeVol
    ensures var k := AdaptiveRun(cfg, ADAPTIVE_START, es).thresholds.At(r);
      if TripsLearned(cfg, es, r) == 0 then k == DEFAULT_THRESHOLDS.At(r) else cfg.kMin <= k <= cfg.kMax
  {
    if |es| > 0 {
      hide AdaptiveStep, LearnsFor;
      var n := |es| - 1;
      ThresholdAfter(cfg, es[..n], r);
      StepMovesThreshold(cfg, AdaptiveRun(cfg, ADAPTIVE_START, es[..n]), es[n], r);
    }
  }

  /**
   The bounds bind what is learned, not what is built in: after any bars and fills a regime's threshold
   is inside them exactly when its default is, or when it has learned from at least one round trip.
   */
  lemma {:induction false} ThresholdInsideExactly(cfg: AdaptiveConfig, es: seq<StrategyEvent>, r: Regime)
    requires cfg.Valid() && r != ExtremeVol
    ensures cfg.kMin <= AdaptiveRun(cfg, ADAPTIVE_START, es).thresholds.At(r) <= cfg.kMax
      <==> cfg.kMin <= DEFAULT_THRESHOLDS.At(r) <= cfg.kMax || TripsLearned(cfg, es, r) > 0
  {
    hide AdaptiveRun, TripsLearned;
    ThresholdAfter(cfg, es, r);
  }

  /**
   A valid configuration whose bounds shut out every default: all three thresholds start outside, and
   one round trip brings only its own regime's inside.
   */
  lemma DefaultsCanLieOutside()
    ensures var cfg := AdaptiveConfig("MES", 0.2, 0.1, 0.2, 0.1, 1, 0, 1.5, 2.5, 1, true, 0.05, 0.2, 0.3, 0.0);
      var es := [OwnFill(1, 10.0), OwnFill(-1, 11.0)];
      && cfg.Valid()
      && (forall r :: r != ExtremeVol ==> !(cfg.kMin <= DEFAULT_THRESHOLDS.At(r) <= cfg.kMax))
      && (forall r :: r != ExtremeVol ==>
            (cfg.kMin <= AdaptiveRun(cfg, ADAPTIVE_START, es).thresholds.At(r) <= cfg.kMax <==> r == NormalVol))
  {
    var cfg := AdaptiveConfig("MES", 0.2, 0.1, 0.2, 0.1, 1, 0, 1.5, 2.5, 1, true, 0.05, 0.2, 0.3, 0.0);
    var es := [OwnFill(1, 10.0), OwnFill(-1, 11.0)];
    assert es[..1] == [OwnFill(1, 10.0)] && es[..1][..0] == [];
    var bought := AdaptiveFill(cfg, ADAPTIVE_START, 1, 10.0);
    assert AdaptiveRun(cfg, ADAPTIVE_START, es[..1]) == bought;
    assert bought.trip == Trip(None, 10.0, 1, 0.0) && bought.position == 1;
    var sold := AdaptiveFill(cfg, bought, -1, 11.0);
    assert AdaptiveRun(cfg, ADAPTIVE_START, es) == sold;
    assert sold.thresholds == DEFAULT_THRESHOLDS.(normal := 0.2);
    hide AdaptiveRun;
  }

  // ------------------------------------------------------------ its books against the ledger

  /** The strategy's books describe the ledger's position of an open round trip. */
  ghost predicate BooksAgree(t: Trip, p: PositionView, start: real) {
    && p.quantity > 0 && t.qty >= p.quantity && t.avgPrice == p.avgPrice && t.exitPnl == p.realized - start
  }

  /** The first entry fill, from a flat book. */
  lemma EntryOpensBooks(t: Trip, p: PositionView, signed: int, price: real)
    requires p.quantity == 0 && signed > 0
    ensures BooksAgree(BookFill(t, true, signed, price), ApplyFillSpec(p, signed, price), p.realized)
  {
    assert WeightedAverage(p.avgPrice, 0, price, signed) == price;
  }

  /** A further entry fill before any exit. */
  lemma EntryExtendsBooks(t: Trip, p: PositionView, signed: int, price: real, start: real)
    requires BooksAgree(t, p, start) && t.qty == p.quantity && signed > 0
    ensures var n := BookFill(t, false, signed, price); var q := ApplyFillSpec(p, signed, price);
      BooksAgree(n, q, start) && n.qty == q.quantity
  {
    assert AbsI(p.quantity) == p.quantity && AbsI(signed) == signed && AbsI(p.quantity + signed) == p.quantity + signed;
  }

  /** An exit fill: partial ones keep the books in step, and the last one books the ledger's own profit. */
  lemma ExitBooksLedgerProfit(t: Trip, p: PositionView, signed: int, price: real, start: real)
    requires BooksAgree(t, p, start) && signed < 0 && -signed <= p.quantity
    ensures var n := BookFill(t, false, signed, price); var q := ApplyFillSpec(p, signed, price);
      && n.exitPnl == q.realized - start
      && (q.quantity > 0 ==> BooksAgree(n, q, start))
  {
    var closing := MinI(AbsI(signed), AbsI(p.quantity));
    assert closing == -signed;
    assert ClosedPnl(closing, 1, price, p.avgPrice) == (-signed) as real * (price - p.avgPrice);
    hide ClosedPnl;
  }

  /** Net units of some of the strategy's own fills. */
  function UnitsOf(fills: seq<StrategyEvent>): int
    requires forall i :: 0 <= i < |fills| ==> fills[i].OwnFill?
  {
    if |fills| == 0 then 0 else UnitsOf(fills[..|fills| - 1]) + fills[|fills| - 1].signed
  }

  /** The ledger's position after the same fills. */
  function LedgerAfter(p: PositionView, fills: seq<StrategyEvent>): PositionView
    requires forall i :: 0 <= i < |fills| ==> fills[i].OwnFill?
  {
    if |fills| == 0 then p
    else ApplyFillSpec(LedgerAfter(p, fills[..|fills| - 1]), fills[|fills| - 1].signed, fills[|fills| - 1].price)
  }

  ghost predicate AllBuys(fills: seq<StrategyEvent>) {
    forall i :: 0 <= i < |fills| ==> fills[i].OwnFill? && fills[i].signed > 0
  }

  ghost predicate AllSales(fills: seq<StrategyEvent>) {
    forall i :: 0 <= i < |fills| ==> fills[i].OwnFill? && fills[i].signed < 0
  }

  /** Inside a round trip entered at realised P&L `start`: the books agree and only they and the position have moved. */
  ghost predicate InTrip(s: AdaptiveState, now: AdaptiveState, p: PositionView, start: real) {
    && BooksAgree(now.trip, p, start) && now.position == p.quantity && now.trip.regime == s.trip.regime
    && now == s.(position := now.position, trip := now.trip)
  }

  lemma {:induction false} EntriesOpenTrip(cfg: AdaptiveConfig, s: AdaptiveState, p: PositionView, entries: seq<StrategyEvent>)
    requires s.position == 0 && p.quantity == 0 && |entries| > 0 && AllBuys(entries)
    ensures var now := AdaptiveRun(cfg, s, entries); var q := LedgerAfter(p, entries);
      InTrip(s, now, q, p.realized) && now.trip.qty == q.quantity == UnitsOf(entries)
  {
    hide ApplyFillSpec, BookFill, BooksAgree;
    var n := |entries| - 1;
    var e := entries[n];
    if n == 0 {
      assert entries[..0] == [];
      EntryOpensBooks(s.trip, p, e.signed, e.price);
    } else {
      EntriesOpenTrip(cfg, s, p, entries[..n]);
      var now := AdaptiveRun(cfg, s, entries[..n]);
      BooksHold(now.trip, LedgerAfter(p, entries[..n]), p.realized);
      EntryExtendsBooks(now.trip, LedgerAfter(p, entries[..n]), e.signed, e.price, p.realized);
    }
    BookedFill(AdaptiveRun(cfg, s, entries[..n]).trip, LedgerAfter(p, entries[..n]), n == 0, e.signed, e.price);
  }

  lemma BooksHold(t: Trip, p: PositionView, start: real)
    requires BooksAgree(t, p, start)
    ensures p.quantity > 0 && t.qty > 0
  {
  }

  lemma BookedFill(t: Trip, p: PositionView, wasFlat: bool, signed: int, price: real)
    requires p.quantity >= 0 && p.quantity + signed >= 0
    ensures BookFill(t, wasFlat, signed, price).regime == t.regime
    ensures wasFlat && signed > 0 ==> BookFill(t, wasFlat, signed, price).qty == signed
    ensures signed <= 0 ==> BookFill(t, wasFlat, signed, price).qty == t.qty
    ensures ApplyFillSpec(p, signed, price).quantity == p.quantity + signed
  {
    hide WeightedAverage, ClosedPnl;
  }

  lemma {:induction false} SalesKeepTrip(cfg: AdaptiveConfig, s: AdaptiveState, at: AdaptiveState, p: PositionView,
                                         start: real, sales: seq<StrategyEvent>)
    requires InTrip(s, at, p, start) && AllSales(sales) && p.quantity + UnitsOf(sales) > 0
    ensures InTrip(s, AdaptiveRun(cfg, at, sales), LedgerAfter(p, sales), start)
    ensures LedgerAfter(p, sales).quantity == p.quantity + UnitsOf(sales)
  {
    hide ApplyFillSpec, BookFill, BooksAgree;
    if |sales| > 0 {
      var n := |sales| - 1;
      SalesKeepTrip(cfg, s, at, p, start, sales[..n]);
      var before, q := AdaptiveRun(cfg, at, sales[..n]), LedgerAfter(p, sales[..n]);
      ExitBooksLedgerProfit(before.trip, q, sales[n].signed, sales[n].price, start);
      BookedFill(before.trip, q, false, sales[n].signed, sales[n].price);
    }
  }

  lemma {:induction false} RunConcat(cfg: AdaptiveConfig, s: AdaptiveState, p: PositionView, a: seq<StrategyEvent>, b: seq<StrategyEvent>)
    requires forall i :: 0 <= i < |a| ==> a[i].OwnFill?
    requires forall i :: 0 <= i < |b| ==> b[i].OwnFill?
    ensures AdaptiveRun(cfg, s, a + b) == AdaptiveRun(cfg, AdaptiveRun(cfg, s, a), b)
    ensures LedgerAfter(p, a + b) == LedgerAfter(LedgerAfter(p, a), b)
  {
    hide AdaptiveStep, ApplyFillSpec;
    if |b| == 0 {
      assert a + b == a;
    } else {
      assert (a + b)[..|a + b| - 1] == a + b[..|b| - 1];
      RunConcat(cfg, s, p, a, b[..|b| - 1]);
    }
  }

  /**
   A whole round trip: from flat, any number of entry fills and then any number of exit fills back to
   flat leave the strategy as if it had learned, once, from exactly the profit the ledger realised.
   */
  lemma RoundTripLearnsLedgerProfit(cfg: AdaptiveConfig, s: AdaptiveState, p: PositionView,
                                    entries: seq<StrategyEvent>, exits: seq<StrategyEvent>)
    requires s.position == 0 && p.quantity == 0 && |entries| > 0
    requires AllBuys(entries) && AllSales(exits) && UnitsOf(entries) + UnitsOf(exits) == 0
    ensures var q := LedgerAfter(p, entries + exits);
      q.quantity == 0 && AdaptiveRun(cfg, s, entries + exits) == Learn(cfg, s, q.realized - p.realized)
  {
    hide ApplyFillSpec, BookFill, BooksAgree, Learn;
    EntriesOpenTrip(cfg, s, p, entries);
    RunConcat(cfg, s, p, entries, exits);
    var at, q := AdaptiveRun(cfg, s, entries), LedgerAfter(p, entries);
    BooksHold(at.trip, q, p.realized);
    var n := |exits| - 1;
    SalesKeepTrip(cfg, s, at, q, p.realized, exits[..n]);
    var before, held := AdaptiveRun(cfg, at, exits[..n]), LedgerAfter(q, exits[..n]);
    BooksHold(before.trip, held, p.realized);
    ExitBooksLedgerProfit(before.trip, held, exits[n].signed, exits[n].price, p.realized);
    BookedFill(before.trip, held, false, exits[n].signed, exits[n].price);
    var booked := before.(position := 0, trip := BookFill(before.trip, false, exits[n].signed, exits[n].price));
    LearnReads(cfg, booked, s, booked.trip.exitPnl);
  }

  /** Learning reads the regime, the thresholds and the counters only. */
  lemma LearnReads(cfg: AdaptiveConfig, a: AdaptiveState, s: AdaptiveState, pnl: real)
    requires a == s.(position := a.position, trip := a.trip) && a.trip.regime == s.trip.regime && a.position == s.position
    ensures Learn(cfg, a, pnl) == Learn(cfg, s, pnl)
  {
  }

  /** The threshold one step from `k`, held at the bound it would pass. */
  ghost predicate SteppedTo(cfg: AdaptiveConfig, target: real, k: real) {
    if target < cfg.kMin then k == cfg.kMin else if target > cfg.kMax then k == cfg.kMax else k == target
  }

  /** A winning trip makes its regime's threshold one step easier, any other one step harder; the rest stay. */
  lemma LearnsExactly(cfg: AdaptiveConfig, s: AdaptiveState, pnl: real)
    requires cfg.Valid()
    ensures var n := Learn(cfg, s, pnl); var r := if s.trip.regime.Some? then s.trip.regime.value else NormalVol;
      && (cfg.learn && r != ExtremeVol && pnl > 0.0 ==> SteppedTo(cfg, s.thresholds.At(r) - cfg.kStep, n.thresholds.At(r)))
      && (cfg.learn && r != ExtremeVol && pnl <= 0.0 ==> SteppedTo(cfg, s.thresholds.At(r) + cfg.kStep, n.thresholds.At(r)))
      && (r != LowVol || !cfg.learn ==> n.thresholds.low == s.thresholds.low)
      && (r != NormalVol || !cfg.learn ==> n.thresholds.normal == s.thresholds.normal)
      && (r != HighVol || !cfg.learn ==> n.thresholds.high == s.thresholds.high)
      && n.trades == s.trades + 1 && n.wins == s.wins + (if pnl > 0.0 then 1 else 0) && n.trip == NO_TRIP
  {
  }
}
