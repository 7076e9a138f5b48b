/**
 The two strategies in plain figures: how the averages move on a bar, and exactly when a bar buys, when it
 sells and how much.
 */
module StrategyRules {
  import opened Common
  import opened OmsSpec
  import opened Strategies

  // ------------------------------------------------------------ plain crossover

  /** The exponential average over `period` bars: the close has weight 2 of period + 1, the old average the rest. */
  ghost predicate AverageMoves(period: nat, old_: Option<real>, close: real, now: Option<real>) {
    && now.Some?
    && (old_.None? ==> now.value == close)
    && (old_.Some? ==> (period + 1) as real * now.value == 2.0 * close + (period - 1) as real * old_.value)
  }

  lemma EmaMoves(period: nat, old_: Option<real>, close: real)
    ensures AverageMoves(period, old_, close, Some(Ema(old_, 2.0 / (period + 1) as real, close)))
  {
    if old_.Some? {
      var n := (period + 1) as real;
      var a := 2.0 / n;
      assert a * n == 2.0;
      assert n * (old_.value + a * (close - old_.value)) == n * old_.value + (a * n) * (close - old_.value);
      assert (period - 1) as real == n - 2.0;
      assert (n - 2.0) * old_.value == n * old_.value - 2.0 * old_.value;
    }
  }

  /** The bar counts for the strategy: its own symbol, if it has one, at a positive close. */
  ghost predicate Counts(symbol: string, barSymbol: string, close: real) {
    (symbol == "" || barSymbol == symbol) && close > 0.0
  }

  /** The averages changed sides: their order differs from the last known one and is now `up`. */
  ghost predicate Crossed(before: Option<int>, fast: real, slow: real, up: bool) {
    if up then fast > slow && before.Some? && before != Some(1) else fast < slow && before.Some? && before != Some(-1)
  }

  lemma CrossedExactly(before: Option<int>, fast: real, slow: real)
    ensures var sign := CrossSign(fast, slow, before); var changed := before.Some? && sign != before;
      && (changed && sign == Some(1) <==> Crossed(before, fast, slow, true))
      && (changed && sign == Some(-1) <==> Crossed(before, fast, slow, false))
  {
  }

  /**
   A bar of the plain strategy moves both averages, buys the configured quantity exactly when the fast average
   has crossed above the slow one from a flat book, sells the whole position exactly when it has crossed below,
   and sends nothing else; before the warm-up is over and on a bar that does not count it sends nothing.
   */
  lemma CrossoverExactly(cfg: CrossConfig, s: CrossState, barSymbol: string, close: real, id: int)
    requires Counts(cfg.symbol, barSymbol, close)
    ensures var (n, intents) := CrossBar(cfg, s, barSymbol, close, id);
      && AverageMoves(cfg.fastPeriod, s.fast, close, n.fast) && AverageMoves(cfg.slowPeriod, s.slow, close, n.slow)
      && n.barsSeen == s.barsSeen + 1 && n.position == s.position
      && n.sign == (if n.fast.value > n.slow.value then Some(1) else if n.fast.value < n.slow.value then Some(-1) else s.sign)
      && var warm := n.barsSeen >= cfg.warmup;
         var buys := warm && s.position == 0 && Crossed(s.sign, n.fast.value, n.slow.value, true);
         var sells := warm && s.position > 0 && Crossed(s.sign, n.fast.value, n.slow.value, false);
         intents == (if buys then [Intent(Action.Buy, cfg.symbol, cfg.quantity, Market, None, FromStrategy, "ema_crossover", id)]
                     else if sells then [Intent(Action.Sell, cfg.symbol, s.position, Market, None, FromStrategy, "ema_crossover", id)]
                     else [])
  {
    EmaMoves(cfg.fastPeriod, s.fast, close);
    EmaMoves(cfg.slowPeriod, s.slow, close);
    hide Ema, AverageMoves;
    var n := CrossBar(cfg, s, barSymbol, close, id).0;
    CrossedExactly(s.sign, n.fast.value, n.slow.value);
  }

  lemma OtherBarsIdle(cfg: CrossConfig, s: CrossState, barSymbol: string, close: real, id: int)
    requires !Counts(cfg.symbol, barSymbol, close)
    ensures var (n, intents) := CrossBar(cfg, s, barSymbol, close, id);
      && intents == [] && n == s.(barsSeen := n.barsSeen)
      && n.barsSeen == s.barsSeen + (if cfg.symbol == "" || barSymbol == cfg.symbol then 1 else 0)
  {
  }

  // ------------------------------------------------------------ adaptive crossover

  ghost predicate Blends(alpha: real, old_: Option<real>, x: real, now: Option<real>) {
    now.Some? && now.value == (if old_.Some? then (1.0 - alpha) * old_.value + alpha * x else x)
  }

  lemma EmaBlends(alpha: real, old_: Option<real>, x: real)
    ensures Blends(alpha, old_, x, Some(Ema(old_, alpha, x)))
  {
  }

  /** The widest of the bar's range and its distances from the previous close. */
  ghost predicate TrueRangeIs(i: AdaptiveInput, prev: real, range: real) {
    && range >= i.high - i.low && range >= i.high - prev && range >= prev - i.high
    && range >= i.low - prev && range >= prev - i.low
    && range in {i.high - i.low, i.high - prev, prev - i.high, i.low - prev, prev - i.low}
  }

  /** Both averages move on every bar; volatility and range only once there is a positive previous close. */
  lemma IndicatorsExactly(cfg: AdaptiveConfig, s: AdaptiveState, i: AdaptiveInput, range: real)
    requires Counts(cfg.symbol, i.symbol, i.close)
    requires s.prevClose.Some? ==> TrueRangeIs(i, s.prevClose.value, range)
    ensures var n := AdaptiveBar(cfg, s, i).0; var live := s.prevClose.Some? && s.prevClose.value > 0.0;
      && Blends(cfg.alphaFast, s.fast, i.close, n.fast) && Blends(cfg.alphaSlow, s.slow, i.close, n.slow)
      && n.prevClose == Some(i.close) && n.barsSeen == s.barsSeen + 1
      && n.sign == (if n.fast.value > n.slow.value then Some(1) else if n.fast.value < n.slow.value then Some(-1) else s.sign)
      && (live ==> Blends(cfg.alphaVolFast, s.volFast, i.absReturn, n.volFast)
                   && Blends(cfg.alphaVolSlow, s.volSlow, i.absReturn, n.volSlow)
                   && Blends(2.0 / 15.0, s.atr, range, n.atr))
      && (!live ==> n.volFast == s.volFast && n.volSlow == s.volSlow && n.atr == s.atr)
  {
    hide Ema, RegimeOf, Confirms, EntryQuantity, Blends, Signal;
    var seen := s.(barsSeen := s.barsSeen + 1);
    IndicatorsBlend(cfg, seen, i, range);
    IndicatorsKnown(cfg, seen, i);
    hide Indicators;
    var updated := Indicators(cfg, seen, i);
    SignalKeeps(cfg, updated.(sign := CrossSign(updated.fast.value, updated.slow.value, s.sign)), s.sign, i);
  }

  lemma IndicatorsBlend(cfg: AdaptiveConfig, s: AdaptiveState, i: AdaptiveInput, range: real)
    requires s.prevClose.Some? ==> TrueRangeIs(i, s.prevClose.value, range)
    ensures var n := Indicators(cfg, s, i); var live := s.prevClose.Some? && s.prevClose.value > 0.0;
      && Blends(cfg.alphaFast, s.fast, i.close, n.fast) && Blends(cfg.alphaSlow, s.slow, i.close, n.slow)
      && n.prevClose == Some(i.close) && n.barsSeen == s.barsSeen
      && (live ==> Blends(cfg.alphaVolFast, s.volFast, i.absReturn, n.volFast)
                   && Blends(cfg.alphaVolSlow, s.volSlow, i.absReturn, n.volSlow)
                   && Blends(2.0 / 15.0, s.atr, range, n.atr))
      && (!live ==> n.volFast == s.volFast && n.volSlow == s.volSlow && n.atr == s.atr)
  {
    if s.prevClose.Some? { assert TrueRange(i, s.prevClose.value) == range; }
    EmaBlends(cfg.alphaFast, s.fast, i.close);
    EmaBlends(cfg.alphaSlow, s.slow, i.close);
    EmaBlends(cfg.alphaVolFast, s.volFast, i.absReturn);
    EmaBlends(cfg.alphaVolSlow, s.volSlow, i.absReturn);
    EmaBlends(2.0 / 15.0, s.atr, range);
    hide *;
    IndicatorsAre(cfg, s, i, range);
  }

  lemma IndicatorsAre(cfg: AdaptiveConfig, s: AdaptiveState, i: AdaptiveInput, range: real)
    requires s.prevClose.Some? ==> TrueRange(i, s.prevClose.value) == range
    ensures var n := Indicators(cfg, s, i); var live := s.prevClose.Some? && s.prevClose.value > 0.0;
      && n.fast == Some(Ema(s.fast, cfg.alphaFast, i.close)) && n.slow == Some(Ema(s.slow, cfg.alphaSlow, i.close))
      && n.prevClose == Some(i.close) && n.barsSeen == s.barsSeen
      && (live ==> n.volFast == Some(Ema(s.volFast, cfg.alphaVolFast, i.absReturn))
                   && n.volSlow == Some(Ema(s.volSlow, cfg.alphaVolSlow, i.absReturn))
                   && n.atr == Some(Ema(s.atr, 2.0 / 15.0, range)))
      && (!live ==> n.volFast == s.volFast && n.volSlow == s.volSlow && n.atr == s.atr)
  {
    hide Ema, TrueRange;
  }

  /** The signal part moves the window and the trip's regime only. */
  lemma SignalKeeps(cfg: AdaptiveConfig, s: AdaptiveState, prevSign: Option<int>, i: AdaptiveInput)
    ensures var n := Signal(cfg, s, prevSign, i).0; n == s.(pendingBars := n.pendingBars, trip := n.trip)
  {
    hide RegimeOf, Confirms, EntryQuantity;
  }

  /** Fast volatility is at least `k` times the slow one, both being known and not nil. */
  ghost predicate VolAtLeast(n: AdaptiveState, k: real) {
    && n.volFast.Some? && n.volFast.value != 0.0 && n.volSlow.Some? && n.volSlow.value > 0.0
    && n.volFast.value >= k * n.volSlow.value
  }

  ghost predicate VolKnown(n: AdaptiveState) {
    n.volFast.Some? && n.volFast.value != 0.0 && n.volSlow.Some? && n.volSlow.value > 0.0
  }

  lemma RegimeExactly(cfg: AdaptiveConfig, n: AdaptiveState)
    requires cfg.Valid()
    ensures var r := RegimeOf(cfg, n.volFast, n.volSlow);
      && (r == ExtremeVol <==> VolAtLeast(n, cfg.extremeRatio))
      && (r == HighVol <==> VolAtLeast(n, cfg.highRatio) && !VolAtLeast(n, cfg.extremeRatio))
      && (r == LowVol <==> VolKnown(n) && n.volFast.value <= 0.7 * n.volSlow.value)
  {
    if VolKnown(n) {
      var ratio := n.volFast.value / n.volSlow.value;
      RatioAtLeast(n.volFast.value, n.volSlow.value, cfg.extremeRatio);
      RatioAtLeast(n.volFast.value, n.volSlow.value, cfg.highRatio);
      RatioAtLeast(n.volFast.value, n.volSlow.value, 0.7);
      MulMono(cfg.highRatio, cfg.extremeRatio, n.volSlow.value);
    }
  }

  lemma RatioAtLeast(a: real, b: real, k: real)
    requires b > 0.0
    ensures a / b >= k <==> a >= k * b
    ensures a / b <= k <==> a <= k * b
  {
    var q := a / b;
    assert q * b == a;
    assert (q - k) * b == a - k * b;
    SignTimes(q - k, b);
  }

  /** The entry size: the base, half of it but at least one in high volatility, never more than the budget. */
  ghost function EntrySize(cfg: AdaptiveConfig, n: AdaptiveState, budgeted: int): int {
    var size := if VolAtLeast(n, cfg.highRatio) then (if cfg.baseQuantity / 2 >= 1 then cfg.baseQuantity / 2 else 1)
                else cfg.baseQuantity;
    if cfg.riskPerTrade > 0.0 && budgeted < size then budgeted else size
  }

  /** What the spread must reach: the regime's threshold times the expected move, or the range while that is nil. */
  ghost function EntryBand(cfg: AdaptiveConfig, thresholds: Thresholds, n: AdaptiveState, i: AdaptiveInput): real {
    var k := if VolAtLeast(n, cfg.highRatio) then thresholds.high
             else if VolKnown(n) && n.volFast.value <= 0.7 * n.volSlow.value then thresholds.low
             else thresholds.normal;
    var move := if i.expectedMove != 0.0 then i.expectedMove else if n.atr.Some? then n.atr.value else 0.0;
    k * move
  }

  /** The confirmation window is open on this bar: a cross above just now, or bars left of an earlier one. */
  ghost predicate WindowOpen(cfg: AdaptiveConfig, s: AdaptiveState, n: AdaptiveState)
    requires n.fast.Some? && n.slow.Some?
  {
    (Crossed(s.sign, n.fast.value, n.slow.value, true) && cfg.confirmWindow > 0) || s.pendingBars > 0
  }

  /** Risk-off: extreme volatility, or the fast average crossed below. */
  ghost predicate RiskOff(cfg: AdaptiveConfig, s: AdaptiveState, n: AdaptiveState)
    requires n.fast.Some? && n.slow.Some?
  {
    VolAtLeast(n, cfg.extremeRatio) || Crossed(s.sign, n.fast.value, n.slow.value, false)
  }

  ghost predicate Enters(cfg: AdaptiveConfig, s: AdaptiveState, n: AdaptiveState, i: AdaptiveInput)
    requires n.fast.Some? && n.slow.Some?
  {
    var spread := n.fast.value - n.slow.value;
    && s.position == 0 && !RiskOff(cfg, s, n) && WindowOpen(cfg, s, n)
    && spread > 0.0 && spread >= EntryBand(cfg, s.thresholds, n, i) && EntrySize(cfg, n, i.budgeted) > 0
  }

  /**
   A warm bar of the adaptive strategy buys exactly when the book is flat, the confirmation window is open, nothing
   is risk-off and the spread of the averages is positive and reaches the regime's band; it sells the whole position
   exactly on risk-off; and the window closes on an entry or on risk-off and otherwise loses the bar.
   */
  lemma AdaptiveExactly(cfg: AdaptiveConfig, s: AdaptiveState, i: AdaptiveInput)
    requires cfg.Valid() && Counts(cfg.symbol, i.symbol, i.close) && s.barsSeen + 1 >= cfg.warmup
    ensures var (n, intents) := AdaptiveBar(cfg, s, i);
      && n.fast.Some? && n.slow.Some?
      && intents == (if Enters(cfg, s, n, i) then
                       [Intent(Action.Buy, cfg.symbol, EntrySize(cfg, n, i.budgeted), Market, None, FromStrategy, "adaptive_ema", i.id)]
                     else if RiskOff(cfg, s, n) && s.position > 0 then
                       [Intent(Action.Sell, cfg.symbol, s.position, Market, None, FromStrategy, "adaptive_ema", i.id)]
                     else [])
      && n.pendingBars == (if Enters(cfg, s, n, i) || RiskOff(cfg, s, n) then 0
                           else if s.position != 0 then s.pendingBars
                           else if Crossed(s.sign, n.fast.value, n.slow.value, true) then cfg.confirmWindow - 1
                           else if s.pendingBars > 0 then s.pendingBars - 1 else 0)
      && n.position == s.position && n.thresholds == s.thresholds
      && n.trip == (if Enters(cfg, s, n, i) then s.trip.(regime := n.trip.regime) else s.trip)
  {
    hide Ema, TrueRange;
    var updated := Indicators(cfg, s.(barsSeen := s.barsSeen + 1), i);
    IndicatorsKnown(cfg, s.(barsSeen := s.barsSeen + 1), i);
    var next := updated.(sign := CrossSign(updated.fast.value, updated.slow.value, s.sign));
    CrossedExactly(s.sign, next.fast.value, next.slow.value);
    RegimeExactly(cfg, next);
    var r := RegimeOf(cfg, next.volFast, next.volSlow);
    SizeIs(cfg, next, i.budgeted);
    BandIs(cfg, next, i);
    SameWarmBar(cfg, s, i, updated, next);
    IndicatorsKeep(cfg, s.(barsSeen := s.barsSeen + 1), i);
    hide *;
    SignalExactly(cfg, s, next, i, r);
    EntersReads(cfg, s, next, AdaptiveBar(cfg, s, i).0, i);
  }

  lemma SameWarmBar(cfg: AdaptiveConfig, s: AdaptiveState, i: AdaptiveInput, updated: AdaptiveState, next: AdaptiveState)
    requires Counts(cfg.symbol, i.symbol, i.close) && s.barsSeen + 1 >= cfg.warmup
    requires updated == Indicators(cfg, s.(barsSeen := s.barsSeen + 1), i) && updated.fast.Some? && updated.slow.Some?
    requires next == updated.(sign := CrossSign(updated.fast.value, updated.slow.value, s.sign))
    ensures AdaptiveBar(cfg, s, i) == Signal(cfg, next, s.sign, i)
  {
    hide Ema, TrueRange, Signal, CrossSign;
  }

  lemma IndicatorsKeep(cfg: AdaptiveConfig, s: AdaptiveState, i: AdaptiveInput)
    ensures var n := Indicators(cfg, s, i);
      n.position == s.position && n.pendingBars == s.pendingBars && n.thresholds == s.thresholds && n.trip == s.trip
  {
    hide Ema, TrueRange;
  }

  /** The verdicts read the averages, the volatilities, the range and the thresholds only. */
  lemma EntersReads(cfg: AdaptiveConfig, s: AdaptiveState, a: AdaptiveState, b: AdaptiveState, i: AdaptiveInput)
    requires a.fast.Some? && a.slow.Some? && b == a.(pendingBars := b.pendingBars, trip := b.trip)
    ensures b.fast.Some? && b.slow.Some?
    ensures Enters(cfg, s, a, i) == Enters(cfg, s, b, i) && RiskOff(cfg, s, a) == RiskOff(cfg, s, b)
    ensures EntrySize(cfg, a, i.budgeted) == EntrySize(cfg, b, i.budgeted)
  {
  }

  lemma SizeIs(cfg: AdaptiveConfig, n: AdaptiveState, budgeted: int)
    requires cfg.Valid()
    ensures var r := RegimeOf(cfg, n.volFast, n.volSlow);
      r != ExtremeVol ==> EntryQuantity(cfg, r, budgeted) == EntrySize(cfg, n, budgeted)
  {
    RegimeExactly(cfg, n);
    hide RegimeOf, VolAtLeast;
  }

  lemma BandIs(cfg: AdaptiveConfig, n: AdaptiveState, i: AdaptiveInput)
    requires cfg.Valid()
    ensures var r := RegimeOf(cfg, n.volFast, n.volSlow);
      r != ExtremeVol ==> n.thresholds.At(r) * Band(i, n.atr) == EntryBand(cfg, n.thresholds, n, i)
  {
    RegimeExactly(cfg, n);
    hide RegimeOf;
  }

  /** The signal part, given what the indicators and the regime are. */
  lemma SignalExactly(cfg: AdaptiveConfig, s: AdaptiveState, next: AdaptiveState, i: AdaptiveInput, r: Regime)
    requires next.fast.Some? && next.slow.Some? && r == RegimeOf(cfg, next.volFast, next.volSlow)
    requires next.position == s.position && next.pendingBars == s.pendingBars && next.thresholds == s.thresholds
    requires next.trip == s.trip
    requires r == ExtremeVol <==> VolAtLeast(next, cfg.extremeRatio)
    requires r != ExtremeVol ==> EntryQuantity(cfg, r, i.budgeted) == EntrySize(cfg, next, i.budgeted)
    requires r != ExtremeVol ==> next.thresholds.At(r) * Band(i, next.atr) == EntryBand(cfg, next.thresholds, next, i)
    requires var changed := s.sign.Some? && next.sign != s.sign;
      && (changed && next.sign == Some(1) <==> Crossed(s.sign, next.fast.value, next.slow.value, true))
      && (changed && next.sign == Some(-1) <==> Crossed(s.sign, next.fast.value, next.slow.value, false))
    requires cfg.confirmWindow >= 1
    ensures var (n, intents) := Signal(cfg, next, s.sign, i);
      && n == next.(pendingBars := n.pendingBars, trip := n.trip)
      && intents == (if Enters(cfg, s, next, i) then
                       [Intent(Action.Buy, cfg.symbol, EntrySize(cfg, next, i.budgeted), Market, None, FromStrategy, "adaptive_ema", i.id)]
                     else if RiskOff(cfg, s, next) && s.position > 0 then
                       [Intent(Action.Sell, cfg.symbol, s.position, Market, None, FromStrategy, "adaptive_ema", i.id)]
                     else [])
      && n.pendingBars == (if Enters(cfg, s, next, i) || RiskOff(cfg, s, next) then 0
                           else if s.position != 0 then s.pendingBars
                           else if Crossed(s.sign, next.fast.value, next.slow.value, true) then cfg.confirmWindow - 1
                           else if s.pendingBars > 0 then s.pendingBars - 1 else 0)
      && n.trip == (if Enters(cfg, s, next, i) then s.trip.(regime := Some(r)) else s.trip)
  {
    hide RegimeOf, VolAtLeast, VolKnown, EntryQuantity, EntrySize, EntryBand, Band, Thresholds.At, Crossed;
  }

  /** Before the warm-up is over, and on a bar that does not count, the adaptive strategy sends nothing. */
  lemma ColdBarsIdle(cfg: AdaptiveConfig, s: AdaptiveState, i: AdaptiveInput)
    requires !Counts(cfg.symbol, i.symbol, i.close) || s.barsSeen + 1 < cfg.warmup
    ensures var (n, intents) := AdaptiveBar(cfg, s, i);
      && intents == [] && n.position == s.position && n.pendingBars == s.pendingBars && n.trip == s.trip
      && n.thresholds == s.thresholds
      && (!Counts(cfg.symbol, i.symbol, i.close) ==> n == s.(barsSeen := n.barsSeen))
  {
    hide Ema, TrueRange, CrossSign;
  }

  /** A fresh adaptive strategy is flat, knows no averages and has the documented entry thresholds. */
  lemma StartsExactly()
    ensures ADAPTIVE_START.position == 0 && ADAPTIVE_START.fast.None? && ADAPTIVE_START.slow.None? && ADAPTIVE_START.sign.None?
    ensures ADAPTIVE_START.thresholds.low == 0.05 && ADAPTIVE_START.thresholds.normal == 0.15
    ensures ADAPTIVE_START.thresholds.high == 0.35 && ADAPTIVE_START.pendingBars == 0
  {
  }
}
