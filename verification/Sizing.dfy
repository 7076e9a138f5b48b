/**
 Fixed-fractional position sizing. All arithmetic is exact; the source's rounding of a lot count
 to eight decimals is the identity here.
 */
module Sizing {
  import opened Common
  import opened FtmoRules

  datatype ContractSpec = ContractSpec(
    contractSize: real,
    slippage: real,
    commissionPerLotSide: real,
    typicalSpread: real,
    minLot: real,
    lotStep: real,
    maxLot: real,
    quoteToAccount: real)
  {
    ghost predicate Valid() {
      && contractSize > 0.0 && quoteToAccount > 0.0 && lotStep > 0.0
      && slippage >= 0.0 && commissionPerLotSide >= 0.0 && typicalSpread >= 0.0
      && 0.0 <= minLot <= maxLot
    }

    /** Account-currency P&L of a price move of one on `lots` lots. */
    function ValuePerPriceUnit(lots: real): real { lots * contractSize * quoteToAccount }
  }

  datatype PricedSignal = PricedSignal(symbol: string, side: Side, entry: real, stop: real, target: real)

  datatype SizeResult = Lots(lots: real) | NoRisk | BadStop

  /** The tolerance the source adds before flooring the step count. */
  const STEP_TOLERANCE: real := 0.000000001

  function StopDistance(sig: PricedSignal): real { AbsR(sig.entry - sig.stop) }

  /** The unrounded size that risks exactly `riskAmount` at the stop. */
  function RawLots(sig: PricedSignal, spec: ContractSpec, riskAmount: real): real
    requires spec.Valid() && StopDistance(sig) > 0.0
  {
    PositiveProduct(StopDistance(sig), spec);
    riskAmount / (StopDistance(sig) * spec.ValuePerPriceUnit(1.0))
  }

  lemma PositiveProduct(dist: real, spec: ContractSpec)
    requires spec.Valid() && dist > 0.0
    ensures spec.ValuePerPriceUnit(1.0) > 0.0
    ensures dist * spec.ValuePerPriceUnit(1.0) > 0.0
  {
  }

  function SizeFor(sig: PricedSignal, spec: ContractSpec, riskAmount: real): SizeResult
    requires spec.Valid()
  {
    if riskAmount <= 0.0 then NoRisk
    else if StopDistance(sig) <= 0.0 then BadStop
    else
      var raw := RawLots(sig, spec, riskAmount);
      var lots := (raw / spec.lotStep + STEP_TOLERANCE).Floor as real * spec.lotStep;
      if lots < spec.minLot then Lots(0.0) else Lots(MinR(lots, spec.maxLot))
  }

  function RoundTripCosts(spec: ContractSpec, lots: real, spread: real): real {
    2.0 * spec.commissionPerLotSide * lots
    + spec.ValuePerPriceUnit(lots) * (MaxR(spread, spec.typicalSpread) + 2.0 * spec.slippage)
  }

  function ProjectedLoss(sig: PricedSignal, spec: ContractSpec, riskAmount: real, spread: real): real
    requires spec.Valid() && StopDistance(sig) > 0.0
  {
    riskAmount + RoundTripCosts(spec, RawLots(sig, spec, riskAmount), spread)
  }

  function RiskToStop(side: Side, lots: real, mark: real, stop: real, spec: ContractSpec): real {
    var move := if side == Long then mark - stop else stop - mark;
    MaxR(move, 0.0) * spec.ValuePerPriceUnit(lots)
    + (spec.commissionPerLotSide * lots + spec.ValuePerPriceUnit(lots) * spec.slippage)
  }

  // ------------------------------------------------------------ what sizing guarantees

  /** Cash lost by a position opened at `fill` and closed at `exit`, commissions of both sides included. */
  function RealisedLoss(side: Side, lots: real, fill: real, exit: real, spec: ContractSpec): real {
    (if side == Long then fill - exit else exit - fill) * spec.ValuePerPriceUnit(lots)
    + 2.0 * spec.commissionPerLotSide * lots
  }

  /** Worst loss per lot the projection allows for. */
  function LossPerLot(dist: real, spec: ContractSpec, spread: real): real {
    spec.ValuePerPriceUnit(1.0) * (dist + MaxR(spread, spec.typicalSpread) + 2.0 * spec.slippage)
    + 2.0 * spec.commissionPerLotSide
  }

  /** What the step tolerance can add to a loss. */
  function ToleranceLoss(sig: PricedSignal, spec: ContractSpec, spread: real): real {
    STEP_TOLERANCE * spec.lotStep * LossPerLot(StopDistance(sig), spec, spread)
  }

  lemma ToleranceLossIs(sig: PricedSignal, spec: ContractSpec, spread: real)
    ensures ToleranceLoss(sig, spec, spread) == STEP_TOLERANCE * spec.lotStep * LossPerLot(StopDistance(sig), spec, spread)
  {
  }

  /** The projected loss is the worst loss per lot at the unrounded size. */
  lemma ProjectionIsPerLot(sig: PricedSignal, spec: ContractSpec, riskAmount: real, spread: real)
    requires spec.Valid() && StopDistance(sig) > 0.0
    ensures ProjectedLoss(sig, spec, riskAmount, spread)
         == RawLots(sig, spec, riskAmount) * LossPerLot(StopDistance(sig), spec, spread)
  {
    var dist := StopDistance(sig);
    var unit := spec.ValuePerPriceUnit(1.0);
    var raw := RawLots(sig, spec, riskAmount);
    PositiveProduct(dist, spec);
    assert raw * (dist * unit) == riskAmount;
    ValueScales(spec, raw);
    var s := MaxR(spread, spec.typicalSpread) + 2.0 * spec.slippage;
    Distribute(raw, dist, unit, s, 2.0 * spec.commissionPerLotSide);
  }

  lemma Distribute(raw: real, dist: real, unit: real, s: real, c: real)
    ensures raw * (unit * (dist + s) + c) == raw * (dist * unit) + (raw * unit) * s + c * raw
  {
    assert unit * (dist + s) == dist * unit + unit * s;
    assert raw * (dist * unit + unit * s + c) == raw * (dist * unit) + raw * (unit * s) + raw * c;
    assert raw * (unit * s) == (raw * unit) * s;
  }

  lemma ValueScales(spec: ContractSpec, lots: real)
    ensures spec.ValuePerPriceUnit(lots) == lots * spec.ValuePerPriceUnit(1.0)
  {
    assert 1.0 * spec.contractSize == spec.contractSize;
    assert lots * spec.contractSize * spec.quoteToAccount == lots * (spec.contractSize * spec.quoteToAccount);
  }

  /**
   The lot count never exceeds the unrounded size by more than the step tolerance, and, when the
   caps do not bite, it falls short of it by less than one step.
   */
  lemma SizeBracketsRaw(sig: PricedSignal, spec: ContractSpec, riskAmount: real)
    requires spec.Valid() && riskAmount > 0.0 && StopDistance(sig) > 0.0
    ensures var r := SizeFor(sig, spec, riskAmount); var raw := RawLots(sig, spec, riskAmount);
      && r.Lots?
      && r.lots <= raw + STEP_TOLERANCE * spec.lotStep
      && (spec.minLot <= r.lots && r.lots != spec.maxLot && r.lots > 0.0
          ==> raw + STEP_TOLERANCE * spec.lotStep - r.lots < spec.lotStep)
  {
    PositiveProduct(StopDistance(sig), spec);
    FloorBrackets(RawLots(sig, spec, riskAmount), spec.lotStep);
  }

  lemma FloorBrackets(raw: real, step: real)
    requires step > 0.0
    ensures var k := (raw / step + STEP_TOLERANCE).Floor as real;
      k * step <= raw + STEP_TOLERANCE * step && raw + STEP_TOLERANCE * step - k * step < step
  {
    FloorOfSum(raw / step, raw, step, STEP_TOLERANCE);
  }

  lemma FloorOfSum(x: real, raw: real, step: real, tol: real)
    requires step > 0.0 && x * step == raw
    ensures (x + tol).Floor as real * step <= raw + tol * step
    ensures raw + tol * step - (x + tol).Floor as real * step < step
  {
    var q := x + tol;
    var k := q.Floor as real;
    assert q * step == raw + tol * step;
    ProductBetween(k, q, step, k * step, raw + tol * step);
  }

  lemma ProductBetween(k: real, q: real, step: real, kStep: real, qStep: real)
    requires k <= q < k + 1.0 && step > 0.0
    requires kStep == k * step && qStep == q * step
    ensures kStep <= qStep
    ensures qStep - kStep < step
  {
    var d := k + 1.0 - q;
    assert d * step > 0.0;
    assert d * step == kStep + step - qStep;
    MulMono(k, q, step);
  }

  /**
   A sized trade that is stopped out, filled no worse than the signal's entry plus the effective
   spread and one slippage and exited no worse than the stop less one slippage, loses at most the
   projected loss plus the worst loss of one step tolerance.
   */
  lemma StopOutWithinProjection(sig: PricedSignal, spec: ContractSpec, riskAmount: real, spread: real,
                                fill: real, exit: real)
    requires spec.Valid() && riskAmount > 0.0 && StopDistance(sig) > 0.0
    requires StopOutPrices(sig, spec, spread, fill, exit)
    ensures RealisedLoss(sig.side, SizeFor(sig, spec, riskAmount).lots, fill, exit, spec)
         <= ProjectedLoss(sig, spec, riskAmount, spread) + ToleranceLoss(sig, spec, spread)
  {
    hide *;
    ToleranceLossIs(sig, spec, spread);
    SizeBracketsRaw(sig, spec, riskAmount);
    var lots := SizeFor(sig, spec, riskAmount).lots;
    NonNegativeSize(sig, spec, riskAmount);
    LossIsPerLot(sig, spec, lots, spread, fill, exit);
    ProjectionIsPerLot(sig, spec, riskAmount, spread);
    ScaleWithin(lots, RawLots(sig, spec, riskAmount), STEP_TOLERANCE * spec.lotStep,
                LossPerLot(StopDistance(sig), spec, spread));
  }

  /** Steps before and after the tolerance, and what the source does with them: the size is not rounded up. */
  predicate RoundsDown(sig: PricedSignal, spec: ContractSpec, riskAmount: real)
    requires spec.Valid() && StopDistance(sig) > 0.0
  {
    var raw := RawLots(sig, spec, riskAmount);
    var steps := (raw / spec.lotStep + STEP_TOLERANCE).Floor;
    steps == (raw / spec.lotStep).Floor || steps as real * spec.lotStep < spec.minLot || spec.maxLot <= raw
  }

  lemma WholeStepsWithin(raw: real, step: real, steps: int)
    requires step > 0.0 && (raw / step).Floor <= steps
    ensures steps as real * step <= raw <==> steps == (raw / step).Floor
  {
    var q := raw / step;
    assert q * step == raw;
    ProductOrder(steps as real, q, step, raw);
    assert q.Floor as real <= q < q.Floor as real + 1.0;
  }

  lemma ProductOrder(a: real, q: real, step: real, raw: real)
    requires step > 0.0 && q * step == raw
    ensures a * step <= raw <==> a <= q
  {
    if a <= q {
      MulMono(a, q, step);
    } else {
      var d := a - q;
      assert d * step > 0.0;
      assert d * step == a * step - q * step;
    }
  }

  /** Exactly when the size does not exceed the unrounded one. */
  lemma SizeWithinRawExactly(sig: PricedSignal, spec: ContractSpec, riskAmount: real)
    requires spec.Valid() && riskAmount > 0.0 && StopDistance(sig) > 0.0
    ensures SizeFor(sig, spec, riskAmount).Lots?
    ensures SizeFor(sig, spec, riskAmount).lots <= RawLots(sig, spec, riskAmount) <==> RoundsDown(sig, spec, riskAmount)
  {
    NonNegativeSize(sig, spec, riskAmount);
    var raw := RawLots(sig, spec, riskAmount);
    WholeStepsWithin(raw, spec.lotStep, (raw / spec.lotStep + STEP_TOLERANCE).Floor);
    hide RawLots;
  }

  /** The stop lies on the losing side of the entry. */
  predicate StopBehindEntry(sig: PricedSignal) {
    if sig.side == Long then sig.stop <= sig.entry else sig.stop >= sig.entry
  }

  function WorstFill(sig: PricedSignal, spec: ContractSpec, spread: real): real {
    var s := MaxR(spread, spec.typicalSpread) + spec.slippage;
    if sig.side == Long then sig.entry + s else sig.entry - s
  }

  function WorstExit(sig: PricedSignal, spec: ContractSpec): real {
    if sig.side == Long then sig.stop - spec.slippage else sig.stop + spec.slippage
  }

  /** At the worst assumed prices the loss is the full loss per lot. */
  lemma WorstPricesLoseAll(sig: PricedSignal, spec: ContractSpec, lots: real, spread: real)
    requires spec.Valid() && StopDistance(sig) > 0.0 && StopBehindEntry(sig)
    ensures StopOutPrices(sig, spec, spread, WorstFill(sig, spec, spread), WorstExit(sig, spec))
    ensures RealisedLoss(sig.side, lots, WorstFill(sig, spec, spread), WorstExit(sig, spec), spec)
         == lots * LossPerLot(StopDistance(sig), spec, spread)
    ensures LossPerLot(StopDistance(sig), spec, spread) > 0.0
  {
    var allowed := StopDistance(sig) + MaxR(spread, spec.typicalSpread) + 2.0 * spec.slippage;
    var unit := spec.ValuePerPriceUnit(1.0);
    var fill, exit := WorstFill(sig, spec, spread), WorstExit(sig, spec);
    assert (if sig.side == Long then fill - exit else exit - fill) == allowed;
    ValueScales(spec, lots);
    PositiveProduct(StopDistance(sig), spec);
    WorstArithmetic(allowed, unit, spec.commissionPerLotSide, lots);
  }

  lemma WorstArithmetic(allowed: real, unit: real, c: real, lots: real)
    requires allowed > 0.0 && unit > 0.0 && c >= 0.0
    ensures unit * allowed + 2.0 * c > 0.0
    ensures allowed * (lots * unit) + 2.0 * c * lots == lots * (unit * allowed + 2.0 * c)
  {
    assert unit * allowed > 0.0;
    assert allowed * (lots * unit) == lots * (unit * allowed);
    assert lots * (unit * allowed + 2.0 * c) == lots * (unit * allowed) + 2.0 * c * lots;
  }

  /** A size that was not rounded up loses at most the projection. */
  lemma RoundedDownWithinProjection(sig: PricedSignal, spec: ContractSpec, riskAmount: real, spread: real,
                                    fill: real, exit: real)
    requires spec.Valid() && riskAmount > 0.0 && StopDistance(sig) > 0.0
    requires StopOutPrices(sig, spec, spread, fill, exit)
    requires RoundsDown(sig, spec, riskAmount)
    ensures RealisedLoss(sig.side, SizeFor(sig, spec, riskAmount).lots, fill, exit, spec)
         <= ProjectedLoss(sig, spec, riskAmount, spread)
  {
    hide *;
    SizeBracketsRaw(sig, spec, riskAmount);
    SizeWithinRawExactly(sig, spec, riskAmount);
    var lots := SizeFor(sig, spec, riskAmount).lots;
    NonNegativeSize(sig, spec, riskAmount);
    LossIsPerLot(sig, spec, lots, spread, fill, exit);
    ProjectionIsPerLot(sig, spec, riskAmount, spread);
    ScaleWithin(lots, RawLots(sig, spec, riskAmount), 0.0, LossPerLot(StopDistance(sig), spec, spread));
  }

  /** A size that was rounded up loses more than the projection at the worst assumed prices. */
  lemma RoundedUpExceedsProjection(sig: PricedSignal, spec: ContractSpec, riskAmount: real, spread: real)
    requires spec.Valid() && riskAmount > 0.0 && StopDistance(sig) > 0.0 && StopBehindEntry(sig)
    requires !RoundsDown(sig, spec, riskAmount)
    ensures SizeFor(sig, spec, riskAmount).Lots?
    ensures RealisedLoss(sig.side, SizeFor(sig, spec, riskAmount).lots, WorstFill(sig, spec, spread), WorstExit(sig, spec), spec)
          > ProjectedLoss(sig, spec, riskAmount, spread)
  {
    hide *;
    SizeBracketsRaw(sig, spec, riskAmount);
    SizeWithinRawExactly(sig, spec, riskAmount);
    ProjectionIsPerLot(sig, spec, riskAmount, spread);
    var lots := SizeFor(sig, spec, riskAmount).lots;
    WorstPricesLoseAll(sig, spec, lots, spread);
    MoreLotsLoseMore(lots, RawLots(sig, spec, riskAmount), LossPerLot(StopDistance(sig), spec, spread));
  }

  lemma MoreLotsLoseMore(lots: real, raw: real, per: real)
    requires lots > raw && per > 0.0
    ensures lots * per > raw * per
  {
    assert (lots - raw) * per > 0.0;
  }

  /** No stop-out within the assumed prices loses more than the projection. */
  ghost predicate ProjectionHolds(sig: PricedSignal, spec: ContractSpec, riskAmount: real, spread: real)
    requires spec.Valid() && riskAmount > 0.0 && StopDistance(sig) > 0.0
  {
    SizeFor(sig, spec, riskAmount).Lots? &&
    forall fill, exit :: StopOutPrices(sig, spec, spread, fill, exit) ==>
      RealisedLoss(sig.side, SizeFor(sig, spec, riskAmount).lots, fill, exit, spec) <= ProjectedLoss(sig, spec, riskAmount, spread)
  }

  /** The projection bounds every stop-out within the assumed prices exactly when the size was not rounded up. */
  lemma ProjectionHoldsExactly(sig: PricedSignal, spec: ContractSpec, riskAmount: real, spread: real)
    requires spec.Valid() && riskAmount > 0.0 && StopDistance(sig) > 0.0 && StopBehindEntry(sig)
    ensures ProjectionHolds(sig, spec, riskAmount, spread) <==> RoundsDown(sig, spec, riskAmount)
  {
    SizeWithinRawExactly(sig, spec, riskAmount);
    hide RoundsDown, StopOutPrices, RealisedLoss, ProjectedLoss, RawLots, WorstFill, WorstExit, SizeFor;
    if RoundsDown(sig, spec, riskAmount) {
      forall fill, exit | StopOutPrices(sig, spec, spread, fill, exit)
        ensures RealisedLoss(sig.side, SizeFor(sig, spec, riskAmount).lots, fill, exit, spec)
             <= ProjectedLoss(sig, spec, riskAmount, spread)
      {
        RoundedDownWithinProjection(sig, spec, riskAmount, spread, fill, exit);
      }
    } else {
      RoundedUpExceedsProjection(sig, spec, riskAmount, spread);
      WorstPricesLoseAll(sig, spec, SizeFor(sig, spec, riskAmount).lots, spread);
    }
  }

  lemma ScaleWithin(lots: real, raw: real, tol: real, per: real)
    requires lots <= raw + tol && per >= 0.0
    ensures lots * per <= raw * per + tol * per
    ensures lots <= raw ==> lots * per <= raw * per
  {
    MulMono(lots, raw + tol, per);
    if lots <= raw { MulMono(lots, raw, per); }
  }

  /** A stop-out within the assumed prices loses at most the worst loss per lot, lot by lot. */
  lemma LossIsPerLot(sig: PricedSignal, spec: ContractSpec, lots: real, spread: real, fill: real, exit: real)
    requires spec.Valid() && lots >= 0.0
    requires StopOutPrices(sig, spec, spread, fill, exit)
    ensures LossPerLot(StopDistance(sig), spec, spread) >= 0.0
    ensures RealisedLoss(sig.side, lots, fill, exit, spec) <= lots * LossPerLot(StopDistance(sig), spec, spread)
  {
    var unit := spec.ValuePerPriceUnit(1.0);
    PositiveProduct(1.0, spec);
    ValueScales(spec, lots);
    var move := if sig.side == Long then fill - exit else exit - fill;
    var allowed := StopDistance(sig) + MaxR(spread, spec.typicalSpread) + 2.0 * spec.slippage;
    PerLotArithmetic(move, allowed, unit, spec.commissionPerLotSide, lots);
  }

  lemma PerLotArithmetic(move: real, allowed: real, unit: real, c: real, lots: real)
    requires move <= allowed && 0.0 <= allowed && 0.0 <= unit && 0.0 <= lots && 0.0 <= c
    ensures 0.0 <= unit * allowed + 2.0 * c
    ensures move * (lots * unit) + 2.0 * c * lots <= lots * (unit * allowed + 2.0 * c)
  {
    MulMono(move, allowed, lots * unit);
    assert allowed * (lots * unit) == lots * (unit * allowed);
    assert lots * (unit * allowed + 2.0 * c) == lots * (unit * allowed) + 2.0 * c * lots;
  }

  lemma NonNegativeSize(sig: PricedSignal, spec: ContractSpec, riskAmount: real)
    requires spec.Valid() && riskAmount > 0.0 && StopDistance(sig) > 0.0
    ensures SizeFor(sig, spec, riskAmount).lots >= 0.0
    ensures RawLots(sig, spec, riskAmount) > 0.0
  {
    PositiveProduct(StopDistance(sig), spec);
  }

  /** Prices of a trade filled and stopped out within one slippage of what the projection assumes. */
  ghost predicate StopOutPrices(sig: PricedSignal, spec: ContractSpec, spread: real, fill: real, exit: real) {
    var s := MaxR(spread, spec.typicalSpread);
    if sig.side == Long then
      && sig.stop <= sig.entry
      && fill <= sig.entry + s + spec.slippage
      && exit >= sig.stop - spec.slippage
    else
      && sig.stop >= sig.entry
      && fill >= sig.entry - s - spec.slippage
      && exit <= sig.stop + spec.slippage
  }

  /**
   `RiskToStop` bounds what an open position still loses when it exits at its stop, one slippage
   worse included: the fall from the mark plus the exit commission.
   */
  lemma StopExitWithinRisk(side: Side, lots: real, mark: real, stop: real, exit: real, spec: ContractSpec)
    requires spec.Valid() && lots >= 0.0
    requires if side == Long then exit >= stop - spec.slippage else exit <= stop + spec.slippage
    ensures (if side == Long then mark - exit else exit - mark) * spec.ValuePerPriceUnit(lots)
            + spec.commissionPerLotSide * lots
         <= RiskToStop(side, lots, mark, stop, spec)
  {
    var move := if side == Long then mark - exit else exit - mark;
    var toStop := MaxR(if side == Long then mark - stop else stop - mark, 0.0);
    var unit := spec.ValuePerPriceUnit(lots);
    PositiveProduct(1.0, spec);
    ValueScales(spec, lots);
    MulMono(move, toStop + spec.slippage, unit);
    assert (toStop + spec.slippage) * unit == toStop * unit + unit * spec.slippage;
  }

  /**
   Admission and sizing together: a trade the gate let in at its projected loss, sized by `SizeFor` and
   stopped out within the assumed prices, leaves the account unhalted even if every other open position
   has stopped out as well; a size that was rounded up does so up to the tolerance's own loss.
   */
  lemma AdmittedTradeSurvivesStopOut(sig: PricedSignal, spec: ContractSpec, riskAmount: real, spread: real,
                                     fill: real, exit: real, s: AccountState, cutoff: bool, limits: Limits,
                                     losses: seq<real>)
    requires spec.Valid() && riskAmount > 0.0 && StopDistance(sig) > 0.0
    requires CanOpen(sig.symbol, sig.side, s, cutoff, limits, ProjectedLoss(sig, spec, riskAmount, spread)) == Allowed
    requires StopOutPrices(sig, spec, spread, fill, exit)
    requires |losses| == |s.openPositions|
    requires forall i :: 0 <= i < |losses| ==> losses[i] <= MaxR(s.openPositions[i].riskToStop, 0.0)
    ensures SizeFor(sig, spec, riskAmount).Lots?
    ensures var left := s.equity - Sum(losses) - RealisedLoss(sig.side, SizeFor(sig, spec, riskAmount).lots, fill, exit, spec);
      && (RoundsDown(sig, spec, riskAmount) ==> ShouldHalt(s.(equity := left), limits).None?)
      && ShouldHalt(s.(equity := left + ToleranceLoss(sig, spec, spread)), limits).None?
  {
    hide *;
    SizeBracketsRaw(sig, spec, riskAmount);
    var projected := ProjectedLoss(sig, spec, riskAmount, spread);
    var loss := RealisedLoss(sig.side, SizeFor(sig, spec, riskAmount).lots, fill, exit, spec);
    var slack := ToleranceLoss(sig, spec, spread);
    StopOutWithinProjection(sig, spec, riskAmount, spread, fill, exit);
    AdmissionSound(sig.symbol, sig.side, s, cutoff, limits, projected, losses, loss - slack);
    assert s.equity - Sum(losses) - (loss - slack) == s.equity - Sum(losses) - loss + slack;
    if RoundsDown(sig, spec, riskAmount) {
      RoundedDownWithinProjection(sig, spec, riskAmount, spread, fill, exit);
      AdmissionSound(sig.symbol, sig.side, s, cutoff, limits, projected, losses, loss);
    }
  }

  /**
   The tolerance is real: a trade one billionth of a step short of one lot is sized to a whole lot, is
   admitted at its projection, and halts the account when it is stopped out.
   */
  lemma RoundedUpTradeCanHalt()
    ensures var spec := ContractSpec(1.0, 0.0, 0.0, 0.0, 0.0, 1.0, 100.0, 1.0);
      var sig := PricedSignal("EURUSD", Long, 2.0, 1.0, 4.0);
      var limits := Limits(100.0, 0.01, 0.1, 1, [], 1);
      var s := AccountState(100.0, 100.0, 100.0, [], 0);
      var risk := 1.0 - STEP_TOLERANCE;
      && spec.Valid() && limits.Valid() && StopDistance(sig) > 0.0
      && SizeFor(sig, spec, risk) == Lots(1.0) && !RoundsDown(sig, spec, risk)
      && CanOpen(sig.symbol, sig.side, s, false, limits, ProjectedLoss(sig, spec, risk, 0.0)) == Allowed
      && StopOutPrices(sig, spec, 0.0, 2.0, 1.0)
      && ShouldHalt(s.(equity := s.equity - RealisedLoss(sig.side, 1.0, 2.0, 1.0, spec)), limits) == Some(Daily)
  {
    var spec := ContractSpec(1.0, 0.0, 0.0, 0.0, 0.0, 1.0, 100.0, 1.0);
    var sig := PricedSignal("EURUSD", Long, 2.0, 1.0, 4.0);
    var limits := Limits(100.0, 0.01, 0.1, 1, [], 1);
    var risk := 1.0 - STEP_TOLERANCE;
    assert RawLots(sig, spec, risk) == risk;
    assert (risk / 1.0 + STEP_TOLERANCE).Floor == 1 && (risk / 1.0).Floor == 0;
    assert Symbols([]) + [sig.symbol] == ["EURUSD"];
    SlotsAtMostSymbols(["EURUSD"], limits);
    assert Sum(StopRisks([])) == 0.0;
    assert 100.0 * 0.01 == 1.0;
  }

  /** The stop risk is the loss of an exit one slippage beyond the stop, or beyond the mark when that is worse already. */
  lemma RiskToStopExactly(side: Side, lots: real, mark: real, stop: real, spec: ContractSpec)
    ensures var beyond := if side == Long then mark <= stop else mark >= stop;
      var exit := if side == Long then (if beyond then mark else stop) - spec.slippage
                  else (if beyond then mark else stop) + spec.slippage;
      RiskToStop(side, lots, mark, stop, spec)
      == (if side == Long then mark - exit else exit - mark) * (lots * spec.contractSize * spec.quoteToAccount)
         + spec.commissionPerLotSide * lots
  {
    var unit := lots * spec.contractSize * spec.quoteToAccount;
    var move := MaxR(if side == Long then mark - stop else stop - mark, 0.0);
    assert (move + spec.slippage) * unit == move * unit + unit * spec.slippage;
  }

  /** `k` whole steps fit the unrounded size, the tolerance of a step included. */
  ghost predicate StepsFit(sig: PricedSignal, spec: ContractSpec, riskAmount: real, k: int)
    requires spec.Valid() && StopDistance(sig) > 0.0
  {
    var room := RawLots(sig, spec, riskAmount) + STEP_TOLERANCE * spec.lotStep;
    k as real * spec.lotStep <= room < (k + 1) as real * spec.lotStep
  }

  /** The size: that many steps, nothing below the minimum lot, and never more than the maximum lot. */
  lemma SizeExactly(sig: PricedSignal, spec: ContractSpec, riskAmount: real, k: int)
    requires spec.Valid() && riskAmount > 0.0 && StopDistance(sig) > 0.0 && StepsFit(sig, spec, riskAmount, k)
    ensures var lots := k as real * spec.lotStep;
      SizeFor(sig, spec, riskAmount) == Lots(if lots < spec.minLot then 0.0 else if lots > spec.maxLot then spec.maxLot else lots)
  {
    hide RawLots;
    StepsAre(RawLots(sig, spec, riskAmount), spec.lotStep, k);
  }

  lemma StepsAre(raw: real, step: real, k: int)
    requires step > 0.0 && k as real * step <= raw + STEP_TOLERANCE * step < (k + 1) as real * step
    ensures (raw / step + STEP_TOLERANCE).Floor == k
  {
    var r := raw / step;
    assert r * step == raw;
    var q := r + STEP_TOLERANCE;
    assert q * step == raw + STEP_TOLERANCE * step;
    WholeBelow(k, q, step);
  }

  lemma WholeBelow(k: int, q: real, step: real)
    requires step > 0.0 && k as real * step <= q * step < (k + 1) as real * step
    ensures q.Floor == k
  {
    AtMostScaled(k as real, q, step);
    AtMostScaled((k + 1) as real, q, step);
  }

  /** The unrounded size risks exactly the amount at the stop; without a risk or a stop there is no size. */
  lemma RawRisksAmount(sig: PricedSignal, spec: ContractSpec, riskAmount: real)
    requires spec.Valid() && sig.entry != sig.stop
    ensures StopDistance(sig) > 0.0
    ensures RawLots(sig, spec, riskAmount) * (StopDistance(sig) * spec.contractSize * spec.quoteToAccount) == riskAmount
    ensures SizeFor(sig, spec, riskAmount).Lots? <==> riskAmount > 0.0
  {
    PositiveProduct(StopDistance(sig), spec);
    assert StopDistance(sig) * spec.ValuePerPriceUnit(1.0) == StopDistance(sig) * spec.contractSize * spec.quoteToAccount;
  }
}
