/**
 The challenge Monte Carlo: one phase over drawn and stressed trading days with the modelled guard,
 and exactly when that guard keeps every path clear of the outer limits.
 */
module MonteCarlo {
  import opened Common
  import opened FtmoRules

  /** A drawn trade: its result, its worst excursion, its spread cost and the value of one pip. */
  datatype Trade = Trade(pnl: real, mae: real, spread: real, pip: real)

  /** A drawn session: its trades, each with whether the draw keeps it. */
  type Draw = seq<(Trade, bool)>

  /** One path's stress: spread widening and extra slippage in pips. */
  datatype Stress = Stress(widen: real, slip: real)

  datatype Hit = Hit(pnl: real, mae: real)

  function Stressed(t: Trade, s: Stress): Hit {
    Hit(t.pnl - s.widen * t.spread - 2.0 * s.slip * t.pip, t.mae - s.widen * t.spread - s.slip * t.pip)
  }

  /** The kept trades of a draw, stressed, in order. */
  function Hits(d: Draw, s: Stress): seq<Hit> {
    if |d| == 0 then []
    else Hits(d[..|d| - 1], s) + if d[|d| - 1].1 then [Stressed(d[|d| - 1].0, s)] else []
  }

  datatype Day = Day(cum: real, low: real, halted: bool)

  /** One trade of a day: the guard flattens at the daily limit if its worst point breaches. */
  function TakeTrade(engine: Limits, initial: real, start: real, d: Day, h: Hit): Day {
    var cand := d.cum + MinR(h.mae, h.pnl);
    if d.halted then d
    else if ShouldHalt(Mark(start + cand, start, initial), engine).Some? then
      var cum := MinR(d.cum, -engine.DailyLossLimit());
      Day(cum, MinR(d.low, cum), true)
    else
      var cum := d.cum + h.pnl;
      Day(cum, MinR(MinR(d.low, cand), cum), false)
  }

  function PlayDay(engine: Limits, initial: real, start: real, hits: seq<Hit>): Day {
    if |hits| == 0 then Day(0.0, 0.0, false)
    else TakeTrade(engine, initial, start, PlayDay(engine, initial, start, hits[..|hits| - 1]), hits[|hits| - 1])
  }

  datatype Reason = Target | FtmoDaily | FtmoOverall | EngineOverall | Timeout

  datatype Outcome = Outcome(passed: bool, reason: Reason, days: nat, engineDailyHalts: nat)

  datatype Progress = Running(equity: real, tradingDays: nat, halts: nat) | Ended(outcome: Outcome)

  datatype PhaseConfig = PhaseConfig(engine: Limits, ftmo: Limits, targetPct: real, minTradingDays: nat, stress: Stress)

  /** How a played day ends the phase, if it does: the outer limits first, then the engine's, then the target. */
  function Judge(cfg: PhaseConfig, start: real, tradingDays: nat, d: Day): Option<Reason> {
    var initial := cfg.ftmo.initialBalance;
    var worst := Mark(start + d.low, start, initial);
    var f := ShouldHalt(worst, cfg.ftmo);
    if f.Some? then Some(if f.value == Daily then FtmoDaily else FtmoOverall)
    else if ShouldHalt(worst, cfg.engine) == Some(Overall) then Some(EngineOverall)
    else if TargetReached(start + d.cum, initial, cfg.targetPct) && tradingDays >= cfg.minTradingDays then Some(Target)
    else None
  }

  /** One day of the phase; a day whose trades are all dropped is skipped. */
  function NextDay(cfg: PhaseConfig, p: Progress, dayNumber: nat, draw: Draw): Progress {
    var hits := Hits(draw, cfg.stress);
    if p.Ended? || |hits| == 0 then p
    else
      var d := PlayDay(cfg.engine, cfg.ftmo.initialBalance, p.equity, hits);
      var halts := p.halts + if d.halted then 1 else 0;
      match Judge(cfg, p.equity, p.tradingDays + 1, d)
      case Some(reason) => Ended(Outcome(reason == Target, reason, dayNumber, halts))
      case None => Running(p.equity + d.cum, p.tradingDays + 1, halts)
  }

  function AfterDays(cfg: PhaseConfig, draws: seq<Draw>): Progress {
    if |draws| == 0 then Running(cfg.ftmo.initialBalance, 0, 0)
    else NextDay(cfg, AfterDays(cfg, draws[..|draws| - 1]), |draws|, draws[|draws| - 1])
  }

  function PhaseOutcome(cfg: PhaseConfig, draws: seq<Draw>): Outcome {
    match AfterDays(cfg, draws)
    case Ended(outcome) => outcome
    case Running(_, _, halts) => Outcome(false, Timeout, |draws|, halts)
  }

  method RunPhase(cfg: PhaseConfig, draws: seq<Draw>) returns (outcome: Outcome)
    ensures outcome == PhaseOutcome(cfg, draws)
  {
    hide Judge, TakeTrade, Hits;
    var initial := cfg.ftmo.initialBalance;
    var equity := initial;
    var tradingDays, engineDaily := 0, 0;
    for day := 1 to |draws| + 1
      invariant AfterDays(cfg, draws[..day - 1]) == Running(equity, tradingDays, engineDaily)
    {
      assert draws[..day][..day - 1] == draws[..day - 1];
      var hits := Hits(draws[day - 1], cfg.stress);
      if |hits| > 0 {
        var start := equity;
        var d := Day(0.0, 0.0, false);
        var k := 0;
        while k < |hits| && !d.halted
          invariant 0 <= k <= |hits|
          invariant d == PlayDay(cfg.engine, initial, start, hits[..k])
        {
          assert hits[..k + 1][..k] == hits[..k];
          d := TakeTrade(cfg.engine, initial, start, d, hits[k]);
          k := k + 1;
        }
        if d.halted {
          HaltedDayRests(cfg.engine, initial, start, hits, k);
          engineDaily := engineDaily + 1;
        }
        assert hits[..|hits|] == hits;
        tradingDays := tradingDays + 1;
        equity := start + d.cum;
        var end := Judge(cfg, start, tradingDays, d);
        if end.Some? {
          outcome := Outcome(end.value == Target, end.value, day, engineDaily);
          EndedStays(cfg, draws, day);
          return;
        }
      }
    }
    assert draws[..|draws|] == draws;
    outcome := Outcome(false, Timeout, |draws|, engineDaily);
  }

  lemma {:induction false} HaltedDayRests(engine: Limits, initial: real, start: real, hits: seq<Hit>, k: nat)
    requires k <= |hits| && PlayDay(engine, initial, start, hits[..k]).halted
    ensures PlayDay(engine, initial, start, hits) == PlayDay(engine, initial, start, hits[..k])
  {
    if k == |hits| {
      assert hits[..k] == hits;
    } else {
      assert hits[..|hits| - 1][..k] == hits[..k];
      HaltedDayRests(engine, initial, start, hits[..|hits| - 1], k);
    }
  }

  lemma {:induction false} EndedStays(cfg: PhaseConfig, draws: seq<Draw>, n: nat)
    requires n <= |draws| && AfterDays(cfg, draws[..n]).Ended?
    ensures AfterDays(cfg, draws) == AfterDays(cfg, draws[..n])
  {
    if n == |draws| {
      assert draws[..n] == draws;
    } else {
      assert draws[..|draws| - 1][..n] == draws[..n];
      EndedStays(cfg, draws[..|draws| - 1], n);
    }
  }

  // ------------------------------------------------------------ containment

  /** Inside a day nothing is beyond the engine's limits, and a halted day stands exactly at the daily one. */
  lemma {:induction false} DayContained(engine: Limits, initial: real, start: real, hits: seq<Hit>)
    requires engine.Valid() && start > initial - engine.OverallLossLimit()
    ensures var d := PlayDay(engine, initial, start, hits);
      && (d.halted ==> d.low == d.cum == -engine.DailyLossLimit())
      && (!d.halted ==> -engine.DailyLossLimit() < d.low <= d.cum && initial - engine.OverallLossLimit() < start + d.low)
  {
    LimitsPositive(engine);
    hide Limits.DailyLossLimit, Limits.OverallLossLimit, Limits.Valid;
    if |hits| > 0 {
      DayContained(engine, initial, start, hits[..|hits| - 1]);
    }
  }

  lemma LimitsPositive(l: Limits)
    requires l.Valid()
    ensures l.DailyLossLimit() > 0.0 && l.OverallLossLimit() > 0.0
  {
  }

  ghost predicate Contains(engine: Limits, ftmo: Limits) {
    && engine.DailyLossLimit() < ftmo.DailyLossLimit()
    && engine.DailyLossLimit() + engine.OverallLossLimit() <= ftmo.OverallLossLimit()
  }

  /** Between days a running phase stands above the engine's overall floor, and no outer breach has ended it. */
  lemma {:induction false} PhaseContained(cfg: PhaseConfig, draws: seq<Draw>)
    requires cfg.engine.Valid() && cfg.ftmo.Valid() && Contains(cfg.engine, cfg.ftmo)
    ensures match AfterDays(cfg, draws)
      case Running(equity, _, _) => equity > cfg.ftmo.initialBalance - cfg.engine.OverallLossLimit()
      case Ended(outcome) => outcome.reason != FtmoDaily && outcome.reason != FtmoOverall
  {
    LimitsPositive(cfg.engine);
    if |draws| > 0 {
      PhaseContained(cfg, draws[..|draws| - 1]);
      var p := AfterDays(cfg, draws[..|draws| - 1]);
      var hits := Hits(draws[|draws| - 1], cfg.stress);
      if p.Running? && |hits| > 0 {
        DayContained(cfg.engine, cfg.ftmo.initialBalance, p.equity, hits);
      }
      hide PlayDay, Limits.DailyLossLimit, Limits.OverallLossLimit, Limits.Valid, Hits;
    }
  }

  // ------------------------------------------------------------ the condition is necessary

  /** A session of one kept trade that costs exactly `loss` at its worst and at its end. */
  function Losing(loss: real): Draw {
    [(Trade(-loss, -loss, 0.0, 0.0), true)]
  }

  lemma LosingHits(loss: real, s: Stress)
    ensures Hits(Losing(loss), s) == [Hit(-loss, -loss)]
  {
    assert Losing(loss)[..0] == [];
    assert Stressed(Trade(-loss, -loss, 0.0, 0.0), s) == Hit(-loss, -loss);
  }

  lemma LosingDay(engine: Limits, initial: real, start: real, loss: real)
    requires loss >= 0.0
    ensures var d := PlayDay(engine, initial, start, [Hit(-loss, -loss)]);
      if ShouldHalt(Mark(start - loss, start, initial), engine).Some? then
        d == Day(MinR(0.0, -engine.DailyLossLimit()), MinR(0.0, MinR(0.0, -engine.DailyLossLimit())), true)
      else d == Day(-loss, -loss, false)
  {
    var hits := [Hit(-loss, -loss)];
    assert hits[..0] == [];
    assert PlayDay(engine, initial, start, hits[..0]) == Day(0.0, 0.0, false);
    hide Limits.DailyLossLimit, ShouldHalt;
    assert 0.0 + MinR(-loss, -loss) == -loss;
    assert start + -loss == start - loss;
  }

  /** Nothing short of the initial balance is a target. */
  ghost predicate TargetOutOfReach(cfg: PhaseConfig) {
    forall equity :: equity <= cfg.ftmo.initialBalance ==> !TargetReached(equity, cfg.ftmo.initialBalance, cfg.targetPct)
  }

  /** `m` sessions each losing `loss`, all within both sets of limits, leave the phase running. */
  lemma {:induction false} LosingRun(cfg: PhaseConfig, loss: real, m: nat, spent: real)
    requires cfg.engine.Valid() && cfg.ftmo.Valid() && TargetOutOfReach(cfg)
    requires 0.0 <= loss < cfg.engine.DailyLossLimit() && loss < cfg.ftmo.DailyLossLimit()
    requires spent == m as real * loss && spent < cfg.engine.OverallLossLimit() && spent < cfg.ftmo.OverallLossLimit()
    ensures AfterDays(cfg, seq(m, _ => Losing(loss))) == Running(cfg.ftmo.initialBalance - spent, m, 0)
  {
    var initial := cfg.ftmo.initialBalance;
    if m > 0 {
      var before := spent - loss;
      assert before == (m - 1) as real * loss;
      hide Limits.DailyLossLimit, Limits.OverallLossLimit, Limits.Valid, TargetReached;
      LosingRun(cfg, loss, m - 1, before);
      assert seq(m, _ => Losing(loss))[..m - 1] == seq(m - 1, _ => Losing(loss));
      LosingHits(loss, cfg.stress);
      LosingDay(cfg.engine, initial, initial - before, loss);
      hide Losing, Hits, PlayDay;
      assert initial - before + -loss == initial - spent;
      assert !TargetReached(initial - spent, initial, cfg.targetPct);
    }
  }

  /** A session that breaches the engine's daily limit, from `equity`, when the outer limits do not contain it. */
  lemma LastDay(cfg: PhaseConfig, draws: seq<Draw>, equity: real, n: nat)
    requires cfg.engine.Valid() && cfg.ftmo.Valid() && AfterDays(cfg, draws) == Running(equity, n, 0)
    requires
      || cfg.engine.DailyLossLimit() >= cfg.ftmo.DailyLossLimit()
      || cfg.ftmo.initialBalance - equity + cfg.engine.DailyLossLimit() >= cfg.ftmo.OverallLossLimit()
    ensures PhaseOutcome(cfg, draws + [Losing(cfg.engine.DailyLossLimit())]).reason in {FtmoDaily, FtmoOverall}
  {
    LimitsPositive(cfg.engine);
    var loss := cfg.engine.DailyLossLimit();
    var all := draws + [Losing(loss)];
    assert all[..|draws|] == draws;
    LosingHits(loss, cfg.stress);
    LosingDay(cfg.engine, cfg.ftmo.initialBalance, equity, loss);
    hide Limits.DailyLossLimit, Limits.OverallLossLimit, Limits.Valid, Losing, Hits, PlayDay, TargetReached;
  }

  /**
   The modelled guard keeps every path clear of the outer limits, over all draws, drops, stresses,
   targets and lengths, exactly when the engine's daily limit is below the outer daily one and its
   daily and overall limits together fit in the outer overall one.
   */
  lemma ContainmentExactly(cfg: PhaseConfig)
    requires cfg.engine.Valid() && cfg.ftmo.Valid() && TargetOutOfReach(cfg)
    ensures Contains(cfg.engine, cfg.ftmo) <==>
      forall draws :: PhaseOutcome(cfg, draws).reason != FtmoDaily && PhaseOutcome(cfg, draws).reason != FtmoOverall
  {
    if Contains(cfg.engine, cfg.ftmo) {
      forall draws ensures PhaseOutcome(cfg, draws).reason != FtmoDaily && PhaseOutcome(cfg, draws).reason != FtmoOverall {
        PhaseContained(cfg, draws);
      }
    } else {
      var draws := BreachingDraws(cfg);
      assert PhaseOutcome(cfg, draws).reason in {FtmoDaily, FtmoOverall};
    }
  }

  /** A path that the guard lets through to an outer breach, whenever the limits do not contain each other. */
  lemma BreachingDraws(cfg: PhaseConfig) returns (draws: seq<Draw>)
    requires cfg.engine.Valid() && cfg.ftmo.Valid() && TargetOutOfReach(cfg) && !Contains(cfg.engine, cfg.ftmo)
    ensures PhaseOutcome(cfg, draws).reason in {FtmoDaily, FtmoOverall}
  {
    var ed, eo := cfg.engine.DailyLossLimit(), cfg.engine.OverallLossLimit();
    var fd, fo := cfg.ftmo.DailyLossLimit(), cfg.ftmo.OverallLossLimit();
    LimitsPositive(cfg.engine);
    LimitsPositive(cfg.ftmo);
    hide Limits.DailyLossLimit, Limits.OverallLossLimit, Limits.Valid, PhaseOutcome;
    if ed >= fd || ed >= fo {
      assert AfterDays(cfg, []) == Running(cfg.ftmo.initialBalance, 0, 0);
      LastDay(cfg, [], cfg.ftmo.initialBalance, 0);
      draws := [] + [Losing(ed)];
    } else {
      var spent := fo - ed;
      var m, loss := SplitLoss(spent, ed);
      LosingRun(cfg, loss, m, spent);
      LastDay(cfg, seq(m, _ => Losing(loss)), cfg.ftmo.initialBalance - spent, m);
      draws := seq(m, _ => Losing(loss)) + [Losing(ed)];
    }
  }

  /** Any positive loss splits into equal parts below a positive limit. */
  lemma SplitLoss(spent: real, limit: real) returns (m: nat, loss: real)
    requires spent > 0.0 && limit > 0.0
    ensures m > 0 && spent == m as real * loss && 0.0 <= loss < limit
  {
    var q := spent / limit;
    m := q.Floor + 1;
    loss := spent / m as real;
    assert m as real > q;
    assert q * limit == spent;
    assert m as real * loss == spent;
    var gap := m as real - q;
    assert gap * limit > 0.0;
    assert m as real * limit > spent;
    if loss >= limit {
      MulMono(limit, loss, m as real);
    }
  }
}
