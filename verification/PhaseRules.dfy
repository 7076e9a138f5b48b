/**
 One phase of the challenge Monte Carlo in plain figures: what the stress makes of a trade, what a day of
 trades ends with under the modelled guard, and exactly when, and on which session, a phase passes.
 */
module PhaseRules {
  import opened Common
  import opened FtmoRules
  import opened MonteCarlo

  // ------------------------------------------------------------ stressed trades

  /** A kept trade loses the widened share of its spread and slips at both ends; its worst point slips once. */
  ghost predicate StressedAs(h: Hit, t: Trade, s: Stress) {
    && h.pnl == t.pnl - s.widen * t.spread - 2.0 * s.slip * t.pip
    && h.mae == t.mae - s.widen * t.spread - s.slip * t.pip
  }

  /** `at` lists the kept positions of the draw in order, and `hits` are those trades stressed. */
  ghost predicate KeptAt(d: Draw, s: Stress, hits: seq<Hit>, at: seq<nat>) {
    && |at| == |hits|
    && (forall k :: 0 <= k < |at| ==> at[k] < |d| && d[at[k]].1 && StressedAs(hits[k], d[at[k]].0, s))
    && (forall j, k :: 0 <= j < k < |at| ==> at[j] < at[k])
    && (forall i: nat :: i < |d| && d[i].1 ==> i in at)
  }

  lemma {:induction false} HitsAreKept(d: Draw, s: Stress) returns (at: seq<nat>)
    ensures KeptAt(d, s, Hits(d, s), at)
  {
    at := [];
    if |d| > 0 {
      var n := |d| - 1;
      var before := HitsAreKept(d[..n], s);
      at := if d[n].1 then before + [n] else before;
      hide KeptAt;
      OneMoreKept(d, s, Hits(d[..n], s), before);
    }
  }

  lemma OneMoreKept(d: Draw, s: Stress, hits: seq<Hit>, at: seq<nat>)
    requires |d| > 0 && KeptAt(d[..|d| - 1], s, hits, at)
    ensures d[|d| - 1].1 ==> KeptAt(d, s, hits + [Stressed(d[|d| - 1].0, s)], at + [|d| - 1])
    ensures !d[|d| - 1].1 ==> KeptAt(d, s, hits, at)
  {
    var n := |d| - 1;
    forall i: nat | i < n ensures d[..n][i] == d[i] {
    }
    if d[n].1 {
      var more := at + [n];
      assert more[|at|] == n;
      forall i: nat | i < |d| && d[i].1 ensures i in more {
        if i < n { assert d[..n][i].1; }
      }
    } else {
      forall i: nat | i < |d| && d[i].1 ensures i in at {
        assert d[..n][i].1;
      }
    }
  }

  ghost predicate Kept(d: Draw) {
    exists i :: 0 <= i < |d| && d[i].1
  }

  lemma KeptHasHits(d: Draw, s: Stress)
    ensures |Hits(d, s)| > 0 <==> Kept(d)
  {
    var at := HitsAreKept(d, s);
    if |at| > 0 {
      assert d[at[0]].1;
      assert Kept(d);
    }
    if Kept(d) {
      var i: nat :| i < |d| && d[i].1;
      assert i in at;
    }
  }

  // ------------------------------------------------------------ one day

  /** The sum of the first `n` results. */
  function Total(hits: seq<Hit>, n: nat): real
    requires n <= |hits|
  {
    if n == 0 then 0.0 else Total(hits, n - 1) + hits[n - 1].pnl
  }

  /** The day's standing at the worst point of trade `j`. */
  function WorstOf(hits: seq<Hit>, j: nat): real
    requires j < |hits|
  {
    Total(hits, j) + (if hits[j].mae < hits[j].pnl then hits[j].mae else hits[j].pnl)
  }

  /** At its worst trade `j` loses the engine's daily limit from the day's start or its overall one from `initial`. */
  ghost predicate Breaks(engine: Limits, initial: real, start: real, hits: seq<Hit>, j: nat)
    requires j < |hits|
  {
    || -WorstOf(hits, j) >= engine.initialBalance * engine.dailyLossPct
    || initial - (start + WorstOf(hits, j)) >= engine.initialBalance * engine.overallLossPct
  }

  ghost predicate FirstBreak(engine: Limits, initial: real, start: real, hits: seq<Hit>, j: nat)
    requires j < |hits|
  {
    Breaks(engine, initial, start, hits, j) && forall i :: 0 <= i < j ==> !Breaks(engine, initial, start, hits, i)
  }

  /** `value` is the worst point or the end of trade `j`. */
  ghost predicate PointOf(hits: seq<Hit>, j: nat, value: real)
    requires j < |hits|
  {
    value == WorstOf(hits, j) || value == Total(hits, j + 1)
  }

  /** `low` is the least of nothing, `cum`, and the worst points and ends of the first `n` trades. */
  ghost predicate Lowest(hits: seq<Hit>, n: nat, cum: real, low: real)
    requires n <= |hits|
  {
    && low <= 0.0 && low <= cum
    && (forall j :: 0 <= j < n ==> low <= WorstOf(hits, j) && low <= Total(hits, j + 1))
    && (low == 0.0 || low == cum || exists j :: 0 <= j < n && PointOf(hits, j, low))
  }

  /** What the first `n` trades leave of a day: their sum, or the daily limit from the first break on. */
  ghost predicate DayEndsAs(engine: Limits, initial: real, start: real, hits: seq<Hit>, n: nat, d: Day)
    requires n <= |hits|
  {
    && ((forall j :: 0 <= j < n ==> !Breaks(engine, initial, start, hits, j)) ==>
          !d.halted && d.cum == Total(hits, n) && Lowest(hits, n, d.cum, d.low))
    && (forall j :: 0 <= j < n && FirstBreak(engine, initial, start, hits, j) ==>
          && d.halted
          && d.cum == (if Total(hits, j) < -(engine.initialBalance * engine.dailyLossPct) then Total(hits, j)
                       else -(engine.initialBalance * engine.dailyLossPct))
          && Lowest(hits, j, d.cum, d.low))
  }

  lemma {:induction false} TotalOfPrefix(hits: seq<Hit>, n: nat, j: nat)
    requires j <= n <= |hits|
    ensures Total(hits[..n], j) == Total(hits, j)
    decreases j
  {
    if j > 0 { TotalOfPrefix(hits, n, j - 1); }
  }

  /** A day flattens at the first trade whose worst point breaks an engine limit, and otherwise takes every trade whole. */
  lemma {:induction false} DayEndsExactly(engine: Limits, initial: real, start: real, hits: seq<Hit>, n: nat)
    requires n <= |hits|
    ensures DayEndsAs(engine, initial, start, hits, n, PlayDay(engine, initial, start, hits[..n]))
    decreases n
  {
    hide DayEndsAs, TakeTrade;
    if n == 0 {
      EmptyDay(engine, initial, start, hits);
    } else {
      DayEndsExactly(engine, initial, start, hits, n - 1);
      var before := PlayDay(engine, initial, start, hits[..n - 1]);
      assert hits[..n][..n - 1] == hits[..n - 1];
      TradeTaken(engine, initial, start, hits, n - 1, before);
    }
  }

  lemma EmptyDay(engine: Limits, initial: real, start: real, hits: seq<Hit>)
    ensures DayEndsAs(engine, initial, start, hits, 0, Day(0.0, 0.0, false))
  {
  }

  lemma TradeTaken(engine: Limits, initial: real, start: real, hits: seq<Hit>, k: nat, before: Day)
    requires k < |hits| && DayEndsAs(engine, initial, start, hits, k, before)
    ensures DayEndsAs(engine, initial, start, hits, k + 1, TakeTrade(engine, initial, start, before, hits[k]))
  {
    hide FirstBreak;
    if forall j :: 0 <= j < k ==> !Breaks(engine, initial, start, hits, j) {
      CalmTrade(engine, initial, start, hits, k, before);
    } else {
      var j := TheFirst(engine, initial, start, hits, k);
      assert before.halted;
      AlreadyBroken(engine, initial, start, hits, k, before);
    }
  }

  /** Among the first `k` trades, the first that breaks. */
  lemma {:induction false} TheFirst(engine: Limits, initial: real, start: real, hits: seq<Hit>, k: nat) returns (j: nat)
    requires k <= |hits| && exists i :: 0 <= i < k && Breaks(engine, initial, start, hits, i)
    ensures j < k && FirstBreak(engine, initial, start, hits, j)
    decreases k
  {
    hide Breaks;
    if exists i :: 0 <= i < k - 1 && Breaks(engine, initial, start, hits, i) {
      j := TheFirst(engine, initial, start, hits, k - 1);
    } else {
      j := k - 1;
    }
  }

  lemma CalmTrade(engine: Limits, initial: real, start: real, hits: seq<Hit>, k: nat, before: Day)
    requires k < |hits| && !before.halted && before.cum == Total(hits, k) && Lowest(hits, k, before.cum, before.low)
    requires forall j :: 0 <= j < k ==> !Breaks(engine, initial, start, hits, j)
    ensures DayEndsAs(engine, initial, start, hits, k + 1, TakeTrade(engine, initial, start, before, hits[k]))
  {
    hide Lowest, WorstOf;
    var d := TakeTrade(engine, initial, start, before, hits[k]);
    TradeIs(engine, initial, start, hits, k, before);
    if Breaks(engine, initial, start, hits, k) {
      LowestAtBreak(hits, k, before.low, d.cum, d.low);
    } else {
      LowestGoesOn(hits, k, before.low, d.cum, d.low);
    }
    hide Breaks;
  }

  /** One trade of an unhalted day. */
  lemma TradeIs(engine: Limits, initial: real, start: real, hits: seq<Hit>, k: nat, before: Day)
    requires k < |hits| && !before.halted && before.cum == Total(hits, k)
    ensures var d := TakeTrade(engine, initial, start, before, hits[k]);
      var limit := -(engine.initialBalance * engine.dailyLossPct);
      && (d.halted <==> Breaks(engine, initial, start, hits, k))
      && (d.halted ==> d.cum == (if before.cum < limit then before.cum else limit) && d.low == MinR(before.low, d.cum))
      && (!d.halted ==> d.cum == Total(hits, k + 1) && d.low == MinR(MinR(before.low, WorstOf(hits, k)), d.cum))
  {
    assert WorstOf(hits, k) == before.cum + MinR(hits[k].mae, hits[k].pnl);
    assert Total(hits, k + 1) == before.cum + hits[k].pnl;
  }

  lemma LowestAtBreak(hits: seq<Hit>, k: nat, low: real, cum: real, newLow: real)
    requires k < |hits| && Lowest(hits, k, Total(hits, k), low) && newLow == MinR(low, cum)
    ensures Lowest(hits, k, cum, newLow)
  {
    hide WorstOf;
    assert k == 0 ==> Total(hits, k) == 0.0;
    assert k > 0 ==> PointOf(hits, k - 1, Total(hits, (k - 1) + 1));
  }

  lemma LowestGoesOn(hits: seq<Hit>, k: nat, low: real, cum: real, newLow: real)
    requires k < |hits| && Lowest(hits, k, Total(hits, k), low) && cum == Total(hits, k + 1)
    requires newLow == MinR(MinR(low, WorstOf(hits, k)), cum)
    ensures Lowest(hits, k + 1, cum, newLow)
  {
    hide WorstOf;
    assert PointOf(hits, k, WorstOf(hits, k));
    assert k == 0 ==> Total(hits, k) == 0.0;
    assert k > 0 ==> PointOf(hits, k - 1, Total(hits, (k - 1) + 1));
  }

  lemma AlreadyBroken(engine: Limits, initial: real, start: real, hits: seq<Hit>, k: nat, before: Day)
    requires k < |hits| && before.halted && DayEndsAs(engine, initial, start, hits, k, before)
    requires exists i :: 0 <= i < k && Breaks(engine, initial, start, hits, i)
    ensures DayEndsAs(engine, initial, start, hits, k + 1, TakeTrade(engine, initial, start, before, hits[k]))
  {
    hide Breaks, Lowest;
  }

  // ------------------------------------------------------------ the phase

  /** The standing after each of the drawn sessions, had nothing ended the phase. */
  function EquityAfter(cfg: PhaseConfig, draws: seq<Draw>): real {
    if |draws| == 0 then cfg.ftmo.initialBalance else
      var start := EquityAfter(cfg, draws[..|draws| - 1]);
      start + PlayDay(cfg.engine, cfg.ftmo.initialBalance, start, Hits(draws[|draws| - 1], cfg.stress)).cum
  }

  /** The lowest standing during the last of the drawn sessions. */
  function LowOf(cfg: PhaseConfig, draws: seq<Draw>): real
    requires |draws| > 0
  {
    var start := EquityAfter(cfg, draws[..|draws| - 1]);
    start + PlayDay(cfg.engine, cfg.ftmo.initialBalance, start, Hits(draws[|draws| - 1], cfg.stress)).low
  }

  /** How many sessions kept a trade. */
  ghost function Sessions(draws: seq<Draw>): nat {
    if |draws| == 0 then 0 else Sessions(draws[..|draws| - 1]) + if Kept(draws[|draws| - 1]) then 1 else 0
  }

  /** How many sessions kept a trade and were flattened at the engine's limit. */
  ghost function Halts(cfg: PhaseConfig, draws: seq<Draw>): nat {
    if |draws| == 0 then 0 else
      var before := draws[..|draws| - 1];
      var hits := Hits(draws[|draws| - 1], cfg.stress);
      var d := PlayDay(cfg.engine, cfg.ftmo.initialBalance, EquityAfter(cfg, before), hits);
      Halts(cfg, before) + if Kept(draws[|draws| - 1]) && d.halted then 1 else 0
  }

  /** The `n`-th session kept a trade and fell to an outer limit or to the engine's overall one. */
  ghost predicate BreachedOn(cfg: PhaseConfig, draws: seq<Draw>, n: nat)
    requires 0 < n <= |draws|
  {
    var initial := cfg.ftmo.initialBalance;
    var start := EquityAfter(cfg, draws[..n - 1]);
    var low := LowOf(cfg, draws[..n]);
    && Kept(draws[n - 1])
    && (|| start - low >= cfg.ftmo.initialBalance * cfg.ftmo.dailyLossPct
        || initial - low >= cfg.ftmo.initialBalance * cfg.ftmo.overallLossPct
        || initial - low >= cfg.engine.initialBalance * cfg.engine.overallLossPct)
  }

  /** The `n`-th session kept a trade, ended at the target, and was at least the required trading day. */
  ghost predicate TargetOn(cfg: PhaseConfig, draws: seq<Draw>, n: nat)
    requires 0 < n <= |draws|
  {
    && Kept(draws[n - 1])
    && EquityAfter(cfg, draws[..n]) - cfg.ftmo.initialBalance * (1.0 + cfg.targetPct) >= -0.000001
    && Sessions(draws[..n]) >= cfg.minTradingDays
  }

  /** Which limit the session broke: the outer overall one, else the outer daily one, else the engine's. */
  ghost function BreachReason(cfg: PhaseConfig, draws: seq<Draw>, n: nat): Reason
    requires 0 < n <= |draws|
  {
    var low := LowOf(cfg, draws[..n]);
    if cfg.ftmo.initialBalance - low >= cfg.ftmo.initialBalance * cfg.ftmo.overallLossPct then FtmoOverall
    else if EquityAfter(cfg, draws[..n - 1]) - low >= cfg.ftmo.initialBalance * cfg.ftmo.dailyLossPct then FtmoDaily
    else EngineOverall
  }

  ghost predicate Undecided(cfg: PhaseConfig, draws: seq<Draw>, n: nat)
    requires n <= |draws|
  {
    forall m :: 0 < m <= n ==> !BreachedOn(cfg, draws, m) && !TargetOn(cfg, draws, m)
  }

  /** While nothing has decided it, the phase stands at the unstopped figures. */
  lemma {:induction false} RunningStands(cfg: PhaseConfig, draws: seq<Draw>, n: nat)
    requires n <= |draws| && Undecided(cfg, draws, n)
    ensures AfterDays(cfg, draws[..n]).Running?
    ensures AfterDays(cfg, draws[..n]).equity == EquityAfter(cfg, draws[..n])
    ensures AfterDays(cfg, draws[..n]).tradingDays == Sessions(draws[..n])
    ensures AfterDays(cfg, draws[..n]).halts == Halts(cfg, draws[..n])
    decreases n
  {
    hide Kept, PlayDay, Hits, BreachedOn, TargetOn, Judge;
    if n > 0 {
      assert draws[..n][..n - 1] == draws[..n - 1] && draws[..n][n - 1] == draws[n - 1];
      RunningStands(cfg, draws, n - 1);
      KeptHasHits(draws[n - 1], cfg.stress);
      if Kept(draws[n - 1]) { JudgedOn(cfg, draws, n); } else { NothingPlayed(cfg, draws, n); }
    }
  }

  lemma NothingPlayed(cfg: PhaseConfig, draws: seq<Draw>, n: nat)
    requires 0 < n <= |draws| && !Kept(draws[n - 1])
    ensures EquityAfter(cfg, draws[..n]) == EquityAfter(cfg, draws[..n - 1])
  {
    assert draws[..n][..n - 1] == draws[..n - 1];
    KeptHasHits(draws[n - 1], cfg.stress);
    hide Hits, Kept;
  }

  /** The day's judgement in plain figures. */
  lemma JudgedOn(cfg: PhaseConfig, draws: seq<Draw>, n: nat)
    requires 0 < n <= |draws| && Kept(draws[n - 1])
    ensures var start := EquityAfter(cfg, draws[..n - 1]);
      var d := PlayDay(cfg.engine, cfg.ftmo.initialBalance, start, Hits(draws[n - 1], cfg.stress));
      var j := Judge(cfg, start, Sessions(draws[..n - 1]) + 1, d);
      && (j.Some? && j.value != Target <==> BreachedOn(cfg, draws, n))
      && (BreachedOn(cfg, draws, n) ==> j == Some(BreachReason(cfg, draws, n)))
      && (j == Some(Target) <==> !BreachedOn(cfg, draws, n) && TargetOn(cfg, draws, n))
  {
    hide PlayDay, Hits, Kept;
    assert draws[..n][..n - 1] == draws[..n - 1] && draws[..n][n - 1] == draws[n - 1];
    var start := EquityAfter(cfg, draws[..n - 1]);
    var d := PlayDay(cfg.engine, cfg.ftmo.initialBalance, start, Hits(draws[n - 1], cfg.stress));
    assert LowOf(cfg, draws[..n]) == start + d.low;
    assert EquityAfter(cfg, draws[..n]) == start + d.cum;
    assert Sessions(draws[..n]) == Sessions(draws[..n - 1]) + 1;
    hide EquityAfter, LowOf, Sessions;
  }

  /** The session that decides ends the phase there and then. */
  lemma DecidedOn(cfg: PhaseConfig, draws: seq<Draw>, n: nat)
    requires 0 < n <= |draws| && Undecided(cfg, draws, n - 1)
    requires BreachedOn(cfg, draws, n) || TargetOn(cfg, draws, n)
    ensures PhaseOutcome(cfg, draws).passed <==> !BreachedOn(cfg, draws, n)
    ensures PhaseOutcome(cfg, draws).days == n
    ensures PhaseOutcome(cfg, draws).engineDailyHalts == Halts(cfg, draws[..n])
    ensures PhaseOutcome(cfg, draws).reason == if BreachedOn(cfg, draws, n) then BreachReason(cfg, draws, n) else Target
  {
    hide PlayDay, Hits, Kept, Judge, BreachedOn, BreachReason, Sessions, EquityAfter;
    assert Kept(draws[n - 1]) by { DecidersKeep(cfg, draws, n); }
    hide TargetOn;
    RunningStands(cfg, draws, n - 1);
    JudgedOn(cfg, draws, n);
    KeptHasHits(draws[n - 1], cfg.stress);
    assert draws[..n][..n - 1] == draws[..n - 1] && draws[..n][n - 1] == draws[n - 1];
    EndedStays(cfg, draws, n);
  }

  lemma DecidersKeep(cfg: PhaseConfig, draws: seq<Draw>, n: nat)
    requires 0 < n <= |draws| && (BreachedOn(cfg, draws, n) || TargetOn(cfg, draws, n))
    ensures Kept(draws[n - 1])
  {
    hide Kept, LowOf, EquityAfter, Sessions;
  }

  /** Session `n` is the first at the target after the required trading days, and no limit broke by then. */
  ghost predicate PassesOn(cfg: PhaseConfig, draws: seq<Draw>, n: nat)
    requires 0 < n <= |draws|
  {
    && TargetOn(cfg, draws, n)
    && (forall m :: 0 < m < n ==> !TargetOn(cfg, draws, m))
    && (forall m :: 0 < m <= n ==> !BreachedOn(cfg, draws, m))
  }

  /** Session `n` is the first to decide, and it broke a limit. */
  ghost predicate FailsOn(cfg: PhaseConfig, draws: seq<Draw>, n: nat)
    requires 0 < n <= |draws|
  {
    BreachedOn(cfg, draws, n) && Undecided(cfg, draws, n - 1)
  }

  lemma {:induction false} FirstDecider(cfg: PhaseConfig, draws: seq<Draw>, k: nat) returns (n: nat)
    requires k <= |draws| && !Undecided(cfg, draws, k)
    ensures 0 < n <= k && Undecided(cfg, draws, n - 1) && (BreachedOn(cfg, draws, n) || TargetOn(cfg, draws, n))
    decreases k
  {
    hide BreachedOn, TargetOn;
    if k > 0 && !Undecided(cfg, draws, k - 1) {
      n := FirstDecider(cfg, draws, k - 1);
    } else {
      n := k;
    }
  }

  /**
   A phase passes exactly when some session is the first that kept a trade, stands at the target and is at least
   the required trading day, and neither it nor any session before it broke an outer limit or the engine's
   overall one; that session is its length. A session that breaks one first names the failure, and with neither
   the phase times out.
   */
  lemma PassesExactly(cfg: PhaseConfig, draws: seq<Draw>)
    ensures var o := PhaseOutcome(cfg, draws);
      && (o.passed <==> exists n :: 0 < n <= |draws| && PassesOn(cfg, draws, n))
      && (forall n :: 0 < n <= |draws| && PassesOn(cfg, draws, n) ==> o.days == n)
      && (forall n :: 0 < n <= |draws| && FailsOn(cfg, draws, n) ==> o.days == n && o.reason == BreachReason(cfg, draws, n))
      && (Undecided(cfg, draws, |draws|) ==> o.reason == Timeout && o.days == |draws|)
      && o.days <= |draws| && o.engineDailyHalts == Halts(cfg, draws[..o.days])
  {
    hide BreachedOn, TargetOn, PhaseOutcome, BreachReason;
    if Undecided(cfg, draws, |draws|) {
      assert draws[..|draws|] == draws;
      RunningStands(cfg, draws, |draws|);
      TimesOut(cfg, draws);
    } else {
      var n := FirstDecider(cfg, draws, |draws|);
      DecidedOn(cfg, draws, n);
      forall m | 0 < m <= |draws| && PassesOn(cfg, draws, m) ensures m == n {
        SameDecider(cfg, draws, m, n);
      }
      forall m | 0 < m <= |draws| && FailsOn(cfg, draws, m) ensures m == n && BreachedOn(cfg, draws, n) {
        SameFailure(cfg, draws, m, n);
      }
      if !BreachedOn(cfg, draws, n) { assert PassesOn(cfg, draws, n); }
    }
  }

  lemma SameFailure(cfg: PhaseConfig, draws: seq<Draw>, m: nat, n: nat)
    requires 0 < m <= |draws| && 0 < n <= |draws| && FailsOn(cfg, draws, m)
    requires Undecided(cfg, draws, n - 1) && (BreachedOn(cfg, draws, n) || TargetOn(cfg, draws, n))
    ensures m == n && BreachedOn(cfg, draws, n)
  {
    hide BreachedOn, TargetOn;
  }

  lemma SameDecider(cfg: PhaseConfig, draws: seq<Draw>, m: nat, n: nat)
    requires 0 < m <= |draws| && 0 < n <= |draws| && PassesOn(cfg, draws, m)
    requires Undecided(cfg, draws, n - 1) && (BreachedOn(cfg, draws, n) || TargetOn(cfg, draws, n))
    ensures m == n
  {
    hide BreachedOn, TargetOn;
  }

  lemma TimesOut(cfg: PhaseConfig, draws: seq<Draw>)
    requires AfterDays(cfg, draws).Running?
    ensures PhaseOutcome(cfg, draws).reason == Timeout && PhaseOutcome(cfg, draws).days == |draws|
    ensures !PhaseOutcome(cfg, draws).passed
    ensures PhaseOutcome(cfg, draws).engineDailyHalts == AfterDays(cfg, draws).halts
  {
    hide AfterDays;
  }
}
