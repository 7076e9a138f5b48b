/**
 The rolling-window challenge replay: each window's outcome is that of its first deciding day, the
 replay only sees equity relative to the window's start, and a window that has not failed the outer
 rules has stayed strictly inside them.
 */
module WindowReplay {
  import opened Common
  import opened FtmoRules

  /** `date` counts calendar days. */
  datatype Day = Day(date: int, start: real, low: real, end: real, traded: bool)

  datatype Rules = Rules(engine: Limits, ftmo: Limits, targetPct: real, minTradingDays: int)

  datatype Outcome = Passed | FtmoFailed(kind: HaltKind) | EngineHalted | Unresolved

  datatype WindowResult = WindowResult(
    startDate: int, outcome: Outcome, daysElapsed: int, tradingDays: nat, maxDailyDd: real, engineDailyHalts: nat)

  function Initial(r: Rules): real { r.ftmo.initialBalance }

  /** The day's worst point, moved so that the window starts at the initial balance. */
  function Worst(r: Rules, offset: real, d: Day): AccountState {
    Mark(d.low + offset, d.start + offset, Initial(r))
  }

  function DailyDrawdown(r: Rules, offset: real, d: Day): real
    requires Initial(r) != 0.0
  {
    DailyLoss(Worst(r, offset, d)) / Initial(r)
  }

  /** Traded days among the first `n`. */
  function TradedUpTo(days: seq<Day>, n: nat): nat
    requires n <= |days|
  {
    if n == 0 then 0 else TradedUpTo(days, n - 1) + if days[n - 1].traded then 1 else 0
  }

  function MaxDdUpTo(r: Rules, offset: real, days: seq<Day>, n: nat): real
    requires n <= |days| && Initial(r) != 0.0
  {
    if n == 0 then 0.0 else MaxR(MaxDdUpTo(r, offset, days, n - 1), DailyDrawdown(r, offset, days[n - 1]))
  }

  function EngineDailyUpTo(r: Rules, offset: real, days: seq<Day>, n: nat): nat
    requires n <= |days|
  {
    if n == 0 then 0
    else EngineDailyUpTo(r, offset, days, n - 1)
         + if ShouldHalt(Worst(r, offset, days[n - 1]), r.engine) == Some(Daily) then 1 else 0
  }

  /** What day `k` decides, with the traded days up to and including it: outer breach, engine overall, target. */
  function Verdict(r: Rules, offset: real, days: seq<Day>, k: nat): Outcome
    requires k < |days|
  {
    var worst := Worst(r, offset, days[k]);
    if ShouldHalt(worst, r.ftmo).Some? then FtmoFailed(ShouldHalt(worst, r.ftmo).value)
    else if ShouldHalt(worst, r.engine) == Some(Overall) then EngineHalted
    else if TargetReached(days[k].end + offset, Initial(r), r.targetPct) && TradedUpTo(days, k + 1) >= r.minTradingDays then
      Passed
    else Unresolved
  }

  /** The first day that decides; all of them if none does. */
  function Deciding(r: Rules, offset: real, days: seq<Day>, from: nat): nat
    requires from <= |days|
    decreases |days| - from
  {
    if from == |days| || Verdict(r, offset, days, from) != Unresolved then from else Deciding(r, offset, days, from + 1)
  }

  /** The window of `days`, read off its first deciding day. */
  function WindowSpec(r: Rules, days: seq<Day>): WindowResult
    requires |days| > 0 && Initial(r) != 0.0
  {
    var offset := Initial(r) - days[0].start;
    var k := Deciding(r, offset, days, 0);
    if k < |days| then
      WindowResult(days[0].date, Verdict(r, offset, days, k), days[k].date - days[0].date + 1, TradedUpTo(days, k + 1),
                   MaxDdUpTo(r, offset, days, k + 1),
                   EngineDailyUpTo(r, offset, days, if Verdict(r, offset, days, k) == Passed then k + 1 else k))
    else
      WindowResult(days[0].date, Unresolved, days[|days| - 1].date - days[0].date + 1, TradedUpTo(days, |days|),
                   MaxDdUpTo(r, offset, days, |days|), EngineDailyUpTo(r, offset, days, |days|))
  }

  lemma DecidingIsFirst(r: Rules, offset: real, days: seq<Day>, from: nat)
    requires from <= |days|
    ensures from <= Deciding(r, offset, days, from) <= |days|
    ensures forall j :: from <= j < Deciding(r, offset, days, from) ==> Verdict(r, offset, days, j) == Unresolved
    ensures Deciding(r, offset, days, from) < |days| ==> Verdict(r, offset, days, Deciding(r, offset, days, from)) != Unresolved
    decreases |days| - from
  {
    hide Verdict;
    if from < |days| && Verdict(r, offset, days, from) == Unresolved {
      DecidingIsFirst(r, offset, days, from + 1);
    }
  }

  lemma DecidingFrom(r: Rules, offset: real, days: seq<Day>, from: nat, k: nat)
    requires from <= k <= |days| && forall j :: from <= j < k ==> Verdict(r, offset, days, j) == Unresolved
    ensures Deciding(r, offset, days, from) == Deciding(r, offset, days, k)
    decreases k - from
  {
    hide Verdict;
    if from < k {
      DecidingFrom(r, offset, days, from + 1, k);
    }
  }

  method SimulateWindow(r: Rules, all: seq<Day>, i0: nat) returns (w: WindowResult)
    requires i0 < |all| && Initial(r) != 0.0
    ensures w == WindowSpec(r, all[i0..])
  {
    hide ShouldHalt, TargetReached;
    var days := all[i0..];
    var initial := r.ftmo.initialBalance;
    var offset := initial - days[0].start;
    var trading, engineDaily := 0, 0;
    var maxDd := 0.0;
    for k := 0 to |days|
      invariant forall j :: 0 <= j < k ==> Verdict(r, offset, days, j) == Unresolved
      invariant trading == TradedUpTo(days, k) && engineDaily == EngineDailyUpTo(r, offset, days, k)
      invariant maxDd == MaxDdUpTo(r, offset, days, k)
    {
      DecidingFrom(r, offset, days, 0, k);
      var d := days[k];
      var state := Mark(d.low + offset, d.start + offset, initial);
      maxDd := MaxR(maxDd, DailyLoss(state) / initial);
      var elapsed := d.date - days[0].date + 1;
      if d.traded {
        trading := trading + 1;
      }
      var breach := ShouldHalt(state, r.ftmo);
      if breach.Some? {
        return WindowResult(days[0].date, FtmoFailed(breach.value), elapsed, trading, maxDd, engineDaily);
      }
      var eng := ShouldHalt(state, r.engine);
      if eng.Some? {
        if eng.value == Overall {
          return WindowResult(days[0].date, EngineHalted, elapsed, trading, maxDd, engineDaily);
        }
        engineDaily := engineDaily + 1;
      }
      if TargetReached(d.end + offset, initial, r.targetPct) && trading >= r.minTradingDays {
        return WindowResult(days[0].date, Passed, elapsed, trading, maxDd, engineDaily);
      }
    }
    DecidingFrom(r, offset, days, 0, |days|);
    w := WindowResult(days[0].date, Unresolved, days[|days| - 1].date - days[0].date + 1, trading, maxDd, engineDaily);
  }

  /** One window per start day. */
  method Rolling(r: Rules, days: seq<Day>) returns (windows: seq<WindowResult>)
    requires Initial(r) != 0.0
    ensures |windows| == |days| && forall i :: 0 <= i < |days| ==> windows[i] == WindowSpec(r, days[i..])
  {
    windows := [];
    for i := 0 to |days|
      invariant |windows| == i && forall j :: 0 <= j < i ==> windows[j] == WindowSpec(r, days[j..])
    {
      var w := SimulateWindow(r, days, i);
      windows := windows + [w];
    }
  }

  // ------------------------------------------------------------ what a window result means

  /** The first deciding day fixes the outcome, and without one the window is unresolved. */
  lemma OutcomeOfFirstDecidingDay(r: Rules, days: seq<Day>, offset: real, k: nat)
    requires |days| > 0 && Initial(r) != 0.0 && k <= |days| && offset == Initial(r) - days[0].start
    requires forall j :: 0 <= j < k ==> Verdict(r, offset, days, j) == Unresolved
    requires k == |days| || Verdict(r, offset, days, k) != Unresolved
    ensures var w := WindowSpec(r, days);
      if k == |days| then w.outcome == Unresolved && w.daysElapsed == days[|days| - 1].date - days[0].date + 1
      else w.outcome == Verdict(r, offset, days, k) && w.daysElapsed == days[k].date - days[0].date + 1
  {
    hide Verdict, Initial;
    DecidingFrom(r, offset, days, 0, k);
  }

  /**
   Precedence on the deciding day: an outer breach wins over everything, the engine's overall limit over
   the target, and a pass needs both the target and the trading days with neither breached.
   */
  lemma Precedence(r: Rules, offset: real, days: seq<Day>, k: nat)
    requires k < |days|
    ensures var d := days[k]; var v := Verdict(r, offset, days, k);
      var outer := d.start - d.low >= r.ftmo.DailyLossLimit() || Initial(r) - (d.low + offset) >= r.ftmo.OverallLossLimit();
      var inner := Initial(r) - (d.low + offset) >= r.engine.OverallLossLimit();
      && (v.FtmoFailed? <==> outer)
      && (v == EngineHalted <==> !outer && inner)
      && (v == Passed <==> !outer && !inner && TargetReached(d.end + offset, Initial(r), r.targetPct)
                           && TradedUpTo(days, k + 1) >= r.minTradingDays)
  {
    hide Limits.DailyLossLimit, Limits.OverallLossLimit, TargetReached;
  }

  function Shift(d: Day, c: real): Day { d.(start := d.start + c, low := d.low + c, end := d.end + c) }

  /** The same days, every equity higher by `c`. */
  function Shifted(days: seq<Day>, c: real): (s: seq<Day>)
    ensures |s| == |days| && forall i :: 0 <= i < |s| ==> s[i] == Shift(days[i], c)
  {
    seq(|days|, i requires 0 <= i < |days| => Shift(days[i], c))
  }

  lemma {:induction false} ShiftedTallies(r: Rules, offset: real, days: seq<Day>, c: real, n: nat)
    requires n <= |days| && Initial(r) != 0.0
    ensures TradedUpTo(Shifted(days, c), n) == TradedUpTo(days, n)
    ensures MaxDdUpTo(r, offset - c, Shifted(days, c), n) == MaxDdUpTo(r, offset, days, n)
    ensures EngineDailyUpTo(r, offset - c, Shifted(days, c), n) == EngineDailyUpTo(r, offset, days, n)
  {
    hide ShouldHalt;
    if n > 0 {
      ShiftedTallies(r, offset, days, c, n - 1);
      assert Worst(r, offset - c, Shifted(days, c)[n - 1]) == Worst(r, offset, days[n - 1]);
    }
  }

  lemma ShiftedVerdict(r: Rules, offset: real, days: seq<Day>, c: real, k: nat)
    requires k < |days| && Initial(r) != 0.0
    ensures Verdict(r, offset - c, Shifted(days, c), k) == Verdict(r, offset, days, k)
  {
    hide ShouldHalt, TargetReached;
    ShiftedTallies(r, offset, days, c, k + 1);
    assert Worst(r, offset - c, Shifted(days, c)[k]) == Worst(r, offset, days[k]);
    assert Shifted(days, c)[k].end + (offset - c) == days[k].end + offset;
  }

  lemma {:induction false} ShiftedDeciding(r: Rules, offset: real, days: seq<Day>, c: real, from: nat)
    requires from <= |days| && Initial(r) != 0.0
    ensures Deciding(r, offset - c, Shifted(days, c), from) == Deciding(r, offset, days, from)
    decreases |days| - from
  {
    hide Verdict;
    if from < |days| {
      ShiftedVerdict(r, offset, days, c, from);
      ShiftedDeciding(r, offset, days, c, from + 1);
    }
  }

  /** A window only sees equity relative to its start: adding a constant to every equity changes nothing. */
  lemma WindowIgnoresLevel(r: Rules, days: seq<Day>, c: real)
    requires |days| > 0 && Initial(r) != 0.0
    ensures WindowSpec(r, Shifted(days, c)) == WindowSpec(r, days)
  {
    hide Verdict, Deciding, MaxDdUpTo, EngineDailyUpTo, TradedUpTo;
    var offset := Initial(r) - days[0].start;
    assert Initial(r) - Shifted(days, c)[0].start == offset - c;
    ShiftedDeciding(r, offset, days, c, 0);
    DecidingIsFirst(r, offset, days, 0);
    var k := Deciding(r, offset, days, 0);
    ShiftedTallies(r, offset, days, c, k);
    if k < |days| {
      ShiftedTallies(r, offset, days, c, k + 1);
      ShiftedVerdict(r, offset, days, c, k);
    }
  }

  lemma QuotientBelow(x: real, whole: real, part: real)
    requires whole > 0.0
    ensures x < whole * part <==> x / whole < part
  {
    var q := x / whole;
    assert q * whole == x;
    var gap := part - q;
    assert gap * whole == whole * part - x;
    if gap > 0.0 {
      assert gap * whole > 0.0;
    } else {
      MulMono(gap, 0.0, whole);
    }
  }

  lemma {:induction false} DrawdownsBelow(r: Rules, offset: real, days: seq<Day>, n: nat)
    requires r.ftmo.Valid() && n <= |days|
    requires forall j :: 0 <= j < n ==> !Verdict(r, offset, days, j).FtmoFailed?
    ensures MaxDdUpTo(r, offset, days, n) < r.ftmo.dailyLossPct
  {
    if n > 0 {
      DrawdownsBelow(r, offset, days, n - 1);
      assert !Verdict(r, offset, days, n - 1).FtmoFailed?;
      Precedence(r, offset, days, n - 1);
      QuotientBelow(days[n - 1].start - days[n - 1].low, Initial(r), r.ftmo.dailyLossPct);
      hide Verdict;
    }
  }

  /** A window that did not fail the outer rules has every daily drawdown strictly below the outer fraction. */
  lemma SurvivorStaysInside(r: Rules, days: seq<Day>)
    requires |days| > 0 && r.ftmo.Valid()
    ensures !WindowSpec(r, days).outcome.FtmoFailed? ==> WindowSpec(r, days).maxDailyDd < r.ftmo.dailyLossPct
    ensures WindowSpec(r, days).outcome == FtmoFailed(Daily) ==> WindowSpec(r, days).maxDailyDd >= r.ftmo.dailyLossPct
  {
    hide Verdict, Deciding, MaxDdUpTo, TradedUpTo, EngineDailyUpTo, Initial;
    var offset := Initial(r) - days[0].start;
    var k := Deciding(r, offset, days, 0);
    DecidingIsFirst(r, offset, days, 0);
    InitialPositive(r);
    if k < |days| && Verdict(r, offset, days, k) == FtmoFailed(Daily) {
      FailedDayDraws(r, offset, days, k);
    } else if k < |days| && !Verdict(r, offset, days, k).FtmoFailed? {
      DrawdownsBelow(r, offset, days, k + 1);
    } else {
      DrawdownsBelow(r, offset, days, k);
    }
  }

  lemma InitialPositive(r: Rules)
    requires r.ftmo.Valid()
    ensures Initial(r) > 0.0
  {
  }

  lemma FailedDayDraws(r: Rules, offset: real, days: seq<Day>, k: nat)
    requires k < |days| && r.ftmo.Valid() && Initial(r) > 0.0 && Verdict(r, offset, days, k) == FtmoFailed(Daily)
    ensures MaxDdUpTo(r, offset, days, k + 1) >= r.ftmo.dailyLossPct
  {
    hide TradedUpTo;
    QuotientBelow(days[k].start - days[k].low, Initial(r), r.ftmo.dailyLossPct);
  }

  // ------------------------------------------------------------ the figures of a window

  ghost function TradedDays(days: seq<Day>, n: nat): set<nat>
    requires n <= |days|
  {
    set i: nat | i < n && days[i].traded
  }

  /** The engine's daily limit was reached on the day, and its overall one was not. */
  ghost predicate EngineDailyOn(r: Rules, offset: real, d: Day) {
    && d.start - d.low >= r.engine.initialBalance * r.engine.dailyLossPct
    && r.ftmo.initialBalance - (d.low + offset) < r.engine.initialBalance * r.engine.overallLossPct
  }

  ghost function EngineDailyDays(r: Rules, offset: real, days: seq<Day>, n: nat): set<nat>
    requires n <= |days|
  {
    set i: nat | i < n && EngineDailyOn(r, offset, days[i])
  }

  lemma {:induction false} TradedIsCount(days: seq<Day>, n: nat)
    requires n <= |days|
    ensures TradedUpTo(days, n) == |TradedDays(days, n)|
  {
    if n == 0 {
      assert TradedDays(days, 0) == {};
    } else {
      TradedIsCount(days, n - 1);
      assert TradedDays(days, n) == TradedDays(days, n - 1) + if days[n - 1].traded then {n - 1} else {};
    }
  }

  lemma EngineDailyIs(r: Rules, offset: real, d: Day)
    ensures ShouldHalt(Worst(r, offset, d), r.engine) == Some(Daily) <==> EngineDailyOn(r, offset, d)
  {
  }

  lemma {:induction false} EngineDailyIsCount(r: Rules, offset: real, days: seq<Day>, n: nat)
    requires n <= |days|
    ensures EngineDailyUpTo(r, offset, days, n) == |EngineDailyDays(r, offset, days, n)|
  {
    hide EngineDailyOn, ShouldHalt, Worst;
    if n == 0 {
      assert EngineDailyDays(r, offset, days, 0) == {};
    } else {
      EngineDailyIsCount(r, offset, days, n - 1);
      EngineDailyIs(r, offset, days[n - 1]);
      assert EngineDailyDays(r, offset, days, n)
          == EngineDailyDays(r, offset, days, n - 1) + if EngineDailyOn(r, offset, days[n - 1]) then {n - 1} else {};
    }
  }

  /** `dd` is the largest share of the initial balance lost between a day's start and its low, and at least nothing. */
  ghost predicate LargestDrawdown(r: Rules, days: seq<Day>, n: nat, dd: real)
    requires n <= |days|
  {
    && dd >= 0.0 && (forall i :: 0 <= i < n ==> days[i].start - days[i].low <= dd * r.ftmo.initialBalance)
    && (dd == 0.0 || exists i :: 0 <= i < n && days[i].start - days[i].low == dd * r.ftmo.initialBalance)
  }

  lemma {:induction false} DrawdownIs(r: Rules, offset: real, days: seq<Day>, n: nat)
    requires n <= |days| && Initial(r) > 0.0
    ensures LargestDrawdown(r, days, n, MaxDdUpTo(r, offset, days, n))
  {
    if n > 0 {
      DrawdownIs(r, offset, days, n - 1);
      var before, today := MaxDdUpTo(r, offset, days, n - 1), DailyDrawdown(r, offset, days[n - 1]);
      assert today * r.ftmo.initialBalance == days[n - 1].start - days[n - 1].low;
      LargerOf(r, days, n, before, today);
    }
  }

  lemma LargerOf(r: Rules, days: seq<Day>, n: nat, before: real, today: real)
    requires 0 < n <= |days| && Initial(r) > 0.0 && LargestDrawdown(r, days, n - 1, before)
    requires today * r.ftmo.initialBalance == days[n - 1].start - days[n - 1].low
    ensures LargestDrawdown(r, days, n, MaxR(before, today))
  {
    if today > before {
      MulMono(before, today, r.ftmo.initialBalance);
    } else {
      MulMono(today, before, r.ftmo.initialBalance);
    }
  }

  /**
   The figures of a window whose first deciding day is `k`, or that runs to its end: the traded days, the largest
   daily drawdown and the days on which only the engine's daily limit was reached, each over the days up to `k`; a
   failing day itself does not count among the last.
   */
  lemma FiguresExactly(r: Rules, days: seq<Day>, offset: real, k: nat)
    requires |days| > 0 && Initial(r) > 0.0 && k <= |days| && offset == Initial(r) - days[0].start
    requires forall j :: 0 <= j < k ==> Verdict(r, offset, days, j) == Unresolved
    requires k == |days| || Verdict(r, offset, days, k) != Unresolved
    ensures var w := WindowSpec(r, days); var n := if k == |days| then k else k + 1;
      && w.startDate == days[0].date && w.tradingDays == |TradedDays(days, n)|
      && LargestDrawdown(r, days, n, w.maxDailyDd)
      && w.engineDailyHalts == |EngineDailyDays(r, offset, days, if w.outcome == Passed then n else k)|
  {
    hide Verdict, TradedUpTo, MaxDdUpTo, EngineDailyUpTo, LargestDrawdown, TradedDays, EngineDailyDays, Initial;
    DecidingFrom(r, offset, days, 0, k);
    TradedIsCount(days, k);
    EngineDailyIsCount(r, offset, days, k);
    DrawdownIs(r, offset, days, k);
    if k < |days| {
      TradedIsCount(days, k + 1);
      EngineDailyIsCount(r, offset, days, k + 1);
      DrawdownIs(r, offset, days, k + 1);
    }
  }

  /** An outer breach is named for the overall limit when that is reached. */
  lemma FailureNamed(r: Rules, offset: real, days: seq<Day>, k: nat)
    requires k < |days| && Verdict(r, offset, days, k).FtmoFailed?
    ensures Verdict(r, offset, days, k) == FtmoFailed(
      if r.ftmo.initialBalance - (days[k].low + offset) >= r.ftmo.initialBalance * r.ftmo.overallLossPct then Overall else Daily)
  {
    hide TargetReached;
  }
}
