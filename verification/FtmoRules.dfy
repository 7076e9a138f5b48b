/**
 The pure rules engine that the backtest, the live guard and the order router share:
 loss measurement, the halt decision, slot accounting and the pre-trade gate.
 Clock readings (the Friday cutoff) arrive as an argument of the gate.
 */
module FtmoRules {
  import opened Common

  datatype Side = Long | Short

  datatype HaltKind = Daily | Overall

  /** One limit set; the two loss limits are fractions of the initial balance. */
  datatype Limits = Limits(
    initialBalance: real,
    dailyLossPct: real,
    overallLossPct: real,
    maxOpenSlots: int,
    correlatedGroups: seq<set<string>>,
    maxConsecutiveLosses: int)
  {
    ghost predicate Valid() {
      && initialBalance > 0.0
      && 0.0 < dailyLossPct < 1.0
      && 0.0 < overallLossPct < 1.0
      && maxOpenSlots >= 1
      && maxConsecutiveLosses >= 1
    }

    function DailyLossLimit(): real { initialBalance * dailyLossPct }

    function OverallLossLimit(): real { initialBalance * overallLossPct }
  }

  /** `riskToStop` is the further loss taken if the position exits at its stop now. */
  datatype OpenPosition = OpenPosition(symbol: string, side: Side, riskToStop: real)

  datatype AccountState = AccountState(
    equity: real,
    dayBaseline: real,
    overallReference: real,
    openPositions: seq<OpenPosition>,
    consecutiveLossesToday: int)

  function DailyLoss(s: AccountState): real { s.dayBaseline - s.equity }

  function OverallLoss(s: AccountState): real { s.overallReference - s.equity }

  /** Reaching a limit exactly is a breach; the overall breach wins. */
  function ShouldHalt(s: AccountState, limits: Limits): Option<HaltKind> {
    if OverallLoss(s) >= limits.OverallLossLimit() then Some(Overall)
    else if DailyLoss(s) >= limits.DailyLossLimit() then Some(Daily)
    else None
  }

  /** The two-figure account state the guard and the tick loop build. */
  function Mark(equity: real, baseline: real, reference: real): AccountState {
    AccountState(equity, baseline, reference, [], 0)
  }

  /** The profit target, with the cent tolerance of the source. */
  predicate TargetReached(equity: real, initialBalance: real, targetPct: real) {
    equity - initialBalance * (1.0 + targetPct) >= -0.000001
  }

  // ------------------------------------------------------------ slots

  datatype Slot = GroupSlot(members: set<string>) | SymbolSlot(symbol: string)

  /** The first configured group that holds the symbol. */
  function GroupOf(symbol: string, groups: seq<set<string>>): (r: Option<set<string>>)
    ensures r.Some? ==> r.value in groups && symbol in r.value
    ensures r.None? ==> forall g :: g in groups ==> symbol !in g
  {
    if |groups| == 0 then None
    else if symbol in groups[0] then Some(groups[0])
    else
      var r := GroupOf(symbol, groups[1..]);
      assert forall g :: g in groups ==> g == groups[0] || g in groups[1..];
      r
  }

  function SlotOf(symbol: string, limits: Limits): Slot {
    match GroupOf(symbol, limits.correlatedGroups)
    case Some(g) => GroupSlot(g)
    case None => SymbolSlot(symbol)
  }

  function SlotSet(symbols: seq<string>, limits: Limits): set<Slot> {
    set s | s in symbols :: SlotOf(s, limits)
  }

  function SlotsUsed(symbols: seq<string>, limits: Limits): nat {
    |SlotSet(symbols, limits)|
  }

  // ------------------------------------------------------------ the pre-trade gate

  datatype Refusal =
    | InvalidRisk
    | Halted(kind: HaltKind)
    | PastFridayCutoff
    | DailySoftStop
    | SymbolAlreadyOpen
    | CorrelationGuard
    | SlotsFull
    | ProjectedDailyLoss
    | ProjectedOverallLoss

  datatype Verdict = Allowed | Refused(why: Refusal)

  function Symbols(book: seq<OpenPosition>): (r: seq<string>)
    ensures |r| == |book| && forall i :: 0 <= i < |book| ==> r[i] == book[i].symbol
  {
    seq(|book|, i requires 0 <= i < |book| => book[i].symbol)
  }

  /** The stop-out loss of every open position, negative risks counted as zero. */
  function StopRisks(book: seq<OpenPosition>): (r: seq<real>)
    ensures |r| == |book| && forall i :: 0 <= i < |book| ==> r[i] == MaxR(book[i].riskToStop, 0.0)
  {
    seq(|book|, i requires 0 <= i < |book| => MaxR(book[i].riskToStop, 0.0))
  }

  function CanOpen(symbol: string, side: Side, s: AccountState, pastFridayCutoff: bool,
                   limits: Limits, newTradeRisk: real): Verdict
  {
    if newTradeRisk < 0.0 then Refused(InvalidRisk)
    else if ShouldHalt(s, limits).Some? then Refused(Halted(ShouldHalt(s, limits).value))
    else if pastFridayCutoff then Refused(PastFridayCutoff)
    else if s.consecutiveLossesToday >= limits.maxConsecutiveLosses then Refused(DailySoftStop)
    else if symbol in Symbols(s.openPositions) then Refused(SymbolAlreadyOpen)
    else
      var group := GroupOf(symbol, limits.correlatedGroups);
      if group.Some? && exists p :: p in s.openPositions && p.symbol in group.value && p.side != side then
        Refused(CorrelationGuard)
      else if SlotsUsed(Symbols(s.openPositions) + [symbol], limits) > limits.maxOpenSlots then
        Refused(SlotsFull)
      else
        var worstCase := newTradeRisk + Sum(StopRisks(s.openPositions));
        if DailyLoss(s) + worstCase >= limits.DailyLossLimit() then Refused(ProjectedDailyLoss)
        else if OverallLoss(s) + worstCase >= limits.OverallLossLimit() then Refused(ProjectedOverallLoss)
        else Allowed
  }

  // ------------------------------------------------------------ what the gate guarantees

  /**
   An admitted trade cannot cause a breach by stopping out: whatever part of its stop risk each
   open position loses, and whatever part of its projected loss the new trade loses, the account
   that results is not halted.
   */
  lemma {:induction false} AdmissionSound(symbol: string, side: Side, s: AccountState, cutoff: bool, limits: Limits,
                       newTradeRisk: real, losses: seq<real>, newLoss: real)
    requires CanOpen(symbol, side, s, cutoff, limits, newTradeRisk) == Allowed
    requires |losses| == |s.openPositions|
    requires forall i :: 0 <= i < |losses| ==> losses[i] <= MaxR(s.openPositions[i].riskToStop, 0.0)
    requires newLoss <= newTradeRisk
    ensures ShouldHalt(s.(equity := s.equity - Sum(losses) - newLoss), limits).None?
  {
    SumMonotone(losses, StopRisks(s.openPositions));
  }

  /** The gate refuses for the loss projection only when stopping everything out would halt. */
  lemma RefusalIsNeeded(symbol: string, side: Side, s: AccountState, cutoff: bool, limits: Limits,
                        newTradeRisk: real)
    requires CanOpen(symbol, side, s, cutoff, limits, newTradeRisk)
               in {Refused(ProjectedDailyLoss), Refused(ProjectedOverallLoss)}
    ensures ShouldHalt(s.(equity := s.equity - Sum(StopRisks(s.openPositions)) - newTradeRisk), limits).Some?
  {
  }

  ghost predicate DistinctSymbols(book: seq<OpenPosition>) {
    forall i, j :: 0 <= i < j < |book| ==> book[i].symbol != book[j].symbol
  }

  ghost predicate OneSidePerGroup(book: seq<OpenPosition>, limits: Limits) {
    forall i, j, g ::
      (0 <= i < |book| && 0 <= j < |book| && g in limits.correlatedGroups && book[i].symbol in g && book[j].symbol in g)
      ==> book[i].side == book[j].side
  }

  ghost predicate SlotsRespected(book: seq<OpenPosition>, limits: Limits) {
    SlotsUsed(Symbols(book), limits) <= limits.maxOpenSlots
  }

  /** One position per symbol, one side per correlated group, slots within the maximum. */
  ghost predicate BookOk(book: seq<OpenPosition>, limits: Limits) {
    && DistinctSymbols(book)
    && OneSidePerGroup(book, limits)
    && SlotsRespected(book, limits)
  }

  /** The group lies inside the first group of each of its members, the only one the gate looks at. */
  ghost predicate Covered(h: set<string>, limits: Limits)
    requires h in limits.correlatedGroups
  {
    forall x :: x in h ==> h <= GroupOf(x, limits.correlatedGroups).value
  }

  ghost predicate FirstGroupsCover(limits: Limits) {
    forall h :: h in limits.correlatedGroups ==> Covered(h, limits)
  }

  /** What makes the gate's look at one group enough: a single slot, or groups covered by first groups. */
  ghost predicate SidesGuarded(limits: Limits) {
    limits.maxOpenSlots <= 1 || FirstGroupsCover(limits)
  }

  /** Disjoint groups are covered. */
  lemma DisjointGroupsCover(limits: Limits)
    requires forall g, h :: g in limits.correlatedGroups && h in limits.correlatedGroups && g * h != {} ==> g == h
    ensures FirstGroupsCover(limits)
  {
    forall h, x | h in limits.correlatedGroups && x in h
      ensures h <= GroupOf(x, limits.correlatedGroups).value
    {
      assert x in h * GroupOf(x, limits.correlatedGroups).value;
    }
  }

  lemma SameInSmallSet<T>(s: set<T>, a: T, b: T)
    requires |s| <= 1 && a in s && b in s
    ensures a == b
  {
    SubsetCardinality({a, b}, s);
  }

  /** With one slot an admitted symbol shares its slot, hence its first group, with all that is open. */
  lemma OneSlotSharesGroup(book: seq<OpenPosition>, symbol: string, limits: Limits, i: nat)
    requires SlotsUsed(Symbols(book) + [symbol], limits) <= 1 && i < |book| && book[i].symbol != symbol
    ensures GroupOf(symbol, limits.correlatedGroups).Some?
         && book[i].symbol in GroupOf(symbol, limits.correlatedGroups).value
  {
    var all := Symbols(book) + [symbol];
    assert all[i] == book[i].symbol && all[|book|] == symbol;
    SameInSmallSet(SlotSet(all, limits), SlotOf(book[i].symbol, limits), SlotOf(symbol, limits));
  }

  /** An open position in any group of the admitted symbol is on the same side. */
  lemma AdmittedSideFits(symbol: string, side: Side, s: AccountState, cutoff: bool, limits: Limits, newTradeRisk: real,
                         i: nat, g: set<string>)
    requires CanOpen(symbol, side, s, cutoff, limits, newTradeRisk) == Allowed && SidesGuarded(limits)
    requires i < |s.openPositions| && g in limits.correlatedGroups && s.openPositions[i].symbol in g && symbol in g
    ensures s.openPositions[i].side == side
  {
    var p := s.openPositions[i];
    assert Symbols(s.openPositions)[i] == p.symbol;
    if limits.maxOpenSlots <= 1 {
      OneSlotSharesGroup(s.openPositions, symbol, limits, i);
    } else {
      assert Covered(g, limits);
    }
    assert p.symbol in GroupOf(symbol, limits.correlatedGroups).value;
    assert p in s.openPositions;
  }

  /** An admitted trade keeps the book's rules. */
  lemma AdmitKeepsBook(symbol: string, side: Side, s: AccountState, cutoff: bool, limits: Limits,
                       newTradeRisk: real, risk: real)
    requires CanOpen(symbol, side, s, cutoff, limits, newTradeRisk) == Allowed
    requires SidesGuarded(limits)
    requires BookOk(s.openPositions, limits)
    ensures BookOk(s.openPositions + [OpenPosition(symbol, side, risk)], limits)
  {
    var book := s.openPositions;
    var after := book + [OpenPosition(symbol, side, risk)];
    assert Symbols(after) == Symbols(book) + [symbol];
    forall i | 0 <= i < |book| ensures book[i].symbol != symbol {
      assert Symbols(book)[i] == book[i].symbol;
    }
    forall i, g | 0 <= i < |book| && g in limits.correlatedGroups && book[i].symbol in g && symbol in g
      ensures book[i].side == side
    {
      AdmittedSideFits(symbol, side, s, cutoff, limits, newTradeRisk, i, g);
    }
    forall i, j, g | 0 <= i < |after| && 0 <= j < |after| && g in limits.correlatedGroups
      && after[i].symbol in g && after[j].symbol in g
      ensures after[i].side == after[j].side
    {
    }
  }

  /** Whatever the gate admits into a good book leaves one side per group. */
  ghost predicate AdmitsOneSide(limits: Limits) {
    forall symbol, side, s, cutoff, newTradeRisk, risk ::
      CanOpen(symbol, side, s, cutoff, limits, newTradeRisk) == Allowed && BookOk(s.openPositions, limits)
      ==> OneSidePerGroup(s.openPositions + [OpenPosition(symbol, side, risk)], limits)
  }

  /** The trade that breaks the rule: `y` is held long, and `x` shares a group with it that is not its first. */
  lemma UncoveredGroupBreaks(limits: Limits, h: set<string>, x: string, y: string)
    requires limits.Valid() && limits.maxOpenSlots >= 2
    requires h in limits.correlatedGroups && x in h && y in h && y !in GroupOf(x, limits.correlatedGroups).value
    ensures var full := limits.initialBalance; var held := [OpenPosition(y, Long, 0.0)];
      && BookOk(held, limits)
      && CanOpen(x, Short, AccountState(full, full, full, held, 0), false, limits, 0.0) == Allowed
      && !OneSidePerGroup(held + [OpenPosition(x, Short, 0.0)], limits)
  {
    var full := limits.initialBalance;
    var held := [OpenPosition(y, Long, 0.0)];
    var s := AccountState(full, full, full, held, 0);
    assert Symbols(held) == [y];
    assert StopRisks(held) == [0.0];
    assert Sum([0.0]) == 0.0;
    SlotsAtMostSymbols([y], limits);
    SlotsAtMostSymbols([y] + [x], limits);
    assert full * limits.dailyLossPct > 0.0 && full * limits.overallLossPct > 0.0;
    var after := held + [OpenPosition(x, Short, 0.0)];
    assert after[0].symbol in h && after[1].symbol in h;
  }

  /**
   Exactly when the gate keeps one side per group: with a single slot, or when every group lies inside
   the first group of each of its members.
   */
  lemma OneSideKeptExactly(limits: Limits)
    requires limits.Valid()
    ensures AdmitsOneSide(limits) <==> SidesGuarded(limits)
  {
    if SidesGuarded(limits) {
      forall symbol, side, s, cutoff, newTradeRisk, risk |
        CanOpen(symbol, side, s, cutoff, limits, newTradeRisk) == Allowed && BookOk(s.openPositions, limits)
        ensures OneSidePerGroup(s.openPositions + [OpenPosition(symbol, side, risk)], limits)
      {
        hide CanOpen, SidesGuarded;
        AdmitKeepsBook(symbol, side, s, cutoff, limits, newTradeRisk, risk);
      }
    } else {
      var h :| h in limits.correlatedGroups && !Covered(h, limits);
      var x :| x in h && !(h <= GroupOf(x, limits.correlatedGroups).value);
      var y :| y in h && y !in GroupOf(x, limits.correlatedGroups).value;
      UncoveredGroupBreaks(limits, h, x, y);
      hide CanOpen, BookOk, OneSidePerGroup;
    }
  }

  /** Any selection of a good book's positions, in order, is a good book. */
  lemma CloseKeepsBook(book: seq<OpenPosition>, j: nat, limits: Limits)
    requires j < |book|
    requires BookOk(book, limits)
    ensures BookOk(book[..j] + book[j + 1..], limits)
  {
    var after := book[..j] + book[j + 1..];
    forall i | 0 <= i < |after| ensures after[i] == book[if i < j then i else i + 1] {
    }
    forall x | x in Symbols(after) ensures x in Symbols(book) {
      var i :| 0 <= i < |after| && Symbols(after)[i] == x;
      assert Symbols(book)[if i < j then i else i + 1] == x;
    }
    assert SlotSet(Symbols(after), limits) <= SlotSet(Symbols(book), limits);
    SubsetCardinality(SlotSet(Symbols(after), limits), SlotSet(Symbols(book), limits));
    forall a, b, g | 0 <= a < |after| && 0 <= b < |after| && g in limits.correlatedGroups
      && after[a].symbol in g && after[b].symbol in g
      ensures after[a].side == after[b].side
    {
      var a' := if a < j then a else a + 1;
      var b' := if b < j then b else b + 1;
      assert book[a'] == after[a] && book[b'] == after[b];
    }
  }

  lemma {:induction false} SubsetCardinality<T>(a: set<T>, b: set<T>)
    requires a <= b
    ensures |a| <= |b|
  {
    if a != {} {
      var x :| x in a;
      SubsetCardinality(a - {x}, b - {x});
    }
  }

  lemma {:induction false} SlotsAtMostSymbols(symbols: seq<string>, limits: Limits)
    ensures SlotsUsed(symbols, limits) <= |symbols|
  {
    if |symbols| == 0 {
      assert SlotSet(symbols, limits) == {};
    } else {
      var n := |symbols| - 1;
      SlotsAtMostSymbols(symbols[..n], limits);
      assert symbols == symbols[..n] + [symbols[n]];
      assert SlotSet(symbols, limits) == SlotSet(symbols[..n], limits) + {SlotOf(symbols[n], limits)};
    }
  }

  /**
   With overlapping groups the one-side rule can be lost, as it is for A, B with B, C: C is held long and
   B goes short. Overlap alone does not lose it: A, B, C with B, C is safe.
   */
  lemma OverlappingGroupsBreakOneSide()
    ensures var chained := Limits(100.0, 0.5, 0.6, 2, [{"A", "B"}, {"B", "C"}], 2);
      chained.Valid() && !AdmitsOneSide(chained)
    ensures var nested := Limits(100.0, 0.5, 0.6, 2, [{"A", "B", "C"}, {"B", "C"}], 2);
      nested.Valid() && AdmitsOneSide(nested)
  {
    hide AdmitsOneSide;
    var chained := Limits(100.0, 0.5, 0.6, 2, [{"A", "B"}, {"B", "C"}], 2);
    assert chained.correlatedGroups[1] == {"B", "C"};
    assert GroupOf("B", chained.correlatedGroups) == Some({"A", "B"});
    assert !Covered({"B", "C"}, chained) by {
      assert "B" in {"B", "C"} && "C" in {"B", "C"} && "C" !in {"A", "B"};
    }
    OneSideKeptExactly(chained);
    var nested := Limits(100.0, 0.5, 0.6, 2, [{"A", "B", "C"}, {"B", "C"}], 2);
    forall h | h in nested.correlatedGroups ensures Covered(h, nested) {
      assert forall x :: x in h ==> x in nested.correlatedGroups[0];
    }
    OneSideKeptExactly(nested);
  }

  // ------------------------------------------------------------ the gate in plain figures

  /** `other` is in the first configured group that holds `symbol`. */
  ghost predicate SharesFirstGroup(symbol: string, other: string, groups: seq<set<string>>) {
    exists k :: 0 <= k < |groups| && symbol in groups[k] && other in groups[k] && forall i :: 0 <= i < k ==> symbol !in groups[i]
  }

  lemma {:induction false} FirstGroupExactly(symbol: string, other: string, groups: seq<set<string>>)
    ensures SharesFirstGroup(symbol, other, groups)
      <==> GroupOf(symbol, groups).Some? && other in GroupOf(symbol, groups).value
  {
    if |groups| > 0 {
      if symbol in groups[0] {
        if other in groups[0] { assert SharesFirstGroup(symbol, other, groups); }
      } else {
        FirstGroupExactly(symbol, other, groups[1..]);
        if SharesFirstGroup(symbol, other, groups) {
          var k :| 0 <= k < |groups| && symbol in groups[k] && other in groups[k] && forall i :: 0 <= i < k ==> symbol !in groups[i];
          assert groups[1..][k - 1] == groups[k];
          forall i | 0 <= i < k - 1 ensures symbol !in groups[1..][i] { assert groups[1..][i] == groups[i + 1]; }
        }
        if SharesFirstGroup(symbol, other, groups[1..]) {
          var k :| 0 <= k < |groups[1..]| && symbol in groups[1..][k] && other in groups[1..][k]
            && forall i :: 0 <= i < k ==> symbol !in groups[1..][i];
          assert groups[1..][k] == groups[k + 1];
          forall i | 0 <= i < k + 1 ensures symbol !in groups[i] { if i > 0 { assert groups[i] == groups[1..][i - 1]; } }
        }
      }
    }
  }

  /** Two symbols take one slot exactly when they are the same or both have the same first group. */
  lemma SlotSharedExactly(a: string, b: string, limits: Limits)
    ensures SlotOf(a, limits) == SlotOf(b, limits) <==>
      a == b || (GroupOf(a, limits.correlatedGroups).Some? && GroupOf(a, limits.correlatedGroups) == GroupOf(b, limits.correlatedGroups))
  {
  }

  /** What an open position still loses at its stop, gains counted as nothing. */
  ghost predicate RisksOf(risks: seq<real>, book: seq<OpenPosition>) {
    && |risks| == |book|
    && forall i :: 0 <= i < |book| ==> risks[i] == if book[i].riskToStop > 0.0 then book[i].riskToStop else 0.0
  }

  lemma {:induction false} RisksNotNegative(risks: seq<real>)
    requires forall i :: 0 <= i < |risks| ==> risks[i] >= 0.0
    ensures Sum(risks) >= 0.0
  {
    if |risks| > 0 { RisksNotNegative(risks[..|risks| - 1]); }
  }

  /**
   The gate lets a trade in exactly when its projected loss is not negative, it is before the Friday cutoff and the
   soft stop, its symbol is not open, no open position of its first group is on the other side, its slot fits, and
   losing every open position's stop risk with it stays short of both limits.
   */
  lemma AllowedExactly(symbol: string, side: Side, s: AccountState, cutoff: bool, limits: Limits, newTradeRisk: real,
                       risks: seq<real>)
    requires RisksOf(risks, s.openPositions)
    ensures CanOpen(symbol, side, s, cutoff, limits, newTradeRisk) == Allowed <==>
      && newTradeRisk >= 0.0 && !cutoff && s.consecutiveLossesToday < limits.maxConsecutiveLosses
      && (forall p :: p in s.openPositions ==> p.symbol != symbol)
      && (forall p :: p in s.openPositions && SharesFirstGroup(symbol, p.symbol, limits.correlatedGroups) ==> p.side == side)
      && SlotsUsed(Symbols(s.openPositions) + [symbol], limits) <= limits.maxOpenSlots
      && s.dayBaseline - s.equity + newTradeRisk + Sum(risks) < limits.initialBalance * limits.dailyLossPct
      && s.overallReference - s.equity + newTradeRisk + Sum(risks) < limits.initialBalance * limits.overallLossPct
  {
    var book := s.openPositions;
    assert StopRisks(book) == risks;
    RisksNotNegative(risks);
    assert symbol in Symbols(book) <==> exists p :: p in book && p.symbol == symbol by { SymbolsAre(book, symbol); }
    forall p | p in book
      ensures SharesFirstGroup(symbol, p.symbol, limits.correlatedGroups)
        <==> GroupOf(symbol, limits.correlatedGroups).Some? && p.symbol in GroupOf(symbol, limits.correlatedGroups).value
    {
      FirstGroupExactly(symbol, p.symbol, limits.correlatedGroups);
    }
    hide SharesFirstGroup, SlotsUsed, Symbols, StopRisks, RisksOf, Sum;
  }

  lemma SymbolsAre(book: seq<OpenPosition>, symbol: string)
    ensures symbol in Symbols(book) <==> exists p :: p in book && p.symbol == symbol
  {
    if symbol in Symbols(book) {
      var i :| 0 <= i < |book| && Symbols(book)[i] == symbol;
      assert book[i] in book;
    }
    if exists p :: p in book && p.symbol == symbol {
      var p :| p in book && p.symbol == symbol;
      var i :| 0 <= i < |book| && book[i] == p;
      assert Symbols(book)[i] == symbol;
    }
  }

  /** The account halts exactly at a limit, and the overall limit names the halt when both are reached. */
  lemma HaltsExactly(s: AccountState, limits: Limits)
    ensures ShouldHalt(s, limits) == Some(Overall) <==> s.overallReference - s.equity >= limits.initialBalance * limits.overallLossPct
    ensures ShouldHalt(s, limits).Some? <==>
      || s.overallReference - s.equity >= limits.initialBalance * limits.overallLossPct
      || s.dayBaseline - s.equity >= limits.initialBalance * limits.dailyLossPct
  {
  }

  /** The gate's nine checks on a trade, in its order, as the conditions that refuse it. */
  ghost function Failures(symbol: string, side: Side, s: AccountState, cutoff: bool, limits: Limits, newTradeRisk: real,
                          risks: seq<real>): seq<(bool, Refusal)>
  {
    var worst := newTradeRisk + Sum(risks);
    var daily := limits.initialBalance * limits.dailyLossPct;
    var overall := limits.initialBalance * limits.overallLossPct;
    [(newTradeRisk < 0.0, InvalidRisk),
     (s.overallReference - s.equity >= overall, Halted(Overall)),
     (s.dayBaseline - s.equity >= daily, Halted(Daily)),
     (cutoff, PastFridayCutoff),
     (s.consecutiveLossesToday >= limits.maxConsecutiveLosses, DailySoftStop),
     (exists p :: p in s.openPositions && p.symbol == symbol, SymbolAlreadyOpen),
     (exists p :: p in s.openPositions && SharesFirstGroup(symbol, p.symbol, limits.correlatedGroups) && p.side != side,
      CorrelationGuard),
     (SlotsUsed(Symbols(s.openPositions) + [symbol], limits) > limits.maxOpenSlots, SlotsFull),
     (s.dayBaseline - s.equity + worst >= daily, ProjectedDailyLoss),
     (s.overallReference - s.equity + worst >= overall, ProjectedOverallLoss)]
  }

  /** A refusal names the first check that fails. */
  lemma RefusedByFirst(symbol: string, side: Side, s: AccountState, cutoff: bool, limits: Limits, newTradeRisk: real,
                       risks: seq<real>, k: nat)
    requires RisksOf(risks, s.openPositions)
    requires k < |Failures(symbol, side, s, cutoff, limits, newTradeRisk, risks)|
    requires var f := Failures(symbol, side, s, cutoff, limits, newTradeRisk, risks);
      f[k].0 && forall j :: 0 <= j < k ==> !f[j].0
    ensures CanOpen(symbol, side, s, cutoff, limits, newTradeRisk)
         == Refused(Failures(symbol, side, s, cutoff, limits, newTradeRisk, risks)[k].1)
  {
    var book := s.openPositions;
    var f := Failures(symbol, side, s, cutoff, limits, newTradeRisk, risks);
    assert StopRisks(book) == risks;
    SymbolsAre(book, symbol);
    forall p | p in book
      ensures SharesFirstGroup(symbol, p.symbol, limits.correlatedGroups)
        <==> GroupOf(symbol, limits.correlatedGroups).Some? && p.symbol in GroupOf(symbol, limits.correlatedGroups).value
    {
      FirstGroupExactly(symbol, p.symbol, limits.correlatedGroups);
    }
    hide SharesFirstGroup, SlotsUsed, Symbols, StopRisks, RisksOf, Sum;
    assert (k > 0 ==> !f[0].0) && (k > 1 ==> !f[1].0) && (k > 2 ==> !f[2].0) && (k > 3 ==> !f[3].0) && (k > 4 ==> !f[4].0);
    assert (k > 5 ==> !f[5].0) && (k > 6 ==> !f[6].0) && (k > 7 ==> !f[7].0) && (k > 8 ==> !f[8].0);
  }
}
