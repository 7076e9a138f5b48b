/**
 Advancing the tick backtest in time: the open positions' ticks are served one at a time, earliest
 first, which is what the batched engine is proved equal to.
 */
module TickAdvance {
  import opened Common
  import opened FtmoRules
  import opened TickSpec

  /** Unprocessed ticks of all open positions together. */
  function TicksLeft(open: seq<Pos>): nat {
    if |open| == 0 then 0
    else TicksLeft(open[..|open| - 1])
         + (if open[|open| - 1].idx <= |open[|open| - 1].ticks.ts|
            then |open[|open| - 1].ticks.ts| - open[|open| - 1].idx else 0)
  }

  lemma {:induction false} TicksLeftConcat(a: seq<Pos>, b: seq<Pos>)
    ensures TicksLeft(a + b) == TicksLeft(a) + TicksLeft(b)
  {
    if |b| == 0 {
      assert a + b == a;
    } else {
      assert (a + b)[..|a + b| - 1] == a + b[..|b| - 1];
      TicksLeftConcat(a, b[..|b| - 1]);
    }
  }

  lemma TicksLeftSplit(open: seq<Pos>, j: nat)
    requires j < |open|
    ensures TicksLeft(open) == TicksLeft(Without(open, j)) + TicksLeft([open[j]])
  {
    hide TicksLeft;
    assert open == open[..j] + [open[j]] + open[j + 1..];
    TicksLeftConcat(open[..j] + [open[j]], open[j + 1..]);
    TicksLeftConcat(open[..j], [open[j]]);
    TicksLeftConcat(open[..j], open[j + 1..]);
  }

  lemma {:induction false} FlattenAllEmpties(e: Engine)
    requires PositionsValid(e.open)
    ensures FlattenAll(e).open == []
    decreases |e.open|
  {
    if |e.open| > 0 {
      var p := e.open[0];
      FlattenAllEmpties(Close(e, 0, p.idx - 1, MarketExitPrice(p, p.idx - 1), GuardHalt));
    }
  }

  /** A tick either takes its position out of the book or moves just that position on by one tick. */
  lemma ApplyTickShape(e: Engine, j: nat, cfg: Config)
    requires PositionsValid(e.open)
    requires j < |e.open| && e.open[j].idx < |e.open[j].ticks.ts|
    ensures var open := ApplyTick(e, j, cfg).open;
      || open == Without(e.open, j)
      || (|open| == |e.open| && Succeeds(e.open[j], open[j]) && open == e.open[j := open[j]])
  {
    var i := e.open[j].idx;
    var p := e.open[j].(idx := i + 1);
    match Resolve(p, i, cfg.breakevenR) {
      case Exit(price, reason) => assert Without(e.open[j := p], j) == Without(e.open, j);
      case Stay(q) =>
    }
  }

  lemma ApplyTickProgress(e: Engine, j: nat, cfg: Config)
    requires PositionsValid(e.open)
    requires j < |e.open| && e.open[j].idx < |e.open[j].ticks.ts|
    ensures TicksLeft(ApplyTick(e, j, cfg).open) < TicksLeft(e.open)
  {
    var open := ApplyTick(e, j, cfg).open;
    ApplyTickShape(e, j, cfg);
    hide ApplyTick;
    TicksLeftSplit(e.open, j);
    assert TicksLeft([e.open[j]]) == |e.open[j].ticks.ts| - e.open[j].idx;
    if open != Without(e.open, j) {
      TicksLeftSplit(open, j);
      assert Without(open, j) == Without(e.open, j);
      assert TicksLeft([open[j]]) == |open[j].ticks.ts| - open[j].idx;
    }
  }

  /** A tick leaves valid positions and strictly fewer unprocessed ticks. */
  lemma TickProgress(e: Engine, j: nat, cfg: Config)
    requires PositionsValid(e.open)
    requires j < |e.open| && e.open[j].idx < |e.open[j].ticks.ts|
    ensures PositionsValid(TickOnce(e, j, cfg).open)
    ensures TicksLeft(TickOnce(e, j, cfg).open) < TicksLeft(e.open)
  {
    var e1 := ApplyTick(e, j, cfg);
    ApplyTickProgress(e, j, cfg);
    hide ApplyTick;
    var decision := ShouldHalt(Mark(Equity(e1), e1.dayStart, e1.dayStart), cfg.limits);
    if decision.Some? {
      FlattenAllEmpties(e1.(halted := decision));
    }
  }

  // ------------------------------------------------------------ advancing time

  /** Process every tick before `until`, one at a time, earliest first. */
  function Advance(e: Engine, until: int, cfg: Config): (r: Engine)
    requires PositionsValid(e.open)
    ensures PositionsValid(r.open)
    decreases TicksLeft(e.open)
  {
    var j := NextIndex(e.open, until);
    if j == -1 then e
    else
      TickProgress(e, j, cfg);
      Advance(TickOnce(e, j, cfg), until, cfg)
  }

  lemma {:induction false} AdvanceExhausts(e: Engine, until: int, cfg: Config)
    requires PositionsValid(e.open)
    ensures Idle(Advance(e, until, cfg).open, until)
    decreases TicksLeft(e.open)
  {
    var j := NextIndex(e.open, until);
    if j != -1 {
      TickProgress(e, j, cfg);
      AdvanceExhausts(TickOnce(e, j, cfg), until, cfg);
    }
  }

  /** Batch boundaries do not matter: advancing in two steps is advancing in one. */
  lemma {:induction false} AdvanceSplits(e: Engine, a: int, b: int, cfg: Config)
    requires PositionsValid(e.open)
    requires a <= b
    ensures Advance(Advance(e, a, cfg), b, cfg) == Advance(e, b, cfg)
    decreases TicksLeft(e.open)
  {
    var j := NextIndex(e.open, a);
    if j != -1 {
      assert IsNext(e.open, b, j) by {
        assert IsNext(e.open, a, j);
      }
      TickProgress(e, j, cfg);
      AdvanceSplits(TickOnce(e, j, cfg), a, b, cfg);
    }
  }
}
