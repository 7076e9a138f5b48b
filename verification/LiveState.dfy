/**
 The files the guard and the runner share, and each process run alone: the state store, one guard
 poll and one order placement, as the live bot executes them.
 */
module LiveState {
  import opened Common
  import opened FtmoRules
  import opened Sizing

  datatype HaltClass = DailyHalt | OverallHalt | ManualHalt

  datatype HaltRecord = HaltRecord(kind: HaltClass, day: int, atUtc: int)

  datatype Baseline = Baseline(day: int, equity: real, takenAt: int, late: bool)

  datatype Files = Files(halt: Option<HaltRecord>, keys: seq<string>, heartbeat: Option<int>, baseline: Option<Baseline>)

  const KEYS_KEPT := 5000

  /** The newest `KEYS_KEPT` entries. */
  function Newest(keys: seq<string>): seq<string> {
    if |keys| <= KEYS_KEPT then keys else keys[|keys| - KEYS_KEPT..]
  }

  function WithKey(keys: seq<string>, key: string): seq<string> {
    if key in keys then keys else Newest(keys + [key])
  }

  predicate Fresh(heartbeat: Option<int>, now: int, maxAge: int) {
    heartbeat.Some? && -maxAge <= now - heartbeat.value <= maxAge
  }

  /** A daily halt of an earlier day; the only kind of record the guard removes. */
  predicate Expired(halt: Option<HaltRecord>, today: int) {
    halt.Some? && halt.value.kind == DailyHalt && halt.value.day < today
  }

  /** An overall or manual halt: only a human may lift it. */
  predicate Strong(halt: Option<HaltRecord>) {
    halt.Some? && halt.value.kind != DailyHalt
  }

  function ClassOf(k: HaltKind): HaltClass {
    if k == Daily then DailyHalt else OverallHalt
  }

  /** One guard poll's view of the world: `late` is whether it runs more than a minute after the reset. */
  datatype Poll = Poll(now: int, today: int, equity: real, late: bool)

  function ResolveBaseline(stored: Option<Baseline>, p: Poll): Baseline {
    if stored.Some? && stored.value.day == p.today then stored.value
    else Baseline(p.today, p.equity, p.now, p.late)
  }

  function Decision(limits: Limits, p: Poll, base: Baseline): Option<HaltKind> {
    ShouldHalt(Mark(p.equity, base.equity, limits.initialBalance), limits)
  }

  /** The record the guard writes on this decision over what it read: a new halt, or daily raised to overall. */
  function RecordToWrite(decision: Option<HaltKind>, read: Option<HaltRecord>, p: Poll): Option<HaltRecord> {
    if decision.Some? && (read.None? || (read.value.kind == DailyHalt && decision.value == Overall)) then
      Some(HaltRecord(ClassOf(decision.value), p.today, p.now))
    else None
  }

  /** All file effects of one undisturbed guard poll. */
  function FilesAfterPoll(limits: Limits, f: Files, p: Poll): Files {
    var base := ResolveBaseline(f.baseline, p);
    var cleared := if Expired(f.halt, p.today) then None else f.halt;
    var write := RecordToWrite(Decision(limits, p, base), cleared, p);
    Files(if write.Some? then write else cleared, f.keys, Some(p.now), Some(base))
  }

  /** A contract block that passed configuration loading. */
  type LoadedSpec = s: ContractSpec | s.Valid() witness ContractSpec(1.0, 0.0, 0.0, 0.0, 0.0, 1.0, 1.0, 1.0)

  /** What the router reads from the terminal; `unpriced` says some open position's stop risk is unbounded. */
  datatype Desk = Desk(
    limits: Limits, sig: PricedSignal, spec: LoadedSpec, riskAmount: real, spread: real, equity: real,
    book: seq<OpenPosition>, unpriced: bool, losses: int, cutoff: bool)

  function DeskState(d: Desk, baseline: real): AccountState {
    AccountState(d.equity, baseline, d.limits.initialBalance, d.book, d.losses)
  }

  /** The pre-trade gate and a positive size. */
  predicate Admits(d: Desk, baseline: real) {
    && d.riskAmount > 0.0 && StopDistance(d.sig) > 0.0 && !d.unpriced
    && CanOpen(d.sig.symbol, d.sig.side, DeskState(d, baseline), d.cutoff, d.limits,
               ProjectedLoss(d.sig, d.spec, d.riskAmount, d.spread)) == Allowed
    && SizeFor(d.sig, d.spec, d.riskAmount).Lots? && SizeFor(d.sig, d.spec, d.riskAmount).lots > 0.0
  }

  /** One placement attempt. */
  datatype Attempt = Attempt(now: int, today: int, key: string, maxAge: int, desk: Desk)

  datatype PlaceOutcome = Halted | GuardStale | Duplicate | NoBaseline | NotAdmitted | Sent

  function OutcomeOf(f: Files, a: Attempt): PlaceOutcome {
    if f.halt.Some? then PlaceOutcome.Halted
    else if !Fresh(f.heartbeat, a.now, a.maxAge) then GuardStale
    else if a.key in f.keys then Duplicate
    else if f.baseline.None? || f.baseline.value.day != a.today then NoBaseline
    else if !Admits(a.desk, f.baseline.value.equity) then NotAdmitted
    else Sent
  }

  /** The key is stored before the order leaves, and only then. */
  function FilesAfterPlace(f: Files, a: Attempt): Files {
    if OutcomeOf(f, a) == Sent then f.(keys := WithKey(f.keys, a.key)) else f
  }

  class StateStore {
    var halt: Option<HaltRecord>
    var keys: seq<string>
    var heartbeat: Option<int>
    var baseline: Option<Baseline>

    function View(): Files
      reads this
    {
      Files(halt, keys, heartbeat, baseline)
    }

    constructor ()
      ensures View() == Files(None, [], None, None)
    {
      halt, keys, heartbeat, baseline := None, [], None, None;
    }

    /** Remove a daily halt of an earlier day, and no other. */
    method ClearDailyHalt(today: int) returns (cleared: bool)
      modifies this`halt
      ensures cleared <==> Expired(old(halt), today)
      ensures halt == if cleared then None else old(halt)
      ensures Strong(old(halt)) ==> halt == old(halt)
    {
      var rec := halt;
      if rec.Some? && rec.value.kind == DailyHalt && rec.value.day < today {
        halt := None;
        return true;
      }
      cleared := false;
    }

    method AddKey(key: string)
      modifies this`keys
      ensures keys == WithKey(old(keys), key)
      ensures key in keys
    {
      var listed := keys;
      if key !in listed {
        listed := listed + [key];
        assert listed[|listed| - 1] == key;
        keys := Newest(listed);
        assert keys[|keys| - 1] == key;
      }
    }
  }

  // ------------------------------------------------------------ one guard poll

  datatype LivePosition = LivePosition(ticket: int, inWindow: bool, closes: bool)

  datatype GuardTick = GuardTick(halted: Option<HaltClass>, closed: seq<int>, cancelled: seq<int>)

  function TicketsClosed(targets: seq<LivePosition>): seq<int> {
    if |targets| == 0 then []
    else TicketsClosed(targets[..|targets| - 1])
         + if targets[|targets| - 1].closes then [targets[|targets| - 1].ticket] else []
  }

  function OutsideWindow(positions: seq<LivePosition>): seq<LivePosition> {
    if |positions| == 0 then []
    else OutsideWindow(positions[..|positions| - 1])
         + if positions[|positions| - 1].inWindow then [] else [positions[|positions| - 1]]
  }

  /** Which positions a poll tries to close: all of them under a halt or past the Friday cutoff. */
  function Targets(halted: bool, fridayCutoff: bool, positions: seq<LivePosition>): seq<LivePosition> {
    if halted || fridayCutoff then positions else OutsideWindow(positions)
  }

  /** Of `n` terminal calls made after `before` others, how many succeed when the terminal fails after `alive` calls. */
  function Answered(alive: Option<nat>, before: nat, n: nat): (r: nat)
    ensures r <= n
  {
    match alive
    case None => n
    case Some(k) => if k <= before then 0 else if k - before < n then k - before else n
  }

  class Guard {
    const limits: Limits
    const store: StateStore

    constructor (limits: Limits, store: StateStore)
      ensures this.limits == limits && this.store == store
    {
      this.limits, this.store := limits, store;
    }

    /**
     One poll with the terminal up at its start; without it the guard writes nothing, not even a heartbeat.
     A terminal that fails after `alive` further calls ends the flattening there, and nothing else.
     */
    method Tick(p: Poll, fridayCutoff: bool, positions: seq<LivePosition>, pending: seq<int>, alive: Option<nat>)
      returns (out: GuardTick)
      modifies store
      ensures store.View() == FilesAfterPoll(limits, old(store.View()), p)
      ensures out.halted == match store.halt case Some(rec) => Some(rec.kind) case None => None
      ensures out.cancelled == if store.halt.Some? then pending[..Answered(alive, 2, |pending|)] else []
      ensures var targets := Targets(store.halt.Some?, fridayCutoff, positions);
        out.closed == TicketsClosed(targets[..Answered(alive, if store.halt.Some? then 2 + |pending| else 1, |targets|)])
    {
      var stored := store.baseline;
      var base := ResolveBaseline(stored, p);
      if stored != Some(base) {
        store.baseline := Some(base);
      }
      var _ := store.ClearDailyHalt(p.today);
      var decision := Decision(limits, p, base);
      var halt := store.halt;
      var write := RecordToWrite(decision, halt, p);
      if write.Some? {
        store.halt := write;
        halt := store.halt;
      }
      var cancelled, targets, calls := [], positions, 1;
      if halt.Some? {
        calls := 2;
        while |cancelled| < |pending| && (alive.None? || calls < alive.value)
          invariant |cancelled| <= |pending| && cancelled == pending[..|cancelled|] && calls == 2 + |cancelled|
          invariant |cancelled| <= Answered(alive, 2, |pending|)
        {
          cancelled := cancelled + [pending[|cancelled|]];
          calls := calls + 1;
        }
      } else if !fridayCutoff {
        targets := OutsideWindow(positions);
      }
      var closed := CloseTargets(targets, calls, alive);
      store.heartbeat := Some(p.now);
      out := GuardTick(if halt.Some? then Some(halt.value.kind) else None, closed, cancelled);
      ClosesAfterCancels(alive, |pending|, |cancelled|, |targets|);
    }

    method CloseTargets(targets: seq<LivePosition>, calls: nat, alive: Option<nat>) returns (closed: seq<int>)
      ensures closed == TicketsClosed(targets[..Answered(alive, calls, |targets|)])
    {
      closed := [];
      var i := 0;
      while i < |targets| && (alive.None? || calls + i < alive.value)
        invariant i <= |targets| && closed == TicketsClosed(targets[..i]) && i <= Answered(alive, calls, |targets|)
      {
        assert targets[..i + 1][..i] == targets[..i];
        if targets[i].closes {
          closed := closed + [targets[i].ticket];
        }
        i := i + 1;
      }
    }
  }

  /** Once a cancellation has failed, no close is tried. */
  lemma ClosesAfterCancels(alive: Option<nat>, pending: nat, cancelled: nat, targets: nat)
    ensures cancelled == Answered(alive, 2, pending) ==>
      Answered(alive, 2 + cancelled, targets) == Answered(alive, 2 + pending, targets)
  {
  }

  // ------------------------------------------------------------ one placement

  class OrderRouter {
    const store: StateStore
    var ordersSent: seq<string>

    constructor (store: StateStore)
      ensures this.store == store && ordersSent == []
    {
      this.store, ordersSent := store, [];
    }

    /** The placement's checks in order; the key is written before the order is sent. */
    method Place(a: Attempt) returns (outcome: PlaceOutcome)
      modifies this`ordersSent, store`keys
      ensures outcome == OutcomeOf(old(store.View()), a)
      ensures store.View() == FilesAfterPlace(old(store.View()), a)
      ensures ordersSent == old(ordersSent) + if outcome == Sent then [a.key] else []
    {
      if store.halt.Some? {
        return PlaceOutcome.Halted;
      }
      if !Fresh(store.heartbeat, a.now, a.maxAge) {
        return GuardStale;
      }
      if a.key in store.keys {
        return Duplicate;
      }
      if store.baseline.None? || store.baseline.value.day != a.today {
        return NoBaseline;
      }
      if !Admits(a.desk, store.baseline.value.equity) {
        return NotAdmitted;
      }
      store.AddKey(a.key);
      ordersSent := ordersSent + [a.key];
      outcome := Sent;
    }
  }

  // ------------------------------------------------------------ what a poll means

  /**
   A poll decides the halt exactly: afterwards HALT is present if and only if a live halt was there
   (not an expired daily one) or a limit is breached against today's baseline.
   */
  lemma HaltAfterPoll(limits: Limits, f: Files, p: Poll)
    ensures var base := ResolveBaseline(f.baseline, p);
      && (FilesAfterPoll(limits, f, p).halt.Some? <==>
            (f.halt.Some? && !Expired(f.halt, p.today))
            || base.equity - p.equity >= limits.DailyLossLimit()
            || limits.initialBalance - p.equity >= limits.OverallLossLimit())
      && (Strong(f.halt) ==> FilesAfterPoll(limits, f, p).halt == f.halt)
      && (limits.initialBalance - p.equity >= limits.OverallLossLimit() ==> Strong(FilesAfterPoll(limits, f, p).halt))
  {
  }

  /** Within one trading day every poll keeps the baseline of the first: a restart does not move it. */
  lemma BaselineHeldAllDay(limits: Limits, f: Files, p: Poll, q: Poll)
    requires p.today == q.today
    ensures FilesAfterPoll(limits, FilesAfterPoll(limits, f, p), q).baseline == FilesAfterPoll(limits, f, p).baseline
    ensures f.baseline.Some? && f.baseline.value.day == p.today ==> FilesAfterPoll(limits, f, p).baseline == f.baseline
  {
  }

  /** A halted poll targets every open position; otherwise only those outside their window or past the cutoff. */
  lemma {:induction false} TargetsExactly(halted: bool, cutoff: bool, positions: seq<LivePosition>, i: nat)
    requires i < |positions|
    ensures positions[i] in Targets(halted, cutoff, positions) <==> halted || cutoff || !positions[i].inWindow
  {
    if !halted && !cutoff {
      OutsideExactly(positions, positions[i]);
    }
  }

  lemma {:induction false} OutsideExactly(positions: seq<LivePosition>, p: LivePosition)
    ensures p in OutsideWindow(positions) <==> p in positions && !p.inWindow
  {
    if |positions| > 0 {
      var n := |positions| - 1;
      OutsideExactly(positions[..n], p);
      assert positions == positions[..n] + [positions[n]];
    }
  }

  /** The guard's heartbeat exists and is at most `maxAge` old, or at most that far ahead of the runner's clock. */
  ghost predicate GuardAlive(f: Files, now: int, maxAge: int) {
    f.heartbeat.Some? && now - f.heartbeat.value <= maxAge && f.heartbeat.value - now <= maxAge
  }

  /**
   Every outcome of a placement exactly: the first check that fails names it, in the order halt, heartbeat
   age, used key, today's baseline, gate and size; the order is sent when all of them pass.
   */
  lemma OutcomesExactly(f: Files, a: Attempt)
    ensures var o := OutcomeOf(f, a); var d := a.desk;
      var fit := f.halt.None? && GuardAlive(f, a.now, a.maxAge);
      var today := f.baseline.Some? && f.baseline.value.day == a.today;
      && (o == PlaceOutcome.Halted <==> f.halt.Some?)
      && (o == GuardStale <==> f.halt.None? && !GuardAlive(f, a.now, a.maxAge))
      && (o == Duplicate <==> fit && a.key in f.keys)
      && (o == NoBaseline <==> fit && a.key !in f.keys && !today)
      && (o == Sent <==>
            && fit && a.key !in f.keys && today
            && d.riskAmount > 0.0 && StopDistance(d.sig) > 0.0 && !d.unpriced
            && CanOpen(d.sig.symbol, d.sig.side,
                       AccountState(d.equity, f.baseline.value.equity, d.limits.initialBalance, d.book, d.losses),
                       d.cutoff, d.limits, ProjectedLoss(d.sig, d.spec, d.riskAmount, d.spread)) == Allowed
            && SizeFor(d.sig, d.spec, d.riskAmount).lots > 0.0)
  {
    hide CanOpen, ProjectedLoss, RawLots, StopDistance;
  }

  /**
   A sent order cannot lead to a breach by its stops: whatever part of its stop risk every open
   position loses, and with the new trade losing no more than projected, no limit is reached
   against the baseline the router read.
   */
  lemma SentOrderIsCovered(f: Files, a: Attempt, losses: seq<real>, newLoss: real)
    requires OutcomeOf(f, a) == Sent && |losses| == |a.desk.book|
    requires forall i :: 0 <= i < |losses| ==> losses[i] <= MaxR(a.desk.book[i].riskToStop, 0.0)
    requires newLoss <= ProjectedLoss(a.desk.sig, a.desk.spec, a.desk.riskAmount, a.desk.spread)
    ensures f.halt.None? && a.key !in f.keys
    ensures ShouldHalt(Mark(a.desk.equity - Sum(losses) - newLoss, f.baseline.value.equity,
                            a.desk.limits.initialBalance), a.desk.limits).None?
  {
    var s := DeskState(a.desk, f.baseline.value.equity);
    hide CanOpen, ProjectedLoss, SizeFor, Sum, Limits.DailyLossLimit, Limits.OverallLossLimit;
    AdmissionSound(a.desk.sig.symbol, a.desk.sig.side, s, a.desk.cutoff, a.desk.limits,
                   ProjectedLoss(a.desk.sig, a.desk.spec, a.desk.riskAmount, a.desk.spread), losses, newLoss);
  }

  /** What a poll leaves in the files, field by field: the guard never touches the keys. */
  lemma PollWritesExactly(limits: Limits, f: Files, p: Poll)
    ensures var r := FilesAfterPoll(limits, f, p);
      var keeps := f.baseline.Some? && f.baseline.value.day == p.today;
      var base := if keeps then f.baseline.value.equity else p.equity;
      var live := f.halt.Some? && !(f.halt.value.kind == DailyHalt && f.halt.value.day < p.today);
      var overall := limits.initialBalance - p.equity >= limits.initialBalance * limits.overallLossPct;
      var daily := base - p.equity >= limits.initialBalance * limits.dailyLossPct;
      && r.heartbeat == Some(p.now) && r.keys == f.keys
      && r.baseline == (if keeps then f.baseline else Some(Baseline(p.today, p.equity, p.now, p.late)))
      && r.halt == (if overall && (!live || f.halt.value.kind == DailyHalt) then Some(HaltRecord(OverallHalt, p.today, p.now))
                    else if live then f.halt
                    else if daily then Some(HaltRecord(DailyHalt, p.today, p.now))
                    else None)
  {
  }

  /** Closed are the tickets of exactly those targets whose close succeeds. */
  lemma {:induction false} TicketsExactly(targets: seq<LivePosition>, ticket: int)
    ensures ticket in TicketsClosed(targets) <==> exists i :: 0 <= i < |targets| && targets[i].closes && targets[i].ticket == ticket
  {
    if |targets| > 0 {
      var n := |targets| - 1;
      TicketsExactly(targets[..n], ticket);
      if exists i :: 0 <= i < |targets| && targets[i].closes && targets[i].ticket == ticket {
        var i :| 0 <= i < |targets| && targets[i].closes && targets[i].ticket == ticket;
        if i < n { assert targets[..n][i].closes; }
      }
    }
  }

  /** A key already stored changes nothing; a new one goes to the end, and the oldest goes when the file is full. */
  lemma KeyStoredExactly(keys: seq<string>, key: string)
    requires |keys| <= 5000
    ensures WithKey(keys, key) == if key in keys then keys
                                  else if |keys| < 5000 then keys + [key] else keys[1..] + [key]
  {
  }
}
