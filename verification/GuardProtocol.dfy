/**
 The guard and the runner as two processes that share only files, interleaved one file access at a
 time, with crashes, restarts and a human who may write or delete HALT at any moment.
 */
module GuardProtocol {
  import opened Common
  import opened FtmoRules
  import opened LiveState
  import opened Sizing

  /** Where the runner is: between placements, or inside one, after the named step of it. */
  datatype RunnerAt =
    | Down
    | Ready
    | SawNoHalt(a: Attempt)
    | SawHeartbeat(a: Attempt)
    | SawNoKey(a: Attempt)
    | Cleared(a: Attempt)
    | ListedKeys(a: Attempt, listed: seq<string>)
    | StoredKey(a: Attempt)

  /** Where the guard is inside a poll, and what it has read of HALT. */
  datatype GuardAt =
    | Waiting
    | Polled(p: Poll)
    | LoadedBaseline(p: Poll, stored: Option<Baseline>)
    | HasBaseline(p: Poll, base: Baseline)
    | ReadToClear(p: Poll, base: Baseline, read: Option<HaltRecord>)
    | PastClear(p: Poll, base: Baseline)
    | ReadToHalt(p: Poll, base: Baseline, read: Option<HaltRecord>)
    | PastHalt(p: Poll, base: Baseline)

  /** An order that left, with the position of its key among all keys ever stored. */
  datatype SentOrder = SentOrder(key: string, slot: nat)

  /** `added` is every key ever stored, oldest first; the file keeps only its newest part. */
  datatype World = World(files: Files, guard: GuardAt, runner: RunnerAt, orders: seq<SentOrder>, added: seq<string>)

  datatype Event =
    | GuardPoll(p: Poll)
    | GuardStep
    | GuardCrash
    | RunnerStart(now: int, maxAge: int)
    | RunnerPlace(a: Attempt)
    | RunnerStep
    | RunnerAbort
    | RunnerCrash
    | HumanHalt(rec: HaltRecord)
    | HumanLift

  function GuardMove(limits: Limits, w: World): World {
    match w.guard
    case Waiting => w
    case Polled(p) => w.(guard := LoadedBaseline(p, w.files.baseline))
    case LoadedBaseline(p, stored) =>
      var base := ResolveBaseline(stored, p);
      w.(guard := HasBaseline(p, base),
         files := if stored == Some(base) then w.files else w.files.(baseline := Some(base)))
    case HasBaseline(p, base) => w.(guard := ReadToClear(p, base, w.files.halt))
    case ReadToClear(p, base, read) =>
      w.(guard := PastClear(p, base), files := if Expired(read, p.today) then w.files.(halt := None) else w.files)
    case PastClear(p, base) => w.(guard := ReadToHalt(p, base, w.files.halt))
    case ReadToHalt(p, base, read) =>
      var write := RecordToWrite(Decision(limits, p, base), read, p);
      w.(guard := PastHalt(p, base), files := if write.Some? then w.files.(halt := write) else w.files)
    case PastHalt(p, base) => w.(guard := Waiting, files := w.files.(heartbeat := Some(p.now)))
  }

  function RunnerMove(w: World): World {
    match w.runner
    case SawNoHalt(a) => w.(runner := if Fresh(w.files.heartbeat, a.now, a.maxAge) then SawHeartbeat(a) else Ready)
    case SawHeartbeat(a) => w.(runner := if a.key in w.files.keys then Ready else SawNoKey(a))
    case SawNoKey(a) =>
      var base := w.files.baseline;
      w.(runner :=
        if base.None? || base.value.day != a.today || !Admits(a.desk, base.value.equity) then Ready else Cleared(a))
    case Cleared(a) => w.(runner := ListedKeys(a, w.files.keys))
    case ListedKeys(a, listed) =>
      w.(runner := StoredKey(a), files := w.files.(keys := WithKey(listed, a.key)),
         added := if a.key in listed then w.added else w.added + [a.key])
    case StoredKey(a) =>
      w.(runner := Ready, orders := w.orders + [SentOrder(a.key, if |w.added| == 0 then 0 else |w.added| - 1)])
    case _ => w
  }

  function Next(limits: Limits, w: World, e: Event): World {
    match e
    case GuardPoll(p) => if w.guard.Waiting? then w.(guard := Polled(p)) else w
    case GuardStep => GuardMove(limits, w)
    case GuardCrash => w.(guard := Waiting)
    case RunnerStart(now, maxAge) =>
      if w.runner.Down? && w.files.halt.None? && Fresh(w.files.heartbeat, now, maxAge) then w.(runner := Ready) else w
    case RunnerPlace(a) => if w.runner.Ready? && w.files.halt.None? then w.(runner := SawNoHalt(a)) else w
    case RunnerStep => RunnerMove(w)
    case RunnerAbort => if w.runner.Down? then w else w.(runner := Ready)
    case RunnerCrash => w.(runner := Down)
    case HumanHalt(rec) => w.(files := w.files.(halt := Some(rec)))
    case HumanLift => w.(files := w.files.(halt := None))
  }

  function After(limits: Limits, w: World, events: seq<Event>): World {
    if |events| == 0 then w else Next(limits, After(limits, w, events[..|events| - 1]), events[|events| - 1])
  }

  const START := World(Files(None, [], None, None), Waiting, Down, [], [])

  // ------------------------------------------------------------ at most one order slips past a HALT

  /** One if the runner is inside a placement, past its HALT check. */
  function InFlight(r: RunnerAt): nat {
    if r.Down? || r.Ready? then 0 else 1
  }

  /** HALT is present before each of these events. */
  ghost predicate HaltedThroughout(limits: Limits, w: World, events: seq<Event>) {
    forall n :: 0 <= n < |events| ==> After(limits, w, events[..n]).files.halt.Some?
  }

  lemma HaltedStep(limits: Limits, w: World, e: Event)
    requires w.files.halt.Some?
    ensures |Next(limits, w, e).orders| + InFlight(Next(limits, w, e).runner) <= |w.orders| + InFlight(w.runner)
    ensures w.orders <= Next(limits, w, e).orders
  {
    hide Admits, Decision;
  }

  /**
   While HALT stays present, by whoever's hand and whatever else happens (polls, crashes, restarts,
   new signals), at most one order leaves, and none unless a placement was already past its HALT check.
   */
  lemma {:induction false} AtMostOneOrderPerHalt(limits: Limits, w: World, events: seq<Event>)
    requires HaltedThroughout(limits, w, events)
    ensures |After(limits, w, events).orders| + InFlight(After(limits, w, events).runner) <= |w.orders| + InFlight(w.runner)
    ensures |After(limits, w, events).orders| <= |w.orders| + 1
    ensures w.runner.Ready? || w.runner.Down? ==> After(limits, w, events).orders == w.orders
  {
    if |events| > 0 {
      var n := |events| - 1;
      forall m | 0 <= m < n ensures After(limits, w, events[..n][..m]).files.halt.Some? {
        assert events[..n][..m] == events[..m];
      }
      AtMostOneOrderPerHalt(limits, w, events[..n]);
      HaltedStep(limits, After(limits, w, events[..n]), events[n]);
      OrdersOnlyGrow(limits, w, events);
    }
  }

  lemma {:induction false} OrdersOnlyGrow(limits: Limits, w: World, events: seq<Event>)
    ensures w.orders <= After(limits, w, events).orders
  {
    if |events| > 0 {
      hide Admits, Decision;
      OrdersOnlyGrow(limits, w, events[..|events| - 1]);
    }
  }

  // ------------------------------------------------------------ one order per key

  /** Equal entries are more than `KEYS_KEPT` apart. */
  ghost predicate Spaced(added: seq<string>) {
    forall i, j :: 0 <= i < j < |added| && added[i] == added[j] ==> j - i > KEYS_KEPT
  }

  ghost predicate OrdersMatch(w: World) {
    && (forall i :: 0 <= i < |w.orders| ==> w.orders[i].slot < |w.added| && w.added[w.orders[i].slot] == w.orders[i].key)
    && (forall i, j :: 0 <= i < j < |w.orders| ==> w.orders[i].slot < w.orders[j].slot)
  }

  /** What the runner has established about its key at each point of a placement. */
  ghost predicate KeyKnowledge(w: World) {
    match w.runner
    case SawNoKey(a) => a.key !in w.files.keys
    case Cleared(a) => a.key !in w.files.keys
    case ListedKeys(a, listed) => listed == w.files.keys && a.key !in listed
    case StoredKey(a) =>
      && |w.added| > 0 && w.added[|w.added| - 1] == a.key
      && (forall i :: 0 <= i < |w.orders| ==> w.orders[i].slot < |w.added| - 1)
    case _ => true
  }

  ghost predicate KeysInv(w: World) {
    && w.files.keys == Newest(w.added) && Spaced(w.added) && OrdersMatch(w) && KeyKnowledge(w)
  }

  lemma NewestAfter(added: seq<string>, key: string)
    requires Spaced(added) && key !in Newest(added)
    ensures WithKey(Newest(added), key) == Newest(added + [key])
    ensures Spaced(added + [key])
  {
    var r := added + [key];
    var from := |added| - |Newest(added)|;
    forall i | from <= i < |added| ensures added[i] != key {
      assert Newest(added)[i - from] == added[i];
    }
    forall i, j | 0 <= i < j < |r| && r[i] == r[j] ensures j - i > KEYS_KEPT {
    }
  }

  lemma KeysStep(limits: Limits, w: World, e: Event)
    requires KeysInv(w)
    ensures KeysInv(Next(limits, w, e))
  {
    hide Admits, Decision, Spaced, Newest, Fresh;
    if e.RunnerStep? && w.runner.ListedKeys? {
      NewestAfter(w.added, w.runner.a.key);
    }
  }

  lemma {:induction false} KeysRun(limits: Limits, events: seq<Event>)
    ensures KeysInv(After(limits, START, events))
  {
    if |events| > 0 {
      KeysRun(limits, events[..|events| - 1]);
      hide KeysInv, Next;
      KeysStep(limits, After(limits, START, events[..|events| - 1]), events[|events| - 1]);
    }
  }

  /**
   A key sends at most once until `KEYS_KEPT` newer keys have pushed it out: in every run, two orders
   with one key are separated by more than that many stored keys, and the first so many of them are
   all different from each other and from it.
   */
  lemma OneOrderPerKey(limits: Limits, events: seq<Event>, i: nat, j: nat)
    requires i < j < |After(limits, START, events).orders|
    requires var w := After(limits, START, events); w.orders[i].key == w.orders[j].key
    ensures var w := After(limits, START, events); var (s, t) := (w.orders[i].slot, w.orders[j].slot);
      && t < |w.added| && t - s > KEYS_KEPT
      && (forall m, n :: s <= m < n <= s + KEYS_KEPT ==> w.added[m] != w.added[n])
  {
    KeysRun(limits, events);
  }

  // ------------------------------------------------------------ strong halts

  predicate Human(e: Event) { e.HumanHalt? || e.HumanLift? }

  /** What the guard is about to do to HALT would leave it absent or daily. */
  predicate AboutToWeaken(limits: Limits, g: GuardAt) {
    match g
    case ReadToClear(p, _, read) => Expired(read, p.today)
    case ReadToHalt(p, base, read) =>
      var write := RecordToWrite(Decision(limits, p, base), read, p);
      write.Some? && write.value.kind == DailyHalt
    case _ => false
  }

  /** What the guard last read of HALT, while it may still act on it. */
  function LastRead(g: GuardAt): Option<HaltRecord> {
    if g.ReadToClear? || g.ReadToHalt? then g.read else None
  }

  /**
   An event other than a human's takes an overall or manual halt away, or turns it daily, exactly
   when it is the guard acting on an older reading of the file.
   */
  lemma StrongHaltLostExactly(limits: Limits, w: World, e: Event)
    requires Strong(w.files.halt) && !Human(e)
    ensures !Strong(Next(limits, w, e).files.halt) <==> e.GuardStep? && AboutToWeaken(limits, w.guard)
    ensures AboutToWeaken(limits, w.guard) ==> LastRead(w.guard) != w.files.halt
  {
    hide Admits;
  }

  /** The file is still what the guard read, if it is going to act on the reading. */
  ghost predicate ReadingCurrent(limits: Limits, w: World) {
    AboutToWeaken(limits, w.guard) ==> LastRead(w.guard) == w.files.halt
  }

  /** Only a human's write can make the guard's reading stale. */
  lemma ReadingStaysCurrent(limits: Limits, w: World, e: Event)
    requires ReadingCurrent(limits, w) && !Human(e)
    ensures ReadingCurrent(limits, Next(limits, w, e))
  {
    hide Admits;
  }

  /** No human touches HALT between the guard's reading and its acting on it. */
  ghost predicate HumansWait(limits: Limits, w: World, events: seq<Event>) {
    forall n :: 0 <= n < |events| && Human(events[n]) ==> !AboutToWeaken(limits, After(limits, w, events[..n]).guard)
  }

  lemma {:induction false} CurrentRun(limits: Limits, w: World, events: seq<Event>)
    requires ReadingCurrent(limits, w) && HumansWait(limits, w, events)
    ensures ReadingCurrent(limits, After(limits, w, events))
  {
    if |events| > 0 {
      var n := |events| - 1;
      forall m | 0 <= m < n && Human(events[..n][m]) ensures !AboutToWeaken(limits, After(limits, w, events[..n][..m]).guard) {
        assert events[..n][..m] == events[..m] && events[..n][m] == events[m];
      }
      CurrentRun(limits, w, events[..n]);
      var v := After(limits, w, events[..n]);
      if Human(events[n]) {
        hide AboutToWeaken, Admits;
        assert Next(limits, v, events[n]).guard == v.guard;
      } else {
        hide Next, ReadingCurrent;
        ReadingStaysCurrent(limits, v, events[n]);
      }
    }
  }

  /**
   The guard never removes or downgrades an overall or manual halt, in every run in which no human
   touches HALT while the guard is acting on a reading of it.
   */
  lemma StrongHaltSurvives(limits: Limits, events: seq<Event>, e: Event)
    requires HumansWait(limits, START, events) && !Human(e)
    requires Strong(After(limits, START, events).files.halt)
    ensures Strong(Next(limits, After(limits, START, events), e).files.halt)
  {
    CurrentRun(limits, START, events);
    hide Next, AboutToWeaken, LastRead;
    StrongHaltLostExactly(limits, After(limits, START, events), e);
  }

  // ------------------------------------------------------------ each process alone

  /** `n` times the same event. */
  function Repeat(limits: Limits, w: World, e: Event, n: nat): World {
    if n == 0 then w else Next(limits, Repeat(limits, w, e, n - 1), e)
  }

  /** Three accesses into a poll the guard has its baseline and a reading of HALT. */
  lemma GuardReads(limits: Limits, w: World, p: Poll)
    requires w.guard == Waiting
    ensures var base := ResolveBaseline(w.files.baseline, p);
      Repeat(limits, Next(limits, w, GuardPoll(p)), GuardStep, 3)
      == w.(guard := ReadToClear(p, base, w.files.halt), files := w.files.(baseline := Some(base)))
  {
    hide Decision, Admits, Expired, RecordToWrite;
    var base := ResolveBaseline(w.files.baseline, p);
    var w0 := Next(limits, w, GuardPoll(p));
    assert Repeat(limits, w0, GuardStep, 1) == w.(guard := LoadedBaseline(p, w.files.baseline));
    assert Repeat(limits, w0, GuardStep, 2) == w.(guard := HasBaseline(p, base), files := w.files.(baseline := Some(base)));
  }

  /** Undisturbed, the guard's file accesses add up to its poll. */
  lemma GuardAlone(limits: Limits, w: World, p: Poll)
    requires w.guard == Waiting
    ensures Repeat(limits, Next(limits, w, GuardPoll(p)), GuardStep, 7) == w.(files := FilesAfterPoll(limits, w.files, p))
  {
    hide Decision, Admits, Expired, RecordToWrite;
    var base := ResolveBaseline(w.files.baseline, p);
    var w0 := Next(limits, w, GuardPoll(p));
    var w3 := Repeat(limits, w0, GuardStep, 3);
    GuardReads(limits, w, p);
    var cleared := if Expired(w.files.halt, p.today) then None else w.files.halt;
    var w5 := Repeat(limits, w0, GuardStep, 5);
    assert w5 == w3.(guard := ReadToHalt(p, base, cleared), files := w3.files.(halt := cleared)) by {
      assert Repeat(limits, w0, GuardStep, 4) == w3.(guard := PastClear(p, base), files := w3.files.(halt := cleared));
    }
    assert Repeat(limits, w0, GuardStep, 6).guard == PastHalt(p, base);
  }

  /** Undisturbed, the runner's file accesses add up to one placement. */
  lemma RunnerAlone(limits: Limits, w: World, a: Attempt)
    requires w.runner == Ready
    ensures var r := Repeat(limits, Next(limits, w, RunnerPlace(a)), RunnerStep, 6);
      && r.files == FilesAfterPlace(w.files, a) && r.runner == Ready && r.guard == w.guard
      && r.orders == w.orders + (if OutcomeOf(w.files, a) == Sent then [SentOrder(a.key, |w.added|)] else [])
      && r.added == w.added + (if OutcomeOf(w.files, a) == Sent then [a.key] else [])
  {
    hide Admits, Fresh, WithKey, Repeat;
    var w0 := Next(limits, w, RunnerPlace(a));
    if w.files.halt.Some? {
      ReadyIdles(limits, w0, 6);
    } else if !Fresh(w.files.heartbeat, a.now, a.maxAge) {
      OneMore(limits, w0, RunnerStep, 0);
      RepeatSplits(limits, w0, RunnerStep, 1, 5);
      ReadyIdles(limits, w, 5);
    } else {
      OneMore(limits, w0, RunnerStep, 0);
      OneMore(limits, w0, RunnerStep, 1);
      if a.key in w.files.keys {
        RepeatSplits(limits, w0, RunnerStep, 2, 4);
        ReadyIdles(limits, w, 4);
      } else {
        RepeatSplits(limits, w0, RunnerStep, 2, 4);
        KeyFree(limits, w.(runner := SawNoKey(a)));
      }
    }
  }

  lemma OneMore(limits: Limits, w: World, e: Event, n: nat)
    ensures Repeat(limits, w, e, 0) == w
    ensures Repeat(limits, w, e, n + 1) == Next(limits, Repeat(limits, w, e, n), e)
  {
    hide Next;
  }

  /** The second half of a placement, once its key is known to be unused. */
  lemma KeyFree(limits: Limits, w: World)
    requires w.runner.SawNoKey? && w.runner.a.key !in w.files.keys
    ensures var r := Repeat(limits, w, RunnerStep, 4); var a := w.runner.a; var base := w.files.baseline;
      var sends := base.Some? && base.value.day == a.today && Admits(a.desk, base.value.equity);
      r == w.(runner := Ready,
              files := if sends then w.files.(keys := WithKey(w.files.keys, a.key)) else w.files,
              orders := w.orders + (if sends then [SentOrder(a.key, |w.added|)] else []),
              added := w.added + (if sends then [a.key] else []))
  {
    hide Admits, WithKey, Repeat;
    var a, base := w.runner.a, w.files.baseline;
    OneMore(limits, w, RunnerStep, 0);
    if base.None? || base.value.day != a.today || !Admits(a.desk, base.value.equity) {
      RepeatSplits(limits, w, RunnerStep, 1, 3);
      ReadyIdles(limits, w.(runner := Ready), 3);
      assert w.orders + [] == w.orders && w.added + [] == w.added;
    } else {
      OneMore(limits, w, RunnerStep, 1);
      OneMore(limits, w, RunnerStep, 2);
      OneMore(limits, w, RunnerStep, 3);
    }
  }

  lemma {:induction false} ReadyIdles(limits: Limits, w: World, n: nat)
    requires w.runner == Ready
    ensures Repeat(limits, w, RunnerStep, n) == w
  {
    if n > 0 {
      ReadyIdles(limits, w, n - 1);
    }
  }

  lemma {:induction false} RepeatSplits(limits: Limits, w: World, e: Event, m: nat, n: nat)
    ensures Repeat(limits, w, e, m + n) == Repeat(limits, Repeat(limits, w, e, m), e, n)
  {
    if n > 0 {
      hide Next;
      RepeatSplits(limits, w, e, m, n - 1);
    }
  }

  // ------------------------------------------------------------ which placement slips

  /** The trade has a baseline of its day and is admitted against it. */
  predicate Admitted(files: Files, a: Attempt) {
    files.baseline.Some? && files.baseline.value.day == a.today && Admits(a.desk, files.baseline.value.equity)
  }

  /** The checks a placement has still to pass; none of them looks at HALT again. */
  predicate RestPasses(w: World) {
    match w.runner
    case Down => false
    case Ready => false
    case SawNoHalt(a) => Fresh(w.files.heartbeat, a.now, a.maxAge) && a.key !in w.files.keys && Admitted(w.files, a)
    case SawHeartbeat(a) => a.key !in w.files.keys && Admitted(w.files, a)
    case SawNoKey(a) => Admitted(w.files, a)
    case _ => true
  }

  lemma RestStep(limits: Limits, w: World)
    ensures var r := Next(limits, w, RunnerStep);
      && r.files.halt == w.files.halt
      && (if w.runner.StoredKey? then |r.orders| == |w.orders| + 1 && RestPasses(w) && !RestPasses(r)
          else r.orders == w.orders && (RestPasses(r) <==> RestPasses(w)))
  {
    hide Admits, Fresh;
  }

  /** Steps left before the order. */
  function StepsLeft(r: RunnerAt): nat {
    match r
    case Down => 0
    case Ready => 0
    case SawNoHalt(_) => 6
    case SawHeartbeat(_) => 5
    case SawNoKey(_) => 4
    case Cleared(_) => 3
    case ListedKeys(_, _) => 2
    case StoredKey(_) => 1
  }

  lemma StepsGoDown(limits: Limits, w: World)
    ensures var r := Next(limits, w, RunnerStep).runner; StepsLeft(r) == 0 || StepsLeft(r) == StepsLeft(w.runner) - 1
    ensures StepsLeft(w.runner) == 1 ==> w.runner.StoredKey?
    ensures StepsLeft(w.runner) == 0 ==> !RestPasses(w)
  {
    hide Admits, Fresh;
  }

  /** Left alone for `n` steps, enough for what is left, a placement sends exactly when the rest of its checks pass. */
  lemma {:induction false} SendsExactly(limits: Limits, w: World, n: nat)
    requires StepsLeft(w.runner) <= n
    ensures var r := Repeat(limits, w, RunnerStep, n);
      && r.files.halt == w.files.halt
      && |r.orders| == |w.orders| + if RestPasses(w) then 1 else 0
    decreases n
  {
    hide Next, RestPasses;
    StepsGoDown(limits, w);
    OneMore(limits, w, RunnerStep, 0);
    if n > 0 {
      RestStep(limits, w);
      RepeatSplits(limits, w, RunnerStep, 1, n - 1);
      var v := Next(limits, w, RunnerStep);
      StepsGoDown(limits, v);
      SendsExactly(limits, v, n - 1);
    }
  }

  /**
   Which placements slip past a HALT: with HALT present and nothing else happening, the runner sends one
   order if the rest of its checks pass, as they do once its gate is behind it, and none otherwise.
   */
  lemma OrderSlipsExactly(limits: Limits, w: World)
    requires w.files.halt.Some?
    ensures var r := Repeat(limits, w, RunnerStep, 6);
      && r.files.halt.Some?
      && (|r.orders| > |w.orders| <==> RestPasses(w))
    ensures w.runner.Cleared? || w.runner.ListedKeys? || w.runner.StoredKey? ==> RestPasses(w)
  {
    SendsExactly(limits, w, 6);
    hide Repeat, Admits;
  }

  // ------------------------------------------------------------ two runs from the start

  /** An event followed by `n` steps of one process. */
  function Then(e: Event, step: Event, n: nat): seq<Event> {
    [e] + seq(n, _ => step)
  }

  lemma {:induction false} AfterConcat(limits: Limits, w: World, a: seq<Event>, b: seq<Event>)
    ensures After(limits, w, a + b) == After(limits, After(limits, w, a), b)
  {
    hide Next;
    if |b| == 0 {
      assert a + b == a;
    } else {
      assert (a + b)[..|a + b| - 1] == a + b[..|b| - 1];
      AfterConcat(limits, w, a, b[..|b| - 1]);
    }
  }

  lemma AfterOne(limits: Limits, w: World, e: Event)
    ensures After(limits, w, [e]) == Next(limits, w, e)
  {
    hide Next;
    assert [e][..0] == [];
  }

  lemma {:induction false} AfterThen(limits: Limits, w: World, e: Event, step: Event, n: nat)
    ensures After(limits, w, Then(e, step, n)) == Repeat(limits, Next(limits, w, e), step, n)
  {
    hide Next;
    if n == 0 {
      assert Then(e, step, 0) == [e];
      AfterOne(limits, w, e);
    } else {
      assert Then(e, step, n)[..n] == Then(e, step, n - 1);
      AfterThen(limits, w, e, step, n - 1);
    }
  }

  const BOUNDS := Limits(100.0, 0.05, 0.1, 1, [], 1)

  /** Equity at the balance in the morning, six under it later that day, and the same the day after. */
  const MORNING := Poll(0, 1, 100.0, false)
  const LOSING := Poll(60, 1, 94.0, false)
  const NEXT_DAY := Poll(1440, 2, 94.0, false)

  const DESK := Desk(BOUNDS, PricedSignal("EURUSD", Long, 2.0, 1.0, 4.0), ContractSpec(1.0, 0.0, 0.0, 0.0, 0.0, 1.0, 1.0, 1.0),
                     1.0, 0.0, 100.0, [], false, 0, false)

  const ATTEMPT := Attempt(1, 1, "key", 60, DESK)

  /** One lot, at a distance of one from the stop, risks one. */
  lemma AttemptRisk()
    ensures StopDistance(DESK.sig) == 1.0 && DESK.spec.ValuePerPriceUnit(1.0) == 1.0 && RawLots(DESK.sig, DESK.spec, 1.0) == 1.0
  {
    assert 1.0 * 1.0 == 1.0 && 1.0 / 1.0 == 1.0;
  }

  lemma FloorOfOne(x: real)
    requires 1.0 <= x < 2.0
    ensures x.Floor == 1
  {
  }

  lemma SizedOne(sig: PricedSignal, spec: ContractSpec, riskAmount: real)
    requires spec.Valid() && riskAmount > 0.0 && StopDistance(sig) > 0.0
    requires RawLots(sig, spec, riskAmount) == 1.0 && spec.lotStep == 1.0 && spec.minLot <= 1.0 <= spec.maxLot
    ensures SizeFor(sig, spec, riskAmount) == Lots(1.0)
  {
    hide RawLots, StopDistance;
    FloorOfOne(RawLots(sig, spec, riskAmount) / spec.lotStep + STEP_TOLERANCE);
  }

  lemma AttemptSized()
    ensures SizeFor(DESK.sig, DESK.spec, 1.0) == Lots(1.0)
  {
    hide SizeFor;
    AttemptRisk();
    SizedOne(DESK.sig, DESK.spec, 1.0);
  }

  lemma AttemptProjected()
    requires StopDistance(DESK.sig) == 1.0
    ensures ProjectedLoss(DESK.sig, DESK.spec, 1.0, 0.0) == 1.0
  {
    hide StopDistance, RawLots, ContractSpec.ValuePerPriceUnit;
    AttemptRisk();
  }

  /** A flat account at its balance admits what is sized and projected within both limits. */
  lemma FlatDeskAdmits(d: Desk)
    requires d.riskAmount > 0.0 && StopDistance(d.sig) > 0.0 && !d.unpriced && d.book == [] && !d.cutoff
    requires d.limits.Valid() && d.equity == d.limits.initialBalance && d.losses < d.limits.maxConsecutiveLosses
    requires SizeFor(d.sig, d.spec, d.riskAmount).Lots? && SizeFor(d.sig, d.spec, d.riskAmount).lots > 0.0
    requires 0.0 <= ProjectedLoss(d.sig, d.spec, d.riskAmount, d.spread) < d.limits.DailyLossLimit()
    requires ProjectedLoss(d.sig, d.spec, d.riskAmount, d.spread) < d.limits.OverallLossLimit()
    ensures Admits(d, d.equity)
  {
    hide StopDistance, SizeFor, ProjectedLoss, SlotsUsed, Limits.DailyLossLimit, Limits.OverallLossLimit, GroupOf;
    assert Symbols([]) + [d.sig.symbol] == [d.sig.symbol];
    SlotsAtMostSymbols([d.sig.symbol], d.limits);
    assert Sum(StopRisks([])) == 0.0;
  }

  lemma BoundsAre()
    ensures BOUNDS.Valid() && BOUNDS.DailyLossLimit() == 5.0 && BOUNDS.OverallLossLimit() == 10.0
  {
  }

  lemma DeskIs()
    ensures DESK.limits == BOUNDS && DESK.riskAmount == 1.0 && DESK.spread == 0.0 && DESK.book == [] && DESK.losses == 0
    ensures !DESK.unpriced && !DESK.cutoff && DESK.equity == 100.0 == BOUNDS.initialBalance && BOUNDS.maxConsecutiveLosses == 1
  {
  }

  /** The attempt passes the gate against the morning's baseline. */
  lemma AttemptAdmitted()
    ensures Admits(DESK, 100.0)
  {
    hide *;
    DeskIs();
    BoundsAre();
    AttemptRisk();
    AttemptSized();
    AttemptProjected();
    FlatDeskAdmits(DESK);
  }

  /** What the first two polls leave behind. */
  lemma PollDecisions(f: Files)
    requires f.halt.None? && f.baseline.None?
    ensures var morning := FilesAfterPoll(BOUNDS, f, MORNING);
      && morning == f.(heartbeat := Some(0), baseline := Some(Baseline(1, 100.0, 0, false)))
  {
    assert BOUNDS.DailyLossLimit() == 5.0 && BOUNDS.OverallLossLimit() == 10.0;
  }

  lemma LosingPollHalts(f: Files)
    requires f.halt.None? && f.baseline == Some(Baseline(1, 100.0, 0, false))
    ensures FilesAfterPoll(BOUNDS, f, LOSING) == f.(halt := Some(HaltRecord(DailyHalt, 1, 60)), heartbeat := Some(60))
  {
    assert BOUNDS.DailyLossLimit() == 5.0 && BOUNDS.OverallLossLimit() == 10.0;
  }

  /** The events up to a placement whose key is stored and whose order has not left yet. */
  function UntilStored(): seq<Event> {
    Then(GuardPoll(MORNING), GuardStep, 7) + [RunnerStart(1, 60)] + Then(RunnerPlace(ATTEMPT), RunnerStep, 5)
  }

  lemma ReachesStored()
    ensures After(BOUNDS, START, UntilStored())
         == World(Files(None, ["key"], Some(0), Some(Baseline(1, 100.0, 0, false))), Waiting, StoredKey(ATTEMPT), [], ["key"])
  {
    hide Next, After, Repeat, Admits, FilesAfterPoll;
    var poll := Then(GuardPoll(MORNING), GuardStep, 7);
    var start := RunnerStart(1, 60);
    AfterThen(BOUNDS, START, GuardPoll(MORNING), GuardStep, 7);
    GuardAlone(BOUNDS, START, MORNING);
    PollDecisions(START.files);
    var polled := After(BOUNDS, START, poll);
    AfterConcat(BOUNDS, START, poll, [start]);
    AfterOne(BOUNDS, polled, start);
    AfterConcat(BOUNDS, START, poll + [start], Then(RunnerPlace(ATTEMPT), RunnerStep, 5));
    RunnerStarts(polled, start);
    AfterThen(BOUNDS, polled.(runner := Ready), RunnerPlace(ATTEMPT), RunnerStep, 5);
    PlacementStores(polled.(runner := Ready));
  }

  lemma RunnerStarts(w: World, start: Event)
    requires w.runner == Down && w.files.halt.None? && w.files.heartbeat == Some(0) && start == RunnerStart(1, 60)
    ensures Next(BOUNDS, w, start) == w.(runner := Ready)
  {
  }

  lemma PlacementStores(w: World)
    requires w.runner == Ready && w.added == []
    requires w.files == Files(None, [], Some(0), Some(Baseline(1, 100.0, 0, false)))
    ensures Repeat(BOUNDS, Next(BOUNDS, w, RunnerPlace(ATTEMPT)), RunnerStep, 5)
         == w.(runner := StoredKey(ATTEMPT), files := w.files.(keys := ["key"]), added := ["key"])
  {
    hide Admits, Repeat;
    AttemptAdmitted();
    var w0 := Next(BOUNDS, w, RunnerPlace(ATTEMPT));
    OneMore(BOUNDS, w0, RunnerStep, 0);
    OneMore(BOUNDS, w0, RunnerStep, 1);
    OneMore(BOUNDS, w0, RunnerStep, 2);
    OneMore(BOUNDS, w0, RunnerStep, 3);
    OneMore(BOUNDS, w0, RunnerStep, 4);
    assert Repeat(BOUNDS, w0, RunnerStep, 1) == w.(runner := SawHeartbeat(ATTEMPT));
    assert Repeat(BOUNDS, w0, RunnerStep, 2) == w.(runner := SawNoKey(ATTEMPT));
    assert Repeat(BOUNDS, w0, RunnerStep, 3) == w.(runner := Cleared(ATTEMPT));
    assert Repeat(BOUNDS, w0, RunnerStep, 4) == w.(runner := ListedKeys(ATTEMPT, []));
    assert WithKey([], "key") == ["key"];
  }

  /**
   The one order is real: from the start, a morning poll and a placement up to its stored key; then the
   guard's next poll finds a daily breach and writes HALT; then the order leaves all the same.
   */
  lemma OneOrderCanSlip()
    ensures var halted := UntilStored() + Then(GuardPoll(LOSING), GuardStep, 7);
      && After(BOUNDS, START, halted).files.halt == Some(HaltRecord(DailyHalt, 1, 60))
      && After(BOUNDS, START, halted).orders == []
      && After(BOUNDS, START, halted + [RunnerStep]).files.halt.Some?
      && After(BOUNDS, START, halted + [RunnerStep]).orders == [SentOrder("key", 0)]
  {
    hide Next, After, Repeat, FilesAfterPoll;
    ReachesStored();
    var stored := After(BOUNDS, START, UntilStored());
    var losing := Then(GuardPoll(LOSING), GuardStep, 7);
    AfterConcat(BOUNDS, START, UntilStored(), losing);
    AfterThen(BOUNDS, stored, GuardPoll(LOSING), GuardStep, 7);
    GuardAlone(BOUNDS, stored, LOSING);
    LosingPollHalts(stored.files);
    AfterConcat(BOUNDS, START, UntilStored() + losing, [RunnerStep]);
    var halted := After(BOUNDS, START, UntilStored() + losing);
    AfterOne(BOUNDS, halted, RunnerStep);
    OrderLeaves(halted);
  }

  lemma OrderLeaves(w: World)
    requires w.runner == StoredKey(ATTEMPT) && w.orders == [] && |w.added| == 1
    ensures Next(BOUNDS, w, RunnerStep) == w.(runner := Ready, orders := [SentOrder("key", 0)])
  {
  }

  /** A daily halt of day one, and the guard's poll of day two up to its reading of it. */
  function UntilRead(): seq<Event> {
    Then(GuardPoll(MORNING), GuardStep, 7) + Then(GuardPoll(LOSING), GuardStep, 7) + Then(GuardPoll(NEXT_DAY), GuardStep, 3)
  }

  lemma ReachesRead()
    ensures After(BOUNDS, START, UntilRead())
         == START.(files := Files(Some(HaltRecord(DailyHalt, 1, 60)), [], Some(60), Some(Baseline(2, 94.0, 1440, false))),
                   guard := ReadToClear(NEXT_DAY, Baseline(2, 94.0, 1440, false), Some(HaltRecord(DailyHalt, 1, 60))))
  {
    hide Next, After, Repeat, FilesAfterPoll;
    var (morning, losing, next) := (Then(GuardPoll(MORNING), GuardStep, 7), Then(GuardPoll(LOSING), GuardStep, 7),
                                    Then(GuardPoll(NEXT_DAY), GuardStep, 3));
    AfterThen(BOUNDS, START, GuardPoll(MORNING), GuardStep, 7);
    GuardAlone(BOUNDS, START, MORNING);
    PollDecisions(START.files);
    var polled := After(BOUNDS, START, morning);
    AfterConcat(BOUNDS, START, morning, losing);
    AfterThen(BOUNDS, polled, GuardPoll(LOSING), GuardStep, 7);
    GuardAlone(BOUNDS, polled, LOSING);
    LosingPollHalts(polled.files);
    var halted := After(BOUNDS, START, morning + losing);
    AfterConcat(BOUNDS, START, morning + losing, next);
    AfterThen(BOUNDS, halted, GuardPoll(NEXT_DAY), GuardStep, 3);
    GuardReads(BOUNDS, halted, NEXT_DAY);
  }

  /**
   Without that condition it is false: from the start, a manual halt written between the guard's reading
   of an expired daily halt and its unlink is deleted, and the rest of the poll writes none.
   */
  lemma ManualHaltCanBeLost(rec: HaltRecord)
    requires rec.kind == ManualHalt
    ensures var written := UntilRead() + [HumanHalt(rec)];
      && After(BOUNDS, START, written).files.halt == Some(rec)
      && After(BOUNDS, START, written + Then(GuardStep, GuardStep, 3)).files.halt.None?
      && After(BOUNDS, START, written + Then(GuardStep, GuardStep, 3)).guard == Waiting
  {
    hide After, Next, Repeat;
    ReachesRead();
    var read := After(BOUNDS, START, UntilRead());
    AfterConcat(BOUNDS, START, UntilRead(), [HumanHalt(rec)]);
    AfterOne(BOUNDS, read, HumanHalt(rec));
    HumanWrites(read, rec);
    var written := read.(files := read.files.(halt := Some(rec)));
    AfterConcat(BOUNDS, START, UntilRead() + [HumanHalt(rec)], Then(GuardStep, GuardStep, 3));
    AfterThen(BOUNDS, written, GuardStep, GuardStep, 3);
    GuardDeletes(written);
  }

  lemma HumanWrites(w: World, rec: HaltRecord)
    ensures Next(BOUNDS, w, HumanHalt(rec)) == w.(files := w.files.(halt := Some(rec)))
  {
  }

  lemma GuardDeletes(w: World)
    requires w.guard == ReadToClear(NEXT_DAY, Baseline(2, 94.0, 1440, false), Some(HaltRecord(DailyHalt, 1, 60)))
    ensures var r := Repeat(BOUNDS, Next(BOUNDS, w, GuardStep), GuardStep, 3);
      r.files.halt.None? && r.guard == Waiting
  {
    hide Repeat;
    var base := Baseline(2, 94.0, 1440, false);
    var w0 := Next(BOUNDS, w, GuardStep);
    OneMore(BOUNDS, w0, GuardStep, 0);
    OneMore(BOUNDS, w0, GuardStep, 1);
    OneMore(BOUNDS, w0, GuardStep, 2);
    assert w0 == w.(guard := PastClear(NEXT_DAY, base), files := w.files.(halt := None));
    assert BOUNDS.DailyLossLimit() == 5.0 && BOUNDS.OverallLossLimit() == 10.0;
    assert Repeat(BOUNDS, w0, GuardStep, 1) == w0.(guard := ReadToHalt(NEXT_DAY, base, None));
    assert Repeat(BOUNDS, w0, GuardStep, 2) == w0.(guard := PastHalt(NEXT_DAY, base));
  }

  // ------------------------------------------------------------ no order without a living guard

  /** The runner is inside a placement, past its heartbeat check. */
  predicate PastHeartbeat(r: RunnerAt) {
    r.SawHeartbeat? || r.SawNoKey? || r.Cleared? || r.ListedKeys? || r.StoredKey?
  }

  /** Event `m` was the heartbeat check of attempt `a`, and what it read was within `maxAge` of its clock. */
  ghost predicate HeartbeatRead(limits: Limits, events: seq<Event>, m: nat, a: Attempt)
    requires m < |events|
  {
    var w := After(limits, START, events[..m]);
    && events[m] == RunnerStep && w.runner == SawNoHalt(a)
    && w.files.heartbeat.Some? && -a.maxAge <= a.now - w.files.heartbeat.value <= a.maxAge
  }

  ghost predicate Checked(limits: Limits, events: seq<Event>, a: Attempt) {
    exists m :: 0 <= m < |events| && HeartbeatRead(limits, events, m, a)
  }

  ghost predicate KeyChecked(limits: Limits, events: seq<Event>, key: string) {
    exists a :: Checked(limits, events, a) && a.key == key
  }

  lemma CheckedExtends(limits: Limits, events: seq<Event>, a: Attempt)
    requires |events| > 0 && Checked(limits, events[..|events| - 1], a)
    ensures Checked(limits, events, a)
  {
    var n := |events| - 1;
    hide After;
    var m :| 0 <= m < n && HeartbeatRead(limits, events[..n], m, a);
    assert events[..n][..m] == events[..m] && events[..n][m] == events[m];
    assert HeartbeatRead(limits, events, m, a);
  }

  lemma AttemptStep(limits: Limits, w: World, e: Event)
    requires PastHeartbeat(Next(limits, w, e).runner)
    ensures var r := Next(limits, w, e).runner;
      || (PastHeartbeat(w.runner) && w.runner.a == r.a)
      || (e == RunnerStep && w.runner == SawNoHalt(r.a)
          && w.files.heartbeat.Some? && -r.a.maxAge <= r.a.now - w.files.heartbeat.value <= r.a.maxAge)
  {
    hide Admits, Decision;
  }

  lemma OrdersStep(limits: Limits, w: World, e: Event)
    ensures var r := Next(limits, w, e);
      || r.orders == w.orders
      || (w.runner.StoredKey? && |r.orders| == |w.orders| + 1 && w.orders <= r.orders
          && r.orders[|w.orders|].key == w.runner.a.key)
  {
    hide Admits, Decision;
  }

  /**
   In every run, a placement past its heartbeat check has read a heartbeat within `maxAge` of its own
   clock, and so has the placement behind every order that left.
   */
  lemma {:induction false} OrdersSawTheGuard(limits: Limits, events: seq<Event>)
    ensures var w := After(limits, START, events);
      && (PastHeartbeat(w.runner) ==> Checked(limits, events, w.runner.a))
      && (forall i :: 0 <= i < |w.orders| ==> KeyChecked(limits, events, w.orders[i].key))
  {
    if |events| > 0 {
      hide Next, Checked;
      var n := |events| - 1;
      var before := After(limits, START, events[..n]);
      var w := After(limits, START, events);
      assert w == Next(limits, before, events[n]);
      OrdersSawTheGuard(limits, events[..n]);
      if PastHeartbeat(w.runner) {
        AttemptStep(limits, before, events[n]);
        CarryCheck(limits, events, before, w.runner.a);
      }
      OrdersStep(limits, before, events[n]);
      forall i | 0 <= i < |w.orders| ensures KeyChecked(limits, events, w.orders[i].key) {
        var a: Attempt;
        if i < |before.orders| {
          assert KeyChecked(limits, events[..n], before.orders[i].key);
          a :| Checked(limits, events[..n], a) && a.key == w.orders[i].key;
        } else {
          a := before.runner.a;
        }
        CheckedExtends(limits, events, a);
      }
    }
  }

  /** The attempt was checked earlier, or just now. */
  lemma CarryCheck(limits: Limits, events: seq<Event>, before: World, a: Attempt)
    requires |events| > 0 && before == After(limits, START, events[..|events| - 1])
    requires Checked(limits, events[..|events| - 1], a)
      || (events[|events| - 1] == RunnerStep && before.runner == SawNoHalt(a)
          && before.files.heartbeat.Some? && -a.maxAge <= a.now - before.files.heartbeat.value <= a.maxAge)
    ensures Checked(limits, events, a)
  {
    var n := |events| - 1;
    if Checked(limits, events[..n], a) {
      CheckedExtends(limits, events, a);
    } else {
      assert HeartbeatRead(limits, events, n, a);
    }
  }

  /** Event `m` ended a guard poll that began at `at`. */
  ghost predicate PollEnded(limits: Limits, events: seq<Event>, m: nat, at: int)
    requires m < |events|
  {
    var g := After(limits, START, events[..m]).guard;
    events[m] == GuardStep && g.PastHalt? && g.p.now == at
  }

  /** A heartbeat in the file is the time of a poll the guard ran to its end. */
  lemma {:induction false} HeartbeatIsAPoll(limits: Limits, events: seq<Event>)
    ensures var h := After(limits, START, events).files.heartbeat;
      h.Some? ==> exists m :: 0 <= m < |events| && PollEnded(limits, events, m, h.value)
  {
    if |events| > 0 {
      var n := |events| - 1;
      var before := After(limits, START, events[..n]);
      var w := After(limits, START, events);
      HeartbeatIsAPoll(limits, events[..n]);
      HeartbeatStep(limits, before, events[n]);
      hide Next;
      if w.files.heartbeat.Some? {
        if w.files.heartbeat == before.files.heartbeat {
          var m :| 0 <= m < n && PollEnded(limits, events[..n], m, w.files.heartbeat.value);
          assert events[..n][..m] == events[..m] && events[..n][m] == events[m];
          assert PollEnded(limits, events, m, w.files.heartbeat.value);
        } else {
          assert PollEnded(limits, events, n, w.files.heartbeat.value);
        }
      }
    }
  }

  lemma HeartbeatStep(limits: Limits, w: World, e: Event)
    ensures var h := Next(limits, w, e).files.heartbeat;
      h == w.files.heartbeat || (e == GuardStep && w.guard.PastHalt? && h == Some(w.guard.p.now))
  {
    hide Admits, Decision, Fresh;
  }

  /**
   A runner comes up only with no halt and a heartbeat within `maxAge` of its clock, begins a placement only when
   it is ready and reads no halt, and a crash or an abandoned placement leaves it down or ready, files and orders
   untouched. A human writes or removes HALT and nothing else.
   */
  lemma RunnerLifecycle(limits: Limits, w: World, now: int, maxAge: int, a: Attempt)
    ensures Next(limits, w, RunnerStart(now, maxAge))
         == if w.runner.Down? && w.files.halt.None? && w.files.heartbeat.Some?
               && -maxAge <= now - w.files.heartbeat.value <= maxAge then w.(runner := Ready) else w
    ensures Next(limits, w, RunnerPlace(a)) == if w.runner.Ready? && w.files.halt.None? then w.(runner := SawNoHalt(a)) else w
    ensures Next(limits, w, RunnerCrash) == w.(runner := Down)
    ensures Next(limits, w, RunnerAbort) == w.(runner := if w.runner.Down? then Down else Ready)
    ensures Next(limits, w, GuardCrash) == w.(guard := Waiting)
    ensures forall rec :: Next(limits, w, HumanHalt(rec)) == w.(files := w.files.(halt := Some(rec)))
    ensures Next(limits, w, HumanLift) == w.(files := w.files.(halt := None))
  {
    hide Admits, Decision;
  }
}
