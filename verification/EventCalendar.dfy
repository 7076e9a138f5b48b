/**
 The blackout calendar: a binary search over blackout starts and a bounded scan back, against a plain
 scan of all events. Times are minutes.
 */
module EventCalendar {
  import opened Common

  datatype Impact = High | Medium | Low

  datatype ScheduledEvent = ScheduledEvent(name: string, time: real, impact: Impact)

  datatype BlackoutWindow = BlackoutWindow(
    highBefore: real, highAfter: real, mediumBefore: real, mediumAfter: real, lowBefore: real, lowAfter: real)
  {
    /** What construction demands. */
    predicate Valid() {
      && highBefore >= 0.0 && highAfter >= 0.0 && mediumBefore >= 0.0 && mediumAfter >= 0.0
      && lowBefore >= 0.0 && lowAfter >= 0.0
    }

    function Before(impact: Impact): real {
      match impact case High => highBefore case Medium => mediumBefore case Low => lowBefore
    }

    function After(impact: Impact): real {
      match impact case High => highAfter case Medium => mediumAfter case Low => lowAfter
    }

    function Start(e: ScheduledEvent): real { e.time - Before(e.impact) }

    function End(e: ScheduledEvent): real { e.time + After(e.impact) }

    predicate Covers(e: ScheduledEvent, now: real) { Start(e) <= now <= End(e) }
  }

  const ONE_DAY: real := 1440.0

  // ------------------------------------------------------------ binary search

  /** The insertion point the bisection arrives at in `keys[lo..hi]`, whether or not they are in order. */
  function Bisect(keys: seq<real>, x: real, lo: nat, hi: nat): (r: nat)
    requires lo <= hi <= |keys|
    ensures lo <= r <= hi
    decreases hi - lo
  {
    if lo == hi then lo
    else
      var mid := (lo + hi) / 2;
      if keys[mid] < x then Bisect(keys, x, mid + 1, hi) else Bisect(keys, x, lo, mid)
  }

  function BisectLeft(keys: seq<real>, x: real): (r: nat)
    ensures r <= |keys|
  {
    Bisect(keys, x, 0, |keys|)
  }

  method FindLeft(keys: seq<real>, x: real) returns (r: nat)
    ensures r == BisectLeft(keys, x)
  {
    var lo, hi := 0, |keys|;
    while lo < hi
      invariant 0 <= lo <= hi <= |keys|
      invariant Bisect(keys, x, lo, hi) == BisectLeft(keys, x)
      decreases hi - lo
    {
      var mid := (lo + hi) / 2;
      if keys[mid] < x {
        lo := mid + 1;
      } else {
        hi := mid;
      }
    }
    r := lo;
  }

  ghost predicate Ascending(keys: seq<real>) {
    forall i, j :: 0 <= i < j < |keys| ==> keys[i] <= keys[j]
  }

  /** In ascending keys the bisection splits them: strictly smaller before, at least `x` from there on. */
  lemma {:induction false} BisectSplits(keys: seq<real>, x: real, lo: nat, hi: nat)
    requires lo <= hi <= |keys| && Ascending(keys)
    requires forall k :: 0 <= k < lo ==> keys[k] < x
    requires forall k :: hi <= k < |keys| ==> keys[k] >= x
    ensures var r := Bisect(keys, x, lo, hi);
      (forall k :: 0 <= k < r ==> keys[k] < x) && (forall k :: r <= k < |keys| ==> keys[k] >= x)
    decreases hi - lo
  {
    if lo < hi {
      var mid := (lo + hi) / 2;
      if keys[mid] < x {
        BisectSplits(keys, x, mid + 1, hi);
      } else {
        BisectSplits(keys, x, lo, mid);
      }
    }
  }

  // ------------------------------------------------------------ the calendar as a value

  function Times(events: seq<ScheduledEvent>): (r: seq<real>)
    ensures |r| == |events| && forall i :: 0 <= i < |r| ==> r[i] == events[i].time
  {
    seq(|events|, i requires 0 <= i < |events| => events[i].time)
  }

  function Starts(w: BlackoutWindow, events: seq<ScheduledEvent>): (r: seq<real>)
    ensures |r| == |events| && forall i :: 0 <= i < |r| ==> r[i] == w.Start(events[i])
  {
    seq(|events|, i requires 0 <= i < |events| => w.Start(events[i]))
  }

  ghost predicate ByTime(events: seq<ScheduledEvent>) {
    Ascending(Times(events))
  }

  function InsertAfterEqual(e: ScheduledEvent, events: seq<ScheduledEvent>): seq<ScheduledEvent> {
    if |events| == 0 then [e]
    else if events[|events| - 1].time <= e.time then events + [e]
    else InsertAfterEqual(e, events[..|events| - 1]) + [events[|events| - 1]]
  }

  /** The stable sort of the constructor. */
  function SortByTime(events: seq<ScheduledEvent>): seq<ScheduledEvent> {
    if |events| == 0 then [] else InsertAfterEqual(events[|events| - 1], SortByTime(events[..|events| - 1]))
  }

  /** Scan back from index `i`: the first event covering `now`, or none before one that ended a day ago. */
  function ScanBack(w: BlackoutWindow, events: seq<ScheduledEvent>, now: real, i: int): Option<ScheduledEvent>
    requires i < |events|
    decreases if i < 0 then 0 else i + 1
  {
    if i < 0 then None
    else if w.Covers(events[i], now) then Some(events[i])
    else if w.End(events[i]) < now - ONE_DAY then None
    else ScanBack(w, events, now, i - 1)
  }

  /** Where the scan begins. */
  function ScanFrom(w: BlackoutWindow, events: seq<ScheduledEvent>, now: real): (i: int)
    ensures i < |events| && -1 <= i
  {
    MinI(BisectLeft(Starts(w, events), now), |events| - 1)
  }

  function Active(w: BlackoutWindow, events: seq<ScheduledEvent>, now: real): Option<ScheduledEvent> {
    ScanBack(w, events, now, ScanFrom(w, events, now))
  }

  function KeepFrom(events: seq<ScheduledEvent>, before: real): seq<ScheduledEvent> {
    if |events| == 0 then []
    else KeepFrom(events[..|events| - 1], before)
         + if events[|events| - 1].time >= before then [events[|events| - 1]] else []
  }

  class Calendar {
    const window: BlackoutWindow
    var events: seq<ScheduledEvent>
    var starts: seq<real>

    ghost predicate Valid()
      reads this
    {
      window.Valid() && ByTime(events) && starts == Starts(window, events)
    }

    constructor (unsorted: seq<ScheduledEvent>, window: BlackoutWindow)
      requires window.Valid()
      ensures Valid() && this.window == window && events == SortByTime(unsorted)
      ensures multiset(events) == multiset(unsorted)
    {
      SortSorts(unsorted);
      this.window := window;
      events := SortByTime(unsorted);
      starts := Starts(window, SortByTime(unsorted));
    }

    /** Insert before the first event at or after the new one's time. */
    method Add(e: ScheduledEvent)
      requires Valid()
      modifies this
      ensures Valid()
      ensures var i := BisectLeft(Times(old(events)), e.time); events == old(events)[..i] + [e] + old(events)[i..]
      ensures multiset(events) == multiset(old(events)) + multiset{e}
    {
      var i := FindLeft(Times(events), e.time);
      InsertKeepsOrder(events, e, i);
      assert events == events[..i] + events[i..];
      events := events[..i] + [e] + events[i..];
      starts := Starts(window, events);
    }

    method ActiveEvent(now: real) returns (found: Option<ScheduledEvent>)
      requires Valid()
      ensures found == Active(window, events, now)
    {
      if |events| == 0 {
        return None;
      }
      var idx := FindLeft(starts, now);
      var i: int := idx;
      if i >= |events| {
        i := |events| - 1;
      }
      while i >= 0
        invariant -1 <= i < |events|
        invariant ScanBack(window, events, now, i) == Active(window, events, now)
      {
        var e := events[i];
        if window.Start(e) <= now <= window.End(e) {
          return Some(e);
        }
        if window.End(e) < now - ONE_DAY {
          return None;
        }
        i := i - 1;
      }
      found := None;
    }

    method NextEvent(now: real) returns (next: Option<ScheduledEvent>)
      requires Valid()
      ensures next.Some? ==> next.value in events && next.value.time >= now
                             && forall e :: e in events && e.time >= now ==> next.value.time <= e.time
      ensures next.None? ==> forall e :: e in events ==> e.time < now
    {
      hide Starts, Bisect;
      var i := FindLeft(Times(events), now);
      BisectSplits(Times(events), now, 0, |events|);
      next := if i < |events| then Some(events[i]) else None;
      if i < |events| {
        forall e | e in events && e.time >= now ensures events[i].time <= e.time {
          var k :| 0 <= k < |events| && events[k] == e;
          assert Times(events)[k] == e.time && Times(events)[i] == events[i].time;
        }
      } else {
        forall e | e in events ensures e.time < now {
          var k :| 0 <= k < |events| && events[k] == e;
          assert Times(events)[k] == e.time;
        }
      }
    }

    method Prune(before: real) returns (removed: nat)
      requires Valid()
      modifies this
      ensures Valid() && events == KeepFrom(old(events), before)
      ensures removed == |old(events)| - |events|
    {
      var keep := [];
      for i := 0 to |events|
        invariant events == old(events) && keep == KeepFrom(events[..i], before) && |keep| <= i
      {
        assert events[..i + 1][..i] == events[..i];
        if events[i].time >= before {
          keep := keep + [events[i]];
        }
      }
      assert events[..|events|] == events;
      KeepKeepsOrder(events, before);
      removed := |events| - |keep|;
      events := keep;
      starts := Starts(window, events);
    }
  }

  // ------------------------------------------------------------ order is kept

  lemma ByTimeAppend(events: seq<ScheduledEvent>, e: ScheduledEvent)
    requires ByTime(events) && (|events| == 0 || events[|events| - 1].time <= e.time)
    ensures ByTime(events + [e])
  {
    var r := Times(events + [e]);
    forall i, j | 0 <= i < j < |r| ensures r[i] <= r[j] {
      assert r[i] == Times(events)[i];
      if j < |events| { assert r[j] == Times(events)[j]; } else { assert Times(events)[i] <= Times(events)[|events| - 1]; }
    }
  }

  lemma ByTimePrefix(events: seq<ScheduledEvent>, n: nat)
    requires ByTime(events) && n <= |events|
    ensures ByTime(events[..n])
  {
    forall i, j | 0 <= i < j < n ensures Times(events[..n])[i] <= Times(events[..n])[j] {
      assert Times(events)[i] <= Times(events)[j];
    }
  }

  lemma {:induction false} InsertSorted(e: ScheduledEvent, events: seq<ScheduledEvent>)
    requires ByTime(events)
    ensures ByTime(InsertAfterEqual(e, events))
    ensures multiset(InsertAfterEqual(e, events)) == multiset(events) + multiset{e}
    ensures |InsertAfterEqual(e, events)| == |events| + 1
    ensures var last := InsertAfterEqual(e, events)[|events|];
      last == e || (|events| > 0 && last == events[|events| - 1] && e.time <= last.time)
  {
    if |events| == 0 {
    } else if events[|events| - 1].time <= e.time {
      ByTimeAppend(events, e);
    } else {
      var n := |events| - 1;
      ByTimePrefix(events, n);
      InsertSorted(e, events[..n]);
      if n > 0 { assert Times(events)[n - 1] <= Times(events)[n]; }
      hide ByTime, Times;
      ByTimeAppend(InsertAfterEqual(e, events[..n]), events[n]);
      assert events == events[..n] + [events[n]];
    }
  }

  lemma {:induction false} SortSorts(events: seq<ScheduledEvent>)
    ensures ByTime(SortByTime(events)) && multiset(SortByTime(events)) == multiset(events)
  {
    if |events| > 0 {
      var n := |events| - 1;
      hide InsertAfterEqual, ByTime;
      SortSorts(events[..n]);
      InsertSorted(events[n], SortByTime(events[..n]));
      SplitCounts(events, n);
    }
  }

  lemma SplitCounts(events: seq<ScheduledEvent>, n: nat)
    requires n + 1 == |events|
    ensures multiset(events) == multiset(events[..n]) + multiset{events[n]}
  {
    assert events == events[..n] + [events[n]];
  }

  /** Inserting at the bisection point keeps the events in time order. */
  lemma InsertKeepsOrder(events: seq<ScheduledEvent>, e: ScheduledEvent, i: nat)
    requires ByTime(events) && i == BisectLeft(Times(events), e.time)
    ensures ByTime(events[..i] + [e] + events[i..])
  {
    BisectSplits(Times(events), e.time, 0, |events|);
    var r := events[..i] + [e] + events[i..];
    forall a, b | 0 <= a < b < |r| ensures Times(r)[a] <= Times(r)[b] {
      assert a < i ==> r[a] == events[a] && Times(events)[a] == events[a].time;
      assert a > i ==> r[a] == events[a - 1] && Times(events)[a - 1] == events[a - 1].time;
      assert b < i ==> r[b] == events[b] && Times(events)[b] == events[b].time;
      assert b > i ==> r[b] == events[b - 1] && Times(events)[b - 1] == events[b - 1].time;
    }
  }

  lemma {:induction false} KeepKeepsOrder(events: seq<ScheduledEvent>, before: real)
    requires ByTime(events)
    ensures ByTime(KeepFrom(events, before))
    ensures forall e :: e in KeepFrom(events, before) <==> e in events && e.time >= before
  {
    if |events| > 0 {
      var n := |events| - 1;
      ByTimePrefix(events, n);
      KeepKeepsOrder(events[..n], before);
      var kept := KeepFrom(events[..n], before);
      assert events == events[..n] + [events[n]];
      if events[n].time >= before {
        if |kept| > 0 {
          assert kept[|kept| - 1] in events[..n];
          var k :| 0 <= k < n && events[..n][k] == kept[|kept| - 1];
          assert Times(events)[k] <= Times(events)[n];
        }
        ByTimeAppend(kept, events[n]);
      }
    }
  }

  // ------------------------------------------------------------ against the plain scan

  /** Some event's blackout contains `now`: the plain scan of the whole calendar. */
  ghost predicate SomeCovers(w: BlackoutWindow, events: seq<ScheduledEvent>, now: real) {
    exists e :: e in events && w.Covers(e, now)
  }

  /** An event past its end by more than a day, between `k` and the start of the scan, ends the scan. */
  ghost predicate CutOff(w: BlackoutWindow, events: seq<ScheduledEvent>, now: real, k: int, from: int) {
    exists j :: k < j <= from && 0 <= j < |events| && w.End(events[j]) < now - ONE_DAY
  }

  ghost predicate Reached(w: BlackoutWindow, events: seq<ScheduledEvent>, now: real, k: int, from: int) {
    0 <= k <= from && k < |events| && w.Covers(events[k], now) && !CutOff(w, events, now, k, from)
  }

  lemma {:induction false} ScanExactly(w: BlackoutWindow, events: seq<ScheduledEvent>, now: real, i: int)
    requires i < |events| && w.Valid()
    ensures ScanBack(w, events, now, i).Some? <==> exists k :: Reached(w, events, now, k, i)
    ensures ScanBack(w, events, now, i).Some? ==>
      ScanBack(w, events, now, i).value in events && w.Covers(ScanBack(w, events, now, i).value, now)
    decreases if i < 0 then 0 else i + 1
  {
    if i >= 0 {
      if w.Covers(events[i], now) {
        assert Reached(w, events, now, i, i);
      } else {
        ScanExactly(w, events, now, i - 1);
        if w.End(events[i]) < now - ONE_DAY {
          forall k ensures !Reached(w, events, now, k, i) {
            if 0 <= k < i { assert CutOff(w, events, now, k, i); }
          }
        } else {
          if k :| Reached(w, events, now, k, i) {
            CutOffGrows(w, events, now, k, i - 1, i);
            assert Reached(w, events, now, k, i - 1);
          }
          var below := i - 1;
          if k :| Reached(w, events, now, k, below) {
            NotCutHere(w, events, now, k, i);
            assert Reached(w, events, now, k, i);
          }
        }
      }
    }
  }

  lemma CutOffGrows(w: BlackoutWindow, events: seq<ScheduledEvent>, now: real, k: int, from: int, further: int)
    requires from <= further
    ensures CutOff(w, events, now, k, from) ==> CutOff(w, events, now, k, further)
  {
  }

  lemma NotCutHere(w: BlackoutWindow, events: seq<ScheduledEvent>, now: real, k: int, i: int)
    requires 0 <= i < |events| && w.End(events[i]) >= now - ONE_DAY
    ensures CutOff(w, events, now, k, i) ==> CutOff(w, events, now, k, i - 1)
  {
  }

  /** Exactly what one query finds, in order or not: an event the scan reaches; and what it finds does cover `now`. */
  lemma ActiveExactly(w: BlackoutWindow, events: seq<ScheduledEvent>, now: real)
    requires w.Valid()
    ensures Active(w, events, now).Some? <==> exists k :: Reached(w, events, now, k, ScanFrom(w, events, now))
    ensures Active(w, events, now).Some? ==> Active(w, events, now).value in events && w.Covers(Active(w, events, now).value, now)
  {
    ScanExactly(w, events, now, ScanFrom(w, events, now));
  }

  /** No event's blackout outlasts a later one's by more than a day. */
  ghost predicate SpansClose(w: BlackoutWindow, events: seq<ScheduledEvent>) {
    forall i, j :: 0 <= i < j < |events| ==> w.After(events[i].impact) - w.After(events[j].impact) <= ONE_DAY
  }

  /**
   With blackout starts in order and after-spans within a day of each other, the indexed query finds an
   event exactly when the plain scan does.
   */
  lemma ActiveAgreesWithScan(w: BlackoutWindow, events: seq<ScheduledEvent>, now: real)
    requires w.Valid() && ByTime(events) && Ascending(Starts(w, events)) && SpansClose(w, events)
    ensures Active(w, events, now).Some? <==> SomeCovers(w, events, now)
  {
    hide Active, SpansClose, Ascending;
    ActiveExactly(w, events, now);
    if SomeCovers(w, events, now) {
      var e :| e in events && w.Covers(e, now);
      var i :| 0 <= i < |events| && events[i] == e;
      var k := InScanRange(w, events, now, i);
      NeverCutOff(w, events, now, k, ScanFrom(w, events, now));
      assert Reached(w, events, now, k, ScanFrom(w, events, now));
    }
  }

  /** If an event covers `now`, one inside the scan's range does. */
  lemma InScanRange(w: BlackoutWindow, events: seq<ScheduledEvent>, now: real, i: nat) returns (k: nat)
    requires w.Valid() && Ascending(Starts(w, events)) && i < |events| && w.Covers(events[i], now)
    ensures k < |events| && k <= ScanFrom(w, events, now) && w.Covers(events[k], now)
  {
    var starts := Starts(w, events);
    BisectSplits(starts, now, 0, |events|);
    var idx := BisectLeft(starts, now);
    if i <= ScanFrom(w, events, now) {
      k := i;
    } else {
      k := idx;
      assert starts[idx] <= starts[i];
    }
  }

  lemma NeverCutOff(w: BlackoutWindow, events: seq<ScheduledEvent>, now: real, k: nat, from: int)
    requires ByTime(events) && SpansClose(w, events) && k < |events| && w.Covers(events[k], now)
    ensures !CutOff(w, events, now, k, from)
  {
    forall j | k < j <= from && 0 <= j < |events| ensures w.End(events[j]) >= now - ONE_DAY {
      assert Times(events)[k] <= Times(events)[j];
    }
  }

  /** What the widths must be like: one before-span for all impacts, and after-spans within a day of each other. */
  predicate WidthsSafe(w: BlackoutWindow) {
    && w.highBefore == w.mediumBefore == w.lowBefore
    && forall a: Impact, b: Impact :: w.After(a) - w.After(b) <= ONE_DAY
  }

  /** Such widths keep the starts in order, so the index agrees with the plain scan. */
  lemma SafeWidthsAgree(w: BlackoutWindow, events: seq<ScheduledEvent>, now: real)
    requires w.Valid() && ByTime(events) && WidthsSafe(w)
    ensures Active(w, events, now).Some? <==> SomeCovers(w, events, now)
  {
    hide Active;
    forall i, j | 0 <= i < j < |events| ensures Starts(w, events)[i] <= Starts(w, events)[j] {
      assert Times(events)[i] <= Times(events)[j];
    }
    ActiveAgreesWithScan(w, events, now);
  }

  /** On every calendar and at every time the query finds an event exactly when one is in its blackout. */
  ghost predicate FindsEveryBlackout(w: BlackoutWindow) {
    forall events, now :: ByTime(events) ==> (Active(w, events, now).Some? <==> SomeCovers(w, events, now))
  }

  /** A wider before-span: two events at one time, the wider one second, and an old one to end the bisection. */
  lemma WiderBeforeIsMissed(w: BlackoutWindow, x: Impact, y: Impact)
    requires w.Valid() && w.Before(x) > w.Before(y)
    ensures !FindsEveryBlackout(w)
  {
    var now := 0.0 - w.Before(x);
    var events := [ScheduledEvent("old", now - w.After(x) - 1.0, x), ScheduledEvent("narrow", 0.0, y), ScheduledEvent("wide", 0.0, x)];
    var starts := Starts(w, events);
    assert starts[0] < now && starts[1] > now && starts[2] == now;
    assert Bisect(starts, now, 1, 1) == 1;
    assert Bisect(starts, now, 0, 1) == 1;
    assert BisectLeft(starts, now) == 1;
    assert ScanBack(w, events, now, -1).None?;
    assert ScanBack(w, events, now, 0).None?;
    assert Active(w, events, now).None?;
    assert events[2] in events && w.Covers(events[2], now);
    assert ByTime(events);
  }

  /** An after-span longer by more than a day: the shorter event of the same time ends the scan. */
  lemma LongerAfterIsMissed(w: BlackoutWindow, x: Impact, y: Impact)
    requires w.Valid() && w.After(x) - w.After(y) > ONE_DAY
    ensures !FindsEveryBlackout(w)
  {
    var now := w.After(x);
    var events := [ScheduledEvent("long", 0.0, x), ScheduledEvent("short", 0.0, y)];
    var starts := Starts(w, events);
    assert starts[0] < now && starts[1] < now;
    assert Bisect(starts, now, 2, 2) == 2;
    assert BisectLeft(starts, now) == 2;
    assert ScanBack(w, events, now, 1).None?;
    assert Active(w, events, now).None?;
    assert events[0] in events && w.Covers(events[0], now);
    assert ByTime(events);
  }

  /**
   Exactly which widths make the index sound: every running blackout of every calendar is found if and
   only if all impacts share one before-span and no after-span exceeds another by more than a day.
   */
  lemma EveryBlackoutFoundExactly(w: BlackoutWindow)
    requires w.Valid()
    ensures FindsEveryBlackout(w) <==> WidthsSafe(w)
  {
    hide Active, SomeCovers, ByTime;
    if WidthsSafe(w) {
      forall events, now | ByTime(events) ensures Active(w, events, now).Some? <==> SomeCovers(w, events, now) {
        SafeWidthsAgree(w, events, now);
      }
    } else if a, b: Impact :| w.After(a) - w.After(b) > ONE_DAY {
      LongerAfterIsMissed(w, a, b);
    } else {
      BeforesDiffer(w);
      var x, y: Impact :| w.Before(x) > w.Before(y);
      WiderBeforeIsMissed(w, x, y);
    }
  }

  lemma BeforesDiffer(w: BlackoutWindow)
    requires !(w.highBefore == w.mediumBefore == w.lowBefore)
    ensures exists x: Impact, y: Impact :: w.Before(x) > w.Before(y)
  {
    assert w.Before(High) == w.highBefore && w.Before(Medium) == w.mediumBefore && w.Before(Low) == w.lowBefore;
  }

  /**
   Mixed impacts break the order the index relies on. Nine o'clock high, six past ten medium, ten past
   ten high, with the application's widths of fifteen and five minutes: at two minutes to ten the last
   blackout has begun and the query finds nothing.
   */
  lemma MixedImpactsMissABlackout()
    ensures var w := BlackoutWindow(15.0, 15.0, 5.0, 5.0, 0.0, 0.0);
      var events := [ScheduledEvent("a", 540.0, High), ScheduledEvent("b", 606.0, Medium), ScheduledEvent("c", 610.0, High)];
      w.Valid() && ByTime(events) && SomeCovers(w, events, 598.0) && Active(w, events, 598.0).None?
  {
    var w := BlackoutWindow(15.0, 15.0, 5.0, 5.0, 0.0, 0.0);
    var events := [ScheduledEvent("a", 540.0, High), ScheduledEvent("b", 606.0, Medium), ScheduledEvent("c", 610.0, High)];
    var starts := Starts(w, events);
    assert starts[0] == 525.0 && starts[1] == 601.0 && starts[2] == 595.0;
    assert Bisect(starts, 598.0, 1, 1) == 1;
    assert Bisect(starts, 598.0, 0, 1) == 1;
    assert BisectLeft(starts, 598.0) == 1;
    assert events[2] in events && w.Covers(events[2], 598.0);
    assert ScanBack(w, events, 598.0, -1).None?;
    assert ScanBack(w, events, 598.0, 0).None?;
  }

  /** A blackout runs from its impact's own span before the event to its own span after it, both ends included. */
  lemma CoversExactly(w: BlackoutWindow, e: ScheduledEvent, now: real)
    ensures w.Covers(e, now) <==>
      match e.impact
      case High => e.time - w.highBefore <= now <= e.time + w.highAfter
      case Medium => e.time - w.mediumBefore <= now <= e.time + w.mediumAfter
      case Low => e.time - w.lowBefore <= now <= e.time + w.lowAfter
  {
  }
}
