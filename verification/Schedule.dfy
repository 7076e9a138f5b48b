/**
 The merged tick schedule of one batch: the per-position segments are concatenated in open order
 and sorted by time with a stable sort, and the loop walks the result, skipping closed positions.
 The lemmas say why the first event of a still-open position is exactly the next tick of the book.
 */
module Schedule {
  import opened TickSpec

  /** Tick `i`, stamped `ts`, of the `k`-th position of the batch. */
  datatype Event = Event(ts: int, k: nat, i: nat)

  /** The order in which one-at-a-time processing would serve two events. */
  predicate Before(a: Event, b: Event) {
    a.ts < b.ts || (a.ts == b.ts && (a.k < b.k || (a.k == b.k && a.i < b.i)))
  }

  ghost predicate Ordered(es: seq<Event>) {
    forall m, n :: 0 <= m < n < |es| ==> Before(es[m], es[n])
  }

  /** Input order of the stable sort: batch position first, then tick index. */
  ghost predicate InBatchOrder(es: seq<Event>) {
    forall m, n :: 0 <= m < n < |es| ==> es[m].k < es[n].k || (es[m].k == es[n].k && es[m].i < es[n].i)
  }

  /** Place `e` ahead of every event that is not earlier. */
  function Insert(e: Event, es: seq<Event>): seq<Event> {
    if |es| == 0 then [e]
    else if e.ts <= es[0].ts then [e] + es
    else [es[0]] + Insert(e, es[1..])
  }

  /** Stable sort by time stamp alone. */
  function StableSort(es: seq<Event>): seq<Event> {
    if |es| == 0 then [] else Insert(es[0], StableSort(es[1..]))
  }

  lemma {:induction false} InsertMembers(e: Event, es: seq<Event>)
    ensures forall x :: x in Insert(e, es) <==> x == e || x in es
  {
    if |es| > 0 && e.ts > es[0].ts {
      InsertMembers(e, es[1..]);
      assert es == [es[0]] + es[1..];
    }
  }

  lemma {:induction false} InsertOrdered(e: Event, es: seq<Event>)
    requires Ordered(es)
    requires forall x :: x in es ==> e.k < x.k || (e.k == x.k && e.i < x.i)
    ensures Ordered(Insert(e, es))
  {
    if |es| == 0 {
    } else if e.ts <= es[0].ts {
      forall x | x in es ensures Before(e, x) {
        var n :| 0 <= n < |es| && es[n] == x;
        assert n == 0 || Before(es[0], es[n]);
      }
      var r := [e] + es;
      forall m, n | 0 <= m < n < |r| ensures Before(r[m], r[n]) {
        assert r[n] == es[n - 1] && r[n] in es;
        if m > 0 { assert Before(es[m - 1], es[n - 1]); }
      }
    } else {
      var rest := Insert(e, es[1..]);
      assert forall x :: x in es[1..] ==> x in es;
      InsertOrdered(e, es[1..]);
      InsertMembers(e, es[1..]);
      forall x | x in rest ensures Before(es[0], x) {
        if x != e {
          var n :| 0 <= n < |es[1..]| && es[1..][n] == x;
          assert Before(es[0], es[n + 1]);
        }
      }
      var r := [es[0]] + rest;
      forall m, n | 0 <= m < n < |r| ensures Before(r[m], r[n]) {
        assert r[n] == rest[n - 1] && r[n] in rest;
        if m > 0 { assert Before(rest[m - 1], rest[n - 1]); }
      }
    }
  }

  /** Sorting a batch by time, stably, puts it in serving order. */
  lemma {:induction false} StableSortServes(es: seq<Event>)
    requires InBatchOrder(es)
    ensures Ordered(StableSort(es))
    ensures forall x :: x in StableSort(es) <==> x in es
  {
    if |es| > 0 {
      var rest := es[1..];
      StableSortServes(rest);
      assert es == [es[0]] + rest;
      forall x | x in StableSort(rest) ensures es[0].k < x.k || (es[0].k == x.k && es[0].i < x.i) {
        var n :| 0 <= n < |rest| && rest[n] == x;
        assert x == es[n + 1];
      }
      InsertOrdered(es[0], StableSort(rest));
      InsertMembers(es[0], StableSort(rest));
    }
  }

  // ------------------------------------------------------------ segments

  /** The unprocessed ticks before `until` of batch position `k`. */
  function Segment(p: Pos, k: nat, until: int): (r: seq<Event>)
    requires p.Valid()
    ensures forall m :: 0 <= m < |r| ==> r[m].k == k && r[m].i == p.idx + m
  {
    var hi := LowerBound(p.ticks.ts, until);
    if hi > p.idx then seq(hi - p.idx, m requires 0 <= m < hi - p.idx => Event(p.ticks.ts[p.idx + m], k, p.idx + m))
    else []
  }

  /** `e` is an unprocessed tick before `until` of batch position `k`. */
  ghost predicate DueTick(e: Event, p: Pos, k: nat, until: int) {
    e.k == k && p.idx <= e.i < |p.ticks.ts| && e.ts == p.ticks.ts[e.i] && e.ts < until
  }

  lemma SegmentMembers(p: Pos, k: nat, until: int)
    requires p.Valid()
    ensures forall e :: e in Segment(p, k, until) <==> DueTick(e, p, k, until)
  {
    var r := Segment(p, k, until);
    forall e | DueTick(e, p, k, until) ensures e in r {
      assert r[e.i - p.idx] == e;
    }
    forall e | e in r ensures DueTick(e, p, k, until) {
      var m :| 0 <= m < |r| && r[m] == e;
    }
  }

  ghost predicate Increasing(open: seq<Pos>) {
    forall i, j :: 0 <= i < j < |open| ==> open[i].id < open[j].id
  }

  /** Every event names a real tick before `until` of its batch position. */
  ghost predicate Names(es: seq<Event>, batch: seq<Pos>, until: int) {
    forall e :: e in es ==>
      e.k < |batch| && e.i < |batch[e.k].ticks.ts| && e.ts == batch[e.k].ticks.ts[e.i] && e.ts < until
  }

  /** The `k`-th batch position is the open position `p`, possibly some ticks earlier. */
  predicate Same(batch: seq<Pos>, k: nat, p: Pos) {
    k < |batch| && batch[k].id == p.id && batch[k].ticks == p.ticks
  }

  /** All unprocessed ticks before `until` of an open position are among the events, and only those. */
  ghost predicate CoversPos(es: seq<Event>, k: nat, p: Pos, until: int) {
    && (forall i :: p.idx <= i < |p.ticks.ts| && p.ticks.ts[i] < until ==> Event(p.ticks.ts[i], k, i) in es)
    && (forall e :: e in es && e.k == k ==> p.idx <= e.i)
  }

  ghost predicate Tracks(es: seq<Event>, batch: seq<Pos>, k: nat, p: Pos, until: int) {
    Same(batch, k, p) && CoversPos(es, k, p, until)
  }

  ghost predicate Covered(es: seq<Event>, batch: seq<Pos>, p: Pos, until: int) {
    exists k :: Tracks(es, batch, k, p, until)
  }

  ghost predicate Covers(es: seq<Event>, batch: seq<Pos>, open: seq<Pos>, until: int) {
    forall j :: 0 <= j < |open| ==> Covered(es, batch, open[j], until)
  }

  /** What the walk over the schedule keeps between events. */
  ghost predicate Walk(es: seq<Event>, batch: seq<Pos>, open: seq<Pos>, until: int) {
    && Ordered(es) && Names(es, batch, until)
    && Increasing(batch) && Increasing(open)
    && (forall k :: 0 <= k < |batch| ==> batch[k].ticks.Valid())
    && Covers(es, batch, open, until)
  }

  lemma IdsDetermine(batch: seq<Pos>, k: nat, k': nat)
    requires Increasing(batch) && k < |batch| && k' < |batch| && batch[k].id == batch[k'].id
    ensures k == k'
  {
  }

  /** The first event of an open position is that position's next tick, and the book's. */
  lemma HeadIsNext(es: seq<Event>, batch: seq<Pos>, open: seq<Pos>, until: int, j: nat)
    requires |es| > 0 && Walk(es, batch, open, until)
    requires es[0].k < |batch| && j < |open| && open[j].id == batch[es[0].k].id
    ensures open[j].idx == es[0].i && open[j].ticks == batch[es[0].k].ticks
    ensures IsNext(open, until, j)
  {
    var e := es[0];
    var k :| Tracks(es, batch, k, open[j], until);
    IdsDetermine(batch, k, e.k);
    assert e in es;
    var p := open[j];
    assert p.ticks.ts[p.idx] <= p.ticks.ts[e.i];
    var own := Event(p.ticks.ts[p.idx], k, p.idx);
    assert own in es;
    HeadPrecedes(es, own);
    forall m | 0 <= m < |open| && open[m].HasTick(until)
      ensures p.ticks.ts[p.idx] < open[m].ticks.ts[open[m].idx]
           || (p.ticks.ts[p.idx] == open[m].ticks.ts[open[m].idx] && j <= m)
    {
      var q := open[m];
      var k' :| Tracks(es, batch, k', q, until);
      var other := Event(q.ticks.ts[q.idx], k', q.idx);
      assert other in es;
      HeadPrecedes(es, other);
      if m < j { assert open[m].id < open[j].id; }
    }
  }

  lemma HeadPrecedes(es: seq<Event>, e: Event)
    requires |es| > 0 && Ordered(es) && e in es
    ensures e == es[0] || Before(es[0], e)
  {
    var n :| 0 <= n < |es| && es[n] == e;
  }

  lemma TailFacts(es: seq<Event>)
    requires |es| > 0 && Ordered(es)
    ensures Ordered(es[1..])
    ensures forall x :: x in es ==> x == es[0] || x in es[1..]
    ensures forall x :: x in es[1..] ==> x in es && Before(es[0], x)
  {
    forall x | x in es ensures x == es[0] || x in es[1..] {
      var n :| 0 <= n < |es| && es[n] == x;
      if n > 0 { assert es[1..][n - 1] == x; }
    }
    forall x | x in es[1..] ensures x in es && Before(es[0], x) {
      var n :| 0 <= n < |es[1..]| && es[1..][n] == x;
      assert es[n + 1] == x;
    }
  }

  /** An event of a position that has closed can be skipped. */
  lemma SkipKeepsWalk(es: seq<Event>, batch: seq<Pos>, open: seq<Pos>, until: int)
    requires |es| > 0 && Walk(es, batch, open, until)
    requires es[0].k < |batch|
    requires forall j :: 0 <= j < |open| ==> open[j].id != batch[es[0].k].id
    ensures Walk(es[1..], batch, open, until)
  {
    TailFacts(es);
    forall j | 0 <= j < |open| ensures Covered(es[1..], batch, open[j], until) {
      var k :| Tracks(es, batch, k, open[j], until);
      assert Tracks(es[1..], batch, k, open[j], until);
    }
  }

  /** Serving the head leaves the walk intact, whether its position stays, closes, or everything closes. */
  lemma ServeKeepsWalk(es: seq<Event>, batch: seq<Pos>, open: seq<Pos>, after: seq<Pos>, until: int, j: nat)
    requires |es| > 0 && Walk(es, batch, open, until)
    requires es[0].k < |batch| && j < |open| && open[j].id == batch[es[0].k].id
    requires
      || after == []
      || after == Without(open, j)
      || (|after| == |open| && Succeeds(open[j], after[j]) && after == open[j := after[j]])
    ensures Walk(es[1..], batch, after, until)
  {
    HeadIsNext(es, batch, open, until, j);
    TailFacts(es);
    assert es[0] in es;
    forall m | 0 <= m < |after| ensures Covered(es[1..], batch, after[m], until) {
      var m' := if after == Without(open, j) && m >= j then m + 1 else m;
      var k :| Tracks(es, batch, k, open[m'], until);
      if m' == j {
        IdsDetermine(batch, k, es[0].k);
        assert |after| == |open| && after[j].ticks == open[j].ticks && after[j].id == open[j].id;
        LaterTicksRemain(es, k, open[j], after[j], until);
      } else {
        assert after[m] == open[m'];
        OtherTicksRemain(es, batch, k, open, m', j, until);
      }
      assert Tracks(es[1..], batch, k, after[m], until);
    }
    AfterIncreasing(open, after, j);
  }

  lemma AfterIncreasing(open: seq<Pos>, after: seq<Pos>, j: nat)
    requires Increasing(open) && j < |open|
    requires
      || after == []
      || after == Without(open, j)
      || (|after| == |open| && Succeeds(open[j], after[j]) && after == open[j := after[j]])
    ensures Increasing(after)
  {
    if after == Without(open, j) {
      forall a, b | 0 <= a < b < |after| ensures after[a].id < after[b].id {
        assert after[a] == open[if a < j then a else a + 1] && after[b] == open[if b < j then b else b + 1];
      }
    }
  }

  lemma LaterTicksRemain(es: seq<Event>, k: nat, p: Pos, q: Pos, until: int)
    requires |es| > 0 && Ordered(es) && es[0].k == k && es[0].i == p.idx
    requires p.ticks.Valid() && Succeeds(p, q)
    requires forall e :: e in es && e.k == k ==> e.i < |p.ticks.ts| && e.ts == p.ticks.ts[e.i]
    requires CoversPos(es, k, p, until)
    ensures CoversPos(es[1..], k, q, until)
  {
    TailFacts(es);
    forall e | e in es[1..] && e.k == k ensures q.idx <= e.i {
      assert Before(es[0], e);
      assert es[0] in es;
    }
  }

  lemma OtherTicksRemain(es: seq<Event>, batch: seq<Pos>, k: nat, open: seq<Pos>, m: nat, j: nat, until: int)
    requires |es| > 0 && Walk(es, batch, open, until)
    requires m < |open| && j < |open| && m != j
    requires es[0].k < |batch| && open[j].id == batch[es[0].k].id
    requires Same(batch, k, open[m]) && CoversPos(es, k, open[m], until)
    ensures CoversPos(es[1..], k, open[m], until)
  {
    TailFacts(es);
    assert open[m].id != open[j].id;
    assert k != es[0].k;
  }

  /** When the schedule is used up no tick before `until` is left. */
  lemma WalkDone(batch: seq<Pos>, open: seq<Pos>, until: int)
    requires Walk([], batch, open, until)
    ensures NextIndex(open, until) == -1
  {
    forall j | 0 <= j < |open| ensures !open[j].HasTick(until) {
      var k :| Tracks([], batch, k, open[j], until);
    }
  }

  // ------------------------------------------------------------ the whole batch

  /** All segments in open order. */
  function Segments(open: seq<Pos>, until: int): seq<Event>
    requires PositionsValid(open)
  {
    if |open| == 0 then []
    else Segments(open[..|open| - 1], until) + Segment(open[|open| - 1], |open| - 1, until)
  }

  ghost predicate OfSegment(e: Event, open: seq<Pos>, until: int)
    requires PositionsValid(open)
  {
    e.k < |open| && e in Segment(open[e.k], e.k, until)
  }

  lemma {:induction false} SegmentsMembers(open: seq<Pos>, until: int)
    requires PositionsValid(open)
    ensures forall e :: e in Segments(open, until) <==> OfSegment(e, open, until)
  {
    hide Segment;
    if |open| > 0 {
      var n := |open| - 1;
      SegmentsMembers(open[..n], until);
      var last := Segment(open[n], n, until);
      forall e ensures e in Segments(open, until) <==> OfSegment(e, open, until) {
        if e in last {
          var m :| 0 <= m < |last| && last[m] == e;
          assert e.k == n;
        }
        if e.k < n { assert open[..n][e.k] == open[e.k]; }
        assert e in Segments(open[..n], until) <==> OfSegment(e, open[..n], until);
      }
    }
  }

  lemma {:induction false} SegmentsInOrder(open: seq<Pos>, until: int)
    requires PositionsValid(open)
    ensures InBatchOrder(Segments(open, until))
  {
    hide Segment;
    if |open| > 0 {
      var n := |open| - 1;
      SegmentsInOrder(open[..n], until);
      SegmentsMembers(open[..n], until);
      var head := Segments(open[..n], until);
      var last := Segment(open[n], n, until);
      forall a, b | 0 <= a < |head| && 0 <= b < |last| ensures head[a].k < last[b].k {
        assert head[a] in head;
        assert OfSegment(head[a], open[..n], until);
      }
    }
  }

  /** The sorted schedule holds exactly the due ticks of the open positions, in serving order. */
  lemma ScheduleMembers(open: seq<Pos>, until: int)
    requires PositionsValid(open)
    ensures Ordered(StableSort(Segments(open, until)))
    ensures forall e :: e in StableSort(Segments(open, until)) <==> e.k < |open| && DueTick(e, open[e.k], e.k, until)
  {
    SegmentsInOrder(open, until);
    SegmentsMembers(open, until);
    StableSortServes(Segments(open, until));
    hide Segment, Segments, StableSort, Ordered, DueTick;
    forall e ensures e in StableSort(Segments(open, until)) <==> e.k < |open| && DueTick(e, open[e.k], e.k, until) {
      if e.k < |open| { SegmentMembers(open[e.k], e.k, until); }
      assert e in Segments(open, until) <==> OfSegment(e, open, until);
    }
  }

  /** The sorted schedule starts a walk over the whole book. */
  lemma WalkStarts(open: seq<Pos>, until: int)
    requires PositionsValid(open) && Increasing(open)
    ensures Walk(StableSort(Segments(open, until)), open, open, until)
  {
    var es := StableSort(Segments(open, until));
    ScheduleMembers(open, until);
    hide Segments, StableSort, Ordered, Increasing, Covered;
    forall j | 0 <= j < |open| ensures Covered(es, open, open[j], until) {
      StartTracks(es, open, j, until);
    }
  }

  lemma StartTracks(es: seq<Event>, open: seq<Pos>, j: nat, until: int)
    requires PositionsValid(open) && j < |open|
    requires forall e :: e in es <==> e.k < |open| && DueTick(e, open[e.k], e.k, until)
    ensures Covered(es, open, open[j], until)
  {
    forall i | open[j].idx <= i < |open[j].ticks.ts| && open[j].ticks.ts[i] < until
      ensures Event(open[j].ticks.ts[i], j, i) in es
    {
      assert DueTick(Event(open[j].ticks.ts[i], j, i), open[j], j, until);
    }
    assert Tracks(es, open, j, open[j], until);
  }
}
