/** Fills that reach the ring at or below the watermark: when the reconciler can still be relied on to book them. */
module LateFills {
  import opened Prelude
  import opened FillsRing
  import opened Reconcile
  import Ledger

  function PushMark(marks: seq<nat>, capacity: nat, mark: nat): seq<nat> {
    (if |marks| == capacity && marks != [] then marks[1..] else marks) + [mark]
  }

  /** Beside each fill of the ring, the watermark of the moment it came in. */
  function MarksAfter(r: Ring, marks: seq<nat>, fs: seq<FeedFill>, watermark: nat): seq<nat> {
    if fs == [] then marks
    else
      var init := fs[..|fs| - 1];
      if fs[|fs| - 1].seqNo <= OnFills(r, init).highest then MarksAfter(r, marks, init, watermark)
      else PushMark(MarksAfter(r, marks, init, watermark), r.capacity, watermark)
  }

  ghost function EntryMarks(capacity: nat, events: seq<Event>): seq<nat>
    requires forall n :: 0 <= n < |events| ==> Admissible(events[n])
  {
    if events == [] then []
    else
      var init := events[..|events| - 1];
      var w := Run(capacity, init);
      match events[|events| - 1]
      case Feed(Snapshot(fs)) => seq(|OnSnapshot(w.ring, fs).fills|, _ => w.watermark)
      case Feed(Live(fs)) => MarksAfter(w.ring, EntryMarks(capacity, init), fs, w.watermark)
      case Feed(Disconnect) => []
      case Restart => []
      case _ => EntryMarks(capacity, init)
  }

  /** Each unrecorded fill of the ring is above the watermark exactly when it was when it came in. */
  ghost predicate MarksTell(st: Store, fills: seq<FeedFill>, watermark: nat, marks: seq<nat>) {
    && |marks| == |fills|
    && forall i :: 0 <= i < |fills| && !Recorded(st, fills[i].fillId) ==>
         (fills[i].seqNo > watermark <==> fills[i].seqNo > marks[i])
  }

  lemma {:induction false} CapacityIsKept(r: Ring, fs: seq<FeedFill>)
    ensures OnFills(r, fs).capacity == r.capacity
  {
    if fs != [] {
      CapacityIsKept(r, fs[..|fs| - 1]);
    }
  }

  lemma PushKeepsMarks(st: Store, fills: seq<FeedFill>, capacity: nat, watermark: nat, marks: seq<nat>, f: FeedFill)
    requires MarksTell(st, fills, watermark, marks)
    ensures MarksTell(st, Push(fills, capacity, f), watermark, PushMark(marks, capacity, watermark))
  {
  }

  lemma {:induction false} LiveKeepsMarks(st: Store, r: Ring, watermark: nat, marks: seq<nat>, fs: seq<FeedFill>)
    requires MarksTell(st, r.fills, watermark, marks)
    ensures MarksTell(st, OnFills(r, fs).fills, watermark, MarksAfter(r, marks, fs, watermark))
  {
    if fs != [] {
      var init, f := fs[..|fs| - 1], fs[|fs| - 1];
      LiveKeepsMarks(st, r, watermark, marks, init);
      CapacityIsKept(r, init);
      PushKeepsMarks(st, OnFills(r, init).fills, r.capacity, watermark, MarksAfter(r, marks, init, watermark), f);
    }
  }

  lemma {:induction false} WatermarkNeverFalls(st: Store, watermark: nat, fs: seq<FeedFill>, luck: seq<Luck>, n: nat)
    requires Sane(st) && Ledger.Sound(st.positions) && AllPositive(fs) && n <= |fs|
    ensures Drain(st, watermark, fs, luck, n).watermark >= watermark
    decreases |fs| - n
  {
    if n < |fs| && LuckAt(luck, n) != DbError {
      var watermark' := Max(watermark, fs[n].seqNo);
      if Recorded(st, fs[n].fillId) {
        WatermarkNeverFalls(st, watermark', fs, luck, n + 1);
      } else {
        BookStaysSane(st, fs[n], LuckAt(luck, n) == Works);
        WatermarkNeverFalls(Book(st, fs[n], LuckAt(luck, n) == Works), watermark', fs, luck, n + 1);
      }
    }
  }

  /** A tick only raises the watermark and only adds records. */
  lemma TickOnlyAdds(w: World, luck: seq<Luck>)
    requires Ready(w)
    ensures var w' := Step(w, Tick(luck));
            && w'.ring == w.ring && w'.watermark >= w.watermark
            && (forall id :: Recorded(w.store, id) ==> Recorded(w'.store, id))
  {
    if w.ring.synced && w.ring.highest > w.watermark {
      var fs := Above(w.ring.fills, w.watermark);
      assert forall i :: 0 <= i < |fs| ==> fs[i] in fs;
      WatermarkNeverFalls(w.store, w.watermark, fs, luck, 0);
      forall id | Recorded(w.store, id) ensures Recorded(Step(w, Tick(luck)).store, id) {
        RecordedStays(w.store, w.watermark, fs, luck, 0, id);
      }
    }
  }

  lemma TickKeepsMarks(w: World, luck: seq<Luck>, marks: seq<nat>)
    requires Ready(w) && Ascending(w.ring.fills) && MarksTell(w.store, w.ring.fills, w.watermark, marks)
    ensures MarksTell(Step(w, Tick(luck)).store, w.ring.fills, Step(w, Tick(luck)).watermark, marks)
  {
    TickOnlyAdds(w, luck);
    TicksSkipNone(w, luck);
  }

  lemma OtherWritersKeepRecords(st: Store, e: Event)
    ensures Interfere(st, e).applied == st.applied
  {
  }

  /**
   After any run whose snapshots ascend, an unrecorded fill in the ring is due exactly when it came in above the
   watermark of that moment. One that came in at or below it is never due while it stays in the ring unrecorded.
   */
  lemma {:induction false} DueIffEnteredAbove(capacity: nat, events: seq<Event>)
    requires (forall n :: 0 <= n < |events| ==> Admissible(events[n])) && SnapshotsAscend(events)
    ensures var w := Run(capacity, events);
            MarksTell(w.store, w.ring.fills, w.watermark, EntryMarks(capacity, events))
  {
    if events != [] {
      var init, e := events[..|events| - 1], events[|events| - 1];
      var w, marks := Run(capacity, init), EntryMarks(capacity, init);
      DueIffEnteredAbove(capacity, init);
      match e
      case Feed(Live(fs)) => LiveKeepsMarks(w.store, w.ring, w.watermark, marks, fs);
      case Tick(luck) =>
        RunRingAscends(capacity, init);
        TickKeepsMarks(w, luck, marks);
      case OrderInserted(_) => OtherWritersKeepRecords(w.store, e);
      case BrokerIdWritten(_, _, _) => OtherWritersKeepRecords(w.store, e);
      case StatusWritten(_, _) => OtherWritersKeepRecords(w.store, e);
      case _ =>
    }
  }

  /** So every unrecorded fill in the ring is due exactly when none came in at or below the watermark. */
  lemma NoneStrandedIff(capacity: nat, events: seq<Event>)
    requires (forall n :: 0 <= n < |events| ==> Admissible(events[n])) && SnapshotsAscend(events)
    ensures var w, marks := Run(capacity, events), EntryMarks(capacity, events);
            && |marks| == |w.ring.fills|
            && ((forall f :: f in w.ring.fills && !Recorded(w.store, f.fillId) ==> f.seqNo > w.watermark)
                <==> forall i :: 0 <= i < |marks| && !Recorded(w.store, w.ring.fills[i].fillId) ==> w.ring.fills[i].seqNo > marks[i])
  {
    DueIffEnteredAbove(capacity, events);
    var w := Run(capacity, events);
    assert forall i :: 0 <= i < |w.ring.fills| ==> w.ring.fills[i] in w.ring.fills;
  }

  function SampleFill(id: string, seqNo: nat): FeedFill {
    FeedFill(id, seqNo, "order", None, 1.0, 1.0, 0.0)
  }

  const One: FeedFill := SampleFill("one", 1)
  const Two: FeedFill := SampleFill("two", 2)
  const Three: FeedFill := SampleFill("three", 3)

  /** Fill two is lost on the way in, fill three moves the watermark, and a reconnect brings all three. */
  const LossyFeed: seq<Event> :=
    [Feed(Snapshot([])), Feed(Live([One, Three])), Tick([]), Feed(Disconnect), Feed(Snapshot([One, Two, Three]))]

  lemma RunSnoc(capacity: nat, events: seq<Event>, n: nat)
    requires (forall k :: 0 <= k < |events| ==> Admissible(events[k])) && 0 < n <= |events|
    ensures forall k :: 0 <= k < |events[..n]| ==> Admissible(events[..n][k])
    ensures Run(capacity, events[..n]) == Step(Run(capacity, events[..n - 1]), events[n - 1])
  {
    assert events[..n][..n - 1] == events[..n - 1];
  }

  lemma {:induction false} LiveGap(r: Ring)
    requires r == Ring([], 10, 0, true)
    ensures OnFills(r, [One, Three]) == Ring([One, Three], 10, 3, true)
  {
    assert [One, Three][..1] == [One];
    assert [One][..0] == [];
    assert OnFills(r, [One]) == Ring([One], 10, 1, true);
  }

  lemma FullSnapshot(r: Ring)
    requires r.capacity == 10
    ensures OnSnapshot(r, [One, Two, Three]) == Ring([One, Two, Three], 10, 3, true)
  {
    RefillHoldsYoungest(r, [One, Two, Three]);
    HighestBounds([One, Two, Three]);
  }

  lemma BooksUnmatched(applied: seq<Booking>, f: FeedFill)
    requires Positive(f)
    ensures Ledger.Sound([]) && Sane(Store([], [], applied))
    ensures Book(Store([], [], applied), f, true) == Store([], [], applied + [Booking(f, None)])
  {
  }

  lemma {:induction false} DrainsTheGap(st: Store)
    requires st == Store([], [], [])
    ensures Drain(st, 0, [One, Three], [], 0) == Drained(Store([], [], [Booking(One, None), Booking(Three, None)]), 3, true)
  {
    var fs := [One, Three];
    BooksUnmatched([], One);
    var mid := Store([], [], [Booking(One, None)]);
    assert [] + [Booking(One, None)] == [Booking(One, None)];
    assert Drain(st, 0, fs, [], 0) == Drain(mid, 1, fs, [], 1);
    assert !Recorded(mid, "three");
    BooksUnmatched([Booking(One, None)], Three);
    var end := Store([], [], [Booking(One, None), Booking(Three, None)]);
    assert [Booking(One, None)] + [Booking(Three, None)] == end.applied;
    assert Drain(mid, 1, fs, [], 1) == Drain(end, 3, fs, [], 2);
  }

  lemma GapIsDue()
    ensures Above([One, Three], 0) == [One, Three]
  {
    assert [One, Three][..1] == [One];
    assert [One][..0] == [];
    assert Above([One], 0) == [One];
  }

  const AfterGap: World := World(Store([], [], []), Ring([One, Three], 10, 3, true), 0)

  const AfterTick: World := World(Store([], [], [Booking(One, None), Booking(Three, None)]), AfterGap.ring, 3)

  lemma LossyFeedIsAdmissible()
    ensures (forall n :: 0 <= n < |LossyFeed| ==> Admissible(LossyFeed[n])) && SnapshotsAscend(LossyFeed)
  {
  }

  lemma ReachesGap()
    ensures (forall n :: 0 <= n < |LossyFeed| ==> Admissible(LossyFeed[n])) && Run(10, LossyFeed[..2]) == AfterGap
  {
    LossyFeedIsAdmissible();
    RunSnoc(10, LossyFeed, 1);
    assert Run(10, LossyFeed[..1]) == World(Store([], [], []), Ring([], 10, 0, true), 0);
    RunSnoc(10, LossyFeed, 2);
    LiveGap(Ring([], 10, 0, true));
  }

  lemma TicksTheGap()
    ensures Ready(AfterGap) && Step(AfterGap, Tick([])) == AfterTick
  {
    GapIsDue();
    DrainsTheGap(Store([], [], []));
  }

  lemma ReachesTick()
    ensures (forall n :: 0 <= n < |LossyFeed| ==> Admissible(LossyFeed[n])) && Run(10, LossyFeed[..3]) == AfterTick
  {
    ReachesGap();
    TicksTheGap();
    RunSnoc(10, LossyFeed, 3);
  }

  const AtTheEnd: World := AfterTick.(ring := Ring([One, Two, Three], 10, 3, true))

  lemma ReachesTheEnd()
    ensures (forall n :: 0 <= n < |LossyFeed| ==> Admissible(LossyFeed[n])) && Run(10, LossyFeed) == AtTheEnd
  {
    ReachesTick();
    RunSnoc(10, LossyFeed, 4);
    RunSnoc(10, LossyFeed, 5);
    FullSnapshot(OnInvalidate(AfterTick.ring));
    assert LossyFeed[..5] == LossyFeed;
  }

  lemma TwoIsUnrecorded()
    ensures Two in AtTheEnd.ring.fills && !Recorded(AtTheEnd.store, Two.fillId)
  {
    assert AtTheEnd.ring.fills[1] == Two;
  }

  /** The run of `LossyFeed`: fill two sits in the ring, unrecorded and below the watermark, and no tick picks it up. */
  lemma LostFillIsStranded(luck: seq<Luck>)
    ensures (forall n :: 0 <= n < |LossyFeed| ==> Admissible(LossyFeed[n])) && SnapshotsAscend(LossyFeed)
    ensures var w := Run(10, LossyFeed);
            Two in w.ring.fills && !Recorded(w.store, Two.fillId) && Two.seqNo <= w.watermark && Step(w, Tick(luck)) == w
  {
    LossyFeedIsAdmissible();
    ReachesTheEnd();
    TwoIsUnrecorded();
  }
}
