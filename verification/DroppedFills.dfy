/** Fills that a full ring pushes out: which of the accepted fills the reconciler never gets to see. */
module DroppedFills {
  import opened Prelude
  import opened FillsRing
  import opened Reconcile
  import Ledger

  /** Every fill accepted since the last snapshot, disconnect or restart. */
  function Accepted(events: seq<Event>): seq<FeedFill> {
    AcceptedFills(FeedOf(events))
  }

  /** How many of `n` accepted fills the ring has pushed out. */
  function PushedOut(n: nat, capacity: nat): (d: nat)
    ensures d <= n
  {
    if capacity == 0 || n <= capacity then 0 else n - capacity
  }

  /** The flags once there are `d` fills pushed out: those newly pushed out go by what is recorded now. */
  ghost function MoreSaved(st: Store, all: seq<FeedFill>, saved: seq<bool>, d: nat): seq<bool>
    requires d <= |all|
  {
    saved + if |saved| <= d then seq(d - |saved|, k requires 0 <= k < d - |saved| => Recorded(st, all[|saved| + k].fillId)) else []
  }

  /** For each accepted fill that was pushed out, whether it was recorded at the moment it was. */
  ghost function SavedInTime(capacity: nat, events: seq<Event>): seq<bool>
    requires forall n :: 0 <= n < |events| ==> Admissible(events[n])
  {
    if events == [] then []
    else
      var init := events[..|events| - 1];
      var st, saved, all := Run(capacity, init).store, SavedInTime(capacity, init), Accepted(events);
      var d := PushedOut(|all|, capacity);
      match events[|events| - 1]
      case Feed(Snapshot(_)) => seq(d, k requires 0 <= k < d => Recorded(st, all[k].fillId))
      case Feed(Live(_)) => MoreSaved(st, all, saved, d)
      case Feed(Disconnect) => []
      case Restart => []
      case _ => saved
  }

  // ---------------------------------------------------------------------------
  // Fill ids and sequence numbers
  // ---------------------------------------------------------------------------

  /** The venue numbers fills: a fill id always comes with the same sequence number. */
  ghost predicate Numbered(fs: seq<FeedFill>, number: string -> nat) {
    forall i :: 0 <= i < |fs| ==> fs[i].seqNo == number(fs[i].fillId)
  }

  ghost predicate FeedIsNumbered(feed: seq<FeedEvent>, number: string -> nat) {
    forall n :: 0 <= n < |feed| ==>
      (feed[n].Snapshot? ==> Numbered(feed[n].fills, number)) && (feed[n].Live? ==> Numbered(feed[n].fills, number))
  }

  lemma {:induction false} ExtendStaysNumbered(seen: seq<FeedFill>, fs: seq<FeedFill>, number: string -> nat)
    requires Numbered(seen, number) && Numbered(fs, number)
    ensures Numbered(Extend(seen, fs), number)
  {
    if fs != [] {
      ExtendStaysNumbered(seen, fs[..|fs| - 1], number);
    }
  }

  lemma {:induction false} AcceptedIsNumbered(feed: seq<FeedEvent>, number: string -> nat)
    requires FeedIsNumbered(feed, number)
    ensures Numbered(AcceptedFills(feed), number)
  {
    if feed != [] {
      var init, e := feed[..|feed| - 1], feed[|feed| - 1];
      AcceptedIsNumbered(init, number);
      if e.Live? {
        ExtendStaysNumbered(AcceptedFills(init), e.fills, number);
      }
    }
  }

  lemma IdsDiffer(fs: seq<FeedFill>, number: string -> nat, i: nat, j: nat)
    requires Ascending(fs) && Numbered(fs, number) && i < j < |fs|
    ensures fs[i].fillId != fs[j].fillId
  {
    assert fs[i].seqNo == number(fs[i].fillId) && fs[j].seqNo == number(fs[j].fillId);
  }

  // ---------------------------------------------------------------------------
  // What a tick records
  // ---------------------------------------------------------------------------

  predicate Holds(fs: seq<FeedFill>, id: string) {
    exists k :: 0 <= k < |fs| && fs[k].fillId == id
  }

  lemma {:induction false} DrainRecordsOnly(st: Store, watermark: nat, fs: seq<FeedFill>, luck: seq<Luck>, n: nat, id: string)
    requires Sane(st) && Ledger.Sound(st.positions) && AllPositive(fs) && n <= |fs|
    ensures Recorded(Drain(st, watermark, fs, luck, n).store, id) ==> Recorded(st, id) || Holds(fs, id)
    decreases |fs| - n
  {
    if n < |fs| && LuckAt(luck, n) != DbError {
      var watermark' := Max(watermark, fs[n].seqNo);
      if Recorded(st, fs[n].fillId) {
        DrainRecordsOnly(st, watermark', fs, luck, n + 1, id);
      } else {
        var works := LuckAt(luck, n) == Works;
        BookStaysSane(st, fs[n], works);
        BookRecords(st, fs[n], works);
        DrainRecordsOnly(Book(st, fs[n], works), watermark', fs, luck, n + 1, id);
      }
    }
  }

  lemma TickRecordsOnly(w: World, luck: seq<Luck>, id: string)
    requires Ready(w)
    ensures Recorded(w.store, id) ==> Recorded(Step(w, Tick(luck)).store, id)
    ensures Recorded(Step(w, Tick(luck)).store, id) ==> Recorded(w.store, id) || Holds(w.ring.fills, id)
  {
    if w.ring.synced && w.ring.highest > w.watermark {
      var fs := Above(w.ring.fills, w.watermark);
      assert forall i :: 0 <= i < |fs| ==> fs[i] in fs;
      DrainRecordsOnly(w.store, w.watermark, fs, luck, 0, id);
      if Recorded(w.store, id) {
        RecordedStays(w.store, w.watermark, fs, luck, 0, id);
      }
      if Holds(fs, id) {
        var k :| 0 <= k < |fs| && fs[k].fillId == id;
        assert fs[k] in w.ring.fills;
      }
    }
  }

  // ---------------------------------------------------------------------------
  // Pushed out for good
  // ---------------------------------------------------------------------------

  /** The fills pushed out are recorded exactly when they were in time. */
  ghost predicate SavedTells(st: Store, all: seq<FeedFill>, saved: seq<bool>, capacity: nat) {
    && |saved| == PushedOut(|all|, capacity)
    && forall k :: 0 <= k < |saved| ==> (Recorded(st, all[k].fillId) <==> saved[k])
  }

  ghost predicate Proper(events: seq<Event>, number: string -> nat) {
    && (forall n :: 0 <= n < |events| ==> Admissible(events[n]))
    && SnapshotsAscend(events) && FeedIsNumbered(FeedOf(events), number)
  }

  lemma {:induction false} ProperInit(events: seq<Event>, number: string -> nat)
    requires Proper(events, number) && events != []
    ensures Proper(events[..|events| - 1], number)
  {
    var init := events[..|events| - 1];
    assert forall n :: 0 <= n < |FeedOf(init)| ==> FeedOf(events)[n] == FeedOf(init)[n];
  }

  /** The ring is what is left of the accepted fills. */
  lemma {:induction false} RingIsTheRest(capacity: nat, events: seq<Event>)
    requires forall n :: 0 <= n < |events| ==> Admissible(events[n])
    ensures var r, all := Run(capacity, events).ring, Accepted(events);
            && r.fills == all[PushedOut(|all|, capacity)..]
            && r.fills == Youngest(all, r.capacity) && r.highest == Highest(all)
  {
    RingIsItsFeed(capacity, events);
    RingHoldsYoungest(capacity, FeedOf(events));
  }

  lemma {:induction false} AcceptedMore(events: seq<Event>)
    requires events != []
    ensures var e, before := events[|events| - 1], Accepted(events[..|events| - 1]);
            Accepted(events) == match e
                                case Feed(Snapshot(fs)) => fs
                                case Feed(Live(fs)) => Extend(before, fs)
                                case Feed(Disconnect) => []
                                case Restart => []
                                case _ => before
  {
    var init, e := events[..|events| - 1], events[|events| - 1];
    var feed := FeedOf(events);
    if e.Feed? || e.Restart? {
      assert feed[..|feed| - 1] == FeedOf(init) && feed[|feed| - 1] == FeedPart(e)[0];
    } else {
      assert feed == FeedOf(init);
    }
  }

  lemma MoreSavedTells(st: Store, all: seq<FeedFill>, more: seq<FeedFill>, saved: seq<bool>, capacity: nat)
    requires SavedTells(st, all, saved, capacity)
    ensures SavedTells(st, all + more, MoreSaved(st, all + more, saved, PushedOut(|all + more|, capacity)), capacity)
  {
    forall k | 0 <= k < |saved| ensures (all + more)[k] == all[k] {
    }
  }

  lemma {:induction false} LiveKeepsSaved(capacity: nat, events: seq<Event>, fs: seq<FeedFill>)
    requires (forall n :: 0 <= n < |events| ==> Admissible(events[n])) && events != []
    requires events[|events| - 1] == Feed(Live(fs))
    requires var init := events[..|events| - 1];
             SavedTells(Run(capacity, init).store, Accepted(init), SavedInTime(capacity, init), capacity)
    ensures SavedTells(Run(capacity, events).store, Accepted(events), SavedInTime(capacity, events), capacity)
  {
    var init := events[..|events| - 1];
    var w := Run(capacity, init);
    RingIsTheRest(capacity, init);
    AcceptedMore(events);
    ExtendAddsTaken(w.ring, Accepted(init), fs);
    MoreSavedTells(w.store, Accepted(init), Taken(w.ring, fs), SavedInTime(capacity, init), capacity);
    assert Run(capacity, events).store == w.store;
  }

  lemma TickKeepsSaved(w: World, luck: seq<Luck>, all: seq<FeedFill>, saved: seq<bool>, capacity: nat, number: string -> nat)
    requires Ready(w) && SavedTells(w.store, all, saved, capacity) && Ascending(all) && Numbered(all, number)
    requires w.ring.fills == all[PushedOut(|all|, capacity)..]
    ensures SavedTells(Step(w, Tick(luck)).store, all, saved, capacity)
  {
    var d := |saved|;
    forall k | 0 <= k < d ensures Recorded(Step(w, Tick(luck)).store, all[k].fillId) <==> saved[k] {
      TickRecordsOnly(w, luck, all[k].fillId);
      if Holds(w.ring.fills, all[k].fillId) {
        var j :| 0 <= j < |w.ring.fills| && w.ring.fills[j].fillId == all[k].fillId;
        IdsDiffer(all, number, k, d + j);
      }
    }
  }

  lemma {:induction false} OtherEventsKeepSaved(capacity: nat, events: seq<Event>)
    requires (forall n :: 0 <= n < |events| ==> Admissible(events[n])) && events != []
    requires var e := events[|events| - 1]; !e.Tick? && !(e.Feed? && e.feed.Live?)
    requires var init := events[..|events| - 1];
             SavedTells(Run(capacity, init).store, Accepted(init), SavedInTime(capacity, init), capacity)
    ensures SavedTells(Run(capacity, events).store, Accepted(events), SavedInTime(capacity, events), capacity)
  {
    AcceptedMore(events);
    var w, e := Run(capacity, events[..|events| - 1]), events[|events| - 1];
    assert Step(w, e).store.applied == w.store.applied;
  }

  /** After any run, an accepted fill that the ring has pushed out is recorded exactly when it was at that moment. */
  lemma {:induction false} PushedOutIsRecordedIff(capacity: nat, events: seq<Event>, number: string -> nat)
    requires Proper(events, number)
    ensures SavedTells(Run(capacity, events).store, Accepted(events), SavedInTime(capacity, events), capacity)
  {
    if events != [] {
      var init, e := events[..|events| - 1], events[|events| - 1];
      ProperInit(events, number);
      PushedOutIsRecordedIff(capacity, init, number);
      if e.Tick? {
        RingIsTheRest(capacity, init);
        AcceptedMore(events);
        FeedAscends(init);
        AcceptedAscends(FeedOf(init));
        AcceptedIsNumbered(FeedOf(init), number);
        TickKeepsSaved(Run(capacity, init), e.luck, Accepted(init), SavedInTime(capacity, init), capacity, number);
      } else if e.Feed? && e.feed.Live? {
        LiveKeepsSaved(capacity, events, e.feed.fills);
      } else {
        OtherEventsKeepSaved(capacity, events);
      }
    }
  }

  predicate All(flags: seq<bool>) {
    forall k :: 0 <= k < |flags| ==> flags[k]
  }

  ghost predicate NoneLost(st: Store, all: seq<FeedFill>, ring: seq<FeedFill>) {
    forall f :: f in all ==> Recorded(st, f.fillId) || f in ring
  }

  lemma NoneLostFrom(st: Store, all: seq<FeedFill>, ring: seq<FeedFill>, saved: seq<bool>, capacity: nat)
    requires SavedTells(st, all, saved, capacity) && Ascending(all) && ring == all[|saved|..]
    ensures NoneLost(st, all, ring) <==> All(saved)
  {
    assert all == all[..|saved|] + ring;
    assert forall k :: 0 <= k < |saved| ==> all[k] in all && all[k] !in ring;
  }

  /** So no accepted fill is lost exactly when each one was recorded before the ring pushed it out. */
  lemma {:induction false} NoneLostIff(capacity: nat, events: seq<Event>, number: string -> nat)
    requires Proper(events, number)
    ensures NoneLost(Run(capacity, events).store, Accepted(events), Run(capacity, events).ring.fills)
            <==> All(SavedInTime(capacity, events))
  {
    var w, all, saved := Run(capacity, events), Accepted(events), SavedInTime(capacity, events);
    PushedOutIsRecordedIff(capacity, events, number);
    RingIsTheRest(capacity, events);
    FeedAscends(events);
    AcceptedAscends(FeedOf(events));
    assert w.ring.fills == all[|saved|..];
    NoneLostFrom(w.store, all, w.ring.fills, saved, capacity);
  }

  // ---------------------------------------------------------------------------
  // A fill that is lost
  // ---------------------------------------------------------------------------

  const First: FeedFill := FeedFill("first", 1, "order", None, 1.0, 1.0, 0.0)
  const Second: FeedFill := FeedFill("second", 2, "order", None, 1.0, 1.0, 0.0)

  /** Two live fills between two ticks, for a ring that holds one. */
  const Burst: seq<Event> := [Feed(Snapshot([])), Feed(Live([First, Second]))]

  function BurstNumber(id: string): nat {
    if |id| == 5 then 1 else 2
  }

  lemma BurstFeed()
    ensures FeedOf(Burst) == [Snapshot([]), Live([First, Second])]
  {
    assert Burst[..1] == [Feed(Snapshot([]))] && Burst[..1][..0] == [];
    assert FeedOf(Burst[..1]) == [Snapshot([])];
  }

  lemma BurstIsAccepted()
    ensures Accepted(Burst) == [First, Second]
  {
    BurstFeed();
    var feed := FeedOf(Burst);
    assert feed[..1] == [Snapshot([])] && AcceptedFills(feed[..1]) == [];
    assert [First, Second][..1] == [First] && [First][..0] == [];
    assert Extend([], [First]) == [First];
    assert Highest([First]) == 1;
  }

  lemma BurstIsProper()
    ensures Proper(Burst, BurstNumber)
  {
    BurstFeed();
    assert Numbered([First, Second], BurstNumber) && Numbered([], BurstNumber);
  }

  lemma FirstIsPushedOut()
    ensures (forall n :: 0 <= n < |Burst| ==> Admissible(Burst[n])) && SavedInTime(1, Burst) == [false]
  {
    BurstIsProper();
    BurstIsAccepted();
    var init := Burst[..1];
    assert init == [Feed(Snapshot([]))] && init[..0] == [];
    assert Run(1, init).store == Store([], [], []);
    AcceptedMore(init);
    assert SavedInTime(1, init) == [];
  }

  /** After the burst the first fill is accepted, but neither recorded nor in the ring, and a tick leaves it so. */
  lemma BurstLosesAFill(luck: seq<Luck>)
    ensures forall n :: 0 <= n < |Burst| ==> Admissible(Burst[n])
    ensures var w := Run(1, Burst);
            && First in Accepted(Burst) && First !in w.ring.fills
            && !Recorded(w.store, First.fillId) && !Recorded(Step(w, Tick(luck)).store, First.fillId)
  {
    BurstIsProper();
    BurstIsAccepted();
    FirstIsPushedOut();
    PushedOutIsRecordedIff(1, Burst, BurstNumber);
    RingIsTheRest(1, Burst);
    assert Accepted(Burst)[0] == First && Run(1, Burst).ring.fills == [Second];
    TickRecordsOnly(Run(1, Burst), luck, First.fillId);
  }
}
