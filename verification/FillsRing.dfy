/** The bounded in-memory ring of fills that the private feed writes and the reconciler drains. */
module FillsRing {
  import opened Prelude

  /** A fill as the feed delivers it. */
  datatype FeedFill = FeedFill(fillId: string, seqNo: nat, orderId: string, cli: Option<string>,
                               qty: real, price: real, fee: real)

  datatype Ring = Ring(fills: seq<FeedFill>, capacity: nat, highest: nat, synced: bool)

  function NewRing(capacity: nat): Ring {
    Ring([], capacity, 0, false)
  }

  function Max(a: nat, b: nat): nat {
    if a >= b then a else b
  }

  /** Drop the oldest when full, then append. An empty deque has nothing to drop. */
  function Push(fills: seq<FeedFill>, capacity: nat, f: FeedFill): seq<FeedFill> {
    (if |fills| == capacity && fills != [] then fills[1..] else fills) + [f]
  }

  function Refilled(r: Ring, fs: seq<FeedFill>): Ring {
    if fs == [] then r.(fills := [], highest := 0)
    else
      var f := fs[|fs| - 1];
      var r' := Refilled(r, fs[..|fs| - 1]);
      r'.(fills := Push(r'.fills, r'.capacity, f), highest := Max(r'.highest, f.seqNo))
  }

  function OnSnapshot(r: Ring, fs: seq<FeedFill>): Ring {
    Refilled(r, fs).(synced := true)
  }

  /** Live fills: a sequence number at or below the highest seen is a duplicate. */
  function OnFills(r: Ring, fs: seq<FeedFill>): Ring {
    if fs == [] then r
    else
      var f := fs[|fs| - 1];
      var r' := OnFills(r, fs[..|fs| - 1]);
      if f.seqNo <= r'.highest then r'
      else r'.(fills := Push(r'.fills, r'.capacity, f), highest := f.seqNo)
  }

  /** The fills of a batch that the ring takes in. */
  function Taken(r: Ring, fs: seq<FeedFill>): seq<FeedFill> {
    if fs == [] then []
    else
      var taken := Taken(r, fs[..|fs| - 1]);
      if fs[|fs| - 1].seqNo <= OnFills(r, fs[..|fs| - 1]).highest then taken else taken + [fs[|fs| - 1]]
  }

  predicate JumpAt(mark: nat, taken: seq<FeedFill>, k: nat)
    requires k < |taken|
  {
    var before := if k == 0 then mark else taken[k - 1].seqNo;
    before != 0 && taken[k].seqNo > before + 1
  }

  /** Did a taken fill jump ahead of the number before it? The first fill of an empty ring cannot. */
  predicate Jumps(mark: nat, taken: seq<FeedFill>) {
    exists k :: 0 <= k < |taken| && JumpAt(mark, taken, k)
  }

  lemma {:induction false} MarkFollowsTaken(r: Ring, fs: seq<FeedFill>)
    ensures OnFills(r, fs).highest == if Taken(r, fs) == [] then r.highest else Taken(r, fs)[|Taken(r, fs)| - 1].seqNo
  {
    if fs != [] {
      MarkFollowsTaken(r, fs[..|fs| - 1]);
    }
  }

  lemma JumpsGrow(mark: nat, taken: seq<FeedFill>, f: FeedFill)
    ensures Jumps(mark, taken + [f]) <==> Jumps(mark, taken) || JumpAt(mark, taken + [f], |taken|)
  {
    assert forall k :: 0 <= k < |taken| ==> JumpAt(mark, taken + [f], k) == JumpAt(mark, taken, k);
  }

  /** One more fill of the batch. */
  lemma {:induction false} TakenMore(r: Ring, fs: seq<FeedFill>, n: nat)
    requires n < |fs|
    ensures var before, f := OnFills(r, fs[..n]), fs[n];
            if f.seqNo <= before.highest then
              OnFills(r, fs[..n + 1]) == before && Taken(r, fs[..n + 1]) == Taken(r, fs[..n])
            else
              && OnFills(r, fs[..n + 1]) == before.(fills := Push(before.fills, before.capacity, f), highest := f.seqNo)
              && Taken(r, fs[..n + 1]) == Taken(r, fs[..n]) + [f]
              && (Jumps(r.highest, Taken(r, fs[..n + 1])) <==>
                    Jumps(r.highest, Taken(r, fs[..n])) || (before.highest != 0 && f.seqNo > before.highest + 1))
  {
    assert fs[..n + 1][..n] == fs[..n];
    MarkFollowsTaken(r, fs[..n]);
    JumpsGrow(r.highest, Taken(r, fs[..n]), fs[n]);
  }

  function OnInvalidate(r: Ring): Ring {
    r.(fills := [], highest := 0, synced := false)
  }

  // ---------------------------------------------------------------------------
  // What the ring holds
  // ---------------------------------------------------------------------------

  datatype FeedEvent = Snapshot(fills: seq<FeedFill>) | Live(fills: seq<FeedFill>) | Disconnect

  function OnEvent(r: Ring, e: FeedEvent): Ring {
    match e
    case Snapshot(fs) => OnSnapshot(r, fs)
    case Live(fs) => OnFills(r, fs)
    case Disconnect => OnInvalidate(r)
  }

  function RunFeed(capacity: nat, events: seq<FeedEvent>): Ring {
    if events == [] then NewRing(capacity)
    else OnEvent(RunFeed(capacity, events[..|events| - 1]), events[|events| - 1])
  }

  function Highest(fs: seq<FeedFill>): nat {
    if fs == [] then 0 else Max(Highest(fs[..|fs| - 1]), fs[|fs| - 1].seqNo)
  }

  /** The fills of a batch that are new to a feed which has delivered `seen`, in order. */
  function Extend(seen: seq<FeedFill>, fs: seq<FeedFill>): seq<FeedFill> {
    if fs == [] then seen
    else
      var seen' := Extend(seen, fs[..|fs| - 1]);
      if fs[|fs| - 1].seqNo <= Highest(seen') then seen' else seen' + [fs[|fs| - 1]]
  }

  /** Every fill accepted since the last snapshot or disconnect - with no capacity in sight. */
  function AcceptedFills(events: seq<FeedEvent>): seq<FeedFill> {
    if events == [] then []
    else
      match events[|events| - 1]
      case Snapshot(fs) => fs
      case Live(fs) => Extend(AcceptedFills(events[..|events| - 1]), fs)
      case Disconnect => []
  }

  /** Has a snapshot come in since the last disconnect? */
  predicate SnapshotSeen(events: seq<FeedEvent>) {
    events != [] && !events[|events| - 1].Disconnect? &&
    (events[|events| - 1].Snapshot? || SnapshotSeen(events[..|events| - 1]))
  }

  /** The youngest `capacity` fills; a ring of capacity zero never drops any. */
  function Youngest(fs: seq<FeedFill>, capacity: nat): seq<FeedFill> {
    if capacity == 0 || |fs| <= capacity then fs else fs[|fs| - capacity..]
  }

  lemma PushKeepsYoungest(fs: seq<FeedFill>, capacity: nat, f: FeedFill)
    ensures Push(Youngest(fs, capacity), capacity, f) == Youngest(fs + [f], capacity)
  {
  }

  lemma {:induction false} RefillHoldsYoungest(r: Ring, fs: seq<FeedFill>)
    ensures Refilled(r, fs) == r.(fills := Youngest(fs, r.capacity), highest := Highest(fs))
  {
    if fs != [] {
      var init, f := fs[..|fs| - 1], fs[|fs| - 1];
      RefillHoldsYoungest(r, init);
      PushKeepsYoungest(init, r.capacity, f);
      assert init + [f] == fs;
    }
  }

  /** What a batch adds is what the ring takes. */
  lemma {:induction false} ExtendAddsTaken(r: Ring, seen: seq<FeedFill>, fs: seq<FeedFill>)
    requires r.fills == Youngest(seen, r.capacity) && r.highest == Highest(seen)
    ensures Extend(seen, fs) == seen + Taken(r, fs)
  {
    if fs != [] {
      ExtendAddsTaken(r, seen, fs[..|fs| - 1]);
      FillsHoldYoungest(r, seen, fs[..|fs| - 1]);
    }
  }

  lemma {:induction false} FillsHoldYoungest(r: Ring, seen: seq<FeedFill>, fs: seq<FeedFill>)
    requires r.fills == Youngest(seen, r.capacity) && r.highest == Highest(seen)
    ensures OnFills(r, fs) == r.(fills := Youngest(Extend(seen, fs), r.capacity), highest := Highest(Extend(seen, fs)))
  {
    if fs != [] {
      var init, f := fs[..|fs| - 1], fs[|fs| - 1];
      FillsHoldYoungest(r, seen, init);
      var seen' := Extend(seen, init);
      PushKeepsYoungest(seen', r.capacity, f);
      assert (seen' + [f])[..|seen'|] == seen';
    }
  }

  /** Over any feed, the ring is the youngest accepted fills and its mark is their highest number. */
  lemma {:induction false} RingHoldsYoungest(capacity: nat, events: seq<FeedEvent>)
    ensures var r := RunFeed(capacity, events);
            && r.capacity == capacity
            && r.fills == Youngest(AcceptedFills(events), capacity)
            && r.highest == Highest(AcceptedFills(events))
            && (r.synced <==> SnapshotSeen(events))
            && (capacity > 0 ==> |r.fills| == if |AcceptedFills(events)| <= capacity then |AcceptedFills(events)| else capacity)
  {
    if events != [] {
      RingHoldsYoungest(capacity, events[..|events| - 1]);
      var r, e := RunFeed(capacity, events[..|events| - 1]), events[|events| - 1];
      match e
      case Snapshot(fs) => RefillHoldsYoungest(r, fs);
      case Live(fs) => FillsHoldYoungest(r, AcceptedFills(events[..|events| - 1]), fs);
      case Disconnect =>
    }
  }

  // ---------------------------------------------------------------------------
  // Order
  // ---------------------------------------------------------------------------

  predicate Ascending(fs: seq<FeedFill>) {
    forall i, j :: 0 <= i < j < |fs| ==> fs[i].seqNo < fs[j].seqNo
  }

  lemma {:induction false} HighestBounds(fs: seq<FeedFill>)
    ensures forall i :: 0 <= i < |fs| ==> fs[i].seqNo <= Highest(fs)
    ensures fs != [] && Ascending(fs) ==> Highest(fs) == fs[|fs| - 1].seqNo
  {
    if fs != [] {
      var init := fs[..|fs| - 1];
      HighestBounds(init);
      assert forall i :: 0 <= i < |init| ==> fs[i] == init[i];
    }
  }

  lemma {:induction false} ExtendAscends(seen: seq<FeedFill>, fs: seq<FeedFill>)
    requires Ascending(seen)
    ensures Ascending(Extend(seen, fs))
  {
    if fs != [] {
      ExtendAscends(seen, fs[..|fs| - 1]);
      HighestBounds(Extend(seen, fs[..|fs| - 1]));
    }
  }

  lemma {:induction false} AcceptedAscends(events: seq<FeedEvent>)
    requires forall n :: 0 <= n < |events| && events[n].Snapshot? ==> Ascending(events[n].fills)
    ensures Ascending(AcceptedFills(events))
  {
    if events != [] {
      var init, e := events[..|events| - 1], events[|events| - 1];
      AcceptedAscends(init);
      if e.Live? {
        ExtendAscends(AcceptedFills(init), e.fills);
      }
    }
  }

  lemma YoungestAscends(fs: seq<FeedFill>, capacity: nat)
    requires Ascending(fs)
    ensures Ascending(Youngest(fs, capacity))
    ensures var y := Youngest(fs, capacity); y != [] ==> fs != [] && y[|y| - 1] == fs[|fs| - 1]
  {
  }

  /** If the venue's snapshots ascend, so does the ring, whatever the live batches contain. */
  lemma {:induction false} RingAscends(capacity: nat, events: seq<FeedEvent>)
    requires forall n :: 0 <= n < |events| && events[n].Snapshot? ==> Ascending(events[n].fills)
    ensures Ascending(AcceptedFills(events)) && Ascending(RunFeed(capacity, events).fills)
    ensures var r := RunFeed(capacity, events); r.fills != [] ==> r.highest == r.fills[|r.fills| - 1].seqNo
  {
    AcceptedAscends(events);
    RingHoldsYoungest(capacity, events);
    YoungestAscends(AcceptedFills(events), capacity);
    HighestBounds(AcceptedFills(events));
  }

  // ---------------------------------------------------------------------------
  // The ring as the feed task keeps it
  // ---------------------------------------------------------------------------

  class FillsBuffer {
    var fills: seq<FeedFill>
    const capacity: nat
    var highest: nat
    var synced: bool

    ghost function View(): Ring
      reads this
    {
      Ring(fills, capacity, highest, synced)
    }

    constructor (capacity: nat)
      ensures View() == NewRing(capacity)
    {
      this.capacity := capacity;
      fills, highest, synced := [], 0, false;
    }

    method PushFill(f: FeedFill)
      modifies this`fills
      ensures fills == Push(old(fills), capacity, f)
    {
      if |fills| == capacity && fills != [] {
        fills := fills[1..];
      }
      fills := fills + [f];
    }

    method ApplySnapshot(fs: seq<FeedFill>)
      modifies this
      ensures View() == OnSnapshot(old(View()), fs)
    {
      fills, highest := [], 0;
      for n := 0 to |fs|
        invariant View() == Refilled(old(View()), fs[..n])
      {
        assert fs[..n + 1][..n] == fs[..n];
        highest := Max(highest, fs[n].seqNo);
        PushFill(fs[n]);
      }
      assert fs[..|fs|] == fs;
      synced := true;
    }

    /** Returns how many fills were appended and whether a number was skipped on the way. */
    method ApplyFills(fs: seq<FeedFill>) returns (appended: nat, duplicates: nat, gap: bool)
      modifies this
      ensures View() == OnFills(old(View()), fs)
      ensures appended == |Taken(old(View()), fs)| && duplicates == |fs| - appended
      ensures gap <==> Jumps(old(highest), Taken(old(View()), fs))
    {
      appended, duplicates, gap := 0, 0, false;
      ghost var r := View();
      for n := 0 to |fs|
        invariant View() == OnFills(r, fs[..n])
        invariant appended == |Taken(r, fs[..n])| && duplicates == n - appended
        invariant gap <==> Jumps(r.highest, Taken(r, fs[..n]))
      {
        TakenMore(r, fs, n);
        if fs[n].seqNo <= highest {
          duplicates := duplicates + 1;
        } else {
          if highest != 0 && fs[n].seqNo > highest + 1 {
            gap := true;
          }
          highest := fs[n].seqNo;
          PushFill(fs[n]);
          appended := appended + 1;
        }
      }
      assert fs[..|fs|] == fs;
    }

    method Invalidate()
      modifies this
      ensures View() == OnInvalidate(old(View()))
    {
      fills, highest, synced := [], 0, false;
    }
  }
}
