/** What the recorded fills amount to, told by the fills themselves: order totals, order status, positions. */
module Bookings {
  import opened Prelude
  import opened FillsRing
  import opened Reconcile
  import OrderFills
  import Ledger
  import LedgerLaws

  // ---------------------------------------------------------------------------
  // Sums over the recorded fills of an order
  // ---------------------------------------------------------------------------

  function QtyOf(f: FeedFill): real {
    f.qty
  }

  function FeeOf(f: FeedFill): real {
    f.fee
  }

  function ValueOf(f: FeedFill): real {
    f.qty * f.price
  }

  /** Summed over the recorded fills of order `i`. */
  function RecordedSum(applied: seq<Booking>, i: nat, g: FeedFill -> real): real {
    if applied == [] then 0.0
    else
      var b := applied[|applied| - 1];
      RecordedSum(applied[..|applied| - 1], i, g) + if b.order == Some(i) then g(b.fill) else 0.0
  }

  function RecordedCount(applied: seq<Booking>, i: nat): nat {
    if applied == [] then 0
    else RecordedCount(applied[..|applied| - 1], i) + if applied[|applied| - 1].order == Some(i) then 1 else 0
  }

  lemma {:induction false} TotalsAreSums(applied: seq<Booking>, i: nat)
    ensures var xs := ExecutionsFor(applied, i);
            && OrderFills.Total(OrderFills.Qty, xs) == RecordedSum(applied, i, QtyOf)
            && OrderFills.Total(OrderFills.Fee, xs) == RecordedSum(applied, i, FeeOf)
            && OrderFills.Total(OrderFills.Value, xs) == RecordedSum(applied, i, ValueOf)
            && |xs| == RecordedCount(applied, i)
  {
    if applied != [] {
      var init, b := applied[..|applied| - 1], applied[|applied| - 1];
      TotalsAreSums(init, i);
      var xs := ExecutionsFor(init, i);
      if b.order == Some(i) {
        assert (xs + [ExecutionOf(b.fill)])[..|xs|] == xs;
      } else {
        assert xs + [] == xs;
      }
    }
  }

  /** Quantity, fees and value of an order are the sums over its recorded fills; without any there is no average. */
  ghost predicate TotalsTell(st: Store, i: nat)
    requires i < |st.orders|
  {
    var p := st.orders[i].progress;
    && p.filled == RecordedSum(st.applied, i, QtyOf)
    && p.fees == RecordedSum(st.applied, i, FeeOf)
    && (RecordedCount(st.applied, i) > 0 ==>
          p.average.Some? && p.average.value * p.filled == RecordedSum(st.applied, i, ValueOf))
  }

  lemma ExactTotalsTell(st: Store, i: nat)
    requires Exact(st) && i < |st.orders|
    ensures TotalsTell(st, i)
  {
    assert OrderTotalsOk(st, i);
    ExactOrderSums(st, i);
    TotalsAreSums(st.applied, i);
  }

  /** Over any run of the feed, ticks, aborts, restarts and other writers. */
  lemma TotalsAreOfRecordedFills(capacity: nat, events: seq<Event>, i: nat)
    requires forall n :: 0 <= n < |events| ==> Admissible(events[n])
    requires i < |Run(capacity, events).store.orders|
    ensures TotalsTell(Run(capacity, events).store, i)
  {
    EveryFillOnce(capacity, events);
    ExactTotalsTell(Run(capacity, events).store, i);
  }

  // ---------------------------------------------------------------------------
  // Status
  // ---------------------------------------------------------------------------

  /** Filled for good once the recorded quantity reaches the order's. */
  function StatusFor(before: OrderFills.Status, recorded: real, quantity: real): OrderFills.Status {
    if before == OrderFills.Filled || recorded >= quantity then OrderFills.Filled else OrderFills.PartiallyFilled
  }

  /** The orphan catcher touches no row but the one the fill then belongs to, and fills none. */
  lemma CatchTouchesOne(orders: seq<OrderRow>, f: FeedFill, lookupWorks: bool)
    ensures var caught := AfterOrphanCatch(orders, f, lookupWorks);
            var i := FindByBrokerId(caught, f.orderId);
            && (forall k :: 0 <= k < |orders| && k != i ==> caught[k] == orders[k])
            && (i >= 0 ==> SameOrder(caught[i], orders[i]) && SameTotals(caught[i].progress, orders[i].progress)
                           && (caught[i].progress.status == OrderFills.Filled <==> orders[i].progress.status == OrderFills.Filled))
  {
    if FindByBrokerId(orders, f.orderId) < 0 && f.cli.Some? && lookupWorks {
      var j := FindByCli(orders, f.cli.value);
      if j >= 0 {
        var caught := orders[j := Backfilled(orders[j], f.orderId)];
        assert forall k :: 0 <= k < |orders| && k != j ==> caught[k] == orders[k];
        if orders[j].brokerId.None? {
          assert caught[j].brokerId == Some(f.orderId);
        } else {
          assert caught == orders;
        }
      }
    }
  }

  lemma {:induction false} SumSnoc(applied: seq<Booking>, b: Booking, i: nat)
    ensures RecordedSum(applied + [b], i, QtyOf)
            == RecordedSum(applied, i, QtyOf) + if b.order == Some(i) then b.fill.qty else 0.0
    ensures RecordedCount(applied + [b], i) == RecordedCount(applied, i) + if b.order == Some(i) then 1 else 0
  {
    assert (applied + [b])[..|applied|] == applied;
  }

  /** How one order comes out of a change of the store. */
  ghost predicate OrderTells(st: Store, st': Store, i: nat)
    requires i < |st.orders|
  {
    && |st'.orders| == |st.orders|
    && st'.orders[i].quantity == st.orders[i].quantity
    && RecordedSum(st'.applied, i, QtyOf) >= RecordedSum(st.applied, i, QtyOf)
    && RecordedCount(st'.applied, i) >= RecordedCount(st.applied, i)
    && (if RecordedCount(st'.applied, i) == RecordedCount(st.applied, i) then
          st'.orders[i] == st.orders[i] && RecordedSum(st'.applied, i, QtyOf) == RecordedSum(st.applied, i, QtyOf)
        else
          st'.orders[i].progress.status
          == StatusFor(st.orders[i].progress.status, RecordedSum(st'.applied, i, QtyOf), st.orders[i].quantity))
  }

  /** One fill booked: the order it reaches gets its status from the sum, and every other order is left alone. */
  lemma BookingTells(st: Store, f: FeedFill, lookupWorks: bool, k: nat)
    requires Exact(st) && Sane(st) && Ledger.Sound(st.positions) && Positive(f) && k < |st.orders|
    ensures OrderTells(st, Book(st, f, lookupWorks), k)
    ensures RecordedCount(Book(st, f, lookupWorks).applied, k) > RecordedCount(st.applied, k)
            <==> FindByBrokerId(AfterOrphanCatch(st.orders, f, lookupWorks), f.orderId) == k
  {
    CatchTouchesOne(st.orders, f, lookupWorks);
    var i := FindByBrokerId(AfterOrphanCatch(st.orders, f, lookupWorks), f.orderId);
    SumSnoc(st.applied, Booking(f, if i < 0 then None else Some(i)), k);
    ExactTotalsTell(st, k);
  }

  /** Telling is transitive: Filled is for good and the sum only grows. */
  lemma TellingChains(a: Store, b: Store, c: Store, i: nat)
    requires i < |a.orders| && OrderTells(a, b, i) && OrderTells(b, c, i)
    ensures OrderTells(a, c, i)
  {
  }

  /** What the drain does with one fill. */
  ghost function AfterFill(st: Store, f: FeedFill, lookupWorks: bool): Store
    requires Ledger.Sound(st.positions) && Sane(st) && Positive(f)
  {
    if Recorded(st, f.fillId) then st else Book(st, f, lookupWorks)
  }

  lemma TakingTells(st: Store, f: FeedFill, lookupWorks: bool, i: nat)
    requires Exact(st) && Sane(st) && Ledger.Sound(st.positions) && Positive(f) && i < |st.orders|
    ensures OrderTells(st, AfterFill(st, f, lookupWorks), i) && Exact(AfterFill(st, f, lookupWorks))
  {
    if !Recorded(st, f.fillId) {
      BookingTells(st, f, lookupWorks, i);
      BookKeepsExact(st, f, lookupWorks);
    }
  }

  lemma {:induction false} DrainTells(st: Store, watermark: nat, fs: seq<FeedFill>, luck: seq<Luck>, n: nat, i: nat)
    requires Exact(st) && Sane(st) && Ledger.Sound(st.positions) && AllPositive(fs) && n <= |fs| && i < |st.orders|
    ensures OrderTells(st, Drain(st, watermark, fs, luck, n).store, i)
    decreases |fs| - n
  {
    if n < |fs| && LuckAt(luck, n) != DbError {
      DrainStep(st, watermark, fs, luck, n);
      var next, watermark' := AfterFill(st, fs[n], LuckAt(luck, n) == Works), Max(watermark, fs[n].seqNo);
      TakingTells(st, fs[n], LuckAt(luck, n) == Works, i);
      DrainTells(next, watermark', fs, luck, n + 1, i);
      TellingChains(st, next, Drain(next, watermark', fs, luck, n + 1).store, i);
    }
  }

  /**
   After any run, a tick leaves every order it records a fill of filled exactly when it was before or the sum of its
   recorded quantities has reached its quantity, and partially filled otherwise; it leaves every other order alone.
   */
  lemma TickTellsStatus(capacity: nat, events: seq<Event>, luck: seq<Luck>, i: nat)
    requires forall n :: 0 <= n < |events| ==> Admissible(events[n])
    requires i < |Run(capacity, events).store.orders|
    ensures var w := Run(capacity, events); OrderTells(w.store, Step(w, Tick(luck)).store, i)
  {
    var w := Run(capacity, events);
    EveryFillOnce(capacity, events);
    if w.ring.synced && w.ring.highest > w.watermark {
      var fs := Above(w.ring.fills, w.watermark);
      assert forall k :: 0 <= k < |fs| ==> fs[k] in fs;
      DrainTells(w.store, w.watermark, fs, luck, 0, i);
    }
  }

  // ---------------------------------------------------------------------------
  // Positions
  // ---------------------------------------------------------------------------

  /** Contracts bought minus contracts sold of the instrument by the recorded fills. */
  function NetRecorded(applied: seq<Booking>, orders: seq<OrderRow>, symbol: string, broker: string): real {
    if applied == [] then 0.0
    else
      var b := applied[|applied| - 1];
      NetRecorded(applied[..|applied| - 1], orders, symbol, broker)
      + if b.order.Some? && b.order.value < |orders| then
          var o := orders[b.order.value];
          if o.sleeve.Some? && o.symbol == symbol && o.broker == broker
          then (if o.isBuy then b.fill.qty else -b.fill.qty) else 0.0
        else 0.0
  }

  lemma {:induction false} FlowSnoc(fills: seq<Ledger.Fill>, f: Ledger.Fill, key: Ledger.Key)
    ensures LedgerLaws.TotalFlow(fills + [f], key) == LedgerLaws.TotalFlow(fills, key) + LedgerLaws.FlowOf(f, key)
  {
    if fills == [] {
      assert fills + [f] == [f] && [f][1..] == [];
    } else {
      FlowSnoc(fills[1..], f, key);
      assert (fills + [f])[1..] == fills[1..] + [f];
    }
  }

  lemma {:induction false} FlowIsNet(applied: seq<Booking>, orders: seq<OrderRow>, symbol: string, broker: string)
    ensures LedgerLaws.TotalFlow(PositionFills(applied, orders), Ledger.Key(symbol, broker))
            == NetRecorded(applied, orders, symbol, broker)
  {
    if applied != [] {
      var init, b := applied[..|applied| - 1], applied[|applied| - 1];
      FlowIsNet(init, orders, symbol, broker);
      var fills := PositionFills(init, orders);
      if MovesPosition(b, orders) {
        FlowSnoc(fills, PositionFill(orders[b.order.value], b.fill), Ledger.Key(symbol, broker));
      } else {
        assert fills + [] == fills;
      }
    }
  }

  /** Over any run, the open position of an instrument is what the recorded fills of its orders bought minus sold. */
  lemma PositionIsNetOfRecordedFills(capacity: nat, events: seq<Event>, symbol: string, broker: string)
    requires forall n :: 0 <= n < |events| ==> Admissible(events[n])
    ensures var st := Run(capacity, events).store;
            Ledger.OpenQuantity(st.positions, Ledger.Key(symbol, broker)) == NetRecorded(st.applied, st.orders, symbol, broker)
  {
    var st := Run(capacity, events).store;
    EveryFillOnce(capacity, events);
    LedgerLaws.OpenQuantityIsNetFlow([], PositionFills(st.applied, st.orders), Ledger.Key(symbol, broker));
    FlowIsNet(st.applied, st.orders, symbol, broker);
  }

  // ---------------------------------------------------------------------------
  // Nothing is left undone
  // ---------------------------------------------------------------------------

  lemma {:induction false} DrainRecordsAll(st: Store, watermark: nat, fs: seq<FeedFill>, luck: seq<Luck>, n: nat, k: nat)
    requires Sane(st) && Ledger.Sound(st.positions) && AllPositive(fs) && n <= k < |fs|
    requires forall j :: LuckAt(luck, j) != DbError
    ensures var d := Drain(st, watermark, fs, luck, n);
            d.ok && Recorded(d.store, fs[k].fillId) && d.watermark >= fs[k].seqNo
    decreases |fs| - n
  {
    DrainStep(st, watermark, fs, luck, n);
    var works := LuckAt(luck, n) == Works;
    var next := if Recorded(st, fs[n].fillId) then st else Book(st, fs[n], works);
    var watermark' := Max(watermark, fs[n].seqNo);
    if k > n {
      DrainRecordsAll(next, watermark', fs, luck, n + 1, k);
    } else {
      if !Recorded(st, fs[n].fillId) {
        BookRecords(st, fs[n], works);
      }
      RecordedStays(next, watermark', fs, luck, n + 1, fs[n].fillId);
      DrainEnds(next, watermark', fs, luck, n + 1);
    }
  }

  lemma {:induction false} DrainEnds(st: Store, watermark: nat, fs: seq<FeedFill>, luck: seq<Luck>, n: nat)
    requires Sane(st) && Ledger.Sound(st.positions) && AllPositive(fs) && n <= |fs|
    requires forall j :: LuckAt(luck, j) != DbError
    ensures var d := Drain(st, watermark, fs, luck, n); d.ok && d.watermark >= watermark
    decreases |fs| - n
  {
    if n < |fs| {
      DrainStep(st, watermark, fs, luck, n);
      var next := if Recorded(st, fs[n].fillId) then st else Book(st, fs[n], LuckAt(luck, n) == Works);
      DrainEnds(next, Max(watermark, fs[n].seqNo), fs, luck, n + 1);
    }
  }

  lemma RingIsBelowItsMark(capacity: nat, events: seq<Event>, f: FeedFill)
    requires forall n :: 0 <= n < |events| ==> Admissible(events[n])
    requires f in Run(capacity, events).ring.fills
    ensures f.seqNo <= Run(capacity, events).ring.highest
  {
    RingIsItsFeed(capacity, events);
    RingHoldsYoungest(capacity, FeedOf(events));
    HighestBounds(AcceptedFills(FeedOf(events)));
  }

  /** After any run, a tick that meets no database error records every fill in the synced ring above the watermark. */
  lemma CleanTickRecordsAll(capacity: nat, events: seq<Event>, luck: seq<Luck>, f: FeedFill)
    requires (forall n :: 0 <= n < |events| ==> Admissible(events[n])) && forall j :: LuckAt(luck, j) != DbError
    requires var w := Run(capacity, events); w.ring.synced && f in w.ring.fills && f.seqNo > w.watermark
    ensures var w' := Step(Run(capacity, events), Tick(luck));
            Recorded(w'.store, f.fillId) && w'.watermark >= f.seqNo
  {
    var w := Run(capacity, events);
    RingIsBelowItsMark(capacity, events, f);
    var fs := Above(w.ring.fills, w.watermark);
    assert forall k :: 0 <= k < |fs| ==> fs[k] in fs;
    assert f in fs;
    var k :| 0 <= k < |fs| && fs[k] == f;
    DrainRecordsAll(w.store, w.watermark, fs, luck, 0, k);
  }
}
