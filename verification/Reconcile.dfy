/**
 Fill reconciliation: draining the ring into the order and position tables, once per fill id,
 across aborted ticks, reconnects and restarts. A fill's order, position and record writes
 succeed or fail together.
 */
module Reconcile {
  import opened Prelude
  import opened FillsRing
  import OrderFills
  import Ledger

  datatype OrderRow = OrderRow(brokerId: Option<string>, cli: Option<string>, symbol: string, broker: string,
                               isBuy: bool, sleeve: Option<string>, quantity: real, progress: OrderFills.Progress)

  /** An `applied_fills` row, together with the order the fill was matched to when it was recorded. */
  datatype Booking = Booking(fill: FeedFill, order: Option<nat>)

  datatype Store = Store(orders: seq<OrderRow>, positions: seq<Ledger.Row>, applied: seq<Booking>)

  const BROKER_TAG: string := "kraken_futures"

  /** What the database does to one fill: serves it, refuses it, or fails only the orphan lookup. */
  datatype Luck = Works | DbError | OrphanLookupError

  function LuckAt(luck: seq<Luck>, n: nat): Luck {
    if n < |luck| then luck[n] else Works
  }

  predicate Recorded(st: Store, fillId: string) {
    exists b :: 0 <= b < |st.applied| && st.applied[b].fill.fillId == fillId
  }

  function FindByBrokerId(orders: seq<OrderRow>, id: string): (i: int)
    ensures -1 <= i < |orders|
    ensures i >= 0 ==> orders[i].brokerId == Some(id)
    ensures i < 0 ==> forall k :: 0 <= k < |orders| ==> orders[k].brokerId != Some(id)
  {
    if orders == [] then -1
    else
      var i := FindByBrokerId(orders[..|orders| - 1], id);
      if i >= 0 then i else if orders[|orders| - 1].brokerId == Some(id) then |orders| - 1 else -1
  }

  function FindByCli(orders: seq<OrderRow>, cli: string): (i: int)
    ensures -1 <= i < |orders|
    ensures i >= 0 ==> orders[i].broker == BROKER_TAG && orders[i].cli == Some(cli)
    ensures i < 0 ==> forall k :: 0 <= k < |orders| ==> !(orders[k].broker == BROKER_TAG && orders[k].cli == Some(cli))
  {
    if orders == [] then -1
    else
      var i := FindByCli(orders[..|orders| - 1], cli);
      var o := orders[|orders| - 1];
      if i >= 0 then i else if o.broker == BROKER_TAG && o.cli == Some(cli) then |orders| - 1 else -1
  }

  function Backfilled(o: OrderRow, id: string): OrderRow {
    if o.brokerId.Some? then o
    else
      var s := o.progress.status;
      o.(brokerId := Some(id),
         progress := o.progress.(status :=
           if s == OrderFills.PendingSubmission || s == OrderFills.Uncertain then OrderFills.Acknowledged else s))
  }

  /** The order rows once the orphan catcher has had its say. */
  function AfterOrphanCatch(orders: seq<OrderRow>, f: FeedFill, lookupWorks: bool): (r: seq<OrderRow>)
    ensures |r| == |orders|
  {
    if FindByBrokerId(orders, f.orderId) >= 0 || f.cli.None? || !lookupWorks then orders
    else
      var i := FindByCli(orders, f.cli.value);
      if i < 0 then orders else orders[i := Backfilled(orders[i], f.orderId)]
  }

  predicate Positive(f: FeedFill) {
    f.qty > 0.0 && f.price > 0.0
  }

  function ExecutionOf(f: FeedFill): OrderFills.Execution {
    OrderFills.Execution(f.qty, f.price, f.fee)
  }

  /** The position-side view of a fill: instrument, side and sleeve come from the matched order. */
  function PositionFill(o: OrderRow, f: FeedFill): Ledger.Fill
    requires o.sleeve.Some?
  {
    Ledger.Fill(Ledger.Key(o.symbol, o.broker), o.sleeve.value, o.isBuy, f.qty, f.price)
  }

  predicate Sane(st: Store) {
    forall i :: 0 <= i < |st.orders| ==> st.orders[i].progress.filled >= 0.0
  }

  /** The three writes of a fill that belongs to order `i`: order, position, record. */
  function BookMatched(st: Store, f: FeedFill, i: nat): Store
    requires Ledger.Sound(st.positions) && Sane(st) && Positive(f) && i < |st.orders|
  {
    var o := st.orders[i];
    Store(st.orders[i := o.(progress := OrderFills.ApplyFill(o.progress, o.quantity, ExecutionOf(f)))],
          if o.sleeve.None? then st.positions else Ledger.Apply(st.positions, PositionFill(o, f)).0,
          st.applied + [Booking(f, Some(i))])
  }

  /** Booking one unrecorded fill; one that belongs to no order is recorded all the same. */
  function Book(st: Store, f: FeedFill, lookupWorks: bool): Store
    requires Ledger.Sound(st.positions) && Sane(st) && Positive(f)
  {
    var caught := st.(orders := AfterOrphanCatch(st.orders, f, lookupWorks));
    var i := FindByBrokerId(caught.orders, f.orderId);
    if i < 0 then caught.(applied := st.applied + [Booking(f, None)]) else BookMatched(caught, f, i)
  }

  lemma BookStaysSane(st: Store, f: FeedFill, lookupWorks: bool)
    requires Ledger.Sound(st.positions) && Sane(st) && Positive(f)
    ensures Ledger.Sound(Book(st, f, lookupWorks).positions) && Sane(Book(st, f, lookupWorks))
  {
    var orders := AfterOrphanCatch(st.orders, f, lookupWorks);
    var i := FindByBrokerId(orders, f.orderId);
    if i >= 0 && orders[i].sleeve.Some? {
      Ledger.ApplyStaysSound(st.positions, PositionFill(orders[i], f));
    }
  }

  predicate AllPositive(fs: seq<FeedFill>) {
    forall i :: 0 <= i < |fs| ==> Positive(fs[i])
  }

  datatype Drained = Drained(store: Store, watermark: nat, ok: bool)

  /** The drain loop from position `n`: stop at the first database error. */
  function Drain(st: Store, watermark: nat, fs: seq<FeedFill>, luck: seq<Luck>, n: nat): (d: Drained)
    requires Ledger.Sound(st.positions) && Sane(st) && AllPositive(fs) && n <= |fs|
    ensures Ledger.Sound(d.store.positions) && Sane(d.store)
    decreases |fs| - n
  {
    if n == |fs| then Drained(st, watermark, true)
    else if LuckAt(luck, n) == DbError then Drained(st, watermark, false)
    else
      var watermark' := Max(watermark, fs[n].seqNo);
      if Recorded(st, fs[n].fillId) then Drain(st, watermark', fs, luck, n + 1)
      else
        BookStaysSane(st, fs[n], LuckAt(luck, n) == Works);
        Drain(Book(st, fs[n], LuckAt(luck, n) == Works), watermark', fs, luck, n + 1)
  }

  /** The ring's fills above the watermark, in ring order. */
  function Above(fs: seq<FeedFill>, watermark: nat): (r: seq<FeedFill>)
    ensures forall x :: x in r <==> x in fs && x.seqNo > watermark
  {
    if fs == [] then []
    else
      var r := Above(fs[..|fs| - 1], watermark);
      assert fs == fs[..|fs| - 1] + [fs[|fs| - 1]];
      if fs[|fs| - 1].seqNo > watermark then r + [fs[|fs| - 1]] else r
  }

  function ReconcileOnce(st: Store, ring: Ring, watermark: nat, luck: seq<Luck>): (d: Drained)
    requires Ledger.Sound(st.positions) && Sane(st) && AllPositive(ring.fills)
    ensures Ledger.Sound(d.store.positions) && Sane(d.store)
  {
    if !ring.synced || ring.highest <= watermark then Drained(st, watermark, true)
    else
      var fs := Above(ring.fills, watermark);
      assert forall i :: 0 <= i < |fs| ==> fs[i] in fs;
      Drain(st, watermark, fs, luck, 0)
  }

  // ---------------------------------------------------------------------------
  // Runs
  // ---------------------------------------------------------------------------

  datatype World = World(store: Store, ring: Ring, watermark: nat)

  datatype Event =
    | Feed(feed: FeedEvent)
    | Tick(luck: seq<Luck>)
    | Restart
    | OrderInserted(row: OrderRow)
    | BrokerIdWritten(order: nat, id: string, status: OrderFills.Status)
    | StatusWritten(order: nat, status: OrderFills.Status)

  ghost predicate Admissible(e: Event) {
    match e
    case Feed(Snapshot(fs)) => AllPositive(fs)
    case Feed(Live(fs)) => AllPositive(fs)
    case OrderInserted(row) => row.progress == OrderFills.Untouched(row.progress.status)
    case _ => true
  }

  /** Other tasks touch order rows too, but never their fill totals. */
  function Interfere(st: Store, e: Event): Store {
    match e
    case OrderInserted(row) => st.(orders := st.orders + [row])
    case BrokerIdWritten(i, id, status) =>
      if i < |st.orders| then
        st.(orders := st.orders[i := st.orders[i].(brokerId := Some(id), progress := st.orders[i].progress.(status := status))])
      else st
    case StatusWritten(i, status) =>
      if i < |st.orders| then
        st.(orders := st.orders[i := st.orders[i].(progress := st.orders[i].progress.(status := status))])
      else st
    case _ => st
  }

  ghost predicate Ready(w: World) {
    Ledger.Sound(w.store.positions) && Sane(w.store) && AllPositive(w.ring.fills)
  }

  ghost function Step(w: World, e: Event): (w': World)
    requires Ready(w) && Admissible(e)
    ensures Ready(w')
  {
    match e
    case Feed(f) =>
      FeedStaysPositive(w.ring, f);
      w.(ring := OnEvent(w.ring, f))
    case Tick(luck) =>
      var d := ReconcileOnce(w.store, w.ring, w.watermark, luck);
      w.(store := d.store, watermark := d.watermark)
    case Restart => World(w.store, NewRing(w.ring.capacity), 0)
    case _ => w.(store := Interfere(w.store, e))
  }

  lemma {:induction false} RefillStaysPositive(r: Ring, fs: seq<FeedFill>)
    requires AllPositive(fs)
    ensures AllPositive(Refilled(r, fs).fills)
  {
    if fs != [] {
      RefillStaysPositive(r, fs[..|fs| - 1]);
    }
  }

  lemma {:induction false} FillsStayPositive(r: Ring, fs: seq<FeedFill>)
    requires AllPositive(r.fills) && AllPositive(fs)
    ensures AllPositive(OnFills(r, fs).fills)
  {
    if fs != [] {
      FillsStayPositive(r, fs[..|fs| - 1]);
    }
  }

  lemma FeedStaysPositive(r: Ring, f: FeedEvent)
    requires AllPositive(r.fills) && Admissible(Feed(f))
    ensures AllPositive(OnEvent(r, f).fills)
  {
    match f
    case Snapshot(fs) => RefillStaysPositive(r, fs);
    case Live(fs) => FillsStayPositive(r, fs);
    case Disconnect =>
  }

  ghost function Run(capacity: nat, events: seq<Event>): (w: World)
    requires forall n :: 0 <= n < |events| ==> Admissible(events[n])
    ensures Ready(w)
  {
    if events == [] then World(Store([], [], []), NewRing(capacity), 0)
    else Step(Run(capacity, events[..|events| - 1]), events[|events| - 1])
  }

  // ---------------------------------------------------------------------------
  // Exactly once
  // ---------------------------------------------------------------------------

  /** The executions recorded for order `i`, in record order. */
  function ExecutionsFor(applied: seq<Booking>, i: nat): seq<OrderFills.Execution> {
    if applied == [] then []
    else
      var b := applied[|applied| - 1];
      ExecutionsFor(applied[..|applied| - 1], i) + if b.order == Some(i) then [ExecutionOf(b.fill)] else []
  }

  /** The position fills of the recorded fills, in record order. */
  function PositionFills(applied: seq<Booking>, orders: seq<OrderRow>): seq<Ledger.Fill> {
    if applied == [] then []
    else
      var b := applied[|applied| - 1];
      PositionFills(applied[..|applied| - 1], orders)
      + if MovesPosition(b, orders) then [PositionFill(orders[b.order.value], b.fill)] else []
  }

  predicate SameTotals(p: OrderFills.Progress, q: OrderFills.Progress) {
    p.filled == q.filled && p.average == q.average && p.fees == q.fees
  }

  ghost predicate OrderTotalsOk(st: Store, i: nat)
    requires i < |st.orders|
  {
    var xs := ExecutionsFor(st.applied, i);
    && OrderFills.AllPositive(xs)
    && SameTotals(st.orders[i].progress,
                  OrderFills.ApplyAll(OrderFills.Untouched(OrderFills.PendingSubmission), st.orders[i].quantity, xs))
  }

  /** No fill id twice, and every booking names an order that exists. */
  ghost predicate BookingsOk(applied: seq<Booking>, orders: nat) {
    && (forall b, c :: 0 <= b < c < |applied| ==> applied[b].fill.fillId != applied[c].fill.fillId)
    && (forall b :: 0 <= b < |applied| ==>
          Positive(applied[b].fill) && (applied[b].order.Some? ==> applied[b].order.value < orders))
  }

  ghost predicate PositionsOk(st: Store) {
    && Ledger.AllPositive(PositionFills(st.applied, st.orders))
    && st.positions == Ledger.ApplyAll([], PositionFills(st.applied, st.orders))
  }

  ghost predicate Exact(st: Store) {
    && BookingsOk(st.applied, |st.orders|)
    && (forall i :: 0 <= i < |st.orders| ==> OrderTotalsOk(st, i))
    && PositionsOk(st)
  }

  lemma BookingsGrow(st: Store, b: Booking)
    requires BookingsOk(st.applied, |st.orders|) && Positive(b.fill) && !Recorded(st, b.fill.fillId)
    requires b.order.Some? ==> b.order.value < |st.orders|
    ensures BookingsOk(st.applied + [b], |st.orders|)
  {
  }

  /** What no task ever changes about an order row that exists. */
  predicate SameOrder(o: OrderRow, p: OrderRow) {
    o.symbol == p.symbol && o.broker == p.broker && o.isBuy == p.isBuy && o.sleeve == p.sleeve && o.quantity == p.quantity
  }

  ghost predicate Continues(orders: seq<OrderRow>, orders': seq<OrderRow>) {
    && |orders| <= |orders'|
    && (forall i :: 0 <= i < |orders| ==> SameOrder(orders[i], orders'[i]))
  }

  lemma {:induction false} PositionFillsStay(applied: seq<Booking>, orders: seq<OrderRow>, orders': seq<OrderRow>)
    requires Continues(orders, orders')
    requires forall b :: 0 <= b < |applied| && applied[b].order.Some? ==> applied[b].order.value < |orders|
    ensures PositionFills(applied, orders) == PositionFills(applied, orders')
  {
    if applied != [] {
      PositionFillsStay(applied[..|applied| - 1], orders, orders');
    }
  }

  lemma {:induction false} NoExecutionsBeyond(applied: seq<Booking>, i: nat)
    requires forall b :: 0 <= b < |applied| ==> applied[b].order != Some(i)
    ensures ExecutionsFor(applied, i) == []
  {
    if applied != [] {
      NoExecutionsBeyond(applied[..|applied| - 1], i);
    }
  }

  /** Tasks that leave the fill totals alone leave the tables exact. */
  lemma InterferenceKeepsExact(st: Store, orders: seq<OrderRow>)
    requires Exact(st) && Continues(st.orders, orders)
    requires forall i :: 0 <= i < |st.orders| ==> SameTotals(orders[i].progress, st.orders[i].progress)
    requires forall i :: |st.orders| <= i < |orders| ==> orders[i].progress == OrderFills.Untouched(orders[i].progress.status)
    ensures Exact(st.(orders := orders))
  {
    var st' := st.(orders := orders);
    PositionFillsStay(st.applied, st.orders, orders);
    forall i | 0 <= i < |orders| ensures OrderTotalsOk(st', i) {
      if i < |st.orders| {
        assert OrderTotalsOk(st, i);
      } else {
        NoExecutionsBeyond(st.applied, i);
      }
    }
  }

  lemma {:induction false} ApplyAllUnfolds(rows: seq<Ledger.Row>, first: Ledger.Fill, rest: seq<Ledger.Fill>)
    requires Ledger.Sound(rows) && Ledger.Positive(first) && Ledger.AllPositive(rest)
    ensures Ledger.AllPositive([first] + rest) && Ledger.Sound(Ledger.Apply(rows, first).0)
    ensures Ledger.ApplyAll(rows, [first] + rest) == Ledger.ApplyAll(Ledger.Apply(rows, first).0, rest)
  {
    Ledger.ApplyStaysSound(rows, first);
    assert ([first] + rest)[1..] == rest;
  }

  lemma {:induction false} ApplySnoc(rows: seq<Ledger.Row>, fills: seq<Ledger.Fill>, f: Ledger.Fill)
    requires Ledger.Sound(rows) && Ledger.AllPositive(fills) && Ledger.Positive(f)
    ensures Ledger.AllPositive(fills + [f])
    ensures Ledger.ApplyAll(rows, fills + [f]) == Ledger.Apply(Ledger.ApplyAll(rows, fills), f).0
    decreases |fills|
  {
    if fills == [] {
      ApplyAllUnfolds(rows, f, []);
      assert [] + [f] == [f] + [];
    } else {
      var first, rest := fills[0], fills[1..];
      assert fills == [first] + rest && fills + [f] == [first] + (rest + [f]);
      ApplyAllUnfolds(rows, first, rest);
      ApplySnoc(Ledger.Apply(rows, first).0, rest, f);
      ApplyAllUnfolds(rows, first, rest + [f]);
    }
  }

  lemma ExecutionsSnoc(applied: seq<Booking>, b: Booking, i: nat)
    ensures b.order == Some(i) ==> ExecutionsFor(applied + [b], i) == ExecutionsFor(applied, i) + [ExecutionOf(b.fill)]
    ensures b.order != Some(i) ==> ExecutionsFor(applied + [b], i) == ExecutionsFor(applied, i)
  {
  }

  predicate MovesPosition(b: Booking, orders: seq<OrderRow>) {
    b.order.Some? && b.order.value < |orders| && orders[b.order.value].sleeve.Some?
  }

  lemma {:induction false} PositionFillsSnoc(applied: seq<Booking>, b: Booking, orders: seq<OrderRow>)
    ensures MovesPosition(b, orders) ==>
              PositionFills(applied + [b], orders)
              == PositionFills(applied, orders) + [PositionFill(orders[b.order.value], b.fill)]
    ensures !MovesPosition(b, orders) ==> PositionFills(applied + [b], orders) == PositionFills(applied, orders)
  {
  }

  lemma MatchedTotals(o: OrderRow, xs: seq<OrderFills.Execution>, x: OrderFills.Execution)
    requires OrderFills.AllPositive(xs) && x.qty > 0.0
    requires SameTotals(o.progress, OrderFills.ApplyAll(OrderFills.Untouched(OrderFills.PendingSubmission), o.quantity, xs))
    ensures o.progress.filled >= 0.0 && OrderFills.AllPositive(xs + [x])
    ensures SameTotals(OrderFills.ApplyFill(o.progress, o.quantity, x),
                       OrderFills.ApplyAll(OrderFills.Untouched(OrderFills.PendingSubmission), o.quantity, xs + [x]))
  {
  }

  /** Recording an unmatched fill. */
  lemma UnmatchedKeepsExact(st: Store, f: FeedFill)
    requires Exact(st) && Positive(f) && !Recorded(st, f.fillId)
    ensures Exact(st.(applied := st.applied + [Booking(f, None)]))
  {
    var st' := st.(applied := st.applied + [Booking(f, None)]);
    BookingsGrow(st, Booking(f, None));
    PositionFillsSnoc(st.applied, Booking(f, None), st.orders);
    forall i | 0 <= i < |st'.orders| ensures OrderTotalsOk(st', i) {
      assert OrderTotalsOk(st, i);
      ExecutionsSnoc(st.applied, Booking(f, None), i);
    }
  }

  lemma MatchedOrderTotals(st: Store, st': Store, f: FeedFill, i: nat, k: nat)
    requires i < |st.orders| && k < |st.orders| && Positive(f) && OrderTotalsOk(st, k)
    requires st.orders[i].progress.filled >= 0.0
    requires st'.orders == st.orders[i := st.orders[i].(progress :=
                             OrderFills.ApplyFill(st.orders[i].progress, st.orders[i].quantity, ExecutionOf(f)))]
    requires st'.applied == st.applied + [Booking(f, Some(i))]
    ensures OrderTotalsOk(st', k)
  {
    ExecutionsSnoc(st.applied, Booking(f, Some(i)), k);
    if k == i {
      MatchedTotals(st.orders[i], ExecutionsFor(st.applied, i), ExecutionOf(f));
    }
  }

  lemma MatchedPositions(st: Store, orders: seq<OrderRow>, f: FeedFill, i: nat)
    requires Exact(st) && Ledger.Sound(st.positions) && Positive(f) && i < |st.orders| && Continues(st.orders, orders)
    ensures var fills := PositionFills(st.applied + [Booking(f, Some(i))], orders);
            && Ledger.AllPositive(fills)
            && Ledger.ApplyAll([], fills)
               == if st.orders[i].sleeve.None? then st.positions
                  else Ledger.Apply(st.positions, PositionFill(st.orders[i], f)).0
  {
    PositionFillsStay(st.applied, st.orders, orders);
    PositionFillsSnoc(st.applied, Booking(f, Some(i)), orders);
    assert SameOrder(st.orders[i], orders[i]);
    if st.orders[i].sleeve.Some? {
      ApplySnoc([], PositionFills(st.applied, st.orders), PositionFill(st.orders[i], f));
    }
  }

  /** Recording a matched fill: the order's totals and the positions move by exactly this fill. */
  lemma MatchedKeepsExact(st: Store, f: FeedFill, i: nat)
    requires Exact(st) && Sane(st) && Ledger.Sound(st.positions) && Positive(f) && !Recorded(st, f.fillId)
    requires i < |st.orders|
    ensures Exact(BookMatched(st, f, i))
  {
    var st' := BookMatched(st, f, i);
    var orders' := st'.orders;
    BookingsGrow(st, Booking(f, Some(i)));
    MatchedPositions(st, orders', f, i);
    assert PositionsOk(st');
    forall k | 0 <= k < |orders'| ensures OrderTotalsOk(st', k) {
      MatchedOrderTotals(st, st', f, i, k);
    }
  }

  lemma OrphanCatchKeepsExact(st: Store, f: FeedFill, lookupWorks: bool)
    requires Exact(st) && Sane(st)
    ensures Exact(st.(orders := AfterOrphanCatch(st.orders, f, lookupWorks)))
    ensures Sane(st.(orders := AfterOrphanCatch(st.orders, f, lookupWorks)))
  {
    InterferenceKeepsExact(st, AfterOrphanCatch(st.orders, f, lookupWorks));
  }

  lemma BookKeepsExact(st: Store, f: FeedFill, lookupWorks: bool)
    requires Exact(st) && Sane(st) && Ledger.Sound(st.positions) && Positive(f) && !Recorded(st, f.fillId)
    ensures Exact(Book(st, f, lookupWorks))
  {
    OrphanCatchKeepsExact(st, f, lookupWorks);
    var caught := st.(orders := AfterOrphanCatch(st.orders, f, lookupWorks));
    assert !Recorded(caught, f.fillId);
    var i := FindByBrokerId(caught.orders, f.orderId);
    if i < 0 {
      UnmatchedKeepsExact(caught, f);
    } else {
      MatchedKeepsExact(caught, f, i);
    }
  }

  lemma {:induction false} DrainKeepsExact(st: Store, watermark: nat, fs: seq<FeedFill>, luck: seq<Luck>, n: nat)
    requires Exact(st) && Sane(st) && Ledger.Sound(st.positions) && AllPositive(fs) && n <= |fs|
    ensures Exact(Drain(st, watermark, fs, luck, n).store)
    decreases |fs| - n
  {
    if n < |fs| && LuckAt(luck, n) != DbError {
      var watermark' := Max(watermark, fs[n].seqNo);
      if Recorded(st, fs[n].fillId) {
        DrainKeepsExact(st, watermark', fs, luck, n + 1);
      } else {
        var works := LuckAt(luck, n) == Works;
        BookKeepsExact(st, fs[n], works);
        BookStaysSane(st, fs[n], works);
        DrainKeepsExact(Book(st, fs[n], works), watermark', fs, luck, n + 1);
      }
    }
  }

  lemma StepKeepsExact(w: World, e: Event)
    requires Ready(w) && Admissible(e) && Exact(w.store)
    ensures Exact(Step(w, e).store)
  {
    match e
    case Tick(luck) =>
      if w.ring.synced && w.ring.highest > w.watermark {
        var fs := Above(w.ring.fills, w.watermark);
        assert forall i :: 0 <= i < |fs| ==> fs[i] in fs;
        DrainKeepsExact(w.store, w.watermark, fs, luck, 0);
      }
    case OrderInserted(row) => InterferenceKeepsExact(w.store, Interfere(w.store, e).orders);
    case BrokerIdWritten(i, id, status) => InterferenceKeepsExact(w.store, Interfere(w.store, e).orders);
    case StatusWritten(i, status) => InterferenceKeepsExact(w.store, Interfere(w.store, e).orders);
    case _ =>
  }

  /**
   Over any run of the feed, ticks, aborts, reconnects, restarts and other writers: no fill id is recorded
   twice, every order's totals are those of its recorded fills, and the positions are their fold.
   */
  lemma {:induction false} EveryFillOnce(capacity: nat, events: seq<Event>)
    requires forall n :: 0 <= n < |events| ==> Admissible(events[n])
    ensures Exact(Run(capacity, events).store)
  {
    if events != [] {
      EveryFillOnce(capacity, events[..|events| - 1]);
      StepKeepsExact(Run(capacity, events[..|events| - 1]), events[|events| - 1]);
    }
  }

  predicate SumsTo(p: OrderFills.Progress, xs: seq<OrderFills.Execution>) {
    && p.filled == OrderFills.Total(OrderFills.Qty, xs)
    && p.fees == OrderFills.Total(OrderFills.Fee, xs)
    && (xs != [] ==> p.average.Some? && p.average.value * p.filled == OrderFills.Total(OrderFills.Value, xs))
  }

  lemma ExactOrderSums(st: Store, i: nat)
    requires i < |st.orders| && OrderTotalsOk(st, i)
    ensures SumsTo(st.orders[i].progress, ExecutionsFor(st.applied, i))
  {
    OrderFills.ExactTotals(OrderFills.PendingSubmission, st.orders[i].quantity, ExecutionsFor(st.applied, i));
  }

  /** In numbers: filled quantity, fees and value are sums over the order's distinct recorded fills. */
  lemma FilledIsSumOfRecorded(capacity: nat, events: seq<Event>, i: nat)
    requires forall n :: 0 <= n < |events| ==> Admissible(events[n])
    requires i < |Run(capacity, events).store.orders|
    ensures var st := Run(capacity, events).store;
            SumsTo(st.orders[i].progress, ExecutionsFor(st.applied, i))
  {
    EveryFillOnce(capacity, events);
    ExactOrderSums(Run(capacity, events).store, i);
  }

  // ---------------------------------------------------------------------------
  // Replays and retries
  // ---------------------------------------------------------------------------

  /** A tick over fills that are all recorded touches no table. */
  lemma {:induction false} ReplayChangesNothing(st: Store, watermark: nat, fs: seq<FeedFill>, luck: seq<Luck>, n: nat)
    requires Sane(st) && Ledger.Sound(st.positions) && AllPositive(fs) && n <= |fs|
    requires forall k :: n <= k < |fs| ==> Recorded(st, fs[k].fillId)
    ensures Drain(st, watermark, fs, luck, n).store == st
    decreases |fs| - n
  {
    if n < |fs| && LuckAt(luck, n) != DbError {
      ReplayChangesNothing(st, Max(watermark, fs[n].seqNo), fs, luck, n + 1);
    }
  }

  /** After the drain, what is still unrecorded is still above the watermark. */
  ghost predicate SkipsNone(st: Store, watermark: nat, fs: seq<FeedFill>, luck: seq<Luck>)
    requires Sane(st) && Ledger.Sound(st.positions) && AllPositive(fs)
  {
    var d := Drain(st, watermark, fs, luck, 0);
    forall k :: 0 <= k < |fs| && !Recorded(d.store, fs[k].fillId) ==> fs[k].seqNo > d.watermark
  }

  lemma {:induction false} RecordedStays(st: Store, watermark: nat, fs: seq<FeedFill>, luck: seq<Luck>, n: nat, id: string)
    requires Sane(st) && Ledger.Sound(st.positions) && AllPositive(fs) && n <= |fs| && Recorded(st, id)
    ensures Recorded(Drain(st, watermark, fs, luck, n).store, id)
    decreases |fs| - n
  {
    if n < |fs| && LuckAt(luck, n) != DbError {
      var watermark' := Max(watermark, fs[n].seqNo);
      if Recorded(st, fs[n].fillId) {
        RecordedStays(st, watermark', fs, luck, n + 1, id);
      } else {
        var works := LuckAt(luck, n) == Works;
        BookStaysSane(st, fs[n], works);
        BookRecords(st, fs[n], works);
        RecordedStays(Book(st, fs[n], works), watermark', fs, luck, n + 1, id);
      }
    }
  }

  lemma BookRecords(st: Store, f: FeedFill, lookupWorks: bool)
    requires Ledger.Sound(st.positions) && Sane(st) && Positive(f)
    ensures Recorded(Book(st, f, lookupWorks), f.fillId)
    ensures forall id :: Recorded(Book(st, f, lookupWorks), id) <==> Recorded(st, id) || id == f.fillId
  {
    var st' := Book(st, f, lookupWorks);
    assert st'.applied[|st.applied|].fill == f;
    assert forall b :: 0 <= b < |st.applied| ==> st'.applied[b] == st.applied[b];
  }

  /** From position `n` on, what the drain leaves unrecorded is above the watermark it leaves. */
  ghost predicate LeavesDue(d: Drained, fs: seq<FeedFill>, n: nat) {
    forall k :: n <= k < |fs| && !Recorded(d.store, fs[k].fillId) ==> fs[k].seqNo > d.watermark
  }

  lemma {:induction false} DrainIsPrefix(st: Store, watermark: nat, fs: seq<FeedFill>, luck: seq<Luck>, n: nat)
    requires Sane(st) && Ledger.Sound(st.positions) && AllPositive(fs) && n <= |fs| && Ascending(fs)
    requires forall k :: n <= k < |fs| ==> fs[k].seqNo > watermark
    ensures LeavesDue(Drain(st, watermark, fs, luck, n), fs, n)
    decreases |fs| - n
  {
    if n < |fs| && LuckAt(luck, n) != DbError {
      var next := st;
      if !Recorded(st, fs[n].fillId) {
        next := Book(st, fs[n], LuckAt(luck, n) == Works);
        BookStaysSane(st, fs[n], LuckAt(luck, n) == Works);
        BookRecords(st, fs[n], LuckAt(luck, n) == Works);
      }
      DrainIsPrefix(next, fs[n].seqNo, fs, luck, n + 1);
      RecordedStays(next, fs[n].seqNo, fs, luck, n + 1, fs[n].fillId);
      assert Drain(st, watermark, fs, luck, n) == Drain(next, fs[n].seqNo, fs, luck, n + 1);
    }
  }

  predicate DistinctIds(fs: seq<FeedFill>) {
    forall i, j :: 0 <= i < j < |fs| ==> fs[i].fillId != fs[j].fillId
  }

  /** Stopping right before position `stop`: an earlier fill has moved the watermark, this one is unrecorded. */
  lemma {:induction false} StopBefore(st: Store, watermark: nat, fs: seq<FeedFill>, luck: seq<Luck>, n: nat, stop: nat, early: nat)
    requires Sane(st) && Ledger.Sound(st.positions) && AllPositive(fs) && n <= stop < |fs| && DistinctIds(fs)
    requires forall k :: n <= k < stop ==> LuckAt(luck, k) == Works
    requires LuckAt(luck, stop) == DbError && early < stop
    requires forall k :: n <= k < |fs| ==> !Recorded(st, fs[k].fillId)
    requires early < n ==> watermark >= fs[early].seqNo
    ensures var d := Drain(st, watermark, fs, luck, n);
            !Recorded(d.store, fs[stop].fillId) && d.watermark >= fs[early].seqNo
    decreases stop - n
  {
    if n < stop {
      var st', watermark' := Book(st, fs[n], true), Max(watermark, fs[n].seqNo);
      BookStaysSane(st, fs[n], true);
      BookRecords(st, fs[n], true);
      assert LuckAt(luck, n) == Works;
      assert Drain(st, watermark, fs, luck, n) == Drain(st', watermark', fs, luck, n + 1);
      StopBefore(st', watermark', fs, luck, n + 1, stop, early);
    }
  }

  /** A retry can be relied on to skip nothing exactly when the pending fills ascend strictly. */
  lemma RetriesSkipNoneIffAscending(st: Store, watermark: nat, fs: seq<FeedFill>)
    requires Sane(st) && Ledger.Sound(st.positions) && AllPositive(fs) && DistinctIds(fs)
    requires forall k :: 0 <= k < |fs| ==> fs[k].seqNo > watermark && !Recorded(st, fs[k].fillId)
    ensures (forall luck :: SkipsNone(st, watermark, fs, luck)) <==> Ascending(fs)
  {
    if Ascending(fs) {
      forall luck ensures SkipsNone(st, watermark, fs, luck) {
        DrainIsPrefix(st, watermark, fs, luck, 0);
      }
    } else {
      var i, j :| 0 <= i < j < |fs| && fs[i].seqNo >= fs[j].seqNo;
      var luck := seq(j, _ => Works) + [DbError];
      StopBefore(st, watermark, fs, luck, 0, j, i);
      assert !SkipsNone(st, watermark, fs, luck);
    }
  }

  lemma {:induction false} AboveAscends(fs: seq<FeedFill>, watermark: nat)
    requires Ascending(fs)
    ensures Ascending(Above(fs, watermark))
  {
    if fs != [] {
      var init, f := fs[..|fs| - 1], fs[|fs| - 1];
      AboveAscends(init, watermark);
      var r := Above(init, watermark);
      forall i | 0 <= i < |r| ensures r[i].seqNo < f.seqNo {
        assert r[i] in r && r[i] in init;
      }
    }
  }

  /** While the ring ascends, a tick - aborted or not - leaves due again every fill that was due and is unrecorded. */
  lemma TicksSkipNone(w: World, luck: seq<Luck>)
    requires Ready(w) && Ascending(w.ring.fills)
    ensures var w' := Step(w, Tick(luck));
            forall f :: f in w.ring.fills && f.seqNo > w.watermark && !Recorded(w'.store, f.fillId)
              ==> f.seqNo > w'.watermark
  {
    if w.ring.synced && w.ring.highest > w.watermark {
      var fs := Above(w.ring.fills, w.watermark);
      assert forall i :: 0 <= i < |fs| ==> fs[i] in fs;
      AboveAscends(w.ring.fills, w.watermark);
      DrainIsPrefix(w.store, w.watermark, fs, luck, 0);
      var w' := Step(w, Tick(luck));
      forall f | f in w.ring.fills && f.seqNo > w.watermark && !Recorded(w'.store, f.fillId)
        ensures f.seqNo > w'.watermark
      {
        assert f in fs;
        var k :| 0 <= k < |fs| && fs[k] == f;
      }
    }
  }

  /** What the ring sees of an event; to the ring a restart is a disconnect. */
  function FeedPart(e: Event): (part: seq<FeedEvent>)
    ensures |part| <= 1
  {
    match e
    case Feed(f) => [f]
    case Restart => [Disconnect]
    case _ => []
  }

  function FeedOf(events: seq<Event>): seq<FeedEvent> {
    if events == [] then [] else FeedOf(events[..|events| - 1]) + FeedPart(events[|events| - 1])
  }

  lemma StepMovesRing(w: World, e: Event)
    requires Ready(w) && Admissible(e)
    ensures Step(w, e).ring == if FeedPart(e) == [] then w.ring else OnEvent(w.ring, FeedPart(e)[0])
  {
  }

  lemma {:induction false} RunFeedMore(capacity: nat, feed: seq<FeedEvent>, part: seq<FeedEvent>)
    requires |part| <= 1
    ensures RunFeed(capacity, feed + part)
            == if part == [] then RunFeed(capacity, feed) else OnEvent(RunFeed(capacity, feed), part[0])
  {
    if part == [] {
      assert feed + part == feed;
    } else {
      assert (feed + part)[..|feed|] == feed;
    }
  }

  lemma {:induction false} RingIsItsFeed(capacity: nat, events: seq<Event>)
    requires forall n :: 0 <= n < |events| ==> Admissible(events[n])
    ensures Run(capacity, events).ring == RunFeed(capacity, FeedOf(events))
  {
    if events != [] {
      var init, e := events[..|events| - 1], events[|events| - 1];
      RingIsItsFeed(capacity, init);
      StepMovesRing(Run(capacity, init), e);
      RunFeedMore(capacity, FeedOf(init), FeedPart(e));
    }
  }

  lemma {:induction false} FeedAscends(events: seq<Event>)
    requires SnapshotsAscend(events)
    ensures forall n :: 0 <= n < |FeedOf(events)| && FeedOf(events)[n].Snapshot? ==> Ascending(FeedOf(events)[n].fills)
  {
    if events != [] {
      FeedAscends(events[..|events| - 1]);
    }
  }

  ghost predicate SnapshotsAscend(events: seq<Event>) {
    forall n :: 0 <= n < |events| && events[n].Feed? && events[n].feed.Snapshot? ==> Ascending(events[n].feed.fills)
  }

  lemma RunRingAscends(capacity: nat, events: seq<Event>)
    requires (forall n :: 0 <= n < |events| ==> Admissible(events[n])) && SnapshotsAscend(events)
    ensures Ascending(Run(capacity, events).ring.fills)
  {
    RingIsItsFeed(capacity, events);
    FeedAscends(events);
    RingAscends(capacity, FeedOf(events));
  }

  /** The same after any run whose snapshots ascend: a tick skips none of the fills that were above the watermark. */
  lemma RunsSkipNone(capacity: nat, events: seq<Event>, luck: seq<Luck>)
    requires forall n :: 0 <= n < |events| ==> Admissible(events[n])
    requires SnapshotsAscend(events)
    ensures var w := Run(capacity, events);
            var w' := Step(w, Tick(luck));
            forall f :: f in w.ring.fills && f.seqNo > w.watermark && !Recorded(w'.store, f.fillId)
              ==> f.seqNo > w'.watermark
  {
    RunRingAscends(capacity, events);
    TicksSkipNone(Run(capacity, events), luck);
  }

  /**
   When a recorded fill reached an order: its broker id was known, or the orphan lookup worked and found
   a row without one. In particular a failed lookup records the fill unmatched, and for good.
   */
  lemma MatchedIff(st: Store, f: FeedFill, lookupWorks: bool)
    requires Ledger.Sound(st.positions) && Sane(st) && Positive(f)
    ensures Book(st, f, lookupWorks).applied[|st.applied|].order.Some? <==>
              || FindByBrokerId(st.orders, f.orderId) >= 0
              || (lookupWorks && f.cli.Some? && FindByCli(st.orders, f.cli.value) >= 0
                  && st.orders[FindByCli(st.orders, f.cli.value)].brokerId.None?)
  {
    var orders := AfterOrphanCatch(st.orders, f, lookupWorks);
    if FindByBrokerId(st.orders, f.orderId) < 0 && f.cli.Some? && lookupWorks && FindByCli(st.orders, f.cli.value) >= 0 {
      var i := FindByCli(st.orders, f.cli.value);
      assert orders[i] == Backfilled(st.orders[i], f.orderId);
      assert forall k :: 0 <= k < |orders| && k != i ==> orders[k] == st.orders[k];
    }
  }

  // ---------------------------------------------------------------------------
  // Torn bookings
  // ---------------------------------------------------------------------------

  /** A booking that failed after its first `writes` writes: order, then position, never the record. */
  function Torn(st: Store, f: FeedFill, lookupWorks: bool, writes: nat): Store
    requires Ledger.Sound(st.positions) && Sane(st) && Positive(f) && writes <= 2
  {
    var caught := st.(orders := AfterOrphanCatch(st.orders, f, lookupWorks));
    var i := FindByBrokerId(caught.orders, f.orderId);
    if i < 0 || writes == 0 then caught
    else
      var whole := BookMatched(caught, f, i);
      if writes == 1 then caught.(orders := whole.orders) else whole.(applied := st.applied)
  }

  lemma TornStaysSane(st: Store, f: FeedFill, lookupWorks: bool, writes: nat)
    requires Ledger.Sound(st.positions) && Sane(st) && Positive(f) && writes <= 2
    ensures Ledger.Sound(Torn(st, f, lookupWorks, writes).positions) && Sane(Torn(st, f, lookupWorks, writes))
    ensures Torn(st, f, lookupWorks, writes).applied == st.applied
  {
    BookStaysSane(st, f, lookupWorks);
  }

  /** The order a torn fill was matched to has counted it, and the retry finds that order again. */
  lemma TornOrder(st: Store, f: FeedFill, lookupWorks: bool, writes: nat, i: nat)
    requires Ledger.Sound(st.positions) && Sane(st) && Positive(f) && 1 <= writes <= 2
    requires FindByBrokerId(AfterOrphanCatch(st.orders, f, lookupWorks), f.orderId) == i
    ensures var t := Torn(st, f, lookupWorks, writes);
            && FindByBrokerId(t.orders, f.orderId) == i
            && t.orders[i].progress.filled == AfterOrphanCatch(st.orders, f, lookupWorks)[i].progress.filled + f.qty
  {
    var orders := AfterOrphanCatch(st.orders, f, lookupWorks);
    SameIdsFound(orders, Torn(st, f, lookupWorks, writes).orders, f.orderId);
  }

  lemma {:induction false} SameIdsFound(a: seq<OrderRow>, b: seq<OrderRow>, id: string)
    requires |a| == |b| && forall k :: 0 <= k < |a| ==> a[k].brokerId == b[k].brokerId
    ensures FindByBrokerId(a, id) == FindByBrokerId(b, id)
  {
    if a != [] {
      SameIdsFound(a[..|a| - 1], b[..|b| - 1], id);
    }
  }

  /** Retrying books the fill on top of what the torn attempt left. */
  lemma RetryCountsAgain(t: Store, f: FeedFill, lookupWorks: bool, i: nat)
    requires Ledger.Sound(t.positions) && Sane(t) && Positive(f) && FindByBrokerId(t.orders, f.orderId) == i
    ensures Book(t, f, lookupWorks).orders[i].progress.filled == t.orders[i].progress.filled + f.qty
    ensures |Book(t, f, lookupWorks).orders| == |t.orders|
    ensures Book(t, f, lookupWorks).applied == t.applied + [Booking(f, Some(i))]
  {
  }

  lemma ExactFilled(st: Store, i: nat)
    requires Exact(st) && i < |st.orders|
    ensures st.orders[i].progress.filled == OrderFills.Total(OrderFills.Qty, ExecutionsFor(st.applied, i))
  {
    assert OrderTotalsOk(st, i);
    ExactOrderSums(st, i);
  }

  /**
   The writes of a booking are separate transactions. A booking torn after any of them and then retried leaves the
   tables exact exactly when nothing had been written, or the fill belonged to no order; otherwise it counts twice.
   */
  lemma TearIsHarmlessIff(st: Store, f: FeedFill, lookupWorks: bool, writes: nat, retryWorks: bool)
    requires Exact(st) && Sane(st) && Ledger.Sound(st.positions) && Positive(f) && !Recorded(st, f.fillId) && writes <= 2
    ensures Ledger.Sound(Torn(st, f, lookupWorks, writes).positions) && Sane(Torn(st, f, lookupWorks, writes))
    ensures Exact(Book(Torn(st, f, lookupWorks, writes), f, retryWorks))
            <==> writes == 0 || FindByBrokerId(AfterOrphanCatch(st.orders, f, lookupWorks), f.orderId) < 0
  {
    var caught := st.(orders := AfterOrphanCatch(st.orders, f, lookupWorks));
    var i := FindByBrokerId(caught.orders, f.orderId);
    var t := Torn(st, f, lookupWorks, writes);
    TornStaysSane(st, f, lookupWorks, writes);
    OrphanCatchKeepsExact(st, f, lookupWorks);
    if writes == 0 || i < 0 {
      BookKeepsExact(t, f, retryWorks);
    } else {
      TornOrder(st, f, lookupWorks, writes, i);
      RetryCountsAgain(t, f, retryWorks, i);
      ExactFilled(caught, i);
      ExecutionsSnoc(st.applied, Booking(f, Some(i)), i);
      var xs := ExecutionsFor(st.applied, i);
      OrderFills.TotalConcat(OrderFills.Qty, xs, [ExecutionOf(f)]);
      assert [ExecutionOf(f)][..0] == [];
      var done := Book(t, f, retryWorks);
      if Exact(done) {
        ExactFilled(done, i);
      }
    }
  }

  // ---------------------------------------------------------------------------
  // The reconciler task
  // ---------------------------------------------------------------------------

  lemma {:induction false} DrainStep(st: Store, watermark: nat, fs: seq<FeedFill>, luck: seq<Luck>, n: nat)
    requires Ledger.Sound(st.positions) && Sane(st) && AllPositive(fs) && n < |fs| && LuckAt(luck, n) != DbError
    ensures var next := if Recorded(st, fs[n].fillId) then st else Book(st, fs[n], LuckAt(luck, n) == Works);
            && Ledger.Sound(next.positions) && Sane(next)
            && Drain(st, watermark, fs, luck, n) == Drain(next, Max(watermark, fs[n].seqNo), fs, luck, n + 1)
  {
    BookStaysSane(st, fs[n], LuckAt(luck, n) == Works);
  }

  class Reconciler {
    var orders: seq<OrderRow>
    var positions: seq<Ledger.Row>
    var applied: seq<Booking>
    var watermark: nat

    function View(): Store
      reads this
    {
      Store(orders, positions, applied)
    }

    constructor ()
      ensures View() == Store([], [], []) && watermark == 0
    {
      orders, positions, applied, watermark := [], [], [], 0;
    }

    method BookFill(f: FeedFill, lookupWorks: bool)
      requires Ledger.Sound(positions) && Sane(View()) && Positive(f)
      modifies this`orders, this`positions, this`applied
      ensures View() == Book(old(View()), f, lookupWorks)
    {
      var i := FindByBrokerId(orders, f.orderId);
      if i < 0 && f.cli.Some? && lookupWorks {
        var j := FindByCli(orders, f.cli.value);
        if j >= 0 {
          orders := orders[j := Backfilled(orders[j], f.orderId)];
          i := FindByBrokerId(orders, f.orderId);
        }
      }
      if i >= 0 {
        var o := orders[i];
        orders := orders[i := o.(progress := OrderFills.ApplyFill(o.progress, o.quantity, ExecutionOf(f)))];
        if o.sleeve.Some? {
          positions := Ledger.Apply(positions, PositionFill(o, f)).0;
        }
        applied := applied + [Booking(f, Some(i))];
      } else {
        applied := applied + [Booking(f, None)];
      }
    }

    method Tick(ring: FillsBuffer, luck: seq<Luck>) returns (ok: bool)
      requires Ledger.Sound(positions) && Sane(View()) && AllPositive(ring.fills)
      modifies this
      ensures Drained(View(), watermark, ok) == ReconcileOnce(old(View()), ring.View(), old(watermark), luck)
    {
      if !ring.synced || ring.highest <= watermark {
        return true;
      }
      var todo := Above(ring.fills, watermark);
      assert forall i :: 0 <= i < |todo| ==> todo[i] in todo;
      var n := 0;
      while n < |todo|
        invariant 0 <= n <= |todo|
        invariant Ledger.Sound(positions) && Sane(View())
        invariant Drain(View(), watermark, todo, luck, n) == Drain(old(View()), old(watermark), todo, luck, 0)
      {
        if LuckAt(luck, n) == DbError {
          return false;
        }
        DrainStep(View(), watermark, todo, luck, n);
        if !Recorded(View(), todo[n].fillId) {
          BookFill(todo[n], LuckAt(luck, n) == Works);
        }
        watermark := Max(watermark, todo[n].seqNo);
        n := n + 1;
      }
      ok := true;
    }
  }
}
