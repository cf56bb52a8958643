/** The sequence-checked local replica of the venue's order book. */
module OrderBook {
  import opened Prelude

  datatype Level = Level(price: real, qty: real)

  datatype Snapshot = Snapshot(product: string, seqNo: nat, bids: seq<Level>, asks: seq<Level>)

  datatype Delta = Delta(product: string, seqNo: nat, side: Side, price: real, qty: real)

  datatype BookState = Uninitialised | Synced | OutOfSync

  datatype BookError =
    | SequenceGap(expected: nat, got: nat)
    | BookOutOfSync
    | NotInitialised
    | Crossed
    | ProductMismatch

  type Ladder = map<real, real>

  datatype Book = Book(product: string, bids: Ladder, asks: Ladder, lastSeq: Option<nat>, state: BookState)

  predicate WellFormed(b: Book) {
    b.state == Synced ==> b.lastSeq.Some?
  }

  function Empty(product: string): Book {
    Book(product, map[], map[], None, Uninitialised)
  }

  // ---------------------------------------------------------------------------
  // Best prices
  // ---------------------------------------------------------------------------

  /** Is price `p` better than `q` on this side? Bids: higher; asks: lower. */
  predicate Better(side: Side, p: real, q: real) {
    if side == Buy then p > q else p < q
  }

  ghost predicate IsBest(side: Side, prices: set<real>, p: real) {
    p in prices && forall q :: q in prices && q != p ==> Better(side, p, q)
  }

  lemma EmptyOrHasPrice(prices: set<real>)
    ensures prices == {} || exists p :: p in prices
  {
    if forall p :: p !in prices {
      assert prices == {};
    }
  }

  lemma {:induction false} BestExists(side: Side, prices: set<real>)
    requires prices != {}
    ensures exists p :: IsBest(side, prices, p)
  {
    EmptyOrHasPrice(prices);
    var x :| x in prices;
    if prices == {x} {
      assert IsBest(side, prices, x);
    } else {
      var rest := prices - {x};
      BestExists(side, rest);
      var p :| IsBest(side, rest, p);
      assert p != x;
      if Better(side, x, p) {
        forall q | q in prices && q != x ensures Better(side, x, q) {
          assert q in rest;
        }
        assert IsBest(side, prices, x);
      } else {
        assert IsBest(side, prices, p);
      }
    }
  }

  ghost function Best(side: Side, prices: set<real>): (p: real)
    requires prices != {}
    ensures IsBest(side, prices, p)
  {
    BestExists(side, prices);
    var p :| IsBest(side, prices, p);
    p
  }

  /** The sanity check: the best bid is not below the best ask. */
  ghost predicate IsCrossed(bids: Ladder, asks: Ladder) {
    bids != map[] && asks != map[] && Best(Buy, bids.Keys) >= Best(Sell, asks.Keys)
  }

  lemma UncrossedSeparates(bids: Ladder, asks: Ladder)
    ensures !IsCrossed(bids, asks) <==> forall p, q :: p in bids && q in asks ==> p < q
  {
  }

  // ---------------------------------------------------------------------------
  // Messages
  // ---------------------------------------------------------------------------

  function Loaded(levels: seq<Level>): Ladder {
    if levels == [] then map[]
    else
      var l := levels[|levels| - 1];
      var side := Loaded(levels[..|levels| - 1]);
      if l.qty > 0.0 then side[l.price := l.qty] else side
  }

  function Changed(side: Ladder, price: real, qty: real): Ladder {
    if qty == 0.0 then side - {price} else side[price := qty]
  }

  /** A quantity replaces the level at its price, zero removes it, and no other level moves. */
  lemma ChangedLevels(side: Ladder, price: real, qty: real)
    ensures forall q :: q in Changed(side, price, qty) <==> if q == price then qty != 0.0 else q in side
    ensures forall q :: q in Changed(side, price, qty) ==>
              Changed(side, price, qty)[q] == if q == price then qty else side[q]
  {
  }

  /** A snapshot resets the book; a crossed one is reported, but the book stays synced. */
  ghost function OnSnapshot(b: Book, s: Snapshot): (Book, Option<BookError>) {
    if s.product != b.product then (b, Some(ProductMismatch))
    else
      var b' := b.(bids := Loaded(s.bids), asks := Loaded(s.asks), lastSeq := Some(s.seqNo), state := Synced);
      (b', if IsCrossed(b'.bids, b'.asks) then Some(Crossed) else None)
  }

  ghost function OnDelta(b: Book, d: Delta): (Book, Option<BookError>)
    requires WellFormed(b)
  {
    if d.product != b.product then (b, Some(ProductMismatch))
    else if b.state == Uninitialised then (b, Some(NotInitialised))
    else if b.state == OutOfSync then (b, Some(BookOutOfSync))
    else if d.seqNo != b.lastSeq.value + 1 then
      (b.(state := OutOfSync), Some(SequenceGap(b.lastSeq.value + 1, d.seqNo)))
    else
      var b' := b.(bids := if d.side == Buy then Changed(b.bids, d.price, d.qty) else b.bids,
                   asks := if d.side == Sell then Changed(b.asks, d.price, d.qty) else b.asks,
                   lastSeq := Some(d.seqNo));
      if IsCrossed(b'.bids, b'.asks) then (b'.(state := OutOfSync), Some(Crossed)) else (b', None)
  }

  function OnInvalidate(b: Book): Book {
    b.(bids := map[], asks := map[], lastSeq := None, state := OutOfSync)
  }

  // ---------------------------------------------------------------------------
  // Export
  // ---------------------------------------------------------------------------

  /** The first `depth` levels of a side, best first. */
  ghost function BestFirst(side: Side, ladder: Ladder, depth: nat): seq<Level>
    decreases depth
  {
    if depth == 0 || ladder == map[] then []
    else
      var p := Best(side, ladder.Keys);
      [Level(p, ladder[p])] + BestFirst(side, ladder - {p}, depth - 1)
  }

  ghost function Export(b: Book, depth: nat): Result<(seq<Level>, seq<Level>), BookError> {
    if b.state != Synced then Err(BookOutOfSync)
    else Ok((BestFirst(Buy, b.bids, depth), BestFirst(Sell, b.asks, depth)))
  }

  /** Levels taken from the ladder, strictly best first. */
  ghost predicate Sorted(side: Side, ladder: Ladder, top: seq<Level>) {
    && (forall i :: 0 <= i < |top| ==> top[i].price in ladder && top[i].qty == ladder[top[i].price])
    && (forall i, k :: 0 <= i < k < |top| ==> Better(side, top[i].price, top[k].price))
  }

  predicate Lists(top: seq<Level>, price: real) {
    exists i :: 0 <= i < |top| && top[i].price == price
  }

  /** Exactly the best min(depth, n) levels, strictly sorted, and nothing omitted is better. */
  lemma {:induction false} BestFirstIsTop(side: Side, ladder: Ladder, depth: nat)
    ensures var top := BestFirst(side, ladder, depth);
            && |top| == (if depth <= |ladder| then depth else |ladder|)
            && Sorted(side, ladder, top)
            && (forall q, i :: q in ladder && !Lists(top, q) && 0 <= i < |top| ==> Better(side, top[i].price, q))
    decreases depth
  {
    if depth > 0 && ladder != map[] {
      var p := Best(side, ladder.Keys);
      var rest := ladder - {p};
      assert p in ladder;
      BestFirstIsTop(side, rest, depth - 1);
      assert rest.Keys == ladder.Keys - {p};
      assert |rest.Keys| == |ladder.Keys| - 1;
      var tail := BestFirst(side, rest, depth - 1);
      var top := [Level(p, ladder[p])] + tail;
      TopOfRest(side, ladder, p, tail);
      forall q, i | q in ladder && !Lists(top, q) && 0 <= i < |top| ensures Better(side, top[i].price, q) {
        assert top[0].price == p && Lists(top, p) && q in rest;
        assert forall k :: 0 <= k < |tail| ==> tail[k] == top[k + 1];
        assert !Lists(tail, q);
        if i > 0 {
          assert top[i] == tail[i - 1];
        } else {
          assert q in ladder.Keys;
        }
      }
    }
  }

  lemma TopOfRest(side: Side, ladder: Ladder, p: real, tail: seq<Level>)
    requires IsBest(side, ladder.Keys, p) && Sorted(side, ladder - {p}, tail)
    ensures Sorted(side, ladder, [Level(p, ladder[p])] + tail)
  {
  }

  // ---------------------------------------------------------------------------
  // The venue and the channel
  // ---------------------------------------------------------------------------

  datatype Change = Change(side: Side, price: real, qty: real)

  /** The venue's own book: where it started and every change since, numbered from 1. */
  datatype Venue = Venue(product: string, bids: Ladder, asks: Ladder, changes: seq<Change>)

  function LadderAt(v: Venue, side: Side, n: nat): Ladder
    requires n <= |v.changes|
  {
    if n == 0 then (if side == Buy then v.bids else v.asks)
    else
      var c := v.changes[n - 1];
      if c.side == side then Changed(LadderAt(v, side, n - 1), c.price, c.qty) else LadderAt(v, side, n - 1)
  }

  /** The positive levels of the list are the entries of the ladder; zero levels may pad it. */
  ghost predicate Quotes(levels: seq<Level>, ladder: Ladder) {
    && (forall i :: 0 <= i < |levels| && levels[i].qty > 0.0 ==>
          levels[i].price in ladder && ladder[levels[i].price] == levels[i].qty)
    && (forall p :: p in ladder ==> ladder[p] > 0.0 && Level(p, ladder[p]) in levels)
  }

  datatype Message = SnapshotMsg(snapshot: Snapshot) | DeltaMsg(delta: Delta) | Disconnect

  /** What the venue may ever send for its product; other products' messages are unconstrained. */
  ghost predicate Genuine(v: Venue, m: Message) {
    match m
    case SnapshotMsg(s) =>
      s.product == v.product ==>
        && s.seqNo <= |v.changes|
        && Quotes(s.bids, LadderAt(v, Buy, s.seqNo))
        && Quotes(s.asks, LadderAt(v, Sell, s.seqNo))
    case DeltaMsg(d) =>
      d.product == v.product ==>
        && 1 <= d.seqNo <= |v.changes|
        && v.changes[d.seqNo - 1] == Change(d.side, d.price, d.qty)
    case Disconnect => true
  }

  ghost function Deliver(b: Book, m: Message): (b': Book)
    requires WellFormed(b)
    ensures WellFormed(b') && b'.product == b.product
  {
    match m
    case SnapshotMsg(s) => OnSnapshot(b, s).0
    case DeltaMsg(d) => OnDelta(b, d).0
    case Disconnect => OnInvalidate(b)
  }

  /** Messages may be lost, repeated and reordered at will: any sequence of genuine messages is a run. */
  ghost function DeliverAll(b: Book, ms: seq<Message>): (b': Book)
    requires WellFormed(b)
    ensures WellFormed(b') && b'.product == b.product
  {
    if ms == [] then b else Deliver(DeliverAll(b, ms[..|ms| - 1]), ms[|ms| - 1])
  }

  ghost predicate Mirrors(b: Book, v: Venue) {
    b.state == Synced ==>
      && b.lastSeq.Some? && b.lastSeq.value <= |v.changes|
      && b.bids == LadderAt(v, Buy, b.lastSeq.value)
      && b.asks == LadderAt(v, Sell, b.lastSeq.value)
  }

  lemma {:induction false} LoadedEntries(levels: seq<Level>)
    ensures forall p :: p in Loaded(levels) ==> Loaded(levels)[p] > 0.0 && Level(p, Loaded(levels)[p]) in levels
    ensures forall i :: 0 <= i < |levels| && levels[i].qty > 0.0 ==> levels[i].price in Loaded(levels)
  {
    if levels != [] {
      var init, l := levels[..|levels| - 1], levels[|levels| - 1];
      LoadedEntries(init);
      assert forall x :: x in init ==> x in levels;
      assert l in levels;
    }
  }

  lemma {:induction false} LoadedQuotes(levels: seq<Level>, ladder: Ladder)
    requires Quotes(levels, ladder)
    ensures Loaded(levels) == ladder
  {
    LoadedEntries(levels);
    var got := Loaded(levels);
    forall p ensures p in got <==> p in ladder {
      if p in ladder {
        assert Level(p, ladder[p]) in levels;
      }
    }
    assert got.Keys == ladder.Keys;
    forall p | p in got ensures got[p] == ladder[p] {
      assert Level(p, got[p]) in levels;
    }
  }

  lemma DeliverKeepsMirror(b: Book, v: Venue, m: Message)
    requires WellFormed(b) && b.product == v.product && Mirrors(b, v) && Genuine(v, m)
    ensures Mirrors(Deliver(b, m), v)
  {
    if m.SnapshotMsg? && m.snapshot.product == v.product {
      LoadedQuotes(m.snapshot.bids, LadderAt(v, Buy, m.snapshot.seqNo));
      LoadedQuotes(m.snapshot.asks, LadderAt(v, Sell, m.snapshot.seqNo));
    }
  }

  /** Whenever the replica is synced it is the venue's book after exactly `lastSeq` changes. */
  lemma {:induction false} SyncedMirrorsVenue(v: Venue, ms: seq<Message>)
    requires forall k :: 0 <= k < |ms| ==> Genuine(v, ms[k])
    ensures Mirrors(DeliverAll(Empty(v.product), ms), v)
  {
    if ms != [] {
      SyncedMirrorsVenue(v, ms[..|ms| - 1]);
      DeliverKeepsMirror(DeliverAll(Empty(v.product), ms[..|ms| - 1]), v, ms[|ms| - 1]);
    }
  }

  /** A book that is not synced yields no data until a snapshot of its product arrives. */
  lemma {:induction false} NoDataUntilSnapshot(b: Book, ms: seq<Message>, depth: nat)
    requires WellFormed(b) && b.state != Synced
    requires forall k :: 0 <= k < |ms| ==> ms[k].SnapshotMsg? ==> ms[k].snapshot.product != b.product
    ensures DeliverAll(b, ms).state != Synced && Export(DeliverAll(b, ms), depth).Err?
  {
    if ms != [] {
      NoDataUntilSnapshot(b, ms[..|ms| - 1], depth);
    }
  }

  // ---------------------------------------------------------------------------
  // Exactly when the book is synced
  // ---------------------------------------------------------------------------

  predicate IsSnapshotOf(m: Message, product: string) {
    m.SnapshotMsg? && m.snapshot.product == product
  }

  predicate IsDeltaOf(m: Message, product: string) {
    m.DeltaMsg? && m.delta.product == product
  }

  /** The last snapshot of the product, or -1. */
  function LastSnapshot(product: string, ms: seq<Message>): (k: int)
    ensures -1 <= k < |ms|
    ensures k >= 0 ==> IsSnapshotOf(ms[k], product)
    ensures forall j :: k < j < |ms| ==> !IsSnapshotOf(ms[j], product)
  {
    if ms == [] then -1
    else if IsSnapshotOf(ms[|ms| - 1], product) then |ms| - 1
    else LastSnapshot(product, ms[..|ms| - 1])
  }

  /** How many deltas of the product there are from position `k` up to `n`. */
  function DeltasBetween(product: string, ms: seq<Message>, k: nat, n: nat): nat
    requires k <= n <= |ms|
  {
    if n == k then 0 else DeltasBetween(product, ms, k, n - 1) + if IsDeltaOf(ms[n - 1], product) then 1 else 0
  }

  /** One side of the snapshot at `k` with every delta of the product up to `n` applied, whatever its number. */
  function SideSince(product: string, side: Side, ms: seq<Message>, k: nat, n: nat): Ladder
    requires k < n <= |ms| && IsSnapshotOf(ms[k], product)
  {
    if n == k + 1 then Loaded(if side == Buy then ms[k].snapshot.bids else ms[k].snapshot.asks)
    else
      var before := SideSince(product, side, ms, k, n - 1);
      if IsDeltaOf(ms[n - 1], product) && ms[n - 1].delta.side == side
      then Changed(before, ms[n - 1].delta.price, ms[n - 1].delta.qty) else before
  }

  /** The message at `j` does not break the sequence begun by the snapshot at `k`. */
  ghost predicate InTurn(product: string, ms: seq<Message>, k: nat, j: nat)
    requires k < j < |ms| && IsSnapshotOf(ms[k], product)
  {
    && !ms[j].Disconnect?
    && (IsDeltaOf(ms[j], product) ==>
          && ms[j].delta.seqNo == ms[k].snapshot.seqNo + DeltasBetween(product, ms, k, j + 1)
          && !IsCrossed(SideSince(product, Buy, ms, k, j + 1), SideSince(product, Sell, ms, k, j + 1)))
  }

  ghost predicate AllInTurn(product: string, ms: seq<Message>, k: nat)
    requires k < |ms| && IsSnapshotOf(ms[k], product)
  {
    forall j :: k < j < |ms| ==> InTurn(product, ms, k, j)
  }

  lemma {:induction false} SamePrefix(product: string, ms: seq<Message>, k: nat, n: nat)
    requires k < n < |ms| && IsSnapshotOf(ms[k], product)
    ensures DeltasBetween(product, ms[..|ms| - 1], k, n) == DeltasBetween(product, ms, k, n)
    ensures forall side :: SideSince(product, side, ms[..|ms| - 1], k, n) == SideSince(product, side, ms, k, n)
  {
    if n > k + 1 {
      SamePrefix(product, ms, k, n - 1);
    } else {
      assert DeltasBetween(product, ms[..|ms| - 1], k, k) == DeltasBetween(product, ms, k, k) == 0;
    }
  }

  lemma InTurnSoFar(product: string, ms: seq<Message>, k: nat)
    requires k < |ms| - 1 && IsSnapshotOf(ms[k], product)
    ensures AllInTurn(product, ms, k) <==> AllInTurn(product, ms[..|ms| - 1], k) && InTurn(product, ms, k, |ms| - 1)
  {
    var init := ms[..|ms| - 1];
    forall j | k < j < |init| ensures InTurn(product, init, k, j) <==> InTurn(product, ms, k, j) {
      SamePrefix(product, ms, k, j + 1);
    }
  }

  /** The book as the snapshot and the deltas since make it. */
  ghost predicate Follows(b: Book, product: string, ms: seq<Message>, k: nat)
    requires k < |ms| && IsSnapshotOf(ms[k], product)
  {
    && b.lastSeq == Some(ms[k].snapshot.seqNo + DeltasBetween(product, ms, k, |ms|))
    && b.bids == SideSince(product, Buy, ms, k, |ms|) && b.asks == SideSince(product, Sell, ms, k, |ms|)
  }

  ghost predicate IsSyncedBy(b: Book, product: string, ms: seq<Message>) {
    var k := LastSnapshot(product, ms);
    && (b.state == Synced <==> k >= 0 && AllInTurn(product, ms, k))
    && (b.state == Synced ==> Follows(b, product, ms, k))
  }

  lemma SnapshotSyncs(b: Book, product: string, ms: seq<Message>)
    requires WellFormed(b) && b.product == product && ms != [] && IsSnapshotOf(ms[|ms| - 1], product)
    ensures IsSyncedBy(Deliver(b, ms[|ms| - 1]), product, ms)
  {
    assert DeltasBetween(product, ms, |ms| - 1, |ms| - 1) == 0;
  }

  lemma OtherMessageSyncs(b: Book, product: string, ms: seq<Message>)
    requires WellFormed(b) && b.product == product && ms != [] && IsSyncedBy(b, product, ms[..|ms| - 1])
    requires !IsSnapshotOf(ms[|ms| - 1], product) && !IsDeltaOf(ms[|ms| - 1], product)
    ensures IsSyncedBy(Deliver(b, ms[|ms| - 1]), product, ms)
  {
    var k := LastSnapshot(product, ms);
    if k >= 0 {
      InTurnSoFar(product, ms, k);
      SamePrefix(product, ms, k, |ms| - 1);
    }
  }

  /** What a delta of the product adds to the sides and the count. */
  lemma DeltaAdds(product: string, ms: seq<Message>, k: nat)
    requires k < |ms| - 1 && IsSnapshotOf(ms[k], product) && IsDeltaOf(ms[|ms| - 1], product)
    ensures var n, d := |ms|, ms[|ms| - 1].delta;
            && DeltasBetween(product, ms, k, n) == DeltasBetween(product, ms, k, n - 1) + 1
            && SideSince(product, d.side, ms, k, n) == Changed(SideSince(product, d.side, ms, k, n - 1), d.price, d.qty)
            && (forall side :: side != d.side ==> SideSince(product, side, ms, k, n) == SideSince(product, side, ms, k, n - 1))
  {
  }

  lemma DeltaSyncs(b: Book, product: string, ms: seq<Message>)
    requires WellFormed(b) && b.product == product && ms != [] && IsSyncedBy(b, product, ms[..|ms| - 1])
    requires IsDeltaOf(ms[|ms| - 1], product)
    ensures IsSyncedBy(Deliver(b, ms[|ms| - 1]), product, ms)
  {
    var k, d := LastSnapshot(product, ms), ms[|ms| - 1].delta;
    assert k == LastSnapshot(product, ms[..|ms| - 1]);
    if k >= 0 {
      InTurnSoFar(product, ms, k);
      SamePrefix(product, ms, k, |ms| - 1);
      DeltaAdds(product, ms, k);
      if b.state == Synced && d.seqNo == b.lastSeq.value + 1 {
        var b' := OnDelta(b, d).0;
        assert d.side == Buy || d.side == Sell;
        assert b'.bids == SideSince(product, Buy, ms, k, |ms|);
        assert b'.asks == SideSince(product, Sell, ms, k, |ms|);
      }
    }
  }

  /**
   After any messages at all, the book is synced exactly when there was a snapshot of its product and every message since
   the last one was in turn: no disconnect, and each delta the next number and leaving the book uncrossed. Then its number
   and its sides are those of the snapshot with the deltas since.
   */
  lemma {:induction false} SyncedIff(product: string, ms: seq<Message>)
    ensures IsSyncedBy(DeliverAll(Empty(product), ms), product, ms)
  {
    if ms != [] {
      var init := ms[..|ms| - 1];
      SyncedIff(product, init);
      var b := DeliverAll(Empty(product), init);
      if IsSnapshotOf(ms[|ms| - 1], product) {
        SnapshotSyncs(b, product, ms);
      } else if IsDeltaOf(ms[|ms| - 1], product) {
        DeltaSyncs(b, product, ms);
      } else {
        OtherMessageSyncs(b, product, ms);
      }
    }
  }

  /** And exactly then it exports. */
  lemma ExportsIff(product: string, ms: seq<Message>, depth: nat)
    ensures var k := LastSnapshot(product, ms);
            Export(DeliverAll(Empty(product), ms), depth).Ok? <==> k >= 0 && AllInTurn(product, ms, k)
  {
    SyncedIff(product, ms);
  }

  /** A snapshot is answered with an error exactly when it is foreign or crossed; a crossed one is taken all the same. */
  lemma SnapshotAnswers(b: Book, sn: Snapshot)
    ensures var (b', e) := OnSnapshot(b, sn);
            && (e == Some(ProductMismatch) <==> sn.product != b.product)
            && (e == Some(Crossed) <==> sn.product == b.product && IsCrossed(b'.bids, b'.asks))
            && (e == None <==> sn.product == b.product && forall p, q :: p in b'.bids && q in b'.asks ==> p < q)
            && (if sn.product == b.product then b'.state == Synced && b'.lastSeq == Some(sn.seqNo) else b' == b)
  {
    UncrossedSeparates(OnSnapshot(b, sn).0.bids, OnSnapshot(b, sn).0.asks);
  }

  /** What a delta is answered with tells what it met. */
  lemma DeltaAnswers(b: Book, d: Delta)
    requires WellFormed(b)
    ensures var (b', e) := OnDelta(b, d);
            && (e == Some(ProductMismatch) <==> d.product != b.product)
            && (e == Some(NotInitialised) <==> d.product == b.product && b.state == Uninitialised)
            && (e == Some(BookOutOfSync) <==> d.product == b.product && b.state == OutOfSync)
            && (e.Some? && e.value.SequenceGap? <==>
                  d.product == b.product && b.state == Synced && b.lastSeq != Some(d.seqNo - 1))
            && (e.Some? && e.value.SequenceGap? ==> b.lastSeq == Some(e.value.expected - 1) && e.value.got == d.seqNo)
            && (e.Some? && !e.value.Crossed? ==> b'.bids == b.bids && b'.asks == b.asks && b'.lastSeq == b.lastSeq)
            && (e == None ==> b'.state == Synced && !IsCrossed(b'.bids, b'.asks))
            && (e == Some(Crossed) ==> b'.state == OutOfSync && IsCrossed(b'.bids, b'.asks))
  {
  }

  /** The last message for the product is a snapshot that crosses. */
  ghost predicate CrossedSnapshotStands(product: string, ms: seq<Message>) {
    ms != [] &&
    match ms[|ms| - 1]
    case SnapshotMsg(s) =>
      if s.product == product then IsCrossed(Loaded(s.bids), Loaded(s.asks))
      else CrossedSnapshotStands(product, ms[..|ms| - 1])
    case DeltaMsg(d) => d.product != product && CrossedSnapshotStands(product, ms[..|ms| - 1])
    case Disconnect => false
  }

  /** A synced book is crossed in one situation only, and always in that one. */
  lemma {:induction false} CrossedOnlyAfterCrossedSnapshot(product: string, ms: seq<Message>)
    ensures var b := DeliverAll(Empty(product), ms);
            b.state == Synced && IsCrossed(b.bids, b.asks) <==> CrossedSnapshotStands(product, ms)
  {
    if ms != [] {
      CrossedOnlyAfterCrossedSnapshot(product, ms[..|ms| - 1]);
    }
  }

  /** Joining one's own side of an uncrossed exported book stays clear of every price on the other. */
  lemma ExportIsPassive(b: Book, depth: nat)
    requires b.state == Synced && !IsCrossed(b.bids, b.asks)
    ensures var (bids, asks) := Export(b, depth).value;
            && Sorted(Buy, b.bids, bids) && Sorted(Sell, b.asks, asks)
            && (bids != [] ==> forall q :: q in b.asks ==> bids[0].price < q)
            && (asks != [] ==> forall p :: p in b.bids ==> p < asks[0].price)
  {
    UncrossedSeparates(b.bids, b.asks);
    BestFirstIsTop(Buy, b.bids, depth);
    BestFirstIsTop(Sell, b.asks, depth);
  }

  // ---------------------------------------------------------------------------
  // The book as the daemon keeps it
  // ---------------------------------------------------------------------------

  lemma BestIsUnique(side: Side, prices: set<real>, p: real)
    requires IsBest(side, prices, p)
    ensures Best(side, prices) == p
  {
  }

  method FindBest(side: Side, prices: set<real>) returns (p: real)
    requires prices != {}
    ensures IsBest(side, prices, p)
  {
    EmptyOrHasPrice(prices);
    p :| p in prices;
    var left := prices - {p};
    while left != {}
      invariant left <= prices && p in prices && p !in left
      invariant forall q :: q in prices && q !in left && q != p ==> Better(side, p, q)
      decreases |left|
    {
      EmptyOrHasPrice(left);
      var q :| q in left;
      if Better(side, q, p) {
        p := q;
      }
      left := left - {q};
    }
  }

  method CheckSanity(bids: Ladder, asks: Ladder) returns (crossed: bool)
    ensures crossed == IsCrossed(bids, asks)
  {
    if bids == map[] || asks == map[] {
      return false;
    }
    var bid := FindBest(Buy, bids.Keys);
    var ask := FindBest(Sell, asks.Keys);
    BestIsUnique(Buy, bids.Keys, bid);
    BestIsUnique(Sell, asks.Keys, ask);
    crossed := bid >= ask;
  }

  method LoadSide(levels: seq<Level>) returns (side: Ladder)
    ensures side == Loaded(levels)
  {
    side := map[];
    for n := 0 to |levels|
      invariant side == Loaded(levels[..n])
    {
      assert levels[..n + 1][..n] == levels[..n];
      if levels[n].qty > 0.0 {
        side := side[levels[n].price := levels[n].qty];
      }
    }
    assert levels[..|levels|] == levels;
  }

  method TakeBest(side: Side, ladder: Ladder, depth: nat) returns (top: seq<Level>)
    ensures top == BestFirst(side, ladder, depth)
  {
    top := [];
    var left, n := ladder, 0;
    while n < depth && left != map[]
      invariant 0 <= n <= depth
      invariant top + BestFirst(side, left, depth - n) == BestFirst(side, ladder, depth)
    {
      var p := FindBest(side, left.Keys);
      BestIsUnique(side, left.Keys, p);
      top := top + [Level(p, left[p])];
      left := left - {p};
      n := n + 1;
    }
  }

  class LocalOrderBook {
    const product: string
    var bids: Ladder
    var asks: Ladder
    var lastSeq: Option<nat>
    var state: BookState

    ghost function View(): Book
      reads this
    {
      Book(product, bids, asks, lastSeq, state)
    }

    constructor (product: string)
      ensures View() == Empty(product)
    {
      this.product := product;
      bids, asks, lastSeq, state := map[], map[], None, Uninitialised;
    }

    method ApplySnapshot(s: Snapshot) returns (e: Option<BookError>)
      requires WellFormed(View())
      modifies this
      ensures (View(), e) == OnSnapshot(old(View()), s) && WellFormed(View())
    {
      if s.product != product {
        return Some(ProductMismatch);
      }
      bids := LoadSide(s.bids);
      asks := LoadSide(s.asks);
      lastSeq, state := Some(s.seqNo), Synced;
      var crossed := CheckSanity(bids, asks);
      e := if crossed then Some(Crossed) else None;
    }

    method ApplyDelta(d: Delta) returns (e: Option<BookError>)
      requires WellFormed(View())
      modifies this
      ensures (View(), e) == OnDelta(old(View()), d) && WellFormed(View())
    {
      if d.product != product {
        return Some(ProductMismatch);
      }
      if state == Uninitialised {
        return Some(NotInitialised);
      }
      if state == OutOfSync {
        return Some(BookOutOfSync);
      }
      var expected := lastSeq.value + 1;
      if d.seqNo != expected {
        state := OutOfSync;
        return Some(SequenceGap(expected, d.seqNo));
      }
      if d.side == Buy {
        bids := Changed(bids, d.price, d.qty);
      } else {
        asks := Changed(asks, d.price, d.qty);
      }
      lastSeq := Some(d.seqNo);
      var crossed := CheckSanity(bids, asks);
      if crossed {
        state := OutOfSync;
        return Some(Crossed);
      }
      e := None;
    }

    method Invalidate()
      modifies this
      ensures View() == OnInvalidate(old(View()))
    {
      state, bids, asks, lastSeq := OutOfSync, map[], map[], None;
    }

    method ToSnapshot(depth: nat) returns (r: Result<(seq<Level>, seq<Level>), BookError>)
      ensures r == Export(View(), depth)
    {
      if state != Synced {
        return Err(BookOutOfSync);
      }
      var b := TakeBest(Buy, bids, depth);
      var a := TakeBest(Sell, asks, depth);
      r := Ok((b, a));
    }
  }
}
