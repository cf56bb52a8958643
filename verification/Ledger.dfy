/**
 The positions table and the five-way fill transition on it.

 Two views are kept side by side. `Apply` is the code's view: find the open row of
 the instrument, then open, add, reduce, close or flip. A `Journal` is the
 bookkeeping view: per row, the list of signed lots booked to it, nothing else.
 `Post` nets a fill against the open record and lets the excess start a new one.
 `ApplyRefinesPost` says that the table is always the journal, read row by row.
 */
module Ledger {
  import opened Prelude

  datatype Key = Key(symbol: string, broker: string)

  datatype Fill = Fill(key: Key, sleeve: string, isBuy: bool, qty: real, price: real)

  predicate Positive(f: Fill) {
    f.qty > 0.0 && f.price > 0.0
  }

  predicate AllPositive(fills: seq<Fill>) {
    forall i :: 0 <= i < |fills| ==> Positive(fills[i])
  }

  function Signed(f: Fill): (s: real)
  {
    if f.isBuy then f.qty else -f.qty
  }

  // ---------------------------------------------------------------------------
  // The table
  // ---------------------------------------------------------------------------

  datatype Row = Row(key: Key, sleeve: string, quantity: real, entry: real, realized: real, open: bool)

  datatype Transition = Opened | Added | Reduced | Closed | Flipped

  datatype Outcome = Outcome(row: nat, quantity: real, entry: Option<real>, realized: real, transition: Transition)

  predicate OpenFor(row: Row, key: Key) {
    row.open && row.key == key
  }

  /** What every reachable table satisfies; `JournalTableIsSound` proves it. */
  ghost predicate Sound(rows: seq<Row>) {
    && (forall i :: 0 <= i < |rows| ==> rows[i].entry > 0.0 && (rows[i].open <==> rows[i].quantity != 0.0))
    && (forall i, j :: 0 <= i < j < |rows| && rows[i].open && rows[j].open ==> rows[i].key != rows[j].key)
  }

  /** The youngest open row of the instrument, or -1. */
  function FindOpen(rows: seq<Row>, key: Key): (i: int)
    ensures -1 <= i < |rows|
    ensures i >= 0 ==> OpenFor(rows[i], key)
    ensures forall j :: i < j < |rows| ==> !OpenFor(rows[j], key)
  {
    if rows == [] then -1
    else if OpenFor(rows[|rows| - 1], key) then |rows| - 1
    else FindOpen(rows[..|rows| - 1], key)
  }

  /** P&L per inverse contract, in the settlement coin. */
  function InversePnl(entry: real, exit: real): (p: real)
    requires entry > 0.0 && exit > 0.0
  {
    1.0 / entry - 1.0 / exit
  }

  /** P&L of closing `closed` contracts: positive for a long being closed, negative for a short. */
  function ClosedPnl(closed: real, entry: real, exit: real): (p: real)
    requires entry > 0.0 && exit > 0.0
  {
    closed * InversePnl(entry, exit)
  }

  function SameSide(quantity: real, isBuy: bool): bool {
    (quantity >= 0.0) == isBuy
  }

  function FreshRow(f: Fill, quantity: real): Row {
    Row(f.key, f.sleeve, quantity, f.price, 0.0, true)
  }

  function AveragePrice(q: real, entry: real, dq: real, price: real): (e: real)
    requires q > 0.0 && dq > 0.0
  {
    (q * entry + dq * price) / (q + dq)
  }

  /** What a fill does to the open row it meets: the row afterwards, the row it may start, the report. */
  datatype Hit = Hit(row: Row, started: seq<Row>, quantity: real, entry: Option<real>, realized: real, transition: Transition)

  function HitRow(row: Row, f: Fill): (h: Hit)
    requires row.entry > 0.0 && row.quantity != 0.0 && Positive(f)
  {
    var held := Abs(row.quantity);
    if SameSide(row.quantity, f.isBuy) then
      var quantity := row.quantity + Signed(f);
      var entry := AveragePrice(held, row.entry, f.qty, f.price);
      Hit(row.(quantity := quantity, entry := entry), [], quantity, Some(entry), 0.0, Added)
    else if f.qty < held then
      var quantity := row.quantity + Signed(f);
      var realized := ClosedPnl(-Signed(f), row.entry, f.price);
      Hit(row.(quantity := quantity, realized := row.realized + realized), [],
          quantity, Some(row.entry), realized, Reduced)
    else
      var realized := ClosedPnl(row.quantity, row.entry, f.price);
      var shut := row.(quantity := 0.0, realized := row.realized + realized, open := false);
      if f.qty == held then
        Hit(shut, [], 0.0, None, realized, Closed)
      else
        var residual := if f.isBuy then f.qty - held else -(f.qty - held);
        Hit(shut, [FreshRow(f, residual)], residual, Some(f.price), realized, Flipped)
  }

  /** One fill on the table: the new table and what the caller is told. */
  function Apply(rows: seq<Row>, f: Fill): (r: (seq<Row>, Outcome))
    requires Sound(rows) && Positive(f)
  {
    var i := FindOpen(rows, f.key);
    if i < 0 then
      (rows + [FreshRow(f, Signed(f))], Outcome(|rows|, Signed(f), Some(f.price), 0.0, Opened))
    else
      var h := HitRow(rows[i], f);
      (rows[i := h.row] + h.started,
       Outcome(if h.started == [] then i else |rows|, h.quantity, h.entry, h.realized, h.transition))
  }

  // ---------------------------------------------------------------------------
  // The journal
  // ---------------------------------------------------------------------------

  datatype Lot = Lot(signed: real, price: real)

  datatype Record = Record(key: Key, sleeve: string, lots: seq<Lot>)

  type Journal = seq<Record>

  function Init(lots: seq<Lot>): seq<Lot>
    requires lots != []
  {
    lots[..|lots| - 1]
  }

  function Last(lots: seq<Lot>): Lot
    requires lots != []
  {
    lots[|lots| - 1]
  }

  /** The contracts still held after the lots. */
  function Net(lots: seq<Lot>): real {
    if lots == [] then 0.0 else Net(Init(lots)) + Last(lots).signed
  }

  predicate SameSign(x: real, y: real) {
    (x > 0.0 && y > 0.0) || (x < 0.0 && y < 0.0)
  }

  /** One row's lots: it opens, then every lot adds to the position or takes at most all of it. */
  predicate Booked(lots: seq<Lot>) {
    && lots != []
    && Last(lots).price > 0.0
    && Last(lots).signed != 0.0
    && (|lots| > 1 ==>
          && Booked(Init(lots))
          && (SameSign(Net(Init(lots)), Last(lots).signed)
              || (Net(Init(lots)) != 0.0 && !SameSign(Net(Init(lots)), Last(lots).signed)
                  && Abs(Last(lots).signed) <= Abs(Net(Init(lots))))))
  }

  /** Does the last lot open or add (rather than reduce)? */
  predicate Extends(lots: seq<Lot>)
    requires lots != []
  {
    |lots| == 1 || SameSign(Net(Init(lots)), Last(lots).signed)
  }

  function EntryPrice(lots: seq<Lot>): (e: real)
    requires Booked(lots)
    ensures e > 0.0
  {
    if |lots| == 1 then Last(lots).price
    else if Extends(lots) then
      AverageStaysPositive(Abs(Net(Init(lots))), EntryPrice(Init(lots)), Abs(Last(lots).signed), Last(lots).price);
      AveragePrice(Abs(Net(Init(lots))), EntryPrice(Init(lots)), Abs(Last(lots).signed), Last(lots).price)
    else EntryPrice(Init(lots))
  }

  function Realized(lots: seq<Lot>): real
    requires Booked(lots)
  {
    if |lots| == 1 then 0.0
    else if Extends(lots) then Realized(Init(lots))
    else Realized(Init(lots)) + ClosedPnl(-Last(lots).signed, EntryPrice(Init(lots)), Last(lots).price)
  }

  function RowOf(r: Record): Row
    requires Booked(r.lots)
  {
    Row(r.key, r.sleeve, Net(r.lots), EntryPrice(r.lots), Realized(r.lots), Net(r.lots) != 0.0)
  }

  predicate Live(r: Record, key: Key) {
    r.key == key && Net(r.lots) != 0.0
  }

  ghost predicate SoundJournal(j: Journal) {
    && (forall i :: 0 <= i < |j| ==> Booked(j[i].lots))
    && (forall i, k :: 0 <= i < k < |j| && Net(j[i].lots) != 0.0 && Net(j[k].lots) != 0.0 ==> j[i].key != j[k].key)
  }

  function Table(j: Journal): (rows: seq<Row>)
    requires SoundJournal(j)
    ensures |rows| == |j| && forall i :: 0 <= i < |j| ==> rows[i] == RowOf(j[i])
  {
    seq(|j|, i requires 0 <= i < |j| => RowOf(j[i]))
  }

  function FindLive(j: Journal, key: Key): (i: int)
    ensures -1 <= i < |j|
    ensures i >= 0 ==> Live(j[i], key)
    ensures forall k :: i < k < |j| ==> !Live(j[k], key)
  {
    if j == [] then -1
    else if Live(j[|j| - 1], key) then |j| - 1
    else FindLive(j[..|j| - 1], key)
  }

  function Append(r: Record, l: Lot): Record {
    r.(lots := r.lots + [l])
  }

  /** Net the fill against the record; what is left over starts a new one. */
  function NetOff(r: Record, f: Fill): (Record, Journal) {
    var held := Net(r.lots);
    if SameSign(held, Signed(f)) || f.qty <= Abs(held) then
      (Append(r, Lot(Signed(f), f.price)), [])
    else
      (Append(r, Lot(-held, f.price)), [Record(f.key, f.sleeve, [Lot(Signed(f) + held, f.price)])])
  }

  function Post(j: Journal, f: Fill): Journal {
    var i := FindLive(j, f.key);
    if i < 0 then
      j + [Record(f.key, f.sleeve, [Lot(Signed(f), f.price)])]
    else
      var n := NetOff(j[i], f);
      j[i := n.0] + n.1
  }

  function PostAll(j: Journal, fills: seq<Fill>): Journal
    decreases |fills|
  {
    if fills == [] then j else PostAll(Post(j, fills[0]), fills[1..])
  }

  // ---------------------------------------------------------------------------
  // Refinement
  // ---------------------------------------------------------------------------

  lemma AverageStaysPositive(q: real, entry: real, dq: real, price: real)
    requires q > 0.0 && dq > 0.0 && entry > 0.0 && price > 0.0
    ensures AveragePrice(q, entry, dq, price) > 0.0
  {
  }

  lemma SinglyBooked(l: Lot)
    requires l.price > 0.0 && l.signed != 0.0
    ensures Booked([l]) && Net([l]) == l.signed && EntryPrice([l]) == l.price && Realized([l]) == 0.0
  {
  }

  function AddTo(row: Row, l: Lot): Row
    requires row.quantity != 0.0 && l.signed != 0.0
  {
    row.(quantity := row.quantity + l.signed,
         entry := AveragePrice(Abs(row.quantity), row.entry, Abs(l.signed), l.price))
  }

  function TakeFrom(row: Row, l: Lot): Row
    requires row.entry > 0.0 && l.price > 0.0
  {
    row.(quantity := row.quantity + l.signed,
         realized := row.realized + ClosedPnl(-l.signed, row.entry, l.price),
         open := row.quantity + l.signed != 0.0)
  }

  /** The five transitions are two moves: add a lot, or take one (and start afresh with the rest). */
  lemma HitIsAddOrTake(row: Row, f: Fill)
    requires row.entry > 0.0 && row.quantity != 0.0 && row.open && Positive(f)
    ensures SameSign(row.quantity, Signed(f)) ==>
              HitRow(row, f).row == AddTo(row, Lot(Signed(f), f.price)) && HitRow(row, f).started == []
    ensures !SameSign(row.quantity, Signed(f)) && f.qty <= Abs(row.quantity) ==>
              HitRow(row, f).row == TakeFrom(row, Lot(Signed(f), f.price)) && HitRow(row, f).started == []
    ensures !SameSign(row.quantity, Signed(f)) && f.qty > Abs(row.quantity) ==>
              && HitRow(row, f).row == TakeFrom(row, Lot(-row.quantity, f.price))
              && HitRow(row, f).started == [FreshRow(f, Signed(f) + row.quantity)]
  {
  }

  lemma RowAfterAdding(r: Record, l: Lot)
    requires Booked(r.lots) && l.price > 0.0 && SameSign(Net(r.lots), l.signed)
    ensures Booked(Append(r, l).lots)
    ensures RowOf(Append(r, l)) == AddTo(RowOf(r), l)
  {
  }

  lemma RowAfterTaking(r: Record, l: Lot)
    requires Booked(r.lots) && l.price > 0.0 && l.signed != 0.0 && Net(r.lots) != 0.0
    requires !SameSign(Net(r.lots), l.signed) && Abs(l.signed) <= Abs(Net(r.lots))
    ensures Booked(Append(r, l).lots)
    ensures RowOf(Append(r, l)) == TakeFrom(RowOf(r), l)
  {
  }

  /** One record and one fill: the journal and the code agree, and at most one of the two records is live. */
  lemma HitRefinesNetOff(r: Record, f: Fill)
    requires Booked(r.lots) && Live(r, f.key) && Positive(f)
    ensures Booked(NetOff(r, f).0.lots)
    ensures NetOff(r, f).0.key == r.key && NetOff(r, f).0.sleeve == r.sleeve
    ensures RowOf(NetOff(r, f).0) == HitRow(RowOf(r), f).row
    ensures |NetOff(r, f).1| == |HitRow(RowOf(r), f).started| <= 1
    ensures NetOff(r, f).1 != [] ==>
              && Booked(NetOff(r, f).1[0].lots)
              && NetOff(r, f).1[0].key == f.key
              && Net(NetOff(r, f).1[0].lots) != 0.0
              && Net(NetOff(r, f).0.lots) == 0.0
              && RowOf(NetOff(r, f).1[0]) == HitRow(RowOf(r), f).started[0]
  {
    var held := Net(r.lots);
    HitIsAddOrTake(RowOf(r), f);
    if SameSign(held, Signed(f)) {
      RowAfterAdding(r, Lot(Signed(f), f.price));
    } else if f.qty <= Abs(held) {
      RowAfterTaking(r, Lot(Signed(f), f.price));
    } else {
      RowAfterTaking(r, Lot(-held, f.price));
      SinglyBooked(Lot(Signed(f) + held, f.price));
    }
  }

  lemma PostStaysSound(j: Journal, f: Fill)
    requires SoundJournal(j) && Positive(f)
    ensures SoundJournal(Post(j, f))
  {
    var i := FindLive(j, f.key);
    if i < 0 {
      SinglyBooked(Lot(Signed(f), f.price));
    } else {
      HitRefinesNetOff(j[i], f);
    }
  }

  lemma JournalTableIsSound(j: Journal)
    requires SoundJournal(j)
    ensures Sound(Table(j))
  {
  }

  lemma FindsAgree(j: Journal, key: Key)
    requires SoundJournal(j)
    ensures FindOpen(Table(j), key) == FindLive(j, key)
  {
  }

  /** Reading a journal row by row commutes with rewriting one record and appending at most one. */
  lemma TableOfRewrite(j: Journal, i: nat, r: Record, started: Journal)
    requires SoundJournal(j) && i < |j| && SoundJournal(j[i := r] + started)
    ensures Booked(r.lots) && (forall k :: 0 <= k < |started| ==> Booked(started[k].lots))
    ensures Table(j[i := r] + started)
            == Table(j)[i := RowOf(r)] + seq(|started|, k requires 0 <= k < |started| => RowOf(started[k]))
  {
    var after := j[i := r] + started;
    assert after[i] == r;
    forall k | 0 <= k < |started| ensures Booked(started[k].lots) {
      assert after[|j| + k] == started[k];
    }
    forall k | 0 <= k < |after|
      ensures Table(after)[k] == if k == i then RowOf(r) else if k < |j| then Table(j)[k] else RowOf(started[k - |j|])
    {
      assert after[k] == if k == i then r else if k < |j| then j[k] else started[k - |j|];
    }
  }

  lemma StartedRowsAgree(r: Record, f: Fill)
    requires Booked(r.lots) && Live(r, f.key) && Positive(f)
    ensures forall k :: 0 <= k < |NetOff(r, f).1| ==> Booked(NetOff(r, f).1[k].lots)
    ensures HitRow(RowOf(r), f).started
            == seq(|NetOff(r, f).1|, k requires 0 <= k < |NetOff(r, f).1| => RowOf(NetOff(r, f).1[k]))
  {
    HitRefinesNetOff(r, f);
  }

  lemma ApplyOnFoundRow(rows: seq<Row>, f: Fill, i: nat)
    requires Sound(rows) && Positive(f) && FindOpen(rows, f.key) == i
    ensures Apply(rows, f).0 == rows[i := HitRow(rows[i], f).row] + HitRow(rows[i], f).started
  {
  }

  lemma OpeningRefinesPost(j: Journal, f: Fill)
    requires SoundJournal(j) && Positive(f) && FindLive(j, f.key) < 0 && SoundJournal(Post(j, f))
    ensures Table(Post(j, f)) == Table(j) + [FreshRow(f, Signed(f))]
  {
    SinglyBooked(Lot(Signed(f), f.price));
    assert forall k :: 0 <= k < |j| ==> Post(j, f)[k] == j[k];
  }

  lemma {:induction false} HittingRefinesPost(j: Journal, f: Fill, i: nat)
    requires SoundJournal(j) && Positive(f) && FindLive(j, f.key) == i && SoundJournal(Post(j, f))
    ensures var h := HitRow(RowOf(j[i]), f);
            Table(Post(j, f)) == Table(j)[i := h.row] + h.started
  {
    HitRefinesNetOff(j[i], f);
    StartedRowsAgree(j[i], f);
    TableOfRewrite(j, i, NetOff(j[i], f).0, NetOff(j[i], f).1);
  }

  /** The code's five transitions compute exactly the journal, read row by row. */
  lemma ApplyRefinesPost(j: Journal, f: Fill)
    requires SoundJournal(j) && Positive(f)
    ensures Sound(Table(j)) && SoundJournal(Post(j, f))
    ensures Apply(Table(j), f).0 == Table(Post(j, f))
  {
    JournalTableIsSound(j);
    PostStaysSound(j, f);
    FindsAgree(j, f.key);
    var i := FindLive(j, f.key);
    if i < 0 {
      OpeningRefinesPost(j, f);
    } else {
      HittingRefinesPost(j, f, i);
      ApplyOnFoundRow(Table(j), f, i);
    }
  }

  lemma ApplyStaysSound(rows: seq<Row>, f: Fill)
    requires Sound(rows) && Positive(f)
    ensures Sound(Apply(rows, f).0)
  {
    var i := FindOpen(rows, f.key);
    if i >= 0 && SameSide(rows[i].quantity, f.isBuy) {
      AverageStaysPositive(Abs(rows[i].quantity), rows[i].entry, f.qty, f.price);
    }
  }

  function ApplyAll(rows: seq<Row>, fills: seq<Fill>): (r: seq<Row>)
    requires Sound(rows) && AllPositive(fills)
    ensures Sound(r)
    decreases |fills|
  {
    if fills == [] then rows
    else
      ApplyStaysSound(rows, fills[0]);
      ApplyAll(Apply(rows, fills[0]).0, fills[1..])
  }

  /** What the caller is told, fill by fill. */
  function Outcomes(rows: seq<Row>, fills: seq<Fill>): (outs: seq<Outcome>)
    requires Sound(rows) && AllPositive(fills)
    ensures |outs| == |fills|
    decreases |fills|
  {
    if fills == [] then []
    else
      ApplyStaysSound(rows, fills[0]);
      [Apply(rows, fills[0]).1] + Outcomes(Apply(rows, fills[0]).0, fills[1..])
  }

  /** After any run of fills the table is the journal of those fills. */
  lemma {:induction false} RunRefinesJournal(j: Journal, fills: seq<Fill>)
    requires SoundJournal(j) && AllPositive(fills)
    ensures Sound(Table(j)) && SoundJournal(PostAll(j, fills))
    ensures ApplyAll(Table(j), fills) == Table(PostAll(j, fills))
    decreases |fills|
  {
    JournalTableIsSound(j);
    if fills != [] {
      ApplyRefinesPost(j, fills[0]);
      RunRefinesJournal(Post(j, fills[0]), fills[1..]);
    }
  }

  // ---------------------------------------------------------------------------
  // The report
  // ---------------------------------------------------------------------------

  /** The contracts held of the instrument: those of its open row, or none. */
  function OpenQuantity(rows: seq<Row>, key: Key): real {
    if FindOpen(rows, key) < 0 then 0.0 else rows[FindOpen(rows, key)].quantity
  }

  /** What the open quantities before and after a fill say about it. */
  function Passage(before: real, after: real): Transition {
    if before == 0.0 then Opened
    else if after == 0.0 then Closed
    else if !SameSign(before, after) then Flipped
    else if Abs(after) > Abs(before) then Added
    else Reduced
  }

  /**
   The report, told by the table before and after: the open row of the instrument, its quantity and its entry; or, with
   none open any more, the row that this fill closed; and the passage between the open quantities.
   */
  ghost predicate ReportTells(rows: seq<Row>, f: Fill, after: seq<Row>, o: Outcome) {
    && o.row < |after| && |rows| <= |after|
    && o.quantity == OpenQuantity(after, f.key)
    && o.transition == Passage(OpenQuantity(rows, f.key), OpenQuantity(after, f.key))
    && (forall k :: 0 <= k < |after| && OpenFor(after[k], f.key) ==> o.row == k && o.entry == Some(after[k].entry))
    && ((forall k :: 0 <= k < |after| ==> !OpenFor(after[k], f.key)) ==>
          o.entry == None && o.row < |rows| && OpenFor(rows[o.row], f.key))
    && (forall k :: 0 <= k < |rows| && OpenFor(rows[k], f.key) ==> o.realized == after[k].realized - rows[k].realized)
    && ((forall k :: 0 <= k < |rows| ==> !OpenFor(rows[k], f.key)) ==> o.realized == 0.0)
  }

  lemma HitTells(row: Row, f: Fill)
    requires row.entry > 0.0 && row.quantity != 0.0 && row.open && Positive(f) && row.key == f.key
    ensures var h := HitRow(row, f);
            && h.row.key == f.key && h.realized == h.row.realized - row.realized && |h.started| <= 1
            && h.transition == Passage(row.quantity, h.quantity)
            && (h.started == [] ==> h.quantity == (if h.row.open then h.row.quantity else 0.0)
                                    && h.entry == (if h.row.open then Some(h.row.entry) else None))
            && (h.started != [] ==> !h.row.open && OpenFor(h.started[0], f.key)
                                    && h.quantity == h.started[0].quantity && h.entry == Some(h.started[0].entry))
  {
  }

  lemma OpenRowDecides(rows: seq<Row>, key: Key, i: nat)
    requires i < |rows| && OpenFor(rows[i], key) && forall k :: 0 <= k < |rows| && OpenFor(rows[k], key) ==> k == i
    ensures FindOpen(rows, key) == i && OpenQuantity(rows, key) == rows[i].quantity
  {
  }

  /** On every sound table, for every fill. */
  lemma ApplyReports(rows: seq<Row>, f: Fill)
    requires Sound(rows) && Positive(f)
    ensures ReportTells(rows, f, Apply(rows, f).0, Apply(rows, f).1)
  {
    var (after, o) := Apply(rows, f);
    var i := FindOpen(rows, f.key);
    if i < 0 {
      assert forall k :: 0 <= k < |rows| ==> after[k] == rows[k];
      OpenRowDecides(after, f.key, |rows|);
    } else {
      var h := HitRow(rows[i], f);
      HitTells(rows[i], f);
      assert forall k :: 0 <= k < |rows| && k != i ==> after[k] == rows[k] && !OpenFor(rows[k], f.key);
      assert after[i] == h.row;
      if h.started != [] {
        assert after[|rows|] == h.started[0];
        OpenRowDecides(after, f.key, |rows|);
      } else if h.row.open {
        OpenRowDecides(after, f.key, i);
      }
    }
  }

  // ---------------------------------------------------------------------------
  // The table as the daemon keeps it
  // ---------------------------------------------------------------------------

  /** Realised P&L of the rows of one sleeve, open or closed. */
  function SleevePnl(rows: seq<Row>, sleeve: string): real {
    if rows == [] then 0.0
    else
      SleevePnl(rows[..|rows| - 1], sleeve)
      + if rows[|rows| - 1].sleeve == sleeve then rows[|rows| - 1].realized else 0.0
  }

  class PositionTable {
    var rows: seq<Row>

    ghost predicate Valid()
      reads this
    {
      Sound(rows)
    }

    constructor ()
      ensures Valid() && rows == []
    {
      rows := [];
    }

    method ApplyFill(f: Fill) returns (o: Outcome)
      requires Valid() && Positive(f)
      modifies this
      ensures Valid()
      ensures rows == Apply(old(rows), f).0 && o == Apply(old(rows), f).1
    {
      ApplyStaysSound(rows, f);
      var i := FindOpen(rows, f.key);
      if i < 0 {
        o := Outcome(|rows|, Signed(f), Some(f.price), 0.0, Opened);
        rows := rows + [FreshRow(f, Signed(f))];
        return;
      }
      var row := rows[i];
      var held := Abs(row.quantity);
      ghost var hit := HitRow(row, f);
      assert old(rows)[i := hit.row] + [] == old(rows)[i := hit.row];
      if SameSide(row.quantity, f.isBuy) {
        var entry := AveragePrice(held, row.entry, f.qty, f.price);
        rows := rows[i := row.(quantity := row.quantity + Signed(f), entry := entry)];
        o := Outcome(i, row.quantity + Signed(f), Some(entry), 0.0, Added);
      } else if f.qty < held {
        var realized := ClosedPnl(-Signed(f), row.entry, f.price);
        rows := rows[i := row.(quantity := row.quantity + Signed(f), realized := row.realized + realized)];
        o := Outcome(i, row.quantity + Signed(f), Some(row.entry), realized, Reduced);
      } else {
        var realized := ClosedPnl(row.quantity, row.entry, f.price);
        rows := rows[i := row.(quantity := 0.0, realized := row.realized + realized, open := false)];
        if f.qty == held {
          o := Outcome(i, 0.0, None, realized, Closed);
        } else {
          var residual := if f.isBuy then f.qty - held else -(f.qty - held);
          o := Outcome(|rows|, residual, Some(f.price), realized, Flipped);
          rows := rows + [FreshRow(f, residual)];
        }
      }
    }

    method SumRealizedBySleeve(sleeve: string) returns (total: real)
      ensures total == SleevePnl(rows, sleeve)
    {
      total := 0.0;
      for n := 0 to |rows|
        invariant total == SleevePnl(rows[..n], sleeve)
      {
        assert rows[..n + 1][..n] == rows[..n];
        if rows[n].sleeve == sleeve {
          total := total + rows[n].realized;
        }
      }
      assert rows[..|rows|] == rows;
    }
  }
}
