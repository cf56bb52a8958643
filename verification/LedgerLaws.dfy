/** What holds of every positions table that any run of fills can produce. */
module LedgerLaws {
  import opened Prelude
  import opened Ledger

  // ---------------------------------------------------------------------------
  // Recorded P&L against the true coin cash flow of a row
  // ---------------------------------------------------------------------------

  /** Coins in minus coins out of a row's lots: signed contracts over price. */
  function CashFlow(lots: seq<Lot>): real
    requires Booked(lots)
  {
    (if |lots| == 1 then 0.0 else CashFlow(Init(lots))) + Last(lots).signed / Last(lots).price
  }

  /** What averaging two entry prices arithmetically hides from a harmonic payoff. */
  function AveragingGap(q: real, entry: real, dq: real, price: real): (g: real)
    requires q > 0.0 && entry > 0.0 && dq > 0.0 && price > 0.0
  {
    PositiveParts(q, entry, dq, price);
    q * dq * ((entry - price) * (entry - price)) * (1.0 / entry) * (1.0 / price) * (1.0 / (q * entry + dq * price))
  }

  function Drift(lots: seq<Lot>): real
    requires Booked(lots)
  {
    if |lots| == 1 then 0.0
    else if Extends(lots) then
      Drift(Init(lots))
      + AveragingGap(Abs(Net(Init(lots))), EntryPrice(Init(lots)), Abs(Last(lots).signed), Last(lots).price)
    else Drift(Init(lots))
  }

  predicate AddsAtAverage(lots: seq<Lot>)
    requires Booked(lots)
  {
    |lots| > 1 ==> AddsAtAverage(Init(lots)) && (Extends(lots) ==> Last(lots).price == EntryPrice(Init(lots)))
  }

  lemma PositiveParts(q: real, entry: real, dq: real, price: real)
    requires q > 0.0 && entry > 0.0 && dq > 0.0 && price > 0.0
    ensures q * entry > 0.0 && dq * price > 0.0
    ensures q * entry + dq * price > 0.0
  {
  }

  lemma GapIsSquare(q: real, entry: real, dq: real, price: real)
    requires q > 0.0 && entry > 0.0 && dq > 0.0 && price > 0.0
    ensures AveragingGap(q, entry, dq, price) >= 0.0
    ensures AveragingGap(q, entry, dq, price) == 0.0 <==> entry == price
  {
    PositiveParts(q, entry, dq, price);
    var d := (entry - price) * (entry - price);
    var a := q * dq;
    var u, v, w := 1.0 / entry, 1.0 / price, 1.0 / (q * entry + dq * price);
    assert a > 0.0;
    SquareIsPositive(entry - price);
    assert a * d >= 0.0 && (a * d == 0.0 <==> d == 0.0);
    PositiveProduct(a * d, u);
    PositiveProduct(a * d * u, v);
    PositiveProduct(a * d * u * v, w);
  }

  lemma SquareIsPositive(x: real)
    ensures x * x >= 0.0 && (x * x == 0.0 <==> x == 0.0)
  {
    if x > 0.0 {
      PositiveProduct(x, x);
    } else if x < 0.0 {
      PositiveProduct(-x, -x);
      assert x * x == (-x) * (-x);
    }
  }

  lemma PositiveProduct(x: real, y: real)
    requires x >= 0.0 && y > 0.0
    ensures x * y >= 0.0 && (x * y == 0.0 <==> x == 0.0)
  {
  }

  /** The identity behind the drift: q/e + dq/p exceeds (q + dq)/average by exactly the gap. */
  lemma AveragingIdentity(q: real, entry: real, dq: real, price: real)
    requires q > 0.0 && entry > 0.0 && dq > 0.0 && price > 0.0
    ensures AveragePrice(q, entry, dq, price) > 0.0
    ensures q / entry + dq / price
            == (q + dq) / AveragePrice(q, entry, dq, price) + AveragingGap(q, entry, dq, price)
  {
    PositiveParts(q, entry, dq, price);
    AverageStaysPositive(q, entry, dq, price);
    Quotient(q, entry);
    Quotient(dq, price);
    QuotientByAverage(q, entry, dq, price);
    GapExpanded(q, entry, dq, price);
  }

  lemma QuotientByAverage(q: real, entry: real, dq: real, price: real)
    requires q > 0.0 && entry > 0.0 && dq > 0.0 && price > 0.0
    ensures q * entry + dq * price > 0.0 && AveragePrice(q, entry, dq, price) > 0.0
    ensures (q + dq) / AveragePrice(q, entry, dq, price)
            == (q + dq) * (q + dq) * (1.0 / (q * entry + dq * price))
  {
  }

  lemma GapExpanded(q: real, entry: real, dq: real, price: real)
    requires q > 0.0 && entry > 0.0 && dq > 0.0 && price > 0.0
    ensures q * entry + dq * price > 0.0
    ensures AveragingGap(q, entry, dq, price)
            == q * (1.0 / entry) + dq * (1.0 / price) - (q + dq) * (q + dq) * (1.0 / (q * entry + dq * price))
  {
  }

  lemma Quotient(x: real, y: real)
    requires y > 0.0
    ensures (1.0 / y) * y == 1.0 && x / y == x * (1.0 / y)
  {
  }

  predicate IsLong(lots: seq<Lot>)
    requires lots != []
  {
    lots[0].signed > 0.0
  }

  lemma {:induction false} SideIsKept(lots: seq<Lot>)
    requires Booked(lots)
    ensures if IsLong(lots) then Net(lots) >= 0.0 else Net(lots) <= 0.0
  {
    if |lots| > 1 {
      SideIsKept(Init(lots));
    } else {
      assert Init(lots) == [];
    }
  }

  /** Long rows never claim more, short rows never less, than their cash flow - by exactly the drift. */
  lemma {:induction false} ValueAgainstCashFlow(lots: seq<Lot>)
    requires Booked(lots)
    ensures Drift(lots) >= 0.0
    ensures Drift(lots) == 0.0 <==> AddsAtAverage(lots)
    ensures Realized(lots) + Net(lots) / EntryPrice(lots)
            == if IsLong(lots) then CashFlow(lots) - Drift(lots) else CashFlow(lots) + Drift(lots)
  {
    if |lots| == 1 {
      assert Init(lots) == [];
    } else {
      var init, l := Init(lots), Last(lots);
      ValueAgainstCashFlow(init);
      SideIsKept(init);
      var net, entry := Net(init), EntryPrice(init);
      if Extends(lots) {
        GapIsSquare(Abs(net), entry, Abs(l.signed), l.price);
        AddingValue(net, entry, l);
      } else {
        TakingValue(net, entry, l);
      }
    }
  }

  lemma AddingValue(net: real, entry: real, l: Lot)
    requires entry > 0.0 && l.price > 0.0 && SameSign(net, l.signed)
    ensures AveragePrice(Abs(net), entry, Abs(l.signed), l.price) > 0.0
    ensures var gap := AveragingGap(Abs(net), entry, Abs(l.signed), l.price);
            (net + l.signed) / AveragePrice(Abs(net), entry, Abs(l.signed), l.price)
            == net / entry + l.signed / l.price + if net > 0.0 then -gap else gap
  {
    AveragingIdentity(Abs(net), entry, Abs(l.signed), l.price);
    if net < 0.0 {
      var a := AveragePrice(Abs(net), entry, Abs(l.signed), l.price);
      NegatedQuotient(net, entry);
      NegatedQuotient(l.signed, l.price);
      NegatedQuotient(net + l.signed, a);
    }
  }

  lemma NegatedQuotient(x: real, y: real)
    requires y > 0.0
    ensures (-x) / y == -(x / y)
  {
  }

  lemma TakingValue(net: real, entry: real, l: Lot)
    requires entry > 0.0 && l.price > 0.0
    ensures ClosedPnl(-l.signed, entry, l.price) + (net + l.signed) / entry == net / entry + l.signed / l.price
  {
  }

  // ---------------------------------------------------------------------------
  // Entry price
  // ---------------------------------------------------------------------------

  function LowestAdd(lots: seq<Lot>): real
    requires Booked(lots)
  {
    if |lots| == 1 then Last(lots).price
    else if Extends(lots) then MinReal(LowestAdd(Init(lots)), Last(lots).price)
    else LowestAdd(Init(lots))
  }

  function HighestAdd(lots: seq<Lot>): real
    requires Booked(lots)
  {
    if |lots| == 1 then Last(lots).price
    else if Extends(lots) then MaxReal(HighestAdd(Init(lots)), Last(lots).price)
    else HighestAdd(Init(lots))
  }

  lemma AverageIsBetween(q: real, entry: real, dq: real, price: real, lo: real, hi: real)
    requires q > 0.0 && dq > 0.0 && lo <= entry <= hi && lo <= price <= hi
    ensures lo <= AveragePrice(q, entry, dq, price) <= hi
  {
    var a := AveragePrice(q, entry, dq, price);
    assert a * (q + dq) == q * entry + dq * price;
    assert q * (entry - lo) >= 0.0 && dq * (price - lo) >= 0.0;
    assert q * (hi - entry) >= 0.0 && dq * (hi - price) >= 0.0;
    assert (a - lo) * (q + dq) >= 0.0;
    assert (hi - a) * (q + dq) >= 0.0;
  }

  lemma {:induction false} EntryWithinAdds(lots: seq<Lot>)
    requires Booked(lots)
    ensures LowestAdd(lots) <= EntryPrice(lots) <= HighestAdd(lots)
  {
    if |lots| > 1 {
      var init, l := Init(lots), Last(lots);
      EntryWithinAdds(init);
      if Extends(lots) {
        AverageIsBetween(Abs(Net(init)), EntryPrice(init), Abs(l.signed), l.price, LowestAdd(lots), HighestAdd(lots));
      }
    }
  }

  // ---------------------------------------------------------------------------
  // Conservation
  // ---------------------------------------------------------------------------

  function FlowOf(f: Fill, key: Key): real {
    if f.key == key then Signed(f) else 0.0
  }

  function TotalFlow(fills: seq<Fill>, key: Key): real {
    if fills == [] then 0.0 else FlowOf(fills[0], key) + TotalFlow(fills[1..], key)
  }

  lemma OpenRowIsFound(rows: seq<Row>, key: Key, i: nat)
    requires Sound(rows) && i < |rows| && OpenFor(rows[i], key)
    ensures FindOpen(rows, key) == i
  {
  }

  lemma ApplyMovesQuantity(rows: seq<Row>, f: Fill, key: Key)
    requires Sound(rows) && Positive(f)
    ensures Sound(Apply(rows, f).0)
    ensures OpenQuantity(Apply(rows, f).0, key) == OpenQuantity(rows, key) + FlowOf(f, key)
  {
    ApplyStaysSound(rows, f);
    var after := Apply(rows, f).0;
    var i := FindOpen(rows, f.key);
    if key != f.key {
      var k := FindOpen(rows, key);
      if k >= 0 {
        OpenRowIsFound(after, key, k);
      }
    } else if i < 0 {
      OpenRowIsFound(after, key, |rows|);
    } else {
      var h := HitRow(rows[i], f);
      if h.started != [] {
        OpenRowIsFound(after, key, |rows|);
      } else if h.row.open {
        OpenRowIsFound(after, key, i);
      }
    }
  }

  /** The open quantity is the sum of all signed fills of the instrument. */
  lemma {:induction false} OpenQuantityIsNetFlow(rows: seq<Row>, fills: seq<Fill>, key: Key)
    requires Sound(rows) && AllPositive(fills)
    ensures OpenQuantity(ApplyAll(rows, fills), key) == OpenQuantity(rows, key) + TotalFlow(fills, key)
    decreases |fills|
  {
    if fills != [] {
      ApplyMovesQuantity(rows, fills[0], key);
      OpenQuantityIsNetFlow(Apply(rows, fills[0]).0, fills[1..], key);
    }
  }

  lemma {:induction false} SleevePnlUpdate(rows: seq<Row>, i: nat, row: Row, sleeve: string)
    requires i < |rows| && row.sleeve == rows[i].sleeve
    ensures SleevePnl(rows[i := row], sleeve)
            == SleevePnl(rows, sleeve) + if row.sleeve == sleeve then row.realized - rows[i].realized else 0.0
  {
    var n := |rows| - 1;
    if i == n {
      assert rows[i := row][..n] == rows[..n];
    } else {
      SleevePnlUpdate(rows[..n], i, row, sleeve);
      assert rows[i := row][..n] == rows[..n][i := row];
    }
  }

  lemma SleevePnlFresh(rows: seq<Row>, row: Row, sleeve: string)
    requires row.realized == 0.0
    ensures SleevePnl(rows + [row], sleeve) == SleevePnl(rows, sleeve)
  {
  }

  /** The sleeve a fill's realised P&L belongs to: the one that opened the row it meets. */
  predicate CreditsSleeve(rows: seq<Row>, f: Fill, sleeve: string) {
    FindOpen(rows, f.key) >= 0 && rows[FindOpen(rows, f.key)].sleeve == sleeve
  }

  lemma ApplyMovesSleevePnl(rows: seq<Row>, f: Fill, sleeve: string)
    requires Sound(rows) && Positive(f)
    ensures SleevePnl(Apply(rows, f).0, sleeve)
            == SleevePnl(rows, sleeve) + if CreditsSleeve(rows, f, sleeve) then Apply(rows, f).1.realized else 0.0
  {
    var i := FindOpen(rows, f.key);
    if i < 0 {
      SleevePnlFresh(rows, FreshRow(f, Signed(f)), sleeve);
    } else {
      var h := HitRow(rows[i], f);
      SleevePnlUpdate(rows, i, h.row, sleeve);
      if h.started != [] {
        SleevePnlFresh(rows[i := h.row], h.started[0], sleeve);
        assert rows[i := h.row] + h.started == rows[i := h.row] + [h.started[0]];
      } else {
        assert rows[i := h.row] + h.started == rows[i := h.row];
      }
    }
  }

  function CreditedPnl(rows: seq<Row>, fills: seq<Fill>, sleeve: string): real
    requires Sound(rows) && AllPositive(fills)
    decreases |fills|
  {
    if fills == [] then 0.0
    else
      ApplyStaysSound(rows, fills[0]);
      (if CreditsSleeve(rows, fills[0], sleeve) then Apply(rows, fills[0]).1.realized else 0.0)
      + CreditedPnl(Apply(rows, fills[0]).0, fills[1..], sleeve)
  }

  /** Per sleeve, the rows' realised P&L is the sum of what the fills were reported to realise. */
  lemma {:induction false} SleevePnlIsReportedPnl(rows: seq<Row>, fills: seq<Fill>, sleeve: string)
    requires Sound(rows) && AllPositive(fills)
    ensures SleevePnl(ApplyAll(rows, fills), sleeve) == SleevePnl(rows, sleeve) + CreditedPnl(rows, fills, sleeve)
    decreases |fills|
  {
    if fills != [] {
      ApplyStaysSound(rows, fills[0]);
      ApplyMovesSleevePnl(rows, fills[0], sleeve);
      SleevePnlIsReportedPnl(Apply(rows, fills[0]).0, fills[1..], sleeve);
    }
  }

  function RecordCash(r: Record, key: Key): real {
    if r.key == key && Booked(r.lots) then CashFlow(r.lots) else 0.0
  }

  function JournalCash(j: Journal, key: Key): real {
    Sum(seq(|j|, i requires 0 <= i < |j| => RecordCash(j[i], key)))
  }

  function TotalCash(fills: seq<Fill>, key: Key): real
    requires AllPositive(fills)
  {
    if fills == [] then 0.0
    else (if fills[0].key == key then Signed(fills[0]) / fills[0].price else 0.0) + TotalCash(fills[1..], key)
  }

  lemma JournalCashUpdate(j: Journal, i: nat, r: Record, key: Key)
    requires i < |j|
    ensures JournalCash(j[i := r], key) == JournalCash(j, key) - RecordCash(j[i], key) + RecordCash(r, key)
  {
    var xs := seq(|j|, i requires 0 <= i < |j| => RecordCash(j[i], key));
    var j' := j[i := r];
    SumUpdate(xs, i, RecordCash(r, key));
    assert seq(|j'|, k requires 0 <= k < |j'| => RecordCash(j'[k], key)) == xs[i := RecordCash(r, key)];
  }

  lemma JournalCashExtend(j: Journal, r: Record, key: Key)
    ensures JournalCash(j + [r], key) == JournalCash(j, key) + RecordCash(r, key)
  {
    var xs := seq(|j|, i requires 0 <= i < |j| => RecordCash(j[i], key));
    var j' := j + [r];
    var ys := seq(|j'|, k requires 0 <= k < |j'| => RecordCash(j'[k], key));
    assert ys[..|j|] == xs;
  }

  lemma CashAppend(r: Record, l: Lot)
    requires Booked(r.lots) && Booked(Append(r, l).lots)
    ensures l.price > 0.0 && CashFlow(Append(r, l).lots) == CashFlow(r.lots) + l.signed / l.price
  {
  }

  lemma CashOfOne(l: Lot)
    requires l.price > 0.0 && l.signed != 0.0
    ensures Booked([l]) && CashFlow([l]) == l.signed / l.price
  {
  }

  lemma QuotientSplits(x: real, y: real, p: real)
    requires p > 0.0
    ensures x / p + y / p == (x + y) / p
  {
  }

  lemma NetOffMovesCash(r: Record, f: Fill)
    requires Booked(r.lots) && Live(r, f.key) && Positive(f)
    ensures Booked(NetOff(r, f).0.lots) && |NetOff(r, f).1| <= 1
    ensures NetOff(r, f).1 == [] ==>
              CashFlow(NetOff(r, f).0.lots) == CashFlow(r.lots) + Signed(f) / f.price
    ensures NetOff(r, f).1 != [] ==>
              && Booked(NetOff(r, f).1[0].lots)
              && CashFlow(NetOff(r, f).0.lots) + CashFlow(NetOff(r, f).1[0].lots)
                 == CashFlow(r.lots) + Signed(f) / f.price
  {
    HitRefinesNetOff(r, f);
    if NetOff(r, f).1 == [] {
      CashAppend(r, Lot(Signed(f), f.price));
    } else {
      var held := Net(r.lots);
      CashAppend(r, Lot(-held, f.price));
      CashOfOne(Lot(Signed(f) + held, f.price));
      QuotientSplits(-held, Signed(f) + held, f.price);
    }
  }

  lemma PostMovesCash(j: Journal, f: Fill, key: Key)
    requires SoundJournal(j) && Positive(f)
    ensures JournalCash(Post(j, f), key)
            == JournalCash(j, key) + if f.key == key then Signed(f) / f.price else 0.0
  {
    var i := FindLive(j, f.key);
    if i < 0 {
      CashOfOne(Lot(Signed(f), f.price));
      JournalCashExtend(j, Record(f.key, f.sleeve, [Lot(Signed(f), f.price)]), key);
    } else {
      var n := NetOff(j[i], f);
      NetOffMovesCash(j[i], f);
      JournalCashUpdate(j, i, n.0, key);
      if n.1 == [] {
        assert j[i := n.0] + n.1 == j[i := n.0];
      } else {
        JournalCashExtend(j[i := n.0], n.1[0], key);
        assert n.1 == [n.1[0]];
      }
    }
  }

  /** The lots partition the fills: summed over an instrument's rows, cash flow is that of its fills. */
  lemma {:induction false} CashIsConserved(j: Journal, fills: seq<Fill>, key: Key)
    requires SoundJournal(j) && AllPositive(fills)
    ensures JournalCash(PostAll(j, fills), key) == JournalCash(j, key) + TotalCash(fills, key)
    decreases |fills|
  {
    if fills != [] {
      PostMovesCash(j, fills[0], key);
      PostStaysSound(j, fills[0]);
      CashIsConserved(Post(j, fills[0]), fills[1..], key);
    }
  }

  // ---------------------------------------------------------------------------
  // Every reachable table
  // ---------------------------------------------------------------------------

  /**
   A row against the lots booked to it: the entry price lies among the opening and adding prices; a long's
   book value never exceeds its true cash flow and a short's never falls below it, with equality exactly
   while every add is at the average; and so, once closed, for the recorded P&L.
   */
  predicate RowFits(row: Row, lots: seq<Lot>)
    requires Booked(lots)
  {
    && row.quantity == Net(lots)
    && row.entry > 0.0
    && LowestAdd(lots) <= row.entry <= HighestAdd(lots)
    && (IsLong(lots) ==> row.realized + row.quantity / row.entry <= CashFlow(lots))
    && (!IsLong(lots) ==> row.realized + row.quantity / row.entry >= CashFlow(lots))
    && (row.realized + row.quantity / row.entry == CashFlow(lots) <==> AddsAtAverage(lots))
    && (!row.open && IsLong(lots) ==> row.realized <= CashFlow(lots))
    && (!row.open && !IsLong(lots) ==> row.realized >= CashFlow(lots))
  }

  lemma RowAgainstLots(r: Record)
    requires Booked(r.lots)
    ensures RowFits(RowOf(r), r.lots)
  {
    var value := Realized(r.lots) + Net(r.lots) / EntryPrice(r.lots);
    ValueAgainstCashFlow(r.lots);
    EntryWithinAdds(r.lots);
    assert Net(r.lots) == 0.0 ==> value == Realized(r.lots);
  }

  /** Every row of every reachable table fits the lots booked to it. */
  lemma ReachableRow(fills: seq<Fill>, i: nat)
    requires AllPositive(fills) && i < |ApplyAll([], fills)|
    ensures i < |PostAll([], fills)| && Booked(PostAll([], fills)[i].lots)
    ensures RowFits(ApplyAll([], fills)[i], PostAll([], fills)[i].lots)
  {
    RunRefinesJournal([], fills);
    assert Table([]) == [];
    assert ApplyAll([], fills)[i] == RowOf(PostAll([], fills)[i]);
    RowAgainstLots(PostAll([], fills)[i]);
  }

  /** At most one open row per instrument; open rows hold contracts, closed rows none. */
  lemma {:induction false} ReachableTable(fills: seq<Fill>, key: Key)
    requires AllPositive(fills)
    ensures var rows := ApplyAll([], fills);
            && (forall i, k :: 0 <= i < k < |rows| && rows[i].open && rows[k].open ==> rows[i].key != rows[k].key)
            && (forall i :: 0 <= i < |rows| ==> (rows[i].open <==> rows[i].quantity != 0.0))
            && OpenQuantity(rows, key) == TotalFlow(fills, key)
    ensures JournalCash(PostAll([], fills), key) == TotalCash(fills, key)
  {
    OpenQuantityIsNetFlow([], fills, key);
    CashIsConserved([], fills, key);
  }

  // ---------------------------------------------------------------------------
  // How a fill is cut up does not matter
  // ---------------------------------------------------------------------------

  function TotalQty(fills: seq<Fill>): real {
    if fills == [] then 0.0 else fills[0].qty + TotalQty(fills[1..])
  }

  lemma {:induction false} TotalQtyIsPositive(fills: seq<Fill>)
    requires AllPositive(fills)
    ensures TotalQty(fills) >= 0.0 && (fills != [] ==> TotalQty(fills) > 0.0)
  {
    if fills != [] {
      TotalQtyIsPositive(fills[1..]);
    }
  }

  lemma AverageTwice(q: real, entry: real, a: real, b: real, price: real)
    requires q > 0.0 && a > 0.0 && b > 0.0
    ensures AveragePrice(q + a, AveragePrice(q, entry, a, price), b, price) == AveragePrice(q, entry, a + b, price)
  {
  }

  lemma AverageAtPrice(q: real, dq: real, price: real)
    requires q > 0.0 && dq > 0.0
    ensures AveragePrice(q, price, dq, price) == price
  {
  }

  lemma ClosedPnlSplits(a: real, b: real, entry: real, exit: real)
    requires entry > 0.0 && exit > 0.0
    ensures ClosedPnl(a, entry, exit) + ClosedPnl(b, entry, exit) == ClosedPnl(a + b, entry, exit)
  {
  }

  lemma HitTwice(row: Row, f: Fill, a: real, b: real)
    requires row.entry > 0.0 && row.quantity != 0.0 && row.open
    requires a > 0.0 && b > 0.0 && f.price > 0.0
    requires HitRow(row, f.(qty := a)).row.open
    ensures var first := HitRow(row, f.(qty := a));
            && first.row.entry > 0.0 && first.row.quantity != 0.0 && first.started == []
            && HitRow(first.row, f.(qty := b)).row == HitRow(row, f.(qty := a + b)).row
            && HitRow(first.row, f.(qty := b)).started == HitRow(row, f.(qty := a + b)).started
  {
    var held := Abs(row.quantity);
    if SameSide(row.quantity, f.isBuy) {
      AverageTwice(held, row.entry, a, b, f.price);
      AverageStaysPositive(held, row.entry, a, f.price);
    } else {
      var sa, sb := Signed(f.(qty := a)), Signed(f.(qty := b));
      ClosedPnlSplits(-sa, -sb, row.entry, f.price);
      ClosedPnlSplits(-sa, row.quantity + sa, row.entry, f.price);
    }
  }

  lemma {:induction false} TwoFillsFromFlat(rows: seq<Row>, f: Fill, a: real, b: real)
    requires Sound(rows) && a > 0.0 && b > 0.0 && f.price > 0.0
    requires FindOpen(rows, f.key) < 0 && Sound(Apply(rows, f.(qty := a)).0)
    ensures Apply(Apply(rows, f.(qty := a)).0, f.(qty := b)).0 == Apply(rows, f.(qty := a + b)).0
  {
    OpenRowIsFound(Apply(rows, f.(qty := a)).0, f.key, |rows|);
    AverageAtPrice(a, b, f.price);
  }

  lemma TwoFillsStayingOpen(rows: seq<Row>, f: Fill, a: real, b: real, i: nat)
    requires Sound(rows) && a > 0.0 && b > 0.0 && f.price > 0.0
    requires FindOpen(rows, f.key) == i && Sound(Apply(rows, f.(qty := a)).0)
    requires HitRow(rows[i], f.(qty := a)).row.open
    ensures Apply(Apply(rows, f.(qty := a)).0, f.(qty := b)).0 == Apply(rows, f.(qty := a + b)).0
  {
    HitTwice(rows[i], f, a, b);
    var mid := Apply(rows, f.(qty := a)).0;
    assert mid == rows[i := mid[i]];
    OpenRowIsFound(mid, f.key, i);
  }

  lemma {:induction false} TwoFillsThroughFlat(rows: seq<Row>, f: Fill, a: real, b: real, i: nat)
    requires Sound(rows) && a > 0.0 && b > 0.0 && f.price > 0.0
    requires FindOpen(rows, f.key) == i && Sound(Apply(rows, f.(qty := a)).0)
    requires !HitRow(rows[i], f.(qty := a)).row.open
    ensures Apply(Apply(rows, f.(qty := a)).0, f.(qty := b)).0 == Apply(rows, f.(qty := a + b)).0
  {
    var first := HitRow(rows[i], f.(qty := a));
    var mid := Apply(rows, f.(qty := a)).0;
    assert HitRow(rows[i], f.(qty := a + b)).row == first.row;
    if first.started != [] {
      OpenRowIsFound(mid, f.key, |rows|);
      AverageAtPrice(a - Abs(rows[i].quantity), b, f.price);
    } else {
      assert mid == rows[i := first.row];
    }
  }

  /** Two fills at one price are one fill of their sum, whichever transitions they go through. */
  lemma TwoFillsAreOne(rows: seq<Row>, f: Fill, a: real, b: real)
    requires Sound(rows) && a > 0.0 && b > 0.0 && f.price > 0.0
    ensures Sound(Apply(rows, f.(qty := a)).0)
    ensures Apply(Apply(rows, f.(qty := a)).0, f.(qty := b)).0 == Apply(rows, f.(qty := a + b)).0
  {
    ApplyStaysSound(rows, f.(qty := a));
    var i := FindOpen(rows, f.key);
    if i < 0 {
      TwoFillsFromFlat(rows, f, a, b);
    } else if HitRow(rows[i], f.(qty := a)).row.open {
      TwoFillsStayingOpen(rows, f, a, b, i);
    } else {
      TwoFillsThroughFlat(rows, f, a, b, i);
    }
  }

  predicate SameTerms(g: Fill, f: Fill) {
    g == f.(qty := g.qty)
  }

  /** Replacing a fill by any split of it leaves the whole table - rows, entries, P&L - the same. */
  lemma {:induction false} SplitsDoNotMatter(rows: seq<Row>, f: Fill, parts: seq<Fill>)
    requires Sound(rows) && Positive(f) && AllPositive(parts) && parts != []
    requires forall k :: 0 <= k < |parts| ==> SameTerms(parts[k], f)
    requires TotalQty(parts) == f.qty
    ensures ApplyAll(rows, parts) == Apply(rows, f).0
    decreases |parts|
  {
    var rest := parts[1..];
    assert SameTerms(parts[0], f);
    ApplyStaysSound(rows, parts[0]);
    if rest == [] {
      assert parts[0] == f;
    } else {
      TotalQtyIsPositive(rest);
      var tail := f.(qty := TotalQty(rest));
      SplitsDoNotMatter(Apply(rows, parts[0]).0, tail, rest);
      TwoFillsAreOne(rows, f, parts[0].qty, TotalQty(rest));
    }
  }

  // ---------------------------------------------------------------------------
  // Exits
  // ---------------------------------------------------------------------------

  /** Fills of an exit of row `i`: the closing side, on the row's instrument, its whole quantity in all. */
  predicate ExitFills(row: Row, fills: seq<Fill>) {
    && AllPositive(fills) && fills != []
    && (forall k :: 0 <= k < |fills| ==> fills[k].key == row.key && fills[k].isBuy == (row.quantity < 0.0))
    && TotalQty(fills) == Abs(row.quantity)
  }

  /** A fill against the row that does not exceed it takes its quantity down, in place. */
  lemma ExitStep(rows: seq<Row>, i: nat, f: Fill)
    requires Sound(rows) && i < |rows| && rows[i].open && Positive(f)
    requires f.key == rows[i].key && f.isBuy == (rows[i].quantity < 0.0) && f.qty <= Abs(rows[i].quantity)
    ensures var (after, out) := Apply(rows, f);
            && |after| == |rows| && (forall k :: 0 <= k < |rows| && k != i ==> after[k] == rows[k])
            && after[i].key == rows[i].key
            && after[i].quantity == rows[i].quantity + Signed(f) == out.quantity
            && (if f.qty < Abs(rows[i].quantity) then out.transition == Reduced && after[i].open
                else out.transition == Closed && !after[i].open)
  {
  }

  /** An exit reduces, then closes exactly once, and never flips; no other row moves. */
  lemma {:induction false} ExitsClose(rows: seq<Row>, i: nat, fills: seq<Fill>)
    requires Sound(rows) && i < |rows| && rows[i].open && ExitFills(rows[i], fills)
    ensures var outs := Outcomes(rows, fills);
            && (forall k :: 0 <= k < |fills| - 1 ==> outs[k].transition == Reduced && outs[k].quantity != 0.0)
            && outs[|fills| - 1].transition == Closed
            && outs[|fills| - 1].quantity == 0.0
    ensures var after := ApplyAll(rows, fills);
            && |after| == |rows|
            && !after[i].open && after[i].quantity == 0.0
            && (forall k :: 0 <= k < |rows| && k != i ==> after[k] == rows[k])
    decreases |fills|
  {
    var f := fills[0];
    TotalQtyIsPositive(fills[1..]);
    ExitStep(rows, i, f);
    ApplyStaysSound(rows, f);
    if fills[1..] != [] {
      ExitsClose(Apply(rows, f).0, i, fills[1..]);
    }
  }
}
