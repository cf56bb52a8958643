/** Exactly when a stop lets a signal be submitted again too early, and what a rejected signal may leave behind. */
module Resubmission {
  import opened Prelude
  import opened MarketData
  import opened OrderBuilder
  import opened OrderFills
  import opened Submission
  import opened Pacing
  import OrderBook
  import Stamps

  // ---------------------------------------------------------------------------
  // Blocked for good
  // ---------------------------------------------------------------------------

  lemma {:induction false} RunUnfolds(all: seq<Event>)
    requires all != []
    ensures Run(all) == Step(Run(all[..|all| - 1]), all[|all| - 1])
  {
  }

  lemma {:induction false} LastOfBoth(events: seq<Event>, more: seq<Event>)
    requires more != []
    ensures (events + more)[..|events + more| - 1] == events + more[..|more| - 1]
    ensures (events + more)[|events + more| - 1] == more[|more| - 1]
  {
  }

  lemma {:induction false} RunMore(events: seq<Event>, more: seq<Event>)
    requires more != []
    ensures Run(events + more) == Step(Run(events + more[..|more| - 1]), more[|more| - 1])
  {
    LastOfBoth(events, more);
    RunUnfolds(events + more);
  }

  ghost predicate Extends(wire: seq<Request>, wire': seq<Request>) {
    |wire| <= |wire'| && forall a :: 0 <= a < |wire| ==> wire'[a] == wire[a]
  }

  lemma StepExtends(s: State, e: Event)
    requires Inv(s)
    ensures Extends(s.db.wire, Step(s, e).db.wire) && |Step(s, e).db.wire| <= |s.db.wire| + 1
    ensures |Step(s, e).db.wire| > |s.db.wire| ==>
              && s.pc.Sending?
              && Step(s, e).db.wire[|s.db.wire|].signal == s.pc.sig
              && Step(s, e).db.wire[|s.db.wire|].checked == s.pc.checked
  {
    if !e.Send? {
      OnlySendSends(s, e);
    }
  }

  /** From position `n` on, the signal is submitted only with guard times at or after the limit. */
  ghost predicate LateFrom(wire: seq<Request>, n: nat, sig: nat, limit: nat) {
    forall b :: n <= b < |wire| && wire[b].signal == sig ==> limit <= wire[b].checked
  }

  lemma LateStays(wire: seq<Request>, wire': seq<Request>, n: nat, sig: nat, limit: nat)
    requires Extends(wire, wire') && |wire'| <= |wire| + 1 && LateFrom(wire, n, sig, limit)
    requires |wire'| > |wire| && wire'[|wire|].signal == sig ==> limit <= wire'[|wire|].checked
    ensures LateFrom(wire', n, sig, limit)
  {
  }

  lemma StepStaysLate(s: State, e: Event, n: nat, sig: nat, limit: nat)
    requires Inv(s) && Orderly(s) && Blocked(s, sig, limit) && LateFrom(s.db.wire, n, sig, limit)
    ensures LateFrom(Step(s, e).db.wire, n, sig, limit)
  {
    StepExtends(s, e);
    BlockedStays(s, e, sig, limit);
    LateStays(s.db.wire, Step(s, e).db.wire, n, sig, limit);
  }

  /** Nothing that follows submits a blocked signal with a guard time before the limit. */
  lemma {:induction false} BlockedForGood(events: seq<Event>, more: seq<Event>, sig: nat, limit: nat)
    requires Blocked(Run(events), sig, limit)
    ensures Blocked(Run(events + more), sig, limit)
    ensures LateFrom(Run(events + more).db.wire, |Run(events).db.wire|, sig, limit)
  {
    if more == [] {
      assert events + more == events;
    } else {
      var before, last := events + more[..|more| - 1], more[|more| - 1];
      BlockedForGood(events, more[..|more| - 1], sig, limit);
      RunIsOrderly(before);
      BlockedStays(Run(before), last, sig, limit);
      StepStaysLate(Run(before), last, |Run(events).db.wire|, sig, limit);
      RunMore(events, more);
    }
  }

  // ---------------------------------------------------------------------------
  // The steps of a resubmission
  // ---------------------------------------------------------------------------

  /** Holds of every state that any step leads to from one where it holds. */
  ghost predicate Closed(P: State -> bool) {
    forall s, e :: P(s) ==> P(Step(s, e))
  }

  predicate Startable(s: State, sig: nat) {
    && s.pc == Idle && s.queue == [] && sig < |s.db.signals|
    && Rested(s.db.signals[sig], s.now) && Unexpired(s.db.signals[sig], s.now)
  }

  lemma IsDue(s: State, sig: nat)
    requires Orderly(s) && Startable(s, sig)
    ensures Due(s.db.signals[sig], s.now)
  {
    var row := s.db.signals[sig];
    if row.retryAfter.Some? {
      Stamps.StampOrder(row.retryAfter.value, s.now);
    }
  }

  lemma PollsIt(s: State, sig: nat)
    requires s.pc == Idle && s.queue == [] && sig < |s.db.signals| && Due(s.db.signals[sig], s.now)
    ensures Fetch(s, Poll([sig])) == s.(queue := [sig])
  {
  }

  lemma TakesIt(s: State, sig: nat)
    requires Startable(s, sig)
    ensures Fetch(s.(queue := [sig]), Take) == s.(pc := Gated(sig, s.now))
  {
    assert [sig][1..] == [];
  }

  lemma ReachesGuard(P: State -> bool, s: State, sig: nat)
    requires Closed(P) && P(s) && Orderly(s) && Startable(s, sig)
    ensures P(s.(pc := Gated(sig, s.now)))
  {
    IsDue(s, sig);
    PollsIt(s, sig);
    TakesIt(s, sig);
    assert Step(s, Poll([sig])) == s.(queue := [sig]);
    assert Step(s.(queue := [sig]), Take) == s.(pc := Gated(sig, s.now));
  }

  /** What one attempt is given: a snapshot of the feeds and a portfolio from which the order can be built. */
  ghost predicate Supplies(g: Signal, feeds: Feeds, b: Basis, o: Order) {
    && g.sleeve == CryptoLeverage
    && SnapshotForSignal(g.symbol, g.metadata, feeds) == Ok(b.market)
    && BuildOrder(g, b.market, b.positions) == Ok(o)
  }

  lemma ClearedPc(s: State, feeds: Feeds, b: Basis)
    requires s.pc.Gated? && s.pc.sig < |s.db.signals| && s.db.signals[s.pc.sig].signal.sleeve == CryptoLeverage
    requires var g := s.db.signals[s.pc.sig].signal; SnapshotForSignal(g.symbol, g.metadata, feeds) == Ok(b.market)
    ensures Decide(s, Gate(feeds, b.positions, true)) == Cleared(s.pc.sig, s.pc.checked, b)
  {
  }

  /** A step of the processor that only decides where to go. */
  predicate Decides(e: Event) {
    e.Gate? || e.FindOrder? || e.LookupFinds? || e.LookupFindsNone? || e.LookupFails? || e.Build?
    || e.Accepted? || e.Uncertainty? || e.Refusal? || e.BrokerError?
  }

  lemma DecisionFacts(s: State, e: Event)
    requires Decides(e)
    ensures Step(s, e) == s.(pc := Decide(s, e))
  {
  }

  lemma GoesOn(P: State -> bool, s: State, e: Event, pc: Pc)
    requires Closed(P) && P(s) && Decides(e) && Decide(s, e) == pc
    ensures P(s.(pc := pc))
  {
    DecisionFacts(s, e);
    assert P(Step(s, e));
  }

  lemma PassesGate(P: State -> bool, s: State, sig: nat, feeds: Feeds, b: Basis, o: Order)
    requires Closed(P) && P(s.(pc := Gated(sig, s.now))) && sig < |s.db.signals|
    requires Supplies(s.db.signals[sig].signal, feeds, b, o)
    ensures P(s.(pc := Cleared(sig, s.now, b)))
  {
    var gated := s.(pc := Gated(sig, s.now));
    ClearedPc(gated, feeds, b);
    GoesOn(P, gated, Gate(feeds, b.positions, true), Cleared(sig, s.now, b));
  }

  lemma BuiltPc(s: State, o: Order)
    requires s.pc.Building? && s.pc.sig < |s.db.signals|
    requires BuildOrder(s.db.signals[s.pc.sig].signal, s.pc.basis.market, s.pc.basis.positions) == Ok(o)
    ensures s.pc.into.None? ==> Decide(s, Build) == Inserting(s.pc.sig, s.pc.checked, s.pc.basis, o)
    ensures s.pc.into.Some? ==> Decide(s, Build) == Sending(s.pc.sig, s.pc.checked, s.pc.basis, s.pc.into.value, o)
  {
  }

  lemma BuildsIt(P: State -> bool, s: State, sig: nat, b: Basis, o: Order, into: Option<nat>)
    requires Closed(P) && P(s.(pc := Building(sig, s.now, b, into))) && sig < |s.db.signals|
    requires BuildOrder(s.db.signals[sig].signal, b.market, b.positions) == Ok(o)
    ensures into.None? ==> P(s.(pc := Inserting(sig, s.now, b, o)))
    ensures into.Some? ==> P(s.(pc := Sending(sig, s.now, b, into.value, o)))
  {
    var building := s.(pc := Building(sig, s.now, b, into));
    BuiltPc(building, o);
    GoesOn(P, building, Build, Decide(building, Build));
  }

  function Sent(s: State, sig: nat, i: nat, b: Basis, o: Order): State {
    s.(db := s.db.(wire := s.db.wire + [Request(sig, i, TermsOf(o), b, s.now, s.now)]),
       pc := Awaiting(sig, i, |s.db.wire|))
  }

  lemma SendsIt(P: State -> bool, s: State, sig: nat, i: nat, b: Basis, o: Order)
    requires Closed(P) && P(s.(pc := Sending(sig, s.now, b, i, o)))
    ensures P(Sent(s, sig, i, b, o))
  {
    var sending := s.(pc := Sending(sig, s.now, b, i, o));
    assert Step(sending, Send) == SendStep(sending) == Sent(s, sig, i, b, o);
  }

  predicate UncertainRow(d: Tables, sig: nat, i: nat) {
    i < |d.rows| && d.rows[i].signal == sig && d.rows[i].status == Uncertain && !VenueLists(d.venue, d.rows[i].cli)
  }

  lemma {:induction false} FindsTheRow(rows: seq<OrderRow>, sig: nat, i: nat)
    requires i < |rows| && rows[i].signal == sig && InFlight(rows[i].status)
    requires forall k :: 0 <= k < |rows| && rows[k].signal == sig ==> k == i
    ensures PendingOrder(rows, sig) == i
  {
    if i < |rows| - 1 {
      FindsTheRow(rows[..|rows| - 1], sig, i);
    }
  }

  lemma FoundUncertain(s: State, i: nat)
    requires s.pc.Cleared? && RowsOk(s.db) && UncertainRow(s.db, s.pc.sig, i)
    ensures Decide(s, FindOrder) == LookingUp(s.pc.sig, s.pc.checked, s.pc.basis, i)
  {
    forall k | 0 <= k < |s.db.rows| && s.db.rows[k].signal == s.pc.sig ensures k == i {
      OneRowPerSignal(s.db, k, i);
    }
    FindsTheRow(s.db.rows, s.pc.sig, i);
  }

  lemma FindsIt(P: State -> bool, s: State, sig: nat, i: nat, b: Basis)
    requires Closed(P) && P(s.(pc := Cleared(sig, s.now, b))) && RowsOk(s.db) && UncertainRow(s.db, sig, i)
    ensures P(s.(pc := LookingUp(sig, s.now, b, i)))
  {
    var cleared := s.(pc := Cleared(sig, s.now, b));
    FoundUncertain(cleared, i);
    GoesOn(P, cleared, FindOrder, LookingUp(sig, s.now, b, i));
  }

  lemma LooksItUp(P: State -> bool, s: State, sig: nat, i: nat, b: Basis)
    requires Closed(P) && P(s.(pc := LookingUp(sig, s.now, b, i))) && UncertainRow(s.db, sig, i)
    ensures P(s.(pc := Building(sig, s.now, b, Some(i))))
  {
    var looking := s.(pc := LookingUp(sig, s.now, b, i));
    GoesOn(P, looking, LookupFindsNone, Building(sig, s.now, b, Some(i)));
  }

  /** A due signal whose uncertain order the venue does not list is submitted again into the same row. */
  lemma Resubmits(P: State -> bool, s: State, sig: nat, i: nat, feeds: Feeds, b: Basis, o: Order)
    requires Closed(P) && P(s) && Orderly(s) && RowsOk(s.db) && Startable(s, sig) && UncertainRow(s.db, sig, i)
    requires Supplies(s.db.signals[sig].signal, feeds, b, o)
    ensures P(Sent(s, sig, i, b, o))
  {
    ReachesGuard(P, s, sig);
    PassesGate(P, s, sig, feeds, b, o);
    FindsIt(P, s, sig, i, b);
    LooksItUp(P, s, sig, i, b);
    BuildsIt(P, s, sig, b, o, Some(i));
    SendsIt(P, s, sig, i, b, o);
  }

  // ---------------------------------------------------------------------------
  // A market that lets any viable signal through again
  // ---------------------------------------------------------------------------

  const Bid: OrderBook.Ladder := map[1.0 := 1.0]

  const Ask: OrderBook.Ladder := map[2.0 := 1.0]

  /** Feeds with one bid and one ask for the product. */
  function QuietFeeds(symbol: string): Feeds {
    Feeds(map[symbol := OrderBook.Book(symbol, Bid, Ask, Some(0), OrderBook.Synced)],
          map[symbol := Ticker(Some(1.0), None)])
  }

  lemma OneLevel(side: Side, ladder: OrderBook.Ladder, price: real)
    requires ladder == map[price := 1.0]
    ensures |OrderBook.BestFirst(side, ladder, DEPTH)| == 1
    ensures OrderBook.BestFirst(side, ladder, DEPTH)[0].price == price
  {
    OrderBook.BestFirstIsTop(side, ladder, DEPTH);
    assert ladder.Keys == {price};
  }

  lemma QuietSnapshot(g: Signal)
    requires Readable(g.metadata)
    ensures SnapshotForSignal(g.symbol, g.metadata, QuietFeeds(g.symbol)).Ok?
    ensures var m := SnapshotForSignal(g.symbol, g.metadata, QuietFeeds(g.symbol)).value;
            ExtractFx(g.metadata) == Ok(m.fx) && LimitPrice(g.side, m).Some? && LimitPrice(g.side, m).value > 0.0
  {
    SnapshotIff(g.symbol, g.metadata, QuietFeeds(g.symbol));
    OneLevel(Buy, Bid, 1.0);
    OneLevel(Sell, Ask, 2.0);
  }

  /** What could be built once can be built again, whatever has become of the market since. */
  lemma BuildsAgain(g: Signal, b: Basis, terms: Terms) returns (b': Basis, o: Order)
    requires Fits(g, b, terms)
    ensures Supplies(g, QuietFeeds(g.symbol), b', o)
  {
    QuietSnapshot(g);
    b' := Basis(SnapshotForSignal(g.symbol, g.metadata, QuietFeeds(g.symbol)).value, b.positions);
    o := BuildOrder(g, b'.market, b'.positions).value;
  }

  // ---------------------------------------------------------------------------
  // Too early
  // ---------------------------------------------------------------------------

  /** Some continuation submits the signal of `r` again before the cooldown after `r` is over. */
  ghost predicate CanComeTooEarly(events: seq<Event>, r: Request) {
    exists more, b :: |Run(events).db.wire| <= b < |Run(events + more).db.wire|
                      && Run(events + more).db.wire[b].signal == r.signal
                      && Run(events + more).db.wire[b].at < r.at + COOLDOWN
  }

  /** States that some continuation of the run reaches. */
  ghost predicate Ahead(events: seq<Event>, s: State) {
    exists more :: Run(events + more) == s
  }

  lemma AheadIsClosed(events: seq<Event>)
    ensures Ahead(events, Run(events)) && Closed((s: State) => Ahead(events, s))
  {
    assert events + [] == events;
    forall s, e | Ahead(events, s) ensures Ahead(events, Step(s, e)) {
      var more :| Run(events + more) == s;
      RunMore(events, more + [e]);
      assert (more + [e])[..|more|] == more;
    }
  }

  /** Clearing the queue and having the venue close the order leaves a state from which the signal can be sent again. */
  function Cleaned(s: State, i: nat): State
    requires i < |s.db.rows|
  {
    var venue := seq(|s.db.venue|, k requires 0 <= k < |s.db.venue| =>
                   if s.db.venue[k].terms.cli == s.db.rows[i].cli then s.db.venue[k].(resting := false) else s.db.venue[k]);
    s.(queue := [], db := s.db.(venue := venue))
  }

  lemma ClosesIt(s: State, i: nat, k: nat)
    requires i < |s.db.rows| && VenueOk(s.db) && k < |s.db.venue| && s.db.venue[k].terms.cli == s.db.rows[i].cli
    ensures Outside(s.db, s.now, VenueCloses(k)) == Cleaned(s, i).db
  {
    var d := Outside(s.db, s.now, VenueCloses(k));
    assert d.venue == Cleaned(s, i).db.venue;
  }

  lemma NothingToClose(s: State, i: nat)
    requires i < |s.db.rows| && forall k :: 0 <= k < |s.db.venue| ==> s.db.venue[k].terms.cli != s.db.rows[i].cli
    ensures Cleaned(s, i) == s.(queue := [])
  {
    assert Cleaned(s, i).db.venue == s.db.venue;
  }

  lemma CrashIsRead(s: State)
    ensures ReadStep(s, Crash) == s.(pc := Idle, queue := [])
  {
  }

  lemma CrashFacts(s: State)
    ensures Step(s, Crash) == s.(pc := Idle, queue := [])
  {
    CrashIsRead(s);
    assert Step(s, Crash) == ReadStep(s, Crash);
  }

  lemma Crashes(P: State -> bool, s: State)
    requires Closed(P) && P(s)
    ensures P(s.(pc := Idle, queue := []))
  {
    CrashFacts(s);
    assert P(Step(s, Crash));
  }

  lemma HappeningFacts(s: State, e: Event)
    requires IsOutside(e)
    ensures Step(s, e) == s.(db := Outside(s.db, s.now, e))
  {
  }

  lemma Happens(P: State -> bool, s: State, e: Event)
    requires Closed(P) && P(s) && IsOutside(e)
    ensures P(s.(db := Outside(s.db, s.now, e)))
  {
    HappeningFacts(s, e);
    assert P(Step(s, e));
  }

  lemma WriteFacts(s: State)
    ensures Step(s, Write) == WriteStep(s)
  {
  }

  lemma Writes(P: State -> bool, s: State)
    requires Closed(P) && P(s)
    ensures P(WriteStep(s))
  {
    WriteFacts(s);
    assert P(Step(s, Write));
  }

  lemma ReachesCleaned(P: State -> bool, s: State, i: nat)
    requires Closed(P) && P(s) && s.pc == Idle && i < |s.db.rows| && VenueOk(s.db)
    ensures P(Cleaned(s, i))
  {
    var rested := s.(queue := []);
    Crashes(P, s);
    assert s.(pc := Idle, queue := []) == rested;
    if k :| 0 <= k < |s.db.venue| && s.db.venue[k].terms.cli == s.db.rows[i].cli {
      ClosesIt(rested, i, k);
      Happens(P, rested, VenueCloses(k));
      assert rested.(db := Cleaned(rested, i).db) == Cleaned(s, i);
    } else {
      NothingToClose(s, i);
    }
  }

  lemma CleanedRowsOk(s: State, i: nat)
    requires i < |s.db.rows| && RowsOk(s.db)
    ensures RowsOk(Cleaned(s, i).db)
  {
    var t := Cleaned(s, i);
    forall k | 0 <= k < |t.db.rows| ensures RowOk(t.db, t.db.rows[k]) {
      assert RowOk(s.db, s.db.rows[k]);
    }
  }

  lemma CleanedIsStartable(s: State, r: Request)
    requires Inv(s) && Orderly(s) && s.pc == Idle && r in s.db.wire && Exposed(s.db, s.now, r)
    ensures var t := Cleaned(s, r.row);
            Orderly(t) && Startable(t, r.signal) && UncertainRow(t.db, r.signal, r.row)
  {
    var t := Cleaned(s, r.row);
    var a :| 0 <= a < |s.db.wire| && s.db.wire[a] == r;
    assert RequestOrderly(s, s.db.wire[a]) && RowFor(s.db, s.db.wire[a].signal, s.db.wire[a].row);
    ProceedingIsOrderly(s, t);
  }

  lemma ExposedComesTooEarly(P: State -> bool, s: State, r: Request) returns (t: State)
    requires Inv(s) && Orderly(s) && Faithful(s) && s.pc == Idle && r in s.db.wire && Exposed(s.db, s.now, r)
    requires Closed(P) && P(s)
    ensures P(t) && |t.db.wire| == |s.db.wire| + 1
    ensures t.db.wire[|s.db.wire|].signal == r.signal && t.db.wire[|s.db.wire|].at == s.now
  {
    var a :| 0 <= a < |s.db.wire| && s.db.wire[a] == r;
    var g := s.db.signals[r.signal].signal;
    var b, o := BuildsAgain(g, r.basis, r.terms);
    ReachesCleaned(P, s, r.row);
    CleanedIsStartable(s, r);
    CleanedRowsOk(s, r.row);
    Resubmits(P, Cleaned(s, r.row), r.signal, r.row, QuietFeeds(g.symbol), b, o);
    t := Sent(Cleaned(s, r.row), r.signal, r.row, b, o);
  }

  /**
   After any run at all that ends with the processor at rest, as every stop leaves it: a submission can be followed
   too early exactly when it is exposed - which can be read off its two rows and the clock before a restart.
   */
  lemma TooEarlyIffExposed(events: seq<Event>, a: nat)
    requires Run(events).pc == Idle && a < |Run(events).db.wire|
    ensures CanComeTooEarly(events, Run(events).db.wire[a])
            <==> Exposed(Run(events).db, Run(events).now, Run(events).db.wire[a])
  {
    var s := Run(events);
    var r := s.db.wire[a];
    RunIsOrderly(events);
    RunIsFaithful(events);
    if Exposed(s.db, s.now, r) {
      AheadIsClosed(events);
      var t := ExposedComesTooEarly((u: State) => Ahead(events, u), s, r);
      var more :| Run(events + more) == t;
      assert Run(events + more).db.wire[|s.db.wire|].at < r.at + COOLDOWN;
    } else {
      RestBlocks(s, r);
      NeverTooEarly(events, r);
    }
  }

  lemma NeverTooEarly(events: seq<Event>, r: Request)
    requires Blocked(Run(events), r.signal, r.at + COOLDOWN)
    ensures !CanComeTooEarly(events, r)
  {
    forall more, b | |Run(events).db.wire| <= b < |Run(events + more).db.wire| && Run(events + more).db.wire[b].signal == r.signal
      ensures r.at + COOLDOWN <= Run(events + more).db.wire[b].at
    {
      BlockedForGood(events, more, r.signal, r.at + COOLDOWN);
      RunIsOrderly(events + more);
      assert RequestOrderly(Run(events + more), Run(events + more).db.wire[b]);
    }
  }

  // ---------------------------------------------------------------------------
  // A first attempt that times out
  // ---------------------------------------------------------------------------

  function Fresh(g: Signal): State {
    State(0, Tables([SignalRow(g, Pending, 0, None, None)], [], [], [], {}), [], Idle)
  }

  /** The first signal, submitted once at time zero. */
  function Tried(g: Signal, b: Basis, o: Order, status: Status, pc: Pc): State {
    State(0, Tables([SignalRow(g, Pending, 0, None, None)], [OrderRow(0, o.cli, TermsOf(o), b, None, status)],
                    [Request(0, 0, TermsOf(o), b, 0, 0)], [], {}), [], pc)
  }

  lemma Arrives(P: State -> bool, g: Signal)
    requires Closed(P) && P(Start) && g.id == 0
    ensures P(Fresh(g)) && Orderly(Fresh(g))
  {
    assert Step(Start, Arrive(g, None)) == Fresh(g);
    StartIsOrderly();
    StepIsOrderly(Start, Arrive(g, None));
  }

  lemma FindsNothing(P: State -> bool, g: Signal, b: Basis)
    requires Closed(P) && P(Fresh(g).(pc := Cleared(0, 0, b)))
    ensures P(Fresh(g).(pc := Building(0, 0, b, None)))
  {
    var s := Fresh(g).(pc := Cleared(0, 0, b));
    GoesOn(P, s, FindOrder, Building(0, 0, b, None));
  }

  lemma InsertsIt(P: State -> bool, g: Signal, b: Basis, o: Order)
    requires Closed(P) && P(Fresh(g).(pc := Inserting(0, 0, b, o)))
    ensures P(Tried(g, b, o, PendingSubmission, Awaiting(0, 0, 0)))
  {
    var s := Fresh(g).(pc := Inserting(0, 0, b, o));
    var t := InsertStep(s);
    assert Step(s, Insert) == t;
    assert Step(t, Send) == SendStep(t) == Tried(g, b, o, PendingSubmission, Awaiting(0, 0, 0));
  }

  lemma TimeoutIsStored(g: Signal, b: Basis, o: Order)
    ensures WriteStep(Tried(g, b, o, PendingSubmission, MarkingUncertain(0, 0)))
            == Tried(g, b, o, Uncertain, Cooling(0, COOLDOWN))
  {
  }

  lemma TimeoutIsNoticed(g: Signal, b: Basis, o: Order)
    ensures Decide(Tried(g, b, o, PendingSubmission, Awaiting(0, 0, 0)), Uncertainty) == MarkingUncertain(0, 0)
  {
  }

  lemma TimesOut(P: State -> bool, g: Signal, b: Basis, o: Order)
    requires Closed(P) && P(Tried(g, b, o, PendingSubmission, Awaiting(0, 0, 0)))
    ensures P(Tried(g, b, o, Uncertain, Cooling(0, COOLDOWN)))
  {
    var s := Tried(g, b, o, PendingSubmission, Awaiting(0, 0, 0));
    TimeoutIsNoticed(g, b, o);
    GoesOn(P, s, Uncertainty, MarkingUncertain(0, 0));
    assert s.(pc := MarkingUncertain(0, 0)) == Tried(g, b, o, PendingSubmission, MarkingUncertain(0, 0));
    Writes(P, Tried(g, b, o, PendingSubmission, MarkingUncertain(0, 0)));
    TimeoutIsStored(g, b, o);
  }

  lemma FirstAttempt(P: State -> bool, g: Signal, feeds: Feeds, b: Basis, o: Order)
    requires Closed(P) && P(Start) && g.id == 0 && Supplies(g, feeds, b, o)
    ensures P(Tried(g, b, o, Uncertain, Cooling(0, COOLDOWN)))
  {
    Arrives(P, g);
    ReachesGuard(P, Fresh(g), 0);
    PassesGate(P, Fresh(g), 0, feeds, b, o);
    FindsNothing(P, g, b);
    BuildsIt(P, Fresh(g), 0, b, o, None);
    InsertsIt(P, g, b, o);
    TimesOut(P, g, b, o);
  }

  // ---------------------------------------------------------------------------
  // Runs that go wrong
  // ---------------------------------------------------------------------------

  const Rates: Metadata := Some(map["atr_absolute" := JsonNumber(Some(1.0)), "atr_pct" := JsonNumber(Some(1.0)),
                                    "fx_quote_per_chf" := JsonNumber(Some(1.0))])

  /** Closes the long position in the product. */
  const SampleExit: Signal := Signal(0, "PI_XBTUSD", Sell, TrendExit, CryptoLeverage, 1.0, Rates)

  lemma SampleExitBuilds(quantity: real) returns (b: Basis, o: Order)
    requires quantity >= 1.0
    ensures Supplies(SampleExit, QuietFeeds("PI_XBTUSD"), b, o)
    ensures o.cli == ClientId(0) && o.quantity == quantity
  {
    assert Readable(Rates);
    QuietSnapshot(SampleExit);
    var m := SnapshotForSignal("PI_XBTUSD", Rates, QuietFeeds("PI_XBTUSD")).value;
    b := Basis(m, [OpenPosition("PI_XBTUSD", CryptoLeverage, quantity)]);
    assert FindPosition(SampleExit, b.positions) == Some(b.positions[0]);
    o := BuildOrder(SampleExit, b.market, b.positions).value;
  }

  lemma ReachableIsSound(s: State)
    requires Ahead([], s)
    ensures Inv(s) && Orderly(s)
  {
    var more :| Run([] + more) == s;
    RunIsOrderly([] + more);
  }

  /** A crash after the uncertain outcome is stored and before the cooldown is leaves the submission exposed. */
  lemma CrashExposes(b: Basis, o: Order)
    requires Supplies(SampleExit, QuietFeeds("PI_XBTUSD"), b, o)
    ensures Ahead([], Tried(SampleExit, b, o, Uncertain, Idle))
    ensures var s := Tried(SampleExit, b, o, Uncertain, Idle); Exposed(s.db, s.now, s.db.wire[0])
  {
    AheadIsClosed([]);
    var P := (u: State) => Ahead([], u);
    FirstAttempt(P, SampleExit, QuietFeeds("PI_XBTUSD"), b, o);
    Crashes(P, Tried(SampleExit, b, o, Uncertain, Cooling(0, COOLDOWN)));
  }

  /** So one signal can be submitted twice within the cooldown. */
  lemma CrashBreaksSpacing()
    ensures exists events, a, b :: 0 <= a < b < |Run(events).db.wire|
              && Run(events).db.wire[a].signal == Run(events).db.wire[b].signal
              && Run(events).db.wire[b].at < Run(events).db.wire[a].at + COOLDOWN
  {
    var b, o := SampleExitBuilds(1.0);
    CrashExposes(b, o);
    var t := ResendsExit(b, o, b, o);
    var more :| Run([] + more) == t;
    assert t.db.wire[1].signal == t.db.wire[0].signal && t.db.wire[1].at == t.db.wire[0].at;
  }

  /** After that crash the exit is built again, from whatever position there is by then. */
  lemma ResendsExit(b: Basis, o: Order, b': Basis, o': Order) returns (t: State)
    requires Supplies(SampleExit, QuietFeeds("PI_XBTUSD"), b, o) && Supplies(SampleExit, QuietFeeds("PI_XBTUSD"), b', o')
    ensures t == Sent(Tried(SampleExit, b, o, Uncertain, Idle), 0, 0, b', o') && Ahead([], t)
  {
    CrashExposes(b, o);
    AheadIsClosed([]);
    var s := Tried(SampleExit, b, o, Uncertain, Idle);
    ReachableIsSound(s);
    Resubmits((u: State) => Ahead([], u), s, 0, 0, QuietFeeds("PI_XBTUSD"), b', o');
    t := Sent(s, 0, 0, b', o');
  }

  lemma SecondAttemptLands(d: Tables, now: nat)
    requires |d.wire| == 2 && d.venue == [] && d.refused == {}
    ensures Outside(d, now, VenueAccepts(1)) == d.(venue := [VenueOrder(d.wire[1].terms, FromRequest(1), true)])
  {
  }

  /** And an exit whose position shrank in between rests at the venue with other terms than its row. */
  lemma ExitTermsMayDiffer()
    ensures exists events :: var d := Run(events).db;
              |d.rows| == |d.venue| == 1 && d.venue[0].terms.cli == d.rows[0].cli && d.venue[0].terms != d.rows[0].terms
  {
    var b, o := SampleExitBuilds(2.0);
    var b', o' := SampleExitBuilds(1.0);
    var t := ResendsExit(b, o, b', o');
    SecondAttemptLands(t.db, t.now);
    AheadIsClosed([]);
    Happens((u: State) => Ahead([], u), t, VenueAccepts(1));
    var u := t.(db := t.db.(venue := [VenueOrder(TermsOf(o'), FromRequest(1), true)]));
    assert Ahead([], u);
    var more :| Run([] + more) == u;
  }

  // ---------------------------------------------------------------------------
  // What a rejected signal leaves at the venue
  // ---------------------------------------------------------------------------

  lemma {:induction false} RunExtends(events: seq<Event>, more: seq<Event>)
    ensures Extends(Run(events).db.wire, Run(events + more).db.wire)
  {
    if more == [] {
      assert events + more == events;
    } else {
      RunExtends(events, more[..|more| - 1]);
      RunKeeps(events + more[..|more| - 1]);
      StepExtends(Run(events + more[..|more| - 1]), more[|more| - 1]);
      RunMore(events, more);
    }
  }

  /** Some submission of the signal is alive: the venue has not refused it. */
  ghost predicate Alive(d: Tables, sig: nat) {
    exists a :: 0 <= a < |d.wire| && d.wire[a].signal == sig && a !in d.refused
  }

  /** The venue's orders under a signal's client id come from submissions of it that were not refused. */
  lemma VenueOrderIsAlive(d: Tables, sig: nat)
    requires VenueOk(d) && WireOk(d) && RefusedOk(d) && VenueKnows(d.venue, ClientId(sig))
    ensures Alive(d, sig)
  {
    var k :| 0 <= k < |d.venue| && d.venue[k].terms.cli == ClientId(sig);
    assert OriginOk(d, d.venue[k]);
    var a := d.venue[k].origin.attempt;
    assert OwnCli(d, d.wire[a].signal, d.wire[a].terms.cli);
    ClientIdInjective(d.wire[a].signal, sig);
  }

  lemma {:induction false} RefusedIsForGood(events: seq<Event>, more: seq<Event>)
    ensures Run(events).db.refused <= Run(events + more).db.refused
  {
    if more == [] {
      assert events + more == events;
    } else {
      RefusedIsForGood(events, more[..|more| - 1]);
      RunKeeps(events + more[..|more| - 1]);
      StepKeeps(Run(events + more[..|more| - 1]), more[|more| - 1]);
      RunMore(events, more);
    }
  }

  /** A settled signal is not submitted any more. */
  lemma SettledComesNotAlive(events: seq<Event>, more: seq<Event>, sig: nat)
    requires Settled(Run(events), sig) && Alive(Run(events + more).db, sig)
    ensures Alive(Run(events).db, sig)
  {
    var s, t := Run(events), Run(events + more);
    RunExtends(events, more);
    RefusedIsForGood(events, more);
    BlockedForGood(events, more, sig, t.now + 1);
    RunIsOrderly(events + more);
    var a :| 0 <= a < |t.db.wire| && t.db.wire[a].signal == sig && a !in t.db.refused;
    assert RequestOrderly(t, t.db.wire[a]);
    assert s.db.wire[a].signal == sig;
  }

  lemma AliveMayArrive(events: seq<Event>, a: nat)
    requires Inv(Run(events)) && a < |Run(events).db.wire| && a !in Run(events).db.refused
    ensures VenueKnows(Run(events + [VenueAccepts(a)]).db.venue, ClientId(Run(events).db.wire[a].signal))
  {
    var s := Run(events);
    var r := s.db.wire[a];
    assert OwnCli(s.db, r.signal, s.db.wire[a].terms.cli);
    RunMore(events, [VenueAccepts(a)]);
    assert events + [VenueAccepts(a)][..0] == events;
    var d := Outside(s.db, s.now, VenueAccepts(a));
    if !VenueKnows(s.db.venue, r.terms.cli) {
      assert d.venue[|s.db.venue|].terms.cli == r.terms.cli;
    }
  }

  /**
   After any run, a rejected signal has or may yet get an order at the venue exactly when some submission of it was
   not refused by the venue.
   */
  lemma RejectedMayExecuteIff(events: seq<Event>, sig: nat)
    requires sig < |Run(events).db.signals| && Run(events).db.signals[sig].status == Refused
    ensures (exists more :: VenueKnows(Run(events + more).db.venue, ClientId(sig))) <==> Alive(Run(events).db, sig)
  {
    RunKeeps(events);
    if Alive(Run(events).db, sig) {
      var d := Run(events).db;
      var a :| 0 <= a < |d.wire| && d.wire[a].signal == sig && a !in d.refused;
      AliveMayArrive(events, a);
    }
    forall more | VenueKnows(Run(events + more).db.venue, ClientId(sig)) ensures Alive(Run(events).db, sig) {
      RunKeeps(events + more);
      VenueOrderIsAlive(Run(events + more).db, sig);
      SettledComesNotAlive(events, more, sig);
    }
  }

  /** The timed-out order landed and was filled at once; the cooldown has run out. */
  function Landed(b: Basis, o: Order): State {
    State(COOLDOWN, Tables([SignalRow(SampleExit, Pending, 0, None, Some(COOLDOWN))],
                           [OrderRow(0, o.cli, TermsOf(o), b, None, Uncertain)],
                           [Request(0, 0, TermsOf(o), b, 0, 0)],
                           [VenueOrder(TermsOf(o), FromRequest(0), false)], {}), [], Idle)
  }

  lemma LandingFacts(s: State, b: Basis, o: Order)
    requires s == Tried(SampleExit, b, o, Uncertain, Cooling(0, COOLDOWN))
    ensures var venue := [VenueOrder(TermsOf(o), FromRequest(0), true)];
            && Outside(s.db, s.now, VenueAccepts(0)) == s.db.(venue := venue)
            && Outside(s.db.(venue := venue), s.now, VenueCloses(0)) == s.db.(venue := Landed(b, o).db.venue)
  {
  }

  lemma CooldownFacts(b: Basis, o: Order)
    ensures var s := Tried(SampleExit, b, o, Uncertain, Cooling(0, COOLDOWN));
            WriteStep(s.(db := s.db.(venue := Landed(b, o).db.venue))) == Landed(b, o).(now := 0)
  {
  }

  lemma ArrivesAndFills(P: State -> bool, b: Basis, o: Order)
    requires Closed(P) && P(Tried(SampleExit, b, o, Uncertain, Cooling(0, COOLDOWN)))
    ensures P(Landed(b, o).(now := 0))
  {
    var s := Tried(SampleExit, b, o, Uncertain, Cooling(0, COOLDOWN));
    LandingFacts(s, b, o);
    Happens(P, s, VenueAccepts(0));
    Happens(P, s.(db := s.db.(venue := [VenueOrder(TermsOf(o), FromRequest(0), true)])), VenueCloses(0));
    Writes(P, s.(db := s.db.(venue := Landed(b, o).db.venue)));
    CooldownFacts(b, o);
  }

  lemma Lands(P: State -> bool, b: Basis, o: Order)
    requires Closed(P) && P(Tried(SampleExit, b, o, Uncertain, Cooling(0, COOLDOWN)))
    ensures P(Landed(b, o))
  {
    ArrivesAndFills(P, b, o);
    Stamps.YearStartGrows(0, 10_000);
    assert ReadStep(Landed(b, o).(now := 0), Tick(COOLDOWN)) == Landed(b, o);
    assert Step(Landed(b, o).(now := 0), Tick(COOLDOWN)) == Landed(b, o);
  }

  /** The submission awaited was refused: its order fails and its signal is rejected. */
  function Rejected(s: State, i: nat, attempt: nat): State
    requires i < |s.db.rows| && 0 < |s.db.signals|
  {
    s.(db := WithStatus(WithRow(s.db, i, s.db.rows[i].brokerId, Failed), 0, Refused).(refused := s.db.refused + {attempt}),
       pc := Idle)
  }

  lemma RefusalFacts(s: State, i: nat)
    requires i < |s.db.rows| && 0 < |s.db.signals|
    ensures WriteStep(s.(pc := MarkingFailed(0, i)))
            == s.(db := WithRow(s.db, i, s.db.rows[i].brokerId, Failed), pc := Refusing(0))
    ensures WriteStep(s.(db := WithRow(s.db, i, s.db.rows[i].brokerId, Failed), pc := Refusing(0)))
            == s.(db := WithStatus(WithRow(s.db, i, s.db.rows[i].brokerId, Failed), 0, Refused), pc := Idle)
  {
  }

  lemma IsRefused(P: State -> bool, s: State, i: nat, attempt: nat)
    requires Closed(P) && P(s) && s.pc == Awaiting(0, i, attempt) && i < |s.db.rows| && 0 < |s.db.signals|
    requires attempt < |s.db.wire| && !WasPlaced(s.db.venue, attempt)
    ensures P(Rejected(s, i, attempt))
  {
    Happens(P, s, VenueRefuses(attempt));
    var t := s.(db := s.db.(refused := s.db.refused + {attempt}));
    RefusalFacts(t, i);
    GoesOn(P, t, Refusal, MarkingFailed(0, i));
    Writes(P, t.(pc := MarkingFailed(0, i)));
    Writes(P, t.(db := WithRow(t.db, i, t.db.rows[i].brokerId, Failed), pc := Refusing(0)));
  }

  /** The whole run, for any predicate that every step keeps. */
  lemma ReachesRejected(P: State -> bool, b: Basis, o: Order)
    requires Closed(P) && P(Start) && Supplies(SampleExit, QuietFeeds("PI_XBTUSD"), b, o) && o.cli == ClientId(0)
    requires P(Landed(b, o)) ==> Orderly(Landed(b, o)) && RowsOk(Landed(b, o).db)
    ensures P(Rejected(Sent(Landed(b, o), 0, 0, b, o), 0, 1))
  {
    FirstAttempt(P, SampleExit, QuietFeeds("PI_XBTUSD"), b, o);
    Lands(P, b, o);
    assert UncertainRow(Landed(b, o).db, 0, 0);
    Resubmits(P, Landed(b, o), 0, 0, QuietFeeds("PI_XBTUSD"), b, o);
    IsRefused(P, Sent(Landed(b, o), 0, 0, b, o), 0, 1);
  }

  /**
   Such a run: an order that landed on a timeout and was filled is not among the open orders, so it is submitted
   again, refused as a client id already seen, and its row fails and its signal is rejected though it was executed.
   */
  lemma RejectedThoughExecuted()
    ensures exists events :: var d := Run(events).db;
              |d.signals| == |d.rows| == |d.venue| == 1 && d.signals[0].status == Refused && d.rows[0].status == Failed
              && d.venue[0].terms.cli == ClientId(0) && !d.venue[0].resting
  {
    AheadIsClosed([]);
    var b, o := SampleExitBuilds(1.0);
    if Ahead([], Landed(b, o)) {
      ReachableIsSound(Landed(b, o));
    }
    ReachesRejected((u: State) => Ahead([], u), b, o);
    var u := Rejected(Sent(Landed(b, o), 0, 0, b, o), 0, 1);
    assert Ahead([], u);
    var more :| Run([] + more) == u;
  }
}
