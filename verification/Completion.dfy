/** Exactly when a pending signal that has an order row can still end up processed. */
module Completion {
  import opened Prelude
  import opened MarketData
  import opened OrderBuilder
  import opened OrderFills
  import opened Submission
  import opened Pacing
  import opened Resubmission
  import Stamps

  /** When the poll can pick the signal up at the earliest. */
  function StartTime(s: State, sig: nat): nat
    requires sig < |s.db.signals|
  {
    var retry := s.db.signals[sig].retryAfter;
    if retry.Some? && retry.value > s.now then retry.value else s.now
  }

  /** A row that is filled is not looked for any more; one without a broker id needs a submission that is alive. */
  ghost predicate Recoverable(d: Tables, sig: nat, i: nat)
    requires i < |d.rows|
  {
    && d.rows[i].status != Filled
    && (d.rows[i].status == Uncertain || d.rows[i].brokerId.Some? || Alive(d, sig))
  }

  ghost predicate Completable(s: State, sig: nat, i: nat)
    requires sig < |s.db.signals| && i < |s.db.rows|
  {
    Unexpired(s.db.signals[sig], StartTime(s, sig)) && Recoverable(s.db, sig, i)
  }

  predicate IsProcessed(s: State, sig: nat) {
    sig < |s.db.signals| && s.db.signals[sig].status == Processed
  }

  // ---------------------------------------------------------------------------
  // Too late
  // ---------------------------------------------------------------------------

  /** The signal cannot be picked up before it expires. */
  predicate TooLate(s: State, sig: nat) {
    && sig < |s.db.signals| && s.db.signals[sig].expires.Some?
    && Waiting(s, sig, s.db.signals[sig].expires.value)
    && (WorksOn(s.pc, sig) ==> s.pc.Refusing?)
    && !IsProcessed(s, sig)
  }

  lemma RefusalIsWritten(s: State, sig: nat)
    requires sig < |s.db.signals| && s.pc == Refusing(sig)
    ensures WriteStep(s).pc == Idle && WriteStep(s).db.signals[sig].status == Refused
  {
  }

  lemma RefusingDecides(s: State, e: Event)
    requires s.pc.Refusing?
    ensures Decide(s, e) == s.pc || Decide(s, e) == Idle
  {
  }

  lemma RefusingReads(s: State, e: Event)
    requires s.pc.Refusing?
    ensures ReadStep(s, e).pc == s.pc || ReadStep(s, e).pc == Idle
  {
    ReadPc(s, e);
    RefusingDecides(s, e);
    FetchesOnlyAtRest(s, e);
  }

  lemma RefusingWrites(s: State)
    requires s.pc.Refusing?
    ensures WriteStep(s).pc == s.pc || WriteStep(s).pc == Idle
  {
  }

  /** What comes after refusing is nothing else. */
  lemma RefusingGoesOn(s: State, e: Event)
    requires s.pc.Refusing?
    ensures Step(s, e).pc == s.pc || Step(s, e).pc == Idle
  {
    if e.Write? {
      RefusingWrites(s);
    } else if !IsOutside(e) && !e.Insert? && !e.Send? {
      RefusingReads(s, e);
    }
  }

  /** Work that starts is either guarded or refused. */
  lemma WorkStartsAtTheGuard(s: State, e: Event, sig: nat)
    requires !WorksOn(s.pc, sig) && WorksOn(Step(s, e).pc, sig)
    ensures Step(s, e).pc.Refusing? || Step(s, e).pc.Gated?
  {
    if e.Write? {
      WritesStartNothing(s);
    } else if e.Poll? || e.Take? {
      FetchGuards(s, e);
    } else if !IsOutside(e) && !e.Insert? && !e.Send? {
      DecideProceeds(s, e);
    }
  }

  lemma TooLateStays(s: State, e: Event, sig: nat)
    requires Orderly(s) && TooLate(s, sig)
    ensures TooLate(Step(s, e), sig)
  {
    SignalsAreStable(s, e, sig);
    WaitingStays(s, e, sig, s.db.signals[sig].expires.value);
    StepIsOrderly(s, e);
    if s.pc == Refusing(sig) {
      RefusingGoesOn(s, e);
      if e.Write? {
        RefusalIsWritten(s, sig);
      }
    } else if WorksOn(Step(s, e).pc, sig) {
      WorkStartsAtTheGuard(s, e, sig);
    }
  }

  // ---------------------------------------------------------------------------
  // Beyond recovery
  // ---------------------------------------------------------------------------

  /** The processor, working on the signal, has not got past looking for its order. */
  predicate Searching(pc: Pc, sig: nat) {
    WorksOn(pc, sig) ==>
      pc.Gated? || pc.Cleared? || (pc.Building? && pc.into.None?) || pc.Inserting? || pc.Refusing?
  }

  ghost predicate RowIsLost(d: Tables, sig: nat, i: nat) {
    && i < |d.rows| && d.rows[i].signal == sig
    && (|| d.rows[i].status == Filled
        || (&& d.rows[i].brokerId.None? && !Alive(d, sig)
            && (d.rows[i].status == PendingSubmission || d.rows[i].status == Failed)))
  }

  ghost predicate Hopeless(s: State, sig: nat, i: nat) {
    RowIsLost(s.db, sig, i) && Searching(s.pc, sig) && sig < |s.db.signals| && !IsProcessed(s, sig)
  }

  lemma LostOutside(d: Tables, now: nat, e: Event, sig: nat, i: nat)
    requires TablesOk(d) && RowIsLost(d, sig, i)
    ensures RowIsLost(Outside(d, now, e), sig, i)
  {
    var d' := Outside(d, now, e);
    OutsideAddsNone(d, now, e);
    OutsideKeeps(d, now, e);
    if e.Backfill? && e.row == i && d' != d {
      assert RowOk(d, d.rows[i]);
      assert VenueKnows(d.venue, ClientId(sig));
      VenueOrderIsAlive(d, sig);
    }
  }

  lemma LostInsert(s: State, sig: nat, i: nat)
    requires Hopeless(s, sig, i) && Inv(s)
    ensures Hopeless(InsertStep(s), sig, i)
  {
    InsertAddsOwnRow(s);
    var t := InsertStep(s);
    assert RowOk(s.db, s.db.rows[i]);
    if t.db.rows != s.db.rows {
      assert t.db.rows[..|s.db.rows|][i] == t.db.rows[i];
    }
    assert t.db.wire == s.db.wire && t.db.refused == s.db.refused && t.db.signals == s.db.signals;
  }

  lemma LostSend(s: State, sig: nat, i: nat)
    requires Hopeless(s, sig, i)
    ensures Hopeless(SendStep(s), sig, i)
  {
    var t := SendStep(s);
    if Alive(t.db, sig) {
      var a :| 0 <= a < |t.db.wire| && t.db.wire[a].signal == sig && a !in t.db.refused;
      assert a < |s.db.wire| ==> s.db.wire[a] == t.db.wire[a];
    }
  }

  /** A write of the processor changes only the row of the signal it works on. */
  lemma OthersRowsStay(s: State, i: nat)
    requires PcOk(s.db, s.pc) && i < |s.db.rows| && !WorksOn(s.pc, s.db.rows[i].signal)
    ensures i < |WriteStep(s).db.rows| && WriteStep(s).db.rows[i] == s.db.rows[i]
  {
  }

  lemma SearchingWrites(s: State, sig: nat)
    requires WorksOn(s.pc, sig) && Searching(s.pc, sig) && sig < |s.db.signals| && !IsProcessed(s, sig)
    ensures WriteStep(s).db.rows == s.db.rows && !IsProcessed(WriteStep(s), sig) && Searching(WriteStep(s).pc, sig)
  {
  }

  lemma WriteKeepsAlive(s: State, sig: nat)
    ensures Alive(WriteStep(s).db, sig) <==> Alive(s.db, sig)
  {
    WriteAddsNone(s);
    assert WriteStep(s).db.refused == s.db.refused;
  }

  lemma LostWrite(s: State, sig: nat, i: nat)
    requires Hopeless(s, sig, i) && Inv(s)
    ensures Hopeless(WriteStep(s), sig, i)
  {
    WriteKeepsAlive(s, sig);
    WritesOfSignals(s, sig);
    if WorksOn(s.pc, sig) {
      SearchingWrites(s, sig);
    } else {
      OthersRowsStay(s, i);
      WritesStartNothing(s);
    }
  }

  lemma LostFinds(s: State, sig: nat, i: nat)
    requires RowIsLost(s.db, sig, i) && Searching(s.pc, sig) && RowsOk(s.db)
    ensures Searching(Decide(s, FindOrder), sig)
  {
    if s.pc.Cleared? && s.pc.sig == sig {
      var k := PendingOrder(s.db.rows, sig);
      if k >= 0 {
        OneRowPerSignal(s.db, k, i);
      }
    }
  }

  lemma LostDecides(s: State, e: Event, sig: nat, i: nat)
    requires RowIsLost(s.db, sig, i) && Searching(s.pc, sig) && RowsOk(s.db)
    ensures Searching(Decide(s, e), sig)
  {
    if e.FindOrder? {
      LostFinds(s, sig, i);
    }
  }

  lemma LostRead(s: State, e: Event, sig: nat, i: nat)
    requires Hopeless(s, sig, i) && Inv(s)
    ensures Hopeless(ReadStep(s, e), sig, i)
  {
    ReadsOnly(s, e);
    ReadPc(s, e);
    if e.Poll? || e.Take? {
      FetchGuards(s, e);
    } else {
      LostDecides(s, e, sig, i);
    }
  }

  lemma HopelessStays(s: State, e: Event, sig: nat, i: nat)
    requires Inv(s) && Hopeless(s, sig, i)
    ensures Hopeless(Step(s, e), sig, i)
  {
    if IsOutside(e) {
      LostOutside(s.db, s.now, e, sig, i);
      OutsideKeepsSignals(s.db, s.now, e, sig);
    } else if e.Insert? {
      LostInsert(s, sig, i);
    } else if e.Send? {
      LostSend(s, sig, i);
    } else if e.Write? {
      LostWrite(s, sig, i);
    } else {
      LostRead(s, e, sig, i);
    }
  }

  // ---------------------------------------------------------------------------
  // Never
  // ---------------------------------------------------------------------------

  ghost predicate Doomed(s: State, sig: nat, i: nat) {
    TooLate(s, sig) || Hopeless(s, sig, i)
  }

  lemma {:induction false} DoomedForGood(events: seq<Event>, more: seq<Event>, sig: nat, i: nat)
    requires Doomed(Run(events), sig, i)
    ensures Doomed(Run(events + more), sig, i)
  {
    if more == [] {
      assert events + more == events;
    } else {
      var before, last := events + more[..|more| - 1], more[|more| - 1];
      DoomedForGood(events, more[..|more| - 1], sig, i);
      RunIsOrderly(before);
      if TooLate(Run(before), sig) {
        TooLateStays(Run(before), last, sig);
      } else {
        HopelessStays(Run(before), last, sig, i);
      }
      RunMore(events, more);
    }
  }

  predicate PendingWithRow(s: State, sig: nat, i: nat) {
    && s.pc == Idle && sig < |s.db.signals| && s.db.signals[sig].status == Pending
    && i < |s.db.rows| && s.db.rows[i].signal == sig
  }

  lemma NotCompletableIsDoomed(s: State, sig: nat, i: nat)
    requires Inv(s) && Orderly(s) && PendingWithRow(s, sig, i) && !Completable(s, sig, i)
    ensures Doomed(s, sig, i)
  {
    assert RowOk(s.db, s.db.rows[i]);
    if !Unexpired(s.db.signals[sig], StartTime(s, sig)) {
      assert TooLate(s, sig);
    }
  }

  // ---------------------------------------------------------------------------
  // How it is done
  // ---------------------------------------------------------------------------

  /** A state within the invariants, and within a predicate that every step keeps. */
  ghost predicate Within(P: State -> bool, s: State) {
    P(s) && Inv(s) && Orderly(s) && Faithful(s)
  }

  lemma StepsWithin(P: State -> bool, s: State, e: Event)
    requires Closed(P) && Within(P, s)
    ensures Within(P, Step(s, e))
  {
    StepKeeps(s, e);
    StepIsOrderly(s, e);
    StepStaysFaithful(s, e);
  }

  lemma TickFacts(s: State, micros: nat)
    requires s.now + micros + COOLDOWN < Stamps.EndOfStamps()
    ensures Step(s, Tick(micros)) == s.(now := s.now + micros)
  {
    assert ReadStep(s, Tick(micros)) == s.(now := s.now + micros);
  }

  /** Waiting for the cooldown with an empty queue. */
  lemma Awakes(P: State -> bool, s: State, sig: nat) returns (t: State)
    requires Closed(P) && Within(P, s) && sig < |s.db.signals| && s.db.signals[sig].status == Pending
    requires Unexpired(s.db.signals[sig], StartTime(s, sig)) && StartTime(s, sig) + COOLDOWN < Stamps.EndOfStamps()
    ensures Within(P, t) && Startable(t, sig) && t.db == s.db
  {
    StepsWithin(P, s, Crash);
    CrashFacts(s);
    t := Step(s, Crash);
    var micros := StartTime(s, sig) - s.now;
    StepsWithin(P, t, Tick(micros));
    TickFacts(t, micros);
    t := Step(t, Tick(micros));
  }

  lemma OutsideFacts(s: State, e: Event)
    requires IsOutside(e) && !e.Arrive?
    ensures Step(s, e) == s.(db := Outside(s.db, s.now, e))
    ensures Outside(s.db, s.now, e).signals == s.db.signals && |Outside(s.db, s.now, e).rows| == |s.db.rows|
  {
    OutsideAddsNone(s.db, s.now, e);
  }

  /** An order that is where the lookup can find it and that the venue has confirmed. */
  predicate Findable(d: Tables, sig: nat, i: nat) {
    i < |d.rows| && d.rows[i].signal == sig && d.rows[i].status == PartiallyFilled
  }

  lemma PartialFillFacts(d: Tables, now: nat, i: nat)
    requires i < |d.rows| && d.rows[i].brokerId.Some? && d.rows[i].status != Filled
    ensures Findable(Outside(d, now, FillApplied(i, false)), d.rows[i].signal, i)
  {
  }

  /** A partial fill of an order whose broker id is known. */
  lemma FillsPartly(P: State -> bool, s: State, sig: nat, i: nat) returns (t: State)
    requires Closed(P) && Within(P, s) && Startable(s, sig) && i < |s.db.rows| && s.db.rows[i].signal == sig
    requires s.db.rows[i].brokerId.Some? && s.db.rows[i].status != Filled
    ensures Within(P, t) && Startable(t, sig) && Findable(t.db, sig, i)
  {
    StepsWithin(P, s, FillApplied(i, false));
    OutsideFacts(s, FillApplied(i, false));
    PartialFillFacts(s.db, s.now, i);
    t := Step(s, FillApplied(i, false));
  }

  lemma BackfillFacts(d: Tables, now: nat, i: nat, k: nat)
    requires i < |d.rows| && d.rows[i].brokerId.None? && d.rows[i].status != Filled
    requires k < |d.venue| && d.venue[k].terms.cli == d.rows[i].cli
    ensures var row := Outside(d, now, Backfill(i, k)).rows[i];
            row.signal == d.rows[i].signal && row.brokerId.Some? && row.status != Filled
  {
  }

  /** The orphan catcher adopts an order the venue holds. */
  lemma Adopts(P: State -> bool, s: State, sig: nat, i: nat) returns (t: State)
    requires Closed(P) && Within(P, s) && Startable(s, sig) && i < |s.db.rows| && s.db.rows[i].signal == sig
    requires s.db.rows[i].status != Filled && (s.db.rows[i].brokerId.Some? || VenueKnows(s.db.venue, ClientId(sig)))
    ensures Within(P, t) && Startable(t, sig) && Findable(t.db, sig, i)
  {
    t := s;
    if s.db.rows[i].brokerId.None? {
      assert RowOk(s.db, s.db.rows[i]);
      var k: nat :| 0 <= k < |s.db.venue| && s.db.venue[k].terms.cli == ClientId(sig);
      StepsWithin(P, s, Backfill(i, k));
      OutsideFacts(s, Backfill(i, k));
      BackfillFacts(s.db, s.now, i, k);
      t := Step(s, Backfill(i, k));
    }
    t := FillsPartly(P, t, sig, i);
  }

  lemma AcceptFacts(d: Tables, now: nat, a: nat)
    requires a < |d.wire| && a !in d.refused
    ensures var d' := Outside(d, now, VenueAccepts(a));
            d' == d.(venue := d'.venue) && VenueKnows(d'.venue, d.wire[a].terms.cli)
  {
    var d' := Outside(d, now, VenueAccepts(a));
    if d' != d {
      assert d'.venue[|d.venue|].terms.cli == d.wire[a].terms.cli;
    }
  }

  /** A submission that is alive arrives. */
  lemma AliveLands(P: State -> bool, s: State, sig: nat) returns (t: State)
    requires Closed(P) && Within(P, s) && Startable(s, sig) && Alive(s.db, sig)
    ensures Within(P, t) && Startable(t, sig) && t.db == s.db.(venue := t.db.venue) && VenueKnows(t.db.venue, ClientId(sig))
  {
    var a: nat :| 0 <= a < |s.db.wire| && s.db.wire[a].signal == sig && a !in s.db.refused;
    assert OwnCli(s.db, s.db.wire[a].signal, s.db.wire[a].terms.cli);
    StepsWithin(P, s, VenueAccepts(a));
    OutsideFacts(s, VenueAccepts(a));
    AcceptFacts(s.db, s.now, a);
    t := Step(s, VenueAccepts(a));
  }

  ghost predicate Solid(P: State -> bool) {
    forall s :: P(s) ==> Within(P, s)
  }

  /** An uncertain row with nothing alive is submitted afresh, and a crash makes the processor look again. */
  lemma Resends(P: State -> bool, s: State, sig: nat, i: nat) returns (t: State)
    requires Closed(P) && Solid(P) && Within(P, s) && Startable(s, sig)
    requires i < |s.db.rows| && s.db.rows[i].signal == sig && s.db.rows[i].status == Uncertain
    requires !VenueKnows(s.db.venue, ClientId(sig))
    ensures Within(P, t) && Startable(t, sig) && t.db == s.db.(wire := t.db.wire) && Alive(t.db, sig)
  {
    var g := s.db.signals[sig].signal;
    assert RowOk(s.db, s.db.rows[i]);
    var b, o := BuildsAgain(g, s.db.rows[i].basis, s.db.rows[i].terms);
    assert UncertainRow(s.db, sig, i);
    Resubmits(P, s, sig, i, QuietFeeds(g.symbol), b, o);
    var u := Sent(s, sig, i, b, o);
    Crashes(P, u);
    t := u.(pc := Idle, queue := []);
    assert t.db.wire[|s.db.wire|].signal == sig && |s.db.wire| !in t.db.refused;
  }

  lemma FoundConfirmed(s: State, i: nat)
    requires s.pc.Cleared? && RowsOk(s.db) && Findable(s.db, s.pc.sig, i)
    ensures Decide(s, FindOrder) == Finishing(s.pc.sig, i)
  {
    forall k | 0 <= k < |s.db.rows| && s.db.rows[k].signal == s.pc.sig ensures k == i {
      OneRowPerSignal(s.db, k, i);
    }
    FindsTheRow(s.db.rows, s.pc.sig, i);
  }

  lemma FinishFacts(s: State, sig: nat, i: nat)
    requires sig < |s.db.signals| && s.pc == Finishing(sig, i)
    ensures IsProcessed(WriteStep(s), sig)
  {
  }

  /** A due signal with a confirmed order in flight is marked processed. */
  lemma Finishes(P: State -> bool, s: State, sig: nat, i: nat) returns (t: State)
    requires Closed(P) && Within(P, s) && Startable(s, sig) && Findable(s.db, sig, i)
    ensures P(t) && IsProcessed(t, sig)
  {
    var g := s.db.signals[sig].signal;
    var b, o := BuildsAgain(g, s.db.rows[i].basis, s.db.rows[i].terms);
    ReachesGuard(P, s, sig);
    PassesGate(P, s, sig, QuietFeeds(g.symbol), b, o);
    var cleared := s.(pc := Cleared(sig, s.now, b));
    FoundConfirmed(cleared, i);
    GoesOn(P, cleared, FindOrder, Finishing(sig, i));
    var finishing := s.(pc := Finishing(sig, i));
    Writes(P, finishing);
    FinishFacts(finishing, sig, i);
    t := WriteStep(finishing);
  }

  lemma Completes(P: State -> bool, s: State, sig: nat, i: nat) returns (t: State)
    requires Closed(P) && Solid(P) && Within(P, s) && PendingWithRow(s, sig, i) && Completable(s, sig, i)
    requires StartTime(s, sig) + COOLDOWN < Stamps.EndOfStamps()
    ensures P(t) && IsProcessed(t, sig)
  {
    t := Awakes(P, s, sig);
    if t.db.rows[i].brokerId.None? && !VenueKnows(t.db.venue, ClientId(sig)) {
      if !Alive(t.db, sig) {
        t := Resends(P, t, sig, i);
      }
      t := AliveLands(P, t, sig);
    }
    t := Adopts(P, t, sig, i);
    t := Finishes(P, t, sig, i);
  }

  lemma AheadIsSolid(events: seq<Event>)
    ensures Solid((u: State) => Ahead(events, u))
  {
    forall u | Ahead(events, u) ensures Inv(u) && Orderly(u) && Faithful(u) {
      var more :| Run(events + more) == u;
      RunIsOrderly(events + more);
      RunIsFaithful(events + more);
    }
  }

  ghost predicate MayBeProcessed(events: seq<Event>, sig: nat) {
    exists more :: IsProcessed(Run(events + more), sig)
  }

  /**
   After any run that ends with the processor at rest, a pending signal that has an order row can still end up processed
   exactly when it is not expired by the time it can be picked up, its row is not filled, and the row is uncertain, has a
   broker id, or has a submission that is alive. The premise keeps the clock within four-digit years.
   */
  lemma ProcessedIffCompletable(events: seq<Event>, sig: nat, i: nat)
    requires PendingWithRow(Run(events), sig, i) && StartTime(Run(events), sig) + COOLDOWN < Stamps.EndOfStamps()
    ensures MayBeProcessed(events, sig) <==> Completable(Run(events), sig, i)
  {
    var s := Run(events);
    RunIsOrderly(events);
    if Completable(s, sig, i) {
      RunIsFaithful(events);
      AheadIsClosed(events);
      AheadIsSolid(events);
      var t := Completes((u: State) => Ahead(events, u), s, sig, i);
      var more :| Run(events + more) == t;
    } else {
      NotCompletableIsDoomed(s, sig, i);
      NeverProcessed(events, sig, i);
    }
  }

  lemma NeverProcessed(events: seq<Event>, sig: nat, i: nat)
    requires Doomed(Run(events), sig, i)
    ensures !MayBeProcessed(events, sig)
  {
    forall more ensures !IsProcessed(Run(events + more), sig) {
      DoomedForGood(events, more, sig, i);
    }
  }

  // ---------------------------------------------------------------------------
  // Executed and never processed
  // ---------------------------------------------------------------------------

  /** The order of a timed-out submission, adopted by the orphan catcher and filled to the end. */
  function FilledByFeed(b: Basis, o: Order): State {
    var s := Landed(b, o);
    s.(db := s.db.(rows := [OrderRow(0, o.cli, TermsOf(o), b, Some(0), Filled)]))
  }

  lemma FeedFacts(b: Basis, o: Order)
    ensures var s := Landed(b, o);
            var adopted := s.db.(rows := [OrderRow(0, o.cli, TermsOf(o), b, Some(0), Acknowledged)]);
            && Outside(s.db, s.now, Backfill(0, 0)) == adopted
            && Outside(adopted, s.now, FillApplied(0, true)) == FilledByFeed(b, o).db
  {
  }

  lemma ReachesFilled(P: State -> bool, b: Basis, o: Order)
    requires Closed(P) && P(Start) && Supplies(SampleExit, QuietFeeds("PI_XBTUSD"), b, o)
    ensures P(FilledByFeed(b, o))
  {
    var s := Landed(b, o);
    FirstAttempt(P, SampleExit, QuietFeeds("PI_XBTUSD"), b, o);
    Lands(P, b, o);
    FeedFacts(b, o);
    Happens(P, s, Backfill(0, 0));
    Happens(P, s.(db := s.db.(rows := [OrderRow(0, o.cli, TermsOf(o), b, Some(0), Acknowledged)])), FillApplied(0, true));
  }

  /**
   A run on which the fill feed adopts and completes a timed-out order before the processor looks again: the lookup does
   not return filled rows, so the signal stays pending, and nothing that can happen ever marks it processed.
   */
  lemma FilledIsNeverProcessed()
    ensures exists events :: var d := Run(events).db;
              && |d.signals| == |d.rows| == 1 && d.signals[0].status == Pending && d.rows[0].status == Filled
              && !MayBeProcessed(events, 0)
  {
    AheadIsClosed([]);
    var b, o := SampleExitBuilds(1.0);
    ReachesFilled((u: State) => Ahead([], u), b, o);
    var s := FilledByFeed(b, o);
    assert Ahead([], s);
    var more :| Run([] + more) == s;
    assert Hopeless(s, 0, 0);
    NeverProcessed([] + more, 0, 0);
  }
}
