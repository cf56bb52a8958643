/**
 How far apart the submissions of one signal are. Stops - crashes and aborted writes - may strike anywhere; what
 a stop leaves in the two tables decides whether the cooldown can still be relied on.
 */
module Pacing {
  import opened Prelude
  import opened MarketData
  import opened OrderBuilder
  import opened OrderFills
  import opened Submission
  import OrderBook
  import Stamps

  // ---------------------------------------------------------------------------
  // What holds on every run
  // ---------------------------------------------------------------------------

  predicate BeforeSending(pc: Pc) {
    pc.Gated? || pc.Cleared? || pc.LookingUp? || pc.Building? || pc.Inserting? || pc.Sending?
  }

  predicate WorksOn(pc: Pc, sig: nat) {
    pc != Idle && pc.sig == sig
  }

  predicate Rested(row: SignalRow, at: nat) {
    row.status == Pending && (row.retryAfter.Some? ==> row.retryAfter.value <= at)
  }

  predicate Unexpired(row: SignalRow, at: nat) {
    row.expires.Some? ==> at < row.expires.value
  }

  /** A submission in time order; the stored cooldown is either older than it or long enough after it. */
  predicate RequestOrderly(s: State, r: Request) {
    && r.signal < |s.db.signals|
    && s.db.signals[r.signal].arrived <= r.checked <= r.at <= s.now
    && Unexpired(s.db.signals[r.signal], r.checked)
    && (s.db.signals[r.signal].retryAfter.Some? ==>
          || s.db.signals[r.signal].retryAfter.value <= r.checked
          || r.at + COOLDOWN <= s.db.signals[r.signal].retryAfter.value)
  }

  ghost predicate PcOrderly(s: State) {
    && (s.pc != Idle ==>
          && s.pc.sig < |s.db.signals|
          && s.db.signals[s.pc.sig].status == if s.pc.Clearing? then Processed else Pending)
    && (BeforeSending(s.pc) ==>
          && Rested(s.db.signals[s.pc.sig], s.pc.checked)
          && Unexpired(s.db.signals[s.pc.sig], s.pc.checked)
          && s.db.signals[s.pc.sig].arrived <= s.pc.checked <= s.now)
    && (s.pc.Cooling? ==>
          && s.pc.until < Stamps.EndOfStamps()
          && forall a :: 0 <= a < |s.db.wire| && s.db.wire[a].signal == s.pc.sig ==> s.db.wire[a].at + COOLDOWN <= s.pc.until)
  }

  ghost predicate QueueOrderly(s: State) {
    && (forall a :: 0 <= a < |s.queue| ==>
          && s.queue[a] < |s.db.signals| && Rested(s.db.signals[s.queue[a]], s.now)
          && !WorksOn(s.pc, s.queue[a]))
    && (forall a, b :: 0 <= a < b < |s.queue| ==> s.queue[a] != s.queue[b])
  }

  ghost predicate SignalsOrderly(s: State) {
    forall g :: 0 <= g < |s.db.signals| ==>
      && s.db.signals[g].arrived <= s.now
      && (s.db.signals[g].retryAfter.Some? ==> s.db.signals[g].retryAfter.value < Stamps.EndOfStamps())
  }

  ghost predicate Orderly(s: State) {
    && s.now + COOLDOWN < Stamps.EndOfStamps()
    && SignalsOrderly(s)
    && (forall a :: 0 <= a < |s.db.wire| ==> RequestOrderly(s, s.db.wire[a]))
    && PcOrderly(s) && QueueOrderly(s)
  }

  lemma StartIsOrderly()
    ensures Orderly(Start)
  {
    Stamps.YearStartGrows(0, 10_000);
  }

  lemma FetchIsOrderly(s: State, e: Event)
    requires Orderly(s) && (e.Poll? || e.Take?)
    ensures Orderly(Fetch(s, e))
  {
    var t := Fetch(s, e);
    if e.Poll? && t != s {
      forall a | 0 <= a < |t.queue| ensures Rested(t.db.signals[t.queue[a]], t.now) {
        var row := s.db.signals[e.picked[a]];
        if row.retryAfter.Some? {
          Stamps.StampOrder(row.retryAfter.value, s.now);
        }
      }
    } else if e.Take? && t != s {
      assert forall a :: 0 <= a < |t.queue| ==> t.queue[a] == s.queue[a + 1];
    }
    assert forall a :: 0 <= a < |s.db.wire| ==> RequestOrderly(s, s.db.wire[a]) ==> RequestOrderly(t, t.db.wire[a]);
  }

  /** The processor goes on with the same signal and keeps its guard time, or rests. */
  predicate Proceeds(s: State, pc: Pc) {
    && (pc != Idle ==> s.pc != Idle && pc.sig == s.pc.sig)
    && (BeforeSending(pc) ==> BeforeSending(s.pc) && pc.checked == s.pc.checked)
    && (pc.Cooling? ==> pc == s.pc || pc.until == s.now + COOLDOWN)
    && (pc.Clearing? || s.pc.Clearing? ==> pc == s.pc)
  }

  lemma ProceedingIsOrderly(s: State, t: State)
    requires Orderly(s) && (t.pc == Idle || Proceeds(s, t.pc)) && (t.queue == s.queue || t.queue == [])
    requires t.now == s.now && t.db.signals == s.db.signals && t.db.wire == s.db.wire
    ensures Orderly(t)
  {
    forall a | 0 <= a < |t.db.wire|
      ensures RequestOrderly(t, t.db.wire[a]) && t.db.wire[a].at + COOLDOWN <= t.now + COOLDOWN
    {
      assert RequestOrderly(s, s.db.wire[a]);
    }
    assert PcOrderly(t);
    assert QueueOrderly(t);
  }

  lemma ArrivalIsOrderly(s: State, t: State)
    requires Orderly(s) && |t.db.signals| == |s.db.signals| + 1
    requires t == s.(db := s.db.(signals := t.db.signals)) && t.db.signals[..|s.db.signals|] == s.db.signals
    requires t.db.signals[|s.db.signals|].arrived == s.now && t.db.signals[|s.db.signals|].retryAfter == None
    ensures Orderly(t)
  {
    assert forall g :: 0 <= g < |s.db.signals| ==> t.db.signals[g] == s.db.signals[g];
    forall a | 0 <= a < |t.db.wire| ensures RequestOrderly(t, t.db.wire[a]) {
      assert RequestOrderly(s, s.db.wire[a]);
    }
    assert PcOrderly(t);
    assert QueueOrderly(t);
  }

  lemma OutsideIsOrderly(s: State, e: Event)
    requires Orderly(s) && IsOutside(e)
    ensures Orderly(s.(db := Outside(s.db, s.now, e)))
  {
    var t := s.(db := Outside(s.db, s.now, e));
    OutsideAddsNone(s.db, s.now, e);
    if e.Arrive? {
      ArrivalIsOrderly(s, t);
    } else {
      assert Proceeds(s, t.pc);
      ProceedingIsOrderly(s, t);
    }
  }

  lemma DecideProceeds(s: State, e: Event)
    ensures Decide(s, e) == Idle || Proceeds(s, Decide(s, e))
  {
  }

  lemma TickIsOrderly(s: State, e: Event)
    requires Orderly(s) && e.Tick?
    ensures Orderly(ReadStep(s, e))
  {
    var t := ReadStep(s, e);
    forall a | 0 <= a < |t.db.wire| ensures RequestOrderly(t, t.db.wire[a]) {
      assert RequestOrderly(s, s.db.wire[a]);
    }
    assert PcOrderly(t);
    assert QueueOrderly(t);
  }

  lemma ReadStepIsOrderly(s: State, e: Event)
    requires Orderly(s)
    ensures Orderly(ReadStep(s, e))
  {
    if e.Tick? {
      TickIsOrderly(s, e);
    } else if e.Poll? || e.Take? {
      FetchIsOrderly(s, e);
    } else {
      DecideProceeds(s, e);
      ProceedingIsOrderly(s, ReadStep(s, e));
    }
  }

  lemma InsertIsOrderly(s: State)
    requires Orderly(s)
    ensures Orderly(InsertStep(s))
  {
    assert Proceeds(s, InsertStep(s).pc);
    ProceedingIsOrderly(s, InsertStep(s));
  }

  lemma SendIsOrderly(s: State)
    requires Orderly(s)
    ensures Orderly(SendStep(s))
  {
    var t := SendStep(s);
    if s.pc.Sending? {
      forall a | 0 <= a < |s.db.wire| ensures RequestOrderly(t, t.db.wire[a]) {
        assert RequestOrderly(s, s.db.wire[a]);
      }
      assert RequestOrderly(t, t.db.wire[|s.db.wire|]);
      assert PcOrderly(t);
      assert QueueOrderly(t);
    }
  }

  lemma SignalWriteIsOrderly(s: State, row: SignalRow, pc: Pc)
    requires Orderly(s) && s.pc != Idle && !BeforeSending(s.pc)
    requires row == s.db.signals[s.pc.sig].(status := row.status, retryAfter := row.retryAfter)
    requires pc == Idle || (row.status == Processed && pc == Clearing(s.pc.sig))
    requires row.retryAfter == s.db.signals[s.pc.sig].retryAfter || row.retryAfter.None?
             || (s.pc.Cooling? && row.retryAfter.value == s.pc.until)
    ensures Orderly(s.(db := s.db.(signals := s.db.signals[s.pc.sig := row]), pc := pc))
  {
    var t := s.(db := s.db.(signals := s.db.signals[s.pc.sig := row]), pc := pc);
    forall a | 0 <= a < |t.db.wire| ensures RequestOrderly(t, t.db.wire[a]) {
      assert RequestOrderly(s, s.db.wire[a]);
    }
    assert PcOrderly(t);
    assert QueueOrderly(t);
  }

  predicate WritesSignal(pc: Pc) {
    pc.Cooling? || pc.Finishing? || pc.Clearing? || pc.Refusing?
  }

  lemma WriteIsOrderly(s: State)
    requires Orderly(s)
    ensures Orderly(WriteStep(s))
  {
    if WritesSignal(s.pc) {
      SignalWriteIsOrderly(s, WriteStep(s).db.signals[s.pc.sig], WriteStep(s).pc);
    } else {
      assert Proceeds(s, WriteStep(s).pc);
      ProceedingIsOrderly(s, WriteStep(s));
    }
  }

  lemma StepIsOrderly(s: State, e: Event)
    requires Orderly(s)
    ensures Orderly(Step(s, e))
  {
    if IsOutside(e) {
      OutsideIsOrderly(s, e);
    } else if e.Insert? {
      InsertIsOrderly(s);
    } else if e.Send? {
      SendIsOrderly(s);
    } else if e.Write? {
      WriteIsOrderly(s);
    } else {
      ReadStepIsOrderly(s, e);
    }
  }

  lemma {:induction false} RunIsOrderly(events: seq<Event>)
    ensures Orderly(Run(events)) && Inv(Run(events))
  {
    RunKeeps(events);
    if events == [] {
      StartIsOrderly();
    } else {
      RunIsOrderly(events[..|events| - 1]);
      StepIsOrderly(Run(events[..|events| - 1]), events[|events| - 1]);
    }
  }

  // ---------------------------------------------------------------------------
  // What keeps a signal from being submitted before a limit
  // ---------------------------------------------------------------------------

  /** No row of the signal is uncertain, and the row there is keeps a second one out. */
  ghost predicate Dormant(s: State, sig: nat) {
    && (forall i :: 0 <= i < |s.db.rows| && s.db.rows[i].signal == sig ==> s.db.rows[i].status != Uncertain)
    && CliTaken(s.db.rows, ClientId(sig))
    && IdleFor(s.pc, sig)
  }

  /** The signal has been processed or refused. */
  predicate Settled(s: State, sig: nat) {
    sig < |s.db.signals| && s.db.signals[sig].status != Pending
  }

  predicate Lapsed(s: State, sig: nat) {
    sig < |s.db.signals| && !Unexpired(s.db.signals[sig], s.now) && !(BeforeSending(s.pc) && s.pc.sig == sig)
  }

  /** The limit has passed, or a stored cooldown reaches up to it; a guard that has passed did so after it. */
  predicate Waiting(s: State, sig: nat, limit: nat) {
    && sig < |s.db.signals|
    && (|| limit <= s.now
        || (&& s.db.signals[sig].retryAfter.Some? && limit <= s.db.signals[sig].retryAfter.value
            && sig !in s.queue && !WorksOn(s.pc, sig)))
    && (BeforeSending(s.pc) && s.pc.sig == sig ==> limit <= s.pc.checked)
  }

  ghost predicate Blocked(s: State, sig: nat, limit: nat) {
    Dormant(s, sig) || Settled(s, sig) || Lapsed(s, sig) || Waiting(s, sig, limit)
  }

  lemma DormantOutside(s: State, e: Event, sig: nat)
    requires Dormant(s, sig) && IsOutside(e)
    ensures Dormant(s.(db := Outside(s.db, s.now, e)), sig)
  {
    var i :| 0 <= i < |s.db.rows| && s.db.rows[i].cli == ClientId(sig);
    var d := Outside(s.db, s.now, e);
    assert |d.rows| == |s.db.rows| && d.rows[i].cli == ClientId(sig);
  }

  lemma InsertAddsOwnRow(s: State)
    ensures var t := InsertStep(s);
            || t == s || t == s.(pc := Idle)
            || (&& s.pc.Inserting? && !CliTaken(s.db.rows, s.pc.order.cli) && |t.db.rows| == |s.db.rows| + 1
                && t.db.rows[..|s.db.rows|] == s.db.rows && t.db.rows[|s.db.rows|].signal == s.pc.sig
                && t.pc.Sending? && t.pc.sig == s.pc.sig)
  {
  }

  lemma DormantInsert(s: State, sig: nat)
    requires Dormant(s, sig) && Inv(s)
    ensures Dormant(InsertStep(s), sig)
  {
    InsertAddsOwnRow(s);
    var t := InsertStep(s);
    if t.db.rows != s.db.rows {
      assert s.pc.sig != sig;
      var i :| 0 <= i < |s.db.rows| && s.db.rows[i].cli == ClientId(sig);
      assert t.db.rows[..|s.db.rows|][i] == t.db.rows[i];
      forall k | 0 <= k < |t.db.rows| && t.db.rows[k].signal == sig ensures t.db.rows[k].status != Uncertain {
        assert t.db.rows[..|s.db.rows|][k] == t.db.rows[k];
      }
    }
  }

  /** A write of the processor keeps every row's identity and makes no row uncertain but the one it marks so. */
  lemma WritesOfRows(s: State, i: nat)
    requires i < |s.db.rows|
    ensures |WriteStep(s).db.rows| == |s.db.rows|
    ensures WriteStep(s).db.rows[i].signal == s.db.rows[i].signal && WriteStep(s).db.rows[i].cli == s.db.rows[i].cli
    ensures WriteStep(s).db.rows[i].status == Uncertain ==>
              s.db.rows[i].status == Uncertain || (s.pc.MarkingUncertain? && s.pc.row == i)
              || (s.pc.Recording? && s.pc.reported == Uncertain)
  {
  }

  lemma DormantRowsWrite(s: State, sig: nat)
    requires Dormant(s, sig) && Inv(s)
    ensures forall k :: 0 <= k < |WriteStep(s).db.rows| && WriteStep(s).db.rows[k].signal == sig ==>
              WriteStep(s).db.rows[k].status != Uncertain
  {
    WriteAddsNone(s);
    forall k | 0 <= k < |s.db.rows| && WriteStep(s).db.rows[k].signal == sig
      ensures WriteStep(s).db.rows[k].status != Uncertain
    {
      WritesOfRows(s, k);
    }
  }

  lemma DormantPcWrite(s: State, sig: nat)
    requires IdleFor(s.pc, sig)
    ensures IdleFor(WriteStep(s).pc, sig)
  {
  }

  lemma DormantWrite(s: State, sig: nat)
    requires Dormant(s, sig) && Inv(s)
    ensures Dormant(WriteStep(s), sig)
  {
    DormantRowsWrite(s, sig);
    DormantPcWrite(s, sig);
    var i :| 0 <= i < |s.db.rows| && s.db.rows[i].cli == ClientId(sig);
    WritesOfRows(s, i);
  }

  predicate IdleFor(pc: Pc, sig: nat) {
    WorksOn(pc, sig) ==>
      || pc.Gated? || pc.Cleared? || (pc.Building? && pc.into.None?) || pc.Inserting?
      || pc.Finishing? || pc.Clearing? || pc.Refusing?
  }

  lemma DormantFinds(s: State, sig: nat)
    requires Dormant(s, sig)
    ensures IdleFor(Decide(s, FindOrder), sig)
  {
    if s.pc.Cleared? {
      var i := PendingOrder(s.db.rows, s.pc.sig);
      assert i >= 0 ==> s.db.rows[i].signal == s.pc.sig;
    }
  }

  lemma DormantDecides(s: State, e: Event, sig: nat)
    requires Dormant(s, sig)
    ensures IdleFor(Decide(s, e), sig)
  {
    if e.FindOrder? {
      DormantFinds(s, sig);
    }
  }

  lemma DormantReads(s: State, e: Event, sig: nat)
    requires Dormant(s, sig)
    ensures IdleFor(ReadStep(s, e).pc, sig)
  {
    ReadPc(s, e);
    if e.Poll? || e.Take? {
      FetchGuards(s, e);
    } else {
      DormantDecides(s, e, sig);
    }
  }

  lemma DormantRead(s: State, e: Event, sig: nat)
    requires Dormant(s, sig)
    ensures Dormant(ReadStep(s, e), sig)
  {
    ReadsOnly(s, e);
    DormantReads(s, e, sig);
  }

  lemma DormantStays(s: State, e: Event, sig: nat)
    requires Dormant(s, sig) && Inv(s)
    ensures Dormant(Step(s, e), sig)
  {
    if IsOutside(e) {
      DormantOutside(s, e, sig);
    } else if e.Insert? {
      DormantInsert(s, sig);
    } else if e.Write? {
      DormantWrite(s, sig);
    } else if !e.Send? {
      DormantRead(s, e, sig);
    }
  }

  lemma OutsideKeepsSignals(d: Tables, now: nat, e: Event, sig: nat)
    requires sig < |d.signals|
    ensures sig < |Outside(d, now, e).signals| && Outside(d, now, e).signals[sig] == d.signals[sig]
  {
    OutsideAddsNone(d, now, e);
  }

  lemma WritesOfSignals(s: State, sig: nat)
    requires sig < |s.db.signals|
    ensures |WriteStep(s).db.signals| == |s.db.signals| && WriteStep(s).now == s.now
    ensures WriteStep(s).db.signals[sig].expires == s.db.signals[sig].expires
    ensures !WorksOn(s.pc, sig) ==> WriteStep(s).db.signals[sig] == s.db.signals[sig]
  {
  }

  lemma ReadsOnly(s: State, e: Event)
    ensures ReadStep(s, e).db == s.db && ReadStep(s, e).now >= s.now
  {
  }

  /** A signal keeps its lifetime, and only the processor working on it changes its status or its cooldown. */
  lemma SignalsAreStable(s: State, e: Event, sig: nat)
    requires sig < |s.db.signals|
    ensures sig < |Step(s, e).db.signals|
    ensures Step(s, e).db.signals[sig].expires == s.db.signals[sig].expires
    ensures !(e.Write? && WorksOn(s.pc, sig)) ==> Step(s, e).db.signals[sig] == s.db.signals[sig]
    ensures Step(s, e).now >= s.now
  {
    if IsOutside(e) {
      OutsideKeepsSignals(s.db, s.now, e, sig);
    } else if e.Write? {
      WritesOfSignals(s, sig);
    } else if !e.Insert? && !e.Send? {
      ReadsOnly(s, e);
    }
  }

  lemma SettledStays(s: State, e: Event, sig: nat)
    requires Settled(s, sig) && Orderly(s)
    ensures Settled(Step(s, e), sig)
  {
    SignalsAreStable(s, e, sig);
    if e.Write? && WorksOn(s.pc, sig) {
      assert s.pc.Clearing?;
    }
  }

  /** Where a guard time comes from: kept, or read off the clock when the signal is taken from the queue. */
  lemma GuardTimes(s: State, e: Event)
    ensures var pc := Step(s, e).pc;
            BeforeSending(pc) ==>
              || (BeforeSending(s.pc) && pc.sig == s.pc.sig && pc.checked == s.pc.checked)
              || (&& s.queue != [] && pc == Gated(s.queue[0], s.now) && pc.sig < |s.db.signals|
                  && Unexpired(s.db.signals[pc.sig], s.now))
  {
    if e.Write? {
      WritesStartNothing(s);
    } else if e.Poll? || e.Take? {
      FetchGuards(s, e);
    } else if !IsOutside(e) && !e.Insert? && !e.Send? {
      DecideProceeds(s, e);
    }
  }

  lemma FetchGuards(s: State, e: Event)
    requires e.Poll? || e.Take?
    ensures var pc := Fetch(s, e).pc;
            pc == s.pc || pc.Refusing?
            || (&& s.queue != [] && pc == Gated(s.queue[0], s.now) && pc.sig < |s.db.signals|
                && Unexpired(s.db.signals[pc.sig], s.now))
  {
  }

  lemma WritesStartNothing(s: State)
    ensures WriteStep(s).queue == s.queue && (WriteStep(s).pc == Idle || (s.pc != Idle && WriteStep(s).pc.sig == s.pc.sig))
    ensures BeforeSending(WriteStep(s).pc) ==> WriteStep(s).pc == s.pc
  {
  }

  lemma LapsedStays(s: State, e: Event, sig: nat)
    requires Lapsed(s, sig)
    ensures Lapsed(Step(s, e), sig)
  {
    SignalsAreStable(s, e, sig);
    GuardTimes(s, e);
  }

  lemma FetchStartsWhenDue(s: State, e: Event, sig: nat)
    requires Orderly(s) && sig < |s.db.signals| && (e.Poll? || e.Take?)
    ensures sig in Fetch(s, e).queue ==> sig in s.queue || Rested(s.db.signals[sig], s.now)
    ensures WorksOn(Fetch(s, e).pc, sig) ==> WorksOn(s.pc, sig) || sig in s.queue
  {
    FetchIsOrderly(s, e);
  }

  /** A signal enters the queue only when it is due, and work on it starts only from the queue. */
  lemma WorkStartsWhenDue(s: State, e: Event, sig: nat)
    requires Orderly(s) && sig < |s.db.signals|
    ensures sig in Step(s, e).queue ==> sig in s.queue || Rested(s.db.signals[sig], s.now)
    ensures WorksOn(Step(s, e).pc, sig) ==> WorksOn(s.pc, sig) || sig in s.queue
  {
    if IsOutside(e) || e.Insert? || e.Send? {
    } else if e.Write? {
      WritesStartNothing(s);
    } else if e.Poll? || e.Take? {
      FetchStartsWhenDue(s, e, sig);
    } else {
      DecideProceeds(s, e);
    }
  }

  lemma WaitingStays(s: State, e: Event, sig: nat, limit: nat)
    requires Waiting(s, sig, limit) && Orderly(s)
    ensures Waiting(Step(s, e), sig, limit)
  {
    SignalsAreStable(s, e, sig);
    GuardTimes(s, e);
    WorkStartsWhenDue(s, e, sig);
  }

  /** A blocked signal stays blocked, and is submitted only with a guard time at or after the limit. */
  lemma BlockedStays(s: State, e: Event, sig: nat, limit: nat)
    requires Inv(s) && Orderly(s) && Blocked(s, sig, limit)
    ensures Blocked(Step(s, e), sig, limit)
    ensures s.pc.Sending? && s.pc.sig == sig ==> limit <= s.pc.checked
  {
    if Dormant(s, sig) {
      DormantStays(s, e, sig);
    } else if Settled(s, sig) {
      SettledStays(s, e, sig);
    } else if Lapsed(s, sig) {
      LapsedStays(s, e, sig);
    } else {
      WaitingStays(s, e, sig, limit);
    }
  }

  // ---------------------------------------------------------------------------
  // Stops
  // ---------------------------------------------------------------------------

  predicate IsStop(e: Event) {
    e.Abort? || e.Crash?
  }

  /**
   The two rows of a submission, as they would be found after a restart: the signal is still pending and unexpired,
   its order is uncertain, and neither the clock nor a stored cooldown has reached the end of the cooldown due.
   */
  predicate Exposed(d: Tables, now: nat, r: Request) {
    && r.signal < |d.signals| && r.row < |d.rows|
    && d.signals[r.signal].status == Pending
    && Unexpired(d.signals[r.signal], now)
    && d.rows[r.row].status == Uncertain
    && now < r.at + COOLDOWN
    && (d.signals[r.signal].retryAfter.Some? ==> d.signals[r.signal].retryAfter.value < r.at + COOLDOWN)
  }

  lemma OneRowPerSignal(d: Tables, i: nat, j: nat)
    requires RowsOk(d) && i < |d.rows| && j < |d.rows| && d.rows[i].signal == d.rows[j].signal
    ensures i == j
  {
    assert RowOk(d, d.rows[i]) && RowOk(d, d.rows[j]);
  }

  lemma RestBlocks(s: State, r: Request)
    requires Inv(s) && Orderly(s) && s.pc == Idle && r in s.db.wire && !Exposed(s.db, s.now, r)
    ensures Blocked(s, r.signal, r.at + COOLDOWN)
  {
    var a :| 0 <= a < |s.db.wire| && s.db.wire[a] == r;
    assert RequestOrderly(s, s.db.wire[a]) && RowFor(s.db, s.db.wire[a].signal, s.db.wire[a].row);
    if s.db.rows[r.row].status != Uncertain {
      assert RowOk(s.db, s.db.rows[r.row]);
      forall i | 0 <= i < |s.db.rows| && s.db.rows[i].signal == r.signal ensures s.db.rows[i].status != Uncertain {
        OneRowPerSignal(s.db, i, r.row);
      }
      assert Dormant(s, r.signal);
    }
  }

  lemma StopRests(s: State, e: Event)
    requires IsStop(e)
    ensures Step(s, e).pc == Idle && Step(s, e).db == s.db && Step(s, e).now == s.now
  {
  }

  lemma StopBlocks(s: State, e: Event, r: Request)
    requires Inv(s) && Orderly(s) && IsStop(e) && r in s.db.wire && !Exposed(s.db, s.now, r)
    ensures Blocked(Step(s, e), r.signal, r.at + COOLDOWN)
  {
    var t := Step(s, e);
    StepKeeps(s, e);
    StepIsOrderly(s, e);
    StopRests(s, e);
    RestBlocks(t, r);
  }

  // ---------------------------------------------------------------------------
  // The spacing over runs
  // ---------------------------------------------------------------------------

  /** A stop is tolerable when it leaves no submission exposed. */
  ghost predicate Tolerates(s: State, e: Event) {
    IsStop(e) ==> forall a :: 0 <= a < |s.db.wire| ==> !Exposed(s.db, s.now, s.db.wire[a])
  }

  ghost predicate Tolerated(events: seq<Event>) {
    forall n :: 0 <= n < |events| ==> Tolerates(Run(events[..n]), events[n])
  }

  predicate Settling(pc: Pc, sig: nat) {
    WorksOn(pc, sig) && !BeforeSending(pc)
  }

  ghost predicate RequestPaced(s: State, r: Request) {
    Settling(s.pc, r.signal) || Blocked(s, r.signal, r.at + COOLDOWN)
  }

  ghost predicate Spaced(wire: seq<Request>) {
    forall a, b :: 0 <= a < b < |wire| && wire[a].signal == wire[b].signal ==> wire[a].at + COOLDOWN <= wire[b].checked
  }

  ghost predicate Paced(s: State) {
    (forall a :: 0 <= a < |s.db.wire| ==> RequestPaced(s, s.db.wire[a])) && Spaced(s.db.wire)
  }

  lemma SettlingDecides(s: State, e: Event, sig: nat)
    requires Settling(s.pc, sig) && !IsStop(e)
    ensures Settling(Decide(s, e), sig)
  {
  }

  lemma FetchesOnlyAtRest(s: State, e: Event)
    requires s.pc != Idle
    ensures Fetch(s, e) == s
  {
  }

  lemma SettlingReads(s: State, e: Event, sig: nat)
    requires Settling(s.pc, sig) && !IsStop(e)
    ensures Settling(ReadStep(s, e).pc, sig)
  {
    ReadPc(s, e);
    FetchesOnlyAtRest(s, e);
    SettlingDecides(s, e, sig);
  }

  lemma CooldownIsStored(s: State, r: Request)
    requires Orderly(s) && s.pc.Cooling? && s.pc.sig == r.signal && r in s.db.wire
    ensures Waiting(WriteStep(s), r.signal, r.at + COOLDOWN)
  {
    assert WriteStep(s).db.signals[r.signal].retryAfter == Some(s.pc.until);
  }

  lemma SettlingWrites(s: State, sig: nat)
    requires Orderly(s) && Settling(s.pc, sig) && !s.pc.Cooling?
    ensures Settling(WriteStep(s).pc, sig) || Settled(WriteStep(s), sig)
  {
  }

  lemma RequestStaysPaced(s: State, e: Event, r: Request)
    requires Inv(s) && Orderly(s) && r in s.db.wire && RequestPaced(s, r) && Tolerates(s, e)
    ensures RequestPaced(Step(s, e), r)
  {
    if IsStop(e) {
      StopBlocks(s, e, r);
    } else if !Settling(s.pc, r.signal) {
      BlockedStays(s, e, r.signal, r.at + COOLDOWN);
    } else if e.Write? {
      if s.pc.Cooling? {
        CooldownIsStored(s, r);
      } else {
        SettlingWrites(s, r.signal);
      }
    } else if !IsOutside(e) && !e.Insert? && !e.Send? {
      SettlingReads(s, e, r.signal);
    }
  }

  lemma SendStaysSpaced(s: State)
    requires Inv(s) && Orderly(s) && Paced(s) && s.pc.Sending?
    ensures Spaced(SendStep(s).db.wire)
  {
    var wire, sent := s.db.wire, SendStep(s).db.wire;
    forall a | 0 <= a < |wire| && wire[a].signal == s.pc.sig ensures wire[a].at + COOLDOWN <= s.pc.checked {
      assert RequestPaced(s, wire[a]);
      BlockedStays(s, Send, wire[a].signal, wire[a].at + COOLDOWN);
    }
    assert sent == wire + [sent[|wire|]];
  }

  lemma OldRequestsStayPaced(s: State, e: Event)
    requires Inv(s) && Orderly(s) && Paced(s) && Tolerates(s, e)
    ensures forall a :: 0 <= a < |s.db.wire| ==> RequestPaced(Step(s, e), s.db.wire[a])
  {
    forall a | 0 <= a < |s.db.wire| ensures RequestPaced(Step(s, e), s.db.wire[a]) {
      RequestStaysPaced(s, e, s.db.wire[a]);
    }
  }

  lemma SendIsPaced(s: State)
    requires Inv(s) && Orderly(s) && Paced(s) && s.pc.Sending?
    requires forall a :: 0 <= a < |s.db.wire| ==> RequestPaced(SendStep(s), s.db.wire[a])
    ensures Paced(SendStep(s))
  {
    var t := SendStep(s);
    SendStaysSpaced(s);
    forall a | 0 <= a < |t.db.wire| ensures RequestPaced(t, t.db.wire[a]) {
      if a < |s.db.wire| {
        assert t.db.wire[a] == s.db.wire[a];
      }
    }
  }

  lemma StepIsPaced(s: State, e: Event)
    requires Inv(s) && Orderly(s) && Paced(s) && Tolerates(s, e)
    ensures Paced(Step(s, e))
  {
    OldRequestsStayPaced(s, e);
    if e.Send? && s.pc.Sending? {
      SendIsPaced(s);
    } else if !e.Send? {
      OnlySendSends(s, e);
    }
  }

  /** Over every run whose stops leave nothing exposed. */
  lemma {:induction false} RunIsPaced(events: seq<Event>)
    requires Tolerated(events)
    ensures Paced(Run(events)) && Orderly(Run(events)) && Inv(Run(events))
  {
    RunIsOrderly(events);
    if events != [] {
      var before := events[..|events| - 1];
      forall n | 0 <= n < |before| ensures Tolerates(Run(before[..n]), before[n]) {
        assert before[..n] == events[..n];
      }
      RunIsPaced(before);
      RunIsOrderly(before);
      StepIsPaced(Run(before), events[|events| - 1]);
    }
  }

  /** Any stop while the processor rests, has not sent yet, or is past the status write is tolerable. */
  lemma EarlyStopsAreHarmless(events: seq<Event>, e: Event)
    requires Tolerated(events)
    ensures var pc := Run(events).pc; pc == Idle || BeforeSending(pc) || pc.Clearing? ==> Tolerates(Run(events), e)
  {
    RunIsPaced(events);
    var s := Run(events);
    if s.pc == Idle || BeforeSending(s.pc) || s.pc.Clearing? {
      forall a | 0 <= a < |s.db.wire| ensures !Exposed(s.db, s.now, s.db.wire[a]) {
        assert RequestPaced(s, s.db.wire[a]) && RowFor(s.db, s.db.wire[a].signal, s.db.wire[a].row);
      }
    }
  }

  /** Two submissions of one signal are at least the cooldown apart. */
  lemma SubmissionsAreSpaced(events: seq<Event>, a: nat, b: nat)
    requires Tolerated(events)
    requires a < b < |Run(events).db.wire| && Run(events).db.wire[a].signal == Run(events).db.wire[b].signal
    ensures Run(events).db.wire[a].at + COOLDOWN <= Run(events).db.wire[b].at
  {
    RunIsPaced(events);
    assert RequestOrderly(Run(events), Run(events).db.wire[b]);
  }

  function Submissions(wire: seq<Request>, sig: nat): nat {
    if wire == [] then 0
    else Submissions(wire[..|wire| - 1], sig) + if wire[|wire| - 1].signal == sig then 1 else 0
  }

  function LatestOf(wire: seq<Request>, sig: nat): (a: int)
    ensures -1 <= a < |wire|
    ensures a >= 0 ==> wire[a].signal == sig
    ensures a < 0 ==> Submissions(wire, sig) == 0
  {
    if wire == [] then -1
    else if wire[|wire| - 1].signal == sig then |wire| - 1
    else LatestOf(wire[..|wire| - 1], sig)
  }

  lemma {:induction false} GuardTimesAdvance(wire: seq<Request>, sig: nat, from: nat)
    requires Spaced(wire) && Submissions(wire, sig) > 0
    requires forall a :: 0 <= a < |wire| && wire[a].signal == sig ==> from <= wire[a].checked <= wire[a].at
    ensures LatestOf(wire, sig) >= 0
    ensures wire[LatestOf(wire, sig)].checked >= from + (Submissions(wire, sig) - 1) * COOLDOWN
  {
    var init := wire[..|wire| - 1];
    if Submissions(init, sig) > 0 {
      GuardTimesAdvance(init, sig, from);
      var a := LatestOf(init, sig);
      assert init[a] == wire[a];
    }
  }

  /** A signal that lives L microseconds is submitted at most ceil(L / cooldown) times. */
  lemma SubmissionsAreBounded(events: seq<Event>, sig: nat)
    requires Tolerated(events)
    requires sig < |Run(events).db.signals| && Run(events).db.signals[sig].expires.Some?
    ensures var d := Run(events).db;
            var life := d.signals[sig].expires.value - d.signals[sig].arrived;
            Submissions(d.wire, sig) > 0 ==> life > 0 && Submissions(d.wire, sig) <= (life + COOLDOWN - 1) / COOLDOWN
  {
    RunIsPaced(events);
    var s := Run(events);
    if Submissions(s.db.wire, sig) > 0 {
      forall a | 0 <= a < |s.db.wire| && s.db.wire[a].signal == sig
        ensures s.db.signals[sig].arrived <= s.db.wire[a].checked <= s.db.wire[a].at
      {
        assert RequestOrderly(s, s.db.wire[a]);
      }
      GuardTimesAdvance(s.db.wire, sig, s.db.signals[sig].arrived);
      var a := LatestOf(s.db.wire, sig);
      assert RequestOrderly(s, s.db.wire[a]);
    }
  }
}
