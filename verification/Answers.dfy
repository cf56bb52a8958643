/** What the database holds once an answer - of the venue, of the lookup, of the guard - has been written out. */
module Answers {
  import opened Prelude
  import opened OrderBuilder
  import opened OrderFills
  import opened Submission
  import opened Pacing
  import opened Resubmission

  /** The row as it was but for broker id and status, the signal but for status and cooldown; nothing else has changed. */
  predicate Wrote(s: State, t: State, i: nat, brokerId: Option<nat>, status: Status, sig: nat, outcome: SignalStatus, retry: Option<nat>)
    requires i < |s.db.rows| && sig < |s.db.signals|
  {
    t == s.(db := s.db.(rows := s.db.rows[i := s.db.rows[i].(brokerId := brokerId, status := status)],
                        signals := s.db.signals[sig := s.db.signals[sig].(status := outcome, retryAfter := retry)]),
            pc := Idle)
  }

  /** Only the signal has changed. */
  predicate WroteSignal(s: State, t: State, sig: nat, outcome: SignalStatus, retry: Option<nat>)
    requires sig < |s.db.signals|
  {
    t == s.(db := s.db.(signals := s.db.signals[sig := s.db.signals[sig].(status := outcome, retryAfter := retry)]), pc := Idle)
  }

  // ---------------------------------------------------------------------------
  // Single writes
  // ---------------------------------------------------------------------------

  lemma RowIsWritten(s: State, t: State, i: nat)
    requires i < |s.db.rows| && t == WriteStep(s)
    ensures s.pc.Recording? && s.pc.row == i ==>
              t == s.(db := WithRow(s.db, i, Some(s.pc.number), s.pc.reported), pc := Finishing(s.pc.sig, i))
    ensures s.pc.MarkingUncertain? && s.pc.row == i ==>
              t == s.(db := WithRow(s.db, i, s.db.rows[i].brokerId, Uncertain), pc := Cooling(s.pc.sig, s.now + COOLDOWN))
    ensures s.pc.MarkingFailed? && s.pc.row == i ==>
              t == s.(db := WithRow(s.db, i, s.db.rows[i].brokerId, Failed), pc := Refusing(s.pc.sig))
    ensures s.pc.Adopting? && s.pc.row == i ==>
              t == s.(db := WithAdoption(s.db, i, s.pc.number), pc := Finishing(s.pc.sig, i))
  {
  }

  lemma SignalIsWritten(s: State, t: State)
    requires s.pc != Idle && s.pc.sig < |s.db.signals| && t == WriteStep(s)
    ensures s.pc.Cooling? ==> t == s.(db := WithRetry(s.db, s.pc.sig, Some(s.pc.until)), pc := Idle)
    ensures s.pc.Finishing? ==> t == s.(db := WithStatus(s.db, s.pc.sig, Processed), pc := Clearing(s.pc.sig))
    ensures s.pc.Clearing? ==> t == s.(db := WithRetry(s.db, s.pc.sig, None), pc := Idle)
    ensures s.pc.Refusing? ==> t == s.(db := WithStatus(s.db, s.pc.sig, Refused), pc := Idle)
  {
  }

  /** Two writes after the order is settled the signal is processed and its cooldown gone. */
  lemma FinishingEnds(s: State, i: nat)
    requires s.pc.Finishing? && s.pc.sig < |s.db.signals|
    ensures WroteSignal(s, WriteStep(WriteStep(s)), s.pc.sig, Processed, None)
  {
    var t := WriteStep(s);
    SignalIsWritten(s, t);
    SignalIsWritten(t, WriteStep(t));
  }

  // ---------------------------------------------------------------------------
  // The venue's answers
  // ---------------------------------------------------------------------------

  function ThreeWrites(s: State): State {
    WriteStep(WriteStep(WriteStep(s)))
  }

  lemma Answered(s: State, e: Event, pc: Pc)
    requires Decides(e) && Decide(s, e) == pc
    ensures Step(s, e) == s.(pc := pc)
  {
    DecisionFacts(s, e);
  }

  lemma AnswerDecides(s: State, e: Event)
    requires s.pc.Awaiting?
    ensures e == Uncertainty ==> Decide(s, e) == MarkingUncertain(s.pc.sig, s.pc.row)
    ensures e == BrokerError || (e == Refusal && s.pc.attempt in s.db.refused) ==>
              Decide(s, e) == MarkingFailed(s.pc.sig, s.pc.row)
    ensures (&& e.Accepted? && e.order < |s.db.venue| && s.db.venue[e.order].origin == FromRequest(s.pc.attempt)
             && BrokerStatus(e.reported)) ==>
              Decide(s, e) == Recording(s.pc.sig, s.pc.row, e.order, e.reported)
  {
  }

  lemma RecordingEnds(s: State)
    requires s.pc.Recording? && s.pc.row < |s.db.rows| && s.pc.sig < |s.db.signals|
    ensures Wrote(s, ThreeWrites(s), s.pc.row, Some(s.pc.number), s.pc.reported, s.pc.sig, Processed, None)
  {
    RowIsWritten(s, WriteStep(s), s.pc.row);
    FinishingEnds(WriteStep(s), s.pc.row);
  }

  lemma UncertaintyEnds(s: State)
    requires s.pc.MarkingUncertain? && s.pc.row < |s.db.rows| && s.pc.sig < |s.db.signals|
    ensures Wrote(s, WriteStep(WriteStep(s)), s.pc.row, s.db.rows[s.pc.row].brokerId, Uncertain,
                  s.pc.sig, s.db.signals[s.pc.sig].status, Some(s.now + 90_000_000))
  {
    RowIsWritten(s, WriteStep(s), s.pc.row);
    SignalIsWritten(WriteStep(s), WriteStep(WriteStep(s)));
  }

  lemma FailureEnds(s: State)
    requires s.pc.MarkingFailed? && s.pc.row < |s.db.rows| && s.pc.sig < |s.db.signals|
    ensures Wrote(s, WriteStep(WriteStep(s)), s.pc.row, s.db.rows[s.pc.row].brokerId, Failed,
                  s.pc.sig, Refused, s.db.signals[s.pc.sig].retryAfter)
  {
    RowIsWritten(s, WriteStep(s), s.pc.row);
    SignalIsWritten(WriteStep(s), WriteStep(WriteStep(s)));
  }

  /** The venue took it: the row gets the venue's number and status, the signal is processed. */
  lemma AcceptanceIsRecorded(s: State, k: nat, reported: Status)
    requires s.pc.Awaiting? && s.pc.row < |s.db.rows| && s.pc.sig < |s.db.signals|
    requires k < |s.db.venue| && s.db.venue[k].origin == FromRequest(s.pc.attempt) && BrokerStatus(reported)
    ensures Wrote(s, ThreeWrites(Step(s, Accepted(k, reported))), s.pc.row, Some(k), reported, s.pc.sig, Processed, None)
  {
    AnswerDecides(s, Accepted(k, reported));
    Answered(s, Accepted(k, reported), Recording(s.pc.sig, s.pc.row, k, reported));
    RecordingEnds(s.(pc := Recording(s.pc.sig, s.pc.row, k, reported)));
  }

  /** No answer: the row is uncertain, the signal pending, and the cooldown runs from now. */
  lemma TimeoutIsRecorded(s: State)
    requires s.pc.Awaiting? && s.pc.row < |s.db.rows| && s.pc.sig < |s.db.signals|
    ensures Wrote(s, WriteStep(WriteStep(Step(s, Uncertainty))), s.pc.row, s.db.rows[s.pc.row].brokerId, Uncertain,
                  s.pc.sig, s.db.signals[s.pc.sig].status, Some(s.now + 90_000_000))
  {
    AnswerDecides(s, Uncertainty);
    Answered(s, Uncertainty, MarkingUncertain(s.pc.sig, s.pc.row));
    UncertaintyEnds(s.(pc := MarkingUncertain(s.pc.sig, s.pc.row)));
  }

  /** A refusal of this submission, or any other error: the row failed, the signal is rejected. */
  lemma RefusalIsRecorded(s: State, e: Event)
    requires s.pc.Awaiting? && s.pc.row < |s.db.rows| && s.pc.sig < |s.db.signals|
    requires e == BrokerError || (e == Refusal && s.pc.attempt in s.db.refused)
    ensures Wrote(s, WriteStep(WriteStep(Step(s, e))), s.pc.row, s.db.rows[s.pc.row].brokerId, Failed,
                  s.pc.sig, Refused, s.db.signals[s.pc.sig].retryAfter)
  {
    AnswerDecides(s, e);
    Answered(s, e, MarkingFailed(s.pc.sig, s.pc.row));
    FailureEnds(s.(pc := MarkingFailed(s.pc.sig, s.pc.row)));
  }

  // ---------------------------------------------------------------------------
  // The lookup's answers
  // ---------------------------------------------------------------------------

  /** An adopted order that was in doubt is acknowledged; a known broker id is not replaced. */
  function Adopted(row: OrderRow, k: nat): OrderRow {
    if row.brokerId.Some? then row
    else if row.status == PendingSubmission || row.status == Uncertain then row.(brokerId := Some(k), status := Acknowledged)
    else row.(brokerId := Some(k))
  }

  lemma AdoptionEnds(s: State)
    requires s.pc.Adopting? && s.pc.row < |s.db.rows| && s.pc.sig < |s.db.signals|
    ensures var row := Adopted(s.db.rows[s.pc.row], s.pc.number);
            Wrote(s, ThreeWrites(s), s.pc.row, row.brokerId, row.status, s.pc.sig, Processed, None)
  {
    RowIsWritten(s, WriteStep(s), s.pc.row);
    FinishingEnds(WriteStep(s), s.pc.row);
    var row := Adopted(s.db.rows[s.pc.row], s.pc.number);
    assert WriteStep(s).db.rows == s.db.rows[s.pc.row := s.db.rows[s.pc.row].(brokerId := row.brokerId, status := row.status)];
  }

  lemma FoundOrderDecides(s: State, k: nat)
    requires s.pc.LookingUp? && s.pc.row < |s.db.rows|
    requires k < |s.db.venue| && s.db.venue[k].resting && s.db.venue[k].terms.cli == s.db.rows[s.pc.row].cli
    ensures Decide(s, LookupFinds(k)) == Adopting(s.pc.sig, s.pc.row, k)
  {
  }

  /** The venue lists the order: it is adopted and the signal processed. */
  lemma FoundOrderIsAdopted(s: State, k: nat)
    requires s.pc.LookingUp? && s.pc.row < |s.db.rows| && s.pc.sig < |s.db.signals|
    requires k < |s.db.venue| && s.db.venue[k].resting && s.db.venue[k].terms.cli == s.db.rows[s.pc.row].cli
    ensures var row := Adopted(s.db.rows[s.pc.row], k);
            Wrote(s, ThreeWrites(Step(s, LookupFinds(k))), s.pc.row, row.brokerId, row.status, s.pc.sig, Processed, None)
  {
    FoundOrderDecides(s, k);
    Answered(s, LookupFinds(k), Adopting(s.pc.sig, s.pc.row, k));
    AdoptionEnds(s.(pc := Adopting(s.pc.sig, s.pc.row, k)));
  }

  lemma FailedLookupDecides(s: State)
    requires s.pc.LookingUp?
    ensures Decide(s, LookupFails) == Cooling(s.pc.sig, s.now + COOLDOWN)
  {
  }

  /** The lookup itself failed: the cooldown starts again, and nothing else moves. */
  lemma FailedLookupCools(s: State)
    requires s.pc.LookingUp? && s.pc.sig < |s.db.signals|
    ensures WroteSignal(s, WriteStep(Step(s, LookupFails)), s.pc.sig, s.db.signals[s.pc.sig].status, Some(s.now + 90_000_000))
  {
    FailedLookupDecides(s);
    Answered(s, LookupFails, Cooling(s.pc.sig, s.now + COOLDOWN));
    var t := s.(pc := Cooling(s.pc.sig, s.now + COOLDOWN));
    SignalIsWritten(t, WriteStep(t));
  }

  /** What the processor finds of the signal's order row decides what it does. */
  lemma {:induction false} FoundRowDecides(s: State, i: nat)
    requires Inv(s) && s.pc.Cleared? && i < |s.db.rows| && s.db.rows[i].signal == s.pc.sig
    ensures var status, t := s.db.rows[i].status, Step(s, FindOrder);
            && (status == Uncertain ==> t == s.(pc := LookingUp(s.pc.sig, s.pc.checked, s.pc.basis, i)))
            && (status == PendingSubmission ==> t == s.(pc := Idle))
            && (status == Acknowledged || status == Submitted || status == PartiallyFilled ==>
                  WroteSignal(s, WriteStep(WriteStep(t)), s.pc.sig, Processed, None))
            && (status == Filled || status == Cancelled || status == Rejected || status == Failed ==>
                  t == s.(pc := Building(s.pc.sig, s.pc.checked, s.pc.basis, None)))
  {
    DecisionFacts(s, FindOrder);
    forall k | 0 <= k < |s.db.rows| && s.db.rows[k].signal == s.pc.sig ensures k == i {
      OneRowPerSignal(s.db, k, i);
    }
    if InFlight(s.db.rows[i].status) {
      FindsTheRow(s.db.rows, s.pc.sig, i);
    }
    var t := s.(pc := Finishing(s.pc.sig, i));
    FinishingEnds(t, i);
  }

  /** With a row in the table no second one is written, and nothing is sent. */
  lemma SecondRowIsKeptOut(s: State, i: nat)
    requires s.pc.Inserting? && i < |s.db.rows| && s.db.rows[i].cli == s.pc.order.cli
    ensures Step(s, Insert) == s.(pc := Idle)
  {
    assert InsertStep(s) == s.(pc := Idle);
  }

  /** The orphan catcher does to a row what the lookup would. */
  lemma OrphanIsAdopted(s: State, i: nat, k: nat)
    requires i < |s.db.rows| && k < |s.db.venue| && s.db.venue[k].terms.cli == s.db.rows[i].cli
    ensures Step(s, Backfill(i, k)) == s.(db := s.db.(rows := s.db.rows[i := Adopted(s.db.rows[i], k)]))
  {
    HappeningFacts(s, Backfill(i, k));
    assert s.db.rows[i := s.db.rows[i]] == s.db.rows;
  }

  /** A fill of an order whose broker id is known moves its status on, and a filled one stays filled. */
  lemma FillMovesStatus(s: State, i: nat, full: bool)
    requires i < |s.db.rows| && s.db.rows[i].brokerId.Some?
    ensures Step(s, FillApplied(i, full))
            == s.(db := s.db.(rows := s.db.rows[i := s.db.rows[i].(status :=
                   if full || s.db.rows[i].status == Filled then Filled else PartiallyFilled)]))
  {
    HappeningFacts(s, FillApplied(i, full));
  }

  /** A submission carries the order as built, the guard time of its attempt and the time it leaves. */
  lemma SubmissionIsTimed(s: State)
    requires s.pc.Sending?
    ensures var t := Step(s, Send);
            && t.db == s.db.(wire := s.db.wire + [Request(s.pc.sig, s.pc.row, TermsOf(s.pc.order), s.pc.basis, s.pc.checked, s.now)])
            && t.pc == Awaiting(s.pc.sig, s.pc.row, |s.db.wire|) && t.now == s.now
  {
    assert Step(s, Send) == SendStep(s);
  }

  // ---------------------------------------------------------------------------
  // The guard's answer
  // ---------------------------------------------------------------------------

  /** An expired signal is refused when its turn comes; an unexpired one goes on with the clock as its guard time. */
  lemma GuardDecides(s: State)
    requires s.pc == Idle && s.queue != [] && s.queue[0] < |s.db.signals|
    ensures var sig, t := s.queue[0], Step(s, Take);
            var row := s.db.signals[sig];
            && (row.expires.Some? && row.expires.value <= s.now ==>
                  WroteSignal(s.(queue := s.queue[1..]), WriteStep(t), sig, Refused, row.retryAfter))
            && (row.expires.None? || s.now < row.expires.value ==> t == s.(queue := s.queue[1..], pc := Gated(sig, s.now)))
  {
    var t := Step(s, Take);
    assert t == Fetch(s, Take);
    var sig := s.queue[0];
    if !Unexpired(s.db.signals[sig], s.now) {
      assert t == s.(queue := s.queue[1..], pc := Refusing(sig));
      SignalIsWritten(t, WriteStep(t));
    }
  }
}
