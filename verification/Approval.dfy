/** Nothing is submitted that the checklist has not approved, and what it rejects is refused. */
module Approval {
  import opened Prelude
  import opened MarketData
  import opened OrderBuilder
  import opened Submission
  import opened Pacing
  import opened Resubmission
  import opened Completion

  // ---------------------------------------------------------------------------
  // Past the gate
  // ---------------------------------------------------------------------------

  predicate PastGate(pc: Pc) {
    pc.Cleared? || pc.LookingUp? || pc.Building? || pc.Inserting? || pc.Sending?
  }

  /** The attempt a processor past the gate is making. */
  predicate Attempts(pc: Pc, sig: nat, checked: nat, b: Basis) {
    PastGate(pc) && pc.sig == sig && pc.checked == checked && pc.basis == b
  }

  /** The gate lets the attempt through: approved, on the leverage sleeve, with this snapshot and these positions. */
  ghost predicate LetsThrough(s: State, e: Event, sig: nat, checked: nat, b: Basis) {
    && s.pc == Gated(sig, checked) && sig < |s.db.signals|
    && e.Gate? && e.approved && b.positions == e.positions
    && s.db.signals[sig].signal.sleeve == CryptoLeverage
    && SnapshotForSignal(s.db.signals[sig].signal.symbol, s.db.signals[sig].signal.metadata, e.feeds) == Ok(b.market)
  }

  lemma DecidesPastGate(s: State, e: Event)
    requires PastGate(Decide(s, e))
    ensures var pc := Decide(s, e);
            Attempts(s.pc, pc.sig, pc.checked, pc.basis) || LetsThrough(s, e, pc.sig, pc.checked, pc.basis)
  {
  }

  lemma WritesNotPastGate(s: State)
    ensures PastGate(WriteStep(s).pc) ==> WriteStep(s).pc == s.pc
  {
  }

  lemma FetchesNotPastGate(s: State, e: Event)
    requires e.Poll? || e.Take?
    ensures PastGate(Fetch(s, e).pc) ==> Fetch(s, e).pc == s.pc
  {
  }

  /** One gets past the gate only through it. */
  lemma StepsPastGate(s: State, e: Event)
    requires PastGate(Step(s, e).pc)
    ensures var pc := Step(s, e).pc;
            Attempts(s.pc, pc.sig, pc.checked, pc.basis) || LetsThrough(s, e, pc.sig, pc.checked, pc.basis)
  {
    if e.Write? {
      WritesNotPastGate(s);
    } else if !IsOutside(e) && !e.Insert? && !e.Send? {
      ReadPc(s, e);
      if e.Poll? || e.Take? {
        FetchesNotPastGate(s, e);
      } else if !e.Tick? {
        DecidesPastGate(s, e);
      }
    }
  }

  // ---------------------------------------------------------------------------
  // Over runs
  // ---------------------------------------------------------------------------

  /** What one step may do about the gate and the wire. */
  ghost predicate GateStep(s: State, e: Event, t: State) {
    && (PastGate(t.pc) ==>
          Attempts(s.pc, t.pc.sig, t.pc.checked, t.pc.basis) || LetsThrough(s, e, t.pc.sig, t.pc.checked, t.pc.basis))
    && Extends(s.db.wire, t.db.wire)
    && (|t.db.wire| > |s.db.wire| ==>
          && e == Send && |t.db.wire| == |s.db.wire| + 1
          && var r := t.db.wire[|s.db.wire|]; Attempts(s.pc, r.signal, r.checked, r.basis))
  }

  lemma StepIsGateStep(s: State, e: Event, t: State)
    requires Inv(s) && t == Step(s, e)
    ensures GateStep(s, e, t)
  {
    if PastGate(t.pc) {
      StepsPastGate(s, e);
    }
    StepExtends(s, e);
    if |t.db.wire| > |s.db.wire| && !e.Send? {
      OnlySendSends(s, e);
    }
  }

  /** States one step apart, from the start on. */
  ghost predicate Linked(events: seq<Event>, trace: seq<State>) {
    && |trace| == |events| + 1 && trace[0] == Start
    && forall k :: 0 <= k < |events| ==> GateStep(trace[k], events[k], trace[k + 1])
  }

  /** The attempt was let through by event `n` and is the only thing the processor has done from then up to `m`. */
  ghost predicate ApprovedAt(events: seq<Event>, trace: seq<State>, n: nat, m: nat, sig: nat, checked: nat, b: Basis) {
    && n < m <= |events| < |trace|
    && LetsThrough(trace[n], events[n], sig, checked, b)
    && forall k :: n < k <= m ==> Attempts(trace[k].pc, sig, checked, b)
  }

  ghost predicate ApprovedUpTo(events: seq<Event>, trace: seq<State>, m: nat, sig: nat, checked: nat, b: Basis) {
    exists n: nat :: ApprovedAt(events, trace, n, m, sig, checked, b)
  }

  /** Whoever is past the gate has been let through it. */
  lemma {:induction false} AttemptsAreApproved(events: seq<Event>, trace: seq<State>, m: nat)
    requires Linked(events, trace) && m <= |events| && PastGate(trace[m].pc)
    ensures ApprovedUpTo(events, trace, m, trace[m].pc.sig, trace[m].pc.checked, trace[m].pc.basis)
  {
    var pc := trace[m].pc;
    assert m > 0;
    assert GateStep(trace[m - 1], events[m - 1], trace[m - 1 + 1]);
    if Attempts(trace[m - 1].pc, pc.sig, pc.checked, pc.basis) {
      AttemptsAreApproved(events, trace, m - 1);
      var n: nat :| ApprovedAt(events, trace, n, m - 1, pc.sig, pc.checked, pc.basis);
      assert ApprovedAt(events, trace, n, m, pc.sig, pc.checked, pc.basis);
    } else {
      assert ApprovedAt(events, trace, m - 1, m, pc.sig, pc.checked, pc.basis);
    }
  }

  /** Event `m` is the very step that sent submission `a`, and the attempt had been approved. */
  ghost predicate SentApproved(events: seq<Event>, trace: seq<State>, m: nat, a: nat, r: Request) {
    && m < |events| < |trace| && events[m] == Send && |trace[m].db.wire| == a
    && ApprovedUpTo(events, trace, m, r.signal, r.checked, r.basis)
  }

  lemma {:induction false} SentWasApproved(events: seq<Event>, trace: seq<State>, n: nat, a: nat)
    requires Linked(events, trace) && n <= |events| && a < |trace[n].db.wire|
    ensures exists m: nat :: SentApproved(events, trace, m, a, trace[n].db.wire[a])
  {
    assert n > 0;
    assert GateStep(trace[n - 1], events[n - 1], trace[n - 1 + 1]);
    if a < |trace[n - 1].db.wire| {
      SentWasApproved(events, trace, n - 1, a);
    } else {
      AttemptsAreApproved(events, trace, n - 1);
      assert SentApproved(events, trace, n - 1, a, trace[n].db.wire[a]);
    }
  }

  /** The states of a run. */
  ghost function Trace(events: seq<Event>): (trace: seq<State>)
    ensures |trace| == |events| + 1
  {
    seq(|events| + 1, k requires 0 <= k <= |events| => Run(events[..k]))
  }

  lemma {:induction false} RunStepsTo(events: seq<Event>, k: nat)
    requires k < |events|
    ensures Inv(Run(events[..k])) && GateStep(Run(events[..k]), events[k], Run(events[..k + 1]))
  {
    RunKeeps(events[..k]);
    RunUnfolds(events[..k + 1]);
    assert events[..k + 1][..k] == events[..k] && events[..k + 1][k] == events[k];
    StepIsGateStep(Run(events[..k]), events[k], Run(events[..k + 1]));
  }

  /**
   Over every run: each submission was sent by a step before which an approving gate let exactly this attempt through -
   its signal, guard time, snapshot and positions - and the processor has done nothing else in between.
   */
  lemma {:induction false} SubmissionsAreApproved(events: seq<Event>, a: nat)
    requires a < |Run(events).db.wire|
    ensures exists m: nat :: SentApproved(events, Trace(events), m, a, Run(events).db.wire[a])
  {
    forall k | 0 <= k < |events| ensures GateStep(Trace(events)[k], events[k], Trace(events)[k + 1]) {
      RunStepsTo(events, k);
    }
    assert events[..0] == [] && events[..|events|] == events;
    assert Trace(events)[|events|] == Run(events);
    SentWasApproved(events, Trace(events), |events|, a);
  }

  lemma {:induction false} RunSnoc(init: seq<Event>, e: Event)
    ensures Run(init + [e]) == Step(Run(init), e)
  {
    RunMore(init, [e]);
    assert init + [e][..0] == init;
  }

  // ---------------------------------------------------------------------------
  // What is not let through
  // ---------------------------------------------------------------------------

  /** The checklist rejected it, there is no snapshot, or the sleeve has no broker. */
  ghost predicate TurnsAway(s: State, e: Event) {
    && s.pc.Gated? && s.pc.sig < |s.db.signals| && e.Gate?
    && var g := s.db.signals[s.pc.sig].signal;
       !e.approved || g.sleeve != CryptoLeverage || SnapshotForSignal(g.symbol, g.metadata, e.feeds).Err?
  }

  lemma TurnedAway(s: State, e: Event)
    requires TurnsAway(s, e)
    ensures Step(s, e) == s.(pc := Refusing(s.pc.sig))
  {
    assert ReadStep(s, e) == s.(pc := Decide(s, e));
  }

  ghost predicate Undisturbed(more: seq<Event>) {
    forall n :: 0 <= n < |more| ==> !more[n].Write? && !IsStop(more[n])
  }

  lemma RefusingWaits(s: State, e: Event)
    requires s.pc.Refusing? && !e.Write? && !IsStop(e)
    ensures Step(s, e).pc == s.pc && |Step(s, e).db.rows| == |s.db.rows| && Step(s, e).db.wire == s.db.wire
  {
    if IsOutside(e) {
      OutsideAddsNone(s.db, s.now, e);
    } else if !e.Insert? && !e.Send? {
      ReadPc(s, e);
      ReadsOnly(s, e);
      FetchesOnlyAtRest(s, e);
      RefusingDecidesNothing(s, e);
    }
  }

  lemma RefusingDecidesNothing(s: State, e: Event)
    requires s.pc.Refusing? && !IsStop(e)
    ensures Decide(s, e) == s.pc
  {
  }

  /** The same rows, the same submissions, and the processor about to refuse the signal. */
  predicate Refuses(s: State, t: State, sig: nat) {
    t.pc == Refusing(sig) && |t.db.rows| == |s.db.rows| && t.db.wire == s.db.wire
  }

  lemma {:induction false} RefusalWaits(events: seq<Event>, more: seq<Event>, s: State, sig: nat)
    requires Undisturbed(more) && Refuses(s, Run(events), sig)
    ensures Refuses(s, Run(events + more), sig)
  {
    if more == [] {
      assert events + more == events;
    } else {
      var init, last := more[..|more| - 1], more[|more| - 1];
      RefusalWaits(events, init, s, sig);
      RefusingWaits(Run(events + init), last);
      RunMore(events, more);
    }
  }

  lemma RefusalIsStored(s: State, sig: nat)
    requires s.pc == Refusing(sig) && sig < |s.db.signals|
    ensures var t := Step(s, Write);
            && t.pc == Idle && sig < |t.db.signals| && t.db.signals[sig].status == Refused
            && t.db.rows == s.db.rows && t.db.wire == s.db.wire
  {
    assert Step(s, Write) == WriteStep(s);
  }

  /** A signal that is refused is submitted no more. */
  lemma RefusedIsNotSent(events: seq<Event>, later: seq<Event>, sig: nat)
    requires sig < |Run(events).db.signals| && Run(events).db.signals[sig].status == Refused
    ensures forall a :: |Run(events).db.wire| <= a < |Run(events + later).db.wire| ==> Run(events + later).db.wire[a].signal != sig
  {
    var t := Run(events + later);
    BlockedForGood(events, later, sig, t.now + 1);
    RunIsOrderly(events + later);
    forall a | |Run(events).db.wire| <= a < |t.db.wire| ensures t.db.wire[a].signal != sig {
      assert RequestOrderly(t, t.db.wire[a]);
    }
  }

  /**
   A signal the gate turns away gets no row and no submission; unless the process stops first, the next write of the
   processor refuses it, and no submission of it follows, whatever happens later.
   */
  lemma {:induction false} TurnedAwayIsRefused(events: seq<Event>, e: Event, more: seq<Event>, later: seq<Event>)
    requires TurnsAway(Run(events), e) && Undisturbed(more)
    ensures var s, t := Run(events), Run(events + [e] + more + [Write]);
            && t.pc == Idle && s.pc.sig < |t.db.signals| && t.db.signals[s.pc.sig].status == Refused
            && |t.db.rows| == |s.db.rows| && t.db.wire == s.db.wire
    ensures var s, u := Run(events), Run(events + [e] + more + [Write] + later);
            forall a :: |s.db.wire| <= a < |u.db.wire| ==> u.db.wire[a].signal != s.pc.sig
  {
    var s := Run(events);
    var sig := s.pc.sig;
    TurnedAway(s, e);
    RunSnoc(events, e);
    RefusalWaits(events + [e], more, s, sig);
    var waiting := events + [e] + more;
    RunKeeps(waiting);
    RefusalIsStored(Run(waiting), sig);
    RunSnoc(waiting, Write);
    RefusedIsNotSent(waiting + [Write], later, sig);
  }
}
