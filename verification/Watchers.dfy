/** The supervisor's evaluation when two tasks run it: reading the log and recording an event are separate steps. */
module Watchers {
  import opened Prelude
  import opened RiskGate
  import opened Supervisor

  /** What one evaluation has decided, before it records anything; `readAt` is how long the log was when it read it. */
  datatype Reading = Reading(decision: Decision, hardAlready: bool, hasBroker: bool, readAt: nat)

  datatype Watch = Watch(log: Log, readings: map<nat, Reading>)

  datatype Action = Read(task: nat, portfolio: Portfolio, hasBroker: bool) | Record(task: nat) | ResolveEvent(event: nat)

  const Quiet: Watch := Watch(NewLog, map[])

  function ReadingOf(log: Log, p: Portfolio, c: RiskConfig, hasBroker: bool): Reading {
    Reading(Supervise(Loaded(p, log), c), HardUnresolved(log.events), hasBroker, |log.events|)
  }

  predicate Records(r: Reading) {
    r.decision != NoChange && !(r.decision == PanicClose && r.hardAlready)
  }

  function EventOf(r: Reading): KillEvent {
    KillEvent(if r.decision == PanicClose then HARD_KIND else SoftKind(r.decision), false)
  }

  function Recorded(log: Log, r: Reading): Log {
    if !Records(r) then log
    else Log(log.events + [EventOf(r)],
             if r.decision == PanicClose && r.hasBroker then log.panics + [|log.events|] else log.panics)
  }

  /** Read and recorded in one go it is the serial evaluation. */
  lemma RecordedAtOnceIsSerial(log: Log, p: Portfolio, c: RiskConfig, hasBroker: bool)
    ensures Recorded(log, ReadingOf(log, p, c, hasBroker)) == Evaluate(log, p, c, hasBroker)
  {
  }

  function Act(w: Watch, c: RiskConfig, a: Action): Watch {
    match a
    case Read(t, p, hasBroker) => w.(readings := w.readings[t := ReadingOf(w.log, p, c, hasBroker)])
    case Record(t) =>
      if t in w.readings then Watch(Recorded(w.log, w.readings[t]), w.readings - {t}) else w
    case ResolveEvent(i) => w.(log := Resolve(w.log, i))
  }

  function RunWatch(c: RiskConfig, actions: seq<Action>): Watch {
    if actions == [] then Quiet else Act(RunWatch(c, actions[..|actions| - 1]), c, actions[|actions| - 1])
  }

  predicate Unresolved(log: Log, from: nat, hard: bool) {
    exists i :: from <= i < |log.events| && !log.events[i].resolved && IsHard(log.events[i].kind) == hard
  }

  /** The task is about to record an event of a kind of which one recorded since its own reading is still unresolved. */
  predicate Overtaken(w: Watch, a: Action) {
    && a.Record? && a.task in w.readings && Records(w.readings[a.task])
    && Unresolved(w.log, w.readings[a.task].readAt, w.readings[a.task].decision == PanicClose)
  }

  /** A reading that would record an event had nothing unresolved of that kind before it. */
  ghost predicate ReadTruly(log: Log, r: Reading) {
    r.readAt <= |log.events| && (Records(r) ==>
      forall i :: 0 <= i < r.readAt && !log.events[i].resolved ==> IsHard(log.events[i].kind) != (r.decision == PanicClose))
  }

  ghost predicate AllReadTruly(w: Watch) {
    forall t :: t in w.readings ==> ReadTruly(w.log, w.readings[t])
  }

  lemma ReadingIsTrue(log: Log, p: Portfolio, c: RiskConfig, hasBroker: bool)
    ensures ReadTruly(log, ReadingOf(log, p, c, hasBroker))
  {
    var r := ReadingOf(log, p, c, hasBroker);
    if Records(r) && r.decision != PanicClose {
      assert !AnyUnresolved(log.events);
    }
  }

  /** Later events do not touch what was read, and resolving only helps. */
  lemma ReadTrulyStays(log: Log, log': Log, r: Reading)
    requires ReadTruly(log, r) && |log.events| <= |log'.events|
    requires forall i :: 0 <= i < |log.events| ==>
               log'.events[i].kind == log.events[i].kind && (log.events[i].resolved ==> log'.events[i].resolved)
    ensures ReadTruly(log', r)
  {
  }

  lemma ActReadsTruly(w: Watch, c: RiskConfig, a: Action)
    requires AllReadTruly(w)
    ensures AllReadTruly(Act(w, c, a))
  {
    var w' := Act(w, c, a);
    forall t | t in w'.readings ensures ReadTruly(w'.log, w'.readings[t]) {
      if a.Read? && a.task == t {
        ReadingIsTrue(w.log, a.portfolio, c, a.hasBroker);
      } else {
        ReadTrulyStays(w.log, w'.log, w.readings[t]);
      }
    }
  }

  lemma {:induction false} RunReadsTruly(c: RiskConfig, actions: seq<Action>)
    ensures AllReadTruly(RunWatch(c, actions))
  {
    if actions != [] {
      RunReadsTruly(c, actions[..|actions| - 1]);
      ActReadsTruly(RunWatch(c, actions[..|actions| - 1]), c, actions[|actions| - 1]);
    }
  }

  lemma EventKind(r: Reading)
    ensures IsHard(EventOf(r).kind) <==> r.decision == PanicClose
  {
    KindsAreTold();
  }

  lemma RecordingKeepsIff(log: Log, r: Reading)
    requires AtMostOneEach(log) && Records(r)
    ensures AtMostOneEach(Recorded(log, r)) <==> !Unresolved(log, 0, r.decision == PanicClose)
  {
    EventKind(r);
    var n, log' := |log.events|, Recorded(log, r);
    assert forall i :: 0 <= i < n ==> log'.events[i] == log.events[i];
    assert log'.events[n] == EventOf(r);
    if Unresolved(log, 0, r.decision == PanicClose) {
      var i :| 0 <= i < n && !log.events[i].resolved && IsHard(log.events[i].kind) == (r.decision == PanicClose);
      assert !log'.events[i].resolved && !log'.events[n].resolved;
    }
  }

  lemma ResolvingKeeps(log: Log, i: nat)
    requires AtMostOneEach(log)
    ensures AtMostOneEach(Resolve(log, i))
  {
  }

  lemma ActKeepsIff(w: Watch, c: RiskConfig, a: Action)
    requires AtMostOneEach(w.log) && AllReadTruly(w)
    ensures AtMostOneEach(Act(w, c, a).log) <==> !Overtaken(w, a)
  {
    if a.ResolveEvent? {
      ResolvingKeeps(w.log, a.event);
    } else if a.Record? && a.task in w.readings && Records(w.readings[a.task]) {
      var r := w.readings[a.task];
      assert ReadTruly(w.log, r);
      RecordingKeepsIff(w.log, r);
      assert Unresolved(w.log, 0, r.decision == PanicClose) <==> Unresolved(w.log, r.readAt, r.decision == PanicClose);
    }
  }

  lemma {:induction false} RunWatchMore(c: RiskConfig, actions: seq<Action>, n: nat)
    requires n < |actions|
    ensures RunWatch(c, actions[..n + 1]) == Act(RunWatch(c, actions[..n]), c, actions[n])
  {
    assert actions[..n + 1][..n] == actions[..n];
  }

  lemma NextKeepsIff(c: RiskConfig, actions: seq<Action>, n: nat)
    requires n < |actions| && AtMostOneEach(RunWatch(c, actions[..n]).log)
    ensures AtMostOneEach(RunWatch(c, actions[..n + 1]).log) <==> !Overtaken(RunWatch(c, actions[..n]), actions[n])
  {
    RunReadsTruly(c, actions[..n]);
    RunWatchMore(c, actions, n);
    ActKeepsIff(RunWatch(c, actions[..n]), c, actions[n]);
  }

  lemma {:induction false} UndisturbedStaysOrderly(c: RiskConfig, actions: seq<Action>, n: nat)
    requires n <= |actions| && forall k :: 0 <= k < n ==> !Overtaken(RunWatch(c, actions[..k]), actions[k])
    ensures AtMostOneEach(RunWatch(c, actions[..n]).log)
  {
    if n > 0 {
      UndisturbedStaysOrderly(c, actions, n - 1);
      NextKeepsIff(c, actions, n - 1);
    }
  }

  /**
   Over every interleaving of any number of tasks and resolutions: there is at most one unresolved event of each kind
   all along exactly when no task records a kind of which one recorded since its own reading is still unresolved.
   */
  lemma {:induction false} OrderlyIffNeverOvertaken(c: RiskConfig, actions: seq<Action>)
    ensures (forall n :: 0 <= n <= |actions| ==> AtMostOneEach(RunWatch(c, actions[..n]).log))
            <==> (forall n :: 0 <= n < |actions| ==> !Overtaken(RunWatch(c, actions[..n]), actions[n]))
  {
    if forall n :: 0 <= n <= |actions| ==> AtMostOneEach(RunWatch(c, actions[..n]).log) {
      forall n | 0 <= n < |actions| ensures !Overtaken(RunWatch(c, actions[..n]), actions[n]) {
        assert AtMostOneEach(RunWatch(c, actions[..n]).log) && AtMostOneEach(RunWatch(c, actions[..n + 1]).log);
        NextKeepsIff(c, actions, n);
      }
    }
    if forall n :: 0 <= n < |actions| ==> !Overtaken(RunWatch(c, actions[..n]), actions[n]) {
      forall n | 0 <= n <= |actions| ensures AtMostOneEach(RunWatch(c, actions[..n]).log) {
        UndisturbedStaysOrderly(c, actions, n);
      }
    }
  }

  /** Each panic close belongs to its own recorded hard event, however the tasks interleave. */
  lemma {:induction false} PanicsStayPaired(c: RiskConfig, actions: seq<Action>)
    ensures PanicsAreHardEvents(RunWatch(c, actions).log)
  {
    if actions != [] {
      var w, a := RunWatch(c, actions[..|actions| - 1]), actions[|actions| - 1];
      PanicsStayPaired(c, actions[..|actions| - 1]);
      if a.Record? && a.task in w.readings {
        EventKind(w.readings[a.task]);
      }
    }
  }

  /** Two tasks that read the same breach before either records it start two panic closes. */
  lemma TwoTasksPanicTwice(c: RiskConfig, p: Portfolio)
    requires EffectivePnl(p) <= c.hardThreshold
    ensures |RunWatch(c, [Read(0, p, true), Read(1, p, true), Record(0), Record(1)]).log.panics| == 2
  {
    var all := [Read(0, p, true), Read(1, p, true), Record(0), Record(1)];
    var r := Reading(PanicClose, false, true, 0);
    assert Supervise(Loaded(p, NewLog), c) == PanicClose;
    RunWatchMore(c, all, 0);
    assert RunWatch(c, all[..1]) == Watch(NewLog, map[0 := r]);
    RunWatchMore(c, all, 1);
    assert RunWatch(c, all[..2]) == Watch(NewLog, map[0 := r, 1 := r]);
    RunWatchMore(c, all, 2);
    assert RunWatch(c, all[..3]) == Watch(Log([EventOf(r)], [0]), map[1 := r]);
    RunWatchMore(c, all, 3);
    assert all[..4] == all;
  }
}
