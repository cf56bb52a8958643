/** The kill-switch supervisor: its event log, the panic close it triggers, and the gate it shuts. */
module Supervisor {
  import opened Prelude
  import opened OrderBuilder
  import opened RiskGate
  import Ledger
  import Stamps

  /** A row of `kill_switch_events`. */
  datatype KillEvent = KillEvent(kind: string, resolved: bool)

  /** The log and, per panic close that ran, the event it ran for. */
  datatype Log = Log(events: seq<KillEvent>, panics: seq<nat>)

  const NewLog: Log := Log([], [])

  const HARD_KIND: string := "hard_effective_pnl_budget"

  /** The SQL pattern 'hard_%': the underscore matches any one character. */
  predicate IsHard(kind: string) {
    |kind| >= 5 && kind[..4] == "hard"
  }

  predicate AnyUnresolved(events: seq<KillEvent>) {
    exists i :: 0 <= i < |events| && !events[i].resolved
  }

  predicate HardUnresolved(events: seq<KillEvent>) {
    exists i :: 0 <= i < |events| && !events[i].resolved && IsHard(events[i].kind)
  }

  function SoftKind(d: Decision): string {
    if d == DisableForLoss then "lifetime_realised_loss_budget" else "portfolio_drawdown"
  }

  /** The portfolio as the loader builds it: the flag comes from the log. */
  function Loaded(p: Portfolio, log: Log): Portfolio {
    p.(killSwitchActive := AnyUnresolved(log.events))
  }

  /** One supervisor evaluation: record the event first, then close - once per recorded hard event. */
  function Evaluate(log: Log, p: Portfolio, c: RiskConfig, hasBroker: bool): Log {
    match Supervise(Loaded(p, log), c)
    case NoChange => log
    case PanicClose =>
      if HardUnresolved(log.events) then log
      else Log(log.events + [KillEvent(HARD_KIND, false)],
               if hasBroker then log.panics + [|log.events|] else log.panics)
    case d => log.(events := log.events + [KillEvent(SoftKind(d), false)])
  }

  function Resolve(log: Log, i: nat): Log {
    if i < |log.events| then log.(events := log.events[i := log.events[i].(resolved := true)]) else log
  }

  datatype Step = Evaluation(portfolio: Portfolio, hasBroker: bool) | Resolution(event: nat)

  function Run(c: RiskConfig, steps: seq<Step>): Log {
    if steps == [] then NewLog
    else
      var log := Run(c, steps[..|steps| - 1]);
      match steps[|steps| - 1]
      case Evaluation(p, hasBroker) => Evaluate(log, p, c, hasBroker)
      case Resolution(i) => Resolve(log, i)
  }

  ghost predicate AtMostOneEach(log: Log) {
    forall i, j :: 0 <= i < j < |log.events| && !log.events[i].resolved && !log.events[j].resolved ==>
      IsHard(log.events[i].kind) != IsHard(log.events[j].kind)
  }

  ghost predicate PanicsAreHardEvents(log: Log) {
    && (forall n :: 0 <= n < |log.panics| ==> log.panics[n] < |log.events| && IsHard(log.events[log.panics[n]].kind))
    && (forall n, m :: 0 <= n < m < |log.panics| ==> log.panics[n] < log.panics[m])
  }

  lemma KindsAreTold()
    ensures IsHard(HARD_KIND)
    ensures forall d :: !IsHard(SoftKind(d))
  {
    assert HARD_KIND[..4] == "hard";
    forall d ensures !IsHard(SoftKind(d)) {
      assert SoftKind(d)[..4][0] == SoftKind(d)[0] != "hard"[0];
    }
  }

  lemma AppendKeepsOne(events: seq<KillEvent>, panics: seq<nat>, e: KillEvent)
    requires AtMostOneEach(Log(events, panics))
    requires forall i :: 0 <= i < |events| && !events[i].resolved ==> IsHard(events[i].kind) != IsHard(e.kind)
    ensures AtMostOneEach(Log(events + [e], panics))
  {
  }

  lemma EvaluateKeeps(log: Log, p: Portfolio, c: RiskConfig, hasBroker: bool)
    requires AtMostOneEach(log) && PanicsAreHardEvents(log)
    ensures AtMostOneEach(Evaluate(log, p, c, hasBroker)) && PanicsAreHardEvents(Evaluate(log, p, c, hasBroker))
  {
    KindsAreTold();
    var d := Supervise(Loaded(p, log), c);
    if d == PanicClose {
      if !HardUnresolved(log.events) {
        AppendKeepsOne(log.events, log.panics, KillEvent(HARD_KIND, false));
      }
    } else if d != NoChange {
      AppendKeepsOne(log.events, log.panics, KillEvent(SoftKind(d), false));
    }
  }

  /** What one evaluation adds to the log: which event, and whether the positions are closed for it. */
  lemma EvaluationRecords(log: Log, p: Portfolio, c: RiskConfig, hasBroker: bool)
    ensures var log' := Evaluate(log, p, c, hasBroker);
            var hard := RealizedPnl(p) + (if UnrealizedPnl(p) < 0.0 then UnrealizedPnl(p) else 0.0) <= c.hardThreshold;
            var quiet := !hard && !AnyUnresolved(log.events);
            var loss := RealizedPnl(p) <= c.budget;
            && (hard && !HardUnresolved(log.events) ==>
                  && log'.events == log.events + [KillEvent("hard_effective_pnl_budget", false)]
                  && log'.panics == if hasBroker then log.panics + [|log.events|] else log.panics)
            && (quiet && loss ==>
                  log' == log.(events := log.events + [KillEvent("lifetime_realised_loss_budget", false)]))
            && (quiet && !loss && TooFarDown(p, c) ==>
                  log' == log.(events := log.events + [KillEvent("portfolio_drawdown", false)]))
            && (hard && HardUnresolved(log.events) ==> log' == log)
            && (!hard && (AnyUnresolved(log.events) || (!loss && !TooFarDown(p, c))) ==> log' == log)
  {
    SupervisorDecides(Loaded(p, log), c);
  }

  /** Over any serial run: one unresolved hard and one unresolved soft event at most, one panic close per hard event. */
  lemma {:induction false} LogStaysOrderly(c: RiskConfig, steps: seq<Step>)
    ensures AtMostOneEach(Run(c, steps)) && PanicsAreHardEvents(Run(c, steps))
  {
    if steps != [] {
      LogStaysOrderly(c, steps[..|steps| - 1]);
      var s := steps[|steps| - 1];
      if s.Evaluation? {
        EvaluateKeeps(Run(c, steps[..|steps| - 1]), s.portfolio, c, s.hasBroker);
      }
    }
  }

  lemma {:induction false} RunMore(c: RiskConfig, steps: seq<Step>, more: seq<Step>)
    requires more != []
    ensures Run(c, steps + more)
            == match more[|more| - 1]
               case Evaluation(p, hasBroker) => Evaluate(Run(c, steps + more[..|more| - 1]), p, c, hasBroker)
               case Resolution(i) => Resolve(Run(c, steps + more[..|more| - 1]), i)
  {
    var all := steps + more;
    assert all[|all| - 1] == more[|more| - 1] && all[..|all| - 1] == steps + more[..|more| - 1];
  }

  ghost predicate NeverResolves(more: seq<Step>, i: nat) {
    forall n :: 0 <= n < |more| ==> more[n] != Resolution(i)
  }

  /** An event stays open until it is resolved itself, whatever else is recorded or resolved. */
  lemma {:induction false} StaysUnresolved(c: RiskConfig, steps: seq<Step>, more: seq<Step>, i: nat)
    requires i < |Run(c, steps).events| && !Run(c, steps).events[i].resolved && NeverResolves(more, i)
    ensures i < |Run(c, steps + more).events| && !Run(c, steps + more).events[i].resolved
  {
    if more == [] {
      assert steps + more == steps;
    } else {
      StaysUnresolved(c, steps, more[..|more| - 1], i);
      RunMore(c, steps, more);
    }
  }

  /** An evaluation that finds a breach leaves an open event: the one it records, or the hard one already there. */
  lemma BreachLeavesEvent(log: Log, p: Portfolio, c: RiskConfig, hasBroker: bool) returns (i: nat)
    requires Supervise(Loaded(p, log), c) != NoChange
    ensures i < |Evaluate(log, p, c, hasBroker).events| && !Evaluate(log, p, c, hasBroker).events[i].resolved
  {
    if Supervise(Loaded(p, log), c) == PanicClose && HardUnresolved(log.events) {
      i :| 0 <= i < |log.events| && !log.events[i].resolved && IsHard(log.events[i].kind);
    } else {
      i := |log.events|;
    }
  }

  /** Until event `i` is resolved, no checklist approves a leverage signal on a portfolio loaded after the steps. */
  ghost predicate ShutUntil(c: RiskConfig, steps: seq<Step>, i: nat) {
    forall more: seq<Step>, checks: seq<Check>, s: TradeSignal, q: Portfolio ::
      NeverResolves(more, i) && s.sleeve == CryptoLeverage ==>
        !Approves(checks, Context(s, Loaded(q, Run(c, steps + more)), c))
  }

  /** Once an evaluation finds a breach, some event keeps the gate shut until that very event is resolved. */
  lemma {:induction false} ShutUntilResolved(c: RiskConfig, steps: seq<Step>, p: Portfolio, hasBroker: bool)
    requires Supervise(Loaded(p, Run(c, steps)), c) != NoChange
    ensures exists i: nat :: ShutUntil(c, steps + [Evaluation(p, hasBroker)], i)
  {
    var fired := steps + [Evaluation(p, hasBroker)];
    var i := BreachLeavesEvent(Run(c, steps), p, c, hasBroker);
    RunMore(c, steps, [Evaluation(p, hasBroker)]);
    assert steps + [Evaluation(p, hasBroker)][..0] == steps;
    forall more: seq<Step>, checks: seq<Check>, s: TradeSignal, q: Portfolio | NeverResolves(more, i) && s.sleeve == CryptoLeverage
      ensures !Approves(checks, Context(s, Loaded(q, Run(c, fired + more)), c))
    {
      StaysUnresolved(c, fired, more, i);
      assert AnyUnresolved(Run(c, fired + more).events);
    }
    assert ShutUntil(c, fired, i);
  }

  /** Resolving the one event that is open, and only that, opens the gate again; no event is taken back. */
  lemma ResolvingOpens(log: Log, i: nat)
    requires i < |log.events| && !log.events[i].resolved
    ensures |Resolve(log, i).events| == |log.events| && Resolve(log, i).panics == log.panics
    ensures forall k :: 0 <= k < |log.events| ==> Resolve(log, i).events[k].kind == log.events[k].kind
    ensures AnyUnresolved(Resolve(log, i).events) <==> exists k :: 0 <= k < |log.events| && k != i && !log.events[k].resolved
  {
    var log' := Resolve(log, i);
    if AnyUnresolved(log'.events) {
      var k :| 0 <= k < |log'.events| && !log'.events[k].resolved;
      assert k != i && !log.events[k].resolved;
    }
    if k :| 0 <= k < |log.events| && k != i && !log.events[k].resolved {
      assert !log'.events[k].resolved;
    }
  }

  /** An approved leverage trade that has passed the hard limit leaves the supervisor's log as it is. */
  lemma ApprovedTradeLeavesLogAlone(c: RiskConfig, steps: seq<Step>, checks: seq<Check>, s: TradeSignal, p: Portfolio, hasBroker: bool)
    requires c.hardThreshold <= c.budget && s.sleeve == CryptoLeverage && HARD_LIMIT in checks
    requires Approves(checks, Context(s, Loaded(p, Run(c, steps)), c))
    ensures Evaluate(Run(c, steps), p, c, hasBroker) == Run(c, steps)
  {
    var x := Context(s, Loaded(p, Run(c, steps)), c);
    var k :| 0 <= k < |checks| && checks[k] == HARD_LIMIT;
    assert !checks[k].run(x).Rejected?;
    GateDominatesSupervisor(s, x.portfolio, c);
  }

  class KillSwitch {
    var events: seq<KillEvent>
    var panics: seq<nat>

    ghost function View(): Log
      reads this
    {
      Log(events, panics)
    }

    constructor ()
      ensures View() == NewLog
    {
      events, panics := [], [];
    }

    method EvaluateOnce(p: Portfolio, c: RiskConfig, hasBroker: bool) returns (close: bool)
      modifies this
      ensures View() == Evaluate(old(View()), p, c, hasBroker)
      ensures close <==> |panics| > |old(panics)|
    {
      close := false;
      var loaded := p.(killSwitchActive := AnyUnresolved(events));
      var hardAlready := HardUnresolved(events);
      var decision := Supervise(loaded, c);
      if decision == PanicClose {
        if hardAlready {
          return;
        }
        var id := |events|;
        events := events + [KillEvent(HARD_KIND, false)];
        if hasBroker {
          panics := panics + [id];
          close := true;
        }
      } else if decision != NoChange {
        events := events + [KillEvent(SoftKind(decision), false)];
      }
    }
  }

  // ---------------------------------------------------------------------------
  // Panic close
  // ---------------------------------------------------------------------------

  datatype CloseOrder = CloseOrder(symbol: string, side: Side, orderType: OrderType, size: real, cli: string, reduceOnly: bool)

  function PanicId(event: nat, second: nat): string {
    "rt-panic-" + Stamps.Decimal(event) + "-" + Stamps.Decimal(second)
  }

  function CloseOrderFor(p: OpenPosition, cli: string): CloseOrder {
    if p.quantity >= 0.0 then CloseOrder(p.symbol, Sell, Market, p.quantity, cli, true)
    else CloseOrder(p.symbol, Buy, Market, Abs(p.quantity), cli, true)
  }

  function SignedSize(o: CloseOrder): real {
    if o.side == Buy then o.size else -o.size
  }

  /** One reduce-only order per open position; `clock` is the second read for each. */
  method PanicCloseAll(event: nat, positions: seq<OpenPosition>, clock: seq<nat>) returns (orders: seq<CloseOrder>)
    requires |clock| == |positions|
    ensures |orders| == |positions|
    ensures forall k :: 0 <= k < |positions| ==>
              && orders[k].symbol == positions[k].symbol
              && positions[k].quantity + SignedSize(orders[k]) == 0.0
              && orders[k].size >= 0.0 && orders[k].orderType == Market && orders[k].reduceOnly
              && orders[k].cli == PanicId(event, clock[k])
  {
    orders := [];
    for k := 0 to |positions|
      invariant |orders| == k
      invariant forall j :: 0 <= j < k ==> orders[j] == CloseOrderFor(positions[j], PanicId(event, clock[j]))
    {
      orders := orders + [CloseOrderFor(positions[k], PanicId(event, clock[k]))];
    }
  }

  /** A venue that refuses a client id it has seen accepts the first order that carries it. */
  predicate AcceptedByVenue(clis: seq<string>, k: nat)
    requires k < |clis|
  {
    forall j :: 0 <= j < k ==> clis[j] != clis[k]
  }

  lemma PanicIdInjective(event: nat, s: nat, t: nat)
    requires PanicId(event, s) == PanicId(event, t)
    ensures s == t
  {
    var lead := "rt-panic-" + Stamps.Decimal(event) + "-";
    assert PanicId(event, s)[|lead|..] == Stamps.Decimal(s);
    assert PanicId(event, t)[|lead|..] == Stamps.Decimal(t);
    Stamps.DecimalInjective(s, t);
  }

  /** The close reaches every position exactly when no two of its orders are sent in the same second. */
  lemma EveryCloseAcceptedIff(event: nat, clock: seq<nat>)
    ensures var clis := seq(|clock|, k requires 0 <= k < |clock| => PanicId(event, clock[k]));
            (forall k :: 0 <= k < |clock| ==> AcceptedByVenue(clis, k))
            <==> (forall j, k :: 0 <= j < k < |clock| ==> clock[j] != clock[k])
  {
    var clis := seq(|clock|, k requires 0 <= k < |clock| => PanicId(event, clock[k]));
    forall k | 0 <= k < |clock|
      ensures AcceptedByVenue(clis, k) <==> forall j :: 0 <= j < k ==> clock[j] != clock[k]
    {
      forall j | 0 <= j < k ensures clis[j] == clis[k] <==> clock[j] == clock[k] {
        if clis[j] == clis[k] {
          PanicIdInjective(event, clock[j], clock[k]);
        }
      }
    }
  }
}
