/** The pre-trade budget check, the kill-switch evaluator and the checklist that runs before every order. */
module RiskGate {
  import opened Prelude
  import opened OrderBuilder

  datatype SleeveState = SleeveState(sleeve: Sleeve, realized: real, unrealized: real)

  datatype Portfolio = Portfolio(sleeves: seq<SleeveState>, nav: real, navHigh: real, killSwitchActive: bool)

  datatype RiskConfig = RiskConfig(maxLeverage: real, budget: real, hardThreshold: real, maxDrawdown: real,
                                   adverseMove: real, roundTripFee: real, fundingReserve: real)

  datatype TradeSignal = TradeSignal(sleeve: Sleeve, notionalChf: real, leverage: real)

  // ---------------------------------------------------------------------------
  // Portfolio measures
  // ---------------------------------------------------------------------------

  function FindSleeve(sleeves: seq<SleeveState>, sleeve: Sleeve): Option<SleeveState> {
    if sleeves == [] then None
    else if sleeves[0].sleeve == sleeve then Some(sleeves[0])
    else FindSleeve(sleeves[1..], sleeve)
  }

  function RealizedPnl(p: Portfolio): real {
    match FindSleeve(p.sleeves, CryptoLeverage)
    case Some(s) => s.realized
    case None => 0.0
  }

  function UnrealizedPnl(p: Portfolio): real {
    match FindSleeve(p.sleeves, CryptoLeverage)
    case Some(s) => s.unrealized
    case None => 0.0
  }

  /** Realised plus adverse unrealised: paper gains are no fresh budget. */
  function EffectivePnl(p: Portfolio): real {
    RealizedPnl(p) + MinReal(UnrealizedPnl(p), 0.0)
  }

  function Drawdown(p: Portfolio): real {
    if p.navHigh == 0.0 || p.nav >= p.navHigh then 0.0 else (p.navHigh - p.nav) / p.navHigh
  }

  // ---------------------------------------------------------------------------
  // The gate and the supervisor
  // ---------------------------------------------------------------------------

  datatype Rejection =
    | LeverageCapExceeded | EffectiveBudgetExhausted | DrawdownExceeded | WorstCaseWouldExhaustBudget
    | KillSwitchActive | OtherRejection(detail: string)

  datatype CheckOutcome = Approved | Rejected(reason: Rejection) | NotApplicable

  function WorstCaseLoss(s: TradeSignal, c: RiskConfig): real {
    var notional := s.notionalChf * s.leverage;
    notional * c.adverseMove + notional * c.roundTripFee + notional * c.fundingReserve
  }

  function HardLimit(s: TradeSignal, p: Portfolio, c: RiskConfig): CheckOutcome {
    if s.leverage > c.maxLeverage then Rejected(LeverageCapExceeded)
    else if s.sleeve != CryptoLeverage then Approved
    else if EffectivePnl(p) <= c.budget then Rejected(EffectiveBudgetExhausted)
    else if Drawdown(p) > c.maxDrawdown then Rejected(DrawdownExceeded)
    else if EffectivePnl(p) - WorstCaseLoss(s, c) <= c.budget then Rejected(WorstCaseWouldExhaustBudget)
    else Approved
  }

  datatype Decision = NoChange | DisableForLoss | DisableForDrawdown | PanicClose

  function Supervise(p: Portfolio, c: RiskConfig): Decision {
    if EffectivePnl(p) <= c.hardThreshold then PanicClose
    else if p.killSwitchActive then NoChange
    else if RealizedPnl(p) <= c.budget then DisableForLoss
    else if Drawdown(p) > c.maxDrawdown then DisableForDrawdown
    else NoChange
  }

  // ---------------------------------------------------------------------------
  // What the measures mean
  // ---------------------------------------------------------------------------

  /** The leverage figures are those of the first leverage entry; without one they are zero. */
  lemma {:induction false} LeverageFigures(sleeves: seq<SleeveState>, i: nat)
    requires i <= |sleeves| && forall k :: 0 <= k < i ==> sleeves[k].sleeve != CryptoLeverage
    ensures i == |sleeves| ==> FindSleeve(sleeves, CryptoLeverage) == None
    ensures i < |sleeves| && sleeves[i].sleeve == CryptoLeverage ==> FindSleeve(sleeves, CryptoLeverage) == Some(sleeves[i])
  {
    if i > 0 {
      LeverageFigures(sleeves[1..], i - 1);
    }
  }

  /** Paper losses count against the budget, paper gains do not count for it. */
  lemma EffectiveIsAdverse(p: Portfolio)
    ensures EffectivePnl(p) == if UnrealizedPnl(p) < 0.0 then RealizedPnl(p) + UnrealizedPnl(p) else RealizedPnl(p)
  {
  }

  /** The fraction of its high that the unit value has lost. */
  lemma DrawdownIsLostFraction(p: Portfolio)
    requires p.navHigh > 0.0
    ensures p.nav >= p.navHigh ==> Drawdown(p) == 0.0
    ensures p.nav < p.navHigh ==> Drawdown(p) > 0.0 && p.nav == p.navHigh * (1.0 - Drawdown(p))
  {
  }

  /** What a position of a size loses when the price moves against it, fees and funding included. */
  function LossOf(position: real, move: real, c: RiskConfig): real {
    position * move + position * (c.roundTripFee + c.fundingReserve)
  }

  /**
   The projected worst case is what the position actually taken - notional times leverage - loses at the configured
   adverse move, and at least what it loses at any smaller one.
   */
  lemma WorstCaseIsOfThePosition(s: TradeSignal, c: RiskConfig, move: real)
    ensures WorstCaseLoss(s, c) == LossOf(s.notionalChf * s.leverage, c.adverseMove, c)
    ensures s.notionalChf * s.leverage >= 0.0 && move <= c.adverseMove ==>
              LossOf(s.notionalChf * s.leverage, move, c) <= WorstCaseLoss(s, c)
  {
    var position := s.notionalChf * s.leverage;
    CostsAddUp(position, c.roundTripFee, c.fundingReserve);
    if position >= 0.0 && move <= c.adverseMove {
      LossGrows(position, move, c.adverseMove);
    }
  }

  lemma CostsAddUp(x: real, f: real, r: real)
    ensures x * f + x * r == x * (f + r)
  {
  }

  lemma LossGrows(x: real, m: real, n: real)
    requires x >= 0.0 && m <= n
    ensures x * m <= x * n
  {
  }

  /** Twice the leverage, twice the worst case. */
  lemma WorstCaseScales(s: TradeSignal, c: RiskConfig, k: real)
    ensures WorstCaseLoss(s.(leverage := k * s.leverage), c) == k * WorstCaseLoss(s, c)
  {
    var n := s.notionalChf * s.leverage;
    assert s.notionalChf * (k * s.leverage) == k * n;
    ScaledLoss(n, k, c.adverseMove, c.roundTripFee, c.fundingReserve);
  }

  lemma ScaledLoss(n: real, k: real, a: real, f: real, r: real)
    ensures (k * n) * a + (k * n) * f + (k * n) * r == k * (n * a + n * f + n * r)
  {
  }

  // ---------------------------------------------------------------------------
  // What the gate and the supervisor decide
  // ---------------------------------------------------------------------------

  /** The portfolio has fallen further below its high than allowed. */
  predicate TooFarDown(p: Portfolio, c: RiskConfig) {
    if p.navHigh == 0.0 || p.nav >= p.navHigh then c.maxDrawdown < 0.0
    else (p.navHigh - p.nav) / p.navHigh > c.maxDrawdown
  }

  lemma TooFarDownIff(p: Portfolio, c: RiskConfig)
    ensures Drawdown(p) > c.maxDrawdown <==> TooFarDown(p, c)
  {
  }

  /** Every answer of the gate, told by the signal, the portfolio and the configuration. */
  lemma GateDecides(s: TradeSignal, p: Portfolio, c: RiskConfig)
    ensures var effective := RealizedPnl(p) + (if UnrealizedPnl(p) < 0.0 then UnrealizedPnl(p) else 0.0);
            var left := effective - LossOf(s.notionalChf * s.leverage, c.adverseMove, c);
            var allowed := s.leverage <= c.maxLeverage;
            var levered := s.sleeve == CryptoLeverage;
            var answer := HardLimit(s, p, c);
            && (answer == Approved <==>
                  allowed && (levered ==> effective > c.budget && !TooFarDown(p, c) && left > c.budget))
            && (answer == Rejected(LeverageCapExceeded) <==> !allowed)
            && (answer == Rejected(EffectiveBudgetExhausted) <==> allowed && levered && effective <= c.budget)
            && (answer == Rejected(DrawdownExceeded) <==>
                  allowed && levered && effective > c.budget && TooFarDown(p, c))
            && (answer == Rejected(WorstCaseWouldExhaustBudget) <==>
                  allowed && levered && effective > c.budget && !TooFarDown(p, c) && left <= c.budget)
  {
    EffectiveIsAdverse(p);
    TooFarDownIff(p, c);
    WorstCaseIsOfThePosition(s, c, c.adverseMove);
  }

  /** Every decision of the supervisor. The hard trigger fires whatever is already disabled; the soft ones do not. */
  lemma SupervisorDecides(p: Portfolio, c: RiskConfig)
    ensures var hard := RealizedPnl(p) + (if UnrealizedPnl(p) < 0.0 then UnrealizedPnl(p) else 0.0) <= c.hardThreshold;
            var loss := RealizedPnl(p) <= c.budget;
            var decision := Supervise(p, c);
            && (decision == PanicClose <==> hard)
            && (decision == DisableForLoss <==> !hard && !p.killSwitchActive && loss)
            && (decision == DisableForDrawdown <==> !hard && !p.killSwitchActive && !loss && TooFarDown(p, c))
            && (decision == NoChange <==> !hard && (p.killSwitchActive || (!loss && !TooFarDown(p, c))))
  {
    EffectiveIsAdverse(p);
    TooFarDownIff(p, c);
  }

  predicate Sensible(c: RiskConfig) {
    c.maxLeverage >= 1.0 && c.maxDrawdown >= 0.0
    && c.adverseMove >= 0.0 && c.roundTripFee >= 0.0 && c.fundingReserve >= 0.0
  }

  /** A signal as the strategy contract promises it: positive notional, leverage at least one. */
  predicate WellFormed(s: TradeSignal) {
    s.sleeve == CryptoLeverage && s.notionalChf > 0.0 && s.leverage >= 1.0
  }

  /** Whenever the gate lets a leverage trade through, the supervisor has nothing to say about that portfolio. */
  lemma GateDominatesSupervisor(s: TradeSignal, p: Portfolio, c: RiskConfig)
    requires c.hardThreshold <= c.budget && s.sleeve == CryptoLeverage && HardLimit(s, p, c) == Approved
    ensures Supervise(p, c) == NoChange
    ensures EffectivePnl(p) - WorstCaseLoss(s, c) > c.budget
  {
    assert EffectivePnl(p) <= RealizedPnl(p);
  }

  ghost predicate Dominates(c: RiskConfig) {
    forall s, p :: WellFormed(s) && HardLimit(s, p, c) == Approved ==> Supervise(p, c) == NoChange
  }

  lemma SmallTradeFits(room: real, rate: real)
    requires room > 0.0 && rate >= 0.0
    ensures var n := room / (2.0 * (rate + 1.0)); n > 0.0 && n * rate < room
  {
  }

  /** The domination holds for every signal and portfolio exactly when the hard threshold is within the budget. */
  lemma DominatesIff(c: RiskConfig)
    requires Sensible(c)
    ensures Dominates(c) <==> c.hardThreshold <= c.budget
  {
    if c.hardThreshold <= c.budget {
      forall s, p | WellFormed(s) && HardLimit(s, p, c) == Approved ensures Supervise(p, c) == NoChange {
        GateDominatesSupervisor(s, p, c);
      }
    } else {
      var rate := c.adverseMove + c.roundTripFee + c.fundingReserve;
      SmallTradeFits(c.hardThreshold - c.budget, rate);
      var n := (c.hardThreshold - c.budget) / (2.0 * (rate + 1.0));
      var s := TradeSignal(CryptoLeverage, n, 1.0);
      var p := Portfolio([SleeveState(CryptoLeverage, c.hardThreshold, 0.0)], 0.0, 0.0, false);
      assert WorstCaseLoss(s, c) == n * rate;
      assert EffectivePnl(p) == c.hardThreshold;
      assert HardLimit(s, p, c) == Approved && Supervise(p, c) == PanicClose;
    }
  }

  // ---------------------------------------------------------------------------
  // A run of trades
  // ---------------------------------------------------------------------------

  /** One trade: the signal, then the portfolio as it is marked while the trade runs and when it ends. */
  datatype Trade = Trade(signal: TradeSignal, marks: seq<Portfolio>)

  /** Approved on the portfolio it starts from, and never more than its projected worst case below it. */
  ghost predicate TradeHolds(p: Portfolio, t: Trade, c: RiskConfig) {
    && t.signal.sleeve == CryptoLeverage
    && HardLimit(t.signal, p, c) == Approved
    && forall m :: 0 <= m < |t.marks| ==> EffectivePnl(t.marks[m]) >= EffectivePnl(p) - WorstCaseLoss(t.signal, c)
  }

  function PortfolioAfter(p: Portfolio, trades: seq<Trade>): Portfolio {
    if trades == [] then p
    else
      var t := trades[|trades| - 1];
      if t.marks == [] then PortfolioAfter(p, trades[..|trades| - 1]) else t.marks[|t.marks| - 1]
  }

  ghost predicate RunHolds(p: Portfolio, trades: seq<Trade>, c: RiskConfig) {
    forall n :: 0 <= n < |trades| ==> TradeHolds(PortfolioAfter(p, trades[..n]), trades[n], c)
  }

  /** Along any such run the effective P&L never reaches the budget and no P&L trigger fires, at any mark. */
  lemma BudgetIsNeverReached(p: Portfolio, trades: seq<Trade>, c: RiskConfig, n: nat, m: nat)
    requires c.hardThreshold <= c.budget && RunHolds(p, trades, c)
    requires n < |trades| && m < |trades[n].marks|
    ensures EffectivePnl(trades[n].marks[m]) > c.budget
    ensures Supervise(trades[n].marks[m], c) != PanicClose && Supervise(trades[n].marks[m], c) != DisableForLoss
  {
    var entry := PortfolioAfter(p, trades[..n]);
    assert TradeHolds(entry, trades[n], c);
    GateDominatesSupervisor(trades[n].signal, entry, c);
  }

  // ---------------------------------------------------------------------------
  // Trades open at the same time
  // ---------------------------------------------------------------------------

  /** The portfolio once the open leverage positions have moved by `change`. */
  function Marked(p: Portfolio, change: real): Portfolio {
    p.(sleeves := [SleeveState(CryptoLeverage, RealizedPnl(p), UnrealizedPnl(p) + change)] + p.sleeves)
  }

  function TotalWorstCase(open: seq<TradeSignal>, c: RiskConfig): real {
    if open == [] then 0.0 else TotalWorstCase(open[..|open| - 1], c) + WorstCaseLoss(open[|open| - 1], c)
  }

  /** Each open trade has lost at most its own projected worst case. */
  ghost predicate WithinWorstCases(open: seq<TradeSignal>, moves: seq<real>, c: RiskConfig) {
    |moves| == |open| && forall i :: 0 <= i < |open| ==> moves[i] >= -WorstCaseLoss(open[i], c)
  }

  ghost predicate SafeTogether(p: Portfolio, open: seq<TradeSignal>, c: RiskConfig) {
    forall moves :: WithinWorstCases(open, moves, c) ==> EffectivePnl(Marked(p, Sum(moves))) > c.budget
  }

  lemma {:induction false} WorstCasesBound(open: seq<TradeSignal>, moves: seq<real>, c: RiskConfig)
    requires WithinWorstCases(open, moves, c)
    ensures Sum(moves) >= -TotalWorstCase(open, c)
    ensures (forall i :: 0 <= i < |open| ==> moves[i] == -WorstCaseLoss(open[i], c)) ==> Sum(moves) == -TotalWorstCase(open, c)
  {
    if open != [] {
      WorstCasesBound(open[..|open| - 1], moves[..|moves| - 1], c);
    }
  }

  /** Trades that are open together keep clear of the budget exactly when the sum of their worst cases does. */
  lemma {:induction false} SafeTogetherIff(p: Portfolio, open: seq<TradeSignal>, c: RiskConfig)
    ensures SafeTogether(p, open, c)
            <==> RealizedPnl(p) + MinReal(UnrealizedPnl(p) - TotalWorstCase(open, c), 0.0) > c.budget
  {
    var worst := seq(|open|, i requires 0 <= i < |open| => -WorstCaseLoss(open[i], c));
    WorstCasesBound(open, worst, c);
    assert WithinWorstCases(open, worst, c);
    assert EffectivePnl(Marked(p, Sum(worst))) == RealizedPnl(p) + MinReal(UnrealizedPnl(p) - TotalWorstCase(open, c), 0.0);
    forall moves | WithinWorstCases(open, moves, c)
      ensures EffectivePnl(Marked(p, Sum(moves))) >= EffectivePnl(Marked(p, Sum(worst)))
    {
      WorstCasesBound(open, moves, c);
    }
  }

  /** For a single trade that is what the gate checks, or less. */
  lemma OneApprovedTradeIsSafe(s: TradeSignal, p: Portfolio, c: RiskConfig)
    requires s.sleeve == CryptoLeverage && HardLimit(s, p, c) == Approved
    ensures SafeTogether(p, [s], c)
  {
    SafeTogetherIff(p, [s], c);
    assert [s][..0] == [];
    assert TotalWorstCase([s], c) == WorstCaseLoss(s, c);
  }

  lemma WorstCaseOfTwo(s: TradeSignal, c: RiskConfig)
    ensures TotalWorstCase([s, s], c) == WorstCaseLoss(s, c) + WorstCaseLoss(s, c)
  {
    assert [s, s][..1] == [s] && [s][..0] == [];
    assert TotalWorstCase([s], c) == WorstCaseLoss(s, c);
  }

  /** For two it is not: the gate reserves nothing for what is already open, and approves the same trade again. */
  lemma ApprovedTradesMayBreakBudget()
    ensures exists s, p, c ::
              Sensible(c) && c.hardThreshold <= c.budget && WellFormed(s)
              && HardLimit(s, p, c) == Approved && HardLimit(s, Marked(p, 0.0), c) == Approved && !SafeTogether(p, [s, s], c)
  {
    var c := RiskConfig(2.0, -1000.0, -1000.0, 1.0, 1.0, 0.0, 0.0);
    var s := TradeSignal(CryptoLeverage, 600.0, 1.0);
    var p := Portfolio([], 0.0, 0.0, false);
    WorstCaseOfTwo(s, c);
    assert WorstCaseLoss(s, c) == 600.0;
    SafeTogetherIff(p, [s, s], c);
    assert HardLimit(s, p, c) == Approved && HardLimit(s, Marked(p, 0.0), c) == Approved;
  }

  // ---------------------------------------------------------------------------
  // The checklist
  // ---------------------------------------------------------------------------

  datatype Context = Context(signal: TradeSignal, portfolio: Portfolio, config: RiskConfig)

  datatype Check = Check(id: string, run: Context -> CheckOutcome)

  const HARD_LIMIT: Check := Check("hard_limit", (x: Context) => HardLimit(x.signal, x.portfolio, x.config))

  predicate Passes(o: CheckOutcome) {
    o == Approved || o == NotApplicable
  }

  predicate GateShut(x: Context) {
    x.portfolio.killSwitchActive && x.signal.sleeve == CryptoLeverage
  }

  /** Approved means: the kill-switch gate is not shut and no single check rejected. */
  predicate Approves(checks: seq<Check>, x: Context) {
    !GateShut(x) && forall k :: 0 <= k < |checks| ==> !checks[k].run(x).Rejected?
  }

  method EvaluateChecklist(checks: seq<Check>, x: Context)
    returns (outcomes: seq<(string, CheckOutcome)>, approved: bool)
    ensures approved == Approves(checks, x)
    ensures |outcomes| == |checks| + (if GateShut(x) then 1 else 0)
    ensures GateShut(x) ==> outcomes[0] == ("kill_switch_gate", Rejected(KillSwitchActive))
    ensures forall k :: 0 <= k < |checks| ==>
              outcomes[|outcomes| - |checks| + k] == (checks[k].id, checks[k].run(x))
  {
    outcomes := [];
    if GateShut(x) {
      outcomes := [("kill_switch_gate", Rejected(KillSwitchActive))];
    }
    var lead := |outcomes|;
    for k := 0 to |checks|
      invariant |outcomes| == lead + k
      invariant lead == 1 ==> outcomes[0] == ("kill_switch_gate", Rejected(KillSwitchActive))
      invariant forall j :: 0 <= j < k ==> outcomes[lead + j] == (checks[j].id, checks[j].run(x))
    {
      outcomes := outcomes + [(checks[k].id, checks[k].run(x))];
    }
    approved := true;
    for k := 0 to |outcomes|
      invariant approved <==> forall j :: 0 <= j < k ==> Passes(outcomes[j].1)
    {
      approved := approved && Passes(outcomes[k].1);
    }
    assert approved ==> |outcomes| == 0 || Passes(outcomes[0].1);
    assert approved ==> forall k :: 0 <= k < |checks| ==> Passes(outcomes[lead + k].1) && Passes(checks[k].run(x));
    if !approved {
      var j :| 0 <= j < |outcomes| && !Passes(outcomes[j].1);
      assert j >= lead ==> !Passes(checks[j - lead].run(x)) by {
        if j >= lead {
          assert outcomes[lead + (j - lead)] == (checks[j - lead].id, checks[j - lead].run(x));
        }
      }
    }
  }
}
