/** Cumulative fill state of one order: quantity, quantity-weighted average price, fees, status. */
module OrderFills {
  import opened Prelude

  datatype Status =
    | PendingSubmission | Uncertain | Submitted | Acknowledged | PartiallyFilled
    | Filled | Cancelled | Rejected | Failed

  /** One execution reported by the broker for an order. */
  datatype Execution = Execution(qty: real, price: real, fee: real)

  datatype Progress = Progress(filled: real, average: Option<real>, fees: real, status: Status)

  function Untouched(status: Status): Progress {
    Progress(0.0, None, 0.0, status)
  }

  predicate AllPositive(xs: seq<Execution>) {
    forall k :: 0 <= k < |xs| ==> xs[k].qty > 0.0
  }

  /** The mean of what was filled before and the new execution, as the code computes it. */
  function Blend(filled: real, average: real, x: Execution): real
    requires filled >= 0.0 && x.qty > 0.0
  {
    (filled * average + x.qty * x.price) / (filled + x.qty)
  }

  function ApplyFill(p: Progress, quantity: real, x: Execution): Progress
    requires p.filled >= 0.0 && x.qty > 0.0
  {
    var filled := p.filled + x.qty;
    Progress(
      filled,
      Some(if p.filled == 0.0 || p.average.None? then x.price else Blend(p.filled, p.average.value, x)),
      p.fees + x.fee,
      if p.status == Filled || filled >= quantity then Filled else PartiallyFilled)
  }

  function ApplyAll(p: Progress, quantity: real, xs: seq<Execution>): (r: Progress)
    requires p.filled >= 0.0 && AllPositive(xs)
    ensures r.filled >= p.filled
  {
    if xs == [] then p
    else ApplyFill(ApplyAll(p, quantity, xs[..|xs| - 1]), quantity, xs[|xs| - 1])
  }

  // ---------------------------------------------------------------------------
  // Exact totals
  // ---------------------------------------------------------------------------

  function Total(g: Execution -> real, xs: seq<Execution>): real {
    if xs == [] then 0.0 else Total(g, xs[..|xs| - 1]) + g(xs[|xs| - 1])
  }

  const Qty: Execution -> real := (x: Execution) => x.qty
  const Fee: Execution -> real := (x: Execution) => x.fee
  const Value: Execution -> real := (x: Execution) => x.qty * x.price

  lemma {:induction false} TotalQtyIsPositive(xs: seq<Execution>)
    requires AllPositive(xs)
    ensures Total(Qty, xs) >= 0.0 && (xs != [] ==> Total(Qty, xs) > 0.0)
  {
    if xs != [] {
      TotalQtyIsPositive(xs[..|xs| - 1]);
    }
  }

  lemma BlendTimesFilled(filled: real, average: real, x: Execution)
    requires filled >= 0.0 && x.qty > 0.0
    ensures Blend(filled, average, x) * (filled + x.qty) == filled * average + x.qty * x.price
  {
  }

  /** From an untouched order: quantity, fees and average * quantity are the exact sums. */
  lemma {:induction false} ExactTotals(status: Status, quantity: real, xs: seq<Execution>)
    requires AllPositive(xs)
    ensures var p := ApplyAll(Untouched(status), quantity, xs);
            && p.filled == Total(Qty, xs)
            && p.fees == Total(Fee, xs)
            && (xs != [] ==> p.average.Some? && p.average.value * p.filled == Total(Value, xs))
            && (xs == [] ==> p.average == None)
  {
    if xs != [] {
      var init, x := xs[..|xs| - 1], xs[|xs| - 1];
      ExactTotals(status, quantity, init);
      TotalQtyIsPositive(init);
      var p := ApplyAll(Untouched(status), quantity, init);
      if init != [] {
        BlendTimesFilled(p.filled, p.average.value, x);
      }
    }
  }

  /** The status says exactly whether the order has been filled, and filled is for good. */
  lemma {:induction false} StatusOnlyAdvances(p: Progress, quantity: real, xs: seq<Execution>)
    requires p.filled >= 0.0 && AllPositive(xs) && xs != []
    ensures var q := ApplyAll(p, quantity, xs);
            && (q.status == Filled <==> p.status == Filled || q.filled >= quantity)
            && (q.status != Filled ==> q.status == PartiallyFilled)
  {
    var init := xs[..|xs| - 1];
    if init != [] {
      StatusOnlyAdvances(p, quantity, init);
    }
  }

  // ---------------------------------------------------------------------------
  // Order of arrival
  // ---------------------------------------------------------------------------

  lemma {:induction false} TotalConcat(g: Execution -> real, xs: seq<Execution>, ys: seq<Execution>)
    ensures Total(g, xs + ys) == Total(g, xs) + Total(g, ys)
  {
    if ys == [] {
      assert xs + ys == xs;
    } else {
      TotalConcat(g, xs, ys[..|ys| - 1]);
      assert (xs + ys)[..|xs + ys| - 1] == xs + ys[..|ys| - 1];
    }
  }

  lemma {:induction false} RemoveOne(g: Execution -> real, xs: seq<Execution>, i: nat)
    requires i < |xs|
    ensures multiset(xs[..i] + xs[i + 1..]) == multiset(xs) - multiset{xs[i]}
    ensures Total(g, xs[..i] + xs[i + 1..]) == Total(g, xs) - g(xs[i])
  {
    var front, x, back := xs[..i], xs[i], xs[i + 1..];
    assert xs == front + [x] + back;
    assert multiset(xs) == multiset(front) + multiset{x} + multiset(back);
    TotalConcat(g, front, back);
    TotalConcat(g, front, [x]);
    TotalConcat(g, front + [x], back);
    assert [x][..0] == [];
  }

  lemma {:induction false} TotalIsOrderFree(g: Execution -> real, xs: seq<Execution>, ys: seq<Execution>)
    requires multiset(xs) == multiset(ys)
    ensures Total(g, xs) == Total(g, ys)
    decreases |xs|
  {
    if xs == [] {
      assert |multiset(ys)| == |ys|;
    } else {
      var x := xs[0];
      assert x in multiset(ys);
      var i :| 0 <= i < |ys| && ys[i] == x;
      RemoveOne(g, xs, 0);
      RemoveOne(g, ys, i);
      TotalIsOrderFree(g, xs[..0] + xs[1..], ys[..i] + ys[i + 1..]);
    }
  }

  lemma QuotientIsUnique(x: real, y: real, n: real)
    requires n > 0.0 && x * n == y * n
    ensures x == y
  {
  }

  /** Whatever order the fills arrive in, the order ends in the same state. */
  lemma {:induction false} ArrivalOrderDoesNotMatter(status: Status, quantity: real, xs: seq<Execution>, ys: seq<Execution>)
    requires AllPositive(xs) && AllPositive(ys) && multiset(xs) == multiset(ys)
    ensures ApplyAll(Untouched(status), quantity, xs) == ApplyAll(Untouched(status), quantity, ys)
  {
    assert |xs| == |multiset(xs)| == |multiset(ys)| == |ys|;
    if xs != [] {
      TotalIsOrderFree(Qty, xs, ys);
      TotalIsOrderFree(Fee, xs, ys);
      TotalIsOrderFree(Value, xs, ys);
      ExactTotals(status, quantity, xs);
      ExactTotals(status, quantity, ys);
      TotalQtyIsPositive(xs);
      var p, q := ApplyAll(Untouched(status), quantity, xs), ApplyAll(Untouched(status), quantity, ys);
      QuotientIsUnique(p.average.value, q.average.value, p.filled);
      StatusOnlyAdvances(Untouched(status), quantity, xs);
      StatusOnlyAdvances(Untouched(status), quantity, ys);
    }
  }

  // ---------------------------------------------------------------------------
  // Rounding
  // ---------------------------------------------------------------------------

  /** Stored averages when every division may be off by `eps`; the first fill divides nothing. */
  predicate RoundedAverages(avgs: seq<real>, xs: seq<Execution>, eps: real)
    requires AllPositive(xs)
  {
    && |avgs| == |xs|
    && (|xs| == 1 ==> avgs[0] == xs[0].price)
    && (|xs| > 1 ==>
          var n := |xs| - 1;
          TotalQtyIsPositive(xs[..n]);
          && RoundedAverages(avgs[..n], xs[..n], eps)
          && Abs(avgs[n] - Blend(Total(Qty, xs[..n]), avgs[n - 1], xs[n])) <= eps)
  }

  function ExactAverage(xs: seq<Execution>): real
    requires AllPositive(xs) && xs != []
  {
    TotalQtyIsPositive(xs);
    Total(Value, xs) / Total(Qty, xs)
  }

  lemma BlendContracts(filled: real, a: real, b: real, x: Execution)
    requires filled >= 0.0 && x.qty > 0.0
    ensures Abs(Blend(filled, a, x) - Blend(filled, b, x)) <= Abs(a - b)
  {
    var t := filled + x.qty;
    var d := Blend(filled, a, x) - Blend(filled, b, x);
    BlendTimesFilled(filled, a, x);
    BlendTimesFilled(filled, b, x);
    assert d * t == filled * (a - b);
    if a >= b {
      BetweenZeroAnd(d, a - b, filled, t);
    } else {
      assert (-d) * t == filled * (b - a);
      BetweenZeroAnd(-d, b - a, filled, t);
    }
  }

  lemma BetweenZeroAnd(d: real, e: real, f: real, t: real)
    requires t > 0.0 && 0.0 <= f <= t && e >= 0.0 && d * t == f * e
    ensures 0.0 <= d <= e
  {
    assert f * e >= 0.0;
    assert (t - f) * e >= 0.0;
    assert (e - d) * t >= 0.0;
  }

  lemma ExactAverageBlends(xs: seq<Execution>)
    requires AllPositive(xs) && |xs| > 1
    ensures Total(Qty, xs[..|xs| - 1]) > 0.0
    ensures ExactAverage(xs)
            == Blend(Total(Qty, xs[..|xs| - 1]), ExactAverage(xs[..|xs| - 1]), xs[|xs| - 1])
  {
    var init := xs[..|xs| - 1];
    TotalQtyIsPositive(init);
    assert ExactAverage(init) * Total(Qty, init) == Total(Value, init);
  }

  function Slack(divisions: nat, eps: real): real {
    if divisions == 0 then 0.0 else Slack(divisions - 1, eps) + eps
  }

  lemma {:induction false} SlackIsProduct(divisions: nat, eps: real)
    ensures Slack(divisions, eps) == divisions as real * eps
  {
    if divisions > 0 {
      SlackIsProduct(divisions - 1, eps);
      OneMore(divisions, eps);
    }
  }

  lemma {:induction false} ErrorsAddUp(avgs: seq<real>, xs: seq<Execution>, eps: real)
    requires AllPositive(xs) && xs != [] && RoundedAverages(avgs, xs, eps)
    ensures Abs(avgs[|xs| - 1] - ExactAverage(xs)) <= Slack(|xs| - 1, eps)
  {
    var n := |xs| - 1;
    if n == 0 {
      AverageOfOne(xs[0]);
      assert xs == [xs[0]];
    } else {
      var init := xs[..n];
      ErrorsAddUp(avgs[..n], init, eps);
      ExactAverageBlends(xs);
      assert avgs[..n][n - 1] == avgs[n - 1];
      RoundingStep(avgs[n], avgs[n - 1], ExactAverage(init), Total(Qty, init), xs[n], eps, Slack(n - 1, eps));
    }
  }

  /** With every division off by at most eps, n fills leave the average within (n - 1) * eps. */
  lemma RoundingStaysBounded(avgs: seq<real>, xs: seq<Execution>, eps: real)
    requires AllPositive(xs) && xs != [] && RoundedAverages(avgs, xs, eps)
    ensures Abs(avgs[|xs| - 1] - ExactAverage(xs)) <= (|xs| - 1) as real * eps
  {
    ErrorsAddUp(avgs, xs, eps);
    SlackIsProduct(|xs| - 1, eps);
  }

  lemma RoundingStep(avg: real, prev: real, exact: real, filled: real, x: Execution, eps: real, bound: real)
    requires filled >= 0.0 && x.qty > 0.0
    requires Abs(avg - Blend(filled, prev, x)) <= eps && Abs(prev - exact) <= bound
    ensures Abs(avg - Blend(filled, exact, x)) <= bound + eps
  {
    BlendContracts(filled, prev, exact, x);
  }

  lemma AverageOfOne(x: Execution)
    requires x.qty > 0.0
    ensures ExactAverage([x]) == x.price
  {
    assert [x][..0] == [];
    assert Total(Qty, [x]) == x.qty && Total(Value, [x]) == x.qty * x.price;
  }

  lemma OneMore(n: int, eps: real)
    ensures n as real * eps == (n - 1) as real * eps + eps
  {
  }
}
