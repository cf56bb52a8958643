/** Donchian channels, Wilder's average true range, and the entry and exit rules built on them. */
module Indicators {
  import opened Prelude

  datatype Candle = Candle(high: real, low: real, close: real)

  datatype InputError = BadPeriod | LengthMismatch | TooShort

  // ---------------------------------------------------------------------------
  // Donchian channel
  // ---------------------------------------------------------------------------

  function MaxOf(xs: seq<real>): (m: real)
    requires xs != []
    ensures m in xs && forall i :: 0 <= i < |xs| ==> xs[i] <= m
  {
    if |xs| == 1 then xs[0]
    else
      var m := MaxOf(xs[..|xs| - 1]);
      assert m in xs[..|xs| - 1];
      MaxReal(m, xs[|xs| - 1])
  }

  function MinOf(xs: seq<real>): (m: real)
    requires xs != []
    ensures m in xs && forall i :: 0 <= i < |xs| ==> m <= xs[i]
  {
    if |xs| == 1 then xs[0]
    else
      var m := MinOf(xs[..|xs| - 1]);
      assert m in xs[..|xs| - 1];
      MinReal(m, xs[|xs| - 1])
  }

  datatype Channel = Channel(upper: real, lower: real)

  function Donchian(highs: seq<real>, lows: seq<real>, period: int): Result<Channel, InputError> {
    if period <= 0 then Err(BadPeriod)
    else if |highs| != |lows| then Err(LengthMismatch)
    else if |highs| < period then Err(TooShort)
    else Ok(Channel(MaxOf(highs[|highs| - period..]), MinOf(lows[|lows| - period..])))
  }

  lemma WindowMax(xs: seq<real>, a: nat) returns (i: nat)
    requires a < |xs|
    ensures forall k :: a <= k < |xs| ==> xs[k] <= MaxOf(xs[a..])
    ensures a <= i < |xs| && xs[i] == MaxOf(xs[a..])
  {
    var window := xs[a..];
    forall k | a <= k < |xs| ensures xs[k] <= MaxOf(window) {
      assert xs[k] == window[k - a];
    }
    var h :| 0 <= h < |window| && window[h] == MaxOf(window);
    i := a + h;
  }

  lemma WindowMin(xs: seq<real>, a: nat) returns (i: nat)
    requires a < |xs|
    ensures forall k :: a <= k < |xs| ==> MinOf(xs[a..]) <= xs[k]
    ensures a <= i < |xs| && xs[i] == MinOf(xs[a..])
  {
    var window := xs[a..];
    forall k | a <= k < |xs| ensures MinOf(window) <= xs[k] {
      assert xs[k] == window[k - a];
    }
    var l :| 0 <= l < |window| && window[l] == MinOf(window);
    i := a + l;
  }

  /** The input errors of the channel, first one first. */
  lemma DonchianErrs(highs: seq<real>, lows: seq<real>, period: int)
    ensures var ch := Donchian(highs, lows, period);
            && (ch == Err(BadPeriod) <==> period <= 0)
            && (ch == Err(LengthMismatch) <==> period > 0 && |highs| != |lows|)
            && (ch == Err(TooShort) <==> period > 0 && |highs| == |lows| < period)
            && (ch.Ok? <==> 1 <= period <= |highs| == |lows|)
  {
  }

  /** The channel is the tightest around the last `period` bars. */
  lemma DonchianBounds(highs: seq<real>, lows: seq<real>, period: nat)
    requires 1 <= period <= |highs| == |lows|
    ensures var ch, n := Donchian(highs, lows, period).value, |highs|;
            && (forall i :: n - period <= i < n ==> ch.lower <= lows[i] && highs[i] <= ch.upper)
            && (exists i :: n - period <= i < n && highs[i] == ch.upper)
            && (exists i :: n - period <= i < n && lows[i] == ch.lower)
  {
    var h := WindowMax(highs, |highs| - period);
    var l := WindowMin(lows, |lows| - period);
  }

  // ---------------------------------------------------------------------------
  // Average true range
  // ---------------------------------------------------------------------------

  function TrueRange(high: real, low: real, prevClose: real): real {
    MaxReal(MaxReal(high - low, Abs(high - prevClose)), Abs(low - prevClose))
  }

  /** The largest of the bar's own range and its distances from the last close ... */
  lemma TrueRangeIsLargest(high: real, low: real, prevClose: real)
    ensures var tr := TrueRange(high, low, prevClose);
            && tr >= high - low && tr >= Abs(high - prevClose) && tr >= Abs(low - prevClose)
            && (tr == high - low || tr == Abs(high - prevClose) || tr == Abs(low - prevClose))
  {
  }

  /** ... which on a real bar is how far the price ranged, the last close included. */
  lemma TrueRangeIsSpan(high: real, low: real, prevClose: real)
    requires low <= high
    ensures TrueRange(high, low, prevClose) == MaxReal(high, prevClose) - MinReal(low, prevClose)
  {
  }

  function TrueRanges(highs: seq<real>, lows: seq<real>, closes: seq<real>): (trs: seq<real>)
    requires |highs| == |lows| == |closes| >= 1
    ensures |trs| == |highs| - 1
  {
    seq(|highs| - 1, i requires 0 <= i < |highs| - 1 => TrueRange(highs[i + 1], lows[i + 1], closes[i]))
  }

  /** One range per bar after the first, each with the close of the bar before it. */
  lemma RangesFollowTheBars(highs: seq<real>, lows: seq<real>, closes: seq<real>, i: nat)
    requires |highs| == |lows| == |closes| && 1 <= i < |highs| && lows[i] <= highs[i]
    ensures TrueRanges(highs, lows, closes)[i - 1] == MaxReal(highs[i], closes[i - 1]) - MinReal(lows[i], closes[i - 1])
  {
    TrueRangeIsSpan(highs[i], lows[i], closes[i - 1]);
  }

  function Mean(total: real, period: nat): real
    requires period >= 1
  {
    total / period as real
  }

  /** One smoothing step. */
  function Smooth(prev: real, tr: real, period: nat): real
    requires period >= 1
  {
    (prev * (period as real - 1.0) + tr) / period as real
  }

  /** Wilder's smoothing: the mean of the first `period` values, then one step per further value. */
  function Wilder(trs: seq<real>, period: nat): real
    requires 1 <= period <= |trs|
  {
    if |trs| == period then Mean(Sum(trs), period)
    else Smooth(Wilder(trs[..|trs| - 1], period), trs[|trs| - 1], period)
  }

  function AtrSpec(highs: seq<real>, lows: seq<real>, closes: seq<real>, period: int): Result<real, InputError> {
    if period <= 0 then Err(BadPeriod)
    else if !(|highs| == |lows| == |closes|) then Err(LengthMismatch)
    else if |highs| < period + 1 then Err(TooShort)
    else Ok(Wilder(TrueRanges(highs, lows, closes), period))
  }

  /** The input errors of the average, first one first. */
  lemma AtrErrs(highs: seq<real>, lows: seq<real>, closes: seq<real>, period: int)
    ensures var r, even := AtrSpec(highs, lows, closes, period), |highs| == |lows| == |closes|;
            && (r == Err(BadPeriod) <==> period <= 0)
            && (r == Err(LengthMismatch) <==> period > 0 && !even)
            && (r == Err(TooShort) <==> period > 0 && even && |highs| <= period)
            && (r.Ok? <==> 1 <= period < |highs| && even)
  {
  }

  method CollectTrueRanges(highs: seq<real>, lows: seq<real>, closes: seq<real>) returns (trs: seq<real>)
    requires |highs| == |lows| == |closes| >= 1
    ensures trs == TrueRanges(highs, lows, closes)
  {
    trs := [];
    for i := 1 to |highs|
      invariant trs == TrueRanges(highs, lows, closes)[..i - 1]
    {
      trs := trs + [TrueRange(highs[i], lows[i], closes[i - 1])];
    }
  }

  method SeedMean(trs: seq<real>, period: nat) returns (atr: real)
    requires 1 <= period <= |trs|
    ensures atr == Wilder(trs[..period], period)
  {
    var total := 0.0;
    for i := 0 to period
      invariant total == Sum(trs[..i])
    {
      assert trs[..i + 1][..i] == trs[..i];
      total := total + trs[i];
    }
    atr := Mean(total, period);
  }

  method AverageTrueRange(highs: seq<real>, lows: seq<real>, closes: seq<real>, period: int)
    returns (r: Result<real, InputError>)
    ensures r == AtrSpec(highs, lows, closes, period)
  {
    if period <= 0 {
      return Err(BadPeriod);
    }
    if !(|highs| == |lows| == |closes|) {
      return Err(LengthMismatch);
    }
    if |highs| < period + 1 {
      return Err(TooShort);
    }
    var trs := CollectTrueRanges(highs, lows, closes);
    var atr := SeedMean(trs, period);
    for i := period to |trs|
      invariant atr == Wilder(trs[..i], period)
    {
      assert trs[..i + 1][..i] == trs[..i];
      atr := Smooth(atr, trs[i], period);
    }
    assert trs[..|trs|] == trs;
    r := Ok(atr);
  }

  /** What a smoothing step keeps of the old average, and what it gives the new value. */
  function Keep(period: nat): (k: real)
    requires period >= 1
    ensures 0.0 <= k
  {
    (period as real - 1.0) / period as real
  }

  function Add(period: nat): (k: real)
    requires period >= 1
    ensures 0.0 < k
  {
    1.0 / period as real
  }

  /** The weight each true range carries in the average. */
  function Weights(n: nat, period: nat): (w: seq<real>)
    requires 1 <= period <= n
    ensures |w| == n
  {
    Decay(n, period, Keep(period), Add(period))
  }

  /** `period` equal weights, then each further step scales the old ones by `keep` and appends an `add`. */
  function Decay(n: nat, period: nat, keep: real, add: real): (w: seq<real>)
    requires 1 <= period <= n
    ensures |w| == n
  {
    if n == period then seq(n, _ => add) else Scaled(Decay(n - 1, period, keep, add), keep) + [add]
  }

  /** One step of the recurrence, the factor applied by name. */
  function Kept(x: real, keep: real, add: real, tr: real): real {
    x * keep + add * tr
  }

  /** The recurrence those weights unroll. */
  function Recurrence(trs: seq<real>, period: nat, keep: real, add: real): real
    requires 1 <= period <= |trs|
  {
    if |trs| == period then Sum(trs) * add
    else Kept(Recurrence(trs[..|trs| - 1], period, keep, add), keep, add, trs[|trs| - 1])
  }

  function Scaled(w: seq<real>, k: real): (v: seq<real>)
    ensures |v| == |w|
  {
    if w == [] then [] else Scaled(w[..|w| - 1], k) + [w[|w| - 1] * k]
  }

  function Dot(w: seq<real>, xs: seq<real>): real
    requires |w| == |xs|
  {
    if w == [] then 0.0 else Dot(w[..|w| - 1], xs[..|xs| - 1]) + w[|w| - 1] * xs[|xs| - 1]
  }

  lemma {:induction false} DotAppend(w: seq<real>, k: real, xs: seq<real>)
    requires |w| + 1 == |xs|
    ensures Dot(w + [k], xs) == Dot(w, xs[..|w|]) + k * xs[|w|]
  {
  }

  lemma ScaledSum(d: real, w: real, x: real, k: real)
    ensures d * k + (w * k) * x == (d + w * x) * k
  {
  }

  lemma {:induction false} DotScaled(w: seq<real>, xs: seq<real>, k: real)
    requires |w| == |xs|
    ensures Dot(Scaled(w, k), xs) == Dot(w, xs) * k
  {
    if w != [] {
      var n := |w| - 1;
      DotScaled(w[..n], xs[..n], k);
      DotAppend(Scaled(w[..n], k), w[n] * k, xs);
      ScaledSum(Dot(w[..n], xs[..n]), w[n], xs[n], k);
    }
  }

  lemma {:induction false} DotConstant(w: seq<real>, xs: seq<real>, k: real)
    requires |w| == |xs| && forall i :: 0 <= i < |w| ==> w[i] == k
    ensures Dot(w, xs) == Sum(xs) * k
  {
    if w != [] {
      DotConstant(w[..|w| - 1], xs[..|xs| - 1], k);
    }
  }

  function Ones(n: nat): (s: seq<real>)
    ensures |s| == n
  {
    seq(n, _ => 1.0)
  }

  lemma {:induction false} SumOfOnes(n: nat)
    ensures Sum(Ones(n)) == n as real
  {
    if n > 0 {
      assert Ones(n)[..n - 1] == Ones(n - 1);
      SumOfOnes(n - 1);
    }
  }

  lemma SmoothIsWeighted(prev: real, tr: real, period: nat)
    requires period >= 1
    ensures Smooth(prev, tr, period) == prev * Keep(period) + Add(period) * tr
  {
  }

  lemma {:induction false} DotStep(u: seq<real>, k: real, f: real, trs: seq<real>)
    requires |u| + 1 == |trs|
    ensures Dot(Scaled(u, k) + [f], trs) == Kept(Dot(u, trs[..|u|]), k, f, trs[|u|])
  {
    DotScaled(u, trs[..|u|], k);
    DotAppend(Scaled(u, k), f, trs);
  }

  lemma MeanIsWeighted(total: real, period: nat)
    requires period >= 1
    ensures Mean(total, period) == total * Add(period)
  {
  }

  lemma {:induction false} DecayUnfolds(n: nat, period: nat, keep: real, add: real)
    requires 1 <= period < n
    ensures Decay(n, period, keep, add) == Scaled(Decay(n - 1, period, keep, add), keep) + [add]
  {
  }

  lemma {:induction false} DotOfDecay(n: nat, period: nat, keep: real, add: real, trs: seq<real>, before: real)
    requires 1 <= period < n == |trs| && before == Dot(Decay(n - 1, period, keep, add), trs[..n - 1])
    ensures Dot(Decay(n, period, keep, add), trs) == Kept(before, keep, add, trs[n - 1])
  {
    DecayUnfolds(n, period, keep, add);
    DotStep(Decay(n - 1, period, keep, add), keep, add, trs);
  }

  lemma {:induction false} SeedIsWeighted(trs: seq<real>, period: nat, keep: real, add: real)
    requires 1 <= period == |trs|
    ensures Recurrence(trs, period, keep, add) == Dot(Decay(|trs|, period, keep, add), trs)
  {
    DotConstant(Decay(|trs|, period, keep, add), trs, add);
  }

  /** The step, with what is known of the shorter series given by value. */
  lemma {:induction false} StepIsWeighted(trs: seq<real>, period: nat, keep: real, add: real, before: real)
    requires 1 <= period < |trs| && before == Recurrence(trs[..|trs| - 1], period, keep, add)
    ensures Recurrence(trs, period, keep, add) == Kept(before, keep, add, trs[|trs| - 1])
  {
  }

  lemma {:induction false} WeightedFrom(trs: seq<real>, period: nat, keep: real, add: real, before: real)
    requires 1 <= period < |trs| && before == Recurrence(trs[..|trs| - 1], period, keep, add)
    requires before == Dot(Decay(|trs| - 1, period, keep, add), trs[..|trs| - 1])
    ensures Recurrence(trs, period, keep, add) == Dot(Decay(|trs|, period, keep, add), trs)
  {
    StepIsWeighted(trs, period, keep, add, before);
    DotOfDecay(|trs|, period, keep, add, trs, before);
  }

  lemma {:induction false} RecurrenceIsWeighted(trs: seq<real>, period: nat, keep: real, add: real)
    requires 1 <= period <= |trs|
    ensures Recurrence(trs, period, keep, add) == Dot(Decay(|trs|, period, keep, add), trs)
  {
    if |trs| == period {
      SeedIsWeighted(trs, period, keep, add);
    } else {
      var init := trs[..|trs| - 1];
      RecurrenceIsWeighted(init, period, keep, add);
      WeightedFrom(trs, period, keep, add, Recurrence(init, period, keep, add));
    }
  }

  ghost predicate Smooths(period: nat, keep: real, add: real)
    requires period >= 1
  {
    && (forall prev, tr :: Smooth(prev, tr, period) == prev * keep + add * tr)
    && (forall total :: Mean(total, period) == total * add)
  }

  lemma {:induction false} WilderIsRecurrence(trs: seq<real>, period: nat, keep: real, add: real)
    requires 1 <= period <= |trs| && Smooths(period, keep, add)
    ensures Wilder(trs, period) == Recurrence(trs, period, keep, add)
  {
    if |trs| > period {
      WilderIsRecurrence(trs[..|trs| - 1], period, keep, add);
    }
  }

  /** Wilder's average is the weighted sum of the true ranges ... */
  lemma WilderIsWeighted(trs: seq<real>, period: nat)
    requires 1 <= period <= |trs|
    ensures Wilder(trs, period) == Dot(Weights(|trs|, period), trs)
  {
    forall prev, tr ensures Smooth(prev, tr, period) == prev * Keep(period) + Add(period) * tr {
      SmoothIsWeighted(prev, tr, period);
    }
    forall total ensures Mean(total, period) == total * Add(period) {
      MeanIsWeighted(total, period);
    }
    WilderIsRecurrence(trs, period, Keep(period), Add(period));
    RecurrenceIsWeighted(trs, period, Keep(period), Add(period));
  }

  lemma {:induction false} ScaledIsNonNegative(w: seq<real>, k: real)
    requires k >= 0.0 && forall i :: 0 <= i < |w| ==> w[i] >= 0.0
    ensures forall i :: 0 <= i < |w| ==> Scaled(w, k)[i] >= 0.0
  {
    if w != [] {
      ScaledIsNonNegative(w[..|w| - 1], k);
      NonNegativeProduct(w[|w| - 1], k);
    }
  }

  lemma {:induction false} DecayIsNonNegative(n: nat, period: nat, keep: real, add: real)
    requires 1 <= period <= n && keep >= 0.0 && add >= 0.0
    ensures forall i :: 0 <= i < n ==> Decay(n, period, keep, add)[i] >= 0.0
  {
    if n > period {
      DecayIsNonNegative(n - 1, period, keep, add);
      ScaledIsNonNegative(Decay(n - 1, period, keep, add), keep);
    }
  }

  /** ... with non-negative weights ... */
  lemma WeightsAreNonNegative(n: nat, period: nat)
    requires 1 <= period <= n
    ensures forall i :: 0 <= i < n ==> Weights(n, period)[i] >= 0.0
  {
    DecayIsNonNegative(n, period, Keep(period), Add(period));
  }

  lemma NonNegativeProduct(x: real, y: real)
    requires x >= 0.0 && y >= 0.0
    ensures x * y >= 0.0
  {
  }

  /** ... that sum to one: a constant series averages to its constant. */
  lemma WeightsSumToOne(n: nat, period: nat)
    requires 1 <= period <= n
    ensures Dot(Weights(n, period), Ones(n)) == 1.0
  {
    WilderIsWeighted(Ones(n), period);
    WilderOfOnes(n, period);
  }

  lemma {:induction false} WilderOfOnes(n: nat, period: nat)
    requires 1 <= period <= n
    ensures Wilder(Ones(n), period) == 1.0
  {
    if n == period {
      SumOfOnes(n);
      MeanOfOnes(n);
    } else {
      assert Ones(n)[..n - 1] == Ones(n - 1);
      WilderOfOnes(n - 1, period);
      SmoothOfOnes(period);
    }
  }

  lemma MeanOfOnes(period: nat)
    requires period >= 1
    ensures Mean(period as real, period) == 1.0
  {
  }

  lemma SmoothOfOnes(period: nat)
    requires period >= 1
    ensures Smooth(1.0, 1.0, period) == 1.0
  {
  }

  lemma ProductIsMonotone(w: real, x: real, y: real)
    requires w >= 0.0 && x <= y
    ensures w * x <= w * y
  {
  }

  lemma {:induction false} DotUnfolds(w: seq<real>, xs: seq<real>)
    requires |w| == |xs| > 0
    ensures var n := |w| - 1; Dot(w, xs) == Dot(w[..n], xs[..n]) + w[n] * xs[n]
  {
  }

  lemma SumsCompare(a: real, b: real, c: real, d: real)
    requires a <= b && c <= d
    ensures a + c <= b + d
  {
  }

  lemma {:induction false} DotMonotone(w: seq<real>, xs: seq<real>, ys: seq<real>)
    requires |w| == |xs| == |ys| && forall i :: 0 <= i < |w| ==> w[i] >= 0.0 && xs[i] <= ys[i]
    ensures Dot(w, xs) <= Dot(w, ys)
  {
    if w != [] {
      var n := |w| - 1;
      DotMonotone(w[..n], xs[..n], ys[..n]);
      ProductIsMonotone(w[n], xs[n], ys[n]);
      DotUnfolds(w, xs);
      DotUnfolds(w, ys);
      SumsCompare(Dot(w[..n], xs[..n]), Dot(w[..n], ys[..n]), w[n] * xs[n], w[n] * ys[n]);
    }
  }

  /** Raising any true range never lowers the average. */
  lemma {:induction false} WilderIsMonotone(xs: seq<real>, ys: seq<real>, period: nat)
    requires 1 <= period <= |xs| == |ys| && forall i :: 0 <= i < |xs| ==> xs[i] <= ys[i]
    ensures Wilder(xs, period) <= Wilder(ys, period)
  {
    WilderIsWeighted(xs, period);
    WilderIsWeighted(ys, period);
    WeightsAreNonNegative(|xs|, period);
    DotMonotone(Weights(|xs|, period), xs, ys);
  }

  lemma WilderOfConstant(n: nat, period: nat, k: real)
    requires 1 <= period <= n
    ensures Wilder(seq(n, _ => k), period) == k
  {
    var ks := seq(n, _ => k);
    var w := Weights(n, period);
    WilderIsWeighted(ks, period);
    WeightsSumToOne(n, period);
    DotOfConstant(w, ks, k);
  }

  lemma {:induction false} DotOfConstant(w: seq<real>, ks: seq<real>, k: real)
    requires |w| == |ks| && forall i :: 0 <= i < |ks| ==> ks[i] == k
    ensures Dot(w, ks) == Dot(w, Ones(|w|)) * k
  {
    if w != [] {
      var n := |w| - 1;
      DotOfConstant(w[..n], ks[..n], k);
      assert Ones(|w|)[..n] == Ones(n);
    }
  }

  /** The average lies between the smallest and the largest true range. */
  lemma WilderIsBetween(trs: seq<real>, period: nat)
    requires 1 <= period <= |trs|
    ensures MinOf(trs) <= Wilder(trs, period) <= MaxOf(trs)
  {
    var lo, hi := seq(|trs|, _ => MinOf(trs)), seq(|trs|, _ => MaxOf(trs));
    WilderIsMonotone(lo, trs, period);
    WilderIsMonotone(trs, hi, period);
    WilderOfConstant(|trs|, period, MinOf(trs));
    WilderOfConstant(|trs|, period, MaxOf(trs));
  }

  // ---------------------------------------------------------------------------
  // Entry and exit rules
  // ---------------------------------------------------------------------------

  function Highs(cs: seq<Candle>): (s: seq<real>)
    ensures |s| == |cs| && forall i :: 0 <= i < |cs| ==> s[i] == cs[i].high
  {
    seq(|cs|, i requires 0 <= i < |cs| => cs[i].high)
  }

  function Lows(cs: seq<Candle>): (s: seq<real>)
    ensures |s| == |cs| && forall i :: 0 <= i < |cs| ==> s[i] == cs[i].low
  {
    seq(|cs|, i requires 0 <= i < |cs| => cs[i].low)
  }

  function Closes(cs: seq<Candle>): (s: seq<real>)
    ensures |s| == |cs| && forall i :: 0 <= i < |cs| ==> s[i] == cs[i].close
  {
    seq(|cs|, i requires 0 <= i < |cs| => cs[i].close)
  }

  datatype Breakout = NoBreakout | BreakoutSignal(side: Side, channel: Channel, atr: real)

  /** The channel of the bars before the current one, against the current close. */
  function DetectBreakout(cs: seq<Candle>, donchianPeriod: int, atrPeriod: int): Result<Breakout, InputError> {
    var required := (if donchianPeriod >= atrPeriod then donchianPeriod else atrPeriod) + 1;
    if |cs| < required then Err(TooShort)
    else if cs == [] then Err(BadPeriod)
    else
      var prior := cs[..|cs| - 1];
      match Donchian(Highs(prior), Lows(prior), donchianPeriod)
      case Err(e) => Err(e)
      case Ok(ch) =>
        match AtrSpec(Highs(cs), Lows(cs), Closes(cs), atrPeriod)
        case Err(e) => Err(e)
        case Ok(atr) =>
          var close := cs[|cs| - 1].close;
          if close > ch.upper then Ok(BreakoutSignal(Buy, ch, atr))
          else if close < ch.lower then Ok(BreakoutSignal(Sell, ch, atr))
          else Ok(NoBreakout)
  }

  /** Should a position of this signed quantity be closed now? */
  function DetectExit(cs: seq<Candle>, quantity: real, exitPeriod: int): Result<bool, InputError> {
    if |cs| < exitPeriod + 1 then Err(TooShort)
    else if cs == [] then Err(BadPeriod)
    else
      var prior := cs[..|cs| - 1];
      match Donchian(Highs(prior), Lows(prior), exitPeriod)
      case Err(e) => Err(e)
      case Ok(ch) =>
        var close := cs[|cs| - 1].close;
        Ok(if quantity > 0.0 then close < ch.lower else close > ch.upper)
  }

  /** A shorter channel lies inside a longer one, and on real candles it is not inverted. */
  lemma ShorterChannelIsInside(highs: seq<real>, lows: seq<real>, short: nat, long: nat)
    requires 1 <= short <= long <= |highs| == |lows|
    requires forall i :: 0 <= i < |highs| ==> lows[i] <= highs[i]
    ensures var inner, outer := Donchian(highs, lows, short).value, Donchian(highs, lows, long).value;
            outer.lower <= inner.lower <= inner.upper <= outer.upper
  {
  }

  /** Is the last close above every high - below every low - of the `period` bars before it? */
  predicate ClosesAbove(cs: seq<Candle>, period: nat) {
    period < |cs| && forall i :: |cs| - 1 - period <= i < |cs| - 1 ==> cs[|cs| - 1].close > cs[i].high
  }

  predicate ClosesBelow(cs: seq<Candle>, period: nat) {
    period < |cs| && forall i :: |cs| - 1 - period <= i < |cs| - 1 ==> cs[|cs| - 1].close < cs[i].low
  }

  lemma CloseAgainstChannel(cs: seq<Candle>, period: nat)
    requires 1 <= period < |cs|
    ensures var prior := cs[..|cs| - 1];
            var ch := Donchian(Highs(prior), Lows(prior), period);
            && ch.Ok?
            && (cs[|cs| - 1].close > ch.value.upper <==> ClosesAbove(cs, period))
            && (cs[|cs| - 1].close < ch.value.lower <==> ClosesBelow(cs, period))
  {
    var prior := cs[..|cs| - 1];
    DonchianBounds(Highs(prior), Lows(prior), period);
    assert forall i :: 0 <= i < |prior| ==> Highs(prior)[i] == cs[i].high && Lows(prior)[i] == cs[i].low;
  }

  /** A breakout is reported exactly when there is one, with the average true range of all the bars. */
  lemma BreakoutIff(cs: seq<Candle>, period: nat, atrPeriod: nat)
    requires 1 <= period < |cs| && 1 <= atrPeriod < |cs|
    ensures var b, atr := DetectBreakout(cs, period, atrPeriod), Wilder(TrueRanges(Highs(cs), Lows(cs), Closes(cs)), atrPeriod);
            && b.Ok?
            && (b.value.BreakoutSignal? && b.value.side == Buy <==> ClosesAbove(cs, period))
            && (b.value.BreakoutSignal? && b.value.side == Sell <==> ClosesBelow(cs, period) && !ClosesAbove(cs, period))
            && (b.value.BreakoutSignal? ==> b.value.atr == atr)
  {
    CloseAgainstChannel(cs, period);
  }

  /** With too few bars, or no period, there is an error and no answer. */
  lemma BreakoutErrs(cs: seq<Candle>, period: int, atrPeriod: int)
    ensures DetectBreakout(cs, period, atrPeriod).Err? <==> !(1 <= period < |cs| && 1 <= atrPeriod < |cs|)
  {
    if |cs| > 0 {
      DonchianErrs(Highs(cs[..|cs| - 1]), Lows(cs[..|cs| - 1]), period);
    }
  }

  /** A long is closed below the channel of the exit period, anything else above it. */
  lemma ExitIff(cs: seq<Candle>, quantity: real, period: nat)
    requires 1 <= period < |cs|
    ensures DetectExit(cs, quantity, period)
            == Ok(if quantity > 0.0 then ClosesBelow(cs, period) else ClosesAbove(cs, period))
  {
    CloseAgainstChannel(cs, period);
  }

  /** An entry in one direction is an exit for the other and never for its own. */
  lemma EntriesAndExitsAgree(cs: seq<Candle>, entryPeriod: int, exitPeriod: int, atrPeriod: int, quantity: real)
    requires 1 <= exitPeriod <= entryPeriod
    requires forall i :: 0 <= i < |cs| ==> cs[i].low <= cs[i].high
    ensures var b, exit := DetectBreakout(cs, entryPeriod, atrPeriod), DetectExit(cs, quantity, exitPeriod);
            b.Ok? && b.value.BreakoutSignal? ==>
              && exit.Ok?
              && (quantity != 0.0 ==> (exit.value <==> (b.value.side == Buy) == (quantity < 0.0)))
  {
    BreakoutErrs(cs, entryPeriod, atrPeriod);
    if DetectBreakout(cs, entryPeriod, atrPeriod).Ok? {
      BreakoutIff(cs, entryPeriod, atrPeriod);
      ExitIff(cs, quantity, exitPeriod);
      ShorterPeriodsFollow(cs, exitPeriod, entryPeriod);
    }
  }

  /** A close beyond the longer channel is beyond the shorter one, and not beyond its other side. */
  lemma ShorterPeriodsFollow(cs: seq<Candle>, short: nat, long: nat)
    requires 1 <= short <= long < |cs| && forall i :: 0 <= i < |cs| ==> cs[i].low <= cs[i].high
    ensures ClosesAbove(cs, long) ==> ClosesAbove(cs, short) && !ClosesBelow(cs, short)
    ensures ClosesBelow(cs, long) ==> ClosesBelow(cs, short) && !ClosesAbove(cs, short)
  {
    var last := |cs| - 2;
    assert cs[last].low <= cs[last].high;
  }
}
