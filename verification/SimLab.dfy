/** Simulation of trading days: per-day P/L, the equity and drawdown loop, streaks
    and the confusion matrix. */
module SimLab {
  import opened Basics

  // ----- sums of daily P/L -----

  ghost function Sum(s: seq<real>, lo: nat, hi: nat): real
    requires lo <= hi <= |s|
  {
    if lo == hi then 0.0 else Sum(s, lo, hi - 1) + s[hi - 1]
  }

  lemma {:induction false} SumSplits(s: seq<real>, lo: nat, mid: nat, hi: nat)
    requires lo <= mid <= hi <= |s|
    ensures Sum(s, lo, hi) == Sum(s, lo, mid) + Sum(s, mid, hi)
    decreases hi
  {
    if mid < hi {
      SumSplits(s, lo, mid, hi - 1);
    }
  }

  /** The running peak: the highest equity so far, at least 0. */
  ghost function Peak(s: seq<real>, n: nat): real
    requires n <= |s|
  {
    if n == 0 then 0.0 else Max(Peak(s, n - 1), Sum(s, 0, n))
  }

  method EquityLoop(pnl: seq<real>) returns (equity: seq<real>, peaks: seq<real>, drawdown: seq<real>)
    ensures |equity| == |peaks| == |drawdown| == |pnl|
    ensures forall i | 0 <= i < |pnl| :: equity[i] == Sum(pnl, 0, i + 1)
    ensures forall i | 0 <= i < |pnl| :: peaks[i] == Peak(pnl, i + 1)
    ensures forall i | 0 <= i < |pnl| :: drawdown[i] == equity[i] - peaks[i]
  {
    equity, peaks, drawdown := [], [], [];
    var total, peak := 0.0, 0.0;
    for k := 0 to |pnl|
      invariant total == Sum(pnl, 0, k) && peak == Peak(pnl, k)
      invariant |equity| == |peaks| == |drawdown| == k
      invariant forall i | 0 <= i < k :: equity[i] == Sum(pnl, 0, i + 1)
      invariant forall i | 0 <= i < k :: peaks[i] == Peak(pnl, i + 1)
      invariant forall i | 0 <= i < k :: drawdown[i] == equity[i] - peaks[i]
    {
      total := total + pnl[k];
      peak := Max(peak, total);
      equity := equity + [total];
      peaks := peaks + [peak];
      drawdown := drawdown + [total - peak];
    }
  }

  // ----- the drawdown against its quadratic definition -----

  ghost predicate IsBlock(s: seq<real>, lo: nat, hi: nat) {
    lo <= hi <= |s|
  }

  /** x is the least sum of a block of consecutive days, the empty block included. */
  ghost predicate IsLeastBlockSum(s: seq<real>, x: real) {
    && (exists lo, hi | IsBlock(s, lo, hi) :: Sum(s, lo, hi) == x)
    && (forall lo, hi | IsBlock(s, lo, hi) :: x <= Sum(s, lo, hi))
  }

  /** The peak is the best equity reached at some day, or 0 before the first. */
  lemma {:induction false} PeakIsBest(s: seq<real>, n: nat) returns (lo: nat)
    requires n <= |s|
    ensures lo <= n && Peak(s, n) == Sum(s, 0, lo)
    ensures forall i: nat | i <= n :: Sum(s, 0, i) <= Peak(s, n)
  {
    if n == 0 {
      lo := 0;
    } else {
      lo := PeakIsBest(s, n - 1);
      if Sum(s, 0, n) >= Peak(s, n - 1) {
        lo := n;
      }
    }
  }

  /** The drawdown after n days is the least sum of a block ending there. */
  lemma DrawdownIsLeastEnding(s: seq<real>, n: nat) returns (lo: nat)
    requires n <= |s|
    ensures lo <= n && Sum(s, lo, n) == Sum(s, 0, n) - Peak(s, n)
    ensures forall i: nat | i <= n :: Sum(s, 0, n) - Peak(s, n) <= Sum(s, i, n)
  {
    lo := PeakIsBest(s, n);
    SumSplits(s, 0, lo, n);
    forall i: nat | i <= n ensures Sum(s, 0, n) - Peak(s, n) <= Sum(s, i, n) {
      SumSplits(s, 0, i, n);
    }
  }

  ghost function Least(s: seq<real>): real
    requires s != []
  {
    var n := |s| - 1;
    if n == 0 then s[0] else Min(Least(s[..n]), s[n])
  }

  lemma {:induction false} LeastMeaning(s: seq<real>) returns (k: nat)
    requires s != []
    ensures k < |s| && Least(s) == s[k] && forall i | 0 <= i < |s| :: Least(s) <= s[i]
  {
    var n := |s| - 1;
    k := n;
    if n > 0 {
      var j := LeastMeaning(s[..n]);
      assert forall i | 0 <= i < n :: s[i] == s[..n][i];
      if s[j] <= s[n] { k := j; }
    }
  }

  /** min(drawdown) if drawdown else 0.0 */
  method MaxDrawdown(drawdown: seq<real>) returns (r: real)
    ensures r == if drawdown == [] then 0.0 else Least(drawdown)
  {
    if drawdown == [] {
      return 0.0;
    }
    r := drawdown[0];
    assert drawdown[..1] == [drawdown[0]];
    for k := 1 to |drawdown|
      invariant r == Least(drawdown[..k])
    {
      assert drawdown[..k + 1][..k] == drawdown[..k];
      if drawdown[k] < r {
        r := drawdown[k];
      }
    }
    assert drawdown[..|drawdown|] == drawdown;
  }

  /** The streamed maximum drawdown is the least block sum of the daily P/L. */
  lemma DrawdownIsLeastBlockSum(s: seq<real>, drawdown: seq<real>)
    requires |drawdown| == |s| && forall i | 0 <= i < |s| :: drawdown[i] == Sum(s, 0, i + 1) - Peak(s, i + 1)
    ensures IsLeastBlockSum(s, if drawdown == [] then 0.0 else Least(drawdown))
  {
    if s == [] {
      assert IsBlock(s, 0, 0) && Sum(s, 0, 0) == 0.0;
    } else {
      var k := LeastMeaning(drawdown);
      var lo := DrawdownIsLeastEnding(s, k + 1);
      assert IsBlock(s, lo, k + 1);
      forall lo, hi | IsBlock(s, lo, hi) ensures Least(drawdown) <= Sum(s, lo, hi) {
        if hi == 0 {
          var _ := DrawdownIsLeastEnding(s, 1);
          assert drawdown[0] <= Sum(s, 1, 1);
        } else {
          var _ := DrawdownIsLeastEnding(s, hi);
          assert drawdown[hi - 1] <= Sum(s, lo, hi);
        }
      }
    }
  }

  // ----- profits and losses -----

  ghost function SumWhere(s: seq<real>, n: nat, keep: real -> bool): real
    requires n <= |s|
  {
    if n == 0 then 0.0 else SumWhere(s, n - 1, keep) + if keep(s[n - 1]) then s[n - 1] else 0.0
  }

  datatype ProfitFactor = NoFactor | Infinite | Factor(value: real)

  method ProfitFactorOf(days: seq<real>) returns (sumPos: real, sumNeg: real, factor: ProfitFactor)
    ensures sumPos == SumWhere(days, |days|, x => x > 0.0) && sumNeg == SumWhere(days, |days|, x => x < 0.0)
    ensures sumPos + sumNeg == Sum(days, 0, |days|) && sumPos >= 0.0 && sumNeg <= 0.0
    ensures factor == if sumNeg != 0.0 then Factor(sumPos / Abs(sumNeg)) else if sumPos > 0.0 then Infinite else NoFactor
  {
    sumPos, sumNeg := 0.0, 0.0;
    for k := 0 to |days|
      invariant sumPos == SumWhere(days, k, x => x > 0.0) && sumNeg == SumWhere(days, k, x => x < 0.0)
      invariant sumPos + sumNeg == Sum(days, 0, k) && sumPos >= 0.0 && sumNeg <= 0.0
    {
      if days[k] > 0.0 {
        sumPos := sumPos + days[k];
      }
      if days[k] < 0.0 {
        sumNeg := sumNeg + days[k];
      }
    }
    factor := if sumNeg != 0.0 then Factor(sumPos / Abs(sumNeg)) else if sumPos > 0.0 then Infinite else NoFactor;
  }

  // ----- streaks -----

  ghost predicate IsRun(s: seq<bool>, target: bool, lo: int, hi: int) {
    0 <= lo <= hi <= |s| && forall i | lo <= i < hi :: s[i] == target
  }

  /** The longest streak: the length of the longest block of equal results. */
  method MaxStreak(s: seq<bool>, target: bool) returns (best: nat)
    ensures exists lo, hi | IsRun(s, target, lo, hi) :: hi - lo == best
    ensures forall lo, hi | IsRun(s, target, lo, hi) :: hi - lo <= best
  {
    best := 0;
    var cur := 0;
    ghost var from, to := 0, 0;
    for k := 0 to |s|
      invariant cur <= k && cur <= best
      invariant IsRun(s, target, k - cur, k) && (cur < k ==> s[k - cur - 1] != target)
      invariant IsRun(s, target, from, to) && to - from == best
      invariant forall lo, hi | IsRun(s, target, lo, hi) && hi <= k :: hi - lo <= best
    {
      if s[k] == target {
        cur := cur + 1;
        if cur > best {
          best := cur;
          from, to := k + 1 - cur, k + 1;
        }
      } else {
        cur := 0;
      }
      forall lo, hi | IsRun(s, target, lo, hi) && hi <= k + 1 ensures hi - lo <= best {
        if hi == k + 1 && lo < hi {
          assert s[k] == target;
          assert cur <= k ==> s[k - cur] != target;
        }
      }
    }
  }

  // ----- the confusion matrix -----

  datatype Confusion = Confusion(tp: nat, fp: nat, tn: nat, fn: nat)

  ghost function CountOf(ok: seq<bool>, good: seq<bool>, n: nat, a: bool, b: bool): nat
    requires n <= |ok| && n <= |good|
  {
    if n == 0 then 0 else CountOf(ok, good, n - 1, a, b) + if ok[n - 1] == a && good[n - 1] == b then 1 else 0
  }

  /** compute_confusion: zip stops at the shorter list. */
  method ComputeConfusion(ok: seq<bool>, good: seq<bool>) returns (c: Confusion)
    ensures var n := if |ok| <= |good| then |ok| else |good|;
      && c == Confusion(CountOf(ok, good, n, true, true), CountOf(ok, good, n, true, false),
                        CountOf(ok, good, n, false, false), CountOf(ok, good, n, false, true))
      && c.tp + c.fp + c.tn + c.fn == n
  {
    var n := if |ok| <= |good| then |ok| else |good|;
    var tp, fp, tn, fn := 0, 0, 0, 0;
    for k := 0 to n
      invariant tp == CountOf(ok, good, k, true, true) && fp == CountOf(ok, good, k, true, false)
      invariant tn == CountOf(ok, good, k, false, false) && fn == CountOf(ok, good, k, false, true)
      invariant tp + fp + tn + fn == k
    {
      if ok[k] && good[k] {
        tp := tp + 1;
      } else if ok[k] && !good[k] {
        fp := fp + 1;
      } else if !ok[k] && !good[k] {
        tn := tn + 1;
      } else {
        fn := fn + 1;
      }
    }
    c := Confusion(tp, fp, tn, fn);
  }

  // ----- the P/L of one day -----

  datatype SimParams = SimParams(
    maxTradesPerDay: int, entryCutoffTrades: int, slotProxy: bool, skipFirstTrade: bool,
    tpR: real, tpSeq: seq<real>, lateTradeMult: Option<real>, dailyStopR: Option<real>,
    maxLossR: real, lossFloorR: real, scaledLoss: bool, icRange: real, stopR: Option<real>,
    phaseFrom25: bool)

  /** A day: whether the gate let it through, whether it stayed in range, its range. */
  datatype DayIn = DayIn(ok: bool, good: bool, rangePct: Option<real>)

  datatype DayOut = DayOut(pnl: real, loss: real, tpHit: bool, stopped: bool, taken: nat, hitStop: bool)

  function WarmupSkipped(p: SimParams): bool { p.slotProxy && p.skipFirstTrade }

  function EffectiveMax(p: SimParams): int {
    var base := if p.maxTradesPerDay <= p.entryCutoffTrades then p.maxTradesPerDay else p.entryCutoffTrades;
    if WarmupSkipped(p) then (if base - 1 > 0 then base - 1 else 0) else base
  }

  /** s[:e] for any integer e. */
  function Slice(s: seq<real>, e: int): seq<real> {
    if e >= |s| then s else if e >= 0 then s[..e] else if |s| + e >= 0 then s[..|s| + e] else []
  }

  function TpTargets(p: SimParams): seq<real> {
    var all := if p.tpSeq != [] then p.tpSeq
               else seq(if p.maxTradesPerDay > 0 then p.maxTradesPerDay else 0, _ => p.tpR);
    Slice(all, EffectiveMax(p))
  }

  /** The profit target of the k-th trade of a day. */
  function TargetOf(p: SimParams, k: nat): real {
    var t := if k < |TpTargets(p)| then TpTargets(p)[k] else p.tpR;
    if p.lateTradeMult.Some? && p.tpSeq == [] && k >= 1 then t * p.lateTradeMult.value else t
  }

  ghost function TargetSum(p: SimParams, n: nat): real {
    if n == 0 then 0.0 else TargetSum(p, n - 1) + TargetOf(p, n - 1)
  }

  /** The targets written to the report are the ones the trades use. */
  method ReportTargets(p: SimParams) returns (r: seq<real>)
    ensures |r| == |TpTargets(p)| && forall k | 0 <= k < |r| :: r[k] == TargetOf(p, k)
  {
    var targets := TpTargets(p);
    r := targets;
    if p.lateTradeMult.Some? && p.tpSeq == [] && |r| > 0 {
      for k := 1 to |r|
        invariant |r| == |targets|
        invariant forall j | 0 <= j < k :: r[j] == TargetOf(p, j)
        invariant forall j | k <= j < |r| :: r[j] == targets[j]
      {
        r := r[k := r[k] * p.lateTradeMult.value];
      }
    }
  }

  function Clamp(x: real, lo: real, hi: real): real { Max(lo, Min(hi, x)) }

  /** The excess over the allowed range, in units of that range; none for a NaN range. */
  function Over(icRange: real, rangePct: Option<real>): real
    requires icRange != 0.0
  {
    (if rangePct.Some? then Max(0.0, rangePct.value - icRange) else 0.0) / icRange
  }

  function OverShare(icRange: real, rangePct: Option<real>): real
    requires icRange != 0.0
  {
    Clamp(Over(icRange, rangePct), 0.0, 1.0)
  }

  function Blend(floor: real, w: real, top: real): real { floor + w * (top - floor) }

  function Stopped(loss: real, stopR: Option<real>): real {
    if stopR.Some? then Min(loss, stopR.value) else loss
  }

  /** The loss of a losing trade. */
  function LossOf(p: SimParams, rangePct: Option<real>): real
    requires p.scaledLoss ==> p.icRange != 0.0
  {
    Stopped(if p.scaledLoss then Blend(p.lossFloorR, OverShare(p.icRange, rangePct), p.maxLossR) else p.maxLossR, p.stopR)
  }

  lemma BlendWithin(floor: real, w: real, top: real)
    requires 0.0 <= w <= 1.0 && floor <= top
    ensures floor <= Blend(floor, w, top) <= top
  {
    var span := top - floor;
    ProductNonNegative(w, span);
    ProductNonNegative(1.0 - w, span);
    assert (1.0 - w) * span == span - w * span;
  }

  lemma ClampWithin(x: real)
    ensures 0.0 <= Clamp(x, 0.0, 1.0) <= 1.0
  {
  }

  /** The scaled loss stays between its floor and its maximum, below any stop. */
  lemma LossWithin(p: SimParams, rangePct: Option<real>)
    requires p.scaledLoss && p.icRange != 0.0 && p.lossFloorR <= p.maxLossR
    ensures LossOf(p, rangePct) <= p.maxLossR
    ensures p.stopR == None || p.lossFloorR <= p.stopR.value ==> p.lossFloorR <= LossOf(p, rangePct)
    ensures p.stopR.Some? ==> LossOf(p, rangePct) <= p.stopR.value
  {
    ClampWithin(Over(p.icRange, rangePct));
    BlendWithin(p.lossFloorR, OverShare(p.icRange, rangePct), p.maxLossR);
  }

  ghost predicate StopsAt(p: SimParams, n: nat) {
    n >= 1 && p.dailyStopR.Some? && TargetSum(p, n) <= -p.dailyStopR.value
  }

  /** What a day is worth. */
  ghost predicate IsDay(p: SimParams, d: DayIn, r: DayOut)
    requires p.scaledLoss ==> p.icRange != 0.0
  {
    var e, loss := EffectiveMax(p), LossOf(p, d.rangePct);
    if !d.ok then r == DayOut(0.0, 0.0, false, false, 0, false)
    else if !p.phaseFrom25 then
      if d.good then r == DayOut(p.tpR, 0.0, true, false, 1, false)
      else r == DayOut(-loss, loss, false, p.stopR == Some(loss), 1, false)
    else
      && r.tpHit == d.good && r.stopped == (p.stopR == Some(loss)) && r.loss == (if d.good then 0.0 else loss)
      && (d.good ==>
          && r.pnl == TargetSum(p, r.taken) && r.hitStop == StopsAt(p, r.taken)
          && (forall n: nat | n < r.taken :: !StopsAt(p, n))
          && (if r.hitStop then r.taken <= e else r.taken == if e > 0 then e else 0))
      && (!d.good ==> r.taken == (if e > 0 then 1 else 0) && r.pnl == (if e > 0 then -loss else 0.0) && !r.hitStop)
  }

  method RunDay(p: SimParams, d: DayIn) returns (r: DayOut)
    requires p.scaledLoss ==> p.icRange != 0.0
    ensures IsDay(p, d, r)
  {
    if !d.ok {
      return DayOut(0.0, 0.0, false, false, 0, false);
    }
    var loss := LossOf(p, d.rangePct);
    var stopped := p.stopR == Some(loss);
    if !p.phaseFrom25 {
      return if d.good then DayOut(p.tpR, 0.0, true, false, 1, false) else DayOut(-loss, loss, false, stopped, 1, false);
    }
    var e := EffectiveMax(p);
    var dayTotal, taken, hitStop := 0.0, 0, false;
    while taken < e
      invariant 0 <= taken && (e >= 0 ==> taken <= e) && (e < 0 ==> taken == 0) && !hitStop
      invariant dayTotal == TargetSum(p, taken)
      invariant forall n: nat | n <= taken :: !StopsAt(p, n)
      invariant !d.good ==> taken == 0
    {
      if d.good {
        dayTotal := dayTotal + TargetOf(p, taken);
        taken := taken + 1;
        if p.dailyStopR.Some? && dayTotal <= -p.dailyStopR.value {
          hitStop := true;
          break;
        }
      } else {
        dayTotal := dayTotal - loss;
        taken := taken + 1;
        break;
      }
    }
    r := DayOut(dayTotal, if d.good then 0.0 else loss, d.good, stopped, taken, hitStop);
  }

  /** The limit on trades per day is kept exactly when the limit allows a trade, or
      allows none and the day is simulated trade by trade (phase 2.5 and later). */
  lemma TradeLimitKeptIff(p: SimParams, d: DayIn, r: DayOut)
    requires (p.scaledLoss ==> p.icRange != 0.0) && d.ok && IsDay(p, d, r)
    ensures r.taken <= EffectiveMax(p) <==> EffectiveMax(p) >= 1 || (EffectiveMax(p) == 0 && p.phaseFrom25)
  {
    if p.phaseFrom25 && d.good && r.hitStop {
      assert StopsAt(p, r.taken);
    }
  }

  lemma {:induction false} TargetSumNonNegative(p: SimParams, n: nat)
    requires forall k: nat | k < n :: TargetOf(p, k) >= 0.0
    ensures TargetSum(p, n) >= 0.0
  {
    if n > 0 {
      TargetSumNonNegative(p, n - 1);
    }
  }

  /** The daily stop is looked at on winning days only: with targets that are not
      negative and a positive stop it never triggers. */
  lemma DailyStopNeverTriggers(p: SimParams, d: DayIn, r: DayOut)
    requires (p.scaledLoss ==> p.icRange != 0.0) && IsDay(p, d, r)
    requires p.dailyStopR.Some? ==> p.dailyStopR.value > 0.0
    requires forall k: nat | k < r.taken :: TargetOf(p, k) >= 0.0
    ensures !r.hitStop
  {
    TargetSumNonNegative(p, r.taken);
  }

  // ----- limits, targets and losses in terms of the configuration -----

  /** The trades of a day are bound by the smaller of the two configured counts, one less,
      but not below 0, when the first slot is used up by warming up. */
  lemma EffectiveMaxMeaning(p: SimParams, e: int)
    ensures EffectiveMax(p) == e <==>
      if p.slotProxy && p.skipFirstTrade then e >= 0 && IsSmaller(e + 1, if p.maxTradesPerDay < 1 then 1 else p.maxTradesPerDay,
                                                                  if p.entryCutoffTrades < 1 then 1 else p.entryCutoffTrades)
      else IsSmaller(e, p.maxTradesPerDay, p.entryCutoffTrades)
  {
  }

  predicate IsSmaller(e: int, a: int, b: int) { e <= a && e <= b && (e == a || e == b) }

  /** The target of a trade within the limit: the configured one for its place, else the
      plain target, which from the second trade on is multiplied when no targets are
      configured. */
  lemma TargetMeaning(p: SimParams, k: nat)
    requires k < EffectiveMax(p)
    ensures p.tpSeq != [] ==> TargetOf(p, k) == if k < |p.tpSeq| then p.tpSeq[k] else p.tpR
    ensures p.tpSeq == [] && (k == 0 || p.lateTradeMult == None) ==> TargetOf(p, k) == p.tpR
    ensures p.tpSeq == [] && k >= 1 && p.lateTradeMult.Some? ==> TargetOf(p, k) == p.tpR * p.lateTradeMult.value
  {
  }

  /** What n winning trades earn: with no configured targets, the plain one for the first
      trade and the multiplied one for the others. */
  lemma {:induction false} PlainTargets(p: SimParams, n: nat)
    requires p.tpSeq == [] && n <= (if EffectiveMax(p) > 0 then EffectiveMax(p) else 0)
    ensures n >= 1 ==> TargetSum(p, n) == p.tpR + (n - 1) as real * (if p.lateTradeMult.Some? then p.tpR * p.lateTradeMult.value else p.tpR)
  {
    if n >= 1 {
      PlainTargets(p, n - 1);
      TargetMeaning(p, n - 1);
    }
  }

  /** With configured targets, the first n of them. */
  lemma {:induction false} ConfiguredTargets(p: SimParams, n: nat)
    requires n <= |p.tpSeq| && n <= (if EffectiveMax(p) > 0 then EffectiveMax(p) else 0)
    ensures TargetSum(p, n) == Sum(p.tpSeq, 0, n)
  {
    if n >= 1 {
      ConfiguredTargets(p, n - 1);
      TargetMeaning(p, n - 1);
    }
  }

  /** The loss before any stop: the floor up to the allowed range, the maximum from twice
      that range on, and in between in proportion; a negative range is never exceeded. */
  predicate IsScaledLoss(p: SimParams, rangePct: Option<real>, loss: real) {
    if p.icRange < 0.0 || rangePct == None || rangePct.value <= p.icRange then loss == p.lossFloorR
    else if rangePct.value >= 2.0 * p.icRange then loss == p.maxLossR
    else (loss - p.lossFloorR) * p.icRange == (rangePct.value - p.icRange) * (p.maxLossR - p.lossFloorR)
  }

  predicate IsStopped(stopR: Option<real>, before: real, loss: real) {
    if stopR.Some? && stopR.value < before then loss == stopR.value else loss == before
  }

  lemma OverMeaning(x: real, icRange: real)
    requires icRange > 0.0
    ensures (x - icRange) / icRange * icRange == x - icRange
    ensures x >= 2.0 * icRange <==> (x - icRange) / icRange >= 1.0
    ensures x >= icRange ==> (x - icRange) / icRange >= 0.0
  {
    var q := (x - icRange) / icRange;
    assert q * icRange == x - icRange;
    if q >= 1.0 {
      assert (q - 1.0) * icRange >= 0.0;
    } else {
      assert (1.0 - q) * icRange > 0.0;
    }
    if q < 0.0 {
      assert (-q) * icRange > 0.0;
    }
  }

  lemma BlendParts(floor: real, w: real, top: real, icRange: real, over: real)
    requires w * icRange == over
    ensures (Blend(floor, w, top) - floor) * icRange == over * (top - floor)
  {
    var span := top - floor;
    assert (w * span) * icRange == (w * icRange) * span;
  }

  lemma NoShare(over: real, icRange: real)
    requires over >= 0.0 && icRange < 0.0
    ensures over / icRange <= 0.0
  {
    var q := over / icRange;
    assert q * icRange == over;
  }

  lemma ScaledLossMeaning(p: SimParams, rangePct: Option<real>)
    requires p.icRange != 0.0
    ensures IsScaledLoss(p, rangePct, Blend(p.lossFloorR, OverShare(p.icRange, rangePct), p.maxLossR))
  {
    var x := if rangePct.Some? then rangePct.value else p.icRange;
    assert 0.0 / p.icRange == 0.0;
    if p.icRange < 0.0 {
      NoShare(Max(0.0, x - p.icRange), p.icRange);
      assert OverShare(p.icRange, rangePct) == 0.0;
    } else {
      OverMeaning(x, p.icRange);
    }
    if rangePct.Some? && p.icRange < x < 2.0 * p.icRange {
      var w := OverShare(p.icRange, rangePct);
      assert w == (x - p.icRange) / p.icRange;
      BlendParts(p.lossFloorR, w, p.maxLossR, p.icRange, x - p.icRange);
    }
  }

  /** The loss of a losing trade: the maximum, or the scaled loss, and never above the stop. */
  lemma LossMeaning(p: SimParams, rangePct: Option<real>)
    requires p.scaledLoss ==> p.icRange != 0.0
    ensures exists before ::
      (IsStopped(p.stopR, before, LossOf(p, rangePct)) && if p.scaledLoss then IsScaledLoss(p, rangePct, before) else before == p.maxLossR)
  {
    if p.scaledLoss {
      ScaledLossMeaning(p, rangePct);
      assert IsStopped(p.stopR, Blend(p.lossFloorR, OverShare(p.icRange, rangePct), p.maxLossR), LossOf(p, rangePct));
    } else {
      assert IsStopped(p.stopR, p.maxLossR, LossOf(p, rangePct));
    }
  }

  /** All days, and the equity they add up to. */
  method RunDays(p: SimParams, days: seq<DayIn>) returns (outs: seq<DayOut>, pnl: seq<real>)
    requires p.scaledLoss ==> p.icRange != 0.0
    ensures |outs| == |pnl| == |days|
    ensures forall i | 0 <= i < |days| :: IsDay(p, days[i], outs[i]) && pnl[i] == outs[i].pnl
  {
    outs, pnl := [], [];
    for k := 0 to |days|
      invariant |outs| == |pnl| == k
      invariant forall i | 0 <= i < k :: IsDay(p, days[i], outs[i]) && pnl[i] == outs[i].pnl
    {
      var r := RunDay(p, days[k]);
      outs := outs + [r];
      pnl := pnl + [r.pnl];
    }
  }

  /** The whole P/L simulation: total, maximum drawdown and the split into profits
      and losses of the simulated days. */
  method Simulate(p: SimParams, days: seq<DayIn>) returns (pnl: seq<real>, total: real, maxDrawdown: real, sumPos: real, sumNeg: real)
    requires p.scaledLoss ==> p.icRange != 0.0
    ensures |pnl| == |days|
    ensures total == Sum(pnl, 0, |pnl|) && total == sumPos + sumNeg
    ensures IsLeastBlockSum(pnl, maxDrawdown) && maxDrawdown <= 0.0
  {
    var outs;
    outs, pnl := RunDays(p, days);
    var equity, peaks, drawdown := EquityLoop(pnl);
    total := if |equity| > 0 then equity[|equity| - 1] else 0.0;
    var factor;
    sumPos, sumNeg, factor := ProfitFactorOf(pnl);
    maxDrawdown := MaxDrawdown(drawdown);
    DrawdownIsLeastBlockSum(pnl, drawdown);
    assert IsBlock(pnl, 0, 0) && Sum(pnl, 0, 0) == 0.0;
  }
}
