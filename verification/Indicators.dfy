/** EMA, true range and ATR: array loops with a running previous value. NaN is None. */
module Indicators {
  import opened Basics

  type Series = seq<Option<real>>

  datatype IndicatorError = LengthNotPositive | SizeMismatch

  // ----- specification -----

  /** Sum of s[lo..hi]. */
  ghost function Sum(s: seq<real>, lo: nat, hi: nat): real
    requires lo <= hi <= |s|
  {
    if lo == hi then 0.0 else Sum(s, lo, hi - 1) + s[hi - 1]
  }

  /** Sum of the numbers in s[lo..hi], skipping NaN. */
  ghost function NanSum(s: Series, lo: nat, hi: nat): real
    requires lo <= hi <= |s|
  {
    if lo == hi then 0.0
    else NanSum(s, lo, hi - 1) + match s[hi - 1] { case Some(v) => v case None => 0.0 }
  }

  ghost function NanCount(s: Series, lo: nat, hi: nat): nat
    requires lo <= hi <= |s|
  {
    if lo == hi then 0 else NanCount(s, lo, hi - 1) + if s[hi - 1].Some? then 1 else 0
  }

  function EmaStep(alpha: real, x: real, prev: real): real { alpha * x + (1.0 - alpha) * prev }

  ghost function EmaAt(s: seq<real>, length: nat, i: nat): real
    requires 1 <= length <= i + 1 <= |s|
  {
    if i == length - 1 then Sum(s, 0, length) / length as real
    else
      var alpha := 2.0 / (length as real + 1.0);
      EmaStep(alpha, s[i], EmaAt(s, length, i - 1))
  }

  /** The EMA series: NaN until there are enough points. */
  ghost function EmaSeries(s: seq<real>, length: nat): (r: Series)
    requires 1 <= length
    ensures |r| == |s|
  {
    seq(|s|, i requires 0 <= i < |s| => if i < length - 1 then None else Some(EmaAt(s, length, i)))
  }

  function TrueRange(high: real, low: real, prevClose: real): real {
    Max(Max(high - low, Abs(high - prevClose)), Abs(low - prevClose))
  }

  ghost function TrueRanges(h: seq<real>, l: seq<real>, c: seq<real>): (tr: Series)
    requires |h| == |l| == |c|
    ensures |tr| == |c|
  {
    seq(|c|, i requires 0 <= i < |c| => if i == 0 then None else Some(TrueRange(h[i], l[i], c[i - 1])))
  }

  /** One step of Wilder's average. */
  function AverageStep(prev: real, v: real, length: nat): real
    requires length >= 1
  {
    (prev * (length as real - 1.0) + v) / length as real
  }

  /** Wilder's running average of a series whose entry 0 is unused. */
  ghost function AtrCarry(tr: Series, length: nat, i: nat): real
    requires 1 <= length <= i < |tr|
    decreases i
  {
    if i == length then NanSum(tr, 1, length + 1) / (if NanCount(tr, 1, length + 1) == 0 then 1 else NanCount(tr, 1, length + 1)) as real
    else
      var prev := AtrCarry(tr, length, i - 1);
      match tr[i]
      case None => prev
      case Some(v) => AverageStep(prev, v, length)
  }

  /** The average at i: none before the seed, at a gap, or when the seed has no number. */
  ghost function AtrAt(tr: Series, length: nat, i: nat): Option<real>
    requires 1 <= length && i < |tr|
  {
    if i < length || NanCount(tr, 1, length + 1) == 0 || (i > length && tr[i] == None) then None
    else Some(AtrCarry(tr, length, i))
  }

  ghost function AtrSeries(tr: Series, length: nat): (r: Series)
    requires 1 <= length
    ensures |r| == |tr|
  {
    seq(|tr|, i requires 0 <= i < |tr| => AtrAt(tr, length, i))
  }

  // ----- the loops -----

  method SumOf(s: array<real>, lo: nat, hi: nat) returns (total: real)
    requires lo <= hi <= s.Length
    ensures total == Sum(s[..], lo, hi)
  {
    total := 0.0;
    for k := lo to hi
      invariant total == Sum(s[..], lo, k)
    {
      total := total + s[k];
    }
  }

  method Ema(series: array<real>, length: int) returns (r: Result<array<Option<real>>, IndicatorError>)
    ensures length <= 0 ==> r == Err(LengthNotPositive)
    ensures length > 0 ==> r.Ok? && fresh(r.value) && r.value[..] == EmaSeries(series[..], length)
  {
    if length <= 0 {
      return Err(LengthNotPositive);
    }
    var n := series.Length;
    ghost var s := series[..];
    ghost var spec := EmaSeries(s, length);
    var out := new Option<real>[n](_ => None);
    r := Ok(out);
    if n < length {
      assert out[..] == spec;
      return;
    }
    var alpha := 2.0 / (length as real + 1.0);
    var total := SumOf(series, 0, length);
    var prev := total / length as real;
    out[length - 1] := Some(prev);
    for k := length to n
      invariant series[..] == s && prev == EmaAt(s, length, k - 1)
      invariant forall i | 0 <= i < k :: out[i] == spec[i]
    {
      prev := EmaStep(alpha, series[k], prev);
      out[k] := Some(prev);
    }
    assert out[..] == spec;
  }

  /** np.nanmean: the mean of the numbers, NaN when there are none. */
  method NanMean(s: array<Option<real>>, lo: nat, hi: nat) returns (mean: Option<real>)
    requires lo <= hi <= s.Length
    ensures mean == if NanCount(s[..], lo, hi) == 0 then None else Some(NanSum(s[..], lo, hi) / NanCount(s[..], lo, hi) as real)
  {
    var total, count := 0.0, 0;
    for k := lo to hi
      invariant total == NanSum(s[..], lo, k) && count == NanCount(s[..], lo, k)
    {
      if s[k].Some? {
        total, count := total + s[k].value, count + 1;
      }
    }
    mean := if count == 0 then None else Some(total / count as real);
  }

  method Atr(highs: array<real>, lows: array<real>, closes: array<real>, length: int)
    returns (r: Result<array<Option<real>>, IndicatorError>)
    ensures length <= 0 ==> r == Err(LengthNotPositive)
    ensures length > 0 && closes.Length > 0 && !(highs.Length == lows.Length == closes.Length) ==> r == Err(SizeMismatch)
    ensures length > 0 && closes.Length == 0 ==> r.Ok? && r.value.Length == 0
    ensures length > 0 && highs.Length == lows.Length == closes.Length ==>
      r.Ok? && r.value[..] == AtrSeries(TrueRanges(highs[..], lows[..], closes[..]), length)
  {
    if length <= 0 {
      return Err(LengthNotPositive);
    }
    var n := closes.Length;
    var out := new Option<real>[n](_ => None);
    if n == 0 {
      return Ok(out);
    }
    if !(highs.Length == lows.Length == closes.Length) {
      return Err(SizeMismatch);
    }
    var tr := new Option<real>[n](_ => None);
    for k := 1 to n
      invariant tr[0] == None && (forall i | 0 <= i < n :: out[i] == None)
      invariant forall i | 1 <= i < k :: tr[i] == Some(TrueRange(highs[i], lows[i], closes[i - 1]))
    {
      tr[k] := Some(TrueRange(highs[k], lows[k], closes[k - 1]));
    }
    assert tr[..] == TrueRanges(highs[..], lows[..], closes[..]);
    AverageInto(tr, length, out);
    r := Ok(out);
  }

  /** One turn of the averaging loop: a gap is skipped, and NaN stays NaN. */
  function Averaged(prev: Option<real>, v: real, length: nat): Option<real>
    requires length >= 1
  {
    if prev == None then None else Some(AverageStep(prev.value, v, length))
  }

  /** The carry of the loop, NaN when the seed has no number. */
  ghost function CarryOf(tr: Series, length: nat, i: nat): Option<real>
    requires 1 <= length <= i < |tr|
  {
    if NanCount(tr, 1, length + 1) == 0 then None else Some(AtrCarry(tr, length, i))
  }

  lemma CarryStep(tr: Series, length: nat, i: nat)
    requires 1 <= length < i < |tr|
    ensures CarryOf(tr, length, i) ==
      if tr[i] == None then CarryOf(tr, length, i - 1) else Averaged(CarryOf(tr, length, i - 1), tr[i].value, length)
    ensures AtrAt(tr, length, i) == if tr[i] == None then None else CarryOf(tr, length, i)
  {
  }

  /** The averaging loop of atr. */
  method AverageInto(tr: array<Option<real>>, length: nat, out: array<Option<real>>)
    requires length >= 1 && tr != out && tr.Length == out.Length
    requires forall i | 0 <= i < out.Length :: out[i] == None
    modifies out
    ensures out[..] == AtrSeries(tr[..], length)
  {
    var n := tr.Length;
    ghost var s := tr[..];
    ghost var spec := AtrSeries(s, length);
    if n <= length {
      assert out[..] == spec;
      return;
    }
    var prev := NanMean(tr, 1, length + 1);
    out[length] := prev;
    assert prev == CarryOf(s, length, length) == spec[length];
    for k := length + 1 to n
      invariant tr[..] == s && prev == CarryOf(s, length, k - 1)
      invariant forall i | 0 <= i < k :: out[i] == spec[i]
      invariant forall i | k <= i < n :: out[i] == None
    {
      CarryStep(s, length, k);
      if tr[k].Some? {
        prev := Averaged(prev, tr[k].value, length);
        out[k] := prev;
      }
    }
    assert out[..] == spec;
  }

  // ----- an average stays within the range of what it averages -----

  lemma {:induction false} SumWithin(s: seq<real>, lo: nat, hi: nat, a: real, b: real)
    requires lo <= hi <= |s| && forall i | lo <= i < hi :: a <= s[i] <= b
    ensures (hi - lo) as real * a <= Sum(s, lo, hi) <= (hi - lo) as real * b
  {
    if lo < hi {
      SumWithin(s, lo, hi - 1, a, b);
    }
  }

  lemma QuotientWithin(x: real, n: real, a: real, b: real)
    requires n > 0.0 && n * a <= x <= n * b
    ensures a <= x / n <= b
  {
    var q := x / n;
    assert x == q * n;
    assert (q - a) * n >= 0.0 && (b - q) * n >= 0.0;
  }

  lemma BlendWithin(w: real, x: real, y: real, a: real, b: real)
    requires 0.0 <= w <= 1.0 && a <= x <= b && a <= y <= b
    ensures a <= w * x + (1.0 - w) * y <= b
  {
    var v := 1.0 - w;
    ProductNonNegative(w, x - a);
    ProductNonNegative(w, b - x);
    ProductNonNegative(v, y - a);
    ProductNonNegative(v, b - y);
    assert w * (x - a) + v * (y - a) == w * x + v * y - a;
    assert w * (b - x) + v * (b - y) == b - (w * x + v * y);
  }

  /** The EMA never leaves the range of the prices seen so far. */
  lemma {:induction false} EmaWithin(s: seq<real>, length: nat, i: nat, a: real, b: real)
    requires 1 <= length <= i + 1 <= |s| && forall j | 0 <= j <= i :: a <= s[j] <= b
    ensures a <= EmaAt(s, length, i) <= b
  {
    if i == length - 1 {
      SumWithin(s, 0, length, a, b);
      QuotientWithin(Sum(s, 0, length), length as real, a, b);
    } else {
      EmaWithin(s, length, i - 1, a, b);
      var alpha := 2.0 / (length as real + 1.0);
      QuotientWithin(2.0, length as real + 1.0, 0.0, 1.0);
      BlendWithin(alpha, s[i], EmaAt(s, length, i - 1), a, b);
    }
  }

  // ----- the weights of the averages -----

  /** The EMA without its weight: the seed is the mean of the first prices, and from then
      on length + 1 parts are made of length - 1 parts of the last value and two of the
      new price. */
  lemma EmaLaw(s: seq<real>, length: nat, i: nat)
    requires 1 <= length <= |s| && i < |s|
    ensures var ema := EmaSeries(s, length);
      && (ema[i].Some? <==> length - 1 <= i)
      && (i == length - 1 ==> ema[i].value * length as real == Sum(s, 0, length))
      && (length <= i ==> ema[i].value * (length as real + 1.0) == ema[i - 1].value * (length as real - 1.0) + 2.0 * s[i])
  {
    if length <= i {
      var n, prev := length as real + 1.0, EmaAt(s, length, i - 1);
      EmaStepParts(2.0 / n, n, s[i], prev);
      assert EmaSeries(s, length)[i - 1] == Some(prev);
      assert EmaSeries(s, length)[i] == Some(EmaStep(2.0 / n, s[i], prev));
    } else if i == length - 1 {
      QuotientTimes(Sum(s, 0, length), length as real);
    }
  }

  lemma QuotientTimes(x: real, n: real)
    requires n != 0.0
    ensures x / n * n == x
  {
  }

  lemma EmaStepParts(alpha: real, n: real, x: real, prev: real)
    requires n > 0.0 && alpha == 2.0 / n
    ensures EmaStep(alpha, x, prev) * n == prev * (n - 2.0) + 2.0 * x
  {
    QuotientTimes(2.0, n);
    var y := EmaStep(alpha, x, prev) - prev;
    assert y == alpha * (x - prev);
    assert y * n == (alpha * n) * (x - prev);
  }

  /** After as many equal prices a as the length asks for, one price b counts twice
      against length - 1 times a. */
  lemma EmaOfTwoPrices(s: seq<real>, length: nat, a: real, b: real)
    requires 1 <= length && |s| == length + 1 && s[length] == b && forall i | 0 <= i < length :: s[i] == a
    ensures EmaSeries(s, length)[length].Some?
    ensures EmaSeries(s, length)[length].value * (length as real + 1.0) == a * (length as real - 1.0) + 2.0 * b
  {
    EmaWithin(s, length, length - 1, a, a);
    EmaLaw(s, length, length);
  }

  /** An interval that holds the bar and the close before it. */
  predicate Spans(a: real, b: real, high: real, low: real, prevClose: real) {
    a <= low <= b && a <= high <= b && a <= prevClose <= b
  }

  /** The true range is the length of the shortest interval that holds the bar and the
      close before it. */
  lemma TrueRangeMeaning(high: real, low: real, prevClose: real)
    ensures forall a, b | Spans(a, b, high, low, prevClose) :: TrueRange(high, low, prevClose) <= b - a
    ensures low <= high ==> exists a, b :: Spans(a, b, high, low, prevClose) && TrueRange(high, low, prevClose) == b - a
  {
    assert Spans(Min(Min(low, high), prevClose), Max(Max(low, high), prevClose), high, low, prevClose);
  }

  /** The ATR: the seed is the mean of the ranges there are, and from then on length parts
      are made of length - 1 parts of the last value and one of the new range. */
  lemma AtrLaw(tr: Series, length: nat, i: nat)
    requires 1 <= length < |tr| && i < |tr| && forall k | 1 <= k < |tr| :: tr[k].Some?
    ensures var atr := AtrSeries(tr, length);
      && (atr[i].Some? <==> length <= i)
      && (i == length ==> atr[i].value * length as real == NanSum(tr, 1, length + 1))
      && (length < i ==> atr[i].value * length as real == atr[i - 1].value * (length as real - 1.0) + tr[i].value)
  {
    AllNumbersCount(tr, 1, length + 1);
  }

  lemma {:induction false} AllNumbersCount(s: Series, lo: nat, hi: nat)
    requires lo <= hi <= |s| && forall k | lo <= k < hi :: s[k].Some?
    ensures NanCount(s, lo, hi) == hi - lo
  {
    if lo < hi {
      AllNumbersCount(s, lo, hi - 1);
    }
  }
}
