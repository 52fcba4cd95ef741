/** Wilder sums, directional movement and ADX, as array loops over their own
    specification, and the bounds and symmetries hidden in that arithmetic. */
module TrendRisk {
  import opened Basics
  import opened Indicators

  // ----- specification -----

  /** One step of Wilder's running sum. */
  function SumStep(prev: real, v: real, length: nat): real
    requires length >= 1
  {
    prev - prev / length as real + v
  }

  ghost function SumCarry(s: Series, length: nat, i: nat): real
    requires 1 <= length <= i < |s|
    decreases i
  {
    if i == length then NanSum(s, 1, length + 1)
    else
      var prev := SumCarry(s, length, i - 1);
      match s[i]
      case None => prev
      case Some(v) => SumStep(prev, v, length)
  }

  /** The running sum: NaN before its seed at index length and where the input is NaN. */
  ghost function WilderSum(s: Series, length: nat): (r: Series)
    requires length >= 1
    ensures |r| == |s|
  {
    seq(|s|, i requires 0 <= i < |s| =>
      if i < length || (i > length && s[i] == None) then None else Some(SumCarry(s, length, i)))
  }

  ghost predicate AllNumbers(s: Series, lo: nat, hi: nat)
    requires lo <= hi <= |s|
  {
    forall i | lo <= i < hi :: s[i].Some?
  }

  ghost function AvgCarry(s: Series, length: nat, start: nat, i: nat): real
    requires 1 <= length && start + length - 1 <= i < |s|
    decreases i
  {
    if i == start + length - 1 then NanSum(s, start, start + length) / length as real
    else
      var prev := AvgCarry(s, length, start, i - 1);
      match s[i]
      case None => prev
      case Some(v) => AverageStep(prev, v, length)
  }

  /** The running average: all NaN unless the whole seed window is finite. */
  ghost function WilderAvg(s: Series, length: nat, start: nat): (r: Series)
    requires length >= 1
    ensures |r| == |s|
  {
    if |s| <= start + length - 1 || !AllNumbers(s, start, start + length) then
      seq(|s|, _ => None)
    else
      seq(|s|, i requires 0 <= i < |s| =>
        if i < start + length - 1 || (i > start + length - 1 && s[i] == None) then None
        else Some(AvgCarry(s, length, start, i)))
  }

  /** Highs, lows and closes of the same length. */
  datatype Bars = Bars(h: seq<real>, l: seq<real>, c: seq<real>) {
    ghost predicate Valid() { |h| == |l| == |c| }
    ghost predicate WellFormed() { Valid() && forall i | 0 <= i < |c| :: l[i] <= c[i] <= h[i] }
  }

  function PlusDm(up: real, down: real): real { if up > down && up > 0.0 then up else 0.0 }

  function MinusDm(up: real, down: real): real { if down > up && down > 0.0 then down else 0.0 }

  function UpMove(b: Bars, i: nat): real
    requires |b.h| == |b.l| == |b.c| && 1 <= i < |b.c|
  {
    b.h[i] - b.h[i - 1]
  }

  function DownMove(b: Bars, i: nat): real
    requires |b.h| == |b.l| == |b.c| && 1 <= i < |b.c|
  {
    b.l[i - 1] - b.l[i]
  }

  ghost function PlusDms(b: Bars): (r: Series)
    requires b.Valid()
    ensures |r| == |b.c|
  {
    seq(|b.c|, i requires 0 <= i < |b.c| => if i == 0 then None else Some(PlusDm(UpMove(b, i), DownMove(b, i))))
  }

  ghost function MinusDms(b: Bars): (r: Series)
    requires b.Valid()
    ensures |r| == |b.c|
  {
    seq(|b.c|, i requires 0 <= i < |b.c| => if i == 0 then None else Some(MinusDm(UpMove(b, i), DownMove(b, i))))
  }

  /** Of the rise of the highs and the fall of the lows only the larger one counts, and
      only when it is positive. */
  lemma MovesMeaning(b: Bars, i: nat)
    requires b.Valid() && 1 <= i < |b.c|
    ensures var plus, minus := PlusDms(b)[i], MinusDms(b)[i];
      var rise, fall := b.h[i] - b.h[i - 1], b.l[i - 1] - b.l[i];
      && plus.Some? && minus.Some? && plus.value >= 0.0 && minus.value >= 0.0
      && (plus.value > 0.0 <==> rise > 0.0 && rise > fall) && (plus.value > 0.0 ==> plus.value == rise)
      && (minus.value > 0.0 <==> fall > 0.0 && fall > rise) && (minus.value > 0.0 ==> minus.value == fall)
  {
  }

  function Percent(part: real, whole: real): real
    requires whole != 0.0
  {
    100.0 * (part / whole)
  }

  /** A directional index: 100 * part / whole where the whole is a positive number. */
  function RatioAt(part: Option<real>, whole: Option<real>): Option<real> {
    if whole.Some? && whole.value > 0.0 && part.Some? then Some(Percent(part.value, whole.value)) else None
  }

  /** A share in percent, told by a product: share times whole is 100 times the part. */
  predicate IsShare(part: Option<real>, whole: Option<real>, share: Option<real>) {
    && (share.Some? <==> part.Some? && whole.Some? && whole.value > 0.0)
    && (share.Some? ==> share.value * whole.value == 100.0 * part.value)
  }

  lemma ShareLaw(part: Option<real>, whole: Option<real>)
    ensures IsShare(part, whole, RatioAt(part, whole))
  {
    if RatioAt(part, whole).Some? {
      QuotientTimes(part.value, whole.value);
      assert (100.0 * (part.value / whole.value)) * whole.value == 100.0 * ((part.value / whole.value) * whole.value);
    }
  }

  ghost function Ratio(part: Series, whole: Series): (r: Series)
    requires |part| == |whole|
    ensures |r| == |part|
  {
    seq(|part|, i requires 0 <= i < |part| => RatioAt(part[i], whole[i]))
  }

  function Dx(p: real, m: real): real
    requires p + m > 0.0
  {
    100.0 * Abs(p - m) / (p + m)
  }

  function DxAt(p: Option<real>, m: Option<real>): Option<real> {
    if p.Some? && m.Some? && p.value + m.value > 0.0 then Some(Dx(p.value, m.value)) else None
  }

  ghost function DxSeries(p: Series, m: Series): (r: Series)
    requires |p| == |m|
    ensures |r| == |p|
  {
    seq(|p|, i requires 0 <= i < |p| => DxAt(p[i], m[i]))
  }

  /** DX, told by a product: the sum of the two indices times DX is 100 times their
      distance. */
  predicate IsDx(p: Option<real>, m: Option<real>, dx: Option<real>) {
    && (dx.Some? <==> p.Some? && m.Some? && p.value + m.value > 0.0)
    && (dx.Some? ==> dx.value * (p.value + m.value) == 100.0 * Abs(p.value - m.value))
  }

  lemma DxLaw(p: Option<real>, m: Option<real>)
    ensures IsDx(p, m, DxAt(p, m))
  {
    if DxAt(p, m).Some? {
      QuotientTimes(100.0 * Abs(p.value - m.value), p.value + m.value);
    }
  }

  lemma ShareExtremes(d: real, t: real, a: real)
    requires t > 0.0 && d * t == 100.0 * a
    ensures (d == 0.0 <==> a == 0.0) && (d == 100.0 <==> a == t)
  {
    if d > 100.0 {
      assert (d - 100.0) * t > 0.0;
    } else if d < 100.0 {
      assert (100.0 - d) * t > 0.0;
    }
    if d > 0.0 {
      assert d * t > 0.0;
    } else if d < 0.0 {
      assert -d * t > 0.0;
    }
  }

  /** DX is 0 exactly when both indices are equal and 100 exactly when one of them is 0. */
  lemma DxExtremes(p: real, m: real, dx: real)
    requires p >= 0.0 && m >= 0.0 && p + m > 0.0 && IsDx(Some(p), Some(m), Some(dx))
    ensures (dx == 0.0 <==> p == m) && (dx == 100.0 <==> p == 0.0 || m == 0.0)
  {
    ShareExtremes(dx, p + m, Abs(p - m));
  }

  ghost predicate EnoughBars(n: nat, diLen: nat, adxLen: nat) {
    n >= diLen + 1 && n >= diLen + adxLen
  }

  ghost function DiPlus(b: Bars, diLen: nat): (r: Series)
    requires b.Valid() && diLen >= 1
    ensures |r| == |b.c|
  {
    Ratio(WilderSum(PlusDms(b), diLen), WilderSum(TrueRanges(b.h, b.l, b.c), diLen))
  }

  ghost function DiMinus(b: Bars, diLen: nat): (r: Series)
    requires b.Valid() && diLen >= 1
    ensures |r| == |b.c|
  {
    Ratio(WilderSum(MinusDms(b), diLen), WilderSum(TrueRanges(b.h, b.l, b.c), diLen))
  }

  ghost function Adx(b: Bars, diLen: nat, adxLen: nat): (r: Series)
    requires b.Valid() && diLen >= 1 && adxLen >= 1
    ensures |r| == |b.c|
  {
    WilderAvg(DxSeries(DiPlus(b, diLen), DiMinus(b, diLen)), adxLen, diLen)
  }

  // ----- the loops -----

  method NanSumOf(s: array<Option<real>>, lo: nat, hi: nat) returns (total: real)
    requires lo <= hi <= s.Length
    ensures total == NanSum(s[..], lo, hi)
  {
    total := 0.0;
    for k := lo to hi
      invariant total == NanSum(s[..], lo, k)
    {
      if s[k].Some? {
        total := total + s[k].value;
      }
    }
  }

  method WilderSmoothSum(series: array<Option<real>>, length: nat) returns (out: array<Option<real>>)
    requires length >= 1
    ensures fresh(out) && out[..] == WilderSum(series[..], length)
  {
    var n := series.Length;
    ghost var s := series[..];
    ghost var spec := WilderSum(s, length);
    out := new Option<real>[n](_ => None);
    if n <= length {
      assert out[..] == spec;
      return;
    }
    var prev := NanSumOf(series, 1, length + 1);
    out[length] := Some(prev);
    for k := length + 1 to n
      invariant series[..] == s && prev == SumCarry(s, length, k - 1)
      invariant forall i | 0 <= i < k :: out[i] == spec[i]
    {
      if series[k] == None {
        out[k] := None;
      } else {
        prev := SumStep(prev, series[k].value, length);
        out[k] := Some(prev);
      }
    }
    assert out[..] == spec;
  }

  method WilderSmoothAvg(series: array<Option<real>>, length: nat, startIndex: nat) returns (out: array<Option<real>>)
    requires length >= 1
    ensures fresh(out) && out[..] == WilderAvg(series[..], length, startIndex)
  {
    var n := series.Length;
    ghost var s := series[..];
    ghost var spec := WilderAvg(s, length, startIndex);
    out := new Option<real>[n](_ => None);
    if n <= startIndex + length - 1 {
      assert out[..] == spec;
      return;
    }
    if exists i | startIndex <= i < startIndex + length :: series[i] == None {
      assert out[..] == spec;
      return;
    }
    var total := NanSumOf(series, startIndex, startIndex + length);
    var idx := startIndex + length - 1;
    var prev := total / length as real;
    out[idx] := Some(prev);
    assert AllNumbers(s, startIndex, startIndex + length);
    for k := idx + 1 to n
      invariant series[..] == s && prev == AvgCarry(s, length, startIndex, k - 1)
      invariant forall i | 0 <= i < k :: out[i] == spec[i]
    {
      if series[k] == None {
        out[k] := None;
      } else {
        prev := AverageStep(prev, series[k].value, length);
        out[k] := Some(prev);
      }
    }
    assert out[..] == spec;
  }

  method Moves(b: Bars, k: nat) returns (p: Option<real>, m: Option<real>, t: Option<real>)
    requires b.Valid() && 1 <= k < |b.c|
    ensures p == PlusDms(b)[k] && m == MinusDms(b)[k] && t == TrueRanges(b.h, b.l, b.c)[k]
  {
    var up := b.h[k] - b.h[k - 1];
    var down := b.l[k - 1] - b.l[k];
    MovesAt(b, k);
    p := Some(if up > down && up > 0.0 then up else 0.0);
    m := Some(if down > up && down > 0.0 then down else 0.0);
    t := Some(Max(Max(b.h[k] - b.l[k], Abs(b.h[k] - b.c[k - 1])), Abs(b.l[k] - b.c[k - 1])));
  }

  method DirectionalInputs(b: Bars)
    returns (tr: array<Option<real>>, plusDm: array<Option<real>>, minusDm: array<Option<real>>)
    requires b.Valid()
    ensures fresh(tr) && fresh(plusDm) && fresh(minusDm)
    ensures tr[..] == TrueRanges(b.h, b.l, b.c) && plusDm[..] == PlusDms(b) && minusDm[..] == MinusDms(b)
  {
    var n := |b.c|;
    ghost var trSpec, plusSpec, minusSpec := TrueRanges(b.h, b.l, b.c), PlusDms(b), MinusDms(b);
    tr := new Option<real>[n](_ => None);
    plusDm := new Option<real>[n](_ => None);
    minusDm := new Option<real>[n](_ => None);
    if n == 0 {
      return;
    }
    for k := 1 to n
      invariant tr[..k] == trSpec[..k]
      invariant plusDm[..k] == plusSpec[..k]
      invariant minusDm[..k] == minusSpec[..k]
    {
      var p, m, t := Moves(b, k);
      plusDm[k], minusDm[k], tr[k] := p, m, t;
      SliceSnoc(trSpec, k);
      SliceSnoc(plusSpec, k);
      SliceSnoc(minusSpec, k);
      assert tr[..k + 1] == tr[..k] + [t];
      assert plusDm[..k + 1] == plusDm[..k] + [p];
      assert minusDm[..k + 1] == minusDm[..k] + [m];
    }
    WholeSlice(trSpec);
    WholeSlice(plusSpec);
    WholeSlice(minusSpec);
    WholeSlice(tr[..]);
    WholeSlice(plusDm[..]);
    WholeSlice(minusDm[..]);
  }

  lemma SliceSnoc(s: Series, k: nat)
    requires k < |s|
    ensures s[..k + 1] == s[..k] + [s[k]]
  {
  }

  lemma WholeSlice(s: Series)
    ensures s[..|s|] == s
  {
  }

  method RatioOf(part: array<Option<real>>, whole: array<Option<real>>) returns (out: array<Option<real>>)
    requires part.Length == whole.Length
    ensures fresh(out) && out[..] == Ratio(part[..], whole[..])
    ensures forall i | 0 <= i < out.Length :: IsShare(part[i], whole[i], out[i])
  {
    out := new Option<real>[part.Length](_ => None);
    ghost var spec := Ratio(part[..], whole[..]);
    for k := 0 to part.Length
      invariant forall i | 0 <= i < part.Length :: spec[i] == RatioAt(part[i], whole[i])
      invariant forall i | 0 <= i < k :: out[i] == spec[i]
      invariant forall i | k <= i < part.Length :: out[i] == None
    {
      if whole[k].Some? && whole[k].value > 0.0 && part[k].Some? {
        out[k] := Some(Percent(part[k].value, whole[k].value));
      }
    }
    assert out[..] == spec;
    forall i | 0 <= i < out.Length ensures IsShare(part[i], whole[i], out[i]) {
      ShareLaw(part[i], whole[i]);
    }
  }

  method DxOf(p: array<Option<real>>, m: array<Option<real>>) returns (dx: array<Option<real>>)
    requires p.Length == m.Length
    ensures fresh(dx) && dx[..] == DxSeries(p[..], m[..])
    ensures forall i | 0 <= i < dx.Length :: IsDx(p[i], m[i], dx[i])
  {
    dx := new Option<real>[p.Length](_ => None);
    ghost var spec := DxSeries(p[..], m[..]);
    for k := 0 to p.Length
      invariant forall i | 0 <= i < p.Length :: spec[i] == DxAt(p[i], m[i])
      invariant forall i | 0 <= i < k :: dx[i] == spec[i]
      invariant forall i | k <= i < p.Length :: dx[i] == None
    {
      if p[k].Some? && m[k].Some? {
        var denom := p[k].value + m[k].value;
        if denom > 0.0 {
          dx[k] := Some(Dx(p[k].value, m[k].value));
        }
      }
    }
    assert dx[..] == spec;
    forall i | 0 <= i < dx.Length ensures IsDx(p[i], m[i], dx[i]) {
      DxLaw(p[i], m[i]);
    }
  }

  /** compute_dmi_adx: with too few bars one all-NaN array is returned three times. */
  method ComputeDmiAdx(highs: array<real>, lows: array<real>, closes: array<real>, diLen: nat, adxLen: nat)
    returns (adx: array<Option<real>>, diPlus: array<Option<real>>, diMinus: array<Option<real>>)
    requires highs.Length == lows.Length == closes.Length && diLen >= 1 && adxLen >= 1
    ensures adx.Length == diPlus.Length == diMinus.Length == closes.Length
    ensures !EnoughBars(closes.Length, diLen, adxLen) ==>
      adx == diPlus == diMinus && forall i | 0 <= i < closes.Length :: adx[i] == None
    ensures EnoughBars(closes.Length, diLen, adxLen) ==>
      var b := Bars(highs[..], lows[..], closes[..]);
      adx[..] == Adx(b, diLen, adxLen) && diPlus[..] == DiPlus(b, diLen) && diMinus[..] == DiMinus(b, diLen)
    ensures IsRising(Bars(highs[..], lows[..], closes[..])) ==> AreHundred(adx[..])
  {
    var n := closes.Length;
    if n < diLen + 1 || n < diLen + adxLen {
      adx := new Option<real>[n](_ => None);
      return adx, adx, adx;
    }
    var tr, plusDm, minusDm := DirectionalInputs(Bars(highs[..], lows[..], closes[..]));
    var trSum := WilderSmoothSum(tr, diLen);
    var plusSum := WilderSmoothSum(plusDm, diLen);
    var minusSum := WilderSmoothSum(minusDm, diLen);
    assert trSum[..] == WilderSum(tr[..], diLen);
    assert |trSum[..]| == n && |plusSum[..]| == n && |minusSum[..]| == n;
    diPlus := RatioOf(plusSum, trSum);
    diMinus := RatioOf(minusSum, trSum);
    assert |diPlus[..]| == n && |diMinus[..]| == n;
    var dx := DxOf(diPlus, diMinus);
    adx := WilderSmoothAvg(dx, adxLen, diLen);
    assert |adx[..]| == n;
    ghost var b := Bars(highs[..], lows[..], closes[..]);
    assert adx[..] == Adx(b, diLen, adxLen);
    if IsRising(b) {
      RisingAdxIsHundred(b, diLen, adxLen);
    }
  }

  // ----- two implementations of the same smoothing -----

  function Times(length: nat, x: real): real {
    length as real * x
  }

  lemma StepsAgree(sum: real, a: real, v: real, length: nat)
    requires length >= 1 && sum == Times(length, a)
    ensures SumStep(sum, v, length) == Times(length, AverageStep(a, v, length))
  {
    var n := length as real;
    assert sum / n == a;
    assert n * ((a * (n - 1.0) + v) / n) == a * (n - 1.0) + v;
  }

  lemma SeedsAgree(total: real, length: nat)
    requires length >= 1
    ensures total == Times(length, total / length as real)
  {
  }

  lemma {:induction false} CarriesAgree(tr: Series, length: nat, i: nat)
    requires 1 <= length <= i < |tr| && AllNumbers(tr, 1, |tr|)
    ensures SumCarry(tr, length, i) == Times(length, AtrCarry(tr, length, i))
  {
    if i == length {
      AllNumbersCount(tr, 1, length + 1);
      SeedsAgree(NanSum(tr, 1, length + 1), length);
    } else {
      CarriesAgree(tr, length, i - 1);
      StepsAgree(SumCarry(tr, length, i - 1), AtrCarry(tr, length, i - 1), tr[i].value, length);
    }
  }

  /** The Wilder sum of the true ranges is defined exactly where the ATR is, and is
      length times it. */
  lemma WilderSumIsLengthTimesAtr(b: Bars, length: nat, i: nat)
    requires b.Valid() && length >= 1 && i < |b.c|
    ensures var tr := TrueRanges(b.h, b.l, b.c);
      var sum, average := WilderSum(tr, length)[i], AtrSeries(tr, length)[i];
      (sum.Some? <==> average.Some?) && (sum.Some? ==> sum.value == Times(length, average.value))
  {
    var tr := TrueRanges(b.h, b.l, b.c);
    assert forall k | 1 <= k < |tr| :: tr[k].Some?;
    if length <= i {
      assert WilderSum(tr, length)[i] == Some(SumCarry(tr, length, i));
      assert AtrSeries(tr, length)[i] == Some(AtrCarry(tr, length, i));
      CarriesAgree(tr, length, i);
    } else {
      assert WilderSum(tr, length)[i] == None && AtrSeries(tr, length)[i] == None;
    }
  }

  // ----- bounds -----

  lemma SumStepBounds(p: real, m: real, t: real, vp: real, vm: real, vt: real, length: nat)
    requires length >= 1 && 0.0 <= p && 0.0 <= m && 0.0 <= vp && 0.0 <= vm
    ensures 0.0 <= SumStep(p, vp, length) && 0.0 <= SumStep(m, vm, length)
    ensures p + m <= t && vp + vm <= vt ==>
      SumStep(p, vp, length) + SumStep(m, vm, length) <= SumStep(t, vt, length)
  {
    var n := length as real;
    Shrink(p, n);
    Shrink(m, n);
    if p + m <= t {
      Shrink(t - p - m, n);
      assert (t - p - m) / n == t / n - p / n - m / n;
    }
  }

  lemma Shrink(x: real, n: real)
    requires x >= 0.0 && n >= 1.0
    ensures 0.0 <= x / n <= x
  {
    QuotientWithin(x, n, 0.0, x);
  }

  /** +DM and -DM are never negative, and for a well-formed bar before they add up
      to no more than the true range. */
  lemma MovesWithinRange(b: Bars, i: nat)
    requires b.Valid() && 1 <= i < |b.c|
    ensures var p, m, t := PlusDms(b)[i].value, MinusDms(b)[i].value, TrueRanges(b.h, b.l, b.c)[i].value;
      0.0 <= p && 0.0 <= m && (b.l[i - 1] <= b.c[i - 1] <= b.h[i - 1] ==> p + m <= t)
  {
  }

  lemma {:induction false} DmSumBounds(b: Bars, lo: nat, hi: nat)
    requires b.Valid() && 1 <= lo <= hi <= |b.c|
    ensures var p, m, t := NanSum(PlusDms(b), lo, hi), NanSum(MinusDms(b), lo, hi), NanSum(TrueRanges(b.h, b.l, b.c), lo, hi);
      0.0 <= p && 0.0 <= m && (b.WellFormed() ==> p + m <= t)
  {
    if lo < hi {
      DmSumBounds(b, lo, hi - 1);
      MovesWithinRange(b, hi - 1);
    }
  }

  lemma {:induction false} DmCarryBounds(b: Bars, length: nat, i: nat)
    requires b.Valid() && 1 <= length <= i < |b.c|
    ensures var p, m, t := SumCarry(PlusDms(b), length, i), SumCarry(MinusDms(b), length, i),
                           SumCarry(TrueRanges(b.h, b.l, b.c), length, i);
      0.0 <= p && 0.0 <= m && (b.WellFormed() ==> p + m <= t)
  {
    if i == length {
      DmSumBounds(b, 1, length + 1);
    } else {
      DmCarryBounds(b, length, i - 1);
      MovesWithinRange(b, i);
      var tr := TrueRanges(b.h, b.l, b.c);
      SumStepBounds(SumCarry(PlusDms(b), length, i - 1), SumCarry(MinusDms(b), length, i - 1), SumCarry(tr, length, i - 1),
                    PlusDms(b)[i].value, MinusDms(b)[i].value, tr[i].value, length);
    }
  }

  lemma PercentBounds(p: real, m: real, t: real)
    requires 0.0 <= p && 0.0 <= m && t > 0.0
    ensures 0.0 <= Percent(p, t) && 0.0 <= Percent(m, t)
    ensures p + m <= t ==> Percent(p, t) + Percent(m, t) <= 100.0
  {
    QuotientWithin(p, t, 0.0, p / t);
    QuotientWithin(m, t, 0.0, m / t);
    if p + m <= t {
      QuotientWithin(p + m, t, 0.0, 1.0);
      assert (p + m) / t == p / t + m / t;
    }
  }

  /** Every defined DI+ and DI- is at least 0; on well-formed bars they add up to at
      most 100. */
  lemma DiBounds(b: Bars, diLen: nat, i: nat)
    requires b.Valid() && diLen >= 1 && i < |b.c|
    ensures DiPlus(b, diLen)[i].Some? <==> DiMinus(b, diLen)[i].Some?
    ensures DiPlus(b, diLen)[i].Some? ==> DiPlus(b, diLen)[i].value >= 0.0 && DiMinus(b, diLen)[i].value >= 0.0
    ensures DiPlus(b, diLen)[i].Some? && b.WellFormed() ==>
      DiPlus(b, diLen)[i].value + DiMinus(b, diLen)[i].value <= 100.0
  {
    if diLen <= i {
      DmCarryBounds(b, diLen, i);
      var p, m, t := SumCarry(PlusDms(b), diLen, i), SumCarry(MinusDms(b), diLen, i), SumCarry(TrueRanges(b.h, b.l, b.c), diLen, i);
      if t > 0.0 { PercentBounds(p, m, t); }
    }
  }

  lemma DxBounds(p: real, m: real)
    requires p >= 0.0 && m >= 0.0 && p + m > 0.0
    ensures 0.0 <= Dx(p, m) <= 100.0
  {
    QuotientWithin(100.0 * Abs(p - m), p + m, 0.0, 100.0);
  }

  ghost predicate InPercent(s: Series) {
    forall i | 0 <= i < |s| && s[i].Some? :: 0.0 <= s[i].value <= 100.0
  }

  lemma {:induction false} NanSumWithin(s: Series, lo: nat, hi: nat)
    requires lo <= hi <= |s| && InPercent(s)
    ensures 0.0 <= NanSum(s, lo, hi) <= 100.0 * (hi - lo) as real
  {
    if lo < hi { NanSumWithin(s, lo, hi - 1); }
  }

  lemma AverageStepWithin(prev: real, v: real, length: nat)
    requires length >= 1 && 0.0 <= prev <= 100.0 && 0.0 <= v <= 100.0
    ensures 0.0 <= AverageStep(prev, v, length) <= 100.0
  {
    var n := length as real;
    assert 0.0 <= prev * (n - 1.0) <= 100.0 * (n - 1.0);
    QuotientWithin(prev * (n - 1.0) + v, n, 0.0, 100.0);
    assert AverageStep(prev, v, length) == (prev * (n - 1.0) + v) / n;
  }

  lemma {:induction false} AvgWithin(s: Series, length: nat, start: nat, i: nat)
    requires 1 <= length && start + length - 1 <= i < |s| && InPercent(s)
    ensures 0.0 <= AvgCarry(s, length, start, i) <= 100.0
  {
    var n := length as real;
    if i == start + length - 1 {
      NanSumWithin(s, start, start + length);
      QuotientWithin(NanSum(s, start, start + length), n, 0.0, 100.0);
    } else {
      AvgWithin(s, length, start, i - 1);
      if s[i].Some? {
        AverageStepWithin(AvgCarry(s, length, start, i - 1), s[i].value, length);
      }
    }
  }

  /** DX and ADX are percentages on any bars at all, well formed or not. */
  lemma DxAndAdxArePercentages(b: Bars, diLen: nat, adxLen: nat)
    requires b.Valid() && diLen >= 1 && adxLen >= 1
    ensures InPercent(DxSeries(DiPlus(b, diLen), DiMinus(b, diLen)))
    ensures InPercent(Adx(b, diLen, adxLen))
  {
    var dip, dim := DiPlus(b, diLen), DiMinus(b, diLen);
    var dx := DxSeries(dip, dim);
    forall i | 0 <= i < |dx| && dx[i].Some? ensures 0.0 <= dx[i].value <= 100.0 {
      DiBounds(b, diLen, i);
      DxBounds(dip[i].value, dim[i].value);
    }
    var adx := Adx(b, diLen, adxLen);
    forall i | 0 <= i < |adx| && adx[i].Some? ensures 0.0 <= adx[i].value <= 100.0 {
      AvgWithin(dx, adxLen, diLen, i);
    }
  }

  // ----- the weights of the smoothing -----

  lemma SumStepParts(prev: real, v: real, length: nat)
    requires length >= 1
    ensures SumStep(prev, v, length) * length as real == prev * (length as real - 1.0) + v * length as real
  {
    QuotientTimes(prev, length as real);
  }

  lemma AverageStepParts(prev: real, v: real, length: nat)
    requires length >= 1
    ensures AverageStep(prev, v, length) * length as real == prev * (length as real - 1.0) + v
  {
    QuotientTimes(prev * (length as real - 1.0) + v, length as real);
  }

  /** Wilder's sum loses one part in length and gains the new value. */
  lemma SummingLaw(s: Series, length: nat, i: nat)
    requires 1 <= length < i < |s| && s[i].Some? && s[i - 1].Some?
    ensures var sum := WilderSum(s, length);
      && sum[i].Some? && sum[i - 1].Some?
      && sum[i].value * length as real == sum[i - 1].value * (length as real - 1.0) + s[i].value * length as real
  {
    var sum := WilderSum(s, length);
    assert sum[i - 1] == Some(SumCarry(s, length, i - 1));
    assert sum[i] == Some(SumStep(sum[i - 1].value, s[i].value, length));
    SumStepParts(sum[i - 1].value, s[i].value, length);
  }

  /** His average is made of length - 1 parts of the last one and one part of the new
      value. */
  lemma AveragingLaw(s: Series, length: nat, start: nat, i: nat)
    requires length >= 1 && start + length <= i < |s| && s[i].Some? && s[i - 1].Some? && AllNumbers(s, start, start + length)
    ensures var average := WilderAvg(s, length, start);
      && average[i].Some? && average[i - 1].Some?
      && average[i].value * length as real == average[i - 1].value * (length as real - 1.0) + s[i].value
  {
    var average := WilderAvg(s, length, start);
    assert average[i - 1] == Some(AvgCarry(s, length, start, i - 1));
    assert average[i] == Some(AverageStep(average[i - 1].value, s[i].value, length));
    AverageStepParts(average[i - 1].value, s[i].value, length);
  }

  // ----- a pure trend -----

  /** Highs strictly rise and lows never fall. */
  ghost predicate IsRising(b: Bars)
    requires b.Valid()
  {
    forall i | 1 <= i < |b.c| :: b.h[i] > b.h[i - 1] && b.l[i] >= b.l[i - 1]
  }

  ghost predicate ArePositive(s: Series) {
    forall i | 1 <= i < |s| :: s[i].Some? && s[i].value > 0.0
  }

  ghost predicate AreZero(s: Series) {
    forall i | 1 <= i < |s| :: s[i] == Some(0.0)
  }

  lemma RisingMoveAt(b: Bars, i: nat)
    requires b.Valid() && 1 <= i < |b.c| && b.h[i] > b.h[i - 1] && b.l[i] >= b.l[i - 1]
    ensures PlusDms(b)[i].Some? && PlusDms(b)[i].value > 0.0 && MinusDms(b)[i] == Some(0.0)
  {
    MovesMeaning(b, i);
  }

  lemma RisingRangeAt(b: Bars, i: nat)
    requires b.Valid() && 1 <= i < |b.c| && b.h[i] > b.h[i - 1] >= b.c[i - 1]
    ensures TrueRanges(b.h, b.l, b.c)[i].Some? && TrueRanges(b.h, b.l, b.c)[i].value > 0.0
  {
  }

  lemma RisingMoves(b: Bars)
    requires b.Valid() && IsRising(b)
    ensures ArePositive(PlusDms(b)) && AreZero(MinusDms(b))
    ensures b.WellFormed() ==> ArePositive(TrueRanges(b.h, b.l, b.c))
  {
    forall i | 1 <= i < |b.c| ensures PlusDms(b)[i].Some? && PlusDms(b)[i].value > 0.0 && MinusDms(b)[i] == Some(0.0) {
      RisingMoveAt(b, i);
    }
    if b.WellFormed() {
      forall i | 1 <= i < |b.c| ensures TrueRanges(b.h, b.l, b.c)[i].Some? && TrueRanges(b.h, b.l, b.c)[i].value > 0.0 {
        assert b.c[i - 1] <= b.h[i - 1];
        RisingRangeAt(b, i);
      }
    }
  }

  lemma {:induction false} PositiveSum(s: Series, lo: nat, hi: nat)
    requires 1 <= lo <= hi <= |s| && ArePositive(s)
    ensures NanSum(s, lo, hi) >= 0.0 && (lo < hi ==> NanSum(s, lo, hi) > 0.0)
  {
    if lo < hi {
      PositiveSum(s, lo, hi - 1);
    }
  }

  lemma {:induction false} PositiveCarry(s: Series, length: nat, i: nat)
    requires 1 <= length <= i < |s| && ArePositive(s)
    ensures SumCarry(s, length, i) > 0.0
  {
    if i == length {
      PositiveSum(s, 1, length + 1);
    } else {
      var prev := SumCarry(s, length, i - 1);
      PositiveCarry(s, length, i - 1);
      Shrink(prev, length as real);
    }
  }

  lemma {:induction false} ZeroSum(s: Series, lo: nat, hi: nat)
    requires 1 <= lo <= hi <= |s| && AreZero(s)
    ensures NanSum(s, lo, hi) == 0.0
  {
    if lo < hi {
      ZeroSum(s, lo, hi - 1);
    }
  }

  lemma {:induction false} ZeroCarry(s: Series, length: nat, i: nat)
    requires 1 <= length <= i < |s| && AreZero(s)
    ensures SumCarry(s, length, i) == 0.0
  {
    if i == length {
      ZeroSum(s, 1, length + 1);
    } else {
      ZeroCarry(s, length, i - 1);
    }
  }

  lemma PercentSigns(p: real, t: real)
    requires t > 0.0
    ensures Percent(0.0, t) == 0.0 && (p > 0.0 ==> Percent(p, t) > 0.0)
  {
  }

  /** In a rising market DI- is 0, and on well-formed bars both indices are defined from
      the first full length on, DI+ positive. */
  lemma RisingDi(b: Bars, diLen: nat, i: nat)
    requires b.Valid() && diLen >= 1 && IsRising(b) && i < |b.c|
    ensures DiMinus(b, diLen)[i].Some? ==> DiMinus(b, diLen)[i].value == 0.0
    ensures b.WellFormed() && diLen <= i ==> DiPlus(b, diLen)[i].Some? && DiPlus(b, diLen)[i].value > 0.0 && DiMinus(b, diLen)[i].Some?
  {
    RisingMoves(b);
    if diLen <= i {
      var tr := TrueRanges(b.h, b.l, b.c);
      ZeroCarry(MinusDms(b), diLen, i);
      PositiveCarry(PlusDms(b), diLen, i);
      if b.WellFormed() {
        PositiveCarry(tr, diLen, i);
      }
      if SumCarry(tr, diLen, i) > 0.0 {
        PercentSigns(SumCarry(PlusDms(b), diLen, i), SumCarry(tr, diLen, i));
      }
    }
  }

  ghost predicate AreHundred(s: Series) {
    forall i | 0 <= i < |s| && s[i].Some? :: s[i].value == 100.0
  }

  lemma RisingDx(b: Bars, diLen: nat)
    requires b.Valid() && diLen >= 1 && IsRising(b)
    ensures var dx := DxSeries(DiPlus(b, diLen), DiMinus(b, diLen));
      AreHundred(dx) && (b.WellFormed() ==> forall i | diLen <= i < |b.c| :: dx[i].Some?)
  {
    var p, m := DiPlus(b, diLen), DiMinus(b, diLen);
    forall i | 0 <= i < |b.c|
      ensures DxAt(p[i], m[i]).Some? ==> DxAt(p[i], m[i]).value == 100.0
      ensures b.WellFormed() && diLen <= i ==> DxAt(p[i], m[i]).Some?
    {
      RisingDi(b, diLen, i);
      DxLaw(p[i], m[i]);
      if DxAt(p[i], m[i]).Some? {
        DxExtremes(p[i].value, 0.0, DxAt(p[i], m[i]).value);
      }
    }
  }

  lemma {:induction false} SumOfHundreds(s: Series, lo: nat, hi: nat)
    requires lo <= hi <= |s| && AreHundred(s) && AllNumbers(s, lo, hi)
    ensures NanSum(s, lo, hi) == 100.0 * (hi - lo) as real
  {
    if lo < hi {
      SumOfHundreds(s, lo, hi - 1);
    }
  }

  lemma AverageOfHundreds(length: nat)
    requires length >= 1
    ensures AverageStep(100.0, 100.0, length) == 100.0 && 100.0 * length as real / length as real == 100.0
  {
    QuotientTimes(100.0 * length as real, length as real);
    ShareExtremes(100.0 * length as real / length as real, length as real, length as real);
  }

  lemma {:induction false} CarryOfHundreds(s: Series, length: nat, start: nat, i: nat)
    requires 1 <= length && start + length - 1 <= i < |s| && AreHundred(s) && AllNumbers(s, start, start + length)
    ensures AvgCarry(s, length, start, i) == 100.0
  {
    AverageOfHundreds(length);
    if i == start + length - 1 {
      SumOfHundreds(s, start, start + length);
    } else {
      CarryOfHundreds(s, length, start, i - 1);
    }
  }

  /** While highs strictly rise and lows never fall the ADX is 100 wherever it is defined,
      and on well-formed bars it is defined from its first full length on. */
  lemma RisingAdxIsHundred(b: Bars, diLen: nat, adxLen: nat)
    requires b.Valid() && diLen >= 1 && adxLen >= 1 && IsRising(b)
    ensures AreHundred(Adx(b, diLen, adxLen))
    ensures b.WellFormed() ==> forall i | diLen + adxLen - 1 <= i < |b.c| :: Adx(b, diLen, adxLen)[i].Some?
  {
    var dx, adx := DxSeries(DiPlus(b, diLen), DiMinus(b, diLen)), Adx(b, diLen, adxLen);
    RisingDx(b, diLen);
    forall i | 0 <= i < |adx| && adx[i].Some? ensures adx[i].value == 100.0 {
      CarryOfHundreds(dx, adxLen, diLen, i);
    }
  }

  /** The bound on DI+ + DI- does need bars whose close lies between low and high. */
  lemma MalformedBarsBreakTheBound()
    ensures var b := Bars([10.0, 20.0], [9.0, 19.0], [20.0, 20.0]);
      DiPlus(b, 1)[1] == Some(1000.0)
  {
    var b := Bars([10.0, 20.0], [9.0, 19.0], [20.0, 20.0]);
    var tr, p := TrueRanges(b.h, b.l, b.c), PlusDms(b);
    assert tr[1] == Some(1.0) && p[1] == Some(10.0);
    assert NanSum(tr, 1, 2) == 1.0 && NanSum(p, 1, 2) == 10.0;
    assert SumCarry(tr, 1, 1) == 1.0 && SumCarry(p, 1, 1) == 10.0;
  }

  /** Two bars, the first of which has high h, low l and close c. */
  function TwoBars(h: real, l: real, c: real, h': real, l': real, c': real): Bars { Bars([h, h'], [l, l'], [c, c']) }

  lemma DiOfTwoBars(h: real, l: real, c: real, h': real, l': real, c': real)
    ensures var b, up, down, tr := TwoBars(h, l, c, h', l', c'), h' - h, l - l', TrueRange(h', l', c);
      && DiPlus(b, 1)[1] == RatioAt(Some(PlusDm(up, down)), Some(tr))
      && DiMinus(b, 1)[1] == RatioAt(Some(MinusDm(up, down)), Some(tr))
  {
    var b := TwoBars(h, l, c, h', l', c');
    var tr, p, m := TrueRanges(b.h, b.l, b.c), PlusDms(b), MinusDms(b);
    assert NanSum(tr, 1, 2) == tr[1].value && NanSum(p, 1, 2) == p[1].value && NanSum(m, 1, 2) == m[1].value;
    assert SumCarry(tr, 1, 1) == tr[1].value && SumCarry(p, 1, 1) == p[1].value && SumCarry(m, 1, 1) == m[1].value;
  }

  /** The sum of both indices after the next bar, where they are defined, is at most 100. */
  ghost predicate SumsWithin(h: real, l: real, c: real, h': real, l': real, c': real) {
    var b := TwoBars(h, l, c, h', l', c');
    DiPlus(b, 1)[1].Some? && DiMinus(b, 1)[1].Some? ==> DiPlus(b, 1)[1].value + DiMinus(b, 1)[1].value <= 100.0
  }

  lemma AtMostOneIff(x: real, t: real)
    requires t > 0.0
    ensures x <= 1.0 <==> x * t <= t
  {
    assert (1.0 - x) * t == t - x * t;
    if x <= 1.0 {
      ProductNonNegative(1.0 - x, t);
    } else {
      assert (x - 1.0) * t > 0.0;
    }
  }

  lemma PercentsWithinIff(p: real, m: real, t: real)
    requires t > 0.0
    ensures Percent(p, t) + Percent(m, t) <= 100.0 <==> p + m <= t
  {
    var x, y := p / t, m / t;
    assert x * t == p && y * t == m;
    assert (x + y) * t == p + m;
    AtMostOneIff(x + y, t);
  }

  lemma SumsWithinIff(h: real, l: real, c: real, h': real, l': real, c': real)
    ensures var up, down, tr := h' - h, l - l', TrueRange(h', l', c);
      SumsWithin(h, l, c, h', l', c') <==> (tr > 0.0 ==> PlusDm(up, down) + MinusDm(up, down) <= tr)
  {
    DiOfTwoBars(h, l, c, h', l', c');
    if TrueRange(h', l', c) > 0.0 {
      PercentsWithinIff(PlusDm(h' - h, l - l'), MinusDm(h' - h, l - l'), TrueRange(h', l', c));
    }
  }

  /** The bound holds after every next bar exactly when the close of the bar before lies
      between its low and its high. */
  lemma DiBoundIff(h: real, l: real, c: real)
    ensures (forall h', l', c' | l' <= h' :: SumsWithin(h, l, c, h', l', c')) <==> l <= c <= h
  {
    if l <= c <= h {
      forall h', l', c' | l' <= h' ensures SumsWithin(h, l, c, h', l', c') {
        SumsWithinIff(h, l, c, h', l', c');
      }
    } else {
      var d := 1.0 + Abs(l + h - 2.0 * c);
      var x := if c > h then c + d else c - d;
      SumsWithinIff(h, l, c, x, x, x);
      assert !SumsWithin(h, l, c, x, x, x);
    }
  }

  // ----- symmetries -----

  function By(k: real, x: real): real {
    k * x
  }

  function ScaleAll(s: seq<real>, k: real): seq<real> {
    seq(|s|, i requires 0 <= i < |s| => By(k, s[i]))
  }

  function Scale(b: Bars, k: real): Bars {
    Bars(ScaleAll(b.h, k), ScaleAll(b.l, k), ScaleAll(b.c, k))
  }

  /** s' is s with every number multiplied by k, and NaN in the same places. */
  ghost predicate Scaled(s: Series, s': Series, k: real) {
    && |s| == |s'|
    && (forall i | 0 <= i < |s| :: s'[i].Some? <==> s[i].Some?)
    && (forall i | 0 <= i < |s| && s[i].Some? :: s'[i].value == By(k, s[i].value))
  }

  lemma ScaleOrder(x: real, y: real, k: real)
    requires k > 0.0
    ensures x > y <==> By(k, x) > By(k, y)
    ensures By(k, x) - By(k, y) == By(k, x - y)
  {
    assert k * x - k * y == k * (x - y);
  }

  lemma DmScale(h: real, h': real, l: real, l': real, k: real)
    requires k > 0.0
    ensures PlusDm(By(k, h) - By(k, h'), By(k, l') - By(k, l)) == By(k, PlusDm(h - h', l' - l))
    ensures MinusDm(By(k, h) - By(k, h'), By(k, l') - By(k, l)) == By(k, MinusDm(h - h', l' - l))
  {
    ScaleOrder(h, h', k);
    ScaleOrder(l', l, k);
    ScaleOrder(h - h', l' - l, k);
    ScaleOrder(l' - l, h - h', k);
    ScaleOrder(h - h', 0.0, k);
    ScaleOrder(l' - l, 0.0, k);
  }

  lemma AbsScale(x: real, y: real, k: real)
    requires k > 0.0
    ensures Abs(By(k, x) - By(k, y)) == By(k, Abs(x - y))
  {
    ScaleOrder(x, y, k);
    ScaleOrder(y, x, k);
  }

  lemma MaxScale(x: real, y: real, k: real)
    requires k > 0.0
    ensures Max(By(k, x), By(k, y)) == By(k, Max(x, y))
  {
    ScaleOrder(y, x, k);
  }

  lemma RangeScale(h: real, l: real, c: real, k: real)
    requires k > 0.0
    ensures TrueRange(By(k, h), By(k, l), By(k, c)) == By(k, TrueRange(h, l, c))
  {
    AbsScale(h, c, k);
    AbsScale(l, c, k);
    ScaleOrder(h, l, k);
    MaxScale(h - l, Abs(h - c), k);
    MaxScale(Max(h - l, Abs(h - c)), Abs(l - c), k);
  }

  lemma MovesAt(b: Bars, i: nat)
    requires b.Valid() && 1 <= i < |b.c|
    ensures PlusDms(b)[i] == Some(PlusDm(UpMove(b, i), DownMove(b, i)))
    ensures MinusDms(b)[i] == Some(MinusDm(UpMove(b, i), DownMove(b, i)))
  {
  }

  lemma MovesScaleAt(b: Bars, k: real, i: nat)
    requires b.Valid() && k > 0.0 && 1 <= i < |b.c|
    ensures PlusDm(UpMove(Scale(b, k), i), DownMove(Scale(b, k), i)) == By(k, PlusDm(UpMove(b, i), DownMove(b, i)))
    ensures MinusDm(UpMove(Scale(b, k), i), DownMove(Scale(b, k), i)) == By(k, MinusDm(UpMove(b, i), DownMove(b, i)))
  {
    DmScale(b.h[i], b.h[i - 1], b.l[i], b.l[i - 1], k);
  }

  lemma MovesScale(b: Bars, k: real)
    requires b.Valid() && k > 0.0
    ensures Scaled(PlusDms(b), PlusDms(Scale(b, k)), k)
    ensures Scaled(MinusDms(b), MinusDms(Scale(b, k)), k)
  {
    var p, m, p', m' := PlusDms(b), MinusDms(b), PlusDms(Scale(b, k)), MinusDms(Scale(b, k));
    forall i | 0 <= i < |b.c|
      ensures p'[i].Some? == p[i].Some? && m'[i].Some? == m[i].Some?
      ensures p[i].Some? ==> p'[i].value == By(k, p[i].value)
      ensures m[i].Some? ==> m'[i].value == By(k, m[i].value)
    {
      if i >= 1 {
        MovesAt(b, i);
        MovesAt(Scale(b, k), i);
        MovesScaleAt(b, k, i);
      }
    }
  }

  lemma RangesScale(b: Bars, k: real)
    requires b.Valid() && k > 0.0
    ensures var b' := Scale(b, k); Scaled(TrueRanges(b.h, b.l, b.c), TrueRanges(b'.h, b'.l, b'.c), k)
  {
    var b' := Scale(b, k);
    forall i | 1 <= i < |b.c|
      ensures TrueRanges(b'.h, b'.l, b'.c)[i].value == By(k, TrueRanges(b.h, b.l, b.c)[i].value)
    {
      RangeScale(b.h[i], b.l[i], b.c[i - 1], k);
    }
  }

  lemma SumScales(x: real, y: real, k: real)
    ensures By(k, x + y) == By(k, x) + By(k, y)
  {
  }

  lemma {:induction false} NanSumScales(s: Series, s': Series, k: real, lo: nat, hi: nat)
    requires Scaled(s, s', k) && lo <= hi <= |s|
    ensures NanSum(s', lo, hi) == By(k, NanSum(s, lo, hi))
  {
    if lo < hi {
      NanSumScales(s, s', k, lo, hi - 1);
      if s[hi - 1].Some? {
        SumScales(NanSum(s, lo, hi - 1), s[hi - 1].value, k);
      }
    }
  }

  lemma StepScales(p: real, v: real, length: nat, k: real)
    requires length >= 1
    ensures SumStep(By(k, p), By(k, v), length) == By(k, SumStep(p, v, length))
  {
    var n := length as real;
    assert (k * p) / n == k * (p / n);
  }

  lemma {:induction false} CarryScales(s: Series, s': Series, k: real, length: nat, i: nat)
    requires Scaled(s, s', k) && 1 <= length <= i < |s|
    ensures SumCarry(s', length, i) == By(k, SumCarry(s, length, i))
  {
    if i == length {
      NanSumScales(s, s', k, 1, length + 1);
    } else {
      CarryScales(s, s', k, length, i - 1);
      if s[i].Some? {
        StepScales(SumCarry(s, length, i - 1), s[i].value, length, k);
      }
    }
  }

  lemma PercentScales(p: real, t: real, k: real)
    requires k > 0.0 && t > 0.0
    ensures By(k, t) > 0.0 && Percent(By(k, p), By(k, t)) == Percent(p, t)
  {
    assert p == p / t * t;
    assert (k * p) / (k * t) == p / t by {
      assert k * p == p / t * (k * t);
    }
  }

  lemma RatioScalesAt(p: Series, t: Series, p': Series, t': Series, k: real, length: nat, i: nat)
    requires length >= 1 && k > 0.0 && Scaled(p, p', k) && Scaled(t, t', k) && |p| == |t| && i < |p|
    ensures Ratio(WilderSum(p', length), WilderSum(t', length))[i] == Ratio(WilderSum(p, length), WilderSum(t, length))[i]
  {
    if length <= i {
      CarryScales(p, p', k, length, i);
      CarryScales(t, t', k, length, i);
      var x, y := SumCarry(p, length, i), SumCarry(t, length, i);
      ScaleOrder(y, 0.0, k);
      if y > 0.0 {
        PercentScales(x, y, k);
      }
    }
  }

  lemma RatioScales(p: Series, t: Series, p': Series, t': Series, k: real, length: nat)
    requires length >= 1 && k > 0.0 && Scaled(p, p', k) && Scaled(t, t', k) && |p| == |t|
    ensures Ratio(WilderSum(p', length), WilderSum(t', length)) == Ratio(WilderSum(p, length), WilderSum(t, length))
  {
    forall i | 0 <= i < |p|
      ensures Ratio(WilderSum(p', length), WilderSum(t', length))[i] == Ratio(WilderSum(p, length), WilderSum(t, length))[i]
    {
      RatioScalesAt(p, t, p', t', k, length, i);
    }
  }

  /** DI+, DI- and ADX do not depend on the unit of the prices. */
  lemma ScalingChangesNothing(b: Bars, k: real, diLen: nat, adxLen: nat)
    requires b.Valid() && k > 0.0 && diLen >= 1 && adxLen >= 1
    ensures DiPlus(Scale(b, k), diLen) == DiPlus(b, diLen)
    ensures DiMinus(Scale(b, k), diLen) == DiMinus(b, diLen)
    ensures Adx(Scale(b, k), diLen, adxLen) == Adx(b, diLen, adxLen)
  {
    var b' := Scale(b, k);
    MovesScale(b, k);
    RangesScale(b, k);
    var t, t' := TrueRanges(b.h, b.l, b.c), TrueRanges(b'.h, b'.l, b'.c);
    RatioScales(PlusDms(b), t, PlusDms(b'), t', k, diLen);
    RatioScales(MinusDms(b), t, MinusDms(b'), t', k, diLen);
  }

  function NegateAll(s: seq<real>): seq<real> {
    seq(|s|, i requires 0 <= i < |s| => -s[i])
  }

  /** The market upside down: prices negated, highs and lows exchanged. */
  function Mirror(b: Bars): Bars {
    Bars(NegateAll(b.l), NegateAll(b.h), NegateAll(b.c))
  }

  lemma MirrorMovesAt(b: Bars, i: nat)
    requires b.Valid() && 1 <= i < |b.c|
    ensures UpMove(Mirror(b), i) == DownMove(b, i) && DownMove(Mirror(b), i) == UpMove(b, i)
  {
  }

  lemma DmSwaps(up: real, down: real)
    ensures PlusDm(down, up) == MinusDm(up, down) && MinusDm(down, up) == PlusDm(up, down)
  {
  }

  lemma MirrorMoves(b: Bars)
    requires b.Valid()
    ensures PlusDms(Mirror(b)) == MinusDms(b)
    ensures MinusDms(Mirror(b)) == PlusDms(b)
  {
    var p, m, p', m' := PlusDms(b), MinusDms(b), PlusDms(Mirror(b)), MinusDms(Mirror(b));
    forall i | 0 <= i < |b.c| ensures p'[i] == m[i] && m'[i] == p[i] {
      if i >= 1 {
        MovesAt(b, i);
        MovesAt(Mirror(b), i);
        MirrorMovesAt(b, i);
        DmSwaps(UpMove(b, i), DownMove(b, i));
      }
    }
  }

  lemma MirrorRange(b: Bars, i: nat)
    requires b.Valid() && 1 <= i < |b.c|
    ensures var b' := Mirror(b); TrueRange(b'.h[i], b'.l[i], b'.c[i - 1]) == TrueRange(b.h[i], b.l[i], b.c[i - 1])
  {
  }

  lemma MirrorRanges(b: Bars)
    requires b.Valid()
    ensures var b' := Mirror(b); TrueRanges(b'.h, b'.l, b'.c) == TrueRanges(b.h, b.l, b.c)
  {
    var b' := Mirror(b);
    forall i | 0 <= i < |b.c| ensures TrueRanges(b'.h, b'.l, b'.c)[i] == TrueRanges(b.h, b.l, b.c)[i] {
      if i >= 1 { MirrorRange(b, i); }
    }
  }

  /** Turning the market upside down exchanges DI+ and DI- and keeps the ADX. */
  lemma MirrorSwapsDirections(b: Bars, diLen: nat, adxLen: nat)
    requires b.Valid() && diLen >= 1 && adxLen >= 1
    ensures DiPlus(Mirror(b), diLen) == DiMinus(b, diLen)
    ensures DiMinus(Mirror(b), diLen) == DiPlus(b, diLen)
    ensures Adx(Mirror(b), diLen, adxLen) == Adx(b, diLen, adxLen)
  {
    MirrorMoves(b);
    MirrorRanges(b);
    DxIsSymmetric(DiPlus(b, diLen), DiMinus(b, diLen));
  }

  lemma DxIsSymmetric(p: Series, m: Series)
    requires |p| == |m|
    ensures DxSeries(m, p) == DxSeries(p, m)
  {
    forall i | 0 <= i < |p| && p[i].Some? && m[i].Some? && p[i].value + m[i].value > 0.0
      ensures Dx(m[i].value, p[i].value) == Dx(p[i].value, m[i].value)
    {
      assert Abs(m[i].value - p[i].value) == Abs(p[i].value - m[i].value);
    }
  }
}
