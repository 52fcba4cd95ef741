/** Snapping a limit price to the broker's price increment. */
module Pricing {
  import opened Basics

  function Times(n: int, step: real): real { n as real * step }

  /** The nearest multiple of the step, halves away from zero; a positive price is
      never snapped below one step. */
  function Snap(x: real, step: real): real
    requires step > 0.0
  {
    var s := Times(RoundHalfUp(x / step), step);
    if x > 0.0 then Max(step, s) else s
  }

  /** The prices the broker accepts for x: multiples of the step, positive when x is. */
  ghost predicate IsAllowed(p: real, x: real, step: real) {
    exists n: int :: p == Times(n, step) && (x > 0.0 ==> n >= 1)
  }

  lemma TimesMonotone(m: int, n: int, step: real)
    requires step > 0.0
    ensures m <= n <==> Times(m, step) <= Times(n, step)
  {
    assert Times(n, step) - Times(m, step) == (n - m) as real * step;
    if m <= n {
      assert (n - m) as real * step >= 0.0;
    } else {
      assert (m - n) as real * step > 0.0;
    }
  }

  /** The multiple picked, before the floor of one step. */
  function Ticks(x: real, step: real): int
    requires step > 0.0
  {
    var n := RoundHalfUp(x / step);
    if x > 0.0 && n < 1 then 1 else n
  }

  lemma SnapIsTicks(x: real, step: real)
    requires step > 0.0
    ensures Snap(x, step) == Times(Ticks(x, step), step)
  {
    TimesMonotone(1, RoundHalfUp(x / step), step);
    assert Times(1, step) == step;
  }

  lemma QuotientBounds(x: real, step: real, n: int, slack: real)
    requires step > 0.0
    ensures n as real - x / step <= slack <==> Times(n, step) - x <= slack * step
    ensures x / step - n as real <= slack <==> x - Times(n, step) <= slack * step
  {
    var q := x / step;
    assert q * step == x;
    assert (n as real - q) * step == Times(n, step) - x;
    Scaled(n as real - q, slack, step);
    Scaled(q - n as real, slack, step);
  }

  lemma Scaled(a: real, b: real, step: real)
    requires step > 0.0
    ensures a <= b <==> a * step <= b * step
  {
    assert (b - a) * step == b * step - a * step;
    if a <= b {
      assert (b - a) * step >= 0.0;
    } else {
      assert (a - b) * step > 0.0;
    }
  }

  /** Multiple of the step, positive for a positive price, and within half a step of
      the price unless the price lies below half a step and gets a whole one. */
  lemma SnapIsAllowedAndNear(x: real, step: real)
    requires step > 0.0
    ensures IsAllowed(Snap(x, step), x, step)
    ensures 0.0 < x && 2.0 * x < step ==> Snap(x, step) == step
    ensures !(0.0 < x && 2.0 * x < step) ==> -0.5 * step <= Snap(x, step) - x <= 0.5 * step
  {
    SnapIsTicks(x, step);
    var n := RoundHalfUp(x / step);
    RoundHalfUpIsNearest(x / step);
    QuotientBounds(x, step, n, 0.5);
    QuotientBounds(x, step, 0, 0.5);
    assert Times(0, step) == 0.0 && Times(1, step) == step;
    if x > 0.0 {
      assert x / step > 0.0;
      if n < 1 {
        assert x / step < 0.5;
        SmallQuotient(x, step);
      }
    }
  }

  lemma SmallQuotient(x: real, step: real)
    requires step > 0.0
    ensures x / step < 0.5 <==> 2.0 * x < step
  {
    var q := x / step;
    assert q * step == x;
    Scaled(0.5, q, step);
  }

  lemma OtherMultipleIsFarther(x: real, k: int, n: int, step: real)
    requires step > 0.0 && -0.5 * step <= Times(k, step) - x <= 0.5 * step
    ensures Abs(Times(k, step) - x) <= Abs(Times(n, step) - x)
  {
    assert Times(k - 1, step) == Times(k, step) - step && Times(k + 1, step) == Times(k, step) + step;
    if n < k {
      TimesMonotone(n, k - 1, step);
    } else if n > k {
      TimesMonotone(k + 1, n, step);
    }
  }

  /** No accepted price is closer. */
  lemma SnapIsNearest(x: real, step: real, p: real)
    requires step > 0.0 && IsAllowed(p, x, step)
    ensures Abs(Snap(x, step) - x) <= Abs(p - x)
  {
    SnapIsTicks(x, step);
    SnapIsAllowedAndNear(x, step);
    var n: int :| p == Times(n, step) && (x > 0.0 ==> n >= 1);
    if 0.0 < x && 2.0 * x < step {
      TimesMonotone(1, n, step);
      assert Times(1, step) == step;
    } else {
      OtherMultipleIsFarther(x, Ticks(x, step), n, step);
    }
  }

  lemma QuotientOrdered(x: real, y: real, step: real)
    requires step > 0.0
    ensures x <= y <==> x / step <= y / step
  {
    var q, r := x / step, y / step;
    assert q * step == x && r * step == y;
    Scaled(q, r, step);
  }

  lemma TicksMonotone(x: real, y: real, step: real)
    requires step > 0.0 && x <= y
    ensures Ticks(x, step) <= Ticks(y, step)
  {
    QuotientOrdered(x, y, step);
    RoundHalfUpMonotone(x / step, y / step);
    QuotientOrdered(x, 0.0, step);
    if x <= 0.0 {
      RoundHalfUpMonotone(x / step, 0.0);
    }
  }

  lemma SnapMonotone(x: real, y: real, step: real)
    requires step > 0.0 && x <= y
    ensures Snap(x, step) <= Snap(y, step)
  {
    SnapIsTicks(x, step);
    SnapIsTicks(y, step);
    TicksMonotone(x, y, step);
    TimesMonotone(Ticks(x, step), Ticks(y, step), step);
  }

  /** An accepted price is left alone; hence snapping twice is snapping once. */
  lemma SnapFixesAllowed(x: real, step: real)
    requires step > 0.0
    ensures Snap(x, step) == x <==> IsAllowed(x, x, step)
  {
    SnapIsAllowedAndNear(x, step);
    if IsAllowed(x, x, step) {
      SnapIsNearest(x, step, x);
    }
  }

  lemma SnapPositive(x: real, step: real)
    requires step > 0.0
    ensures x > 0.0 ==> Snap(x, step) >= step
  {
  }

  lemma SnapTwice(x: real, step: real)
    requires step > 0.0
    ensures Snap(Snap(x, step), step) == Snap(x, step)
  {
    SnapIsTicks(x, step);
    var k := Ticks(x, step);
    var s := Times(k, step);
    TimesMonotone(1, k, step);
    TimesMonotone(k, 0, step);
    assert Times(1, step) == step && Times(0, step) == 0.0;
    assert s == Times(k, step) && (s > 0.0 ==> k >= 1);
    assert IsAllowed(s, s, step);
    SnapFixesAllowed(s, step);
  }

  /** A warning is attached exactly when no accepted price lies within 1e-9. */
  predicate Warns(x: real, step: real)
    requires step > 0.0
  {
    !(Abs(Snap(x, step) - x) < 0.000000001)
  }

  lemma WarnsIffNoAllowedPriceNear(x: real, step: real)
    requires step > 0.0
    ensures Warns(x, step) <==> forall p | IsAllowed(p, x, step) :: Abs(p - x) >= 0.000000001
  {
    SnapIsAllowedAndNear(x, step);
    forall p | IsAllowed(p, x, step) ensures Abs(Snap(x, step) - x) <= Abs(p - x) {
      SnapIsNearest(x, step, p);
    }
  }

  // ----- cents -----

  /** round(value + 1e-9, 2) */
  function RoundPrice(x: real): real { RoundHalfEven((x + 0.000000001) * 100.0) as real / 100.0 }

  lemma RoundPriceMonotone(x: real, y: real)
    requires x <= y
    ensures RoundPrice(x) <= RoundPrice(y)
  {
    RoundHalfEvenMonotone((x + 0.000000001) * 100.0, (y + 0.000000001) * 100.0);
  }

  lemma RoundPriceNear(x: real)
    ensures -0.005 <= RoundPrice(x) - (x + 0.000000001) <= 0.005
  {
    RoundHalfEvenIsNearest((x + 0.000000001) * 100.0);
  }
}
