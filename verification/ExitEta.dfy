/** Exit planner: the search for the first minute at which a position is worth its
    profit target, and the six estimates made from it. */
module ExitEta {
  import opened Basics

  /** One search: value now, target value, decay per minute, the move's static effect,
      the horizon in minutes and the step in minutes. */
  datatype Search = Search(now: real, target: real, theta: real, bump: real, horizon: int, step: real)

  function By(k: int, step: real): real { k as real * step }

  function Bump(delta: real, gamma: real, move: real): real { delta * move + 0.5 * gamma * move * move }

  function Decay(theta: real, t: real): real { theta * t }

  /** The estimated value after t minutes is at or below the target. */
  predicate Reached(s: Search, t: real) { s.now - Decay(s.theta, t) + s.bump <= s.target }

  predicate InHorizon(s: Search, t: real) { t <= s.horizon as real }

  /** Step k is the first one at which the target is reached. */
  ghost predicate FirstHit(s: Search, k: nat) {
    && Reached(s, By(k, s.step))
    && (forall j: nat | j < k :: !Reached(s, By(j, s.step)))
  }

  ghost predicate HitWithin(s: Search, k: nat) {
    FirstHit(s, k) && InHorizon(s, By(k, s.step))
  }

  /** The estimate: 0 when already there, else the rounded minute of the first hit
      within the horizon, else nothing. */
  ghost predicate IsEta(s: Search, r: Option<int>) {
    if s.now <= s.target then r == Some(0)
    else match r
         case Some(m) => exists k: nat :: HitWithin(s, k) && m == RoundHalfEven(By(k, s.step))
         case None => forall k: nat :: !HitWithin(s, k)
  }

  lemma ByOrdered(j: int, k: int, step: real)
    requires j <= k && step > 0.0
    ensures By(j, step) <= By(k, step) && (j < k ==> By(j, step) < By(k, step))
  {
    assert (k - j) as real * step >= 0.0;
    assert j < k ==> (k - j) as real * step > 0.0;
    assert By(k, step) - By(j, step) == (k - j) as real * step;
  }

  lemma StepsExceed(horizon: int, step: real) returns (n: int)
    requires step > 0.0
    ensures By(n, step) > horizon as real
  {
    var q := horizon as real / step;
    n := q.Floor + 1;
    assert n as real > q;
    assert n as real * step > q * step;
  }

  method EstimateSingleTarget(s: Search) returns (r: Option<int>)
    requires s.step > 0.0
    ensures IsEta(s, r)
  {
    if s.now <= s.target {
      return Some(0);
    }
    var t := 0.0;
    ghost var k: nat := 0;
    ghost var n := StepsExceed(s.horizon, s.step);
    while t <= s.horizon as real
      invariant t == By(k, s.step)
      invariant forall j: nat | j < k :: !Reached(s, By(j, s.step))
      decreases n - k
    {
      if n <= k { ByOrdered(n, k, s.step); }
      if s.now - s.theta * t + s.bump <= s.target {
        assert HitWithin(s, k);
        return Some(RoundHalfEven(t));
      }
      t := t + s.step;
      k := k + 1;
    }
    r := None;
    forall j: nat ensures !HitWithin(s, j) {
      if j >= k { ByOrdered(k, j, s.step); }
    }
  }

  /** The estimate is a function of the search. */
  lemma EtaIsUnique(s: Search, r: Option<int>, r': Option<int>)
    requires IsEta(s, r) && IsEta(s, r')
    ensures r == r'
  {
    if s.now > s.target && r.Some? && r'.Some? {
      var k: nat :| HitWithin(s, k) && r.value == RoundHalfEven(By(k, s.step));
      var k': nat :| HitWithin(s, k') && r'.value == RoundHalfEven(By(k', s.step));
      assert k == k';
    }
  }

  // ----- order between estimates -----

  /** Minutes compared with "never" as the largest. */
  predicate NoLater(x: Option<int>, y: Option<int>) { y == None || (x.Some? && x.value <= y.value) }

  lemma {:induction false} SomeFirstHit(s: Search, k: nat) returns (f: nat)
    requires Reached(s, By(k, s.step))
    ensures f <= k && FirstHit(s, f)
  {
    if exists j: nat :: j < k && Reached(s, By(j, s.step)) {
      var j: nat :| j < k && Reached(s, By(j, s.step));
      f := SomeFirstHit(s, j);
    } else {
      f := k;
    }
  }

  /** s is s' with a target at least as high and an adverse effect at most as large. */
  predicate Easier(s: Search, s': Search) {
    && s == s'.(target := s.target, bump := s.bump)
    && s.target >= s'.target && s.bump <= s'.bump
  }

  lemma EasierHitsNoLater(s: Search, s': Search, k': nat) returns (k: nat)
    requires s.step > 0.0 && Easier(s, s') && HitWithin(s', k')
    ensures k <= k' && HitWithin(s, k)
    ensures 0 <= RoundHalfEven(By(k, s.step)) <= RoundHalfEven(By(k', s.step))
  {
    assert Reached(s, By(k', s.step));
    k := SomeFirstHit(s, k');
    ByOrdered(0, k, s.step);
    ByOrdered(k, k', s.step);
    RoundHalfEvenMonotone(0.0, By(k, s.step));
    RoundHalfEvenMonotone(By(k, s.step), By(k', s.step));
  }

  /** A higher target and a smaller adverse effect are never reached later. */
  lemma EtaMonotone(s: Search, s': Search, r: Option<int>, r': Option<int>)
    requires s.step > 0.0 && Easier(s, s') && IsEta(s, r) && IsEta(s', r')
    ensures NoLater(r, r')
  {
    if r'.Some? && s'.now > s'.target {
      var k': nat :| HitWithin(s', k') && r'.value == RoundHalfEven(By(k', s.step));
      var k := EasierHitsNoLater(s, s', k');
      if s.now > s.target {
        EtaIsUnique(s, r, Some(RoundHalfEven(By(k, s.step))));
      }
    }
  }

  // ----- closed form -----

  function Ceil(x: real): int { -((-x).Floor) }

  /** The whole steps of size c needed to cover a distance d, none for d <= 0. */
  function StepsFor(d: real, c: real): nat
    requires c > 0.0
  {
    var n := Ceil(d / c);
    if n < 0 then 0 else n
  }

  lemma StepsForMeaning(d: real, c: real, k: nat)
    requires c > 0.0
    ensures d <= By(k, c) <==> StepsFor(d, c) <= k
  {
    var q := d / c;
    assert d == q * c;
    if q <= k as real {
      assert q * c <= k as real * c;
    } else {
      assert q * c > k as real * c;
    }
  }

  lemma DecayPositive(theta: real, step: real)
    requires theta > 0.0 && step > 0.0
    ensures Decay(theta, step) > 0.0
  {
  }

  lemma DecayOfSteps(theta: real, step: real, k: nat)
    ensures Decay(theta, By(k, step)) == By(k, Decay(theta, step))
  {
  }

  /** The steps the decay needs to cover the distance to the target. */
  function StepsNeeded(s: Search): nat
    requires s.theta > 0.0 && s.step > 0.0
  {
    DecayPositive(s.theta, s.step);
    StepsFor(s.now + s.bump - s.target, Decay(s.theta, s.step))
  }

  lemma ReachedIff(s: Search, k: nat)
    requires s.theta > 0.0 && s.step > 0.0
    ensures Reached(s, By(k, s.step)) <==> StepsNeeded(s) <= k
  {
    DecayPositive(s.theta, s.step);
    DecayOfSteps(s.theta, s.step, k);
    StepsForMeaning(s.now + s.bump - s.target, Decay(s.theta, s.step), k);
  }

  /** With a positive decay the first hit is the ceiling of distance over decay per
      step; the loop finds it exactly when it lies within the horizon. */
  lemma ClosedForm(s: Search, r: Option<int>)
    requires s.theta > 0.0 && s.step > 0.0 && s.now > s.target && IsEta(s, r)
    ensures r == if InHorizon(s, By(StepsNeeded(s), s.step)) then Some(RoundHalfEven(By(StepsNeeded(s), s.step))) else None
  {
    var n := StepsNeeded(s);
    forall k: nat ensures Reached(s, By(k, s.step)) <==> n <= k { ReachedIff(s, k); }
    assert FirstHit(s, n);
    if InHorizon(s, By(n, s.step)) {
      assert HitWithin(s, n);
    }
  }

  /** Without decay the target is reached at once or never. */
  lemma NoDecay(s: Search, r: Option<int>)
    requires s.theta <= 0.0 && s.step > 0.0 && s.now > s.target && IsEta(s, r)
    ensures r == if s.now + s.bump <= s.target && s.horizon >= 0 then Some(0) else None
  {
    assert By(0, s.step) == 0.0;
    forall k: nat | Reached(s, By(k, s.step)) ensures Reached(s, 0.0) {
      ByOrdered(0, k, s.step);
      assert Decay(s.theta, By(k, s.step)) <= 0.0;
    }
    if s.now + s.bump <= s.target && s.horizon >= 0 {
      assert HitWithin(s, 0);
    }
  }

  // ----- the six estimates -----

  datatype Triple = Triple(flat: Option<int>, down: Option<int>, up: Option<int>)

  datatype Eta = Disabled(reason: string) | Enabled(to15: Triple, to25: Triple)

  /** A position; None stands for a value that is missing or not finite. */
  datatype Position = Position(credit: Option<real>, mark: Option<real>, spot: Option<real>,
                               thetaDay: Option<real>, delta: Option<real>, gamma: Option<real>)

  datatype Config = Config(enabled: bool, stepSeconds: int, maxMinutes: int)

  function TargetMark(credit: real, pct: int): real { credit * (1.0 - pct as real / 100.0) }

  function SearchFor(p: Position, c: Config, pct: int, move: real): Search
    requires p.credit.Some? && p.mark.Some? && p.thetaDay.Some? && p.delta.Some? && p.gamma.Some?
  {
    Search(p.mark.value, TargetMark(p.credit.value, pct), p.thetaDay.value / 390.0,
           Bump(p.delta.value, p.gamma.value, move), c.maxMinutes, c.stepSeconds as real / 60.0)
  }

  ghost predicate IsTriple(p: Position, c: Config, pct: int, move: real, t: Triple)
    requires p.credit.Some? && p.mark.Some? && p.thetaDay.Some? && p.delta.Some? && p.gamma.Some?
  {
    && IsEta(SearchFor(p, c, pct, 0.0), t.flat)
    && IsEta(SearchFor(p, c, pct, -move), t.down)
    && IsEta(SearchFor(p, c, pct, move), t.up)
  }

  /** The first guard that fails, in the order they are tested; move is the scenario
      move, None when neither volatility it is derived from is available. */
  function Refusal(p: Position, c: Config, move: Option<real>): Option<string> {
    if !c.enabled then Some("disabled")
    else if p.thetaDay == None || p.delta == None || p.gamma == None then Some("missing_greeks")
    else if p.credit == None || p.mark == None then Some("missing_price")
    else if p.spot == None || p.spot.value <= 0.0 then Some("missing_spot")
    else if c.stepSeconds <= 0 then Some("invalid_step")
    else if move == None then Some("missing_iv")
    else None
  }

  method EstimateTriple(p: Position, c: Config, pct: int, move: real) returns (t: Triple)
    requires c.stepSeconds > 0
    requires p.credit.Some? && p.mark.Some? && p.thetaDay.Some? && p.delta.Some? && p.gamma.Some?
    ensures IsTriple(p, c, pct, move, t)
  {
    var flat := EstimateSingleTarget(SearchFor(p, c, pct, 0.0));
    var down := EstimateSingleTarget(SearchFor(p, c, pct, -move));
    var up := EstimateSingleTarget(SearchFor(p, c, pct, move));
    t := Triple(flat, down, up);
  }

  method EstimateEta(p: Position, c: Config, move: Option<real>) returns (e: Eta)
    ensures Refusal(p, c, move).Some? ==> e == Disabled(Refusal(p, c, move).value)
    ensures Refusal(p, c, move) == None ==>
              && e.Enabled? && IsTriple(p, c, 15, move.value, e.to15) && IsTriple(p, c, 25, move.value, e.to25)
    ensures e.Enabled? <==>
              && c.enabled && p.thetaDay.Some? && p.delta.Some? && p.gamma.Some? && p.credit.Some? && p.mark.Some?
              && p.spot.Some? && p.spot.value > 0.0 && c.stepSeconds > 0 && move.Some?
    ensures e.Enabled? ==>
              && IsEstimate(p, c, 15, 0.0, e.to15.flat) && IsEstimate(p, c, 15, -move.value, e.to15.down)
              && IsEstimate(p, c, 15, move.value, e.to15.up)
              && IsEstimate(p, c, 25, 0.0, e.to25.flat) && IsEstimate(p, c, 25, -move.value, e.to25.down)
              && IsEstimate(p, c, 25, move.value, e.to25.up)
  {
    if Refusal(p, c, move).Some? {
      return Disabled(Refusal(p, c, move).value);
    }
    var to15 := EstimateTriple(p, c, 15, move.value);
    var to25 := EstimateTriple(p, c, 25, move.value);
    e := Enabled(to15, to25);
    TripleMeaning(p, c, 15, move.value, to15);
    TripleMeaning(p, c, 25, move.value, to25);
  }

  /** In every scenario the 25% target is never estimated before the 15% one,
      for a position opened for a credit; for a debit it is the other way round. */
  lemma LargerTargetIsLater(p: Position, c: Config, move: real, t15: Triple, t25: Triple)
    requires c.stepSeconds > 0
    requires p.credit.Some? && p.mark.Some? && p.thetaDay.Some? && p.delta.Some? && p.gamma.Some?
    requires IsTriple(p, c, 15, move, t15) && IsTriple(p, c, 25, move, t25)
    ensures p.credit.value >= 0.0 ==> NoLater(t15.flat, t25.flat) && NoLater(t15.down, t25.down) && NoLater(t15.up, t25.up)
    ensures p.credit.value <= 0.0 ==> NoLater(t25.flat, t15.flat) && NoLater(t25.down, t15.down) && NoLater(t25.up, t15.up)
  {
    if p.credit.value >= 0.0 {
      EtaMonotone(SearchFor(p, c, 15, 0.0), SearchFor(p, c, 25, 0.0), t15.flat, t25.flat);
      EtaMonotone(SearchFor(p, c, 15, -move), SearchFor(p, c, 25, -move), t15.down, t25.down);
      EtaMonotone(SearchFor(p, c, 15, move), SearchFor(p, c, 25, move), t15.up, t25.up);
    }
    if p.credit.value <= 0.0 {
      EtaMonotone(SearchFor(p, c, 25, 0.0), SearchFor(p, c, 15, 0.0), t25.flat, t15.flat);
      EtaMonotone(SearchFor(p, c, 25, -move), SearchFor(p, c, 15, -move), t25.down, t15.down);
      EtaMonotone(SearchFor(p, c, 25, move), SearchFor(p, c, 15, move), t25.up, t15.up);
    }
  }

  /** With short gamma one of the two moves is never later than the flat scenario;
      with long gamma one of them is never earlier. */
  lemma MovesBracketFlat(p: Position, c: Config, pct: int, move: real, t: Triple)
    requires c.stepSeconds > 0
    requires p.credit.Some? && p.mark.Some? && p.thetaDay.Some? && p.delta.Some? && p.gamma.Some?
    requires IsTriple(p, c, pct, move, t)
    ensures p.gamma.value <= 0.0 ==> NoLater(t.down, t.flat) || NoLater(t.up, t.flat)
    ensures p.gamma.value >= 0.0 ==> NoLater(t.flat, t.down) || NoLater(t.flat, t.up)
  {
    var flat, down, up := SearchFor(p, c, pct, 0.0), SearchFor(p, c, pct, -move), SearchFor(p, c, pct, move);
    BumpSigns(p.delta.value, p.gamma.value, move);
    if down.bump <= 0.0 { EtaMonotone(down, flat, t.down, t.flat); }
    if up.bump <= 0.0 { EtaMonotone(up, flat, t.up, t.flat); }
    if down.bump >= 0.0 { EtaMonotone(flat, down, t.flat, t.down); }
    if up.bump >= 0.0 { EtaMonotone(flat, up, t.flat, t.up); }
  }

  lemma BumpSigns(delta: real, gamma: real, move: real)
    ensures Bump(delta, gamma, 0.0) == 0.0
    ensures gamma <= 0.0 ==> Bump(delta, gamma, -move) <= 0.0 || Bump(delta, gamma, move) <= 0.0
    ensures gamma >= 0.0 ==> Bump(delta, gamma, -move) >= 0.0 || Bump(delta, gamma, move) >= 0.0
  {
    var square := move * move;
    assert square >= 0.0;
    assert gamma <= 0.0 ==> gamma * square <= 0.0;
    assert gamma >= 0.0 ==> gamma * square >= 0.0;
    assert 0.5 * gamma * move * move == 0.5 * (gamma * square);
    assert 0.5 * gamma * (-move) * (-move) == 0.5 * (gamma * square);
  }

  // ----- the estimates in terms of the position -----

  /** Minutes after k steps. */
  function Minutes(c: Config, k: int): real { (k * c.stepSeconds) as real / 60.0 }

  /** What the position is worth after some minutes, the spot having moved: its mark, less
      a trading day's decay in 390 minutes, plus delta and half of gamma on the move. */
  function WorthAfter(p: Position, move: real, minutes: real): real
    requires p.mark.Some? && p.thetaDay.Some? && p.delta.Some? && p.gamma.Some?
  {
    p.mark.value - p.thetaDay.value * minutes / 390.0 + p.delta.value * move + p.gamma.value * (move * move) / 2.0
  }

  /** A profit of pct percent of the credit is left in a position worth x. */
  predicate Earns(credit: real, pct: int, x: real) { 100.0 * (credit - x) >= pct as real * credit }

  predicate EarnsAfter(p: Position, c: Config, pct: int, move: real, k: int)
    requires p.credit.Some? && p.mark.Some? && p.thetaDay.Some? && p.delta.Some? && p.gamma.Some?
  {
    Earns(p.credit.value, pct, WorthAfter(p, move, Minutes(c, k)))
  }

  /** The profit is first earned at step k, within the horizon. */
  ghost predicate FirstEarned(p: Position, c: Config, pct: int, move: real, k: nat)
    requires p.credit.Some? && p.mark.Some? && p.thetaDay.Some? && p.delta.Some? && p.gamma.Some?
  {
    && EarnsAfter(p, c, pct, move, k) && Minutes(c, k) <= c.maxMinutes as real
    && forall j: nat | j < k :: !EarnsAfter(p, c, pct, move, j)
  }

  /** The estimate: 0 when the profit is there already, else the nearest minute of the
      first step that earns it within the horizon, else none. */
  ghost predicate IsEstimate(p: Position, c: Config, pct: int, move: real, r: Option<int>)
    requires p.credit.Some? && p.mark.Some? && p.thetaDay.Some? && p.delta.Some? && p.gamma.Some?
  {
    if Earns(p.credit.value, pct, p.mark.value) then r == Some(0)
    else match r
         case Some(m) => exists k: nat :: FirstEarned(p, c, pct, move, k) && IsRounded(Minutes(c, k), m)
         case None => forall k: nat :: !FirstEarned(p, c, pct, move, k)
  }

  lemma TargetEarns(credit: real, pct: int, x: real)
    ensures x <= TargetMark(credit, pct) <==> Earns(credit, pct, x)
  {
    var q := pct as real;
    assert credit * (1.0 - q / 100.0) == credit - credit * q / 100.0;
  }

  lemma StepMinutes(c: Config, k: int)
    ensures By(k, c.stepSeconds as real / 60.0) == Minutes(c, k)
  {
  }

  lemma WorthOf(p: Position, move: real, minutes: real)
    requires p.mark.Some? && p.thetaDay.Some? && p.delta.Some? && p.gamma.Some?
    ensures p.mark.value - Decay(p.thetaDay.value / 390.0, minutes) + Bump(p.delta.value, p.gamma.value, move) == WorthAfter(p, move, minutes)
  {
    assert 0.5 * p.gamma.value * move * move == p.gamma.value * (move * move) / 2.0;
    assert p.thetaDay.value / 390.0 * minutes == p.thetaDay.value * minutes / 390.0;
  }

  lemma ReachedEarns(p: Position, c: Config, pct: int, move: real, k: int)
    requires p.credit.Some? && p.mark.Some? && p.thetaDay.Some? && p.delta.Some? && p.gamma.Some?
    ensures var s := SearchFor(p, c, pct, move);
      && (Reached(s, By(k, s.step)) <==> EarnsAfter(p, c, pct, move, k))
      && By(k, s.step) == Minutes(c, k) && (s.now <= s.target <==> Earns(p.credit.value, pct, p.mark.value))
  {
    StepMinutes(c, k);
    WorthOf(p, move, Minutes(c, k));
    TargetEarns(p.credit.value, pct, WorthAfter(p, move, Minutes(c, k)));
    TargetEarns(p.credit.value, pct, p.mark.value);
  }

  lemma HitIsFirstEarned(p: Position, c: Config, pct: int, move: real, k: nat)
    requires p.credit.Some? && p.mark.Some? && p.thetaDay.Some? && p.delta.Some? && p.gamma.Some?
    ensures HitWithin(SearchFor(p, c, pct, move), k) <==> FirstEarned(p, c, pct, move, k)
  {
    ReachedEarns(p, c, pct, move, k);
    forall j: nat | j < k ensures Reached(SearchFor(p, c, pct, move), By(j, SearchFor(p, c, pct, move).step)) <==> EarnsAfter(p, c, pct, move, j) {
      ReachedEarns(p, c, pct, move, j);
    }
  }

  lemma EstimateMeaning(p: Position, c: Config, pct: int, move: real, r: Option<int>)
    requires p.credit.Some? && p.mark.Some? && p.thetaDay.Some? && p.delta.Some? && p.gamma.Some?
    requires IsEta(SearchFor(p, c, pct, move), r)
    ensures IsEstimate(p, c, pct, move, r)
  {
    var s := SearchFor(p, c, pct, move);
    ReachedEarns(p, c, pct, move, 0);
    forall k: nat ensures HitWithin(s, k) <==> FirstEarned(p, c, pct, move, k) {
      HitIsFirstEarned(p, c, pct, move, k);
    }
    if !(s.now <= s.target) && r.Some? {
      var k: nat :| HitWithin(s, k) && r.value == RoundHalfEven(By(k, s.step));
      StepMinutes(c, k);
      RoundHalfEvenMeaning(Minutes(c, k), r.value);
    }
  }

  /** The three scenarios: the spot as it is, down by the move, and up by it. */
  lemma TripleMeaning(p: Position, c: Config, pct: int, move: real, t: Triple)
    requires p.credit.Some? && p.mark.Some? && p.thetaDay.Some? && p.delta.Some? && p.gamma.Some?
    requires IsTriple(p, c, pct, move, t)
    ensures IsEstimate(p, c, pct, 0.0, t.flat) && IsEstimate(p, c, pct, -move, t.down) && IsEstimate(p, c, pct, move, t.up)
  {
    EstimateMeaning(p, c, pct, 0.0, t.flat);
    EstimateMeaning(p, c, pct, -move, t.down);
    EstimateMeaning(p, c, pct, move, t.up);
  }

  /** Which values an estimate needs: the greeks, the prices, a positive spot, a positive
      step and a scenario move, looked at in this order. */
  lemma RefusalMeaning(p: Position, c: Config, move: Option<real>)
    ensures var greeks := p.thetaDay.Some? && p.delta.Some? && p.gamma.Some?;
      var prices, spot := p.credit.Some? && p.mark.Some?, p.spot.Some? && p.spot.value > 0.0;
      && (Refusal(p, c, move) == None <==> c.enabled && greeks && prices && spot && c.stepSeconds > 0 && move.Some?)
      && (Refusal(p, c, move) == Some("disabled") <==> !c.enabled)
      && (Refusal(p, c, move) == Some("missing_greeks") <==> c.enabled && !greeks)
      && (Refusal(p, c, move) == Some("missing_price") <==> c.enabled && greeks && !prices)
      && (Refusal(p, c, move) == Some("missing_spot") <==> c.enabled && greeks && prices && !spot)
      && (Refusal(p, c, move) == Some("invalid_step") <==> c.enabled && greeks && prices && spot && c.stepSeconds <= 0)
  {
  }
}
