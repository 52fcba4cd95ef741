/** The iron condor picker: option points from a dictionary of greeks, the
    delta-neutral adjustment loop, and the choice of the wings. */
module CondorPicker {
  import opened Basics
  import opened OptionSymbols

  /** A streamed greek; None is a delta that is missing or not finite. */
  datatype Greek = Greek(delta: Option<real>)

  /** A dictionary in insertion order, each key once. */
  type Dict = seq<(string, Greek)>

  datatype OptionPoint = OptionPoint(eventSymbol: string, right: char, strike: real, delta: real)

  datatype Condor = Condor(shortPut: OptionPoint, longPut: OptionPoint, shortCall: OptionPoint, longCall: OptionPoint)

  /** Entries whose symbol parses and whose delta is a number. */
  function PointsWith(parse: string -> Option<ParsedOption>, d: Dict): seq<OptionPoint> {
    if d == [] then []
    else
      var (symbol, g) := d[|d| - 1];
      PointsWith(parse, d[..|d| - 1]) + PointFrom(symbol, parse(symbol), g)
  }

  function PointFrom(symbol: string, parsed: Option<ParsedOption>, g: Greek): seq<OptionPoint> {
    if parsed == None || g.delta == None then []
    else [OptionPoint(symbol, parsed.value.right, parsed.value.strike, g.delta.value)]
  }

  /** _to_option_points */
  function ToOptionPoints(d: Dict): seq<OptionPoint> {
    PointsWith(Parse, d)
  }

  // ----- min(..., key=...) -----

  function Filter(s: seq<OptionPoint>, keep: OptionPoint -> bool): seq<OptionPoint> {
    if s == [] then []
    else
      var n := |s| - 1;
      if keep(s[n]) then Filter(s[..n], keep) + [s[n]] else Filter(s[..n], keep)
  }

  /** The first element with the smallest key. */
  function MinBy(s: seq<OptionPoint>, key: OptionPoint -> real): OptionPoint
    requires s != []
  {
    var n := |s| - 1;
    if n == 0 then s[0]
    else
      var m := MinBy(s[..n], key);
      if key(s[n]) < key(m) then s[n] else m
  }

  ghost predicate FirstArgMin(s: seq<OptionPoint>, key: OptionPoint -> real, i: nat) {
    && i < |s|
    && (forall j | 0 <= j < i :: key(s[i]) < key(s[j]))
    && (forall j | i <= j < |s| :: key(s[i]) <= key(s[j]))
  }

  lemma {:induction false} MinByIsFirst(s: seq<OptionPoint>, key: OptionPoint -> real) returns (i: nat)
    requires s != []
    ensures FirstArgMin(s, key, i) && MinBy(s, key) == s[i]
  {
    var n := |s| - 1;
    if n == 0 {
      i := 0;
    } else {
      i := MinByIsFirst(s[..n], key);
      assert forall j | 0 <= j < n :: s[..n][j] == s[j];
      if key(s[n]) < key(s[i]) {
        i := n;
      }
    }
  }

  lemma {:induction false} FilterMeaning(s: seq<OptionPoint>, keep: OptionPoint -> bool, x: OptionPoint)
    ensures x in Filter(s, keep) <==> x in s && keep(x)
  {
    if s != [] {
      var n := |s| - 1;
      FilterMeaning(s[..n], keep, x);
      assert s == s[..n] + [s[n]];
    }
  }

  lemma MinByAfter(kept: seq<OptionPoint>, x: OptionPoint, key: OptionPoint -> real)
    requires kept != []
    ensures MinBy(kept + [x], key) == if key(x) < key(MinBy(kept, key)) then x else MinBy(kept, key)
  {
    assert (kept + [x])[..|kept|] == kept;
  }

  lemma FilterAfter(before: seq<OptionPoint>, x: OptionPoint, keep: OptionPoint -> bool)
    ensures Filter(before + [x], keep) == if keep(x) then Filter(before, keep) + [x] else Filter(before, keep)
  {
    assert (before + [x])[..|before|] == before;
  }

  /** What a filter keeps is never below the minimum. */
  lemma KeptIsNotLess(s: seq<OptionPoint>, keep: OptionPoint -> bool, key: OptionPoint -> real)
    requires Filter(s, keep) != []
    ensures s != [] && key(MinBy(s, key)) <= key(MinBy(Filter(s, keep), key))
  {
    var kept := Filter(s, keep);
    var i := MinByIsFirst(kept, key);
    FilterMeaning(s, keep, kept[i]);
    MinIsLeast(s, key, kept[i]);
  }

  /** If the minimum of the whole list passes the filter, it is the minimum of what
      the filter keeps, ties included. */
  lemma {:induction false} MinOfFilter(s: seq<OptionPoint>, keep: OptionPoint -> bool, key: OptionPoint -> real)
    requires s != [] && keep(MinBy(s, key))
    ensures Filter(s, keep) != [] && MinBy(Filter(s, keep), key) == MinBy(s, key)
  {
    var n := |s| - 1;
    var before, x := s[..n], s[n];
    assert s == before + [x];
    FilterAfter(before, x, keep);
    if n > 0 {
      var kept := Filter(before, keep);
      MinByAfter(before, x, key);
      if kept != [] {
        KeptIsNotLess(before, keep, key);
        MinByAfter(kept, x, key);
      }
      if !(key(x) < key(MinBy(before, key))) {
        MinOfFilter(before, keep, key);
      }
    }
  }

  lemma MinIsLeast(s: seq<OptionPoint>, key: OptionPoint -> real, x: OptionPoint)
    requires s != [] && x in s
    ensures key(MinBy(s, key)) <= key(x) && MinBy(s, key) in s
  {
    var i := MinByIsFirst(s, key);
  }

  // ----- the short legs -----

  function OfRight(right: char): OptionPoint -> bool { (p: OptionPoint) => p.right == right }

  function DeltaGap(target: real): OptionPoint -> real { (p: OptionPoint) => Abs(p.delta - target) }

  function StrikeGap(target: real): OptionPoint -> real { (p: OptionPoint) => Abs(p.strike - target) }

  function Below(right: char, strike: real): OptionPoint -> bool { (p: OptionPoint) => p.right == right && p.strike < strike }

  function Above(right: char, strike: real): OptionPoint -> bool { (p: OptionPoint) => p.right == right && p.strike > strike }

  function PickByTargetDelta(points: seq<OptionPoint>, right: char, target: real): Option<OptionPoint> {
    var same := Filter(points, OfRight(right));
    if same == [] then None else Some(MinBy(same, DeltaGap(target)))
  }

  function NearestStrike(points: seq<OptionPoint>, right: char, target: real): Option<OptionPoint> {
    var same := Filter(points, OfRight(right));
    if same == [] then None else Some(MinBy(same, StrikeGap(target)))
  }

  /** The nearest delta moves in the direction of the target, ties included. */
  lemma NearestDeltaMonotone(s: seq<OptionPoint>, t: real, u: real)
    requires s != [] && t <= u
    ensures MinBy(s, DeltaGap(t)).delta <= MinBy(s, DeltaGap(u)).delta
  {
    var i := MinByIsFirst(s, DeltaGap(t));
    var j := MinByIsFirst(s, DeltaGap(u));
    assert DeltaGap(t)(s[i]) <= DeltaGap(t)(s[j]);
    assert DeltaGap(u)(s[j]) <= DeltaGap(u)(s[i]);
  }

  datatype Settings = Settings(targetAbsDelta: real, wingWidth: real, deltaNeutral: bool,
                               neutralTol: real, adjustStep: real, maxAbsDelta: real)

  /** The two absolute delta targets. */
  datatype Targets = Targets(put: real, call: real)

  /** The condor may be built: both rights have at least four points. */
  predicate Enough(points: seq<OptionPoint>) {
    |Filter(points, OfRight('P'))| >= 4 && |Filter(points, OfRight('C'))| >= 4
  }

  function ShortPut(points: seq<OptionPoint>, absDelta: real): OptionPoint
    requires Enough(points)
  {
    MinBy(Filter(points, OfRight('P')), DeltaGap(-absDelta))
  }

  function ShortCall(points: seq<OptionPoint>, absDelta: real): OptionPoint
    requires Enough(points)
  {
    MinBy(Filter(points, OfRight('C')), DeltaGap(absDelta))
  }

  function NetDelta(points: seq<OptionPoint>, t: Targets): real
    requires Enough(points)
  {
    ShortPut(points, t.put).delta + ShortCall(points, t.call).delta
  }

  /** Moves one target a step towards the cap: the call's when the net delta is too
      negative, the put's otherwise. */
  function Nudge(c: Settings, t: Targets, net: real): Targets {
    if net < -c.neutralTol then t.(call := Min(c.maxAbsDelta, t.call + c.adjustStep))
    else t.(put := Min(c.maxAbsDelta, t.put + c.adjustStep))
  }

  predicate OverCap(c: Settings, t: Targets) {
    t.put > c.maxAbsDelta || t.call > c.maxAbsDelta
  }

  /** At most n nudges of the targets. */
  ghost function Adjust(points: seq<OptionPoint>, c: Settings, t: Targets, n: nat): Targets
    requires Enough(points)
    decreases n
  {
    if n == 0 || Abs(NetDelta(points, t)) <= c.neutralTol then t
    else
      var t' := Nudge(c, t, NetDelta(points, t));
      if OverCap(c, t') then t' else Adjust(points, c, t', n - 1)
  }

  lemma AdjustStep(points: seq<OptionPoint>, c: Settings, t: Targets, n: nat)
    requires Enough(points) && n > 0 && !(Abs(NetDelta(points, t)) <= c.neutralTol)
    ensures var t' := Nudge(c, t, NetDelta(points, t));
      Adjust(points, c, t, n) == if OverCap(c, t') then t' else Adjust(points, c, t', n - 1)
  {
  }

  ghost predicate Outward(points: seq<OptionPoint>, t: Targets, t': Targets)
    requires Enough(points)
  {
    && t.put <= t'.put && t.call <= t'.call
    && ShortCall(points, t.call).delta <= ShortCall(points, t'.call).delta
    && ShortPut(points, t'.put).delta <= ShortPut(points, t.put).delta
  }

  lemma CallMovesUp(points: seq<OptionPoint>, a: real, b: real)
    requires Enough(points) && a <= b
    ensures ShortCall(points, a).delta <= ShortCall(points, b).delta
  {
    NearestDeltaMonotone(Filter(points, OfRight('C')), a, b);
  }

  lemma PutMovesDown(points: seq<OptionPoint>, a: real, b: real)
    requires Enough(points) && a <= b
    ensures ShortPut(points, b).delta <= ShortPut(points, a).delta
  {
    NearestDeltaMonotone(Filter(points, OfRight('P')), -b, -a);
  }

  lemma NudgeGrows(c: Settings, t: Targets, net: real)
    requires c.adjustStep >= 0.0 && !OverCap(c, t)
    ensures var t' := Nudge(c, t, net);
      t.put <= t'.put && t.call <= t'.call && !OverCap(c, t')
  {
  }

  lemma NudgeMovesOutward(points: seq<OptionPoint>, c: Settings, t: Targets, net: real)
    requires Enough(points) && c.adjustStep >= 0.0 && !OverCap(c, t)
    ensures Outward(points, t, Nudge(c, t, net)) && !OverCap(c, Nudge(c, t, net))
  {
    var t' := Nudge(c, t, net);
    NudgeGrows(c, t, net);
    CallMovesUp(points, t.call, t'.call);
    PutMovesDown(points, t.put, t'.put);
  }

  /** With a non-negative step and targets within the cap, adjusting only moves the
      short call to higher and the short put to lower deltas, and both targets stay
      within the cap. */
  lemma {:induction false} AdjustMovesOutward(points: seq<OptionPoint>, c: Settings, t: Targets, n: nat)
    requires Enough(points) && c.adjustStep >= 0.0 && !OverCap(c, t)
    ensures Outward(points, t, Adjust(points, c, t, n)) && !OverCap(c, Adjust(points, c, t, n))
    decreases n
  {
    if n > 0 && !(Abs(NetDelta(points, t)) <= c.neutralTol) {
      NudgeMovesOutward(points, c, t, NetDelta(points, t));
      AdjustMovesOutward(points, c, Nudge(c, t, NetDelta(points, t)), n - 1);
    }
  }

  /** More nudges than n would be made only from a position that is still not
      neutral: a neutral outcome is final. */
  lemma {:induction false} NeutralIsFinal(points: seq<OptionPoint>, c: Settings, t: Targets, n: nat, m: nat)
    requires Enough(points) && n <= m
    requires Abs(NetDelta(points, Adjust(points, c, t, n))) <= c.neutralTol
    ensures Adjust(points, c, t, m) == Adjust(points, c, t, n)
    decreases n
  {
    if n > 0 && !(Abs(NetDelta(points, t)) <= c.neutralTol) {
      var t' := Nudge(c, t, NetDelta(points, t));
      if !OverCap(c, t') {
        NeutralIsFinal(points, c, t', n - 1, m - 1);
      }
    }
  }

  // ----- the wings -----

  /** The wing: the first point, among those strictly on the outer side of the
      short strike, whose strike is nearest to the wing target. */
  function Wing(outer: seq<OptionPoint>, target: real): Option<OptionPoint> {
    if outer == [] then None else Some(MinBy(outer, StrikeGap(target)))
  }

  lemma {:induction false} FilterTwice(s: seq<OptionPoint>, right: char, strike: real)
    ensures Filter(Filter(s, OfRight(right)), Below(right, strike)) == Filter(s, Below(right, strike))
    ensures Filter(Filter(s, OfRight(right)), Above(right, strike)) == Filter(s, Above(right, strike))
  {
    if s != [] {
      var n := |s| - 1;
      FilterTwice(s[..n], right, strike);
      if s[n].right == right {
        var f := Filter(s[..n], OfRight(right));
        assert (f + [s[n]])[..|f|] == f;
      }
    }
  }

  /** Snapping to the nearest strike and then correcting an inversion picks the same
      wing as looking only at the outer side from the start. */
  lemma WingBySnapping(points: seq<OptionPoint>, right: char, strike: real, target: real)
    requires Filter(points, OfRight(right)) != []
    ensures var near := NearestStrike(points, right, target).value;
      && near.right == right
      && (near.strike < strike ==> Wing(Filter(points, Below(right, strike)), target) == Some(near))
      && (near.strike > strike ==> Wing(Filter(points, Above(right, strike)), target) == Some(near))
  {
    var same := Filter(points, OfRight(right));
    var near := MinBy(same, StrikeGap(target));
    MinIsLeast(same, StrikeGap(target), same[0]);
    FilterMeaning(points, OfRight(right), near);
    FilterTwice(points, right, strike);
    if near.strike < strike {
      MinOfFilter(same, Below(right, strike), StrikeGap(target));
    }
    if near.strike > strike {
      MinOfFilter(same, Above(right, strike), StrikeGap(target));
    }
  }

  ghost function Shorts(points: seq<OptionPoint>, c: Settings): Targets
    requires Enough(points)
  {
    var t := Targets(c.targetAbsDelta, c.targetAbsDelta);
    if c.deltaNeutral then Adjust(points, c, t, 10) else t
  }

  ghost function WithWings(points: seq<OptionPoint>, sp: OptionPoint, sc: OptionPoint, width: real): Option<Condor> {
    var lp := Wing(Filter(points, Below('P', sp.strike)), sp.strike - width);
    var lc := Wing(Filter(points, Above('C', sc.strike)), sc.strike + width);
    if lp == None || lc == None then None else Some(Condor(sp, lp.value, sc, lc.value))
  }

  /** The complete condor: who the legs are, and when there is one at all. */
  ghost function CondorOf(points: seq<OptionPoint>, c: Settings): Option<Condor> {
    if !Enough(points) then None
    else
      var t := Shorts(points, c);
      WithWings(points, ShortPut(points, t.put), ShortCall(points, t.call), c.wingWidth)
  }

  /** Snap a wing to the nearest listed strike; correct an inversion. */
  method PickWing(pts: seq<OptionPoint>, right: char, strike: real, target: real, below: bool) returns (wing: Option<OptionPoint>)
    requires Filter(pts, OfRight(right)) != []
    ensures below ==> wing == Wing(Filter(pts, Below(right, strike)), target)
    ensures !below ==> wing == Wing(Filter(pts, Above(right, strike)), target)
  {
    WingBySnapping(pts, right, strike, target);
    wing := NearestStrike(pts, right, target);
    if (below && wing.value.strike >= strike) || (!below && wing.value.strike <= strike) {
      var outer := Filter(pts, if below then Below(right, strike) else Above(right, strike));
      if outer == [] {
        return None;
      }
      wing := Some(MinBy(outer, StrikeGap(target)));
    }
  }

  /** pick_condor_20delta_20wide */
  method PickCondor(d: Dict, c: Settings) returns (r: Option<Condor>)
    ensures r == CondorOf(ToOptionPoints(d), c)
    ensures r.Some? ==> IsCondor(ToOptionPoints(d), c, r.value)
  {
    var pts := ToOptionPoints(d);
    if |Filter(pts, OfRight('P'))| < 4 || |Filter(pts, OfRight('C'))| < 4 {
      return None;
    }
    CondorMeaning(pts, c);
    var sp, sc := PickShorts(pts, c);
    r := PickWings(pts, sp, sc, c.wingWidth);
  }

  method PickWings(pts: seq<OptionPoint>, sp: OptionPoint, sc: OptionPoint, width: real) returns (r: Option<Condor>)
    requires Enough(pts)
    ensures r == WithWings(pts, sp, sc, width)
  {
    var lp := PickWing(pts, 'P', sp.strike, sp.strike - width, true);
    var lc := PickWing(pts, 'C', sc.strike, sc.strike + width, false);
    if lp == None || lc == None {
      return None;
    }
    return Some(Condor(sp, lp.value, sc, lc.value));
  }

  lemma Picks(pts: seq<OptionPoint>, t: Targets)
    requires Enough(pts)
    ensures PickByTargetDelta(pts, 'P', -t.put) == Some(ShortPut(pts, t.put))
    ensures PickByTargetDelta(pts, 'C', t.call) == Some(ShortCall(pts, t.call))
  {
  }

  /** The short legs, with the loop that nudges one side in small steps. */
  method PickShorts(pts: seq<OptionPoint>, c: Settings) returns (sp: OptionPoint, sc: OptionPoint)
    requires Enough(pts)
    ensures sp == ShortPut(pts, Shorts(pts, c).put) && sc == ShortCall(pts, Shorts(pts, c).call)
    ensures AreShorts(pts, c, sp, sc)
  {
    ShortsMeaning(pts, c);
    var absd := Targets(c.targetAbsDelta, c.targetAbsDelta);
    Picks(pts, absd);
    sp := PickByTargetDelta(pts, 'P', -absd.put).value;
    sc := PickByTargetDelta(pts, 'C', absd.call).value;
    if c.deltaNeutral {
      sp, sc := AdjustShorts(pts, c, absd, sp, sc);
    }
  }

  method AdjustShorts(pts: seq<OptionPoint>, c: Settings, start: Targets, sp0: OptionPoint, sc0: OptionPoint)
    returns (sp: OptionPoint, sc: OptionPoint)
    requires Enough(pts) && sp0 == ShortPut(pts, start.put) && sc0 == ShortCall(pts, start.call)
    ensures var t := Adjust(pts, c, start, 10); sp == ShortPut(pts, t.put) && sc == ShortCall(pts, t.call)
    ensures AdjustsTo(pts, c, start, 10, sp, sc)
  {
    sp, sc := NudgeUpToTenTimes(pts, c, start, sp0, sc0);
    AdjustReaches(pts, c, start, 10);
  }

  method NudgeUpToTenTimes(pts: seq<OptionPoint>, c: Settings, start: Targets, sp0: OptionPoint, sc0: OptionPoint)
    returns (sp: OptionPoint, sc: OptionPoint)
    requires Enough(pts) && sp0 == ShortPut(pts, start.put) && sc0 == ShortCall(pts, start.call)
    ensures var t := Adjust(pts, c, start, 10); sp == ShortPut(pts, t.put) && sc == ShortCall(pts, t.call)
  {
    sp, sc := sp0, sc0;
    var absd := start;
    var k := 0;
    while k < 10
      invariant 0 <= k <= 10
      invariant sp == ShortPut(pts, absd.put) && sc == ShortCall(pts, absd.call)
      invariant Adjust(pts, c, start, 10) == Adjust(pts, c, absd, 10 - k)
    {
      if Abs(sp.delta + sc.delta) <= c.neutralTol {
        return;
      }
      AdjustStep(pts, c, absd, 10 - k);
      assert Adjust(pts, c, start, 10) == Adjust(pts, c, absd, 10 - k);
      absd, sp, sc := NudgeShorts(pts, c, absd, sp, sc);
      if absd.put > c.maxAbsDelta || absd.call > c.maxAbsDelta {
        return;
      }
      k := k + 1;
    }
  }

  method NudgeShorts(pts: seq<OptionPoint>, c: Settings, absd: Targets, sp: OptionPoint, sc: OptionPoint)
    returns (absd': Targets, sp': OptionPoint, sc': OptionPoint)
    requires Enough(pts) && sp == ShortPut(pts, absd.put) && sc == ShortCall(pts, absd.call)
    requires !(Abs(sp.delta + sc.delta) <= c.neutralTol)
    ensures absd' == Nudge(c, absd, NetDelta(pts, absd))
    ensures sp' == ShortPut(pts, absd'.put) && sc' == ShortCall(pts, absd'.call)
    ensures IsNudge(c, Stage(absd, sp, sc), Stage(absd', sp', sc'))
  {
    sp', sc' := sp, sc;
    var net := sp.delta + sc.delta;
    if net < -c.neutralTol {
      absd' := absd.(call := Min(c.maxAbsDelta, absd.call + c.adjustStep));
      Picks(pts, absd');
      sc' := PickByTargetDelta(pts, 'C', absd'.call).value;
    } else {
      assert net > c.neutralTol;
      absd' := absd.(put := Min(c.maxAbsDelta, absd.put + c.adjustStep));
      Picks(pts, absd');
      sp' := PickByTargetDelta(pts, 'P', -absd'.put).value;
    }
  }

  /** Entry i is the first among the points on the outer side that minimises the key. */
  ghost predicate FirstOn(points: seq<OptionPoint>, outer: OptionPoint -> bool, key: OptionPoint -> real, i: nat) {
    && i < |points| && outer(points[i])
    && (forall j | 0 <= j < i && outer(points[j]) :: key(points[i]) < key(points[j]))
    && (forall j | i <= j < |points| && outer(points[j]) :: key(points[i]) <= key(points[j]))
  }

  lemma FilterEmpty(points: seq<OptionPoint>, outer: OptionPoint -> bool)
    requires Filter(points, outer) == []
    ensures forall j | 0 <= j < |points| :: !outer(points[j])
  {
    forall j | 0 <= j < |points| ensures !outer(points[j]) {
      FilterMeaning(points, outer, points[j]);
    }
  }

  /** Adding a point: it becomes the first minimum only if it is strictly smaller. */
  lemma FirstOnAfter(before: seq<OptionPoint>, x: OptionPoint, outer: OptionPoint -> bool, key: OptionPoint -> real, i: nat)
    requires FirstOn(before, outer, key, i)
    ensures FirstOn(before + [x], outer, key, if outer(x) && key(x) < key(before[i]) then |before| else i)
  {
  }

  lemma {:induction false} MinOfFilterIsFirst(points: seq<OptionPoint>, outer: OptionPoint -> bool, key: OptionPoint -> real)
    returns (i: nat)
    requires Filter(points, outer) != []
    ensures FirstOn(points, outer, key, i) && points[i] == MinBy(Filter(points, outer), key)
  {
    var n := |points| - 1;
    var before, x := points[..n], points[n];
    assert points == before + [x];
    var kept := Filter(before, outer);
    if kept == [] {
      FilterEmpty(before, outer);
      i := n;
    } else {
      i := MinOfFilterIsFirst(before, outer, key);
      FirstOnAfter(before, x, outer, key, i);
      MinByAfter(kept, x, key);
      if outer(x) && key(x) < key(before[i]) {
        i := n;
      }
    }
  }

  lemma WingExists(points: seq<OptionPoint>, outer: OptionPoint -> bool, target: real)
    ensures Wing(Filter(points, outer), target).Some? <==> exists p :: p in points && outer(p)
  {
    var side := Filter(points, outer);
    if side != [] {
      FilterMeaning(points, outer, side[0]);
    }
    forall p | p in points && outer(p) ensures p in side {
      FilterMeaning(points, outer, p);
    }
  }

  /** A condor exists iff there are at least four puts and four calls and some put
      and some call lie strictly outside the chosen shorts. */
  lemma CondorExistsIff(points: seq<OptionPoint>, c: Settings)
    ensures CondorOf(points, c).Some? <==>
      && Enough(points)
      && (exists p :: p in points && Below('P', ShortPut(points, Shorts(points, c).put).strike)(p))
      && (exists q :: q in points && Above('C', ShortCall(points, Shorts(points, c).call).strike)(q))
  {
    if Enough(points) {
      var sp, sc := ShortPut(points, Shorts(points, c).put), ShortCall(points, Shorts(points, c).call);
      WingExists(points, Below('P', sp.strike), sp.strike - c.wingWidth);
      WingExists(points, Above('C', sc.strike), sc.strike + c.wingWidth);
    }
  }

  /** The legs of a condor, and that both wings have points to choose from. */
  lemma CondorLegs(points: seq<OptionPoint>, c: Settings)
    requires CondorOf(points, c).Some?
    ensures var r := CondorOf(points, c).value;
      && Filter(points, Below('P', r.shortPut.strike)) != [] && Filter(points, Above('C', r.shortCall.strike)) != []
      && r.longPut == MinBy(Filter(points, Below('P', r.shortPut.strike)), StrikeGap(r.shortPut.strike - c.wingWidth))
      && r.longCall == MinBy(Filter(points, Above('C', r.shortCall.strike)), StrikeGap(r.shortCall.strike + c.wingWidth))
  {
  }

  lemma PutWing(points: seq<OptionPoint>, short: real, target: real) returns (i: nat)
    requires Filter(points, Below('P', short)) != []
    ensures FirstOn(points, Below('P', short), StrikeGap(target), i) && points[i].strike < short
    ensures points[i] == MinBy(Filter(points, Below('P', short)), StrikeGap(target))
  {
    i := MinOfFilterIsFirst(points, Below('P', short), StrikeGap(target));
  }

  lemma CallWing(points: seq<OptionPoint>, short: real, target: real) returns (j: nat)
    requires Filter(points, Above('C', short)) != []
    ensures FirstOn(points, Above('C', short), StrikeGap(target), j) && short < points[j].strike
    ensures points[j] == MinBy(Filter(points, Above('C', short)), StrikeGap(target))
  {
    j := MinOfFilterIsFirst(points, Above('C', short), StrikeGap(target));
  }

  lemma LongPutIsFirst(points: seq<OptionPoint>, c: Settings, r: Condor) returns (i: nat)
    requires CondorOf(points, c) == Some(r)
    ensures FirstOn(points, Below('P', r.shortPut.strike), StrikeGap(r.shortPut.strike - c.wingWidth), i)
    ensures r.longPut == points[i] && r.longPut.strike < r.shortPut.strike
  {
    CondorLegs(points, c);
    i := PutWing(points, r.shortPut.strike, r.shortPut.strike - c.wingWidth);
  }

  lemma LongCallIsFirst(points: seq<OptionPoint>, c: Settings, r: Condor) returns (j: nat)
    requires CondorOf(points, c) == Some(r)
    ensures FirstOn(points, Above('C', r.shortCall.strike), StrikeGap(r.shortCall.strike + c.wingWidth), j)
    ensures r.longCall == points[j] && r.shortCall.strike < r.longCall.strike
  {
    CondorLegs(points, c);
    j := CallWing(points, r.shortCall.strike, r.shortCall.strike + c.wingWidth);
  }

  /** Each long leg is the first point strictly outside its short whose strike is
      nearest to the wing target. */
  lemma WingsAreFirstNearest(points: seq<OptionPoint>, c: Settings) returns (i: nat, j: nat)
    requires CondorOf(points, c).Some?
    ensures var r := CondorOf(points, c).value;
      && FirstOn(points, Below('P', r.shortPut.strike), StrikeGap(r.shortPut.strike - c.wingWidth), i)
      && r.longPut == points[i] && r.longPut.strike < r.shortPut.strike
      && FirstOn(points, Above('C', r.shortCall.strike), StrikeGap(r.shortCall.strike + c.wingWidth), j)
      && r.longCall == points[j] && r.shortCall.strike < r.longCall.strike
  {
    i := LongPutIsFirst(points, c, CondorOf(points, c).value);
    j := LongCallIsFirst(points, c, CondorOf(points, c).value);
  }

  /** Each short leg is the first point of its right nearest to the delta target. */
  lemma ShortsAreFirstNearest(points: seq<OptionPoint>, c: Settings) returns (i: nat, j: nat)
    requires Enough(points)
    ensures var t := Shorts(points, c);
      && FirstOn(points, OfRight('P'), DeltaGap(-t.put), i) && ShortPut(points, t.put) == points[i]
      && FirstOn(points, OfRight('C'), DeltaGap(t.call), j) && ShortCall(points, t.call) == points[j]
  {
    var t := Shorts(points, c);
    i := MinOfFilterIsFirst(points, OfRight('P'), DeltaGap(-t.put));
    j := MinOfFilterIsFirst(points, OfRight('C'), DeltaGap(t.call));
  }

  // ----- the picker told without its functions -----

  /** Point i is the first of its right whose delta is nearest to the target. */
  ghost predicate FirstNearestDelta(points: seq<OptionPoint>, right: char, target: real, i: nat) {
    && i < |points| && points[i].right == right
    && forall j | 0 <= j < |points| && points[j].right == right ::
         && Abs(points[i].delta - target) <= Abs(points[j].delta - target)
         && (j < i ==> Abs(points[i].delta - target) < Abs(points[j].delta - target))
  }

  ghost predicate NearestDelta(points: seq<OptionPoint>, right: char, target: real, p: OptionPoint) {
    exists i: nat :: FirstNearestDelta(points, right, target, i) && points[i] == p
  }

  /** Point i is the first of its right, strictly above or below a strike, whose strike is
      nearest to the target. */
  ghost predicate FirstNearestStrike(points: seq<OptionPoint>, right: char, above: bool, strike: real, target: real, i: nat) {
    && i < |points| && IsOuter(points[i], right, above, strike)
    && forall j | 0 <= j < |points| && IsOuter(points[j], right, above, strike) ::
         && Abs(points[i].strike - target) <= Abs(points[j].strike - target)
         && (j < i ==> Abs(points[i].strike - target) < Abs(points[j].strike - target))
  }

  predicate IsOuter(p: OptionPoint, right: char, above: bool, strike: real) {
    p.right == right && if above then strike < p.strike else p.strike < strike
  }

  ghost predicate NearestStrikeBeyond(points: seq<OptionPoint>, right: char, above: bool, strike: real, target: real, p: OptionPoint) {
    exists i: nat :: FirstNearestStrike(points, right, above, strike, target, i) && points[i] == p
  }

  lemma ShortsAreNearest(points: seq<OptionPoint>, t: Targets)
    requires Enough(points)
    ensures NearestDelta(points, 'P', -t.put, ShortPut(points, t.put))
    ensures NearestDelta(points, 'C', t.call, ShortCall(points, t.call))
  {
    var i := MinOfFilterIsFirst(points, OfRight('P'), DeltaGap(-t.put));
    assert FirstNearestDelta(points, 'P', -t.put, i);
    var j := MinOfFilterIsFirst(points, OfRight('C'), DeltaGap(t.call));
    assert FirstNearestDelta(points, 'C', t.call, j);
  }

  lemma NearestMovesWithTarget(points: seq<OptionPoint>, right: char, t: real, u: real, p: OptionPoint, q: OptionPoint)
    requires NearestDelta(points, right, t, p) && NearestDelta(points, right, u, q) && t <= u
    ensures p.delta <= q.delta
  {
    var i: nat :| FirstNearestDelta(points, right, t, i) && points[i] == p;
    var j: nat :| FirstNearestDelta(points, right, u, j) && points[j] == q;
    assert Abs(p.delta - t) <= Abs(q.delta - t) && Abs(q.delta - u) <= Abs(p.delta - u);
  }

  /** One stage of the adjustment: the two targets, and the points they pick. */
  datatype Stage = Stage(t: Targets, sp: OptionPoint, sc: OptionPoint) {
    function Net(): real { sp.delta + sc.delta }
  }

  ghost predicate IsStage(points: seq<OptionPoint>, s: Stage) {
    NearestDelta(points, 'P', -s.t.put, s.sp) && NearestDelta(points, 'C', s.t.call, s.sc)
  }

  /** A target moved by the step, but not beyond the cap. */
  predicate IsMoved(c: Settings, before: real, after: real) {
    after == if before + c.adjustStep <= c.maxAbsDelta then before + c.adjustStep else c.maxAbsDelta
  }

  /** A net delta that is too negative moves the call, any other one the put. */
  predicate IsNudge(c: Settings, a: Stage, b: Stage) {
    if a.Net() < -c.neutralTol then b.t.put == a.t.put && b.sp == a.sp && IsMoved(c, a.t.call, b.t.call)
    else b.t.call == a.t.call && b.sc == a.sc && IsMoved(c, a.t.put, b.t.put)
  }

  predicate IsNeutral(c: Settings, s: Stage) { Abs(s.Net()) <= c.neutralTol }

  predicate IsCapped(c: Settings, s: Stage) { s.t.put > c.maxAbsDelta || s.t.call > c.maxAbsDelta }

  /** The adjustment from given targets: nudges until neutral, over the cap, or n times. */
  ghost predicate IsAdjusting(points: seq<OptionPoint>, c: Settings, start: Targets, n: nat, run: seq<Stage>) {
    && 0 < |run| <= n + 1 && run[0].t == start && (forall k | 0 <= k < |run| :: IsStage(points, run[k]))
    && (forall k | 0 <= k < |run| - 1 :: !IsNeutral(c, run[k]) && IsNudge(c, run[k], run[k + 1]))
    && (forall k | 1 <= k < |run| - 1 :: !IsCapped(c, run[k]))
    && var last := run[|run| - 1]; |run| == n + 1 || IsNeutral(c, last) || (|run| > 1 && IsCapped(c, last))
  }

  /** Some adjustment from the given targets ends with these legs. */
  ghost predicate AdjustsTo(points: seq<OptionPoint>, c: Settings, start: Targets, n: nat, sp: OptionPoint, sc: OptionPoint) {
    exists run: seq<Stage> :: IsAdjusting(points, c, start, n, run) && run[|run| - 1].sp == sp && run[|run| - 1].sc == sc
  }

  function StageOf(points: seq<OptionPoint>, t: Targets): Stage
    requires Enough(points)
  {
    Stage(t, ShortPut(points, t.put), ShortCall(points, t.call))
  }

  lemma NudgeIsNudge(points: seq<OptionPoint>, c: Settings, t: Targets)
    requires Enough(points)
    ensures IsNudge(c, StageOf(points, t), StageOf(points, Nudge(c, t, NetDelta(points, t))))
  {
  }

  /** Some adjustment of at most n nudges leads from one stage to the other. */
  ghost predicate Leads(points: seq<OptionPoint>, c: Settings, first: Stage, n: nat, last: Stage) {
    exists run: seq<Stage> :: IsAdjusting(points, c, first.t, n, run) && run[0] == first && run[|run| - 1] == last
  }

  lemma StaysThere(points: seq<OptionPoint>, c: Settings, s: Stage, n: nat)
    requires IsStage(points, s) && (n == 0 || IsNeutral(c, s))
    ensures Leads(points, c, s, n, s)
  {
    assert IsAdjusting(points, c, s.t, n, [s]);
  }

  lemma EndsAtCap(points: seq<OptionPoint>, c: Settings, s: Stage, last: Stage, n: nat)
    requires IsStage(points, s) && IsStage(points, last) && n >= 1
    requires !IsNeutral(c, s) && IsNudge(c, s, last) && IsCapped(c, last)
    ensures Leads(points, c, s, n, last)
  {
    assert IsAdjusting(points, c, s.t, n, [s, last]);
  }

  lemma LongerAdjustment(points: seq<OptionPoint>, c: Settings, s: Stage, n: nat, rest: seq<Stage>)
    requires rest != [] && IsAdjusting(points, c, rest[0].t, n, rest)
    requires IsStage(points, s) && !IsNeutral(c, s) && IsNudge(c, s, rest[0]) && !IsCapped(c, rest[0])
    ensures IsAdjusting(points, c, s.t, n + 1, [s] + rest)
  {
    var run := [s] + rest;
    forall k | 0 <= k < |run| - 1 ensures !IsNeutral(c, run[k]) && IsNudge(c, run[k], run[k + 1]) {
      if k > 0 {
        assert IsNudge(c, rest[k - 1], rest[(k - 1) + 1]);
      }
    }
    forall k | 1 <= k < |run| - 1 ensures !IsCapped(c, run[k]) {
      assert run[k] == rest[k - 1];
    }
  }

  lemma LeadsOn(points: seq<OptionPoint>, c: Settings, s: Stage, next: Stage, n: nat, last: Stage)
    requires IsStage(points, s) && !IsNeutral(c, s) && IsNudge(c, s, next) && !IsCapped(c, next)
    requires Leads(points, c, next, n, last)
    ensures Leads(points, c, s, n + 1, last)
  {
    var rest: seq<Stage> :| IsAdjusting(points, c, next.t, n, rest) && rest[0] == next && rest[|rest| - 1] == last;
    var run := [s] + rest;
    LongerAdjustment(points, c, s, n, rest);
    assert run[0] == s && run[|run| - 1] == last;
  }

  lemma NudgeLeads(points: seq<OptionPoint>, c: Settings, s: Stage, n: nat, next: Stage, last: Stage)
    requires IsStage(points, s) && IsStage(points, next) && n > 0 && !IsNeutral(c, s) && IsNudge(c, s, next)
    requires if IsCapped(c, next) then last == next else Leads(points, c, next, n - 1, last)
    ensures Leads(points, c, s, n, last)
  {
    if IsCapped(c, next) {
      EndsAtCap(points, c, s, next, n);
    } else {
      LeadsOn(points, c, s, next, n - 1, last);
    }
  }

  lemma StageIsStage(points: seq<OptionPoint>, t: Targets)
    requires Enough(points)
    ensures IsStage(points, StageOf(points, t)) && StageOf(points, t).t == t && StageOf(points, t).Net() == NetDelta(points, t)
  {
    ShortsAreNearest(points, t);
  }

  lemma {:induction false} AdjustLeads(points: seq<OptionPoint>, c: Settings, t: Targets, n: nat, last: Stage)
    requires Enough(points) && last == StageOf(points, Adjust(points, c, t, n))
    ensures Leads(points, c, StageOf(points, t), n, last)
    decreases n
  {
    var s, next := StageOf(points, t), StageOf(points, Nudge(c, t, NetDelta(points, t)));
    StageIsStage(points, t);
    StageIsStage(points, next.t);
    NudgeIsNudge(points, c, t);
    if n == 0 || IsNeutral(c, s) {
      StaysThere(points, c, s, n);
    } else {
      if !IsCapped(c, next) {
        AdjustLeads(points, c, next.t, n - 1, last);
      }
      NudgeLeads(points, c, s, n, next, last);
    }
  }

  lemma AdjustReaches(points: seq<OptionPoint>, c: Settings, start: Targets, n: nat)
    requires Enough(points)
    ensures var t := Adjust(points, c, start, n);
      AdjustsTo(points, c, start, n, ShortPut(points, t.put), ShortCall(points, t.call))
  {
    var last := StageOf(points, Adjust(points, c, start, n));
    AdjustLeads(points, c, start, n, last);
    var run: seq<Stage> :| IsAdjusting(points, c, start, n, run) && run[|run| - 1] == last;
  }

  /** While the net delta stays below the band only the call leg moves, and while it stays
      above only the put leg; with a step that is not negative and targets within the cap
      each nudge moves the net delta towards the band. */
  lemma {:induction false} OneSided(points: seq<OptionPoint>, c: Settings, start: Targets, n: nat, run: seq<Stage>, m: nat)
    requires IsAdjusting(points, c, start, n, run) && m < |run|
    ensures (forall k | 0 <= k < m :: run[k].Net() < -c.neutralTol) ==> run[m].sp == run[0].sp && run[m].t.put == start.put
    ensures (forall k | 0 <= k < m :: run[k].Net() > c.neutralTol && !(run[k].Net() < -c.neutralTol)) ==>
      run[m].sc == run[0].sc && run[m].t.call == start.call
  {
    if m > 0 {
      OneSided(points, c, start, n, run, m - 1);
      assert IsNudge(c, run[m - 1], run[(m - 1) + 1]);
    }
  }

  lemma NudgeHelps(points: seq<OptionPoint>, c: Settings, a: Stage, b: Stage)
    requires IsStage(points, a) && IsStage(points, b) && IsNudge(c, a, b) && c.adjustStep >= 0.0 && !IsCapped(c, a)
    ensures a.Net() < -c.neutralTol ==> b.sp == a.sp && a.Net() <= b.Net()
    ensures !(a.Net() < -c.neutralTol) ==> b.sc == a.sc && b.Net() <= a.Net()
    ensures !IsCapped(c, b)
  {
    if a.Net() < -c.neutralTol {
      NearestMovesWithTarget(points, 'C', a.t.call, b.t.call, a.sc, b.sc);
    } else {
      NearestMovesWithTarget(points, 'P', -b.t.put, -a.t.put, b.sp, a.sp);
    }
  }

  /** Every nudge of an adjustment within the cap leaves the other leg alone and moves the
      net delta up when it was below the band, down when it was above. */
  lemma NudgesHelp(points: seq<OptionPoint>, c: Settings, start: Targets, n: nat, run: seq<Stage>, k: nat)
    requires IsAdjusting(points, c, start, n, run) && k + 1 < |run|
    requires c.adjustStep >= 0.0 && start.put <= c.maxAbsDelta && start.call <= c.maxAbsDelta
    ensures run[k].Net() < -c.neutralTol ==> run[k + 1].sp == run[k].sp && run[k].Net() <= run[k + 1].Net()
    ensures run[k].Net() > c.neutralTol && !(run[k].Net() < -c.neutralTol) ==>
      run[k + 1].sc == run[k].sc && run[k + 1].Net() <= run[k].Net()
  {
    NudgeHelps(points, c, run[k], run[k + 1]);
  }

  /** The short legs: those nearest to the target delta, after at most ten nudges when the
      condor is to be delta neutral. */
  ghost predicate AreShorts(points: seq<OptionPoint>, c: Settings, sp: OptionPoint, sc: OptionPoint) {
    var start := Targets(c.targetAbsDelta, c.targetAbsDelta);
    if c.deltaNeutral then AdjustsTo(points, c, start, 10, sp, sc)
    else NearestDelta(points, 'P', -c.targetAbsDelta, sp) && NearestDelta(points, 'C', c.targetAbsDelta, sc)
  }

  lemma ShortsMeaning(points: seq<OptionPoint>, c: Settings)
    requires Enough(points)
    ensures AreShorts(points, c, ShortPut(points, Shorts(points, c).put), ShortCall(points, Shorts(points, c).call))
  {
    var start := Targets(c.targetAbsDelta, c.targetAbsDelta);
    if c.deltaNeutral {
      AdjustReaches(points, c, start, 10);
    } else {
      ShortsAreNearest(points, start);
    }
  }

  /** A condor on the given points: its shorts as above, and each long leg strictly outside
      its short, nearest to one width away. */
  ghost predicate IsCondor(points: seq<OptionPoint>, c: Settings, r: Condor) {
    && AreShorts(points, c, r.shortPut, r.shortCall)
    && NearestStrikeBeyond(points, 'P', false, r.shortPut.strike, r.shortPut.strike - c.wingWidth, r.longPut)
    && NearestStrikeBeyond(points, 'C', true, r.shortCall.strike, r.shortCall.strike + c.wingWidth, r.longCall)
  }

  lemma CondorMeaning(points: seq<OptionPoint>, c: Settings)
    ensures CondorOf(points, c).Some? ==> IsCondor(points, c, CondorOf(points, c).value)
  {
    if CondorOf(points, c).Some? {
      var r := CondorOf(points, c).value;
      ShortsMeaning(points, c);
      var i, j := WingsAreFirstNearest(points, c);
      assert FirstNearestStrike(points, 'P', false, r.shortPut.strike, r.shortPut.strike - c.wingWidth, i);
      assert FirstNearestStrike(points, 'C', true, r.shortCall.strike, r.shortCall.strike + c.wingWidth, j);
    }
  }

  /** Point x comes from an entry of the dictionary whose symbol parses and whose delta is
      a number, and has the right and strike of the symbol and that delta. */
  ghost predicate ComesFrom(d: Dict, x: OptionPoint) {
    exists i :: 0 <= i < |d| && EntryGives(d[i], x)
  }

  predicate EntryGives(entry: (string, Greek), x: OptionPoint) {
    && Parse(entry.0).Some? && entry.1.delta.Some? && x.eventSymbol == entry.0
    && x.right == Parse(entry.0).value.right && x.strike == Parse(entry.0).value.strike && x.delta == entry.1.delta.value
  }

  lemma ComesFromParts(d: Dict, entry: (string, Greek), x: OptionPoint)
    ensures ComesFrom(d + [entry], x) <==> ComesFrom(d, x) || EntryGives(entry, x)
  {
    var d' := d + [entry];
    if ComesFrom(d, x) {
      var i :| 0 <= i < |d| && EntryGives(d[i], x);
      assert d'[i] == d[i];
    }
    if EntryGives(entry, x) {
      assert d'[|d|] == entry;
    }
  }

  lemma PointFromMeaning(entry: (string, Greek), x: OptionPoint)
    ensures x in PointFrom(entry.0, Parse(entry.0), entry.1) <==> EntryGives(entry, x)
  {
  }

  lemma {:induction false} PointsMeaning(d: Dict, x: OptionPoint)
    ensures x in ToOptionPoints(d) <==> ComesFrom(d, x)
  {
    if d != [] {
      var n := |d| - 1;
      PointsMeaning(d[..n], x);
      PointFromMeaning(d[n], x);
      ComesFromParts(d[..n], d[n], x);
      assert d == d[..n] + [d[n]];
    }
  }
}
