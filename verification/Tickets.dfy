/** Trade tickets: the record, the order type of a spread, preparing and rebuilding a
    preview request, and the marks a preview leaves. */
module Tickets {
  import opened Basics
  import opened Text

  // ----- the record -----

  datatype Expiry = Expiry(year: Option<int>, month: Option<int>, day: Option<int>)

  /** strikeKey and root are the payload entries source_strike_key and option_root_symbol. */
  datatype Leg = Leg(symbol: string, action: string, quantity: real, callPut: Option<string>, expiry: Expiry,
                     strike: Option<real>, osi: Option<string>, strikeKey: string, root: Option<string>)

  datatype Instrument = Instrument(symbol: string, action: string, quantity: Option<real>, callPut: Option<string>,
                                   expiry: Expiry, strike: Option<real>, osi: Option<string>)

  /** A number in a message: absent, there but unreadable, or readable. */
  datatype Field = Absent | Unreadable | Number(value: real)

  /** An instrument is None when the message holds something else in its place. */
  datatype Order = Order(priceType: Option<string>, limit: Field, instruments: seq<Option<Instrument>>)

  /** The Order entry of a request: a list, a single order, or missing. */
  datatype Orders = Missing | One(order: Order) | Many(list: seq<Order>)

  datatype Request = Request(orderType: Option<string>, clientOrderId: Option<string>, orders: Orders)

  /** What the broker answers to a preview. */
  datatype Response = Response(order: Option<Order>, orderType: Option<string>, previewId: Option<string>,
                               messages: bool, netPrice: Option<real>)

  datatype PlaceRequest = PlaceRequest(orderType: string, clientOrderId: string, previewId: string, orders: seq<Order>)

  datatype Status = Draft | PreviewPending | PreviewFailed | Previewed | Ready | Submitted

  datatype Source = Manual | Signal

  datatype Prices = Prices(priceType: string, limit: Option<real>, netPrice: Option<real>, suggested: Option<real>)

  datatype Intent = Intent(quantity: Option<int>, priceType: Option<string>, limit: Option<real>,
                           confirmed: bool, ready: bool)

  const NO_INTENT := Intent(None, None, None, false, false)

  /** Times are minutes; snapshot is the time a market snapshot was captured. */
  datatype Ticket = Ticket(
    id: string, status: Status, source: Source, strategy: Option<string>, underlier: string,
    account: string, previewId: Option<string>, orderType: string, clientOrderId: Option<string>,
    prices: Prices, intent: Intent, legs: seq<Leg>, attempts: nat,
    createdAt: real, lastPreviewAt: Option<real>, nextRetryAt: Option<real>,
    snapshot: Option<real>, request: Option<Request>, place: Option<PlaceRequest>)

  // ----- values that count as missing -----

  function OrReal(x: Option<real>, y: Option<real>): Option<real> {
    if x.Some? && x.value != 0.0 then x else y
  }

  function OrText(x: Option<string>, y: string): string {
    if x.Some? && x.value != "" then x.value else y
  }

  function OrInt(x: Option<int>, y: int): int {
    if x.Some? && x.value != 0 then x.value else y
  }

  /** The first value that is given and not 0, else the other one. */
  function FirstGiven(values: seq<Option<real>>, other: Option<real>): Option<real> {
    if values == [] then other
    else if values[0].Some? && values[0].value != 0.0 then values[0]
    else FirstGiven(values[1..], other)
  }

  lemma FirstGivenOf(x: Option<real>, rest: seq<Option<real>>, other: Option<real>)
    ensures FirstGiven([], other) == other
    ensures FirstGiven([x] + rest, other) == if x.Some? && x.value != 0.0 then x else FirstGiven(rest, other)
  {
    assert ([x] + rest)[1..] == rest;
  }

  // ----- roles of legs and the order type of a spread -----

  datatype Role = ShortPut | LongPut | ShortCall | LongCall

  predicate IsShortAction(a: string) { a in {"SELL_OPEN", "BUY_CLOSE", "SELL_TO_OPEN", "BUY_TO_CLOSE"} }

  predicate IsLongAction(a: string) { a in {"BUY_OPEN", "SELL_CLOSE", "BUY_TO_OPEN", "SELL_TO_CLOSE"} }

  function RoleOf(callPut: string, action: string): Option<Role> {
    if callPut !in {"PUT", "CALL"} then None
    else if IsShortAction(action) then Some(if callPut == "PUT" then ShortPut else ShortCall)
    else if IsLongAction(action) then Some(if callPut == "PUT" then LongPut else LongCall)
    else None
  }

  function LegRole(leg: Leg): Option<Role> {
    RoleOf(Norm(OrText(leg.callPut, "")), Norm(leg.action))
  }

  /** What the order type depends on: each leg's role and strike. */
  datatype Corner = Corner(role: Option<Role>, strike: Option<real>)

  function Corners(legs: seq<Leg>): (r: seq<Corner>)
    ensures |r| == |legs|
  {
    seq(|legs|, i requires 0 <= i < |legs| => Corner(LegRole(legs[i]), legs[i].strike))
  }

  /** The strike of the last corner with a role, if there is such a corner. */
  function StrikeAt(cs: seq<Corner>, role: Role): Option<Option<real>> {
    if cs == [] then None
    else if cs[|cs| - 1].role == Some(role) then Some(cs[|cs| - 1].strike)
    else StrikeAt(cs[..|cs| - 1], role)
  }

  function RoundTo6(x: real): real { RoundHalfEven(x * 1000000.0) as real / 1000000.0 }

  const CONDOR := "IRON_CONDOR"
  const SPREADS := "SPREADS"

  /** A condor has its strikes in order and two equal wings. */
  function Shape(longPut: real, shortPut: real, shortCall: real, longCall: real): string {
    var put, call := RoundTo6(shortPut - longPut), RoundTo6(longCall - shortCall);
    if longPut < shortPut < shortCall < longCall && put > 0.0 && call > 0.0 && Abs(put - call) < 0.000001
    then CONDOR else SPREADS
  }

  /** The order type four complete corners decide; None when they do not. */
  function Geometry(cs: seq<Corner>): Option<string> {
    if |cs| != 4 || exists i | 0 <= i < |cs| :: cs[i].role == None then None
    else
      var lp, sp := StrikeAt(cs, LongPut), StrikeAt(cs, ShortPut);
      var sc, lc := StrikeAt(cs, ShortCall), StrikeAt(cs, LongCall);
      if lp == None || sp == None || sc == None || lc == None then None
      else if lp.value == None || sp.value == None || sc.value == None || lc.value == None then None
      else Some(Shape(lp.value.value, sp.value.value, sc.value.value, lc.value.value))
  }

  function InferOrderType(strategy: Option<string>, legs: nat): string {
    if Lower(Strip(OrText(strategy, ""))) == "condor" && legs == 4 then CONDOR
    else if legs > 1 then SPREADS
    else "OPTN"
  }

  /** The order type used when the legs do not decide. */
  function Fallback(t: Ticket): string {
    if t.orderType != "" then t.orderType else InferOrderType(t.strategy, |t.legs|)
  }

  function ResolveOrderType(t: Ticket): string {
    var g := Geometry(Corners(t.legs));
    if g.Some? then g.value else Fallback(t)
  }

  ghost predicate IsCorner(cs: seq<Corner>, i: int, role: Role, strike: real) {
    0 <= i < |cs| && cs[i] == Corner(Some(role), Some(strike))
  }

  /** Four legs, one in each role, in any order. */
  ghost predicate FourCorners(cs: seq<Corner>, lp: real, sp: real, sc: real, lc: real) {
    && |cs| == 4
    && (exists i :: IsCorner(cs, i, LongPut, lp)) && (exists i :: IsCorner(cs, i, ShortPut, sp))
    && (exists i :: IsCorner(cs, i, ShortCall, sc)) && (exists i :: IsCorner(cs, i, LongCall, lc))
  }

  lemma {:induction false} StrikeAtMeaning(cs: seq<Corner>, role: Role) returns (i: int)
    ensures StrikeAt(cs, role) == None <==> forall j | 0 <= j < |cs| :: cs[j].role != Some(role)
    ensures StrikeAt(cs, role).Some? ==> 0 <= i < |cs| && cs[i] == Corner(Some(role), StrikeAt(cs, role).value)
  {
    if cs == [] {
      i := 0;
    } else {
      i := |cs| - 1;
      if cs[i].role != Some(role) {
        var n := i;
        i := StrikeAtMeaning(cs[..n], role);
        assert forall j | 0 <= j < n :: cs[..n][j] == cs[j];
      }
    }
  }

  /** One corner in each role leaves no room for a second one. */
  lemma CornersAreDistinct(cs: seq<Corner>, lp: real, sp: real, sc: real, lc: real)
    requires FourCorners(cs, lp, sp, sc, lc)
    ensures StrikeAt(cs, LongPut) == Some(Some(lp)) && StrikeAt(cs, ShortPut) == Some(Some(sp))
    ensures StrikeAt(cs, ShortCall) == Some(Some(sc)) && StrikeAt(cs, LongCall) == Some(Some(lc))
    ensures forall i | 0 <= i < |cs| :: cs[i].role.Some?
  {
    var a :| IsCorner(cs, a, LongPut, lp);
    var b :| IsCorner(cs, b, ShortPut, sp);
    var c :| IsCorner(cs, c, ShortCall, sc);
    var d :| IsCorner(cs, d, LongCall, lc);
    var used := {a, b, c, d};
    assert used == {0, 1, 2, 3};
    assert forall i | 0 <= i < |cs| :: i in used;
    var _ := StrikeAtMeaning(cs, LongPut);
    var _ := StrikeAtMeaning(cs, ShortPut);
    var _ := StrikeAtMeaning(cs, ShortCall);
    var _ := StrikeAtMeaning(cs, LongCall);
  }

  /** The legs decide exactly when there are four of them, one in each role and each
      with a strike; what they decide depends on the strikes only, not on their order. */
  lemma GeometryMeaning(cs: seq<Corner>, r: string)
    ensures Geometry(cs) == Some(r) <==> exists lp, sp, sc, lc :: FourCorners(cs, lp, sp, sc, lc) && r == Shape(lp, sp, sc, lc)
  {
    if Geometry(cs) == Some(r) {
      var a := StrikeAtMeaning(cs, LongPut);
      var b := StrikeAtMeaning(cs, ShortPut);
      var c := StrikeAtMeaning(cs, ShortCall);
      var d := StrikeAtMeaning(cs, LongCall);
      var lp, sp := StrikeAt(cs, LongPut).value.value, StrikeAt(cs, ShortPut).value.value;
      var sc, lc := StrikeAt(cs, ShortCall).value.value, StrikeAt(cs, LongCall).value.value;
      assert IsCorner(cs, a, LongPut, lp) && IsCorner(cs, b, ShortPut, sp);
      assert IsCorner(cs, c, ShortCall, sc) && IsCorner(cs, d, LongCall, lc);
      assert FourCorners(cs, lp, sp, sc, lc);
    }
    if exists lp, sp, sc, lc :: FourCorners(cs, lp, sp, sc, lc) && r == Shape(lp, sp, sc, lc) {
      var lp, sp, sc, lc :| FourCorners(cs, lp, sp, sc, lc) && r == Shape(lp, sp, sc, lc);
      CornersAreDistinct(cs, lp, sp, sc, lc);
    }
  }

  /** Strikes in order with two equal wings make a condor; strikes out of order, or wings
      that differ by more than rounding to six places hides, a spread. */
  lemma ShapeMeaning(longPut: real, shortPut: real, shortCall: real, longCall: real)
    ensures var put, call, ordered := shortPut - longPut, longCall - shortCall, longPut < shortPut < shortCall < longCall;
      && (ordered && put == call && put >= 0.000001 ==> Shape(longPut, shortPut, shortCall, longCall) == "IRON_CONDOR")
      && (!ordered || Abs(put - call) >= 0.000002 ==> Shape(longPut, shortPut, shortCall, longCall) == "SPREADS")
  {
    RoundHalfEvenIsNearest((shortPut - longPut) * 1000000.0);
    RoundHalfEvenIsNearest((longCall - shortCall) * 1000000.0);
  }

  /** Where the legs do not decide, a ticket keeps its order type; without one, several
      legs are a spread, four legs of the condor strategy a condor, and one leg an option. */
  lemma FallbackMeaning(t: Ticket)
    requires Geometry(Corners(t.legs)) == None
    ensures t.orderType != "" ==> ResolveOrderType(t) == t.orderType
    ensures t.orderType == "" && |t.legs| <= 1 ==> ResolveOrderType(t) == "OPTN"
    ensures t.orderType == "" && |t.legs| > 1 ==> ResolveOrderType(t) in {"SPREADS", "IRON_CONDOR"}
    ensures t.orderType == "" && |t.legs| > 1 ==>
      (ResolveOrderType(t) == "IRON_CONDOR" <==> |t.legs| == 4 && t.strategy.Some? && Lower(Strip(t.strategy.value)) == "condor")
  {
    assert Strip("") == "" && Lower("") == "";
    assert "SPREADS"[0] == 'S' && "IRON_CONDOR"[0] == 'I';
  }

  // ----- reversing a position -----

  function ReverseAction(a: string): string {
    if a == "SELL_OPEN" then "BUY_CLOSE"
    else if a == "BUY_OPEN" then "SELL_CLOSE"
    else if a == "SELL_TO_OPEN" then "BUY_TO_CLOSE"
    else if a == "BUY_TO_OPEN" then "SELL_TO_CLOSE"
    else a
  }

  function ReverseLegs(legs: seq<Leg>): (r: seq<Leg>)
    ensures |r| == |legs|
  {
    seq(|legs|, i requires 0 <= i < |legs| => legs[i].(action := ReverseAction(legs[i].action)))
  }

  lemma OpeningActionsReverse(a: string)
    requires a in {"SELL_OPEN", "BUY_OPEN", "SELL_TO_OPEN", "BUY_TO_OPEN"}
    ensures IsPlain(a) && IsPlain(ReverseAction(a))
    ensures IsShortAction(a) <==> IsShortAction(ReverseAction(a))
    ensures IsLongAction(a) <==> IsLongAction(ReverseAction(a))
  {
  }

  /** Reversing an action, whatever its text, keeps the leg short or long. */
  lemma ReversalKeepsRole(leg: Leg)
    ensures LegRole(leg.(action := ReverseAction(leg.action))) == LegRole(leg)
  {
    var a := leg.action;
    if a in {"SELL_OPEN", "BUY_OPEN", "SELL_TO_OPEN", "BUY_TO_OPEN"} {
      OpeningActionsReverse(a);
      NormOfPlain(a);
      NormOfPlain(ReverseAction(a));
    }
  }

  lemma ReversalKeepsCorners(legs: seq<Leg>)
    ensures Corners(ReverseLegs(legs)) == Corners(legs)
  {
    forall i | 0 <= i < |legs| ensures Corners(ReverseLegs(legs))[i] == Corners(legs)[i] {
      ReversalKeepsRole(legs[i]);
    }
  }
}
