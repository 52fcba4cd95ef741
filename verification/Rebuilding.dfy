/** When rebuilding a preview request changes nothing: after an earlier rebuild, and
    after a preview that succeeded. */
module Rebuilding {
  import opened Basics
  import opened Text
  import opened Pricing
  import opened Tickets
  import opened TicketSteps

  function FilledLegs(legs: seq<Leg>): (r: seq<Leg>)
    ensures |r| == |legs|
  {
    seq(|legs|, i requires 0 <= i < |legs| => Filled(legs[i], i))
  }

  /** Filling in the missing put/call sides does not change the order type. */
  predicate IsSettled(t: Ticket) {
    var g := Geometry(Corners(FilledLegs(t.legs)));
    g == None || g.value == ResolveOrderType(t)
  }

  predicate HasAllSides(legs: seq<Leg>) { forall leg | leg in legs :: OrText(leg.callPut, "") != "" }

  lemma PreparedCorners(legs: seq<Leg>, a: Args)
    ensures Corners(PreparedLegs(legs, a)) == Corners(FilledLegs(legs))
    ensures HasAllSides(legs) ==> Corners(FilledLegs(legs)) == Corners(legs)
  {
    assert forall i | 0 <= i < |legs| :: legs[i] in legs;
  }

  /** A ticket whose legs name their side is settled. */
  lemma SidesSettle(t: Ticket)
    requires HasAllSides(t.legs)
    ensures IsSettled(t)
  {
    PreparedCorners(t.legs, Args(Expiry(None, None, None), 0, 0.0, None, ""));
  }

  lemma ResolvedIsNotEmpty(t: Ticket)
    ensures ResolveOrderType(t) != ""
  {
  }

  /** The order type stays put after a first preparation exactly when it is settled. */
  lemma OrderTypeStaysIff(t: Ticket, a: Args)
    ensures ResolveOrderType(Prepare(t, a)) == ResolveOrderType(t) <==> IsSettled(t)
  {
    PreparedCorners(t.legs, a);
    ResolvedIsNotEmpty(t);
  }

  predicate IsDate(d: (int, int, int)) { d.0 != 0 && d.1 != 0 && d.2 != 0 }

  predicate IsFullDate(e: Expiry) { OrInt(e.year, 0) != 0 && OrInt(e.month, 0) != 0 && OrInt(e.day, 0) != 0 }

  // ----- when a rebuild asks for a given order -----

  /** Leg i of a ticket, in the order of a given leg. */
  predicate SameTerms(leg: Leg, i: nat, given: Leg) {
    && OrderSymbol(leg) == OrderSymbol(given) && leg.action == given.action && leg.strike == given.strike
    && Filled(leg, i).callPut == given.callPut
  }

  predicate SameLegs(legs: seq<Leg>, given: seq<Leg>) {
    |legs| == |given| && forall i | 0 <= i < |legs| :: SameTerms(legs[i], i, given[i])
  }

  lemma InstrumentsMatchIff(legs: seq<Leg>, b: Args, given: seq<Leg>)
    ensures Instruments(PreparedLegs(legs, b)) == Instruments(given) <==>
      && SameLegs(legs, given)
      && forall i | 0 <= i < |given| :: given[i].quantity == b.quantity as real && given[i].expiry == b.expiry
  {
    var x, y := Instruments(PreparedLegs(legs, b)), Instruments(given);
    if x == y {
      assert |legs| == |given|;
      forall i | 0 <= i < |given| ensures SameTerms(legs[i], i, given[i]) && given[i].quantity == b.quantity as real && given[i].expiry == b.expiry {
        assert x[i] == y[i];
      }
    }
  }

  /** Legs prepared before match legs prepared now, up to quantity and expiry. */
  lemma PreparedMatchIff(legs: seq<Leg>, b: Args, before: seq<Leg>, a: Args)
    ensures Instruments(PreparedLegs(legs, b)) == Instruments(PreparedLegs(before, a)) <==>
      && SameLegs(legs, PreparedLegs(before, a))
      && (before == [] || (b.quantity == a.quantity && b.expiry == a.expiry))
  {
    InstrumentsMatchIff(legs, b, PreparedLegs(before, a));
    if before != [] {
      assert PreparedLegs(before, a)[0].quantity == a.quantity as real;
    }
  }

  lemma RequestsEqualIff(o: string, c: string, t: string, l: real, legs: seq<Leg>,
                         o': string, c': string, t': string, l': real, legs': seq<Leg>)
    ensures PreparedRequest(o, c, t, l, legs) == PreparedRequest(o', c', t', l', legs') <==>
      o == o' && c == c' && t == t' && l == l' && Instruments(legs) == Instruments(legs')
  {
    var r, r' := PreparedRequest(o, c, t, l, legs), PreparedRequest(o', c', t', l', legs');
    if r == r' {
      assert r.orders.list[0] == r'.orders.list[0];
    }
  }

  /** What a rebuild asks for is the order prepared as p, with the arguments a. */
  predicate AsksAgain(m: Ticket, b: Args, p: Ticket, a: Args) {
    && ResolveOrderType(m) == p.orderType && b.priceType == a.priceType
    && Some(Snap(b.limit, Tick(m, a.priceType))) == p.prices.limit
    && SameLegs(m.legs, p.legs) && (p.legs == [] || (b.quantity == a.quantity && b.expiry == a.expiry))
  }

  /** Any ticket with the client order id of a prepared ticket is rebuilt into the
      request of the prepared one exactly when it asks again for the same terms. */
  lemma RebuildAsksIff(m: Ticket, today: (int, int, int), t: Ticket, a: Args)
    requires m.clientOrderId == Prepare(t, a).clientOrderId
    ensures Rebuild(m, today).request == Prepare(t, a).request <==> AsksAgain(m, Chosen(m, today), Prepare(t, a), a)
  {
    var b, p := Chosen(m, today), Prepare(t, a);
    assert p.clientOrderId.value != "";
    assert ClientOrderId(m, b.clientOrderId) == p.clientOrderId.value;
    PreparedMatchIff(m.legs, b, t.legs, a);
    RequestsEqualIff(ResolveOrderType(m), ClientOrderId(m, b.clientOrderId), b.priceType,
                     Snap(b.limit, Tick(m, b.priceType)), PreparedLegs(m.legs, b),
                     p.orderType, p.clientOrderId.value, a.priceType, p.prices.limit.value, p.legs);
  }

  // ----- rebuilding a prepared ticket -----

  /** The limit survives another rebuild: a limit that is not zero fits the increment of
      the new order type; a zero limit counts as missing, and its substitute snaps to 0. */
  ghost predicate LimitStays(p: Ticket)
    requires p.prices.limit.Some?
  {
    var limit, tick := p.prices.limit.value, Tick(p, p.prices.priceType);
    if limit != 0.0 then IsAllowed(limit, limit, tick) else Snap(OrOne(p.prices.suggested), tick) == 0.0
  }

  function OrOne(x: Option<real>): real {
    var y := OrReal(x, None);
    if y.Some? then y.value else 1.0
  }

  lemma PreparedLegsAgain(legs: seq<Leg>, a: Args)
    ensures SameLegs(PreparedLegs(legs, a), PreparedLegs(legs, a))
  {
  }

  lemma FullDateStays(e: Expiry, later: (int, int, int))
    requires IsDate(later)
    ensures Expiry(Some(OrInt(e.year, later.0)), Some(OrInt(e.month, later.1)), Some(OrInt(e.day, later.2))) == e <==> IsFullDate(e)
  {
  }

  lemma ChoosesAgain(t: Ticket, a: Args, later: (int, int, int))
    requires IsDate(later)
    ensures var p := Prepare(t, a);
      var b := Chosen(p, later);
      && (b.priceType == a.priceType <==> a.priceType != "")
      && (p.legs == [] || (b.quantity == a.quantity && b.expiry == a.expiry) <==> t.legs == [] || (a.quantity != 0 && IsFullDate(a.expiry)))
      && b.limit == if p.prices.limit.value != 0.0 then p.prices.limit.value else OrOne(p.prices.suggested)
  {
    FullDateStays(a.expiry, later);
  }

  /** Rebuilding a prepared ticket asks for the same order exactly when the price type
      is named, the order type is settled, the limit stays, and, if there are legs, the
      quantity is not zero and the date is complete. */
  lemma RebuildPreparedIff(t: Ticket, a: Args, later: (int, int, int))
    requires IsDate(later)
    ensures var p := Prepare(t, a);
      Rebuild(p, later).request == p.request <==>
        && a.priceType != "" && IsSettled(t) && LimitStays(p)
        && (t.legs == [] || (a.quantity != 0 && IsFullDate(a.expiry)))
  {
    var p := Prepare(t, a);
    RebuildAsksIff(p, later, t, a);
    ChoosesAgain(t, a, later);
    OrderTypeStaysIff(t, a);
    PreparedLegsAgain(t.legs, a);
    SnapFixesAllowed(p.prices.limit.value, Tick(p, a.priceType));
  }

  // ----- complex orders -----

  lemma PlainNames(s: string)
    requires s in {CONDOR, SPREADS, "UNKNOWN"}
    ensures IsPlain(s)
  {
  }

  lemma KnownNames(s: string)
    ensures s in {CONDOR, SPREADS} ==> IsComplex(s)
    ensures s == "UNKNOWN" ==> !IsIndexRoot(s)
    ensures s == "" ==> Norm(s) == ""
  {
    if s in {CONDOR, SPREADS, "UNKNOWN"} {
      PlainNames(s);
      NormOfPlain(s);
    }
  }

  lemma GeometryNames(cs: seq<Corner>)
    requires Geometry(cs).Some?
    ensures Geometry(cs).value in {CONDOR, SPREADS}
  {
  }

  lemma ResolvedFrom(t: Ticket)
    requires t.orderType != ""
    ensures ResolveOrderType(t) == t.orderType || ResolveOrderType(t) in {CONDOR, SPREADS}
  {
    var cs := Corners(t.legs);
    if Geometry(cs).Some? { GeometryNames(cs); }
  }

  lemma ComplexStays(t: Ticket)
    requires IsComplex(t.orderType)
    ensures t.orderType != "" && IsComplex(ResolveOrderType(t))
  {
    KnownNames(t.orderType);
    ResolvedFrom(t);
    KnownNames(ResolveOrderType(t));
  }

  lemma PreparingKeepsRoots(t: Ticket, a: Args)
    ensures HasIndexRoot(Prepare(t, a)) == HasIndexRoot(t)
  {
    var r := Prepare(t, a);
    forall i | 0 <= i < |t.legs| ensures r.legs[i].symbol == t.legs[i].symbol && r.legs[i].root == t.legs[i].root {
    }
    forall leg | leg in t.legs && (IsIndexRoot(leg.symbol) || IsIndexRoot(OrText(leg.root, ""))) ensures HasIndexRoot(r) {
      var i :| 0 <= i < |t.legs| && t.legs[i] == leg;
      assert r.legs[i] in r.legs;
    }
    forall leg | leg in r.legs && (IsIndexRoot(leg.symbol) || IsIndexRoot(OrText(leg.root, ""))) ensures HasIndexRoot(t) {
      var i :| 0 <= i < |r.legs| && r.legs[i] == leg;
      assert t.legs[i] in t.legs;
    }
  }

  /** A complex order keeps its increment, so a limit that is not zero stays. */
  lemma ComplexLimitStays(t: Ticket, a: Args)
    requires IsComplex(t.orderType) && Snap(a.limit, Tick(t, a.priceType)) != 0.0
    ensures LimitStays(Prepare(t, a))
  {
    var p := Prepare(t, a);
    ComplexStays(t);
    PreparingKeepsRoots(t, a);
    assert Tick(p, a.priceType) == Tick(t, a.priceType);
    SnapTwice(a.limit, Tick(t, a.priceType));
    SnapFixesAllowed(p.prices.limit.value, Tick(t, a.priceType));
  }

  lemma ChosenIsComplete(t: Ticket, today: (int, int, int))
    requires IsDate(today)
    ensures Chosen(t, today).priceType != "" && IsFullDate(Chosen(t, today).expiry)
  {
  }

  /** Rebuilding is idempotent exactly when the order type is settled, the limit stays
      and, if there are legs, the quantity chosen is not zero. */
  lemma RebuildTwiceIff(t: Ticket, today: (int, int, int), later: (int, int, int))
    requires IsDate(today) && IsDate(later)
    ensures var r := Rebuild(t, today);
      Rebuild(r, later).request == r.request <==>
        IsSettled(t) && LimitStays(r) && (t.legs == [] || ChosenQuantity(t) != 0)
  {
    ChosenIsComplete(t, today);
    RebuildPreparedIff(t, Chosen(t, today), later);
  }

  /** For a complex order with a positive limit the limit always stays. */
  lemma ComplexRebuildTwiceIff(t: Ticket, today: (int, int, int), later: (int, int, int))
    requires IsDate(today) && IsDate(later) && IsComplex(t.orderType) && ChosenLimit(t) > 0.0
    ensures var r := Rebuild(t, today);
      Rebuild(r, later).request == r.request <==> IsSettled(t) && (t.legs == [] || ChosenQuantity(t) != 0)
  {
    SnapPositive(ChosenLimit(t), Tick(t, Chosen(t, today).priceType));
    ComplexLimitStays(t, Chosen(t, today));
    RebuildTwiceIff(t, today, later);
  }

  function CondorLeg(action: string, strike: real, side: Option<string>): Leg {
    Leg("SPX", action, 1.0, side, Expiry(Some(2026), Some(1), Some(16)), Some(strike), None, "", None)
  }

  /** Four condor legs, the puts not yet naming their side, on a ticket filed as a spread. */
  function UnsettledTicket(): Ticket {
    Ticket("tt-1", Draft, Signal, Some("condor"), "SPX", "acct", None, SPREADS, None,
           Prices("NET_CREDIT", Some(1.0), None, None), NO_INTENT,
           [CondorLeg("SELL_OPEN", 5900.0, None), CondorLeg("BUY_OPEN", 5880.0, None),
            CondorLeg("SELL_OPEN", 6100.0, Some("CALL")), CondorLeg("BUY_OPEN", 6120.0, Some("CALL"))],
           0, 0.0, None, None, None, None, None)
  }

  lemma RoleByName(callPut: string, action: string)
    requires callPut in {"PUT", "CALL"} && action in {"SELL_OPEN", "BUY_OPEN"}
    ensures RoleOf(Norm(callPut), Norm(action)) == RoleOf(callPut, action)
  {
    assert IsPlain(callPut) && IsPlain(action);
    NormOfPlain(callPut);
    NormOfPlain(action);
  }

  lemma NoSideNoRole(action: string)
    ensures RoleOf(Norm(""), Norm(action)) == None
  {
    KnownNames("");
  }

  lemma EvenWings()
    ensures Shape(5880.0, 5900.0, 6100.0, 6120.0) == CONDOR
  {
  }

  function CondorCorners(): seq<Corner> {
    [Corner(Some(ShortPut), Some(5900.0)), Corner(Some(LongPut), Some(5880.0)),
     Corner(Some(ShortCall), Some(6100.0)), Corner(Some(LongCall), Some(6120.0))]
  }

  lemma CondorCornersDecide(cs: seq<Corner>)
    requires cs == CondorCorners()
    ensures Geometry(cs) == Some(CONDOR)
  {
    assert IsCorner(cs, 0, ShortPut, 5900.0) && IsCorner(cs, 1, LongPut, 5880.0);
    assert IsCorner(cs, 2, ShortCall, 6100.0) && IsCorner(cs, 3, LongCall, 6120.0);
    assert FourCorners(cs, 5880.0, 5900.0, 6100.0, 6120.0);
    EvenWings();
    GeometryMeaning(cs, CONDOR);
  }

  lemma SellingIsShort(callPut: string, action: string)
    requires callPut in {"PUT", "CALL"} && action in {"SELL_OPEN", "BUY_OPEN"}
    ensures RoleOf(callPut, action) == Some(if action == "SELL_OPEN" then (if callPut == "PUT" then ShortPut else ShortCall)
                                            else if callPut == "PUT" then LongPut else LongCall)
  {
  }

  lemma CondorLegCorner(short: bool, action: string, strike: real, side: Option<string>, i: nat)
    requires action == if short then "SELL_OPEN" else "BUY_OPEN"
    requires side == Some("CALL") || (side == None && i <= 1)
    ensures var leg := Filled(CondorLeg(action, strike, side), i);
      Corner(LegRole(leg), leg.strike) ==
        Corner(Some(if side == None then if short then ShortPut else LongPut else if short then ShortCall else LongCall), Some(strike))
  {
    var callPut := OrText(side, "PUT");
    assert callPut == if side == None then "PUT" else "CALL";
    assert (callPut == "PUT") == (side == None) && (action == "SELL_OPEN") == short;
    RoleByName(callPut, action);
    SellingIsShort(callPut, action);
  }

  predicate FillsTo(leg: Leg, i: nat, role: Role, strike: real) {
    LegRole(Filled(leg, i)) == Some(role) && leg.strike == Some(strike)
  }

  lemma CornersOfFilled(legs: seq<Leg>)
    requires |legs| == 4
    requires FillsTo(legs[0], 0, ShortPut, 5900.0) && FillsTo(legs[1], 1, LongPut, 5880.0)
    requires FillsTo(legs[2], 2, ShortCall, 6100.0) && FillsTo(legs[3], 3, LongCall, 6120.0)
    ensures Corners(FilledLegs(legs)) == CondorCorners()
  {
  }

  lemma UnsettledCorners()
    ensures Corners(FilledLegs(UnsettledTicket().legs)) == CondorCorners()
  {
    var legs := UnsettledTicket().legs;
    assert FillsTo(legs[0], 0, ShortPut, 5900.0) by { CondorLegCorner(true, "SELL_OPEN", 5900.0, None, 0); }
    assert FillsTo(legs[1], 1, LongPut, 5880.0) by { CondorLegCorner(false, "BUY_OPEN", 5880.0, None, 1); }
    assert FillsTo(legs[2], 2, ShortCall, 6100.0) by { CondorLegCorner(true, "SELL_OPEN", 6100.0, Some("CALL"), 2); }
    assert FillsTo(legs[3], 3, LongCall, 6120.0) by { CondorLegCorner(false, "BUY_OPEN", 6120.0, Some("CALL"), 3); }
    CornersOfFilled(legs);
  }

  lemma UnsettledFallsBack()
    ensures ResolveOrderType(UnsettledTicket()) == SPREADS
  {
    NoSideNoRole("SELL_OPEN");
    assert Corners(UnsettledTicket().legs)[0].role == None;
  }

  /** Rebuilding is not idempotent on every ticket: the first rebuild fills in the
      sides, and only the second one sees that the spread is a condor. */
  lemma UnsettledTicketChanges(today: (int, int, int))
    requires IsDate(today)
    ensures var t := UnsettledTicket();
      && ChosenLimit(t) > 0.0 && t.orderType == SPREADS
      && Rebuild(t, today).request.value.orderType == Some(SPREADS)
      && Rebuild(Rebuild(t, today), today).request.value.orderType == Some(CONDOR)
  {
    UnsettledFallsBack();
    UnsettledCorners();
    CondorCornersDecide(CondorCorners());
    PreparedCorners(UnsettledTicket().legs, Chosen(UnsettledTicket(), today));
  }

  // ----- rebuilding after a successful preview -----

  /** A leg as it comes back from the ticket's own request. */
  function Echo(leg: Leg): Leg {
    leg.(symbol := OrderSymbol(leg), osi := None, strikeKey := "", root := None)
  }

  function EchoLegs(legs: seq<Leg>): (r: seq<Leg>)
    ensures |r| == |legs|
  {
    seq(|legs|, i requires 0 <= i < |legs| => Echo(legs[i]))
  }

  /** Writing legs as instruments and reading them back loses the contract data only. */
  lemma {:induction false} LegsRoundTrip(legs: seq<Leg>)
    ensures ToLegs(Instruments(legs)) == EchoLegs(legs)
  {
    if legs != [] {
      var n := |legs| - 1;
      LegsRoundTrip(legs[..n]);
      assert Instruments(legs)[..n] == Instruments(legs[..n]);
      assert EchoLegs(legs) == EchoLegs(legs[..n]) + [Echo(legs[n])];
    }
  }

  lemma EchoOfRoot(leg: Leg)
    ensures IsIndexRoot(OrderSymbol(leg)) ==> IsIndexRoot(leg.symbol) || IsIndexRoot(OrText(leg.root, ""))
    ensures OrderSymbol(Echo(leg)) == OrderSymbol(leg)
  {
    StripTwice(OrText(leg.root, leg.symbol));
  }

  lemma {:induction false} FirstSymbolIsOne(legs: seq<Leg>)
    ensures FirstSymbol(legs) == "" || exists i :: 0 <= i < |legs| && legs[i].symbol == FirstSymbol(legs)
  {
    if legs != [] && legs[0].symbol == "" {
      FirstSymbolIsOne(legs[1..]);
      if FirstSymbol(legs) != "" {
        var i :| 0 <= i < |legs[1..]| && legs[1..][i].symbol == FirstSymbol(legs[1..]);
        assert legs[i + 1].symbol == FirstSymbol(legs);
      }
    }
  }

  lemma EmptyIsNoRoot(s: string)
    requires s in {"", "UNKNOWN"}
    ensures !IsIndexRoot(s)
  {
    KnownNames(s);
  }

  lemma EchoRootAt(legs: seq<Leg>, i: int)
    requires 0 <= i < |legs| && IsIndexRoot(EchoLegs(legs)[i].symbol)
    ensures exists leg | leg in legs :: IsIndexRoot(leg.symbol) || IsIndexRoot(OrText(leg.root, ""))
  {
    EchoOfRoot(legs[i]);
    assert legs[i] in legs;
  }

  /** The legs that come back show an index root only if the ticket had one. */
  lemma EchoRoots(p: Ticket, m: Ticket)
    requires m.legs == EchoLegs(p.legs) && m.underlier == OrText(Some(FirstSymbol(m.legs)), "UNKNOWN")
    requires HasIndexRoot(m)
    ensures HasIndexRoot(p)
  {
    EmptyIsNoRoot("");
    EmptyIsNoRoot("UNKNOWN");
    FirstSymbolIsOne(m.legs);
    if IsIndexRoot(m.underlier) {
      var i :| 0 <= i < |m.legs| && m.legs[i].symbol == FirstSymbol(m.legs);
      EchoRootAt(p.legs, i);
    } else {
      var leg :| leg in m.legs && (IsIndexRoot(leg.symbol) || IsIndexRoot(OrText(leg.root, "")));
      var i :| 0 <= i < |m.legs| && m.legs[i] == leg;
      EchoRootAt(p.legs, i);
    }
  }

  /** A price that fits 0.05 fits 0.01. */
  lemma CoarseFitsFine(x: real, coarse: real)
    requires coarse in {0.05, 0.01} && IsAllowed(x, x, coarse)
    ensures Snap(x, 0.01) == x
  {
    var n: int :| x == Times(n, coarse) && (x > 0.0 ==> n >= 1);
    if coarse == 0.05 {
      assert x == Times(5 * n, 0.01);
    }
    SnapFixesAllowed(x, 0.01);
  }

  // ----- for every answer -----

  /** The order an answer describes: its own, else the one asked for. */
  function AnswerOrder(asked: Order, resp: Response): Order {
    match resp.order case Some(o) => o case None => asked
  }

  function AnswerLegs(asked: Order, resp: Response): seq<Leg> {
    var o := AnswerOrder(asked, resp);
    ToLegs(if o.instruments == [] then asked.instruments else o.instruments)
  }

  /** The ticket after a preview. */
  function AfterPreview(p: Ticket, resp: Response, sent: real, answered: real): Ticket {
    MarkPreviewed(MarkPending(p, sent), resp, answered)
  }

  /** What the answer leaves in the ticket, field by field. */
  lemma AnsweredTicket(t: Ticket, a: Args, resp: Response, sent: real, answered: real)
    ensures var p := Prepare(t, a);
      var asked, m := p.request.value.orders.list[0], AfterPreview(p, resp, sent, answered);
      && m.legs == AnswerLegs(asked, resp) && m.prices.limit == OrField(AnswerOrder(asked, resp).limit, asked.limit)
      && m.prices.priceType == (match AnswerOrder(asked, resp).priceType case Some(x) => x case None => a.priceType)
      && m.orderType == (match resp.orderType case Some(x) => x case None => p.orderType)
      && m.intent == NO_INTENT && m.prices.suggested == None && m.clientOrderId == p.clientOrderId
      && m.request == p.request && m.underlier == OrText(Some(FirstSymbol(m.legs)), "UNKNOWN")
  {
  }

  /** How a preview leaves the ticket: with the id the broker gave, or failed when there is
      none but messages; the snapshot is gone, identity and history are kept. */
  lemma AnsweredState(p: Ticket, resp: Response, sent: real, answered: real)
    ensures var m := AfterPreview(p, resp, sent, answered);
      var previewed := resp.previewId.Some? && resp.previewId.value != "";
      && m.previewId == (if previewed then resp.previewId else None)
      && (m.status == Previewed <==> previewed) && (m.status == PreviewFailed <==> !previewed && resp.messages)
      && m.status in {Previewed, PreviewFailed, Draft}
      && m.lastPreviewAt == (if previewed || resp.messages then Some(answered) else None)
      && m.nextRetryAt == None && m.snapshot == None && m.place == None && m.prices.netPrice == resp.netPrice
      && m.attempts == p.attempts + 1 && m.createdAt == p.createdAt && m.id == p.id && m.account == p.account
      && m.source == p.source && m.strategy == p.strategy
  {
  }

  /** How a failure leaves it: as it was sent, to be tried again after five minutes when
      the service was busy. */
  lemma FailedState(p: Ticket, sent: real, failed: real, busy: bool)
    ensures var m := MarkFailed(MarkPending(p, sent), failed, busy);
      && m.status == PreviewFailed && m.lastPreviewAt == Some(failed) && m.attempts == p.attempts + 1
      && m.nextRetryAt == (if busy then Some(failed + 5.0) else None)
      && m.request == p.request && m.intent == p.intent && m.legs == p.legs && m.prices == p.prices
      && m.previewId == p.previewId && m.snapshot == p.snapshot && m.account == p.account
  {
  }

  /** What a retry of such a ticket chooses: terms of the answer only, the quantity and
      the expiry of its first leg for all legs. */
  lemma AnsweredChooses(m: Ticket, today: (int, int, int))
    requires m.intent == NO_INTENT && m.prices.suggested == None
    ensures var b := Chosen(m, today);
      && b.limit == OrOne(m.prices.limit) && b.priceType == OrText(Some(m.prices.priceType), "NET_CREDIT")
      && b.quantity == (if m.legs != [] && m.legs[0].quantity != 0.0 then Truncate(m.legs[0].quantity) else 1)
      && b.expiry == ChosenExpiry(m, today)
  {
  }

  /** The terms of an answered ticket are those that were prepared. */
  predicate AnswerAgrees(m: Ticket, today: (int, int, int), p: Ticket, a: Args) {
    && ResolveOrderType(m) == p.orderType && OrText(Some(m.prices.priceType), "NET_CREDIT") == a.priceType
    && Some(Snap(OrOne(m.prices.limit), Tick(m, a.priceType))) == p.prices.limit
    && SameLegs(m.legs, p.legs)
    && (p.legs == [] ||
          ((if m.legs != [] && m.legs[0].quantity != 0.0 then Truncate(m.legs[0].quantity) else 1) == a.quantity
           && ChosenExpiry(m, today) == a.expiry))
  }

  /** Whatever a preview was answered with, retrying the ticket asks for the order that
      was previewed exactly when the answer agrees with it: the order type resolved from
      the answer, its price type, its limit on the increment that applies then, the
      terms of every leg, and the quantity and expiry of the first. */
  lemma RebuildAfterPreviewIff(t: Ticket, a: Args, resp: Response, sent: real, answered: real, today: (int, int, int))
    ensures var p := Prepare(t, a);
      var m := AfterPreview(p, resp, sent, answered);
      Rebuild(m, today).request == p.request <==> AnswerAgrees(m, today, p, a)
  {
    var m := AfterPreview(Prepare(t, a), resp, sent, answered);
    AnsweredTicket(t, a, resp, sent, answered);
    AnsweredChooses(m, today);
    RebuildAsksIff(m, today, t, a);
  }

  // ----- an answer without an order -----

  predicate IsBare(resp: Response) { resp.order == None && resp.orderType == None }

  lemma EchoFields(t: Ticket, a: Args, resp: Response, sent: real, answered: real)
    requires IsBare(resp)
    ensures var p := Prepare(t, a);
      var m := AfterPreview(p, resp, sent, answered);
      && m.legs == EchoLegs(p.legs) && m.underlier == OrText(Some(FirstSymbol(m.legs)), "UNKNOWN")
      && m.orderType == p.orderType && m.prices.limit == p.prices.limit && m.prices.priceType == a.priceType
  {
    AnsweredTicket(t, a, resp, sent, answered);
    LegsRoundTrip(Prepare(t, a).legs);
  }

  lemma EchoSameLegs(legs: seq<Leg>, a: Args)
    ensures var p := PreparedLegs(legs, a);
      SameLegs(EchoLegs(p), p) && Corners(EchoLegs(p)) == Corners(p)
  {
    var p := PreparedLegs(legs, a);
    forall i | 0 <= i < |legs| ensures SameTerms(EchoLegs(p)[i], i, p[i]) {
      EchoOfRoot(p[i]);
    }
  }

  /** Such an answer loses intent and contract data, and still a complex order with a
      positive limit, a quantity and a complete date is asked for again exactly when its
      order type was settled. */
  lemma RebuildAfterBarePreviewIff(t: Ticket, a: Args, resp: Response, sent: real, answered: real, today: (int, int, int))
    requires IsBare(resp) && IsComplex(t.orderType) && a.limit > 0.0
    requires a.priceType != "" && a.quantity != 0 && IsFullDate(a.expiry)
    ensures var p := Prepare(t, a);
      Rebuild(AfterPreview(p, resp, sent, answered), today).request == p.request <==> IsSettled(t)
  {
    var p := Prepare(t, a);
    var m := AfterPreview(p, resp, sent, answered);
    EchoFields(t, a, resp, sent, answered);
    EchoSameLegs(t.legs, a);
    SnapPositive(a.limit, Tick(t, a.priceType));
    OrderTypeStaysIff(t, a);
    LimitFitsAgain(t, a, m);
    RebuildAfterPreviewIff(t, a, resp, sent, answered, today);
  }

  lemma LimitFitsAgain(t: Ticket, a: Args, m: Ticket)
    requires IsComplex(t.orderType) && a.limit > 0.0
    requires m.legs == EchoLegs(Prepare(t, a).legs) && m.underlier == OrText(Some(FirstSymbol(m.legs)), "UNKNOWN")
    requires m.orderType == Prepare(t, a).orderType
    ensures Snap(Prepare(t, a).prices.limit.value, Tick(m, a.priceType)) == Prepare(t, a).prices.limit.value
  {
    var limit, tick := Prepare(t, a).prices.limit.value, Tick(t, a.priceType);
    SnapTwice(a.limit, tick);
    SnapFixesAllowed(limit, tick);
    ComplexStays(t);
    if HasIndexRoot(m) {
      EchoRoots(Prepare(t, a), m);
      PreparingKeepsRoots(t, a);
      assert Tick(m, a.priceType) == tick;
    } else {
      CoarseFitsFine(limit, tick);
    }
  }

  // ----- what a preparation is -----

  /** A prepared ticket: its request reads back as its legs, every leg names its side and
      keeps its terms, the limit is the accepted price nearest to the one given, and the
      intent is complete but not confirmed. */
  lemma PreparationMeaning(t: Ticket, a: Args)
    ensures var p := Prepare(t, a);
      var order, tick := p.request.value.orders.list[0], Tick(t, a.priceType);
      && ToLegs(order.instruments) == EchoLegs(p.legs) && HasAllSides(p.legs) && |p.legs| == |t.legs|
      && (forall i | 0 <= i < |t.legs| :: p.legs[i].action == t.legs[i].action && p.legs[i].strike == t.legs[i].strike
            && p.legs[i].osi == t.legs[i].osi && p.legs[i].quantity == a.quantity as real && p.legs[i].expiry == a.expiry)
      && order.limit == Number(p.prices.limit.value) && p.intent.limit == p.prices.limit
      && IsAllowed(p.prices.limit.value, a.limit, tick)
      && (forall x | IsAllowed(x, a.limit, tick) :: Abs(p.prices.limit.value - a.limit) <= Abs(x - a.limit))
      && p.intent.ready && !p.intent.confirmed && p.attempts == t.attempts && p.previewId == t.previewId
  {
    var p := Prepare(t, a);
    LegsRoundTrip(p.legs);
    SnapIsAllowedAndNear(a.limit, Tick(t, a.priceType));
    forall x | IsAllowed(x, a.limit, Tick(t, a.priceType)) ensures Abs(p.prices.limit.value - a.limit) <= Abs(x - a.limit) {
      SnapIsNearest(a.limit, Tick(t, a.priceType), x);
    }
    forall leg | leg in p.legs ensures OrText(leg.callPut, "") != "" {
      var i :| 0 <= i < |p.legs| && p.legs[i] == leg;
    }
  }
}
