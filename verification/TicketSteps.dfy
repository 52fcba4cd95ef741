/** Steps a ticket goes through: preparing and rebuilding its preview request, and the
    marks left by a pending, failed or successful preview. */
module TicketSteps {
  import opened Basics
  import opened Text
  import opened Pricing
  import opened Tickets

  // ----- the price increment -----

  predicate IsIndexRoot(s: string) { Norm(s) in {"SPX", "SPXW"} }

  predicate HasIndexRoot(t: Ticket) {
    || IsIndexRoot(t.underlier)
    || exists leg | leg in t.legs :: IsIndexRoot(leg.symbol) || IsIndexRoot(OrText(leg.root, ""))
  }

  predicate IsComplex(orderType: string) { Norm(orderType) in {CONDOR, SPREADS} }

  function TickFor(priceType: string, orderType: string, indexRoot: bool): (r: real)
    ensures r > 0.0
  {
    if Norm(priceType) in {"NET_CREDIT", "NET_DEBIT"} && indexRoot && IsComplex(orderType) then 0.05 else 0.01
  }

  function Tick(t: Ticket, priceType: string): (r: real)
    ensures r > 0.0
  {
    TickFor(priceType, t.orderType, HasIndexRoot(t))
  }

  /** SPX or SPXW in any spelling. */
  predicate NamesIndex(s: string) { Norm(s) == "SPX" || Norm(s) == "SPXW" }

  /** An index ticket of a complex order type. */
  predicate TradesInNickels(orderType: string, underlier: string, legs: seq<Leg>) {
    && (Norm(orderType) == "IRON_CONDOR" || Norm(orderType) == "SPREADS")
    && (NamesIndex(underlier) || exists leg | leg in legs :: NamesIndex(leg.symbol) || NamesIndex(OrText(leg.root, "")))
  }

  /** A net price of an index condor or spread moves by 0.05, every other price by 0.01. */
  lemma TickMeaning(t: Ticket, priceType: string)
    ensures Tick(t, priceType) == if (Norm(priceType) == "NET_CREDIT" || Norm(priceType) == "NET_DEBIT")
                                     && TradesInNickels(t.orderType, t.underlier, t.legs) then 0.05 else 0.01
  {
    assert forall s: string :: IsIndexRoot(s) <==> NamesIndex(s);
  }

  // ----- preparing -----

  datatype Args = Args(expiry: Expiry, quantity: int, limit: real, clientOrderId: Option<string>, priceType: string)

  /** The leg at position i with its missing put/call side filled in. */
  function Filled(leg: Leg, i: nat): Leg {
    leg.(callPut := Some(OrText(leg.callPut, if Contains(leg.strikeKey, "put") || i <= 1 then "PUT" else "CALL")))
  }

  function PreparedLeg(leg: Leg, i: nat, a: Args): Leg {
    Filled(leg, i).(quantity := a.quantity as real, expiry := a.expiry)
  }

  function PreparedLegs(legs: seq<Leg>, a: Args): (r: seq<Leg>)
    ensures |r| == |legs|
  {
    seq(|legs|, i requires 0 <= i < |legs| => PreparedLeg(legs[i], i, a))
  }

  function OrderSymbol(leg: Leg): string { Strip(OrText(leg.root, leg.symbol)) }

  function InstrumentOf(leg: Leg): Option<Instrument> {
    Some(Instrument(OrderSymbol(leg), leg.action, Some(leg.quantity), leg.callPut, leg.expiry, leg.strike, None))
  }

  function Instruments(legs: seq<Leg>): (r: seq<Option<Instrument>>)
    ensures |r| == |legs|
  {
    seq(|legs|, i requires 0 <= i < |legs| => InstrumentOf(legs[i]))
  }

  function ClientOrderId(t: Ticket, given: Option<string>): string {
    OrText(given, OrText(t.clientOrderId, t.id + "-preview"))
  }

  function PreparedRequest(orderType: string, clientOrderId: string, priceType: string, limit: real, legs: seq<Leg>): Request {
    Request(Some(orderType), Some(clientOrderId),
            Many([Order(Some(priceType), Number(limit), Instruments(legs))]))
  }

  function Prepare(t: Ticket, a: Args): Ticket {
    var limit := Snap(a.limit, Tick(t, a.priceType));
    var orderType, client, legs := ResolveOrderType(t), ClientOrderId(t, a.clientOrderId), PreparedLegs(t.legs, a);
    t.(status := Ready,
       legs := legs,
       prices := t.prices.(priceType := a.priceType, limit := Some(limit)),
       clientOrderId := Some(client),
       orderType := orderType,
       intent := Intent(Some(a.quantity), Some(a.priceType), Some(limit), false, true),
       request := Some(PreparedRequest(orderType, client, a.priceType, limit, legs)),
       nextRetryAt := None)
  }

  /** The loop that fills the legs and writes their instruments. */
  method PrepareLegs(given: seq<Leg>, a: Args) returns (legs: seq<Leg>, instruments: seq<Option<Instrument>>)
    ensures legs == PreparedLegs(given, a) && instruments == Instruments(legs)
  {
    legs, instruments := [], [];
    for i := 0 to |given|
      invariant |legs| == i && forall j | 0 <= j < i :: legs[j] == PreparedLeg(given[j], j, a)
      invariant |instruments| == i && forall j | 0 <= j < i :: instruments[j] == InstrumentOf(legs[j])
    {
      var leg := given[i];
      var side := OrText(leg.callPut, if Contains(leg.strikeKey, "put") || i + 1 <= 2 then "PUT" else "CALL");
      var prepared := leg.(quantity := a.quantity as real, callPut := Some(side), expiry := a.expiry);
      legs := legs + [prepared];
      instruments := instruments + [InstrumentOf(prepared)];
    }
  }

  method PrepareTicketForPreview(t: Ticket, a: Args) returns (r: Ticket)
    ensures r == Prepare(t, a)
  {
    var limit := Snap(a.limit, Tick(t, a.priceType));
    var orderType := ResolveOrderType(t);
    var legs, instruments := PrepareLegs(t.legs, a);
    var client := ClientOrderId(t, a.clientOrderId);
    r := t.(status := Ready, legs := legs,
            prices := t.prices.(priceType := a.priceType, limit := Some(limit)),
            clientOrderId := Some(client), orderType := orderType,
            intent := Intent(Some(a.quantity), Some(a.priceType), Some(limit), false, true),
            request := Some(Request(Some(orderType), Some(client), Many([Order(Some(a.priceType), Number(limit), instruments)]))),
            nextRetryAt := None);
  }

  // ----- rebuilding -----

  /** int() of a float drops the fraction. */
  function Truncate(x: real): int { if x >= 0.0 then x.Floor else -((-x).Floor) }

  function ChosenQuantity(t: Ticket): int {
    if OrInt(t.intent.quantity, 0) != 0 then t.intent.quantity.value
    else if t.legs != [] && t.legs[0].quantity != 0.0 then Truncate(t.legs[0].quantity)
    else 1
  }

  function ChosenLimit(t: Ticket): real {
    var l := OrReal(t.intent.limit, OrReal(t.prices.limit, OrReal(t.prices.suggested, None)));
    if l.Some? then l.value else 1.0
  }

  /** today supplies the date parts the first leg does not have. */
  function ChosenExpiry(t: Ticket, today: (int, int, int)): Expiry {
    var e := if t.legs != [] then t.legs[0].expiry else Expiry(None, None, None);
    Expiry(Some(OrInt(e.year, today.0)), Some(OrInt(e.month, today.1)), Some(OrInt(e.day, today.2)))
  }

  function Chosen(t: Ticket, today: (int, int, int)): Args {
    Args(ChosenExpiry(t, today), ChosenQuantity(t), ChosenLimit(t), Some(OrText(t.clientOrderId, t.id + "-preview")),
         OrText(t.intent.priceType, OrText(Some(t.prices.priceType), "NET_CREDIT")))
  }

  function Rebuild(t: Ticket, today: (int, int, int)): Ticket { Prepare(t, Chosen(t, today)) }

  predicate IsGiven(x: Option<int>) { x.Some? && x.value != 0 }

  /** A part of a date: the one given, else today's. */
  predicate IsDatePart(x: Option<int>, given: bool, own: Option<int>, today: int) {
    if given then x == own else x == Some(today)
  }

  /** What a rebuilt request is made with: the first quantity and the first limit that are
      given and not 0, in the order intent, order, suggestion and, for the quantity, the
      first leg; else 1. Its date is the first leg's, filled up with today's parts. */
  lemma ChosenMeaning(t: Ticket, today: (int, int, int))
    ensures var a := Chosen(t, today);
      && Some(a.limit) == FirstGiven([t.intent.limit, t.prices.limit, t.prices.suggested], Some(1.0))
      && (t.intent.quantity.Some? && t.intent.quantity.value != 0 ==> a.quantity == t.intent.quantity.value)
      && (t.intent.quantity == None || t.intent.quantity.value == 0 ==>
            if t.legs != [] && t.legs[0].quantity != 0.0 then a.quantity as real == t.legs[0].quantity - Fraction(t.legs[0].quantity)
            else a.quantity == 1)
      && IsDatePart(a.expiry.year, t.legs != [] && IsGiven(t.legs[0].expiry.year), if t.legs != [] then t.legs[0].expiry.year else None, today.0)
      && IsDatePart(a.expiry.month, t.legs != [] && IsGiven(t.legs[0].expiry.month), if t.legs != [] then t.legs[0].expiry.month else None, today.1)
      && IsDatePart(a.expiry.day, t.legs != [] && IsGiven(t.legs[0].expiry.day), if t.legs != [] then t.legs[0].expiry.day else None, today.2)
      && (t.clientOrderId.Some? && t.clientOrderId.value != "" ==> a.clientOrderId == t.clientOrderId)
      && (t.intent.priceType.Some? && t.intent.priceType.value != "" ==> Some(a.priceType) == t.intent.priceType)
  {
    var a, b, c := t.intent.limit, t.prices.limit, t.prices.suggested;
    FirstGivenOf(c, [], Some(1.0));
    FirstGivenOf(b, [c], Some(1.0));
    FirstGivenOf(a, [b, c], Some(1.0));
    assert [c] + [] == [c] && [b] + [c] == [b, c] && [a] + [b, c] == [a, b, c];
  }

  /** What is left of a number beyond its whole part, with its sign. */
  function Fraction(x: real): (f: real)
    ensures (x >= 0.0 ==> 0.0 <= f < 1.0) && (x <= 0.0 ==> -1.0 < f <= 0.0) && (x - f).Floor as real == x - f
  {
    x - Truncate(x) as real
  }

  // ----- marks -----

  function MarkPending(t: Ticket, now: real): Ticket {
    t.(status := PreviewPending, attempts := t.attempts + 1, lastPreviewAt := Some(now))
  }

  /** busy: the broker's preview service is not available at the moment. */
  function MarkFailed(t: Ticket, now: real, busy: bool): Ticket {
    t.(status := PreviewFailed, lastPreviewAt := Some(now), nextRetryAt := if busy then Some(now + 5.0) else None)
  }

  function ToLeg(i: Instrument): Leg {
    Leg(i.symbol, i.action, if i.quantity.Some? then i.quantity.value else 0.0, i.callPut, i.expiry, i.strike, i.osi, "", None)
  }

  function ToLegs(s: seq<Option<Instrument>>): seq<Leg> {
    if s == [] then []
    else ToLegs(s[..|s| - 1]) + if s[|s| - 1].Some? then [ToLeg(s[|s| - 1].value)] else []
  }

  /** Instruments that can be read become legs, in their order; a quantity that is missing
      counts as 0. */
  lemma {:induction false} ToLegsMeaning(s: seq<Option<Instrument>>, x: Option<Instrument>)
    ensures x == None ==> ToLegs(s + [x]) == ToLegs(s)
    ensures x.Some? ==> |ToLegs(s + [x])| == |ToLegs(s)| + 1 && ToLegs(s) <= ToLegs(s + [x])
    ensures x.Some? ==>
      var leg := ToLegs(s + [x])[|ToLegs(s)|];
      && leg.symbol == x.value.symbol && leg.action == x.value.action && leg.callPut == x.value.callPut
      && leg.expiry == x.value.expiry && leg.strike == x.value.strike && leg.osi == x.value.osi
      && (x.value.quantity.Some? ==> Some(leg.quantity) == x.value.quantity) && (x.value.quantity == None ==> leg.quantity == 0.0)
  {
    assert (s + [x])[..|s|] == s;
  }

  function FirstSymbol(legs: seq<Leg>): string {
    if legs == [] then "" else if legs[0].symbol != "" then legs[0].symbol else FirstSymbol(legs[1..])
  }

  function FirstOrder(o: Orders): Option<Order> {
    match o
    case Missing => None
    case One(order) => Some(order)
    case Many(list) => if list == [] then None else Some(list[0])
  }

  function OrField(x: Field, y: Field): Option<real> {
    var f := if x.Absent? then y else x;
    if f.Number? then Some(f.value) else None
  }

  const EMPTY_ORDER := Order(None, Absent, [])

  function AsSome(s: string): Option<string> { if s == "" then None else Some(s) }

  function FromPreview(id: string, account: string, req: Request, resp: Response,
                       strategy: Option<string>, source: Source, now: real): Ticket {
    var asked := match FirstOrder(req.orders) case Some(o) => o case None => EMPTY_ORDER;
    var order := match resp.order case Some(o) => o case None => asked;
    var legs := ToLegs(if order.instruments == [] then asked.instruments else order.instruments);
    var previewId := AsSome(OrText(resp.previewId, ""));
    var seen := if previewId.Some? || resp.messages then Some(now) else None;
    Ticket(id, if previewId.Some? then Previewed else if resp.messages then PreviewFailed else Draft, source, strategy,
           OrText(Some(FirstSymbol(legs)), "UNKNOWN"), account, previewId,
           match resp.orderType case Some(o) => o case None => (match req.orderType case Some(o) => o case None => ""),
           req.clientOrderId,
           Prices(match order.priceType case Some(p) => p case None => (match asked.priceType case Some(p) => p case None => ""),
                  OrField(order.limit, asked.limit), resp.netPrice, None),
           NO_INTENT, legs, if seen.Some? then 1 else 0, now, seen, None, None, Some(req), None)
  }

  const NO_REQUEST := Request(None, None, Missing)

  /** A successful preview builds the ticket anew from request and answer; identity,
      creation time and the count of attempts are carried over. */
  function MarkPreviewed(t: Ticket, resp: Response, now: real): Ticket {
    var req := match t.request case Some(r) => r case None => NO_REQUEST;
    FromPreview(t.id, t.account, req, resp, t.strategy, t.source, now).(
      createdAt := t.createdAt, attempts := t.attempts, request := t.request)
  }
}
