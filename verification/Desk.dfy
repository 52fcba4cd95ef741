/** The ticket operations of the web desk: preparing, retrying, confirming and
    submitting a ticket, enriching it with contracts, and creating tickets by hand or
    from an engine signal. */
module Desk {
  import opened Basics
  import opened Text
  import opened Tickets
  import opened TicketSteps
  import opened Quotes
  import opened PineModels
  import opened Stores
  import opened Previews
  import Bridge = PineBridge

  // ----- accounts -----

  /** Signal tickets follow the current default account. */
  function Remapped(t: Ticket, account: string): Ticket {
    if account != "" && t.source == Signal then t.(account := account) else t
  }

  function RemapSaved(w: World, t: Ticket, account: string): World {
    if Remapped(t, account) == t then w else Saved(w, Remapped(t, account))
  }

  // ----- retrying a preview -----

  datatype RetryEnv = RetryEnv(account: string, clientLoads: bool, outcome: Outcome, today: (int, int, int), now: real)

  predicate MayRetry(t: Ticket, now: real) {
    t.account != "" && t.request.Some? && (t.nextRetryAt == None || t.nextRetryAt.value <= now)
  }

  function Retried(w: World, id: string, env: RetryEnv): World {
    if id !in w.tickets then w
    else
      var t := Remapped(w.tickets[id], env.account);
      var w0 := RemapSaved(w, w.tickets[id], env.account);
      if !MayRetry(t, env.now) then w0
      else
        var r := Rebuild(t, env.today);
        var w1 := Noted(Saved(w0, r), Prepared(id));
        if env.clientLoads then Previewing(w1, r, env.outcome, env.now)
        else Noted(Noted(Saved(w1, MarkPending(r, env.now)), Pending(id)), ClientLost(id))
  }

  // ----- preparing from the ticket page -----

  datatype Form = Form(year: int, month: int, day: int, quantity: int, limit: real)

  /** The page always prepares a credit order. */
  function FormArgs(f: Form): Args {
    Args(Expiry(Some(f.year), Some(f.month), Some(f.day)), f.quantity, f.limit, None, "NET_CREDIT")
  }

  function PreparedByForm(w: World, id: string, account: string, f: Form): World {
    if id !in w.tickets then w
    else
      var t := Remapped(w.tickets[id], account);
      Noted(Saved(RemapSaved(w, w.tickets[id], account), Prepare(t, FormArgs(f))), Prepared(id))
  }

  // ----- confirming -----

  function WithConfirmation(t: Ticket, on: bool): Ticket { t.(intent := t.intent.(confirmed := on)) }

  function ConfirmedAs(w: World, id: string, on: bool): World {
    if id !in w.tickets then w
    else Noted(Saved(w, WithConfirmation(w.tickets[id], on)), Confirmed(id, on, w.tickets[id].request))
  }

  // ----- enriching -----

  function Suggested(w: World, id: string, found: Option<Bridge.Matched>, now: real): World {
    if id !in w.tickets || found == None || |found.value.contracts| != |w.tickets[id].legs| then w
    else
      var f := found.value;
      Noted(Saved(w, ApplySuggestion(w.tickets[id], f.symbol, f.expiry, f.contracts, now)), Enriched(id))
  }

  // ----- creating tickets -----

  datatype SignalFact = SignalFact(strategy: string, underlier: string, strikes: Strikes, clientOrderId: string)

  function SignalTicket(id: string, fact: SignalFact, account: string, nextDay: Expiry, now: real): (t: Ticket)
    ensures |t.legs| == 4
  {
    Ticket(id, Draft, Signal, Some(fact.strategy), fact.underlier, account, None,
           InferOrderType(Some(fact.strategy), 4), Some(fact.clientOrderId), Prices("NET_CREDIT", None, None, None), NO_INTENT,
           Bridge.SignalLegs(Bridge.BrokerSymbol(fact.underlier), fact.strikes, nextDay), 0, now, None, None, None, None, None)
  }

  /** A signal makes a ticket when a default account is set, enriched when its contracts are found. */
  function Ingested(w: World, number: string, fact: SignalFact, account: string, found: Option<Bridge.Matched>,
                    nextDay: Expiry, now: real): World {
    if account == "" then w
    else
      var t := SignalTicket(Bridge.NewId(number), fact, account, nextDay, now);
      var w' := Noted(Saved(w, t), Created(t.id));
      Suggested(w', t.id, found, now)
  }

  const NO_RESPONSE := Response(None, None, None, false, None)

  function ManualTicket(id: string, account: string, req: Request, now: real): Ticket {
    FromPreview(id, account, req, NO_RESPONSE, Some("manual_preview"), Manual, now).(
      status := PreviewPending, attempts := 0, lastPreviewAt := None)
  }

  /** A request entered by hand becomes a ticket and is previewed; when the client does
      not load, the ticket is marked failed without an attempt. */
  function EnteredByHand(w: World, number: string, account: string, req: Request, clientLoads: bool, out: Outcome, now: real): World {
    var t := ManualTicket(Bridge.NewId(number), account, req, now);
    var w' := Noted(Saved(w, t), Created(t.id));
    if clientLoads then Previewing(w', t, out, now) else Saved(w', MarkFailed(t, now, false))
  }

  // ----- submitting -----

  /** Oldest acceptable ages, in minutes. */
  datatype Thresholds = Thresholds(signal: real, preview: real, snapshot: real)

  predicate IsFresh(at: Option<real>, now: real, limit: real) {
    at.Some? && (if now - at.value > 0.0 then now - at.value else 0.0) <= limit
  }

  predicate HasContracts(t: Ticket) {
    t.legs != [] && forall leg | leg in t.legs :: OrText(leg.osi, "") != ""
  }

  predicate IsReady(t: Ticket, now: real, max: Thresholds) {
    && t.intent.ready && t.intent.confirmed && HasContracts(t)
    && (t.previewId.Some? || t.status == Previewed)
    && (t.source == Signal ==> IsFresh(Some(t.createdAt), now, max.signal))
    && IsFresh(t.lastPreviewAt, now, max.preview) && IsFresh(t.snapshot, now, max.snapshot)
  }

  function ShortId(s: string): string {
    var c := Bridge.Alnum(s);
    var d := if c == "" then "starshipexec" else c;
    if |d| <= 20 then d else d[..20]
  }

  /** The place request made from the stored preview request, None when it raises. */
  function PlaceRequestOf(t: Ticket): Option<PlaceRequest> {
    if t.request == None || t.request.value == NO_REQUEST || t.previewId == None then None
    else
      var req := t.request.value;
      if !req.orders.Many? || req.orders.list == [] then None
      else
        var orderType := Strip(OrText(req.orderType, t.orderType));
        if orderType == "" then None
        else Some(PlaceRequest(orderType, ShortId(OrText(req.clientOrderId, OrText(t.clientOrderId, t.id + "exec"))),
                               t.previewId.value, req.orders.list))
  }

  datatype Mode = Disabled | DryRun | Live

  datatype SubmitEnv = SubmitEnv(mode: Mode, allowLive: bool, clientLoads: bool, accepted: bool, now: real, max: Thresholds)

  predicate GoesLive(env: SubmitEnv) { env.mode == Live && env.allowLive }

  function Packaged(t: Ticket, place: PlaceRequest, submitted: bool): Ticket {
    t.(place := Some(place), status := if submitted then Submitted else t.status)
  }

  function SubmittedAs(w: World, id: string, env: SubmitEnv): World {
    if id !in w.tickets || !IsReady(w.tickets[id], env.now, env.max) || PlaceRequestOf(w.tickets[id]) == None then w
    else
      var t := w.tickets[id];
      var place := PlaceRequestOf(t).value;
      if !GoesLive(env) then Saved(w, Packaged(t, place, false))
      else if !env.clientLoads then w
      else
        var w' := Noted(w, Placed(id, t.account, place));
        if env.accepted then Saved(w', Packaged(t, place, true)) else w'
  }
}
