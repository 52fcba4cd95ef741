/** What each desk operation does to the world, and what it leaves alone. */
module DeskRules {
  import opened Basics
  import opened Text
  import opened Tickets
  import opened TicketSteps
  import opened Rebuilding
  import opened Quotes
  import opened PineModels
  import opened Stores
  import opened Previews
  import opened Desk
  import opened History
  import opened PineRules

  /** No state and no ticket but one differs. */
  ghost predicate OnlyTicket(w: World, w': World, id: string) {
    && w'.states == w.states
    && forall i | i != id :: (i in w'.tickets <==> i in w.tickets) && (i in w.tickets ==> w'.tickets[i] == w.tickets[i])
  }

  predicate IsKeyed(w: World, id: string) { id in w.tickets ==> w.tickets[id].id == id }

  /** A signal ticket follows the default account, nothing else does and nothing else
      changes; following twice is following once. */
  lemma RemapMeaning(t: Ticket, account: string)
    ensures var r := Remapped(t, account);
      && r == t.(account := r.account) && Remapped(r, account) == r
      && (r.account == account || r.account == t.account)
      && (r.account != t.account ==> t.source == Signal && account != "")
      && (t.source == Signal && account != "" ==> r.account == account)
  {
  }

  lemma PreparedAsks(w: World, t: Ticket, id: string)
    ensures Asks(Noted(Saved(w, t), Prepared(id)).log) == Asks(w.log)
  {
    AsksNoted(w.log, Prepared(id));
  }

  lemma LostAsks(log: seq<Note>, id: string)
    ensures Asks(log + [Pending(id)] + [ClientLost(id)]) == Asks(log)
  {
    AsksNoted(log, Pending(id));
    AsksNoted(log + [Pending(id)], ClientLost(id));
  }

  lemma FinishedIntent(t: Ticket, out: Outcome, now: real)
    ensures var final := Finished(MarkPending(t, now), out, now);
      final.intent == if out.Answers? then NO_INTENT else t.intent
  {
  }

  lemma LoadedRetry(w: World, r: Ticket, out: Outcome, now: real)
    ensures var w' := Previewing(Noted(Saved(w, r), Prepared(r.id)), r, out, now);
      && OnlyTicket(w, w', r.id) && r.id in w'.tickets && w'.tickets[r.id] == Finished(MarkPending(r, now), out, now)
      && Asks(w'.log) == Asks(w.log) + 1 && w'.log != w.log
  {
    var w1 := Noted(Saved(w, r), Prepared(r.id));
    PreparedAsks(w, r, r.id);
    PreviewingAsks(w1, r, out, now);
    FinishedCounts(r, out, now);
  }

  lemma LostRetry(w: World, r: Ticket, now: real)
    ensures var w1 := Noted(Saved(w, r), Prepared(r.id));
      var w' := Noted(Noted(Saved(w1, MarkPending(r, now)), Pending(r.id)), ClientLost(r.id));
      && OnlyTicket(w, w', r.id) && r.id in w'.tickets && w'.tickets[r.id] == MarkPending(r, now)
      && Asks(w'.log) == Asks(w.log) && w'.log != w.log
  {
    var w1 := Noted(Saved(w, r), Prepared(r.id));
    PreparedAsks(w, r, r.id);
    LostAsks(w1.log, r.id);
    assert |w1.log + [Pending(r.id)] + [ClientLost(r.id)]| > |w.log|;
  }

  lemma RemappedWorld(w: World, id: string, account: string)
    requires id in w.tickets && w.tickets[id].id == id
    ensures var w0 := RemapSaved(w, w.tickets[id], account);
      && OnlyTicket(w, w0, id) && id in w0.tickets && w0.tickets[id] == Remapped(w.tickets[id], account) && w0.log == w.log
  {
  }

  lemma OnlyTicketTwice(w: World, w0: World, w': World, id: string)
    requires OnlyTicket(w, w0, id) && OnlyTicket(w0, w', id)
    ensures OnlyTicket(w, w', id)
  {
  }

  /** What a retry makes of the ticket once the account is followed. */
  lemma RetryAfterRemap(w: World, t: Ticket, env: RetryEnv)
    requires t.id in w.tickets
    ensures var r := Rebuild(t, env.today);
      var w1 := Noted(Saved(w, r), Prepared(t.id));
      var w' := if env.clientLoads then Previewing(w1, r, env.outcome, env.now)
                else Noted(Noted(Saved(w1, MarkPending(r, env.now)), Pending(t.id)), ClientLost(t.id));
      && OnlyTicket(w, w', t.id) && t.id in w'.tickets && w'.log != w.log
      && w'.tickets[t.id].attempts == t.attempts + 1 && Asks(w'.log) == Asks(w.log) + (if env.clientLoads then 1 else 0)
      && !w'.tickets[t.id].intent.confirmed
      && (w'.tickets[t.id].intent.ready <==> !(env.clientLoads && env.outcome.Answers?))
  {
    var r := Rebuild(t, env.today);
    LoadedRetry(w, r, env.outcome, env.now);
    LostRetry(w, r, env.now);
    FinishedCounts(r, env.outcome, env.now);
    FinishedIntent(r, env.outcome, env.now);
  }

  /** A retry that passes its gates counts one attempt, asks the broker once if the
      client loads, leaves the ticket unconfirmed, and prepared unless the preview
      succeeded; one that does not pass them changes the account at most. */
  lemma RetryMeaning(w: World, id: string, env: RetryEnv)
    requires IsKeyed(w, id)
    ensures var w' := Retried(w, id, env);
      && OnlyTicket(w, w', id) && (w'.log != w.log <==> id in w.tickets && MayRetry(Remapped(w.tickets[id], env.account), env.now))
      && (w'.log == w.log && id in w.tickets ==> id in w'.tickets && w'.tickets[id] == Remapped(w.tickets[id], env.account))
      && (w'.log != w.log ==>
            && id in w'.tickets && w'.tickets[id].attempts == w.tickets[id].attempts + 1
            && Asks(w'.log) == Asks(w.log) + (if env.clientLoads then 1 else 0)
            && !w'.tickets[id].intent.confirmed
            && (w'.tickets[id].intent.ready <==> !(env.clientLoads && env.outcome.Answers?)))
  {
    if id in w.tickets {
      var t := Remapped(w.tickets[id], env.account);
      var w0 := RemapSaved(w, w.tickets[id], env.account);
      RemappedWorld(w, id, env.account);
      if MayRetry(t, env.now) {
        RetryAfterRemap(w0, t, env);
        OnlyTicketTwice(w, w0, Retried(w, id, env), id);
      }
    }
  }

  /** Preparing from the page makes an unconfirmed credit order of the ticket and keeps
      its preview id; the broker is not asked. */
  lemma FormMeaning(w: World, id: string, account: string, f: Form)
    requires IsKeyed(w, id)
    ensures var w' := PreparedByForm(w, id, account, f);
      && OnlyTicket(w, w', id) && Asks(w'.log) == Asks(w.log) && (id !in w.tickets ==> w' == w)
      && (id in w.tickets ==>
            var t, t' := w.tickets[id], w'.tickets[id];
            && id in w'.tickets && t'.intent.ready && !t'.intent.confirmed && t'.previewId == t.previewId
            && t'.status == Ready && t'.request.Some? && t'.request.value.orders.Many?
            && |t'.request.value.orders.list| == 1 && t'.request.value.orders.list[0].priceType == Some("NET_CREDIT")
            && |t'.legs| == |t.legs| && HasAllSides(t'.legs))
  {
    if id in w.tickets {
      var t := Remapped(w.tickets[id], account);
      PreparedAsks(RemapSaved(w, w.tickets[id], account), Prepare(t, FormArgs(f)), id);
      PreparationMeaning(t, FormArgs(f));
    }
  }

  lemma ConfirmationAlone(t: Ticket, on: bool)
    ensures WithConfirmation(t, on).intent.confirmed == on
    ensures WithConfirmation(WithConfirmation(t, on), t.intent.confirmed) == t
  {
  }

  lemma ConfirmNoted(log: seq<Note>, id: string, on: bool, req: Option<Request>)
    ensures Asks(log + [Confirmed(id, on, req)]) == Asks(log)
    ensures TrackOf(log + [Confirmed(id, on, req)], id).confirmed == if on then Some(req) else None
  {
    AsksNoted(log, Confirmed(id, on, req));
    TrackNoted(log, Confirmed(id, on, req), id);
  }

  /** Confirming changes the confirmation and nothing else, and the request confirmed is
      the one stored. */
  lemma ConfirmMeaning(w: World, id: string, on: bool)
    requires IsKeyed(w, id)
    ensures var w' := ConfirmedAs(w, id, on);
      && OnlyTicket(w, w', id) && Asks(w'.log) == Asks(w.log) && (id !in w.tickets ==> w' == w)
      && (id in w.tickets ==>
            && id in w'.tickets && w'.tickets[id].intent.confirmed == on
            && WithConfirmation(w'.tickets[id], w.tickets[id].intent.confirmed) == w.tickets[id]
            && TrackOf(w'.log, id).confirmed == if on then Some(w.tickets[id].request) else None)
  {
    if id in w.tickets {
      var t := w.tickets[id];
      ConfirmationAlone(t, on);
      ConfirmNoted(w.log, id, on, t.request);
      assert ConfirmedAs(w, id, on).tickets[id] == WithConfirmation(t, on);
    }
  }

  /** Enriching renews the snapshot and what the legs are contracts of; the request, the
      intent with its confirmation, and the terms of the legs stay. */
  lemma SuggestMeaning(w: World, id: string, found: Option<Bridge.Matched>, now: real)
    requires IsKeyed(w, id)
    ensures var w' := Suggested(w, id, found, now);
      && OnlyTicket(w, w', id) && Asks(w'.log) == Asks(w.log)
      && (w'.log != w.log <==> id in w.tickets && found.Some? && |found.value.contracts| == |w.tickets[id].legs|)
      && (w'.log == w.log ==> w' == w)
      && (w'.log != w.log ==>
            var t, t' := w.tickets[id], w'.tickets[id];
            && id in w'.tickets && t'.snapshot == Some(now) && t'.intent == t.intent && t'.request == t.request
            && t'.previewId == t.previewId && t'.attempts == t.attempts && |t'.legs| == |t.legs|
            && forall i | 0 <= i < |t.legs| :: t'.legs[i].action == t.legs[i].action && t'.legs[i].strike == t.legs[i].strike
                 && t'.legs[i].callPut == Some(InferSide(t.legs[i], i)))
  {
    AsksNoted(w.log, Enriched(id));
    assert |w.log + [Enriched(id)]| > |w.log|;
  }

  /** A signal makes exactly one draft without a request, unless no account is set; the
      broker is not asked for a preview. */
  lemma IngestMeaning(w: World, number: string, fact: SignalFact, account: string, found: Option<Bridge.Matched>,
                      nextDay: Expiry, now: real)
    ensures var w', id := Ingested(w, number, fact, account, found, nextDay, now), Bridge.NewId(number);
      && OnlyTicket(w, w', id) && Asks(w'.log) == Asks(w.log) && (account == "" <==> w'.log == w.log)
      && (account == "" ==> w' == w)
      && (account != "" ==>
            && id in w'.tickets && w'.tickets[id].request == None && !w'.tickets[id].intent.ready
            && w'.tickets[id].account == account && |w'.tickets[id].legs| == 4
            && (w'.tickets[id].snapshot.Some? <==> found.Some? && |found.value.contracts| == 4))
  {
    if account != "" {
      var t := SignalTicket(Bridge.NewId(number), fact, account, nextDay, now);
      var w1 := Noted(Saved(w, t), Created(t.id));
      AsksNoted(w.log, Created(t.id));
      SuggestMeaning(w1, t.id, found, now);
      assert |Ingested(w, number, fact, account, found, nextDay, now).log| > |w.log|;
    }
  }

  /** A request entered by hand makes exactly one ticket that keeps it, and one attempt
      and one submission if the client loads, none otherwise. */
  lemma EnterMeaning(w: World, number: string, account: string, req: Request, clientLoads: bool, out: Outcome, now: real)
    ensures var w', id := EnteredByHand(w, number, account, req, clientLoads, out, now), Bridge.NewId(number);
      && OnlyTicket(w, w', id) && id in w'.tickets && w'.tickets[id].request == Some(req)
      && w'.tickets[id].attempts == (if clientLoads then 1 else 0) && !w'.tickets[id].intent.ready
      && Asks(w'.log) == Asks(w.log) + (if clientLoads then 1 else 0)
  {
    var t := ManualTicket(Bridge.NewId(number), account, req, now);
    var w1 := Noted(Saved(w, t), Created(t.id));
    AsksNoted(w.log, Created(t.id));
    PreviewingAsks(w1, t, out, now);
    FinishedCounts(t, out, now);
    FinishedIntent(t, out, now);
  }

  /** An order goes out at most once per submission, exactly when the ticket is ready, a
      place request can be made, execution is live and allowed and the client loads; the
      ticket keeps everything but status and place request. */
  lemma SubmitMeaning(w: World, id: string, env: SubmitEnv)
    requires IsKeyed(w, id)
    ensures var w' := SubmittedAs(w, id, env);
      && OnlyTicket(w, w', id) && Asks(w'.log) == Asks(w.log) && (id !in w.tickets ==> w' == w)
      && (id in w.tickets ==>
            var t := w.tickets[id];
            var goes := IsReady(t, env.now, env.max) && PlaceRequestOf(t).Some? && GoesLive(env) && env.clientLoads;
            && id in w'.tickets && w'.tickets[id].(place := t.place, status := t.status) == t
            && w'.log == (if goes then w.log + [Placed(id, t.account, PlaceRequestOf(t).value)] else w.log)
            && (w'.tickets[id].status != t.status ==> goes && env.accepted && w'.tickets[id].status == Submitted))
  {
    if id in w.tickets && PlaceRequestOf(w.tickets[id]).Some? {
      AsksNoted(w.log, Placed(id, w.tickets[id].account, PlaceRequestOf(w.tickets[id]).value));
    }
  }

  // ----- when an order goes out -----

  /** No older than the limit; a time ahead of the clock counts as age 0. */
  predicate IsRecent(at: Option<real>, now: real, limit: real) {
    at.Some? && limit >= 0.0 && now - at.value <= limit
  }

  /** Prepared, confirmed and previewed, with contracts for its legs. */
  predicate IsComplete(t: Ticket) {
    && t.intent.ready && t.intent.confirmed && (t.previewId.Some? || t.status == Previewed)
    && t.legs != [] && forall i | 0 <= i < |t.legs| :: t.legs[i].osi.Some? && t.legs[i].osi.value != ""
  }

  predicate IsUpToDate(t: Ticket, now: real, max: Thresholds) {
    && IsRecent(t.lastPreviewAt, now, max.preview) && IsRecent(t.snapshot, now, max.snapshot)
    && (t.source == Signal ==> IsRecent(Some(t.createdAt), now, max.signal))
  }

  /** The order type of the request, else of the ticket, without blanks around it. */
  predicate IsOrderType(s: string, t: Ticket, req: Request) {
    s == Strip(if req.orderType.Some? && req.orderType.value != "" then req.orderType.value else t.orderType)
  }

  /** There is a stored request with orders, and a preview to place them under. */
  predicate HasOrders(t: Ticket) {
    && t.request.Some? && t.previewId.Some? && t.request.value.orders.Many? && t.request.value.orders.list != []
    && !IsOrderType("", t, t.request.value)
  }

  predicate IsLive(env: SubmitEnv) { env.mode == Live && env.allowLive }

  /** The place request: the stored orders as they were previewed, under the preview's
      id, with a client order id of at most 20 letters and digits. */
  predicate IsPlaceOf(place: PlaceRequest, t: Ticket)
    requires HasOrders(t)
  {
    && place.orders == t.request.value.orders.list && place.previewId == t.previewId.value
    && IsOrderType(place.orderType, t, t.request.value) && Bridge.IsClientId(place.clientOrderId)
    && (OrText(t.request.value.clientOrderId, "") != "" && Bridge.IsClientId(t.request.value.clientOrderId.value) ==>
          place.clientOrderId == t.request.value.clientOrderId.value)
  }

  lemma ShortIdMeaning(s: string)
    ensures Bridge.IsClientId(ShortId(s)) && (Bridge.IsClientId(s) ==> ShortId(s) == s)
  {
    Bridge.AlnumMeaning(s);
    var c := Bridge.Alnum(s);
    var d := if c == "" then "starshipexec" else c;
    assert forall i | 0 <= i < |d| :: d[i] in d;
    assert forall c | c in d :: Bridge.IsAlnum(c);
  }

  lemma PlaceIff(t: Ticket)
    ensures PlaceRequestOf(t).Some? <==> HasOrders(t)
    ensures HasOrders(t) ==> IsPlaceOf(PlaceRequestOf(t).value, t)
  {
    if HasOrders(t) {
      ShortIdMeaning(OrText(t.request.value.clientOrderId, OrText(t.clientOrderId, t.id + "exec")));
    }
  }

  lemma ReadyIff(t: Ticket, now: real, max: Thresholds)
    ensures IsReady(t, now, max) <==> IsComplete(t) && IsUpToDate(t, now, max)
  {
    if HasContracts(t) {
      assert forall i | 0 <= i < |t.legs| :: t.legs[i] in t.legs;
    }
  }

  /** The log gains an order exactly when the ticket is complete and up to date, a place
      request can be made of it, execution is live and allowed, and the client loads; it
      is the order stored. When execution is not live the request is only packaged. */
  lemma SubmitIff(w: World, id: string, env: SubmitEnv)
    ensures var w' := SubmittedAs(w, id, env);
      var ready := id in w.tickets && IsComplete(w.tickets[id]) && IsUpToDate(w.tickets[id], env.now, env.max) && HasOrders(w.tickets[id]);
      && (w'.log != w.log <==> ready && IsLive(env) && env.clientLoads)
      && (w'.log != w.log ==> exists place :: w'.log == w.log + [Placed(id, w.tickets[id].account, place)] && IsPlaceOf(place, w.tickets[id]))
      && (ready && !IsLive(env) && w.tickets[id].id == id ==>
            && id in w'.tickets && w'.tickets[id].status == w.tickets[id].status
            && w'.tickets[id].place.Some? && IsPlaceOf(w'.tickets[id].place.value, w.tickets[id]))
  {
    if id in w.tickets {
      ReadyIff(w.tickets[id], env.now, env.max);
      PlaceIff(w.tickets[id]);
      if PlaceRequestOf(w.tickets[id]).Some? {
        var note := Placed(id, w.tickets[id].account, PlaceRequestOf(w.tickets[id]).value);
        assert |w.log + [note]| > |w.log|;
      }
    }
  }

  // ----- when a retry is allowed -----

  /** The account a ticket is retried for. */
  function AccountFor(t: Ticket, account: string): string {
    if t.source == Signal && account != "" then account else t.account
  }

  /** A retry is made exactly when there is an account and a stored request and the time
      to wait, if there is one, is over. */
  lemma RetryIff(w: World, id: string, env: RetryEnv)
    requires IsKeyed(w, id)
    ensures Retried(w, id, env).log != w.log <==>
      && id in w.tickets && AccountFor(w.tickets[id], env.account) != "" && w.tickets[id].request.Some?
      && (w.tickets[id].nextRetryAt.Some? ==> w.tickets[id].nextRetryAt.value <= env.now)
  {
    RetryMeaning(w, id, env);
  }

  lemma FailedTicket(t: Ticket, today: (int, int, int), now: real, busy: bool)
    ensures var f := Finished(MarkPending(Rebuild(t, today), now), Fails(busy), now);
      && f.id == t.id && f.request.Some? && f.account == t.account
      && f.nextRetryAt == (if busy then Some(now + 5.0) else None)
  {
  }

  lemma RetriedTicket(w: World, id: string, env: RetryEnv)
    requires IsKeyed(w, id) && id in w.tickets && env.clientLoads && MayRetry(Remapped(w.tickets[id], env.account), env.now)
    ensures var t := Remapped(w.tickets[id], env.account);
      && id in Retried(w, id, env).tickets
      && Retried(w, id, env).tickets[id] == Finished(MarkPending(Rebuild(t, env.today), env.now), env.outcome, env.now)
  {
    LoadedRetry(RemapSaved(w, w.tickets[id], env.account), Rebuild(Remapped(w.tickets[id], env.account), env.today), env.outcome, env.now);
  }

  lemma FailedRetry(w: World, id: string, env: RetryEnv, busy: bool)
    requires IsKeyed(w, id) && env.clientLoads && env.outcome == Fails(busy) && Retried(w, id, env).log != w.log
    ensures var w' := Retried(w, id, env);
      && id in w'.tickets && w'.tickets[id].id == id && w'.tickets[id].request.Some?
      && w'.tickets[id].account == AccountFor(w.tickets[id], env.account)
      && w'.tickets[id].nextRetryAt == (if busy then Some(env.now + 5.0) else None)
  {
    RetryMeaning(w, id, env);
    RetriedTicket(w, id, env);
    FailedTicket(Remapped(w.tickets[id], env.account), env.today, env.now, busy);
  }

  /** After a failed preview the next retry waits five minutes if the service was busy,
      and otherwise not at all. */
  lemma BusyWaits(w: World, id: string, env: RetryEnv, busy: bool, later: RetryEnv)
    requires IsKeyed(w, id) && env.clientLoads && env.outcome == Fails(busy)
    ensures var w' := Retried(w, id, env);
      w'.log != w.log ==> (Retried(w', id, later).log != w'.log <==> !busy || later.now >= env.now + 5.0)
  {
    var w' := Retried(w, id, env);
    if w'.log != w.log {
      RetryIff(w, id, env);
      FailedRetry(w, id, env, busy);
      RetryIff(w', id, later);
    }
  }

  // ----- the legs of created and enriched tickets -----

  /** Sold at the short strikes and bought at the long ones. */
  predicate SellsShorts(s: Strikes, legs: seq<Leg>) {
    && |legs| == 4
    && legs[0].action == "SELL_OPEN" && legs[0].strike == s.shortPut && legs[1].action == "BUY_OPEN" && legs[1].strike == s.longPut
    && legs[2].action == "SELL_OPEN" && legs[2].strike == s.shortCall && legs[3].action == "BUY_OPEN" && legs[3].strike == s.longCall
  }

  /** A leg of a draft no contract was found for: on the broker's symbol, for the next day. */
  predicate IsUnmatched(leg: Leg, underlier: string, nextDay: Expiry) {
    && leg.expiry == nextDay && leg.osi == None && leg.callPut == None && leg.quantity == 1.0
    && leg.symbol == if Norm(underlier) == "SPXW" then "SPX" else Norm(underlier)
  }

  /** Without contracts a signal's draft waits for the next trading day's. */
  lemma UnmatchedDraft(w: World, number: string, fact: SignalFact, account: string, nextDay: Expiry, now: real)
    requires account != ""
    ensures var w', id := Ingested(w, number, fact, account, None, nextDay, now), Bridge.NewId(number);
      && id in w'.tickets && |w'.tickets[id].legs| == 4 && w'.tickets[id].snapshot == None
      && forall i | 0 <= i < 4 :: IsUnmatched(w'.tickets[id].legs[i], fact.underlier, nextDay)
  {
  }

  /** The draft of a signal carries the signal's condor and is filed under its strategy; four
      legs of the condor strategy are a condor, of any other a spread. */
  lemma IngestSellsShorts(w: World, number: string, fact: SignalFact, account: string, found: Option<Bridge.Matched>,
                          nextDay: Expiry, now: real)
    requires account != ""
    ensures var w', id := Ingested(w, number, fact, account, found, nextDay, now), Bridge.NewId(number);
      && id in w'.tickets && SellsShorts(fact.strikes, w'.tickets[id].legs)
      && w'.tickets[id].source == Signal && w'.tickets[id].strategy == Some(fact.strategy)
      && w'.tickets[id].underlier == fact.underlier && w'.tickets[id].createdAt == now
      && w'.tickets[id].clientOrderId == Some(fact.clientOrderId) && w'.tickets[id].prices.priceType == "NET_CREDIT"
      && w'.tickets[id].orderType == (if Lower(Strip(fact.strategy)) == "condor" then "IRON_CONDOR" else "SPREADS")
  {
    var t := SignalTicket(Bridge.NewId(number), fact, account, nextDay, now);
    SuggestMeaning(Noted(Saved(w, t), Created(t.id)), t.id, found, now);
  }

  lemma SuggestedCredit(t: Ticket, symbol: string, expiry: Expiry, contracts: seq<Contract>, now: real)
    requires |contracts| == |t.legs|
    ensures var r := ApplySuggestion(t, symbol, expiry, contracts, now).prices.suggested;
      var qs := QuotesOf(t.legs, contracts, |t.legs|);
      (r.Some? <==> qs.Some?) && (r.Some? ==> IsMidCredit(qs.value, r.value))
  {
    var qs := QuotesOf(t.legs, contracts, |t.legs|);
    if qs.Some? {
      TotalsBySide(qs.value);
      RoundPriceInCents(Max(Total(qs.value, OpenMidOf), 0.01));
    }
  }

  lemma SuggestedIs(w: World, id: string, found: Bridge.Matched, now: real)
    requires IsKeyed(w, id) && id in w.tickets && |found.contracts| == |w.tickets[id].legs|
    ensures id in Suggested(w, id, Some(found), now).tickets
    ensures Suggested(w, id, Some(found), now).tickets[id] ==
      ApplySuggestion(w.tickets[id], found.symbol, found.expiry, found.contracts, now)
  {
  }

  /** The credit an enriched ticket suggests: the mid over its legs in cents, at least one
      cent, when every contract is quoted. */
  lemma SuggestCredit(w: World, id: string, found: Bridge.Matched, now: real)
    requires IsKeyed(w, id) && id in w.tickets && |found.contracts| == |w.tickets[id].legs|
    ensures id in Suggested(w, id, Some(found), now).tickets
    ensures var t, r := w.tickets[id], Suggested(w, id, Some(found), now).tickets[id].prices.suggested;
      var qs := QuotesOf(t.legs, found.contracts, |t.legs|);
      && (qs.Some? <==> forall i | 0 <= i < |t.legs| :: found.contracts[i].bid.Some? && found.contracts[i].ask.Some?)
      && (r.Some? <==> qs.Some?) && (r.Some? ==> IsMidCredit(qs.value, r.value))
  {
    SuggestedIs(w, id, found, now);
    SuggestedCredit(w.tickets[id], found.symbol, found.expiry, found.contracts, now);
    QuotesMeaning(w.tickets[id].legs, found.contracts, |w.tickets[id].legs|);
  }

  /** Enriching gives every leg the chain's symbol and expiry and the contract found for
      it; a contract without an identifier leaves the leg's own. A leg that is a put or a
      call stays one. */
  lemma SuggestLegs(w: World, id: string, found: Bridge.Matched, now: real)
    requires IsKeyed(w, id) && id in w.tickets && |found.contracts| == |w.tickets[id].legs|
    ensures var w' := Suggested(w, id, Some(found), now);
      && id in w'.tickets && |w'.tickets[id].legs| == |w.tickets[id].legs|
      && forall i | 0 <= i < |w.tickets[id].legs| ::
           var leg, c := w'.tickets[id].legs[i], found.contracts[i];
           && leg.symbol == found.symbol && leg.expiry == found.expiry && leg.quantity == w.tickets[id].legs[i].quantity
           && (w.tickets[id].legs[i].callPut in {Some("PUT"), Some("CALL")} ==> leg.callPut == w.tickets[id].legs[i].callPut)
           && leg.osi == if c.osi.Some? then c.osi else w.tickets[id].legs[i].osi
  {
  }
}
