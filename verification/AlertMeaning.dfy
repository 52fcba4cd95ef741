/** What alerts do, told in terms of the alert and the position: the orders they ask the
    broker for, and the position they leave. */
module AlertMeaning {
  import opened Basics
  import opened Text
  import opened Pricing
  import opened Tickets
  import opened TicketSteps
  import opened Rebuilding
  import opened Quotes
  import opened PineModels
  import opened Stores
  import opened Previews
  import opened PineBridge
  import opened PineRules

  // ----- what is asked -----

  /** Between the two logs the broker is asked for req once, for ticket id. */
  ghost predicate AsksFor(log: seq<Note>, log': seq<Note>, id: string, account: string, req: Option<Request>) {
    && log <= log' && Asks(log') == Asks(log) + 1
    && exists k :: |log| <= k < |log'| && log'[k] == Asked(id, account, req)
  }

  lemma MadeAsks(w: World, p: Ticket, env: Env, n: Note)
    requires !n.Asked?
    ensures AsksFor(w.log, Made(w, Some(p), env).log + [n], p.id, p.account, p.request)
  {
    var log' := Made(w, Some(p), env).log + [n];
    MadeTickets(w, p, env);
    AsksNoted(Made(w, Some(p), env).log, n);
    assert log'[|w.log| + 4] == Asked(p.id, p.account, p.request);
  }

  /** The answer brings legs of its own. */
  predicate BringsLegs(out: Outcome) { out.Answers? && out.response.order.Some? && out.response.order.value.instruments != [] }

  /** A preview keeps the request, and the legs too unless the answer brings its own; an
      answer loses contract data only. */
  lemma OutcomeKeeps(t: Ticket, a: Args, out: Outcome, now: real)
    ensures var p := Prepare(t, a);
      var final := Finished(MarkPending(p, now), out, now);
      && final.request == p.request && final.account == p.account
      && (!BringsLegs(out) ==> final.legs == if out.Fails? then p.legs else EchoLegs(p.legs))
  {
    var p := Prepare(t, a);
    LegsRoundTrip(p.legs);
  }

  /** The new ticket: filed now, as a signal's, with one attempt; a failed preview leaves the
      market snapshot that was taken with it. */
  predicate IsFiled(t: Ticket, account: string, strategy: string, env: Env) {
    && t.source == Signal && t.account == account && t.strategy == Some(strategy) && t.createdAt == env.now && t.attempts == 1
    && (env.outcome.Fails? ==> t.snapshot == Some(env.now) && t.lastPreviewAt == Some(env.now) && t.status == PreviewFailed)
  }

  lemma PreparedIsFiled(t: Ticket, a: Args, strategy: string, env: Env)
    requires t.source == Signal && t.strategy == Some(strategy) && t.createdAt == env.now && t.attempts == 0 && t.snapshot == Some(env.now)
    ensures IsFiled(Finished(MarkPending(Prepare(t, a), env.now), env.outcome, env.now), t.account, strategy, env)
  {
  }

  /** The accepted price nearest to the one asked for. */
  ghost predicate IsLimit(limit: Field, asked: real, step: real) {
    && limit.Number? && IsAllowed(limit.value, asked, step)
    && forall x | IsAllowed(x, asked, step) :: Abs(limit.value - asked) <= Abs(x - asked)
  }

  lemma PreparedLimit(t: Ticket, a: Args)
    ensures IsLimit(Prepare(t, a).request.value.orders.list[0].limit, a.limit, Tick(t, a.priceType))
  {
    PreparationMeaning(t, a);
  }

  lemma NetPriceTypes()
    ensures Norm("NET_CREDIT") == "NET_CREDIT" && Norm("NET_DEBIT") == "NET_DEBIT" && Norm("IRON_CONDOR") == "IRON_CONDOR"
  {
    assert IsPlain("NET_CREDIT") && IsPlain("NET_DEBIT") && IsPlain("IRON_CONDOR");
    NormOfPlain("NET_CREDIT");
    NormOfPlain("NET_DEBIT");
    NormOfPlain("IRON_CONDOR");
  }

  /** The date sent: the one known, with 0 for a part that is missing. */
  predicate IsSentDate(known: Expiry, sent: Expiry) {
    && sent.year == Some(if known.year == None then 0 else known.year.value)
    && sent.month == Some(if known.month == None then 0 else known.month.value)
    && sent.day == Some(if known.day == None then 0 else known.day.value)
  }

  // ----- closing -----

  /** close undoes open: what was sold to open is bought to close and the other way
      round, in either spelling; an action that opens nothing stays. */
  predicate Undoes(open: string, close: string) {
    && (open == "SELL_OPEN" ==> close == "BUY_CLOSE") && (open == "BUY_OPEN" ==> close == "SELL_CLOSE")
    && (open == "SELL_TO_OPEN" ==> close == "BUY_TO_CLOSE") && (open == "BUY_TO_OPEN" ==> close == "SELL_TO_CLOSE")
    && (open !in {"SELL_OPEN", "BUY_OPEN", "SELL_TO_OPEN", "BUY_TO_OPEN"} ==> close == open)
  }

  /** A leg, or its instrument, on the strike and side of an entry leg. */
  predicate OnStrikeOf(open: Leg, strike: Option<real>, side: Option<string>) {
    strike == open.strike && (OrText(open.callPut, "") != "" ==> side == open.callPut)
  }

  predicate ClosesLegs(entry: seq<Leg>, legs: seq<Leg>) {
    |legs| == |entry| && forall i | 0 <= i < |entry| ::
      Undoes(entry[i].action, legs[i].action) && OnStrikeOf(entry[i], legs[i].strike, legs[i].callPut)
  }

  predicate ClosesLeg(open: Leg, x: Option<Instrument>, quantity: int, date: Expiry) {
    && x.Some? && Undoes(open.action, x.value.action) && OnStrikeOf(open, x.value.strike, x.value.callPut)
    && x.value.quantity == Some(quantity as real) && IsSentDate(date, x.value.expiry)
    && x.value.symbol == Strip(if open.root.Some? && open.root.value != "" then open.root.value else open.symbol)
  }

  predicate ClosesOrder(entry: seq<Leg>, quantity: int, req: Request)
    requires entry != []
  {
    && req.orders.Many? && |req.orders.list| == 1 && req.orders.list[0].priceType == Some("NET_DEBIT")
    && |req.orders.list[0].instruments| == |entry|
    && forall i | 0 <= i < |entry| :: ClosesLeg(entry[i], req.orders.list[0].instruments[i], quantity, entry[0].expiry)
  }

  /** The request goes out under the alert's id. */
  predicate IsTaggedRequest(prefix: string, id: string, req: Request) {
    req.clientOrderId.Some? && IsTagged(prefix, id, req.clientOrderId.value)
  }

  lemma CloseLegAt(entry: Ticket, e: Event, env: Env, a: Args, i: nat)
    requires i < |entry.legs|
    ensures var leg := Prepare(CloseTicket(entry, e, env), a).legs[i];
      Undoes(entry.legs[i].action, leg.action) && OnStrikeOf(entry.legs[i], leg.strike, leg.callPut)
  {
  }

  lemma CloseInstrumentAt(entry: Ticket, e: Event, env: Env, a: Args, i: nat)
    requires i < |entry.legs| && IsSentDate(entry.legs[0].expiry, a.expiry)
    ensures ClosesLeg(entry.legs[i], InstrumentOf(Prepare(CloseTicket(entry, e, env), a).legs[i]), a.quantity, entry.legs[0].expiry)
  {
    CloseLegAt(entry, e, env, a, i);
  }

  lemma CloseIsTagged(entry: Ticket, e: Event, env: Env, limit: real, quantity: int)
    requires entry.legs != []
    ensures IsTaggedRequest("close", e.id, PreparedClose(entry, e, env, limit, quantity).request.value)
  {
    CompactIsTagged("close", e.id);
  }

  lemma ClosePrepared(entry: Ticket, e: Event, env: Env, limit: real, quantity: int)
    requires entry.legs != []
    ensures var p := PreparedClose(entry, e, env, limit, quantity);
      && p.id == "tt-" + env.number && p.account == entry.account && p.request.Some?
      && ClosesLegs(entry.legs, p.legs) && ClosesLegs(entry.legs, EchoLegs(p.legs))
      && ClosesOrder(entry.legs, quantity, p.request.value)
  {
    var t := CloseTicket(entry, e, env);
    var a := ArgsFor(t, quantity, limit, "NET_DEBIT");
    var p := Prepare(t, a);
    assert IsSentDate(entry.legs[0].expiry, a.expiry);
    forall i | 0 <= i < |entry.legs|
      ensures Undoes(entry.legs[i].action, p.legs[i].action) && OnStrikeOf(entry.legs[i], p.legs[i].strike, p.legs[i].callPut)
    {
      CloseLegAt(entry, e, env, a, i);
    }
    var order := p.request.value.orders.list[0];
    forall i | 0 <= i < |entry.legs| ensures ClosesLeg(entry.legs[i], order.instruments[i], quantity, entry.legs[0].expiry) {
      CloseInstrumentAt(entry, e, env, a, i);
    }
  }

  /** The quantity a CLOSE asks for: its own, else the position's. */
  predicate IsCloseQuantity(q: int, e: Event, s: PineState) {
    if e.quantity != 0 then q == e.quantity else q == s.quantity
  }

  lemma ClosePreviewed(entry: Ticket, e: Event, env: Env, limit: real, quantity: int)
    requires entry.legs != []
    ensures var p := PreparedClose(entry, e, env, limit, quantity);
      var final := Finished(MarkPending(p, env.now), env.outcome, env.now);
      final.request == p.request && (!BringsLegs(env.outcome) ==> ClosesLegs(entry.legs, final.legs))
  {
    var t := CloseTicket(entry, e, env);
    OutcomeKeeps(t, ArgsFor(t, quantity, limit, "NET_DEBIT"), env.outcome, env.now);
    ClosePrepared(entry, e, env, limit, quantity);
  }

  /** The debit a CLOSE is for: the alert's, else the price of closing at mid. */
  predicate IsCloseDebit(d: real, entry: Ticket, e: Event, env: Env) {
    if e.targetClose.Some? && e.targetClose.value != 0.0 then d == e.targetClose.value
    else var m := LiveMark(entry, env.live, e.targetEntry, env.pointValue); m.Some? && d == m.value.closeMid
  }

  lemma ReversedTrades(orderType: string, underlier: string, legs: seq<Leg>)
    ensures TradesInNickels(orderType, underlier, ReverseLegs(legs)) == TradesInNickels(orderType, underlier, legs)
  {
    var back := ReverseLegs(legs);
    forall leg | leg in legs && (NamesIndex(leg.symbol) || NamesIndex(OrText(leg.root, "")))
      ensures exists l | l in back :: NamesIndex(l.symbol) || NamesIndex(OrText(l.root, ""))
    {
      var i :| 0 <= i < |legs| && legs[i] == leg;
      assert back[i] in back;
    }
    forall leg | leg in back && (NamesIndex(leg.symbol) || NamesIndex(OrText(leg.root, "")))
      ensures exists l | l in legs :: NamesIndex(l.symbol) || NamesIndex(OrText(l.root, ""))
    {
      var i :| 0 <= i < |back| && back[i] == leg;
      assert legs[i] in legs;
    }
  }

  lemma CloseStep(entry: Ticket, e: Event, env: Env)
    ensures Tick(CloseTicket(entry, e, env), "NET_DEBIT") ==
      if TradesInNickels(entry.orderType, entry.underlier, entry.legs) then 0.05 else 0.01
  {
    NetPriceTypes();
    TickMeaning(CloseTicket(entry, e, env), "NET_DEBIT");
    ReversedTrades(entry.orderType, entry.underlier, entry.legs);
  }

  /** The limit of a close order: the accepted price nearest to its debit. */
  ghost predicate HasCloseLimit(limit: Field, entry: Ticket, e: Event, env: Env) {
    exists d :: IsCloseDebit(d, entry, e, env)
      && IsLimit(limit, d, if TradesInNickels(entry.orderType, entry.underlier, entry.legs) then 0.05 else 0.01)
  }

  lemma CloseIsLimited(entry: Ticket, e: Event, env: Env, limit: real, quantity: int)
    requires entry.legs != [] && CloseLimit(entry, e, env) == Some(limit)
    ensures HasCloseLimit(PreparedClose(entry, e, env, limit, quantity).request.value.orders.list[0].limit, entry, e, env)
  {
    var t := CloseTicket(entry, e, env);
    CloseStep(entry, e, env);
    PreparedLimit(t, ArgsFor(t, quantity, limit, "NET_DEBIT"));
    assert IsCloseDebit(limit, entry, e, env);
  }

  /** The entry a CLOSE finds in a world. */
  ghost predicate FindsEntry(w: World, sid: string, entry: Ticket) {
    && sid in w.states && w.states[sid].entry.Some? && w.states[sid].entry.value in w.tickets
    && w.tickets[w.states[sid].entry.value] == entry
  }

  lemma CloseIsAccepted(w: World, sid: string, e: Event, env: Env) returns (entry: Ticket, limit: real, c: Change)
    requires Process(w, sid, e, env).1 in {ClosedOut, CloseFailed}
    ensures FindsEntry(w, sid, entry) && entry.legs != [] && CloseLimit(entry, e, env) == Some(limit)
    ensures var p := PreparedClose(entry, e, env, limit, OrInt(Some(e.quantity), w.states[sid].quantity));
      Process(w, sid, e, env).0 == Accept(Made(w, Some(p), env), sid, w.states[sid], e, c, env.now)
  {
    entry := EntryOf(w, StateOf(w, sid, e)).value;
    limit := CloseLimit(entry, e, env).value;
    c := CloseChange("tt-" + env.number, env.outcome.Answers?);
  }

  /** What a world says of the ticket a CLOSE made from an entry. */
  ghost predicate ClosesEntry(w: World, w': World, s: PineState, entry: Ticket, e: Event, env: Env) {
    var id := "tt-" + env.number;
    && id in w'.tickets && w'.tickets[id].request.Some?
    && AsksFor(w.log, w'.log, id, entry.account, w'.tickets[id].request)
    && IsFiled(w'.tickets[id], entry.account, e.strategy + ":close", env)
    && entry.legs != [] && (exists q :: IsCloseQuantity(q, e, s) && ClosesOrder(entry.legs, q, w'.tickets[id].request.value))
    && IsTaggedRequest("close", e.id, w'.tickets[id].request.value)
    && HasCloseLimit(w'.tickets[id].request.value.orders.list[0].limit, entry, e, env)
    && (!BringsLegs(env.outcome) ==> ClosesLegs(entry.legs, w'.tickets[id].legs))
  }

  lemma CloseIsFiled(entry: Ticket, e: Event, env: Env, limit: real, quantity: int)
    requires entry.legs != []
    ensures var p := PreparedClose(entry, e, env, limit, quantity);
      IsFiled(Finished(MarkPending(p, env.now), env.outcome, env.now), entry.account, e.strategy + ":close", env)
  {
    var t := CloseTicket(entry, e, env);
    PreparedIsFiled(t, ArgsFor(t, quantity, limit, "NET_DEBIT"), e.strategy + ":close", env);
  }

  lemma AcceptedClose(w: World, sid: string, s: PineState, entry: Ticket, e: Event, env: Env, limit: real, c: Change)
    requires entry.legs != [] && CloseLimit(entry, e, env) == Some(limit)
    ensures var p := PreparedClose(entry, e, env, limit, OrInt(Some(e.quantity), s.quantity));
      ClosesEntry(w, Accept(Made(w, Some(p), env), sid, s, e, c, env.now), s, entry, e, env)
  {
    var q := OrInt(Some(e.quantity), s.quantity);
    var p := PreparedClose(entry, e, env, limit, q);
    ClosePrepared(entry, e, env, limit, q);
    ClosePreviewed(entry, e, env, limit, q);
    MadeTickets(w, p, env);
    MadeAsks(w, p, env, Accepted(sid, e.id));
    CloseIsLimited(entry, e, env, limit, q);
    CloseIsTagged(entry, e, env, limit, q);
    CloseIsFiled(entry, e, env, limit, q);
    assert IsCloseQuantity(q, e, s);
  }

  /** A CLOSE that makes a ticket asks the broker, once and from the entry's account, for
      a debit order with one instrument per entry leg, on the same strike and side and
      with the action that undoes the entry's, at the accepted price nearest to the debit
      given or quoted. The ticket keeps that request, and legs to match unless the
      broker's answer brings its own. */
  lemma CloseUndoesEntry(w: World, sid: string, e: Event, env: Env)
    ensures var (w', r) := Process(w, sid, e, env);
      r in {ClosedOut, CloseFailed} ==>
        exists entry :: FindsEntry(w, sid, entry) && ClosesEntry(w, w', w.states[sid], entry, e, env)
  {
    if Process(w, sid, e, env).1 in {ClosedOut, CloseFailed} {
      var entry, limit, c := CloseIsAccepted(w, sid, e, env);
      AcceptedClose(w, sid, w.states[sid], entry, e, env, limit, c);
    }
  }

  // ----- opening -----

  lemma ContainedIsFound(s: string, part: string, c: char)
    requires Contains(s, part) && part != "" && part[0] == c
    ensures c in s
  {
    var i :| 0 <= i <= |s| - |part| && PartAt(s, i, |part|) == part;
    assert s[i] == PartAt(s, i, |part|)[0];
  }

  lemma CallKeys()
    ensures !Contains("short_call", "put") && !Contains("long_call", "put")
  {
    if Contains("short_call", "put") {
      ContainedIsFound("short_call", "put", 'p');
    }
    if Contains("long_call", "put") {
      ContainedIsFound("long_call", "put", 'p');
    }
  }

  /** The action, the side and the strike of an instrument, and the quantity. */
  predicate OpensLeg(x: Option<Instrument>, action: string, side: string, strike: Option<real>, quantity: int) {
    && x.Some? && x.value.action == action && x.value.callPut == Some(side) && x.value.strike == strike
    && x.value.quantity == Some(quantity as real)
  }

  /** The root a contract lists, else the chain's symbol. */
  function SymbolFor(c: Contract, m: Matched): string {
    var root := Norm(if c.root.Some? then c.root.value else "");
    Strip(if root != "" then root else m.symbol)
  }

  /** An instrument is traded under the symbol of its contract, on the date the contracts
      were found for. */
  predicate NamesContract(x: Option<Instrument>, c: Contract, m: Matched) {
    x.Some? && x.value.symbol == SymbolFor(c, m) && IsSentDate(m.expiry, x.value.expiry)
  }

  predicate NamesContracts(req: Request, m: Matched) {
    && req.orders.Many? && |req.orders.list| == 1 && |req.orders.list[0].instruments| == |m.contracts|
    && forall i | 0 <= i < |m.contracts| :: NamesContract(req.orders.list[0].instruments[i], m.contracts[i], m)
  }

  /** Every leg holds the identifier of its contract. */
  predicate HoldsContracts(legs: seq<Leg>, m: Matched) {
    |legs| == |m.contracts| && forall i | 0 <= i < |legs| :: legs[i].osi == m.contracts[i].osi
  }

  /** A condor for a credit: both short strikes sold, both long strikes bought. */
  predicate OpensCondor(s: Strikes, quantity: int, req: Request) {
    && req.orders.Many? && |req.orders.list| == 1 && req.orders.list[0].priceType == Some("NET_CREDIT")
    && var x := req.orders.list[0].instruments;
       && |x| == 4 && OpensLeg(x[0], "SELL_OPEN", "PUT", s.shortPut, quantity) && OpensLeg(x[1], "BUY_OPEN", "PUT", s.longPut, quantity)
       && OpensLeg(x[2], "SELL_OPEN", "CALL", s.shortCall, quantity) && OpensLeg(x[3], "BUY_OPEN", "CALL", s.longCall, quantity)
  }

  predicate IsLeg(leg: Leg, action: string, side: string, strike: Option<real>) {
    leg.action == action && leg.callPut == Some(side) && leg.strike == strike
  }

  predicate IsCondor(s: Strikes, legs: seq<Leg>) {
    && |legs| == 4 && IsLeg(legs[0], "SELL_OPEN", "PUT", s.shortPut) && IsLeg(legs[1], "BUY_OPEN", "PUT", s.longPut)
    && IsLeg(legs[2], "SELL_OPEN", "CALL", s.shortCall) && IsLeg(legs[3], "BUY_OPEN", "CALL", s.longCall)
  }

  lemma SignalLegsMatched(symbol: string, s: Strikes, expiry: Expiry, t: Ticket, m: Matched, now: real)
    requires t.legs == SignalLegs(symbol, s, expiry) && |m.contracts| == 4
    ensures IsCondor(s, ApplyMatches(t, m.symbol, m.expiry, m.contracts, now).legs)
    ensures IsCondor(s, ApplySuggestion(t, m.symbol, m.expiry, m.contracts, now).legs)
  {
    CallKeys();
  }

  lemma CondorPrepared(s: Strikes, t: Ticket, a: Args)
    requires IsCondor(s, t.legs) && a.priceType == "NET_CREDIT"
    ensures var p := Prepare(t, a);
      IsCondor(s, p.legs) && IsCondor(s, EchoLegs(p.legs)) && OpensCondor(s, a.quantity, p.request.value)
  {
    var p := Prepare(t, a);
    assert p.request.value.orders.list[0].instruments == Instruments(p.legs);
  }

  /** How the entry ticket was matched and what it was prepared with. */
  lemma MatchedEntryMeaning(e: Event, env: Env) returns (t: Ticket, a: Args)
    requires PreparedEntry(e, env).Some?
    ensures env.found.Some? && |env.found.value.contracts| == 4 && PreparedEntry(e, env).value == Prepare(t, a)
    ensures var m := env.found.value; t == ApplyMatches(EntryTicket(e, env), m.symbol, m.expiry, m.contracts, env.now)
    ensures a.expiry == SentExpiry(env.found.value.expiry) && a.clientOrderId == Some(CompactId("pine", e.id))
    ensures a.priceType == "NET_CREDIT" && OrReal(e.targetEntry, t.prices.suggested) == Some(a.limit)
  {
    t := MatchedEntry(e, env);
    a := ArgsFor(t, e.quantity, OrReal(e.targetEntry, t.prices.suggested).value, "NET_CREDIT");
  }

  lemma PreparedNames(t: Ticket, a: Args, m: Matched)
    requires MatchesSymbols(t.legs, m) && a.expiry == SentExpiry(m.expiry)
    ensures NamesContracts(Prepare(t, a).request.value, m) && HoldsContracts(Prepare(t, a).legs, m)
  {
    var p := Prepare(t, a);
    forall i | 0 <= i < |m.contracts| ensures NamesContract(p.request.value.orders.list[0].instruments[i], m.contracts[i], m) {
      assert OrderSymbol(p.legs[i]) == OrderSymbol(t.legs[i]);
    }
  }

  lemma PreparedIsTagged(t: Ticket, a: Args, prefix: string, id: string)
    requires a.clientOrderId.Some? && IsTagged(prefix, id, a.clientOrderId.value)
    ensures IsTaggedRequest(prefix, id, Prepare(t, a).request.value)
  {
  }

  predicate MatchesSymbols(legs: seq<Leg>, m: Matched) {
    |legs| == |m.contracts| && forall i | 0 <= i < |legs| :: OrderSymbol(legs[i]) == SymbolFor(m.contracts[i], m) && legs[i].osi == m.contracts[i].osi
  }

  lemma MatchedSymbol(leg: Leg, i: nat, m: Matched, c: Contract)
    requires leg.root == None && leg.osi == None
    ensures var matched := MatchedLeg(leg, i, m.symbol, m.expiry, c);
      OrderSymbol(matched) == SymbolFor(c, m) && matched.osi == c.osi
  {
    KnownNames("");
  }

  lemma AppliedMatches(t: Ticket, m: Matched, now: real)
    requires |m.contracts| == |t.legs| && forall i | 0 <= i < |t.legs| :: t.legs[i].root == None && t.legs[i].osi == None
    ensures MatchesSymbols(ApplyMatches(t, m.symbol, m.expiry, m.contracts, now).legs, m)
  {
    var legs := ApplyMatches(t, m.symbol, m.expiry, m.contracts, now).legs;
    forall i | 0 <= i < |legs| ensures OrderSymbol(legs[i]) == SymbolFor(m.contracts[i], m) && legs[i].osi == m.contracts[i].osi {
      MatchedSymbol(t.legs[i], i, m, m.contracts[i]);
    }
  }

  lemma EntryIsMatched(e: Event, env: Env, t: Ticket, m: Matched)
    requires env.found == Some(m) && |m.contracts| == 4
    requires t == ApplyMatches(EntryTicket(e, env), m.symbol, m.expiry, m.contracts, env.now)
    ensures MatchesSymbols(t.legs, m)
  {
    AppliedMatches(EntryTicket(e, env), m, env.now);
  }

  lemma EntryIsTagged(t: Ticket, a: Args, id: string, p: Ticket)
    requires p == Prepare(t, a) && a.clientOrderId == Some(CompactId("pine", id))
    ensures IsTaggedRequest("pine", id, p.request.value)
  {
    CompactIsTagged("pine", id);
    PreparedIsTagged(t, a, "pine", id);
  }

  lemma EntryPrepared(e: Event, env: Env, p: Ticket)
    requires PreparedEntry(e, env) == Some(p)
    ensures p.id == "tt-" + env.number && p.account == env.account && p.request.Some?
    ensures OpensCondor(e.strikes, e.quantity, p.request.value)
    ensures var final := Finished(MarkPending(p, env.now), env.outcome, env.now);
      final.request == p.request && (!BringsLegs(env.outcome) ==> IsCondor(e.strikes, final.legs))
  {
    var t := MatchedEntry(e, env);
    var a := ArgsFor(t, e.quantity, OrReal(e.targetEntry, t.prices.suggested).value, "NET_CREDIT");
    SignalLegsMatched(BrokerSymbol(e.underlier), e.strikes, env.nextDay, EntryTicket(e, env), env.found.value, env.now);
    CondorPrepared(e.strikes, t, a);
    OutcomeKeeps(t, a, env.outcome, env.now);
    assert p == Prepare(t, a);
  }

  /** The limit of an entry order: the accepted price nearest to the credit given, else to
      the credit quoted. */
  ghost predicate HasEntryLimit(limit: Field, e: Event, env: Env) {
    && limit.Number?
    && (e.targetEntry.Some? && e.targetEntry.value != 0.0 ==>
          if NamesIndex(e.underlier) then IsLimit(limit, e.targetEntry.value, 0.05)
          else IsLimit(limit, e.targetEntry.value, 0.05) || IsLimit(limit, e.targetEntry.value, 0.01))
    && (e.targetEntry == None || e.targetEntry.value == 0.0 ==>
          exists d, step :: IsQuotedCredit(d, env) && (step == 0.05 || step == 0.01) && IsLimit(limit, d, step))
  }

  /** The quotes of a condor: the first and the third contract are sold. */
  predicate AreCondorQuotes(qs: seq<Quote>, cs: seq<Contract>) {
    && |qs| == |cs| == 4 && (forall i | 0 <= i < 4 :: cs[i].bid == Some(qs[i].bid) && cs[i].ask == Some(qs[i].ask))
    && qs[0].sell && !qs[1].sell && qs[2].sell && !qs[3].sell
  }

  /** The credit quoted for the condor: an accepted price, nearest to the mid in cents. */
  ghost predicate IsQuotedCredit(d: real, env: Env) {
    exists qs, asked, step :: env.found.Some? && AreCondorQuotes(qs, env.found.value.contracts)
      && IsMidCredit(qs, asked) && (step == 0.05 || step == 0.01) && IsLimit(Number(d), asked, step)
  }

  lemma SellActions()
    ensures Contains("SELL_OPEN", "SELL") && !Contains("BUY_OPEN", "SELL")
  {
    assert PartAt("SELL_OPEN", 0, 4) == "SELL";
    if Contains("BUY_OPEN", "SELL") {
      ContainedIsFound("BUY_OPEN", "SELL", 'S');
    }
  }

  lemma EntryQuotes(e: Event, env: Env)
    requires env.found.Some? && |env.found.value.contracts| == 4
    ensures var qs := QuotesOf(EntryTicket(e, env).legs, env.found.value.contracts, 4);
      qs.Some? ==> AreCondorQuotes(qs.value, env.found.value.contracts)
  {
    SellActions();
    QuotesMeaning(EntryTicket(e, env).legs, env.found.value.contracts, 4);
  }

  lemma SuggestionLimit(qs: seq<Quote>, tick: real) returns (asked: real)
    requires tick > 0.0
    ensures IsMidCredit(qs, asked) && IsLimit(Number(SuggestionFor(qs, tick).limit), asked, tick)
  {
    SuggestionMeaning(qs, tick);
    var limit := SuggestionFor(qs, tick).limit;
    asked :| IsMidCredit(qs, asked) && IsAllowed(limit, asked, tick)
      && forall p | IsAllowed(p, asked, tick) :: Abs(limit - asked) <= Abs(p - asked);
  }

  lemma SuggestionIsQuoted(qs: seq<Quote>, tick: real, env: Env)
    requires env.found.Some? && AreCondorQuotes(qs, env.found.value.contracts) && (tick == 0.05 || tick == 0.01)
    ensures IsQuotedCredit(SuggestionFor(qs, tick).limit, env)
  {
    var asked := SuggestionLimit(qs, tick);
  }

  lemma QuotedCredit(e: Event, env: Env, d: real)
    requires env.found.Some? && |env.found.value.contracts| == 4
    requires var m := env.found.value; ApplyMatches(EntryTicket(e, env), m.symbol, m.expiry, m.contracts, env.now).prices.suggested == Some(d)
    ensures IsQuotedCredit(d, env)
  {
    var t := EntryTicket(e, env);
    var qs := QuotesOf(t.legs, env.found.value.contracts, 4).value;
    EntryQuotes(e, env);
    TickMeaning(t, "NET_CREDIT");
    SuggestionIsQuoted(qs, Tick(t, "NET_CREDIT"), env);
  }

  lemma EntryIsLimited(e: Event, env: Env, t: Ticket, a: Args)
    requires env.found.Some? && |env.found.value.contracts| == 4 && a.priceType == "NET_CREDIT"
    requires var m := env.found.value; t == ApplyMatches(EntryTicket(e, env), m.symbol, m.expiry, m.contracts, env.now)
    requires OrReal(e.targetEntry, t.prices.suggested) == Some(a.limit)
    ensures HasEntryLimit(Prepare(t, a).request.value.orders.list[0].limit, e, env)
  {
    NetPriceTypes();
    TickMeaning(t, "NET_CREDIT");
    PreparedLimit(t, a);
    if e.targetEntry == None || e.targetEntry.value == 0.0 {
      QuotedCredit(e, env, a.limit);
      assert IsLimit(Prepare(t, a).request.value.orders.list[0].limit, a.limit, Tick(t, "NET_CREDIT"));
    }
  }

  ghost predicate OpensPosition(w: World, w': World, e: Event, env: Env) {
    var id := "tt-" + env.number;
    && id in w'.tickets && w'.tickets[id].request.Some?
    && AsksFor(w.log, w'.log, id, env.account, w'.tickets[id].request)
    && IsFiled(w'.tickets[id], env.account, e.strategy, env)
    && OpensCondor(e.strikes, e.quantity, w'.tickets[id].request.value)
    && HasEntryLimit(w'.tickets[id].request.value.orders.list[0].limit, e, env)
    && env.found.Some? && NamesContracts(w'.tickets[id].request.value, env.found.value)
    && IsTaggedRequest("pine", e.id, w'.tickets[id].request.value)
    && (env.outcome.Fails? ==> HoldsContracts(w'.tickets[id].legs, env.found.value))
    && (!BringsLegs(env.outcome) ==> IsCondor(e.strikes, w'.tickets[id].legs))
  }

  lemma OnEntryMakes(w: World, sid: string, s: PineState, e: Event, env: Env)
    ensures OnEntry(w, sid, s, e, env).1 in {EntryOpened, EntryFailed} ==>
      && PreparedEntry(e, env).Some?
      && var p := PreparedEntry(e, env).value;
         OnEntry(w, sid, s, e, env).0 == Accept(Made(w, Some(p), env), sid, s, e, EntryChange(p.id, env.outcome.Answers?), env.now)
  {
  }

  lemma EntryIsAccepted(w: World, sid: string, e: Event, env: Env) returns (p: Ticket, c: Change)
    requires Process(w, sid, e, env).1 in {EntryOpened, EntryFailed}
    ensures PreparedEntry(e, env) == Some(p)
    ensures Process(w, sid, e, env).0 == Accept(Made(w, Some(p), env), sid, StateOf(w, sid, e), e, c, env.now)
  {
    assert Process(w, sid, e, env) == OnEntry(w, sid, StateOf(w, sid, e), e, env);
    OnEntryMakes(w, sid, StateOf(w, sid, e), e, env);
    p := PreparedEntry(e, env).value;
    c := EntryChange(p.id, env.outcome.Answers?);
  }

  /** An ENTRY that makes a ticket asks the broker, once and from the account given, for
      a condor at the alert's strikes, at the accepted price nearest to the alert's credit,
      or to the quoted one if it gives none; the ticket keeps that request, and
      the condor's legs unless the broker's answer brings its own. */
  lemma EntryOpensCondor(w: World, sid: string, e: Event, env: Env)
    ensures var (w', r) := Process(w, sid, e, env);
      r in {EntryOpened, EntryFailed} ==> OpensPosition(w, w', e, env)
  {
    if Process(w, sid, e, env).1 in {EntryOpened, EntryFailed} {
      var p, c := EntryIsAccepted(w, sid, e, env);
      EntryPrepared(e, env, p);
      var t, a := MatchedEntryMeaning(e, env);
      EntryIsMatched(e, env, t, env.found.value);
      EntryIsLimited(e, env, t, a);
      PreparedNames(t, a, env.found.value);
      EntryIsTagged(t, a, e.id, p);
      PreparedIsFiled(t, a, e.strategy, env);
      MadeTickets(w, p, env);
      MadeAsks(w, p, env, Accepted(sid, e.id));
    }
  }

  // ----- the position afterwards -----

  /** Which alert a reply answers: its kind, whether the position was open, and what the
      broker did. */
  predicate Answers(r: Reply, e: Event, open: bool, out: Outcome) {
    match r
    case Raised => true
    case Duplicate => true
    case IgnoredEntry => e.kind == ENTRY && open
    case EntryOpened => e.kind == ENTRY && !open && out.Answers?
    case EntryFailed => e.kind == ENTRY && !open && out.Fails?
    case Managed => e.kind == MANAGE && open
    case IgnoredManage => e.kind == MANAGE && !open
    case NoDebit => e.kind == CLOSE
    case ClosedOut => e.kind == CLOSE && out.Answers?
    case CloseFailed => e.kind == CLOSE && out.Fails?
  }

  /** Status, activity and tickets of a position after a reply. */
  predicate Becomes(r: Reply, s: PineState, s': PineState, id: string, now: real) {
    match r
    case Raised => s' == s
    case Duplicate => s' == s
    case IgnoredEntry => s'.status == s.status && s'.active && s'.entry == s.entry && s'.close == s.close && s'.closedAt == s.closedAt
    case EntryOpened => s'.status == Open && s'.active && s'.entry == Some(id) && s'.close == None
                        && s'.openedAt == Some(now) && s'.closedAt == None
    case EntryFailed => s'.status == Error && !s'.active && s'.entry == Some(id) && s'.close == None
                        && s'.openedAt == s.openedAt && s'.closedAt == None
    case Managed => s'.status == Open && s'.active && s'.entry == s.entry && s'.close == s.close && s'.closedAt == s.closedAt
    case IgnoredManage => s'.status == s.status && !s'.active && s'.entry == s.entry && s'.close == s.close
                          && s'.openedAt == s.openedAt && s'.closedAt == s.closedAt
    case NoDebit => s'.status == Error && !s'.active && s'.entry == s.entry && s'.close == s.close && s'.closedAt == Some(now)
    case ClosedOut => s'.status == Closed && !s'.active && s'.entry == s.entry && s'.close == Some(id) && s'.closedAt == Some(now)
    case CloseFailed => s'.status == Error && !s'.active && s'.entry == s.entry && s'.close == Some(id) && s'.closedAt == Some(now)
  }

  /** A strike of the position: replaced by one that is given and not 0. */
  predicate StrikeAfter(given: Option<real>, before: Option<real>, after: Option<real>) {
    after == if given.Some? && given.value != 0.0 then given else before
  }

  predicate StrikesAfter(given: Strikes, before: Strikes, after: Strikes) {
    && StrikeAfter(given.shortPut, before.shortPut, after.shortPut) && StrikeAfter(given.longPut, before.longPut, after.longPut)
    && StrikeAfter(given.shortCall, before.shortCall, after.shortCall) && StrikeAfter(given.longCall, before.longCall, after.longCall)
  }

  /** The strikes a log entry shows: those given, 0 included, else the position's. */
  predicate AreShown(shown: Strikes, given: Strikes, before: Strikes) {
    && shown.shortPut == (if given.shortPut == None then before.shortPut else given.shortPut)
    && shown.longPut == (if given.longPut == None then before.longPut else given.longPut)
    && shown.shortCall == (if given.shortCall == None then before.shortCall else given.shortCall)
    && shown.longCall == (if given.longCall == None then before.longCall else given.longCall)
  }

  /** What every accepted alert writes, ignored ones included. */
  predicate Records(r: Reply, s: PineState, s': PineState, e: Event) {
    && s'.lastKind == Some(e.kind) && s'.quantity == (if e.quantity != 0 then e.quantity else s.quantity)
    && s'.optionRoot == (if e.optionRoot.Some? && e.optionRoot.value != "" then e.optionRoot else s.optionRoot)
    && (if r == IgnoredEntry then s'.strikes == s.strikes else StrikesAfter(e.strikes, s.strikes, s'.strikes))
    && s'.events != [] && s'.events[|s'.events| - 1].id == e.id && s'.events[|s'.events| - 1].kind == e.kind
    && s'.events[|s'.events| - 1].quantity == e.quantity
    && AreShown(s'.events[|s'.events| - 1].strikes, e.strikes, s.strikes)
  }

  lemma AppliedRecords(r: Reply, s: PineState, e: Event, c: Change, now: real)
    requires c.updateStrikes == (r != IgnoredEntry)
    ensures Records(r, s, Applied(s, e, c, now), e)
  {
  }

  ghost predicate Leaves(w: World, sid: string, e: Event, env: Env, s: PineState, out: (World, Reply)) {
    && Answers(out.1, e, s.active, env.outcome)
    && (out.1 !in {Raised, Duplicate} ==>
          sid in out.0.states && Becomes(out.1, s, out.0.states[sid], "tt-" + env.number, env.now) && Records(out.1, s, out.0.states[sid], e))
  }

  lemma EntryLeaves(w: World, sid: string, s: PineState, e: Event, env: Env)
    requires e.kind == ENTRY
    ensures Leaves(w, sid, e, env, s, OnEntry(w, sid, s, e, env))
  {
    var id, ok := "tt-" + env.number, env.outcome.Answers?;
    AppliedRecords(IgnoredEntry, s, e, Change(s.status, true, s.entry, None, false, false), env.now);
    AppliedRecords(if ok then EntryOpened else EntryFailed, s, e, EntryChange(id, ok), env.now);
  }

  lemma ManageLeaves(w: World, sid: string, s: PineState, e: Event, env: Env)
    requires e.kind == MANAGE
    ensures Leaves(w, sid, e, env, s, OnManage(w, sid, s, e, env))
  {
    AppliedRecords(Managed, s, e, Change(Open, true, None, None, false, true), env.now);
    AppliedRecords(IgnoredManage, s, e, Change(s.status, false, None, None, false, true), env.now);
  }

  lemma CloseBecomes(s: PineState, e: Event, id: string, ok: bool, now: real)
    requires e.kind == CLOSE && id != ""
    ensures Becomes(NoDebit, s, Applied(s, e, Change(Error, false, None, None, false, true), now), id, now)
    ensures Becomes(if ok then ClosedOut else CloseFailed, s, Applied(s, e, CloseChange(id, ok), now), id, now)
  {
  }

  lemma AcceptLeaves(w: World, sid: string, s: PineState, e: Event, env: Env, c: Change, r: Reply)
    requires Answers(r, e, s.active, env.outcome) && c.updateStrikes == (r != IgnoredEntry)
    requires Becomes(r, s, Applied(s, e, c, env.now), "tt-" + env.number, env.now)
    ensures Leaves(w, sid, e, env, s, (Accept(w, sid, s, e, c, env.now), r))
  {
    AppliedRecords(r, s, e, c, env.now);
  }

  lemma CloseLeaves(w: World, sid: string, s: PineState, entry: Ticket, e: Event, env: Env)
    requires e.kind == CLOSE
    ensures Leaves(w, sid, e, env, s, OnClose(w, sid, s, entry, e, env))
  {
    var id, ok := "tt-" + env.number, env.outcome.Answers?;
    var limit := CloseLimit(entry, e, env);
    CloseBecomes(s, e, id, ok, env.now);
    if limit == None {
      AcceptLeaves(w, sid, s, e, env, Change(Error, false, None, None, false, true), NoDebit);
    } else if entry.legs != [] {
      var p := PreparedClose(entry, e, env, limit.value, OrInt(Some(e.quantity), s.quantity));
      var w' := Previewing(NewlyPrepared(w, p), p, env.outcome, env.now);
      AcceptLeaves(w', sid, s, e, env, CloseChange(id, ok), if ok then ClosedOut else CloseFailed);
    }
  }

  /** A position no alert was accepted for: not open, for one contract, with nothing else
      known but the alert's option root. */
  predicate IsUntouched(s: PineState, optionRoot: Option<string>) {
    && !s.active && s.status == Idle && s.quantity == 1 && s.optionRoot == optionRoot
    && s.entry == None && s.close == None && s.openedAt == None && s.closedAt == None
    && s.strikes == Strikes(None, None, None, None) && s.lastKind == None && s.processed == [] && s.events == []
  }

  /** The position an alert meets. */
  ghost predicate IsPosition(w: World, sid: string, e: Event, s: PineState) {
    if sid in w.states then s == w.states[sid] else IsUntouched(s, e.optionRoot)
  }

  /** The position an accepted alert leaves: open only after an entry the broker
      previewed, closed only after a close it previewed, in error when it failed or no
      debit was known; tickets, times, quantity, root and strikes to match. */
  lemma PositionAfter(w: World, sid: string, e: Event, env: Env)
    ensures exists s :: IsPosition(w, sid, e, s) && Leaves(w, sid, e, env, s, Process(w, sid, e, env))
  {
    var s := StateOf(w, sid, e);
    if Reaches(w, sid, e, env) {
      if e.kind == ENTRY {
        EntryLeaves(w, sid, s, e, env);
      } else if EntryOf(w, s).Some? {
        if e.kind == MANAGE {
          ManageLeaves(w, sid, s, e, env);
        } else {
          CloseLeaves(w, sid, s, EntryOf(w, s).value, e, env);
        }
      }
    }
    assert Leaves(w, sid, e, env, s, Process(w, sid, e, env));
  }

  // ----- when a position can be marked -----

  /** A live mark is made exactly when the ticket has legs with a complete date and a quoted
      contract was found for each of them. */
  lemma LiveMarkIff(t: Ticket, live: Option<seq<Contract>>, fallback: Option<real>, pointValue: real)
    ensures LiveMark(t, live, fallback, pointValue).Some? <==>
      && t.legs != [] && IsGiven(t.legs[0].expiry.year) && IsGiven(t.legs[0].expiry.month) && IsGiven(t.legs[0].expiry.day)
      && live.Some? && |live.value| == |t.legs| && forall i | 0 <= i < |t.legs| :: live.value[i].bid.Some? && live.value[i].ask.Some?
  {
    if live.Some? && |live.value| == |t.legs| {
      QuotesMeaning(t.legs, live.value, |t.legs|);
    }
  }
}
