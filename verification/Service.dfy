/** The running service: both stores as fields that every operation updates, in the
    order of the program. Each operation keeps the world in order. */
module Service {
  import opened Basics
  import opened Tickets
  import opened TicketSteps
  import opened Quotes
  import opened PineModels
  import opened Stores
  import opened Previews
  import opened PineBridge
  import opened Desk
  import opened History
  import opened PineRules
  import opened AlertMeaning
  import opened DeskRules
  import opened Runs

  /** An order goes out: everything is ready and execution is live. */
  predicate GoesOut(w: World, id: string, env: SubmitEnv) {
    && id in w.tickets && IsReady(w.tickets[id], env.now, env.max)
    && PlaceRequestOf(w.tickets[id]).Some? && GoesLive(env) && env.clientLoads
  }

  function OrderNote(t: Ticket): Note
    requires PlaceRequestOf(t).Some?
  {
    Placed(t.id, t.account, PlaceRequestOf(t).value)
  }

  /** Submitting changes at most one ticket and asks for no preview; the order that goes
      out has its story. */
  lemma SubmitStory(w: World, id: string, env: SubmitEnv)
    requires WorldOk(w)
    ensures var w' := SubmittedAs(w, id, env);
      && OnlyTicket(w, w', id) && Asks(w'.log) == Asks(w.log)
      && (if GoesOut(w, id, env) then w'.log == w.log + [OrderNote(w.tickets[id])] && HasStory(w.log, OrderNote(w.tickets[id]))
          else w'.log == w.log)
  {
    assert id in w.tickets ==> TicketOk(w, id);
    SubmitMeaning(w, id, env);
    if GoesOut(w, id, env) {
      PlaceableHasStory(w, id, env);
    }
  }

  lemma OpKeepsWorld(w: World, op: Op, w': World)
    requires WorldOk(w) && w' == Step(w, op)
    ensures WorldOk(w')
  {
    StepKeepsWorld(w, op);
  }

  class WebService {
    var tickets: map<string, Ticket>
    var states: map<string, PineState>
    ghost var log: seq<Note>

    ghost function Now(): World
      reads this
    {
      World(tickets, states, log)
    }

    /** Tickets agree with the log, positions are in order, placed orders are justified. */
    ghost predicate Valid()
      reads this
    {
      WorldOk(Now())
    }

    constructor ()
      ensures Valid() && Now() == EMPTY_WORLD
    {
      tickets, states, log := map[], map[], [];
      EmptyIsOk();
    }

    // ----- the stores -----

    method SaveTicket(t: Ticket)
      modifies `tickets
      ensures Now() == Saved(old(Now()), t)
    {
      tickets := tickets[t.id := t];
    }

    method SaveState(sid: string, s: PineState)
      modifies `states
      ensures Now() == StateSaved(old(Now()), sid, s)
    {
      states := states[sid := s];
    }

    ghost method Record(n: Note)
      modifies `log
      ensures Now() == Noted(old(Now()), n)
    {
      log := log + [n];
    }

    // ----- previewing -----

    method Preview(t: Ticket, out: Outcome, now: real)
      modifies this
      ensures Now() == Previewing(old(Now()), t, out, now)
    {
      var pending := MarkPending(t, now);
      SaveTicket(pending);
      Record(Pending(t.id));
      Record(Asked(t.id, t.account, t.request));
      match out {
        case Fails(busy) =>
          SaveTicket(MarkFailed(pending, now, busy));
        case Answers(response) =>
          var final := MarkPreviewed(pending, response, now);
          SaveTicket(final);
          Record(Answered(t.id, final.previewId));
      }
    }

    method Remap(t: Ticket, account: string) returns (r: Ticket)
      modifies this
      ensures r == Remapped(t, account) && Now() == RemapSaved(old(Now()), t, account)
    {
      if account == "" || t.source != Signal || t.account == account {
        return t;
      }
      r := t.(account := account);
      SaveTicket(r);
    }

    // ----- tickets -----

    /** A retry that is allowed counts one attempt, asks at most once and leaves the
        ticket unconfirmed. */
    method RetryPreview(id: string, env: RetryEnv)
      requires Valid()
      modifies this
      ensures Valid() && OnlyTicket(old(Now()), Now(), id)
      ensures log != old(log) <==>
        && id in old(tickets) && AccountFor(old(tickets)[id], env.account) != "" && old(tickets)[id].request.Some?
        && (old(tickets)[id].nextRetryAt.Some? ==> old(tickets)[id].nextRetryAt.value <= env.now)
      ensures log != old(log) ==>
                && id in tickets && tickets[id].attempts == old(tickets)[id].attempts + 1 && !tickets[id].intent.confirmed
                && Asks(log) == Asks(old(log)) + (if env.clientLoads then 1 else 0)
      ensures Now() == Retried(old(Now()), id, env)
    {
      ghost var w := Now();
      assert id in w.tickets ==> TicketOk(w, id);
      OpKeepsWorld(w, Retry(id, env), Retried(w, id, env));
      RetryMeaning(w, id, env);
      RetryIff(w, id, env);
      if id !in tickets {
        return;
      }
      var t := Remap(tickets[id], env.account);
      if !MayRetry(t, env.now) {
        return;
      }
      var r := PrepareTicketForPreview(t, Chosen(t, env.today));
      SaveTicket(r);
      Record(Prepared(id));
      if !env.clientLoads {
        SaveTicket(MarkPending(r, env.now));
        Record(Pending(id));
        Record(ClientLost(id));
        return;
      }
      Preview(r, env.outcome, env.now);
    }

    /** Preparing from the page leaves the ticket prepared, unconfirmed and a credit
        order; nothing is asked of the broker. */
    method PreparePreview(id: string, account: string, f: Form)
      requires Valid()
      modifies this
      ensures Valid() && OnlyTicket(old(Now()), Now(), id) && Asks(log) == Asks(old(log))
      ensures id in old(tickets) ==>
                && id in tickets && tickets[id].intent.ready && !tickets[id].intent.confirmed
                && tickets[id].prices.priceType == "NET_CREDIT" && tickets[id].previewId == old(tickets)[id].previewId
      ensures Now() == PreparedByForm(old(Now()), id, account, f)
    {
      ghost var w := Now();
      assert id in w.tickets ==> TicketOk(w, id);
      OpKeepsWorld(w, PrepareForm(id, account, f), PreparedByForm(w, id, account, f));
      FormMeaning(w, id, account, f);
      if id !in tickets {
        return;
      }
      var t := Remap(tickets[id], account);
      var r := PrepareTicketForPreview(t, FormArgs(f));
      SaveTicket(r);
      Record(Prepared(id));
    }

    /** Confirming changes one flag, and what is confirmed is the stored request. */
    method SetConfirmation(id: string, on: bool)
      requires Valid()
      modifies this
      ensures Valid() && OnlyTicket(old(Now()), Now(), id) && Asks(log) == Asks(old(log))
      ensures id in old(tickets) ==>
                && id in tickets && tickets[id] == WithConfirmation(old(tickets)[id], on)
                && TrackOf(log, id).confirmed == if on then Some(tickets[id].request) else None
      ensures Now() == ConfirmedAs(old(Now()), id, on)
    {
      ghost var w := Now();
      assert id in w.tickets ==> TicketOk(w, id);
      OpKeepsWorld(w, Confirm(id, on), ConfirmedAs(w, id, on));
      ConfirmMeaning(w, id, on);
      if id in tickets {
        var t := tickets[id];
        SaveTicket(WithConfirmation(t, on));
        Record(Confirmed(id, on, t.request));
      }
    }

    /** Enriching keeps the request, the intent and its confirmation. */
    method SuggestContracts(id: string, found: Option<Matched>, now: real)
      requires Valid()
      modifies this
      ensures Valid() && OnlyTicket(old(Now()), Now(), id) && Asks(log) == Asks(old(log))
      ensures log != old(log) ==>
                && id in old(tickets) && id in tickets && tickets[id].snapshot == Some(now)
                && tickets[id].intent == old(tickets)[id].intent && tickets[id].request == old(tickets)[id].request
      ensures Now() == Suggested(old(Now()), id, found, now)
    {
      ghost var w := Now();
      assert id in w.tickets ==> TicketOk(w, id);
      OpKeepsWorld(w, Suggest(id, found, now), Suggested(w, id, found, now));
      SuggestMeaning(w, id, found, now);
      if id in tickets && found.Some? && |found.value.contracts| == |tickets[id].legs| {
        SaveTicket(ApplySuggestion(tickets[id], found.value.symbol, found.value.expiry, found.value.contracts, now));
        Record(Enriched(id));
      }
    }

    /** A signal makes at most one ticket, a draft without a request. */
    method IngestSignal(number: string, fact: SignalFact, account: string, found: Option<Matched>, nextDay: Expiry, now: real)
      requires Valid()
      modifies this
      ensures Valid() && OnlyTicket(old(Now()), Now(), NewId(number)) && Asks(log) == Asks(old(log))
      ensures if account == "" then Now() == old(Now())
              else NewId(number) in tickets && tickets[NewId(number)].request == None
      ensures Now() == Ingested(old(Now()), number, fact, account, found, nextDay, now)
    {
      ghost var w := Now();
      OpKeepsWorld(w, Ingest(number, fact, account, found, nextDay, now), Ingested(w, number, fact, account, found, nextDay, now));
      IngestMeaning(w, number, fact, account, found, nextDay, now);
      if account == "" {
        return;
      }
      var t := SignalTicket(NewId(number), fact, account, nextDay, now);
      SaveTicket(t);
      Record(Created(t.id));
      if found.Some? && |found.value.contracts| == |t.legs| {
        SaveTicket(ApplySuggestion(t, found.value.symbol, found.value.expiry, found.value.contracts, now));
        Record(Enriched(t.id));
      }
    }

    /** A request entered by hand makes one ticket that keeps it. */
    method PreviewByHand(number: string, account: string, req: Request, clientLoads: bool, out: Outcome, now: real)
      requires Valid()
      modifies this
      ensures Valid() && OnlyTicket(old(Now()), Now(), NewId(number))
      ensures NewId(number) in tickets && tickets[NewId(number)].request == Some(req)
      ensures tickets[NewId(number)].attempts == Asks(log) - Asks(old(log)) == if clientLoads then 1 else 0
      ensures Now() == EnteredByHand(old(Now()), number, account, req, clientLoads, out, now)
    {
      ghost var w := Now();
      OpKeepsWorld(w, Enter(number, account, req, clientLoads, out, now), EnteredByHand(w, number, account, req, clientLoads, out, now));
      EnterMeaning(w, number, account, req, clientLoads, out, now);
      var t := ManualTicket(NewId(number), account, req, now);
      SaveTicket(t);
      Record(Created(t.id));
      if clientLoads {
        Preview(t, out, now);
      } else {
        SaveTicket(MarkFailed(t, now, false));
      }
    }

    /** An order goes out exactly when everything is ready and execution is live, and
        then it has its story. */
    method SubmitExecution(id: string, env: SubmitEnv)
      requires Valid()
      modifies this
      ensures Valid() && OnlyTicket(old(Now()), Now(), id) && Asks(log) == Asks(old(log))
      ensures if GoesOut(old(Now()), id, env) then
                var n := OrderNote(old(tickets)[id]);
                log == old(log) + [n] && HasStory(old(log), n)
              else log == old(log)
      ensures log != old(log) <==>
        && id in old(tickets) && IsComplete(old(tickets)[id]) && IsUpToDate(old(tickets)[id], env.now, env.max)
        && HasOrders(old(tickets)[id]) && IsLive(env) && env.clientLoads
      ensures Now() == SubmittedAs(old(Now()), id, env)
    {
      ghost var w := Now();
      OpKeepsWorld(w, Submit(id, env), SubmittedAs(w, id, env));
      SubmitStory(w, id, env);
      SubmitIff(w, id, env);
      Execute(id, env);
    }

    method Execute(id: string, env: SubmitEnv)
      modifies this
      ensures Now() == SubmittedAs(old(Now()), id, env)
    {
      if id !in tickets || !IsReady(tickets[id], env.now, env.max) {
        return;
      }
      var t := tickets[id];
      var place := PlaceRequestOf(t);
      if place == None {
        return;
      }
      if !GoesLive(env) {
        SaveTicket(Packaged(t, place.value, false));
        return;
      }
      if env.clientLoads {
        Record(Placed(id, t.account, place.value));
        if env.accepted {
          SaveTicket(Packaged(t, place.value, true));
        }
      }
    }

    /** Clearing the queue; states are cleared only on request. */
    method Clear(alsoStates: bool)
      requires Valid()
      modifies this
      ensures Valid() && tickets == map[] && states == (if alsoStates then map[] else old(states))
      ensures IdsResolve(Now()) <==> states == map[]
      ensures Now() == Cleared(old(Now()), alsoStates)
    {
      ghost var w := Now();
      OpKeepsWorld(w, Runs.Clear(alsoStates), Cleared(w, alsoStates));
      NoPositionIsLeft(w);
      tickets := map[];
      if alsoStates {
        states := map[];
        log := log + [StatesCleared];
      }
    }

    // ----- alerts -----

    method AcceptAlert(sid: string, s: PineState, e: Event, c: Change, now: real)
      modifies this
      ensures Now() == Accept(old(Now()), sid, s, e, c, now)
    {
      SaveState(sid, Applied(s, e, c, now));
      Record(Accepted(sid, e.id));
    }

    method SaveNew(t: Ticket)
      modifies this
      ensures Now() == NewlyPrepared(old(Now()), t)
    {
      SaveTicket(t);
      Record(Created(t.id));
      Record(Enriched(t.id));
      Record(Prepared(t.id));
    }

    method PrepareEntry(e: Event, env: Env) returns (p: Option<Ticket>)
      ensures p == PreparedEntry(e, env)
    {
      var s := e.strikes;
      if s.shortPut == None || s.longPut == None || s.shortCall == None || s.longCall == None {
        return None;
      }
      if env.found == None || |env.found.value.contracts| != 4 {
        return None;
      }
      var f := env.found.value;
      var t := ApplyMatches(EntryTicket(e, env), f.symbol, f.expiry, f.contracts, env.now);
      var limit := OrReal(e.targetEntry, t.prices.suggested);
      if limit == None {
        return None;
      }
      var prepared := PrepareTicketForPreview(t, ArgsFor(t, e.quantity, limit.value, "NET_CREDIT"));
      p := Some(prepared);
    }

    method EntryAlert(sid: string, s: PineState, e: Event, env: Env) returns (reply: Reply)
      modifies this
      ensures (Now(), reply) == OnEntry(old(Now()), sid, s, e, env)
    {
      if s.active {
        AcceptAlert(sid, s, e, Change(s.status, true, s.entry, None, false, false), env.now);
        return IgnoredEntry;
      }
      var p := PrepareEntry(e, env);
      if p == None {
        return Raised;
      }
      SaveNew(p.value);
      Preview(p.value, env.outcome, env.now);
      AcceptAlert(sid, s, e, EntryChange(p.value.id, env.outcome.Answers?), env.now);
      reply := if env.outcome.Answers? then EntryOpened else EntryFailed;
    }

    method ManageAlert(sid: string, s: PineState, e: Event, env: Env) returns (reply: Reply)
      modifies this
      ensures (Now(), reply) == OnManage(old(Now()), sid, s, e, env)
    {
      if s.active {
        AcceptAlert(sid, s, e, Change(Open, true, None, None, false, true), env.now);
        return Managed;
      }
      AcceptAlert(sid, s, e, Change(s.status, false, None, None, false, true), env.now);
      reply := IgnoredManage;
    }

    method CloseAlert(sid: string, s: PineState, entry: Ticket, e: Event, env: Env) returns (reply: Reply)
      modifies this
      ensures (Now(), reply) == OnClose(old(Now()), sid, s, entry, e, env)
    {
      var mark := RefreshLiveMark(entry, env.live, e.targetEntry, env.pointValue);
      var limit := OrReal(e.targetClose, if mark.Some? then Some(mark.value.closeMid) else None);
      if limit == None {
        AcceptAlert(sid, s, e, Change(Error, false, None, None, false, true), env.now);
        return NoDebit;
      }
      if entry.legs == [] {
        return Raised;
      }
      var t := CloseTicket(entry, e, env);
      var p := PrepareTicketForPreview(t, ArgsFor(t, OrInt(Some(e.quantity), s.quantity), limit.value, "NET_DEBIT"));
      SaveNew(p);
      Preview(p, env.outcome, env.now);
      AcceptAlert(sid, s, e, CloseChange(p.id, env.outcome.Answers?), env.now);
      reply := if env.outcome.Answers? then ClosedOut else CloseFailed;
    }

    method DispatchAlert(sid: string, e: Event, env: Env) returns (reply: Reply)
      modifies this
      ensures (Now(), reply) == Process(old(Now()), sid, e, env)
    {
      var s := if sid in states then states[sid] else NewState(e.optionRoot);
      if e.id in s.processed {
        return Duplicate;
      }
      if !env.clientLoads || env.account == "" {
        return Raised;
      }
      if e.kind == ENTRY {
        reply := EntryAlert(sid, s, e, env);
        return;
      }
      if s.entry == None || s.entry.value == "" || s.entry.value !in tickets {
        return Raised;
      }
      var entry := tickets[s.entry.value];
      if e.kind == MANAGE {
        reply := ManageAlert(sid, s, e, env);
      } else {
        reply := CloseAlert(sid, s, entry, e, env);
      }
    }

    /** One alert: the world stays in order, tickets and broker requests are conserved,
        only the alert's own state changes, and exactly a repeat within the window of its
        position is a duplicate. */
    method ProcessAlert(sid: string, e: Event, env: Env) returns (reply: Reply)
      requires Valid()
      modifies this
      ensures Valid() && Conserves(old(Now()), sid, env, (Now(), reply))
      ensures reply == Duplicate <==> e.id in LastN(AcceptedIds(old(log), sid), 50)
      ensures reply in {EntryOpened, EntryFailed} ==> OpensPosition(old(Now()), Now(), e, env)
      ensures reply in {ClosedOut, CloseFailed} ==>
        exists entry :: FindsEntry(old(Now()), sid, entry) && ClosesEntry(old(Now()), Now(), old(states)[sid], entry, e, env)
      ensures exists s :: IsPosition(old(Now()), sid, e, s) && Leaves(old(Now()), sid, e, env, s, (Now(), reply))
      ensures (Now(), reply) == Process(old(Now()), sid, e, env)
    {
      ghost var w := Now();
      OpKeepsWorld(w, Alert(sid, e, env), Process(w, sid, e, env).0);
      AlertConservesTickets(w, sid, e, env);
      RepeatIffRemembered(w, sid, e, env);
      EntryOpensCondor(w, sid, e, env);
      CloseUndoesEntry(w, sid, e, env);
      PositionAfter(w, sid, e, env);
      reply := DispatchAlert(sid, e, env);
    }
  }
}
