/** Whole runs of the desk and the bridge: what holds in every reachable world. */
module Runs {
  import opened Basics
  import opened Text
  import opened Pricing
  import opened Tickets
  import opened TicketSteps
  import opened Rebuilding
  import opened Quotes
  import opened PineModels
  import opened Stores
  import opened Previews
  import opened PineBridge
  import opened PineRules
  import opened Desk
  import opened History

  datatype Op =
    | Alert(sid: string, event: Event, env: Env)
    | Retry(id: string, retry: RetryEnv)
    | PrepareForm(id: string, account: string, form: Form)
    | Confirm(id: string, on: bool)
    | Suggest(id: string, found: Option<Matched>, now: real)
    | Ingest(number: string, fact: SignalFact, account: string, found: Option<Matched>, nextDay: Expiry, now: real)
    | Enter(number: string, account: string, request: Request, clientLoads: bool, outcome: Outcome, now: real)
    | Submit(id: string, submit: SubmitEnv)
    | Clear(alsoStates: bool)

  function Step(w: World, op: Op): World {
    match op
    case Alert(sid, e, env) => Process(w, sid, e, env).0
    case Retry(id, env) => Retried(w, id, env)
    case PrepareForm(id, account, form) => PreparedByForm(w, id, account, form)
    case Confirm(id, on) => ConfirmedAs(w, id, on)
    case Suggest(id, found, now) => Suggested(w, id, found, now)
    case Ingest(number, fact, account, found, nextDay, now) => Ingested(w, number, fact, account, found, nextDay, now)
    case Enter(number, account, req, clientLoads, out, now) => EnteredByHand(w, number, account, req, clientLoads, out, now)
    case Submit(id, env) => SubmittedAs(w, id, env)
    case Clear(alsoStates) => Cleared(w, alsoStates)
  }

  function Run(ops: seq<Op>): World {
    if ops == [] then EMPTY_WORLD else Step(Run(ops[..|ops| - 1]), ops[|ops| - 1])
  }

  // ----- tickets agree with the log -----

  ghost predicate Agrees(t: Ticket, k: Track) {
    && t.intent.ready == k.prepared && t.snapshot.Some? == k.enriched
    && t.intent.confirmed == k.confirmed.Some? && (k.confirmed.Some? ==> k.confirmed.value == t.request)
    && t.previewId == k.previewId && t.attempts == k.pendings && k.pendings == k.asks + k.lost
    && (k.previewId.Some? && !k.prepared ==> t.request == k.previewed)
  }

  ghost predicate TicketOk(w: World, id: string)
    requires id in w.tickets
  {
    w.tickets[id].id == id && Agrees(w.tickets[id], TrackOf(w.log, id))
  }

  ghost predicate TicketsOk(w: World) { forall id | id in w.tickets :: TicketOk(w, id) }

  ghost predicate OthersOk(w: World, id: string) { forall i | i in w.tickets && i != id :: TicketOk(w, i) }

  /** t agrees with the log, and so do all tickets but t's. */
  ghost predicate Fits(w: World, t: Ticket) { OthersOk(w, t.id) && Agrees(t, TrackOf(w.log, t.id)) }

  lemma SavedOk(w: World, t: Ticket)
    requires Fits(w, t)
    ensures TicketsOk(Saved(w, t)) && Saved(w, t).log == w.log
  {
    forall i | i in w.tickets && i != t.id ensures TicketOk(Saved(w, t), i) {
      assert TicketOk(w, i);
    }
  }

  lemma NotedOther(w: World, n: Note, i: string)
    requires i in w.tickets && TicketOk(w, i) && Subject(n) != Some(i)
    ensures TicketOk(Noted(w, n), i)
  {
    TrackNoted(w.log, n, i);
  }

  /** A note about one ticket leaves the others in agreement. */
  lemma NotedOthers(w: World, n: Note, id: string)
    requires OthersOk(w, id) && (Subject(n) == None || Subject(n) == Some(id))
    ensures OthersOk(Noted(w, n), id)
    ensures TrackOf(Noted(w, n).log, id) == TrackStep(TrackOf(w.log, id), n, id)
  {
    TrackNoted(w.log, n, id);
    forall i | i in w.tickets && i != id ensures TicketOk(Noted(w, n), i) {
      NotedOther(w, n, i);
    }
  }

  /** Saving a ticket and noting what was done, when the two fit together. */
  lemma SavedNotedOk(w: World, t: Ticket, n: Note)
    requires OthersOk(w, t.id) && Subject(n) == Some(t.id)
    requires Agrees(t, TrackStep(TrackOf(w.log, t.id), n, t.id))
    ensures TicketsOk(Noted(Saved(w, t), n))
    ensures TrackOf(Noted(Saved(w, t), n).log, t.id) == TrackStep(TrackOf(w.log, t.id), n, t.id)
  {
    NotedOthers(w, n, t.id);
    SavedOk(Noted(w, n), t);
    assert Noted(Saved(w, t), n) == Saved(Noted(w, n), t);
  }

  lemma NotedOk(w: World, n: Note)
    requires TicketsOk(w) && Subject(n) == None
    ensures TicketsOk(Noted(w, n))
  {
    forall i | i in w.tickets ensures TicketOk(Noted(w, n), i) {
      NotedOther(w, n, i);
    }
  }

  // ----- what each step does to a ticket's record -----

  lemma PreparedAgrees(t: Ticket, a: Args, k: Track)
    requires Agrees(t, k)
    ensures Prepare(t, a).id == t.id && Agrees(Prepare(t, a), TrackStep(k, Prepared(t.id), t.id))
  {
  }

  function TrackAnswer(k: Track, t: Ticket, out: Outcome, now: real): Track {
    var asked := k.(pendings := k.pendings + 1, asks := k.asks + 1, asked := t.request);
    if out.Answers? then TrackStep(asked, Answered(t.id, Finished(MarkPending(t, now), out, now).previewId), t.id) else asked
  }

  lemma FinishedAgrees(t: Ticket, out: Outcome, now: real, k: Track)
    requires Agrees(t, k)
    ensures var final := Finished(MarkPending(t, now), out, now);
      final.id == t.id && Agrees(final, TrackAnswer(k, t, out, now))
  {
  }

  function AskedOf(w: World, t: Ticket): World { Noted(Noted(w, Pending(t.id)), Asked(t.id, t.account, t.request)) }

  lemma AskedKeeps(w: World, t: Ticket)
    requires OthersOk(w, t.id)
    ensures OthersOk(AskedOf(w, t), t.id)
    ensures var k := TrackOf(w.log, t.id);
      TrackOf(AskedOf(w, t).log, t.id) == k.(pendings := k.pendings + 1, asks := k.asks + 1, asked := t.request)
  {
    NotedOthers(w, Pending(t.id), t.id);
    NotedOthers(Noted(w, Pending(t.id)), Asked(t.id, t.account, t.request), t.id);
  }

  /** The ticket saved as pending is overwritten by the outcome. */
  lemma PreviewingIs(w: World, t: Ticket, out: Outcome, now: real)
    ensures var final := Finished(MarkPending(t, now), out, now);
      final.id == t.id ==>
        Previewing(w, t, out, now) ==
          if out.Answers? then Noted(Saved(AskedOf(w, t), final), Answered(t.id, final.previewId)) else Saved(AskedOf(w, t), final)
  {
    var pending := MarkPending(t, now);
    var final := Finished(pending, out, now);
    if final.id == t.id {
      assert w.tickets[t.id := pending][t.id := final] == w.tickets[t.id := final];
    }
  }

  lemma PreviewingOk(w: World, t: Ticket, out: Outcome, now: real)
    requires Fits(w, t)
    ensures TicketsOk(Previewing(w, t, out, now))
  {
    FinishedAgrees(t, out, now, TrackOf(w.log, t.id));
    PreviewingIs(w, t, out, now);
    AskedKeeps(w, t);
    var final := Finished(MarkPending(t, now), out, now);
    if out.Answers? {
      SavedNotedOk(AskedOf(w, t), final, Answered(t.id, final.previewId));
    } else {
      SavedOk(AskedOf(w, t), final);
    }
  }

  lemma RemapOk(w: World, t: Ticket, account: string)
    requires TicketsOk(w) && t.id in w.tickets && w.tickets[t.id] == t
    ensures TicketsOk(RemapSaved(w, t, account)) && Fits(RemapSaved(w, t, account), Remapped(t, account))
    ensures Remapped(t, account).id == t.id && RemapSaved(w, t, account).log == w.log
  {
    assert TicketOk(w, t.id);
    SavedOk(w, Remapped(t, account));
  }

  lemma RetriedOk(w: World, id: string, env: RetryEnv)
    requires TicketsOk(w)
    ensures TicketsOk(Retried(w, id, env))
  {
    if id in w.tickets {
      assert TicketOk(w, id);
      var t := Remapped(w.tickets[id], env.account);
      var w0 := RemapSaved(w, w.tickets[id], env.account);
      RemapOk(w, w.tickets[id], env.account);
      if MayRetry(t, env.now) {
        var r := Rebuild(t, env.today);
        PreparedAgrees(t, Chosen(t, env.today), TrackOf(w0.log, id));
        SavedNotedOk(w0, r, Prepared(id));
        var w1 := Noted(Saved(w0, r), Prepared(id));
        assert TicketOk(w1, id);
        if env.clientLoads {
          PreviewingOk(w1, r, env.outcome, env.now);
        } else {
          LostOk(w1, r, env.now);
        }
      }
    }
  }

  lemma LostOk(w: World, t: Ticket, now: real)
    requires Fits(w, t)
    ensures TicketsOk(Noted(Noted(Saved(w, MarkPending(t, now)), Pending(t.id)), ClientLost(t.id)))
  {
    var pending := MarkPending(t, now);
    NotedOthers(w, Pending(t.id), t.id);
    SavedNotedOk(Noted(w, Pending(t.id)), pending, ClientLost(t.id));
    assert Noted(Saved(w, pending), Pending(t.id)) == Saved(Noted(w, Pending(t.id)), pending);
  }

  lemma PreparedByFormOk(w: World, id: string, account: string, f: Form)
    requires TicketsOk(w)
    ensures TicketsOk(PreparedByForm(w, id, account, f))
  {
    if id in w.tickets {
      assert TicketOk(w, id);
      var t := Remapped(w.tickets[id], account);
      RemapOk(w, w.tickets[id], account);
      PreparedAgrees(t, FormArgs(f), TrackOf(w.log, id));
      SavedNotedOk(RemapSaved(w, w.tickets[id], account), Prepare(t, FormArgs(f)), Prepared(id));
    }
  }

  lemma ConfirmedOk(w: World, id: string, on: bool)
    requires TicketsOk(w)
    ensures TicketsOk(ConfirmedAs(w, id, on))
  {
    if id in w.tickets {
      assert TicketOk(w, id);
      SavedNotedOk(w, WithConfirmation(w.tickets[id], on), Confirmed(id, on, w.tickets[id].request));
    }
  }

  lemma SuggestedOk(w: World, id: string, found: Option<Matched>, now: real)
    requires TicketsOk(w)
    ensures TicketsOk(Suggested(w, id, found, now))
  {
    if id in w.tickets && found.Some? && |found.value.contracts| == |w.tickets[id].legs| {
      assert TicketOk(w, id);
      var f := found.value;
      SavedNotedOk(w, ApplySuggestion(w.tickets[id], f.symbol, f.expiry, f.contracts, now), Enriched(id));
    }
  }

  lemma CreatedOk(w: World, t: Ticket)
    requires TicketsOk(w) && Agrees(t, UNTRACKED)
    ensures TicketsOk(Noted(Saved(w, t), Created(t.id)))
    ensures TrackOf(Noted(Saved(w, t), Created(t.id)).log, t.id) == UNTRACKED
  {
    SavedNotedOk(w, t, Created(t.id));
  }

  lemma IngestedOk(w: World, number: string, fact: SignalFact, account: string, found: Option<Matched>, nextDay: Expiry, now: real)
    requires TicketsOk(w)
    ensures TicketsOk(Ingested(w, number, fact, account, found, nextDay, now))
  {
    if account != "" {
      var t := SignalTicket(NewId(number), fact, account, nextDay, now);
      CreatedOk(w, t);
      SuggestedOk(Noted(Saved(w, t), Created(t.id)), t.id, found, now);
    }
  }

  lemma EnteredOk(w: World, number: string, account: string, req: Request, clientLoads: bool, out: Outcome, now: real)
    requires TicketsOk(w)
    ensures TicketsOk(EnteredByHand(w, number, account, req, clientLoads, out, now))
  {
    var t := ManualTicket(NewId(number), account, req, now);
    CreatedOk(w, t);
    var w' := Noted(Saved(w, t), Created(t.id));
    if clientLoads {
      PreviewingOk(w', t, out, now);
    } else {
      SavedOk(w', MarkFailed(t, now, false));
    }
  }

  lemma SubmittedOk(w: World, id: string, env: SubmitEnv)
    requires TicketsOk(w)
    ensures TicketsOk(SubmittedAs(w, id, env))
  {
    if id in w.tickets && PlaceRequestOf(w.tickets[id]).Some? {
      assert TicketOk(w, id);
      var t := w.tickets[id];
      var place := PlaceRequestOf(t).value;
      var w' := Noted(w, Placed(id, t.account, place));
      NotedOk(w, Placed(id, t.account, place));
      assert TicketOk(w', id);
      SavedOk(w, Packaged(t, place, false));
      SavedOk(w', Packaged(t, place, true));
    }
  }

  function EnrichedNew(w: World, id: string): World { Noted(Noted(w, Created(id)), Enriched(id)) }

  lemma EnrichedNewKeeps(w: World, id: string)
    requires OthersOk(w, id)
    ensures OthersOk(EnrichedNew(w, id), id)
    ensures TrackOf(EnrichedNew(w, id).log, id) == UNTRACKED.(enriched := true)
  {
    NotedOthers(w, Created(id), id);
    NotedOthers(Noted(w, Created(id)), Enriched(id), id);
  }

  lemma NewlyPreparedOk(w: World, t: Ticket)
    requires TicketsOk(w) && Agrees(t, Track(true, true, None, None, 0, 0, 0, None, None))
    ensures TicketsOk(NewlyPrepared(w, t))
  {
    assert OthersOk(w, t.id);
    EnrichedNewKeeps(w, t.id);
    var w' := EnrichedNew(w, t.id);
    assert NewlyPrepared(w, t) == Noted(Saved(w', t), Prepared(t.id));
    SavedNotedOk(w', t, Prepared(t.id));
  }

  lemma AcceptOk(w: World, sid: string, s: PineState, e: Event, c: Change, now: real)
    requires TicketsOk(w)
    ensures TicketsOk(Accept(w, sid, s, e, c, now))
  {
    var w' := StateSaved(w, sid, Applied(s, e, c, now));
    forall i | i in w'.tickets ensures TicketOk(w', i) {
      assert TicketOk(w, i);
    }
    NotedOk(w', Accepted(sid, e.id));
  }

  lemma AlertTicketOk(w: World, p: Ticket, out: Outcome, now: real)
    requires TicketsOk(w) && Agrees(p, Track(true, true, None, None, 0, 0, 0, None, None))
    ensures TicketsOk(Previewing(NewlyPrepared(w, p), p, out, now))
  {
    NewlyPreparedOk(w, p);
    assert TicketOk(NewlyPrepared(w, p), p.id);
    PreviewingOk(NewlyPrepared(w, p), p, out, now);
  }

  lemma ProcessOk(w: World, sid: string, e: Event, env: Env)
    requires TicketsOk(w)
    ensures TicketsOk(Process(w, sid, e, env).0)
  {
    ProcessShape(w, sid, e, env);
    EffectOk(w, sid, StateOf(w, sid, e), e, env, EffectOf(w, sid, e, env), Process(w, sid, e, env));
  }

  lemma EffectOk(w: World, sid: string, s: PineState, e: Event, env: Env, eff: Option<Effect>, out: (World, Reply))
    requires TicketsOk(w) && Explains(w, sid, s, e, env, eff, out)
    ensures TicketsOk(out.0)
  {
    if eff.Some? {
      if eff.value.made.Some? {
        AlertTicketOk(w, eff.value.made.value, env.outcome, env.now);
      }
      AcceptOk(Made(w, eff.value.made, env), sid, s, e, eff.value.change, env.now);
    }
  }

  /** Every step keeps every ticket in agreement with the log. */
  lemma StepKeepsTickets(w: World, op: Op)
    requires TicketsOk(w)
    ensures TicketsOk(Step(w, op))
  {
    match op {
      case Alert(sid, e, env) => ProcessOk(w, sid, e, env);
      case Retry(id, env) => RetriedOk(w, id, env);
      case PrepareForm(id, account, form) => PreparedByFormOk(w, id, account, form);
      case Confirm(id, on) => ConfirmedOk(w, id, on);
      case Suggest(id, found, now) => SuggestedOk(w, id, found, now);
      case Ingest(number, fact, account, found, nextDay, now) => IngestedOk(w, number, fact, account, found, nextDay, now);
      case Enter(number, account, req, clientLoads, out, now) => EnteredOk(w, number, account, req, clientLoads, out, now);
      case Submit(id, env) => SubmittedOk(w, id, env);
      case Clear(alsoStates) =>
    }
  }

  // ----- which notes a step adds -----

  predicate IsPlain(n: Note) { !n.Accepted? && !n.Placed? && n != StatesCleared }

  /** log' is log followed by plain notes. */
  ghost predicate ExtendsPlainly(log: seq<Note>, log': seq<Note>) {
    log <= log' && forall i | |log| <= i < |log'| :: IsPlain(log'[i])
  }

  lemma {:induction false} PlainKeepsAccepted(log: seq<Note>, log': seq<Note>, sid: string)
    requires ExtendsPlainly(log, log')
    ensures AcceptedIds(log', sid) == AcceptedIds(log, sid)
    decreases |log'|
  {
    if |log| < |log'| {
      var n := |log'| - 1;
      assert log <= log'[..n];
      assert forall i | |log| <= i < n :: log'[..n][i] == log'[i];
      PlainKeepsAccepted(log, log'[..n], sid);
      assert IsPlain(log'[n]);
    } else {
      assert log == log';
    }
  }

  lemma PreviewingIsPlain(w: World, t: Ticket, out: Outcome, now: real)
    ensures ExtendsPlainly(w.log, Previewing(w, t, out, now).log) && Previewing(w, t, out, now).states == w.states
    ensures w.tickets.Keys <= Previewing(w, t, out, now).tickets.Keys
  {
  }

  lemma PlainThen(a: seq<Note>, b: seq<Note>, c: seq<Note>)
    requires ExtendsPlainly(a, b) && ExtendsPlainly(b, c)
    ensures ExtendsPlainly(a, c)
  {
    forall i | |a| <= i < |c| ensures IsPlain(c[i]) {
      if i < |b| { assert b[i] == c[i]; }
    }
  }

  lemma RebuiltIsPlain(w: World, r: Ticket, id: string, env: RetryEnv)
    ensures var w1 := Noted(Saved(w, r), Prepared(id));
      var w' := if env.clientLoads then Previewing(w1, r, env.outcome, env.now)
                else Noted(Noted(Saved(w1, MarkPending(r, env.now)), Pending(id)), ClientLost(id));
      ExtendsPlainly(w.log, w'.log) && w'.states == w.states && w.tickets.Keys <= w'.tickets.Keys
  {
    var w1 := Noted(Saved(w, r), Prepared(id));
    PreviewingIsPlain(w1, r, env.outcome, env.now);
    PlainThen(w.log, w1.log, Previewing(w1, r, env.outcome, env.now).log);
  }

  lemma RetriedIsPlain(w: World, id: string, env: RetryEnv)
    ensures ExtendsPlainly(w.log, Retried(w, id, env).log) && Retried(w, id, env).states == w.states
    ensures w.tickets.Keys <= Retried(w, id, env).tickets.Keys
  {
    if id in w.tickets {
      var r := Rebuild(Remapped(w.tickets[id], env.account), env.today);
      RebuiltIsPlain(RemapSaved(w, w.tickets[id], env.account), r, id, env);
    }
  }

  lemma EnteredIsPlain(w: World, number: string, account: string, req: Request, clientLoads: bool, out: Outcome, now: real)
    ensures var w' := EnteredByHand(w, number, account, req, clientLoads, out, now);
      ExtendsPlainly(w.log, w'.log) && w'.states == w.states && w.tickets.Keys <= w'.tickets.Keys
  {
    var t := ManualTicket(NewId(number), account, req, now);
    PreviewingIsPlain(Noted(Saved(w, t), Created(t.id)), t, out, now);
  }

  lemma IngestedIsPlain(w: World, number: string, fact: SignalFact, account: string, found: Option<Matched>,
                        nextDay: Expiry, now: real)
    ensures var w' := Ingested(w, number, fact, account, found, nextDay, now);
      ExtendsPlainly(w.log, w'.log) && w'.states == w.states && w.tickets.Keys <= w'.tickets.Keys
  {
    var t := SignalTicket(NewId(number), fact, account, nextDay, now);
    SuggestIsPlain(Noted(Saved(w, t), Created(t.id)), t.id, found, now);
  }

  lemma FormIsPlain(w: World, id: string, account: string, f: Form)
    ensures var w' := PreparedByForm(w, id, account, f);
      ExtendsPlainly(w.log, w'.log) && w'.states == w.states && w.tickets.Keys <= w'.tickets.Keys
  {
  }

  lemma ConfirmIsPlain(w: World, id: string, on: bool)
    ensures var w' := ConfirmedAs(w, id, on);
      ExtendsPlainly(w.log, w'.log) && w'.states == w.states && w.tickets.Keys <= w'.tickets.Keys
  {
  }

  lemma SuggestIsPlain(w: World, id: string, found: Option<Matched>, now: real)
    ensures var w' := Suggested(w, id, found, now);
      ExtendsPlainly(w.log, w'.log) && w'.states == w.states && w.tickets.Keys <= w'.tickets.Keys
  {
  }

  predicate IsDeskOp(op: Op) { !op.Alert? && !op.Submit? && !op.Clear? }

  lemma DeskOpIsPlain(w: World, op: Op)
    requires IsDeskOp(op)
    ensures ExtendsPlainly(w.log, Step(w, op).log) && Step(w, op).states == w.states
    ensures w.tickets.Keys <= Step(w, op).tickets.Keys
  {
    match op {
      case Retry(id, env) => RetriedIsPlain(w, id, env);
      case PrepareForm(id, account, form) => FormIsPlain(w, id, account, form);
      case Confirm(id, on) => ConfirmIsPlain(w, id, on);
      case Suggest(id, found, now) => SuggestIsPlain(w, id, found, now);
      case Ingest(number, fact, account, found, nextDay, now) => IngestedIsPlain(w, number, fact, account, found, nextDay, now);
      case Enter(number, account, req, clientLoads, out, now) => EnteredIsPlain(w, number, account, req, clientLoads, out, now);
    }
  }

  lemma MadeIsPlain(w: World, made: Option<Ticket>, env: Env)
    ensures ExtendsPlainly(w.log, Made(w, made, env).log) && Made(w, made, env).states == w.states
    ensures w.tickets.Keys <= Made(w, made, env).tickets.Keys
    ensures made.Some? ==> made.value.id in Made(w, made, env).tickets
  {
    if made.Some? {
      PreviewingIsPlain(NewlyPrepared(w, made.value), made.value, env.outcome, env.now);
    }
  }

  // ----- states of positions -----

  ghost predicate PositionOk(w: World, sid: string)
    requires sid in w.states
  {
    StateOk(w.states[sid]) && Remembers(w.states[sid], AcceptedIds(w.log, sid))
  }

  ghost predicate PositionsOk(w: World) {
    && (forall sid | sid in w.states :: PositionOk(w, sid))
    && (forall sid: string | sid !in w.states :: AcceptedIds(w.log, sid) == [])
  }

  lemma PlainKeepsPositions(w: World, w': World)
    requires PositionsOk(w) && ExtendsPlainly(w.log, w'.log) && w'.states == w.states
    ensures PositionsOk(w')
  {
    forall sid: string ensures AcceptedIds(w'.log, sid) == AcceptedIds(w.log, sid) {
      PlainKeepsAccepted(w.log, w'.log, sid);
    }
    forall sid | sid in w'.states ensures PositionOk(w', sid) {
      assert PositionOk(w, sid);
    }
  }

  lemma NewStateRemembers(optionRoot: Option<string>)
    ensures Remembers(NewState(optionRoot), [])
  {
  }

  lemma AcceptKeepsPositions(w: World, sid: string, s: PineState, e: Event, c: Change, now: real)
    requires PositionsOk(w) && Remembers(s, AcceptedIds(w.log, sid)) && e.id !in s.processed
    requires StateOk(Applied(s, e, c, now))
    ensures PositionsOk(Accept(w, sid, s, e, c, now))
  {
    var w' := Accept(w, sid, s, e, c, now);
    AppliedRemembers(s, AcceptedIds(w.log, sid), e, c, now);
    forall i: string ensures AcceptedIds(w'.log, i) == AcceptedIds(w.log, i) + if i == sid then [e.id] else [] {
      AcceptedNoted(w.log, Accepted(sid, e.id), i);
    }
    forall i | i in w'.states ensures PositionOk(w', i) {
      if i != sid { assert PositionOk(w, i); }
    }
  }

  lemma AlertKeepsPositions(w: World, sid: string, e: Event, env: Env)
    requires PositionsOk(w)
    ensures PositionsOk(Process(w, sid, e, env).0)
  {
    ProcessShape(w, sid, e, env);
    var eff, s := EffectOf(w, sid, e, env), StateOf(w, sid, e);
    if eff.Some? {
      NewStateRemembers(e.optionRoot);
      if sid in w.states { assert PositionOk(w, sid); }
      AlertKeepsState(w, sid, e, env);
      var w' := Made(w, eff.value.made, env);
      MadeIsPlain(w, eff.value.made, env);
      PlainKeepsPositions(w, w');
      PlainKeepsAccepted(w.log, w'.log, sid);
      AcceptKeepsPositions(w', sid, s, e, eff.value.change, env.now);
    }
  }

  lemma SubmitKeepsPositions(w: World, id: string, env: SubmitEnv)
    requires PositionsOk(w)
    ensures PositionsOk(SubmittedAs(w, id, env))
  {
    var w' := SubmittedAs(w, id, env);
    if w'.log != w.log {
      forall sid: string ensures AcceptedIds(w'.log, sid) == AcceptedIds(w.log, sid) {
        AcceptedNoted(w.log, w'.log[|w.log|], sid);
      }
    }
    forall sid | sid in w'.states ensures PositionOk(w', sid) {
      assert PositionOk(w, sid);
    }
  }

  lemma ClearKeepsPositions(w: World, alsoStates: bool)
    requires PositionsOk(w)
    ensures PositionsOk(Cleared(w, alsoStates))
  {
    var w' := Cleared(w, alsoStates);
    if alsoStates {
      forall sid: string ensures AcceptedIds(w'.log, sid) == [] {
        AcceptedNoted(w.log, StatesCleared, sid);
      }
    } else {
      forall sid | sid in w'.states ensures PositionOk(w', sid) {
        assert PositionOk(w, sid);
      }
    }
  }

  /** Every step keeps every position in order and its window exact. */
  lemma StepKeepsPositions(w: World, op: Op)
    requires PositionsOk(w)
    ensures PositionsOk(Step(w, op))
  {
    match op {
      case Alert(sid, e, env) => AlertKeepsPositions(w, sid, e, env);
      case Submit(id, env) => SubmitKeepsPositions(w, id, env);
      case Clear(alsoStates) => ClearKeepsPositions(w, alsoStates);
      case _ =>
        DeskOpIsPlain(w, op);
        PlainKeepsPositions(w, Step(w, op));
    }
  }

  // ----- orders placed -----

  /** Before the order was placed its ticket had been prepared, enriched and confirmed
      since the last successful preview, and the order is the one confirmed. */
  ghost predicate IsJustified(before: seq<Note>, n: Note)
    requires n.Placed?
  {
    var k := TrackOf(before, n.id);
    && k.prepared && k.enriched && k.previewId == Some(n.place.previewId)
    && k.confirmed.Some? && k.confirmed.value.Some? && k.confirmed.value.value.orders == Many(n.place.orders)
  }

  ghost predicate OrdersOk(log: seq<Note>) {
    forall i | 0 <= i < |log| && log[i].Placed? :: IsJustified(log[..i], log[i])
  }

  lemma UnplacedKeepsOrders(log: seq<Note>, log': seq<Note>)
    requires OrdersOk(log) && log <= log' && forall i | |log| <= i < |log'| :: !log'[i].Placed?
    ensures OrdersOk(log')
  {
    forall i | 0 <= i < |log'| && log'[i].Placed? ensures IsJustified(log'[..i], log'[i]) {
      assert log[..i] == log'[..i] && log[i] == log'[i];
    }
  }

  lemma PlaceableIsJustified(w: World, id: string, env: SubmitEnv)
    requires TicketsOk(w) && id in w.tickets && IsReady(w.tickets[id], env.now, env.max) && PlaceRequestOf(w.tickets[id]).Some?
    ensures IsJustified(w.log, Placed(id, w.tickets[id].account, PlaceRequestOf(w.tickets[id]).value))
  {
    assert TicketOk(w, id);
  }

  lemma SubmitKeepsOrders(w: World, id: string, env: SubmitEnv)
    requires TicketsOk(w) && OrdersOk(w.log)
    ensures OrdersOk(SubmittedAs(w, id, env).log)
  {
    var log' := SubmittedAs(w, id, env).log;
    if log' != w.log {
      PlaceableIsJustified(w, id, env);
      forall i | 0 <= i < |log'| && log'[i].Placed? ensures IsJustified(log'[..i], log'[i]) {
        if i < |w.log| {
          assert w.log[..i] == log'[..i] && w.log[i] == log'[i];
        } else {
          assert log'[..i] == w.log;
        }
      }
    }
  }

  lemma AlertKeepsOrders(w: World, sid: string, e: Event, env: Env)
    requires OrdersOk(w.log)
    ensures OrdersOk(Process(w, sid, e, env).0.log)
  {
    ProcessShape(w, sid, e, env);
    EffectKeepsOrders(w, sid, StateOf(w, sid, e), e, env, EffectOf(w, sid, e, env), Process(w, sid, e, env));
  }

  lemma EffectKeepsOrders(w: World, sid: string, s: PineState, e: Event, env: Env, eff: Option<Effect>, out: (World, Reply))
    requires OrdersOk(w.log) && Explains(w, sid, s, e, env, eff, out)
    ensures OrdersOk(out.0.log)
  {
    if eff.Some? {
      var made := Made(w, eff.value.made, env);
      MadeIsPlain(w, eff.value.made, env);
      assert out.0.log == made.log + [Accepted(sid, e.id)];
      UnplacedKeepsOrders(w.log, out.0.log);
    }
  }

  lemma StepKeepsOrders(w: World, op: Op)
    requires TicketsOk(w) && OrdersOk(w.log)
    ensures OrdersOk(Step(w, op).log)
  {
    match op {
      case Alert(sid, e, env) => AlertKeepsOrders(w, sid, e, env);
      case Submit(id, env) => SubmitKeepsOrders(w, id, env);
      case Clear(alsoStates) => UnplacedKeepsOrders(w.log, Step(w, op).log);
      case _ =>
        DeskOpIsPlain(w, op);
        UnplacedKeepsOrders(w.log, Step(w, op).log);
    }
  }

  // ----- every run -----

  ghost predicate WorldOk(w: World) { TicketsOk(w) && PositionsOk(w) && OrdersOk(w.log) }

  lemma StepKeepsWorld(w: World, op: Op)
    requires WorldOk(w)
    ensures WorldOk(Step(w, op))
  {
    StepKeepsTickets(w, op);
    StepKeepsPositions(w, op);
    StepKeepsOrders(w, op);
  }

  lemma EmptyIsOk()
    ensures WorldOk(EMPTY_WORLD)
  {
  }

  /** Every reachable world is in order, whatever the interleaving of alerts and desk
      operations and whatever the broker does. */
  lemma {:induction false} RunIsOk(ops: seq<Op>)
    ensures WorldOk(Run(ops))
  {
    if ops != [] {
      var w, op := Run(ops[..|ops| - 1]), ops[|ops| - 1];
      RunIsOk(ops[..|ops| - 1]);
      StepKeepsWorld(w, op);
    }
  }

  /** An alert is taken for a repeat exactly when it is among the last 50 accepted for
      its position; then it changes nothing, makes no ticket and asks the broker for
      nothing, whatever else it says. */
  lemma ReplayIsSilent(ops: seq<Op>, sid: string, e: Event, env: Env)
    ensures var (w, r) := Process(Run(ops), sid, e, env);
      && (r == Duplicate <==> e.id in LastN(AcceptedIds(Run(ops).log, sid), 50))
      && (r == Duplicate ==> w == Run(ops))
  {
    RunIsOk(ops);
    RepeatIffRemembered(Run(ops), sid, e, env);
  }

  lemma RepeatIffRemembered(w: World, sid: string, e: Event, env: Env)
    requires PositionsOk(w)
    ensures Process(w, sid, e, env).1 == Duplicate <==> e.id in LastN(AcceptedIds(w.log, sid), 50)
    ensures Process(w, sid, e, env).1 == Duplicate ==> Process(w, sid, e, env).0 == w
  {
    DuplicateIff(w, sid, e, env);
    if sid in w.states {
      assert PositionOk(w, sid);
    }
  }

  /** The story behind note n, an order placed after the notes before: a successful
      preview gave the identifier; after it the ticket was prepared, then the request was
      confirmed and not touched until the order, which equals it, was placed; the
      contracts were matched after the preview, too. */
  ghost predicate IsStory(before: seq<Note>, n: Note, answer: int, prepare: int, confirm: int, enrich: int, req: Request)
    requires n.Placed?
  {
    && answer < prepare < confirm < |before| && answer < enrich
    && StandsSince(before, n.id, answer, Answered(n.id, Some(n.place.previewId)))
    && StandsSince(before, n.id, prepare, Prepared(n.id)) && StandsSince(before, n.id, enrich, Enriched(n.id))
    && StandsConfirmed(before, n.id, confirm, Some(req)) && req.orders == Many(n.place.orders)
  }

  lemma PreparedBeforeConfirmed(before: seq<Note>, id: string, confirm: int, req: Option<Request>) returns (prepare: int)
    requires StandsConfirmed(before, id, confirm, req) && TrackOf(before[..confirm], id).prepared
    ensures prepare < confirm && StandsSince(before, id, prepare, Prepared(id))
  {
    prepare := PreparedMeaning(before[..confirm], id);
    assert forall j | 0 <= j < confirm :: before[..confirm][j] == before[j];
    forall j | prepare < j < |before| ensures !Resets(before[j], id) {
      if j < confirm {
        assert !Resets(before[..confirm][j], id);
      }
    }
  }

  /** A position that stands and is no reset lies after any reset that stands. */
  lemma StandsAfter(log: seq<Note>, id: string, reset: int, n: Note, p: int, m: Note)
    requires StandsSince(log, id, reset, n) && Resets(n, id) && StandsSince(log, id, p, m) && !Resets(m, id)
    ensures reset < p
  {
  }

  lemma JustifiedHasStory(before: seq<Note>, n: Note) returns (answer: int, prepare: int, confirm: int, enrich: int, req: Request)
    requires n.Placed? && IsJustified(before, n)
    ensures IsStory(before, n, answer, prepare, confirm, enrich, req)
  {
    req := TrackOf(before, n.id).confirmed.value.value;
    confirm := ConfirmedMeaning(before, n.id);
    enrich := EnrichedMeaning(before, n.id);
    answer := PreviewIdMeaning(before, n.id);
    prepare := PreparedBeforeConfirmed(before, n.id, confirm, Some(req));
    StandsAfter(before, n.id, answer, Answered(n.id, Some(n.place.previewId)), prepare, Prepared(n.id));
    StandsAfter(before, n.id, answer, Answered(n.id, Some(n.place.previewId)), enrich, Enriched(n.id));
  }

  ghost predicate HasStory(before: seq<Note>, n: Note)
    requires n.Placed?
  {
    exists answer, prepare, confirm, enrich, req :: IsStory(before, n, answer, prepare, confirm, enrich, req)
  }

  /** Every order placed in a run has its story. */
  lemma SubmissionStory(ops: seq<Op>)
    ensures var log := Run(ops).log;
      forall i | 0 <= i < |log| && log[i].Placed? :: HasStory(log[..i], log[i])
  {
    RunIsOk(ops);
    OrdersHaveStories(Run(ops).log);
  }

  lemma PlaceableHasStory(w: World, id: string, env: SubmitEnv)
    requires TicketsOk(w) && id in w.tickets && IsReady(w.tickets[id], env.now, env.max) && PlaceRequestOf(w.tickets[id]).Some?
    ensures HasStory(w.log, Placed(id, w.tickets[id].account, PlaceRequestOf(w.tickets[id]).value))
  {
    PlaceableIsJustified(w, id, env);
    var answer, prepare, confirm, enrich, req :=
      JustifiedHasStory(w.log, Placed(id, w.tickets[id].account, PlaceRequestOf(w.tickets[id]).value));
  }

  lemma OrdersHaveStories(log: seq<Note>)
    requires OrdersOk(log)
    ensures forall i | 0 <= i < |log| && log[i].Placed? :: HasStory(log[..i], log[i])
  {
    forall i | 0 <= i < |log| && log[i].Placed? ensures HasStory(log[..i], log[i]) {
      var answer, prepare, confirm, enrich, req := JustifiedHasStory(log[..i], log[i]);
    }
  }

  /** The attempts of a ticket count the previews submitted for it and the retries whose
      client could not be loaded; they equal the previews exactly when no retry was lost. */
  lemma AttemptsCount(ops: seq<Op>, id: string)
    ensures id in Run(ops).tickets ==>
      var t, k := Run(ops).tickets[id], TrackOf(Run(ops).log, id);
      t.attempts == k.asks + k.lost && (t.attempts == k.asks <==> k.lost == 0)
  {
    RunIsOk(ops);
    if id in Run(ops).tickets {
      assert TicketOk(Run(ops), id);
    }
  }

  lemma LostRetryLog(w: World, id: string, env: RetryEnv)
    requires id in w.tickets && w.tickets[id].id == id && !env.clientLoads
    requires MayRetry(Remapped(w.tickets[id], env.account), env.now)
    ensures var w' := Retried(w, id, env);
      id in w'.tickets && w'.log == w.log + [Prepared(id)] + [Pending(id)] + [ClientLost(id)]
  {
  }

  lemma LostIsCounted(w: World, id: string, log: seq<Note>)
    requires TicketsOk(w) && id in w.tickets && w.log == log + [ClientLost(id)]
    ensures w.tickets[id].attempts > TrackOf(w.log, id).asks
  {
    TrackNoted(log, ClientLost(id), id);
    assert TicketOk(w, id);
  }

  lemma LostRetryCounts(w: World, id: string, env: RetryEnv)
    requires TicketsOk(w) && id in w.tickets && !env.clientLoads && MayRetry(Remapped(w.tickets[id], env.account), env.now)
    ensures var w' := Retried(w, id, env);
      id in w'.tickets && w'.tickets[id].attempts > TrackOf(w'.log, id).asks
  {
    assert TicketOk(w, id);
    LostRetryLog(w, id, env);
    RetriedOk(w, id, env);
    LostIsCounted(Retried(w, id, env), id, w.log + [Prepared(id)] + [Pending(id)]);
  }

  predicate LosesClient(w: World, id: string, env: RetryEnv) {
    id in w.tickets && !env.clientLoads && MayRetry(Remapped(w.tickets[id], env.account), env.now)
  }

  /** A retry whose client cannot be loaded counts an attempt without a preview. */
  lemma LostRetryIsCounted(ops: seq<Op>, id: string, env: RetryEnv)
    ensures LosesClient(Run(ops), id, env) ==>
      var w := Retried(Run(ops), id, env);
      id in w.tickets && w.tickets[id].attempts > TrackOf(w.log, id).asks
  {
    RunIsOk(ops);
    if LosesClient(Run(ops), id, env) {
      LostRetryCounts(Run(ops), id, env);
    }
  }

  /** The order the ticket page asks for. */
  function FormOrder(t: Ticket, f: Form): Order {
    Order(Some("NET_CREDIT"), Number(Snap(f.limit, Tick(t, "NET_CREDIT"))), Instruments(PreparedLegs(t.legs, FormArgs(f))))
  }

  /** A ticket that only lacks the intent and its confirmation. */
  predicate LacksIntentOnly(t: Ticket, env: SubmitEnv) {
    && HasContracts(t) && t.previewId.Some? && (t.source == Signal ==> IsFresh(Some(t.createdAt), env.now, env.max.signal))
    && IsFresh(t.lastPreviewAt, env.now, env.max.preview) && IsFresh(t.snapshot, env.now, env.max.snapshot)
  }

  lemma PreparedCanBePlaced(t: Ticket, f: Form, env: SubmitEnv)
    requires LacksIntentOnly(t, env) && Strip(ResolveOrderType(t)) != ""
    ensures var c := WithConfirmation(Prepare(t, FormArgs(f)), true);
      && IsReady(c, env.now, env.max) && c.account == t.account && c.id == t.id
      && PlaceRequestOf(c).Some? && PlaceRequestOf(c).value.orders == [FormOrder(t, f)]
  {
    var p := Prepare(t, FormArgs(f));
    forall leg | leg in p.legs ensures OrText(leg.osi, "") != "" {
      var i :| 0 <= i < |p.legs| && p.legs[i] == leg;
      assert t.legs[i] in t.legs;
    }
  }

  lemma FormConfirmSubmit(w: World, id: string, f: Form, env: SubmitEnv)
    requires id in w.tickets && w.tickets[id].id == id && GoesLive(env) && env.clientLoads
    requires LacksIntentOnly(w.tickets[id], env) && Strip(ResolveOrderType(w.tickets[id])) != ""
    ensures var t := w.tickets[id];
      var c := WithConfirmation(Prepare(t, FormArgs(f)), true);
      && PlaceRequestOf(c).Some? && PlaceRequestOf(c).value.orders == [FormOrder(t, f)]
      && SubmittedAs(ConfirmedAs(PreparedByForm(w, id, "", f), id, true), id, env).log
           == w.log + [Prepared(id)] + [Confirmed(id, true, c.request)] + [Placed(id, t.account, PlaceRequestOf(c).value)]
  {
    var t := w.tickets[id];
    var p := Prepare(t, FormArgs(f));
    var c := WithConfirmation(p, true);
    PreparedCanBePlaced(t, f, env);
    var w1 := PreparedByForm(w, id, "", f);
    assert w1 == Noted(Saved(w, p), Prepared(id));
    var w2 := ConfirmedAs(w1, id, true);
    assert w2 == Noted(Saved(w1, c), Confirmed(id, true, p.request));
  }

  predicate CanGoLive(w: World, id: string, env: SubmitEnv) {
    && id in w.tickets && GoesLive(env) && env.clientLoads
    && LacksIntentOnly(w.tickets[id], env) && Strip(ResolveOrderType(w.tickets[id])) != ""
  }

  /** Once a ticket was previewed and enriched, whatever the form says can be prepared,
      confirmed and placed without asking for another preview. */
  lemma FormOrderIsPlaced(ops: seq<Op>, id: string, f: Form, env: SubmitEnv)
    ensures CanGoLive(Run(ops), id, env) ==>
      var w, t := Run(ops), Run(ops).tickets[id];
      var c := WithConfirmation(Prepare(t, FormArgs(f)), true);
      && PlaceRequestOf(c).Some? && PlaceRequestOf(c).value.orders == [FormOrder(t, f)]
      && SubmittedAs(ConfirmedAs(PreparedByForm(w, id, "", f), id, true), id, env).log
           == w.log + [Prepared(id)] + [Confirmed(id, true, c.request)] + [Placed(id, t.account, PlaceRequestOf(c).value)]
  {
    RunIsOk(ops);
    if CanGoLive(Run(ops), id, env) {
      assert TicketOk(Run(ops), id);
      FormConfirmSubmit(Run(ops), id, f, env);
    }
  }

  function FormExpiry(f: Form): Expiry { Expiry(Some(f.year), Some(f.month), Some(f.day)) }

  /** The form asks for order o: a credit order with o's limit, date, quantity and legs. */
  predicate FormRepeats(t: Ticket, f: Form, o: Order) {
    && o.priceType == Some("NET_CREDIT") && o.limit == Number(Snap(f.limit, Tick(t, "NET_CREDIT")))
    && |o.instruments| == |t.legs|
    && forall i | 0 <= i < |t.legs| :: o.instruments[i] ==
         Some(Instrument(OrderSymbol(t.legs[i]), t.legs[i].action, Some(f.quantity as real),
                         Filled(t.legs[i], i).callPut, FormExpiry(f), t.legs[i].strike, None))
  }

  lemma FormOrderIff(t: Ticket, f: Form, o: Order)
    ensures FormOrder(t, f) == o <==> FormRepeats(t, f, o)
  {
    var x := Instruments(PreparedLegs(t.legs, FormArgs(f)));
    if FormRepeats(t, f, o) {
      assert x == o.instruments;
    }
  }

  predicate AsksOnlyFor(req: Option<Request>, orders: seq<Order>) { req.Some? && req.value.orders == Many(orders) }

  lemma OnlyOrderIff(t: Ticket, f: Form, req: Option<Request>)
    ensures AsksOnlyFor(req, [FormOrder(t, f)]) <==>
      req.Some? && req.value.orders.Many? && |req.value.orders.list| == 1 && FormRepeats(t, f, req.value.orders.list[0])
  {
    if req.Some? && req.value.orders.Many? && |req.value.orders.list| == 1 {
      FormOrderIff(t, f, req.value.orders.list[0]);
      assert req.value.orders.list == [req.value.orders.list[0]];
    }
  }

  /** Where nothing was prepared since the last successful preview the stored request is
      the one that was previewed, and the order placed after filling in the form is the
      previewed one exactly when the form repeats its terms. */
  lemma PlacedIsPreviewedIff(ops: seq<Op>, id: string, f: Form, env: SubmitEnv)
    ensures CanGoLive(Run(ops), id, env) && !Run(ops).tickets[id].intent.ready ==>
      var t, previewed := Run(ops).tickets[id], TrackOf(Run(ops).log, id).previewed;
      var c := WithConfirmation(Prepare(t, FormArgs(f)), true);
      && PlaceRequestOf(c).Some? && previewed == t.request
      && (AsksOnlyFor(previewed, PlaceRequestOf(c).value.orders) <==>
            && previewed.Some? && previewed.value.orders.Many? && |previewed.value.orders.list| == 1
            && FormRepeats(t, f, previewed.value.orders.list[0]))
  {
    RunIsOk(ops);
    if CanGoLive(Run(ops), id, env) && !Run(ops).tickets[id].intent.ready {
      assert TicketOk(Run(ops), id);
      PreparedCanBePlaced(Run(ops).tickets[id], f, env);
      OnlyOrderIff(Run(ops).tickets[id], f, Run(ops).tickets[id].request);
    }
  }

  /** For a request that was prepared: the form repeats it exactly when it was a credit
      order, the limits snap alike, the legs kept symbols, actions, strikes and sides, and
      quantity and date are those of the form. */
  lemma FormRepeatsPreparedIff(t: Ticket, f: Form, t0: Ticket, a: Args)
    ensures var p := Prepare(t0, a);
      AsksOnlyFor(p.request, [FormOrder(t, f)]) <==>
        && a.priceType == "NET_CREDIT" && p.prices.limit == Some(Snap(f.limit, Tick(t, "NET_CREDIT")))
        && SameLegs(t.legs, p.legs) && (p.legs == [] || (f.quantity == a.quantity && FormExpiry(f) == a.expiry))
  {
    var p := Prepare(t0, a);
    PreparedMatchIff(t.legs, FormArgs(f), t0.legs, a);
    var o := p.request.value.orders.list[0];
    if AsksOnlyFor(p.request, [FormOrder(t, f)]) {
      assert o == FormOrder(t, f);
    }
  }

  // ----- identifiers resolve -----

  ghost predicate Resolves(w: World, id: Option<string>) { id.Some? ==> id.value in w.tickets }

  ghost predicate IdsResolve(w: World) {
    forall sid | sid in w.states :: Resolves(w, w.states[sid].entry) && Resolves(w, w.states[sid].close)
  }

  ghost predicate IdsOf(w: World, s: PineState) { Resolves(w, s.entry) && Resolves(w, s.close) }

  lemma AcceptKeepsIds(w: World, sid: string, s: PineState, e: Event, c: Change, now: real)
    requires IdsResolve(w) && IdsOf(w, s) && Resolves(w, c.entry) && Resolves(w, c.close)
    ensures IdsResolve(Accept(w, sid, s, e, c, now))
  {
  }

  lemma MadeKeepsIds(w: World, made: Option<Ticket>, env: Env, s: PineState)
    requires IdsResolve(w) && IdsOf(w, s)
    ensures IdsResolve(Made(w, made, env)) && IdsOf(Made(w, made, env), s)
  {
    MadeIsPlain(w, made, env);
  }

  /** The ids an alert writes are those of the ticket it makes, or of the state. */
  lemma ChangedIds(w: World, sid: string, e: Event, env: Env)
    ensures EffectOf(w, sid, e, env).Some? ==>
      var eff, s := EffectOf(w, sid, e, env).value, StateOf(w, sid, e);
      && (eff.change.entry.Some? ==> eff.change.entry == s.entry || (eff.made.Some? && eff.made.value.id == eff.change.entry.value))
      && (eff.change.close.Some? ==> eff.made.Some? && eff.made.value.id == eff.change.close.value)
  {
    ProcessShape(w, sid, e, env);
  }

  lemma AlertKeepsIds(w: World, sid: string, e: Event, env: Env)
    requires IdsResolve(w)
    ensures IdsResolve(Process(w, sid, e, env).0)
  {
    ProcessShape(w, sid, e, env);
    var s := StateOf(w, sid, e);
    if EffectOf(w, sid, e, env).Some? {
      var eff := EffectOf(w, sid, e, env).value;
      ChangedIds(w, sid, e, env);
      MadeIsPlain(w, eff.made, env);
      MadeKeepsIds(w, eff.made, env, s);
      AcceptKeepsIds(Made(w, eff.made, env), sid, s, e, eff.change, env.now);
    }
  }

  predicate KeepsTickets(op: Op) { op != Clear(false) }

  lemma StepKeepsIds(w: World, op: Op)
    requires IdsResolve(w) && KeepsTickets(op)
    ensures IdsResolve(Step(w, op))
  {
    match op {
      case Alert(sid, e, env) => AlertKeepsIds(w, sid, e, env);
      case Submit(id, env) =>
      case Clear(alsoStates) =>
      case _ => DeskOpIsPlain(w, op);
    }
  }

  /** Unless the queue is cleared without the positions, the ticket ids of every
      position are found in the ticket store. */
  lemma {:induction false} IdsAlwaysResolve(ops: seq<Op>)
    requires forall i | 0 <= i < |ops| :: KeepsTickets(ops[i])
    ensures IdsResolve(Run(ops))
  {
    if ops != [] {
      var n := |ops| - 1;
      IdsAlwaysResolve(ops[..n]);
      StepKeepsIds(Run(ops[..n]), ops[n]);
    }
  }

  /** Clearing the queue alone leaves every position without its ticket: the ids
      still resolve only if there is no position at all. */
  lemma ClearingBreaksIds(ops: seq<Op>)
    ensures IdsResolve(Cleared(Run(ops), false)) <==> Run(ops).states == map[]
  {
    RunIsOk(ops);
    NoPositionIsLeft(Run(ops));
  }

  lemma NoPositionIsLeft(w: World)
    requires PositionsOk(w)
    ensures IdsResolve(Cleared(w, false)) <==> w.states == map[]
  {
    if w.states != map[] {
      assert w.states.Keys != {};
      var sid := Any(w.states.Keys);
      assert PositionOk(w, sid);
      assert !Resolves(Cleared(w, false), Cleared(w, false).states[sid].entry);
    }
  }
}
