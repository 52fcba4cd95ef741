/** Short runs that reach what the laws about all runs leave open. */
module Witnesses {
  import opened Basics
  import opened Text
  import opened Tickets
  import opened TicketSteps
  import opened Rebuilding
  import opened Quotes
  import opened PineModels
  import opened Stores
  import opened Previews
  import opened PineBridge
  import opened PineRules
  import opened Desk
  import opened DeskRules
  import opened Runs

  /** A run that reached w reaches w' by one more operation. */
  lemma RunThen(ops: seq<Op>, op: Op, w: World, w': World)
    requires Run(ops) == w && Step(w, op) == w'
    ensures Run(ops + [op]) == w'
  {
    assert (ops + [op])[..|ops|] == ops;
  }

  // ----- a ticket entered by hand, previewed and enriched -----

  /** A preview that succeeds with this id and says nothing else. */
  function Success(previewId: string): Outcome { Answers(Response(None, None, Some(previewId), false, None)) }

  function RequestFor(orderType: string, o: Order): Request { Request(Some(orderType), None, Many([o])) }

  /** A ticket as it is once a one-leg order was previewed at time now. */
  predicate IsPreviewed(t: Ticket, id: string, orderType: string, o: Order, now: real) {
    && t.id == id && |t.legs| == 1 && t.source == Manual && t.previewId.Some? && t.lastPreviewAt == Some(now)
    && t.orderType == orderType && t.account != "" && t.nextRetryAt == None && t.request == Some(RequestFor(orderType, o))
  }

  lemma OneLeg(i: Instrument)
    ensures ToLegs([Some(i)]) == [ToLeg(i)]
  {
    assert ToLegs([]) == [];
  }

  lemma EnteredIsPreviewed(w: World, number: string, account: string, orderType: string, o: Order, previewId: string, now: real)
    requires account != "" && previewId != "" && |o.instruments| == 1 && o.instruments[0].Some?
    ensures var id, req := NewId(number), RequestFor(orderType, o);
      var w' := EnteredByHand(w, number, account, req, true, Success(previewId), now);
      && id in w'.tickets && IsPreviewed(w'.tickets[id], id, orderType, o, now)
      && w'.log == w.log + [Created(id)] + [Pending(id)] + [Asked(id, account, Some(req))] + [Answered(id, Some(previewId))]
  {
    OneLeg(o.instruments[0].value);
    assert o.instruments == [o.instruments[0]];
  }

  /** Enriching such a ticket leaves only the intent missing. */
  lemma EnrichedLacksIntent(w: World, id: string, orderType: string, o: Order, m: Matched, now: real, env: SubmitEnv)
    requires id in w.tickets && IsPreviewed(w.tickets[id], id, orderType, o, now)
    requires |m.contracts| == 1 && OrText(m.contracts[0].osi, "") != "" && orderType != "" && Strip(orderType) != ""
    requires GoesLive(env) && env.clientLoads && env.now == now && env.max.preview >= 0.0 && env.max.snapshot >= 0.0
    ensures var w' := Suggested(w, id, Some(m), now);
      && CanGoLive(w', id, env) && w'.log == w.log + [Enriched(id)]
  {
    var t := Suggested(w, id, Some(m), now).tickets[id];
    assert Geometry(Corners(t.legs)) == None;
  }

  const EXPIRY := Expiry(Some(2026), Some(1), Some(16))
  const BOUGHT := Order(Some("NET_DEBIT"), Number(1.0),
                        [Some(Instrument("SPX", "BUY_OPEN", Some(1.0), Some("CALL"), EXPIRY, Some(6000.0), None))])
  const LISTED := Matched("SPX", EXPIRY, [Contract(Some(6000.0), None, Some("SPX---260116C06000000"), Some(0.9), Some(1.1))])
  const FORM := Form(2026, 1, 16, 1, 1.0)
  const LIVE := SubmitEnv(Live, true, true, true, 0.0, Thresholds(15.0, 5.0, 5.0))

  function FirstId(): string { NewId("1") }

  function PreviewedOps(): seq<Op> { [Enter("1", "acct", RequestFor(SPREADS, BOUGHT), true, Success("7"), 0.0)] }

  function EnrichedOps(): seq<Op> { PreviewedOps() + [Suggest(FirstId(), Some(LISTED), 0.0)] }

  function FilledInOps(): seq<Op> { EnrichedOps() + [PrepareForm(FirstId(), "", FORM)] }

  function ConfirmedOps(): seq<Op> { FilledInOps() + [Confirm(FirstId(), true)] }

  function PlacedOps(): seq<Op> { ConfirmedOps() + [Submit(FirstId(), LIVE)] }

  function PreviewedLog(): seq<Note> {
    [Created(FirstId()), Pending(FirstId()), Asked(FirstId(), "acct", Some(RequestFor(SPREADS, BOUGHT))), Answered(FirstId(), Some("7"))]
  }

  lemma PreviewedWorld(w: World)
    requires w == Run(PreviewedOps())
    ensures w.log == PreviewedLog() && FirstId() in w.tickets && IsPreviewed(w.tickets[FirstId()], FirstId(), SPREADS, BOUGHT, 0.0)
  {
    var req := RequestFor(SPREADS, BOUGHT);
    assert PreviewedOps() == [] + [PreviewedOps()[0]];
    RunThen([], PreviewedOps()[0], EMPTY_WORLD, EnteredByHand(EMPTY_WORLD, "1", "acct", req, true, Success("7"), 0.0));
    EnteredIsPreviewed(EMPTY_WORLD, "1", "acct", SPREADS, BOUGHT, "7", 0.0);
  }

  lemma SpreadsIsPlain()
    ensures Strip(SPREADS) != ""
  {
    assert Text.IsPlain(SPREADS);
    NormOfPlain(SPREADS);
    assert Norm("") == "";
  }

  lemma EnrichedWorld(w: World)
    requires w == Run(EnrichedOps())
    ensures CanGoLive(w, FirstId(), LIVE) && w.log == PreviewedLog() + [Enriched(FirstId())]
  {
    var before := Run(PreviewedOps());
    PreviewedWorld(before);
    SpreadsIsPlain();
    RunThen(PreviewedOps(), Suggest(FirstId(), Some(LISTED), 0.0), before, Suggested(before, FirstId(), Some(LISTED), 0.0));
    EnrichedLacksIntent(before, FirstId(), SPREADS, BOUGHT, LISTED, 0.0, LIVE);
  }

  /** The last note places an order no earlier preview asked for. */
  predicate PlacesUnasked(log: seq<Note>) {
    && log != [] && log[|log| - 1].Placed?
    && forall i | 0 <= i < |log| && log[i].Asked? :: !AsksOnlyFor(log[i].request, log[|log| - 1].place.orders)
  }

  /** Filling in the form, confirming and submitting, as a run and as a world. */
  lemma PlacedWorld(ops: seq<Op>, id: string, f: Form, env: SubmitEnv, w: World)
    requires w == Run(ops)
    ensures Run(ops + [PrepareForm(id, "", f)] + [Confirm(id, true)] + [Submit(id, env)])
              == SubmittedAs(ConfirmedAs(PreparedByForm(w, id, "", f), id, true), id, env)
  {
    var w1 := PreparedByForm(w, id, "", f);
    var w2 := ConfirmedAs(w1, id, true);
    RunThen(ops, PrepareForm(id, "", f), w, w1);
    RunThen(ops + [PrepareForm(id, "", f)], Confirm(id, true), w1, w2);
    RunThen(ops + [PrepareForm(id, "", f)] + [Confirm(id, true)], Submit(id, env), w2, SubmittedAs(w2, id, env));
  }

  lemma PlacedLog(ops: seq<Op>, id: string, f: Form, env: SubmitEnv, w: World, w': World)
    requires w == Run(ops) && CanGoLive(w, id, env)
    requires w' == SubmittedAs(ConfirmedAs(PreparedByForm(w, id, "", f), id, true), id, env)
    ensures EndsWithOrder(w.log, w'.log, FormOrder(w.tickets[id], f))
  {
    FormOrderIsPlaced(ops, id, f, env);
    var t := w.tickets[id];
    var c := WithConfirmation(Prepare(t, FormArgs(f)), true);
    assert w'.log == w.log + [Prepared(id)] + [Confirmed(id, true, c.request)] + [Placed(id, t.account, PlaceRequestOf(c).value)];
  }

  /** Three more notes, none of them a preview; the last one places order o. */
  predicate EndsWithOrder(log: seq<Note>, log': seq<Note>, o: Order) {
    && |log'| == |log| + 3 && log <= log' && log'[|log|].Prepared? && log'[|log| + 1].Confirmed?
    && log'[|log| + 2].Placed? && log'[|log| + 2].place.orders == [o]
  }

  lemma NothingAskedForIt(log: seq<Note>, log': seq<Note>, o: Order)
    requires log == PreviewedLog() + [Enriched(FirstId())] && EndsWithOrder(log, log', o) && o.priceType == Some("NET_CREDIT")
    ensures PlacesUnasked(log')
  {
    forall i | 0 <= i < |log'| && log'[i].Asked? ensures !AsksOnlyFor(log'[i].request, [o]) {
      assert log'[i] == log[i];
      assert log[i] == PreviewedLog()[2];
      assert BOUGHT != o;
    }
  }

  /** A debit order is entered, previewed and enriched; filling in the form, confirming
      and submitting places a credit order that no preview ever asked for. */
  lemma UnpreviewedOrderIsPlaced()
    ensures PlacesUnasked(Run(PlacedOps()).log)
  {
    var w := Run(EnrichedOps());
    EnrichedWorld(w);
    PlacedWorld(EnrichedOps(), FirstId(), FORM, LIVE, w);
    PlacedLog(EnrichedOps(), FirstId(), FORM, LIVE, w, Run(PlacedOps()));
    NothingAskedForIt(w.log, Run(PlacedOps()).log, FormOrder(w.tickets[FirstId()], FORM));
  }

  // ----- a lost retry -----

  function LostRetry(): RetryEnv { RetryEnv("", false, Fails(false), (2026, 1, 16), 1.0) }

  function LostOps(): seq<Op> { PreviewedOps() + [Retry(FirstId(), LostRetry())] }

  lemma LostFrom(w: World, id: string, o: Order, env: RetryEnv)
    requires id in w.tickets && IsPreviewed(w.tickets[id], id, SPREADS, o, 0.0) && env.account == "" && !env.clientLoads
    ensures var w' := Retried(w, id, env);
      id in w'.tickets && w'.tickets[id].attempts == w.tickets[id].attempts + 1 && Asks(w'.log) == Asks(w.log)
  {
    RetryMeaning(w, id, env);
  }

  /** One preview, then a retry whose client cannot be loaded: two attempts are counted
      and one preview was submitted. */
  lemma LostRetryOccurs()
    ensures var w := Run(LostOps());
      FirstId() in w.tickets && w.tickets[FirstId()].attempts == 2 && Asks(w.log) == 1
  {
    var w := Run(PreviewedOps());
    PreviewedWorld(w);
    PreviewedOnce(w);
    LostFrom(w, FirstId(), BOUGHT, LostRetry());
    RunThen(PreviewedOps(), Retry(FirstId(), LostRetry()), w, Retried(w, FirstId(), LostRetry()));
  }

  lemma PreviewedOnce(w: World)
    requires w == Run(PreviewedOps())
    ensures FirstId() in w.tickets && w.tickets[FirstId()].attempts == 1 && Asks(w.log) == 1
  {
    var req := RequestFor(SPREADS, BOUGHT);
    assert PreviewedOps() == [] + [PreviewedOps()[0]];
    RunThen([], PreviewedOps()[0], EMPTY_WORLD, EnteredByHand(EMPTY_WORLD, "1", "acct", req, true, Success("7"), 0.0));
    EnterMeaning(EMPTY_WORLD, "1", "acct", req, true, Success("7"), 0.0);
  }

  // ----- a position closed twice -----

  predicate IsUsable(env: Env) { env.clientLoads && env.account != "" }

  /** The position's entry ticket is found and has legs; ids lists its accepted alerts. */
  predicate HasEntry(w: World, sid: string, ids: seq<string>) {
    && sid in w.states && w.states[sid].processed == ids
    && EntryOf(w, w.states[sid]).Some? && EntryOf(w, w.states[sid]).value.legs != []
  }

  lemma NewIds(s: PineState, e: Event, c: Change, now: real)
    requires e.id !in s.processed && |s.processed| < 50
    ensures Applied(s, e, c, now).processed == s.processed + [e.id]
  {
    WithoutAbsent(s.processed, e.id);
  }

  lemma LegsComeBack(t: Ticket, a: Args, previewId: string, now: real)
    ensures |Finished(MarkPending(Prepare(t, a), now), Success(previewId), now).legs| == |t.legs|
  {
    EchoFields(t, a, Success(previewId).response, now, now);
  }

  lemma EntryLegs(e: Event, env: Env, previewId: string)
    ensures PreparedEntry(e, env).Some? ==>
      |Finished(MarkPending(PreparedEntry(e, env).value, env.now), Success(previewId), env.now).legs| == 4
  {
    if PreparedEntry(e, env).Some? {
      var t := MatchedEntry(e, env);
      var limit := OrReal(e.targetEntry, t.prices.suggested).value;
      LegsComeBack(t, ArgsFor(t, e.quantity, limit, "NET_CREDIT"), previewId, env.now);
    }
  }

  /** What accepting an alert that made ticket p leaves of the world. */
  lemma MadeThenAccepted(w: World, sid: string, s: PineState, e: Event, env: Env, p: Ticket, c: Change)
    requires e.id !in s.processed && |s.processed| < 50
    ensures var w' := Accept(Made(w, Some(p), env), sid, s, e, c, env.now);
      && sid in w'.states && w'.states[sid].processed == s.processed + [e.id] && w'.states[sid].entry == OrId(c.entry, s.entry)
      && w'.tickets == w.tickets[p.id := Finished(MarkPending(p, env.now), env.outcome, env.now)]
  {
    MadeTickets(w, p, env);
    NewIds(s, e, c, env.now);
  }

  predicate IsOpening(e: Event, env: Env, previewId: string) {
    && e.kind == ENTRY && HasStrikes(e.strikes) && HasValue(e.targetEntry) && IsUsable(env)
    && env.found.Some? && |env.found.value.contracts| == 4 && env.outcome == Success(previewId)
  }

  lemma EntryIsAccepted(w: World, sid: string, e: Event, env: Env, previewId: string)
    requires sid !in w.states && IsOpening(e, env, previewId)
    ensures PreparedEntry(e, env).Some? && PreparedEntry(e, env).value.id == NewId(env.number)
    ensures var (w', r), p := Process(w, sid, e, env), PreparedEntry(e, env).value;
      Creates(r) && w' == Accept(Made(w, Some(p), env), sid, NewState(e.optionRoot), e, EntryChange(p.id, true), env.now)
  {
    EntryCreatesIff(w, sid, e, env);
    ProcessShape(w, sid, e, env);
    EntryIsFresh(e, env);
  }

  /** The first ENTRY of a position leaves its ticket where a CLOSE finds it. */
  lemma FirstEntry(w: World, sid: string, e: Event, env: Env, previewId: string, w': World)
    requires sid !in w.states && IsOpening(e, env, previewId) && w' == Process(w, sid, e, env).0
    ensures HasEntry(w', sid, [e.id]) && w'.tickets.Keys == w.tickets.Keys + {NewId(env.number)}
  {
    EntryIsAccepted(w, sid, e, env, previewId);
    EntryLegs(e, env, previewId);
    var p := PreparedEntry(e, env).value;
    MadeThenAccepted(w, sid, NewState(e.optionRoot), e, env, p, EntryChange(p.id, true));
  }

  /** A CLOSE with a debit and a new id makes a close ticket, and the entry stays. */
  lemma ThenClose(w: World, sid: string, ids: seq<string>, e: Event, env: Env)
    requires HasEntry(w, sid, ids) && e.id !in ids && |ids| < 50
    requires e.kind == CLOSE && HasValue(e.targetClose) && IsUsable(env) && NewId(env.number) !in w.tickets
    ensures var (w', r) := Process(w, sid, e, env);
      Creates(r) && HasEntry(w', sid, ids + [e.id]) && w'.tickets.Keys == w.tickets.Keys + {NewId(env.number)}
  {
    CloseCreatesIff(w, sid, e, env);
    ProcessShape(w, sid, e, env);
    var eff := EffectOf(w, sid, e, env).value;
    MadeThenAccepted(w, sid, w.states[sid], e, env, eff.made.value, eff.change);
    EntryStaysFound(w, sid, e, env, e);
  }

  function At(strike: real): Contract { Contract(Some(strike), None, Some("SPX---"), Some(0.9), Some(1.1)) }

  function Given(number: string): Env {
    Env(true, "acct", number, Some(Matched("SPX", EXPIRY, [At(5900.0), At(5880.0), At(6100.0), At(6120.0)])), None,
        Success("7"), EXPIRY, 100.0, 0.0)
  }

  const ENTERED := Event("e1", ENTRY, "condor", "SPX", None, 1,
                         Strikes(Some(5900.0), Some(5880.0), Some(6100.0), Some(6120.0)), Some(1.0), None)

  function Closing(id: string): Event { Event(id, CLOSE, "condor", "SPX", None, 1, NO_STRIKES, None, Some(0.5)) }

  function EntryOps(): seq<Op> { [Alert("p", ENTERED, Given("1"))] }

  function ClosedOps(): seq<Op> { EntryOps() + [Alert("p", Closing("e2"), Given("2"))] }

  function ClosedTwiceOps(): seq<Op> { ClosedOps() + [Alert("p", Closing("e3"), Given("3"))] }

  lemma NewIdsDiffer(a: string, b: string)
    requires a != b
    ensures NewId(a) != NewId(b)
  {
    assert NewId(a)[3..] == a && NewId(b)[3..] == b;
  }

  lemma EntryWorld(w: World)
    requires w == Run(EntryOps())
    ensures HasEntry(w, "p", ["e1"]) && w.tickets.Keys == {NewId("1")}
  {
    assert EntryOps() == [] + [EntryOps()[0]];
    RunThen([], EntryOps()[0], EMPTY_WORLD, Process(EMPTY_WORLD, "p", ENTERED, Given("1")).0);
    FirstEntry(EMPTY_WORLD, "p", ENTERED, Given("1"), "7", w);
  }

  predicate IsClosing(e: Event, env: Env) { e.kind == CLOSE && HasValue(e.targetClose) && IsUsable(env) }

  lemma CloseTwice(w: World, sid: string, ids: seq<string>, e: Event, env: Env, e': Event, env': Env)
    requires HasEntry(w, sid, ids) && |ids| < 49 && e.id !in ids && e'.id !in ids + [e.id]
    requires IsClosing(e, env) && IsClosing(e', env')
    requires NewId(env.number) !in w.tickets && NewId(env'.number) !in w.tickets.Keys + {NewId(env.number)}
    ensures var (w', r) := Process(w, sid, e, env);
      var (w'', r') := Process(w', sid, e', env');
      Creates(r) && Creates(r') && w''.tickets.Keys == w.tickets.Keys + {NewId(env.number)} + {NewId(env'.number)}
  {
    ThenClose(w, sid, ids, e, env);
    ThenClose(Process(w, sid, e, env).0, sid, ids + [e.id], e', env');
  }

  lemma TwoAlerts(ops: seq<Op>, sid: string, e: Event, env: Env, e': Event, env': Env, w: World)
    requires w == Run(ops)
    ensures Run(ops + [Alert(sid, e, env)] + [Alert(sid, e', env')]) == Process(Process(w, sid, e, env).0, sid, e', env').0
  {
    var w1 := Process(w, sid, e, env).0;
    RunThen(ops, Alert(sid, e, env), w, w1);
    RunThen(ops + [Alert(sid, e, env)], Alert(sid, e', env'), w1, Process(w1, sid, e', env').0);
  }

  lemma RunClosedTwice(ops: seq<Op>, sid: string, ids: seq<string>, e: Event, env: Env, e': Event, env': Env)
    requires HasEntry(Run(ops), sid, ids) && |ids| < 49 && e.id !in ids && e'.id !in ids + [e.id]
    requires IsClosing(e, env) && IsClosing(e', env') && NewId(env.number) != NewId(env'.number)
    requires NewId(env.number) !in Run(ops).tickets && NewId(env'.number) !in Run(ops).tickets
    ensures Run(ops + [Alert(sid, e, env)] + [Alert(sid, e', env')]).tickets.Keys ==
      Run(ops).tickets.Keys + {NewId(env.number)} + {NewId(env'.number)}
  {
    var w := Run(ops);
    CloseTwice(w, sid, ids, e, env, e', env');
    TwoAlerts(ops, sid, e, env, e', env', w);
  }

  lemma ClosingsFit(w: World)
    requires w.tickets.Keys == {NewId("1")}
    ensures Closing("e2").id !in ["e1"] && Closing("e3").id !in ["e1"] + [Closing("e2").id]
    ensures IsClosing(Closing("e2"), Given("2")) && IsClosing(Closing("e3"), Given("3"))
    ensures NewId(Given("2").number) != NewId(Given("3").number)
    ensures NewId(Given("2").number) !in w.tickets && NewId(Given("3").number) !in w.tickets
  {
    NewIdsDiffer("1", "2");
    NewIdsDiffer("1", "3");
    NewIdsDiffer("2", "3");
  }

  function ClosedTwiceIds(): set<string> { {NewId("1")} + {NewId(Given("2").number)} + {NewId(Given("3").number)} }

  lemma ThreeIds()
    ensures ClosedTwiceIds() == {"tt-1", "tt-2", "tt-3"}
  {
    assert NewId("1") == "tt-1" && NewId("2") == "tt-2" && NewId("3") == "tt-3";
  }

  /** One position is entered and closed, and a second CLOSE makes a second close ticket. */
  lemma ClosedTwice()
    ensures Run(ClosedTwiceOps()).tickets.Keys == {"tt-1", "tt-2", "tt-3"}
  {
    var w := Run(EntryOps());
    EntryWorld(w);
    ClosingsFit(w);
    RunClosedTwice(EntryOps(), "p", ["e1"], Closing("e2"), Given("2"), Closing("e3"), Given("3"));
    ThreeIds();
  }
}
