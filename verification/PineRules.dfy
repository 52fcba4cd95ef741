/** What one alert does: when it creates a ticket, what it leaves alone, and what it
    keeps true of the state of its position. */
module PineRules {
  import opened Basics
  import opened Text
  import opened Tickets
  import opened TicketSteps
  import opened Rebuilding
  import opened Quotes
  import opened PineModels
  import opened Stores
  import opened Previews
  import opened PineBridge

  // ----- the shape of an alert's effect -----

  /** The ticket an accepted alert makes, if any, and the change of its state. */
  datatype Effect = Effect(made: Option<Ticket>, change: Change)

  function EntryEffect(s: PineState, e: Event, env: Env): Option<Effect> {
    if s.active then Some(Effect(None, Change(s.status, true, s.entry, None, false, false)))
    else if PreparedEntry(e, env) == None then None
    else Some(Effect(PreparedEntry(e, env), EntryChange(NewId(env.number), env.outcome.Answers?)))
  }

  function ManageEffect(s: PineState): Option<Effect> {
    Some(Effect(None, if s.active then Change(Open, true, None, None, false, true)
                      else Change(s.status, false, None, None, false, true)))
  }

  function CloseEffect(s: PineState, entry: Ticket, e: Event, env: Env): Option<Effect> {
    var limit := CloseLimit(entry, e, env);
    if limit == None then Some(Effect(None, Change(Error, false, None, None, false, true)))
    else if entry.legs == [] then None
    else Some(Effect(Some(PreparedClose(entry, e, env, limit.value, OrInt(Some(e.quantity), s.quantity))),
                     CloseChange(NewId(env.number), env.outcome.Answers?)))
  }

  /** Exactly when an alert reaches the stores at all. */
  predicate Reaches(w: World, sid: string, e: Event, env: Env) {
    e.id !in StateOf(w, sid, e).processed && env.clientLoads && env.account != ""
  }

  /** The effect of an alert, None when it is a repeat or raises. */
  function EffectOf(w: World, sid: string, e: Event, env: Env): Option<Effect> {
    var s := StateOf(w, sid, e);
    if !Reaches(w, sid, e, env) then None
    else if e.kind == ENTRY then EntryEffect(s, e, env)
    else if EntryOf(w, s) == None then None
    else if e.kind == MANAGE then ManageEffect(s)
    else CloseEffect(s, EntryOf(w, s).value, e, env)
  }

  function Made(w: World, made: Option<Ticket>, env: Env): World {
    if made == None then w else Previewing(NewlyPrepared(w, made.value), made.value, env.outcome, env.now)
  }

  predicate Creates(r: Reply) { r in {EntryOpened, EntryFailed, ClosedOut, CloseFailed} }

  predicate IsFreshTicket(t: Ticket, env: Env) {
    && t.id == NewId(env.number) && t.intent.ready && !t.intent.confirmed && t.snapshot.Some?
    && t.previewId == None && t.attempts == 0 && t.request.Some?
  }

  lemma EntryIsFresh(e: Event, env: Env)
    ensures PreparedEntry(e, env).Some? ==> IsFreshTicket(PreparedEntry(e, env).value, env)
  {
  }

  lemma CloseIsFresh(entry: Ticket, e: Event, env: Env, limit: real, quantity: int)
    requires entry.legs != []
    ensures IsFreshTicket(PreparedClose(entry, e, env, limit, quantity), env)
  {
  }

  /** What an effect makes of the world and which replies go with it. */
  ghost predicate Explains(w: World, sid: string, s: PineState, e: Event, env: Env, eff: Option<Effect>, out: (World, Reply)) {
    if eff == None then out.0 == w && out.1 in {Raised, Duplicate}
    else
      && out.1 !in {Raised, Duplicate} && (eff.value.made.Some? <==> Creates(out.1))
      && (eff.value.made.Some? ==> IsFreshTicket(eff.value.made.value, env))
      && out.0 == Accept(Made(w, eff.value.made, env), sid, s, e, eff.value.change, env.now)
  }

  lemma EntryShape(w: World, sid: string, s: PineState, e: Event, env: Env)
    ensures Explains(w, sid, s, e, env, EntryEffect(s, e, env), OnEntry(w, sid, s, e, env))
  {
    EntryIsFresh(e, env);
  }

  lemma ManageShape(w: World, sid: string, s: PineState, e: Event, env: Env)
    ensures Explains(w, sid, s, e, env, ManageEffect(s), OnManage(w, sid, s, e, env))
  {
  }

  lemma CloseShape(w: World, sid: string, s: PineState, entry: Ticket, e: Event, env: Env)
    ensures Explains(w, sid, s, e, env, CloseEffect(s, entry, e, env), OnClose(w, sid, s, entry, e, env))
  {
    if entry.legs != [] && CloseLimit(entry, e, env).Some? {
      CloseIsFresh(entry, e, env, CloseLimit(entry, e, env).value, OrInt(Some(e.quantity), s.quantity));
    }
  }

  ghost predicate IsExplained(w: World, sid: string, e: Event, env: Env) {
    Explains(w, sid, StateOf(w, sid, e), e, env, EffectOf(w, sid, e, env), Process(w, sid, e, env))
  }

  lemma RefusedShape(w: World, sid: string, e: Event, env: Env)
    requires !Reaches(w, sid, e, env)
    ensures IsExplained(w, sid, e, env)
  {
  }

  lemma ProcessEntryShape(w: World, sid: string, e: Event, env: Env)
    requires Reaches(w, sid, e, env) && e.kind == ENTRY
    ensures IsExplained(w, sid, e, env)
  {
    EntryShape(w, sid, StateOf(w, sid, e), e, env);
  }

  lemma ProcessManageShape(w: World, sid: string, e: Event, env: Env)
    requires Reaches(w, sid, e, env) && e.kind == MANAGE
    ensures IsExplained(w, sid, e, env)
  {
    ManageShape(w, sid, StateOf(w, sid, e), e, env);
  }

  lemma ProcessCloseShape(w: World, sid: string, e: Event, env: Env)
    requires Reaches(w, sid, e, env) && e.kind == CLOSE
    ensures IsExplained(w, sid, e, env)
  {
    var s := StateOf(w, sid, e);
    if EntryOf(w, s).Some? {
      CloseShape(w, sid, s, EntryOf(w, s).value, e, env);
    }
  }

  /** Every alert either changes nothing, or makes at most one ticket and then updates
      the one state it is about. */
  lemma ProcessShape(w: World, sid: string, e: Event, env: Env)
    ensures IsExplained(w, sid, e, env)
  {
    if !Reaches(w, sid, e, env) {
      RefusedShape(w, sid, e, env);
    } else if e.kind == ENTRY {
      ProcessEntryShape(w, sid, e, env);
    } else if e.kind == MANAGE {
      ProcessManageShape(w, sid, e, env);
    } else {
      ProcessCloseShape(w, sid, e, env);
    }
  }

  lemma DuplicateIff(w: World, sid: string, e: Event, env: Env)
    ensures Process(w, sid, e, env).1 == Duplicate <==> e.id in StateOf(w, sid, e).processed
  {
    ProcessShape(w, sid, e, env);
  }

  // ----- tickets are conserved -----

  function Asks(log: seq<Note>): nat {
    if log == [] then 0 else Asks(log[..|log| - 1]) + if log[|log| - 1].Asked? then 1 else 0
  }

  lemma AsksNoted(log: seq<Note>, n: Note)
    ensures Asks(log + [n]) == Asks(log) + if n.Asked? then 1 else 0
  {
    assert (log + [n])[..|log|] == log;
  }

  lemma NewlyPreparedAsks(w: World, t: Ticket)
    ensures var w' := NewlyPrepared(w, t);
      w'.tickets == w.tickets[t.id := t] && w'.states == w.states && Asks(w'.log) == Asks(w.log)
  {
    AsksNoted(w.log, Created(t.id));
    AsksNoted(w.log + [Created(t.id)], Enriched(t.id));
    AsksNoted(w.log + [Created(t.id)] + [Enriched(t.id)], Prepared(t.id));
  }

  lemma PreviewingAsks(w: World, t: Ticket, out: Outcome, now: real)
    ensures var w' := Previewing(w, t, out, now);
      && w'.tickets == w.tickets[t.id := Finished(MarkPending(t, now), out, now)]
      && w'.states == w.states && Asks(w'.log) == Asks(w.log) + 1
  {
    var final := Finished(MarkPending(t, now), out, now);
    FinishedCounts(t, out, now);
    AsksNoted(w.log, Pending(t.id));
    AsksNoted(w.log + [Pending(t.id)], Asked(t.id, t.account, t.request));
    AsksNoted(w.log + [Pending(t.id)] + [Asked(t.id, t.account, t.request)], Answered(t.id, final.previewId));
  }

  lemma FinishedCounts(t: Ticket, out: Outcome, now: real)
    ensures var final := Finished(MarkPending(t, now), out, now);
      final.id == t.id && final.attempts == t.attempts + 1
  {
  }

  lemma MadeTickets(w: World, t: Ticket, env: Env)
    ensures var w' := Made(w, Some(t), env);
      && w'.tickets == w.tickets[t.id := Finished(MarkPending(t, env.now), env.outcome, env.now)]
      && w'.states == w.states && Asks(w'.log) == Asks(w.log) + 1
  {
    var prepared, final := NewlyPrepared(w, t), Finished(MarkPending(t, env.now), env.outcome, env.now);
    NewlyPreparedAsks(w, t);
    PreviewingAsks(prepared, t, env.outcome, env.now);
    assert w.tickets[t.id := t][t.id := final] == w.tickets[t.id := final];
    assert Made(w, Some(t), env) == Previewing(prepared, t, env.outcome, env.now);
  }

  /** What an effect does to the stores. */
  ghost predicate Conserves(w: World, sid: string, env: Env, out: (World, Reply)) {
    && (out.1 in {Raised, Duplicate} <==> out.0 == w)
    && (if Creates(out.1) then
          && (exists t: Ticket :: t.id == NewId(env.number) && t.attempts == 1 && out.0.tickets == w.tickets[t.id := t])
          && Asks(out.0.log) == Asks(w.log) + 1
        else out.0.tickets == w.tickets && Asks(out.0.log) == Asks(w.log))
    && (forall i | i != sid :: (i in out.0.states <==> i in w.states) && (i in w.states ==> out.0.states[i] == w.states[i]))
  }

  lemma EffectConserves(w: World, sid: string, s: PineState, e: Event, env: Env, eff: Option<Effect>, out: (World, Reply))
    requires Explains(w, sid, s, e, env, eff, out)
    ensures Conserves(w, sid, env, out)
  {
    if eff.Some? {
      var mid := Made(w, eff.value.made, env);
      AsksNoted(mid.log, Accepted(sid, e.id));
      MadeGrows(w, eff.value.made, env);
      assert |out.0.log| > |w.log|;
      if eff.value.made.Some? {
        var t := eff.value.made.value;
        MadeTickets(w, t, env);
        FinishedCounts(t, env.outcome, env.now);
      }
    }
  }

  /** An alert that opens, closes or fails to preview makes exactly one ticket and asks
      the broker exactly once; every other alert makes none and asks for nothing. An
      alert that raises, or repeats one in the window, leaves both stores as they
      were. Only the alert's own state changes. */
  lemma AlertConservesTickets(w: World, sid: string, e: Event, env: Env)
    ensures Conserves(w, sid, env, Process(w, sid, e, env))
  {
    ProcessShape(w, sid, e, env);
    EffectConserves(w, sid, StateOf(w, sid, e), e, env, EffectOf(w, sid, e, env), Process(w, sid, e, env));
  }

  lemma MadeGrows(w: World, made: Option<Ticket>, env: Env)
    ensures w.log <= Made(w, made, env).log && Made(w, made, env).states == w.states
  {
  }

  predicate HasValue(x: Option<real>) { x.Some? && x.value != 0.0 }

  /** A CLOSE creates a close ticket exactly when the entry ticket is found, has legs
      and a debit is given or quoted. Whether the position is open is not asked. */
  lemma CloseCreatesIff(w: World, sid: string, e: Event, env: Env)
    requires e.kind == CLOSE
    ensures var entry := EntryOf(w, StateOf(w, sid, e));
      Creates(Process(w, sid, e, env).1) <==>
        && Reaches(w, sid, e, env) && entry.Some? && entry.value.legs != []
        && (HasValue(e.targetClose) || LiveMark(entry.value, env.live, e.targetEntry, env.pointValue).Some?)
  {
  }

  predicate HasStrikes(s: Strikes) { s.shortPut.Some? && s.longPut.Some? && s.shortCall.Some? && s.longCall.Some? }

  predicate HasQuotes(e: Event, env: Env)
    requires env.found.Some?
  {
    forall c | c in env.found.value.contracts :: c.bid.Some? && c.ask.Some?
  }

  /** An ENTRY creates an entry ticket exactly when the position is not open, all
      strikes are given and found, and a credit is given or every leg is quoted. */
  lemma EntryCreatesIff(w: World, sid: string, e: Event, env: Env)
    requires e.kind == ENTRY
    ensures Creates(Process(w, sid, e, env).1) <==>
      && Reaches(w, sid, e, env) && !StateOf(w, sid, e).active && HasStrikes(e.strikes)
      && env.found.Some? && |env.found.value.contracts| == 4 && (HasValue(e.targetEntry) || HasQuotes(e, env))
  {
    if env.found.Some? && |env.found.value.contracts| == 4 {
      var found := env.found.value.contracts;
      var t := EntryTicket(e, env);
      QuotesMeaning(t.legs, found, 4);
      assert HasQuotes(e, env) <==> forall i | 0 <= i < 4 :: found[i].bid.Some? && found[i].ask.Some?;
    }
  }

  // ----- the state of a position -----

  /** Open and active are the same; an open position has an entry ticket and an opening
      time, no close ticket and no closing time; a closed one has both of the latter. */
  ghost predicate StateOk(s: PineState) {
    && (s.active <==> s.status == Open) && s.status != Idle
    && s.entry.Some? && s.entry.value != ""
    && (s.active ==> s.openedAt.Some? && s.close == None && s.closedAt == None)
    && (s.status == Closed ==> s.close.Some? && s.close.value != "" && s.closedAt.Some?)
  }

  lemma EntryKeepsState(s: PineState, e: Event, env: Env)
    requires (StateOk(s) || !s.active) && e.kind == ENTRY
    ensures EntryEffect(s, e, env).Some? ==> StateOk(Applied(s, e, EntryEffect(s, e, env).value.change, env.now))
  {
  }

  lemma ManageKeepsState(s: PineState, e: Event, now: real)
    requires StateOk(s) && e.kind == MANAGE
    ensures StateOk(Applied(s, e, ManageEffect(s).value.change, now))
  {
  }

  lemma CloseKeepsState(s: PineState, entry: Ticket, e: Event, env: Env)
    requires StateOk(s) && e.kind == CLOSE
    ensures CloseEffect(s, entry, e, env).Some? ==> StateOk(Applied(s, e, CloseEffect(s, entry, e, env).value.change, env.now))
  {
  }

  /** An accepted alert leaves its state in order. */
  lemma AlertKeepsState(w: World, sid: string, e: Event, env: Env)
    requires sid in w.states ==> StateOk(w.states[sid])
    ensures EffectOf(w, sid, e, env).Some? ==>
      StateOk(Applied(StateOf(w, sid, e), e, EffectOf(w, sid, e, env).value.change, env.now))
  {
    var s := StateOf(w, sid, e);
    if EffectOf(w, sid, e, env).Some? {
      if e.kind == ENTRY {
        EntryKeepsState(s, e, env);
      } else if e.kind == MANAGE {
        ManageKeepsState(s, e, env.now);
      } else {
        CloseKeepsState(s, EntryOf(w, s).value, e, env);
      }
    }
  }

  // ----- the window of processed alerts -----

  function EventIds(s: PineState): (r: seq<string>)
    ensures |r| == |s.events|
  {
    seq(|s.events|, i requires 0 <= i < |s.events| => s.events[i].id)
  }

  ghost predicate IsDistinct(s: seq<string>) { forall i, j | 0 <= i < j < |s| :: s[i] != s[j] }

  /** The state remembers the last 50 accepted alerts, each once, and logs the last 20. */
  ghost predicate Remembers(s: PineState, accepted: seq<string>) {
    && s.processed == LastN(accepted, 50) && IsDistinct(s.processed)
    && EventIds(s) == LastN(accepted, 20)
  }

  lemma NewEventId(s: PineState, e: Event, c: Change, now: real)
    ensures EventIds(Applied(s, e, c, now)) == LastN(EventIds(s), 19) + [e.id]
  {
  }

  lemma AppliedRemembers(s: PineState, accepted: seq<string>, e: Event, c: Change, now: real)
    requires Remembers(s, accepted) && e.id !in s.processed
    ensures Remembers(Applied(s, e, c, now), accepted + [e.id])
  {
    WithoutAbsent(s.processed, e.id);
    LastNAppend(accepted, e.id, 50, 50);
    NewEventId(s, e, c, now);
    LastNAppend(accepted, e.id, 20, 20);
    LastNAppend(LastN(accepted, 20), e.id, 20, 19);
    assert IsDistinct(s.processed + [e.id]);
  }

  // ----- closing -----

  lemma MarkedStrategy(s: string)
    ensures Lower(Strip(s + ":close")) != "condor"
  {
    var t := s + ":close";
    StripKeepsLast(t);
    var u := Strip(t);
    assert Lower(u)[|u| - 1] == 'e';
  }

  /** The close ticket resolves to the entry ticket's order type, unless the entry has
      no order type, its legs do not decide one, and its strategy name alone makes it a
      condor: the close ticket carries another strategy name. */
  lemma CloseKeepsOrderTypeIff(entry: Ticket, e: Event, env: Env)
    ensures ResolveOrderType(CloseTicket(entry, e, env)) == ResolveOrderType(entry) <==>
      || entry.orderType != "" || Geometry(Corners(entry.legs)).Some?
      || Lower(Strip(OrText(entry.strategy, ""))) != "condor" || |entry.legs| != 4
  {
    ReversalKeepsCorners(entry.legs);
    MarkedStrategy(e.strategy);
    assert OrText(Some(e.strategy + ":close"), "") == e.strategy + ":close";
  }

  lemma EntryStaysFound(w: World, sid: string, e: Event, env: Env, e': Event)
    requires e.kind == CLOSE && EffectOf(w, sid, e, env).Some? && EffectOf(w, sid, e, env).value.made.Some?
    requires NewId(env.number) !in w.tickets
    ensures var w' := Process(w, sid, e, env).0;
      EntryOf(w', StateOf(w', sid, e')) == EntryOf(w, StateOf(w, sid, e))
  {
    ProcessShape(w, sid, e, env);
    MadeTickets(w, EffectOf(w, sid, e, env).value.made.value, env);
    assert StateOf(Process(w, sid, e, env).0, sid, e').entry == StateOf(w, sid, e).entry;
  }

  /** A position that was closed can be closed again by any other alert that gives a
      debit, with a second close ticket: only the entry ticket is looked up. */
  lemma ClosedCanCloseAgain(w: World, sid: string, e: Event, env: Env, e': Event, env': Env)
    requires e.kind == CLOSE && e'.kind == CLOSE && HasValue(e'.targetClose) && NewId(env.number) !in w.tickets
    ensures var (w', r) := Process(w, sid, e, env);
      Creates(r) && Reaches(w', sid, e', env') ==> Creates(Process(w', sid, e', env').1)
  {
    ProcessShape(w, sid, e, env);
    var (w', r) := Process(w, sid, e, env);
    if Creates(r) {
      CloseCreatesIff(w, sid, e, env);
      EntryStaysFound(w, sid, e, env, e');
      CloseCreatesIff(w', sid, e', env');
    }
  }

  // ----- retrying an entry -----

  lemma MatchedSidesAreSet(t: Ticket, f: Matched, now: real)
    requires |f.contracts| == |t.legs|
    ensures HasAllSides(ApplyMatches(t, f.symbol, f.expiry, f.contracts, now).legs)
  {
  }

  /** The matched entry ticket that is prepared, and what it is prepared with. */
  function MatchedEntry(e: Event, env: Env): Ticket
    requires PreparedEntry(e, env).Some?
  {
    var f := env.found.value;
    ApplyMatches(EntryTicket(e, env), f.symbol, f.expiry, f.contracts, env.now)
  }

  lemma EntryIsSettled(e: Event, env: Env)
    requires PreparedEntry(e, env).Some?
    ensures IsSettled(MatchedEntry(e, env)) && IsComplex(MatchedEntry(e, env).orderType)
  {
    var f := env.found.value;
    MatchedSidesAreSet(EntryTicket(e, env), f, env.now);
    SidesSettle(MatchedEntry(e, env));
    KnownNames(CONDOR);
  }

  /** Retrying an entry whose preview failed asks for the very order that failed exactly
      when its quantity is not zero, the date matched is complete and its limit stays,
      as every limit that does not snap to 0 does. */
  lemma FailedEntryRetriesTheSame(e: Event, env: Env, sent: real, failed: real, busy: bool, today: (int, int, int))
    requires IsDate(today)
    ensures PreparedEntry(e, env).Some? ==>
      var p := PreparedEntry(e, env).value;
      && (Rebuild(MarkFailed(MarkPending(p, sent), failed, busy), today).request == p.request <==>
            e.quantity != 0 && IsFullDate(env.found.value.expiry) && LimitStays(p))
      && (p.prices.limit != Some(0.0) ==> LimitStays(p))
  {
    if PreparedEntry(e, env).Some? {
      var t := MatchedEntry(e, env);
      var limit := OrReal(e.targetEntry, t.prices.suggested).value;
      var a := ArgsFor(t, e.quantity, limit, "NET_CREDIT");
      EntryIsSettled(e, env);
      RebuildPreparedIff(t, a, today);
      MarksDoNotMatter(Prepare(t, a), sent, failed, busy, today);
      if Prepare(t, a).prices.limit != Some(0.0) {
        ComplexLimitStays(t, a);
      }
    }
  }

  lemma MarksDoNotMatter(p: Ticket, sent: real, failed: real, busy: bool, today: (int, int, int))
    ensures Rebuild(MarkFailed(MarkPending(p, sent), failed, busy), today).request == Rebuild(p, today).request
  {
  }
}
