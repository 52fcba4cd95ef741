/** Processing of Pine alerts: each alert updates the state of its position and may
    create an entry or a close ticket and preview it. */
module PineBridge {
  import opened Basics
  import opened Text
  import opened Tickets
  import opened TicketSteps
  import opened Quotes
  import opened PineModels
  import opened Stores
  import opened Previews

  // ----- what an alert meets -----

  datatype Matched = Matched(symbol: string, expiry: Expiry, contracts: seq<Contract>)

  /** The surroundings of one alert: whether the client loads, the account, the new
      ticket's number, the contracts found for the entry and for the live mark, the
      preview's outcome, the next trading day, and the time. */
  datatype Env = Env(clientLoads: bool, account: string, number: string, found: Option<Matched>,
                     live: Option<seq<Contract>>, outcome: Outcome, nextDay: Expiry, pointValue: real, now: real)

  function NewId(number: string): (r: string)
    ensures r != ""
  {
    "tt-" + number
  }

  // ----- tickets of an alert -----

  predicate IsAlnum(c: char) { '0' <= c <= '9' || 'A' <= c <= 'Z' || 'a' <= c <= 'z' }

  function Alnum(s: string): string {
    if s == "" then "" else (if IsAlnum(s[0]) then [s[0]] else "") + Alnum(s[1..])
  }

  /** A client order id: letters and digits only, at most 20 of them. */
  function CompactId(prefix: string, id: string): string {
    var c := Alnum(prefix + id);
    var d := if c == "" then prefix else c;
    if |d| <= 20 then d else d[..20]
  }

  /** What the broker takes as a client order id. */
  predicate IsClientId(s: string) {
    0 < |s| <= 20 && forall i | 0 <= i < |s| :: '0' <= s[i] <= '9' || 'A' <= s[i] <= 'Z' || 'a' <= s[i] <= 'z'
  }

  lemma {:induction false} AlnumMeaning(s: string)
    ensures forall c | c in Alnum(s) :: IsAlnum(c) && c in s
    ensures (forall i | 0 <= i < |s| :: IsAlnum(s[i])) ==> Alnum(s) == s
  {
    if s != "" {
      AlnumMeaning(s[1..]);
      assert s == [s[0]] + s[1..];
    }
  }

  lemma AlnumOf(c: char, s: string)
    ensures Alnum([c] + s) == (if IsAlnum(c) then [c] else "") + Alnum(s)
  {
    assert ([c] + s)[1..] == s;
  }

  lemma {:induction false} AlnumParts(s: string, t: string)
    ensures Alnum(s + t) == Alnum(s) + Alnum(t)
  {
    if s == "" {
      assert s + t == t;
    } else {
      var c, rest := s[0], s[1..];
      AlnumParts(rest, t);
      AlnumOf(c, rest);
      AlnumOf(c, rest + t);
      assert s == [c] + rest && s + t == [c] + (rest + t);
    }
  }

  /** The client order id of an alert: the prefix and as much of the alert's letters and
      digits as fits. */
  predicate IsTagged(prefix: string, id: string, s: string) {
    IsClientId(s) && prefix <= s && (IsClientId(prefix + id) ==> s == prefix + id)
  }

  lemma CutIsClientId(d: string)
    requires d != "" && forall i | 0 <= i < |d| :: IsAlnum(d[i])
    ensures IsClientId(if |d| <= 20 then d else d[..20])
  {
  }

  lemma CompactIsTagged(prefix: string, id: string)
    requires IsClientId(prefix)
    ensures IsTagged(prefix, id, CompactId(prefix, id))
  {
    var c := Alnum(prefix + id);
    AlnumMeaning(prefix);
    AlnumMeaning(prefix + id);
    AlnumParts(prefix, id);
    assert c == prefix + Alnum(id);
    assert forall i | 0 <= i < |c| :: c[i] in c;
    CutIsClientId(c);
  }

  function BrokerSymbol(underlier: string): string {
    var u := Norm(underlier);
    if u == "SPXW" then "SPX" else u
  }

  function SignalLeg(symbol: string, action: string, key: string, strike: Option<real>, expiry: Expiry): Leg {
    Leg(symbol, action, 1.0, None, expiry, strike, None, key, None)
  }

  function SignalLegs(symbol: string, s: Strikes, expiry: Expiry): (r: seq<Leg>)
    ensures |r| == 4
  {
    [SignalLeg(symbol, "SELL_OPEN", "short_put", s.shortPut, expiry),
     SignalLeg(symbol, "BUY_OPEN", "long_put", s.longPut, expiry),
     SignalLeg(symbol, "SELL_OPEN", "short_call", s.shortCall, expiry),
     SignalLeg(symbol, "BUY_OPEN", "long_call", s.longCall, expiry)]
  }

  function EntryTicket(e: Event, env: Env): (t: Ticket)
    ensures |t.legs| == 4
  {
    Ticket(NewId(env.number), Draft, Signal, Some(e.strategy), e.underlier, env.account, None, CONDOR,
           Some(CompactId("pine", e.id)), Prices("NET_CREDIT", e.targetEntry, None, None), NO_INTENT,
           SignalLegs(BrokerSymbol(e.underlier), e.strikes, env.nextDay),
           0, env.now, None, None, None, None, None)
  }

  function CloseTicket(entry: Ticket, e: Event, env: Env): Ticket {
    Ticket(NewId(env.number), Draft, Signal, Some(e.strategy + ":close"), entry.underlier, entry.account, None,
           entry.orderType, Some(CompactId("close", e.id)), Prices("NET_DEBIT", None, None, None), NO_INTENT,
           ReverseLegs(entry.legs), 0, env.now, None, None, Some(env.now), None, None)
  }

  /** Date parts that are missing are sent as 0. */
  function SentExpiry(e: Expiry): Expiry {
    Expiry(Some(OrInt(e.year, 0)), Some(OrInt(e.month, 0)), Some(OrInt(e.day, 0)))
  }

  function ArgsFor(t: Ticket, quantity: int, limit: real, priceType: string): Args
    requires t.legs != []
  {
    Args(SentExpiry(t.legs[0].expiry), quantity, limit, t.clientOrderId, priceType)
  }

  // ----- the live mark -----

  predicate CanMark(t: Ticket) {
    && t.legs != [] && OrInt(t.legs[0].expiry.year, 0) != 0
    && OrInt(t.legs[0].expiry.month, 0) != 0 && OrInt(t.legs[0].expiry.day, 0) != 0
  }

  /** The mark of a ticket, None when refreshing it raises. */
  function LiveMark(t: Ticket, live: Option<seq<Contract>>, fallback: Option<real>, pointValue: real): Option<Mark> {
    if !CanMark(t) || live == None || |live.value| != |t.legs| then None
    else
      var qs := QuotesOf(t.legs, live.value, |t.legs|);
      if qs == None then None else Some(MarkFor(qs.value, ChosenQuantity(t), EntryCredit(t, fallback), pointValue))
  }

  method RefreshLiveMark(t: Ticket, live: Option<seq<Contract>>, fallback: Option<real>, pointValue: real) returns (m: Option<Mark>)
    ensures m == LiveMark(t, live, fallback, pointValue)
  {
    if !CanMark(t) || live == None || |live.value| != |t.legs| {
      return None;
    }
    m := DeriveLiveMark(t, live.value, fallback, pointValue);
  }

  function CloseLimit(entry: Ticket, e: Event, env: Env): Option<real> {
    var mark := LiveMark(entry, env.live, e.targetEntry, env.pointValue);
    OrReal(e.targetClose, if mark.Some? then Some(mark.value.closeMid) else None)
  }

  // ----- processing -----

  datatype Reply = Raised | Duplicate | IgnoredEntry | EntryOpened | EntryFailed
                 | Managed | IgnoredManage | NoDebit | ClosedOut | CloseFailed

  function StateOf(w: World, sid: string, e: Event): PineState {
    if sid in w.states then w.states[sid] else NewState(e.optionRoot)
  }

  /** The state after an accepted alert is saved, and the acceptance noted. */
  function Accept(w: World, sid: string, s: PineState, e: Event, c: Change, now: real): World {
    Noted(StateSaved(w, sid, Applied(s, e, c, now)), Accepted(sid, e.id))
  }

  /** The prepared entry ticket, None when the alert raises before saving anything. */
  function PreparedEntry(e: Event, env: Env): Option<Ticket> {
    var s := e.strikes;
    if s.shortPut == None || s.longPut == None || s.shortCall == None || s.longCall == None then None
    else if env.found == None || |env.found.value.contracts| != 4 then None
    else
      var f := env.found.value;
      var t := ApplyMatches(EntryTicket(e, env), f.symbol, f.expiry, f.contracts, env.now);
      var limit := OrReal(e.targetEntry, t.prices.suggested);
      if limit == None then None else Some(Prepare(t, ArgsFor(t, e.quantity, limit.value, "NET_CREDIT")))
  }

  function PreparedClose(entry: Ticket, e: Event, env: Env, limit: real, quantity: int): Ticket
    requires entry.legs != []
  {
    var t := CloseTicket(entry, e, env);
    Prepare(t, ArgsFor(t, quantity, limit, "NET_DEBIT"))
  }

  function NewlyPrepared(w: World, t: Ticket): World {
    Noted(Noted(Noted(Saved(w, t), Created(t.id)), Enriched(t.id)), Prepared(t.id))
  }

  function EntryChange(id: string, ok: bool): Change {
    if ok then Change(Open, true, Some(id), None, true, true) else Change(Error, false, Some(id), None, true, true)
  }

  function CloseChange(id: string, ok: bool): Change {
    Change(if ok then Closed else Error, false, None, Some(id), false, true)
  }

  function OnEntry(w: World, sid: string, s: PineState, e: Event, env: Env): (World, Reply) {
    if s.active then
      (Accept(w, sid, s, e, Change(s.status, true, s.entry, None, false, false), env.now), IgnoredEntry)
    else
      var p := PreparedEntry(e, env);
      if p == None then (w, Raised)
      else
        var ok := env.outcome.Answers?;
        var w' := Previewing(NewlyPrepared(w, p.value), p.value, env.outcome, env.now);
        (Accept(w', sid, s, e, EntryChange(p.value.id, ok), env.now), if ok then EntryOpened else EntryFailed)
  }

  function OnManage(w: World, sid: string, s: PineState, e: Event, env: Env): (World, Reply) {
    if s.active then (Accept(w, sid, s, e, Change(Open, true, None, None, false, true), env.now), Managed)
    else (Accept(w, sid, s, e, Change(s.status, false, None, None, false, true), env.now), IgnoredManage)
  }

  function OnClose(w: World, sid: string, s: PineState, entry: Ticket, e: Event, env: Env): (World, Reply) {
    var limit := CloseLimit(entry, e, env);
    if limit == None then
      (Accept(w, sid, s, e, Change(Error, false, None, None, false, true), env.now), NoDebit)
    else if entry.legs == [] then (w, Raised)
    else
      var ok := env.outcome.Answers?;
      var p := PreparedClose(entry, e, env, limit.value, OrInt(Some(e.quantity), s.quantity));
      var w' := Previewing(NewlyPrepared(w, p), p, env.outcome, env.now);
      (Accept(w', sid, s, e, CloseChange(p.id, ok), env.now), if ok then ClosedOut else CloseFailed)
  }

  /** The ticket an alert on an existing position refers to. */
  function EntryOf(w: World, s: PineState): Option<Ticket> {
    if s.entry.Some? && s.entry.value != "" && s.entry.value in w.tickets then Some(w.tickets[s.entry.value]) else None
  }

  function Process(w: World, sid: string, e: Event, env: Env): (World, Reply) {
    var s := StateOf(w, sid, e);
    if e.id in s.processed then (w, Duplicate)
    else if !env.clientLoads || env.account == "" then (w, Raised)
    else if e.kind == ENTRY then OnEntry(w, sid, s, e, env)
    else
      var entry := EntryOf(w, s);
      if entry == None then (w, Raised)
      else if e.kind == MANAGE then OnManage(w, sid, s, e, env)
      else OnClose(w, sid, s, entry.value, e, env)
  }
}
