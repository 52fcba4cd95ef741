/** Alerts sent by the Pine strategy and the trade state kept for each position. */
module PineModels {
  import opened Basics
  import opened Tickets

  datatype Kind = ENTRY | MANAGE | CLOSE

  datatype Strikes = Strikes(shortPut: Option<real>, longPut: Option<real>, shortCall: Option<real>, longCall: Option<real>)

  const NO_STRIKES := Strikes(None, None, None, None)

  datatype Event = Event(id: string, kind: Kind, strategy: string, underlier: string, optionRoot: Option<string>,
                         quantity: int, strikes: Strikes, targetEntry: Option<real>, targetClose: Option<real>)

  datatype LogEntry = LogEntry(id: string, kind: Kind, quantity: int, strikes: Strikes)

  datatype StateStatus = Idle | Open | Closed | Error

  datatype PineState = PineState(
    status: StateStatus, active: bool, quantity: int, optionRoot: Option<string>,
    entry: Option<string>, close: Option<string>, openedAt: Option<real>, closedAt: Option<real>,
    strikes: Strikes, lastKind: Option<Kind>, processed: seq<string>, events: seq<LogEntry>)

  function NewState(optionRoot: Option<string>): PineState {
    PineState(Idle, false, 1, optionRoot, None, None, None, None, NO_STRIKES, None, [], [])
  }

  // ----- the identifier of an alert that carries none -----

  function Join(parts: seq<string>): string
    requires parts != []
  {
    var n := |parts| - 1;
    if n == 0 then parts[0] else Join(parts[..n]) + "|" + parts[n]
  }

  /** Strategy, event type, position key, bar time and the two short strikes, as text. */
  function DerivedId(strategy: string, kind: string, key: string, barTime: string, shortPut: string, shortCall: string): string {
    Join([strategy, kind, key, barTime, shortPut, shortCall])
  }

  predicate HasBar(s: string) { '|' in s }

  lemma NoBarAfter(a: string, u: string)
    requires !HasBar(u)
    ensures forall j | |a| < j < |a + "|" + u| :: (a + "|" + u)[j] != '|'
  {
    assert forall i | 0 <= i < |u| :: u[i] in u;
    assert forall j | |a| < j < |a + "|" + u| :: (a + "|" + u)[j] == u[j - |a| - 1];
  }

  lemma LastPartIsUnique(a: string, u: string, b: string, v: string)
    requires a + "|" + u == b + "|" + v && !HasBar(u) && !HasBar(v)
    ensures a == b && u == v
  {
    var s := a + "|" + u;
    assert s[|a|] == '|' && s[|b|] == '|';
    NoBarAfter(a, u);
    NoBarAfter(b, v);
    assert s[..|a|] == a && s[..|b|] == b && s[|a| + 1..] == u && s[|b| + 1..] == v;
  }

  /** Only the first part may contain a bar. */
  lemma {:induction false} JoinIsInjective(xs: seq<string>, ys: seq<string>)
    requires |xs| == |ys| > 0 && Join(xs) == Join(ys)
    requires forall i | 1 <= i < |xs| :: !HasBar(xs[i]) && !HasBar(ys[i])
    ensures xs == ys
  {
    var n := |xs| - 1;
    if n > 0 {
      LastPartIsUnique(Join(xs[..n]), xs[n], Join(ys[..n]), ys[n]);
      JoinIsInjective(xs[..n], ys[..n]);
      assert xs == xs[..n] + [xs[n]] && ys == ys[..n] + [ys[n]];
    }
  }

  /** Two alerts without an identifier are taken for the same one only when they agree
      on all six texts, if no text after the strategy name contains a bar. */
  lemma DerivedIdsDiffer(xs: seq<string>, ys: seq<string>)
    requires |xs| == |ys| == 6 && forall i | 1 <= i < 6 :: !HasBar(xs[i]) && !HasBar(ys[i])
    ensures DerivedId(xs[0], xs[1], xs[2], xs[3], xs[4], xs[5]) == DerivedId(ys[0], ys[1], ys[2], ys[3], ys[4], ys[5]) <==> xs == ys
  {
    assert xs == [xs[0], xs[1], xs[2], xs[3], xs[4], xs[5]];
    assert ys == [ys[0], ys[1], ys[2], ys[3], ys[4], ys[5]];
    if Join(xs) == Join(ys) {
      JoinIsInjective(xs, ys);
    }
  }

  // ----- applying an alert to a state -----

  function OrId(x: Option<string>, y: Option<string>): Option<string> {
    if x.Some? && x.value != "" then x else y
  }

  /** The strikes an alert shows in the log: its own, else the state's. */
  function ShownStrikes(s: Strikes, e: Strikes): Strikes {
    Strikes(if e.shortPut.Some? then e.shortPut else s.shortPut, if e.longPut.Some? then e.longPut else s.longPut,
            if e.shortCall.Some? then e.shortCall else s.shortCall, if e.longCall.Some? then e.longCall else s.longCall)
  }

  /** The strikes the state keeps: here a zero strike counts as missing. */
  function KeptStrikes(s: Strikes, e: Strikes): Strikes {
    Strikes(OrReal(e.shortPut, s.shortPut), OrReal(e.longPut, s.longPut),
            OrReal(e.shortCall, s.shortCall), OrReal(e.longCall, s.longCall))
  }

  function Without<T(==)>(ids: seq<T>, id: T): seq<T> {
    if ids == [] then []
    else Without(ids[..|ids| - 1], id) + if ids[|ids| - 1] == id then [] else [ids[|ids| - 1]]
  }

  lemma {:induction false} WithoutAbsent<T>(ids: seq<T>, id: T)
    requires forall i | 0 <= i < |ids| :: ids[i] != id
    ensures Without(ids, id) == ids
  {
    if ids != [] {
      var n := |ids| - 1;
      WithoutAbsent(ids[..n], id);
      assert ids == ids[..n] + [ids[n]];
    }
  }

  /** What an alert changes besides the fields every alert updates. */
  datatype Change = Change(status: StateStatus, active: bool, entry: Option<string>, close: Option<string>,
                           restart: bool, updateStrikes: bool)

  /** restart forgets an earlier close ticket and closing time. */
  function Applied(s: PineState, e: Event, c: Change, now: real): PineState {
    PineState(c.status, c.active, OrInt(Some(e.quantity), s.quantity),
              if OrText(e.optionRoot, "") != "" then e.optionRoot else s.optionRoot,
              OrId(c.entry, s.entry), if c.restart then None else OrId(c.close, s.close),
              if c.active && (!s.active || s.openedAt == None) then Some(now) else s.openedAt,
              if c.restart then None else if !c.active && e.kind == CLOSE then Some(now) else s.closedAt,
              if c.updateStrikes then KeptStrikes(s.strikes, e.strikes) else s.strikes, Some(e.kind),
              LastN(Without(s.processed, e.id) + [e.id], 50),
              LastN(s.events, 19) + [LogEntry(e.id, e.kind, e.quantity, ShownStrikes(s.strikes, e.strikes))])
  }
}
