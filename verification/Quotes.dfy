/** Broker quotes: matching a ticket's legs to listed contracts, and the credit and
    debit arithmetic over the matched quotes. */
module Quotes {
  import opened Basics
  import opened Text
  import opened Pricing
  import opened Tickets
  import opened TicketSteps

  // ----- matching legs to contracts -----

  datatype Contract = Contract(strike: Option<real>, root: Option<string>, osi: Option<string>,
                               bid: Option<real>, ask: Option<real>)

  datatype Pair = Pair(put: Option<Contract>, call: Option<Contract>)

  function InferSide(leg: Leg, i: nat): (r: string)
    ensures r == "PUT" || r == "CALL"
  {
    if leg.callPut == Some("PUT") then "PUT"
    else if leg.callPut == Some("CALL") then "CALL"
    else if Contains(leg.strikeKey, "put") || i <= 1 then "PUT" else "CALL"
  }

  function Branch(p: Pair, side: string): Option<Contract> { if side == "PUT" then p.put else p.call }

  /** Row j lists a contract of the side at the strike. */
  predicate Lists(pairs: seq<Pair>, side: string, strike: Option<real>, j: int) {
    && 0 <= j < |pairs| && Branch(pairs[j], side).Some? && strike.Some?
    && Branch(pairs[j], side).value.strike.Some?
    && Abs(Branch(pairs[j], side).value.strike.value - strike.value) < 0.000001
  }

  /** Which contracts a row offers a leg: those of its side, which is its own when it is a
      put or a call, at its strike to less than a millionth. */
  lemma ListsMeaning(pairs: seq<Pair>, leg: Leg, i: nat, j: nat)
    requires j < |pairs| && leg.strike.Some?
    ensures var side := InferSide(leg, i);
      && (leg.callPut in {Some("PUT"), Some("CALL")} ==> leg.callPut == Some(side))
      && (leg.callPut !in {Some("PUT"), Some("CALL")} && i <= 1 ==> side == "PUT")
      && (leg.callPut !in {Some("PUT"), Some("CALL")} && i > 1 && leg.strikeKey == "" ==> side == "CALL")
    ensures var side := InferSide(leg, i);
      var c := if side == "CALL" then pairs[j].call else pairs[j].put;
      && (c.Some? && c.value.strike == leg.strike ==> Lists(pairs, side, leg.strike, j))
      && (Lists(pairs, side, leg.strike, j) ==>
            c.Some? && c.value.strike.Some? && -0.000001 < c.value.strike.value - leg.strike.value < 0.000001)
  {
    assert leg.strikeKey == "" ==> !Contains(leg.strikeKey, "put");
  }

  function NormRoot(root: Option<string>): string { Norm(OrText(root, "")) }

  /** ... and it has the preferred root. */
  predicate ListsRoot(pairs: seq<Pair>, side: string, strike: Option<real>, root: string, j: int) {
    Lists(pairs, side, strike, j) && root != "" && NormRoot(Branch(pairs[j], side).value.root) == root
  }

  /** The contract of the first row with the preferred root, or of the first row at all. */
  ghost predicate IsMatch(pairs: seq<Pair>, side: string, strike: Option<real>, root: string, c: Contract) {
    exists j ::
      && Lists(pairs, side, strike, j) && c == Branch(pairs[j], side).value
      && (ListsRoot(pairs, side, strike, root, j) || forall i :: !ListsRoot(pairs, side, strike, root, i))
      && (forall i | 0 <= i < j :: !ListsRoot(pairs, side, strike, root, i))
      && (ListsRoot(pairs, side, strike, root, j) || forall i | 0 <= i < j :: !Lists(pairs, side, strike, i))
  }

  method StrikeMatches(pairs: seq<Pair>, side: string, strike: Option<real>) returns (r: seq<Contract>, ghost rows: seq<int>)
    ensures |rows| == |r| && forall k | 0 <= k < |r| :: Lists(pairs, side, strike, rows[k]) && r[k] == Branch(pairs[rows[k]], side).value
    ensures forall k, l | 0 <= k < l < |r| :: rows[k] < rows[l]
    ensures forall j | Lists(pairs, side, strike, j) :: j in rows
    ensures r == [] <==> forall j :: !Lists(pairs, side, strike, j)
  {
    r, rows := [], [];
    for j := 0 to |pairs|
      invariant |rows| == |r| && forall k | 0 <= k < |r| :: Lists(pairs, side, strike, rows[k]) && r[k] == Branch(pairs[rows[k]], side).value
      invariant forall k | 0 <= k < |r| :: rows[k] < j
      invariant forall k, l | 0 <= k < l < |r| :: rows[k] < rows[l]
      invariant forall i | 0 <= i < j && Lists(pairs, side, strike, i) :: i in rows
    {
      if Lists(pairs, side, strike, j) {
        r := r + [Branch(pairs[j], side).value];
        rows := rows + [j];
      }
    }
    if r != [] {
      assert Lists(pairs, side, strike, rows[0]);
    }
  }

  ghost predicate HasNoRow(pairs: seq<Pair>, side: string, strike: Option<real>) {
    forall j :: !Lists(pairs, side, strike, j)
  }

  method MatchLeg(pairs: seq<Pair>, side: string, strike: Option<real>, root: string) returns (r: Option<Contract>)
    ensures r == None <==> HasNoRow(pairs, side, strike)
    ensures r.Some? ==> IsMatch(pairs, side, strike, root, r.value)
  {
    var found, rows := StrikeMatches(pairs, side, strike);
    if root != "" {
      for k := 0 to |found|
        invariant forall l | 0 <= l < k :: !ListsRoot(pairs, side, strike, root, rows[l])
      {
        if NormRoot(found[k].root) == root {
          assert ListsRoot(pairs, side, strike, root, rows[k]);
          assert Lists(pairs, side, strike, rows[k]);
          return Some(found[k]);
        }
      }
    }
    assert forall j :: !ListsRoot(pairs, side, strike, root, j);
    if |found| > 0 {
      return Some(found[0]);
    }
    r := None;
  }

  /** No row lists the leg. */
  ghost predicate IsUnlisted(pairs: seq<Pair>, leg: Leg, i: nat) {
    HasNoRow(pairs, InferSide(leg, i), leg.strike)
  }

  ghost predicate IsLegMatch(pairs: seq<Pair>, leg: Leg, i: nat, root: string, c: Contract) {
    IsMatch(pairs, InferSide(leg, i), leg.strike, root, c)
  }

  method MatchOf(pairs: seq<Pair>, leg: Leg, i: nat, root: string) returns (r: Option<Contract>)
    ensures r == None <==> IsUnlisted(pairs, leg, i)
    ensures r.Some? ==> IsLegMatch(pairs, leg, i, root, r.value)
  {
    r := MatchLeg(pairs, InferSide(leg, i), leg.strike, root);
  }

  /** All legs are matched, each as MatchLeg says, or none when some leg has no row. */
  method FindMatchingContracts(legs: seq<Leg>, pairs: seq<Pair>, preferred: Option<string>) returns (r: Option<seq<Contract>>)
    ensures r == None <==> exists i :: 0 <= i < |legs| && IsUnlisted(pairs, legs[i], i)
    ensures r.Some? ==> |r.value| == |legs| && forall i | 0 <= i < |legs| ::
        IsLegMatch(pairs, legs[i], i, NormRoot(preferred), r.value[i])
  {
    var found: seq<Contract> := [];
    var root := NormRoot(preferred);
    for i := 0 to |legs|
      invariant |found| == i && forall k | 0 <= k < i :: IsLegMatch(pairs, legs[k], k, root, found[k])
      invariant forall k | 0 <= k < i :: !IsUnlisted(pairs, legs[k], k)
    {
      var m := MatchOf(pairs, legs[i], i, root);
      if m == None {
        assert IsUnlisted(pairs, legs[i], i);
        return None;
      }
      found := found + [m.value];
    }
    r := Some(found);
  }

  // ----- credits and debits -----

  /** What one leg costs: whether it was sold, and its quote. */
  datatype Quote = Quote(sell: bool, bid: real, ask: real)

  function Mid(q: Quote): real { (q.bid + q.ask) / 2.0 }

  function Total(qs: seq<Quote>, worth: Quote -> real): real {
    if qs == [] then 0.0 else Total(qs[..|qs| - 1], worth) + worth(qs[|qs| - 1])
  }

  function OpenMidOf(q: Quote): real { if q.sell then Mid(q) else -Mid(q) }
  function OpenNaturalOf(q: Quote): real { if q.sell then q.bid else -q.ask }
  function CloseMidOf(q: Quote): real { if q.sell then Mid(q) else -Mid(q) }
  function CloseNaturalOf(q: Quote): real { if q.sell then q.ask else -q.bid }

  predicate AreOrdered(qs: seq<Quote>) { forall q | q in qs :: q.bid <= q.ask }

  /** Closing at mid costs what opening at mid pays, the exact average of opening and
      closing at the natural prices; with bids below asks the three are ordered. */
  lemma {:induction false} QuoteArithmetic(qs: seq<Quote>)
    ensures Total(qs, CloseMidOf) == Total(qs, OpenMidOf)
    ensures 2.0 * Total(qs, OpenMidOf) == Total(qs, OpenNaturalOf) + Total(qs, CloseNaturalOf)
    ensures AreOrdered(qs) ==> Total(qs, OpenNaturalOf) <= Total(qs, OpenMidOf) <= Total(qs, CloseNaturalOf)
  {
    if qs != [] {
      QuoteArithmetic(qs[..|qs| - 1]);
      assert qs[|qs| - 1] in qs;
      assert forall q | q in qs[..|qs| - 1] :: q in qs;
    }
  }

  /** The quotes of legs 0..n, None when a bid or an ask is missing. */
  function QuotesOf(legs: seq<Leg>, matches: seq<Contract>, n: nat): Option<seq<Quote>>
    requires n <= |legs| && |matches| == |legs|
  {
    if n == 0 then Some([])
    else
      var before, c := QuotesOf(legs, matches, n - 1), matches[n - 1];
      if before == None || c.bid == None || c.ask == None then None
      else Some(before.value + [Quote(Contains(legs[n - 1].action, "SELL"), c.bid.value, c.ask.value)])
  }

  lemma {:induction false} QuotesOfMissing(legs: seq<Leg>, matches: seq<Contract>, k: nat, n: nat)
    requires k <= n <= |legs| && |matches| == |legs| && QuotesOf(legs, matches, k) == None
    ensures QuotesOf(legs, matches, n) == None
  {
    if k < n {
      QuotesOfMissing(legs, matches, k, n - 1);
    }
  }

  datatype Suggestion = Suggestion(limit: real, mid: real, natural: real)

  /** The entry credit: the mid, at least a cent, rounded and snapped to the increment. */
  function SuggestionFor(qs: seq<Quote>, tick: real): Suggestion
    requires tick > 0.0
  {
    var mid := Total(qs, OpenMidOf);
    Suggestion(Snap(RoundPrice(Max(mid, 0.01)), tick), RoundPrice(mid), RoundPrice(Total(qs, OpenNaturalOf)))
  }

  lemma QuotesOfStep(legs: seq<Leg>, matches: seq<Contract>, n: nat)
    requires n < |legs| && |matches| == |legs| && QuotesOf(legs, matches, n).Some?
    requires matches[n].bid.Some? && matches[n].ask.Some?
    ensures QuotesOf(legs, matches, n + 1) ==
      Some(QuotesOf(legs, matches, n).value + [Quote(Contains(legs[n].action, "SELL"), matches[n].bid.value, matches[n].ask.value)])
  {
  }

  lemma TotalStep(qs: seq<Quote>, q: Quote, worth: Quote -> real)
    ensures Total(qs + [q], worth) == Total(qs, worth) + worth(q)
  {
    assert (qs + [q])[..|qs|] == qs;
  }

  /** The loop over all legs: mid and natural credit, nothing when a quote is missing. */
  method OpenCredits(legs: seq<Leg>, matches: seq<Contract>) returns (ok: bool, mid: real, natural: real)
    requires |matches| == |legs|
    ensures var qs := QuotesOf(legs, matches, |legs|);
      ok == qs.Some? && (ok ==> mid == Total(qs.value, OpenMidOf) && natural == Total(qs.value, OpenNaturalOf))
  {
    ok, mid, natural := true, 0.0, 0.0;
    for i := 0 to |legs|
      invariant QuotesOf(legs, matches, i).Some? && ok
      invariant mid == Total(QuotesOf(legs, matches, i).value, OpenMidOf)
      invariant natural == Total(QuotesOf(legs, matches, i).value, OpenNaturalOf)
    {
      if matches[i].bid == None || matches[i].ask == None {
        QuotesOfMissing(legs, matches, i + 1, |legs|);
        return false, 0.0, 0.0;
      }
      var sell, bid, ask := Contains(legs[i].action, "SELL"), matches[i].bid.value, matches[i].ask.value;
      ghost var before, q := QuotesOf(legs, matches, i).value, Quote(sell, bid, ask);
      QuotesOfStep(legs, matches, i);
      TotalStep(before, q, OpenMidOf);
      TotalStep(before, q, OpenNaturalOf);
      var middle := (bid + ask) / 2.0;
      if sell {
        mid := mid + middle;
        natural := natural + bid;
      } else {
        mid := mid - middle;
        natural := natural - ask;
      }
    }
  }

  method DeriveEntryCredit(t: Ticket, matches: seq<Contract>) returns (r: Option<Suggestion>)
    requires |matches| == |t.legs|
    ensures var qs := QuotesOf(t.legs, matches, |t.legs|);
      r == if qs == None then None else Some(SuggestionFor(qs.value, Tick(t, "NET_CREDIT")))
  {
    var ok, mid, natural := OpenCredits(t.legs, matches);
    r := if ok then Some(Suggestion(Snap(RoundPrice(Max(mid, 0.01)), Tick(t, "NET_CREDIT")), RoundPrice(mid), RoundPrice(natural)))
         else None;
  }

  // ----- the live mark of an open position -----

  datatype Mark = Mark(quantity: int, entryCredit: Option<real>, openMid: real, openNatural: real,
                       closeMid: real, closeNatural: real, pnlMid: Option<real>, pnlNatural: Option<real>,
                       pnlMidUsd: Option<real>, pnlNaturalUsd: Option<real>)

  function EntryCredit(t: Ticket, fallback: Option<real>): Option<real> {
    OrReal(t.intent.limit, OrReal(t.prices.limit, OrReal(t.prices.netPrice, OrReal(t.prices.suggested, fallback))))
  }

  function Gain(credit: Option<real>, debit: real): Option<real> {
    if credit.Some? then Some(credit.value - debit) else None
  }

  function Rounded(x: Option<real>): Option<real> {
    if x.Some? then Some(RoundPrice(x.value)) else None
  }

  function Scale(x: real, pointValue: real, quantity: int): real { x * pointValue * quantity as real }

  function InUsd(x: Option<real>, pointValue: real, quantity: int): Option<real> {
    if x.Some? then Some(RoundPrice(Scale(x.value, pointValue, quantity))) else None
  }

  function MarkFor(qs: seq<Quote>, quantity: int, credit: Option<real>, pointValue: real): Mark {
    var mid, natural := Total(qs, CloseMidOf), Total(qs, CloseNaturalOf);
    Mark(quantity, Rounded(credit), RoundPrice(Total(qs, OpenMidOf)), RoundPrice(Total(qs, OpenNaturalOf)),
         RoundPrice(mid), RoundPrice(natural), Rounded(Gain(credit, mid)), Rounded(Gain(credit, natural)),
         InUsd(Gain(credit, mid), pointValue, quantity), InUsd(Gain(credit, natural), pointValue, quantity))
  }

  /** The second loop over all legs: what closing costs. */
  method CloseDebits(legs: seq<Leg>, matches: seq<Contract>) returns (ok: bool, mid: real, natural: real)
    requires |matches| == |legs|
    ensures var qs := QuotesOf(legs, matches, |legs|);
      ok == qs.Some? && (ok ==> mid == Total(qs.value, CloseMidOf) && natural == Total(qs.value, CloseNaturalOf))
  {
    ok, mid, natural := true, 0.0, 0.0;
    for i := 0 to |legs|
      invariant QuotesOf(legs, matches, i).Some? && ok
      invariant mid == Total(QuotesOf(legs, matches, i).value, CloseMidOf)
      invariant natural == Total(QuotesOf(legs, matches, i).value, CloseNaturalOf)
    {
      if matches[i].bid == None || matches[i].ask == None {
        QuotesOfMissing(legs, matches, i + 1, |legs|);
        return false, 0.0, 0.0;
      }
      var sell, bid, ask := Contains(legs[i].action, "SELL"), matches[i].bid.value, matches[i].ask.value;
      ghost var before, q := QuotesOf(legs, matches, i).value, Quote(sell, bid, ask);
      QuotesOfStep(legs, matches, i);
      TotalStep(before, q, CloseMidOf);
      TotalStep(before, q, CloseNaturalOf);
      var middle := (bid + ask) / 2.0;
      if sell {
        mid := mid + middle;
        natural := natural + ask;
      } else {
        mid := mid - middle;
        natural := natural - bid;
      }
    }
  }

  /** None stands for the error raised when a quote lacks its bid or ask. */
  method DeriveLiveMark(t: Ticket, matches: seq<Contract>, fallback: Option<real>, pointValue: real) returns (r: Option<Mark>)
    requires |matches| == |t.legs|
    ensures var qs := QuotesOf(t.legs, matches, |t.legs|);
      r == if qs == None then None else Some(MarkFor(qs.value, ChosenQuantity(t), EntryCredit(t, fallback), pointValue))
  {
    var open := DeriveEntryCredit(t, matches);
    var ok, mid, natural := CloseDebits(t.legs, matches);
    if !ok {
      return None;
    }
    var quantity, credit := ChosenQuantity(t), EntryCredit(t, fallback);
    r := Some(Mark(quantity, Rounded(credit), open.value.mid, open.value.natural, RoundPrice(mid), RoundPrice(natural),
                   Rounded(Gain(credit, mid)), Rounded(Gain(credit, natural)),
                   InUsd(Gain(credit, mid), pointValue, quantity), InUsd(Gain(credit, natural), pointValue, quantity)));
  }

  predicate AtMost(x: Option<real>, y: Option<real>) { x.Some? == y.Some? && (x.Some? ==> x.value <= y.value) }

  lemma ScaleMonotone(x: real, y: real, pointValue: real, quantity: int)
    requires x <= y && pointValue > 0.0 && quantity >= 0
    ensures Scale(x, pointValue, quantity) <= Scale(y, pointValue, quantity)
  {
    var u, v := x * pointValue, y * pointValue;
    assert (y - x) * pointValue >= 0.0;
    assert u <= v;
    assert (v - u) * quantity as real >= 0.0;
  }

  lemma UsdOrder(x: real, y: real, pointValue: real, quantity: int)
    requires x <= y && pointValue > 0.0 && quantity >= 0
    ensures AtMost(InUsd(Some(x), pointValue, quantity), InUsd(Some(y), pointValue, quantity))
  {
    ScaleMonotone(x, y, pointValue, quantity);
    RoundPriceMonotone(Scale(x, pointValue, quantity), Scale(y, pointValue, quantity));
  }

  /** Rounded to cents the mark keeps its order: closing at mid equals opening at mid,
      natural prices bracket it, and the gain at natural is never the larger one. */
  lemma MarkIsOrdered(qs: seq<Quote>, quantity: int, credit: Option<real>, pointValue: real)
    requires AreOrdered(qs)
    ensures var m := MarkFor(qs, quantity, credit, pointValue);
      && m.openNatural <= m.openMid == m.closeMid <= m.closeNatural
      && AtMost(m.pnlNatural, m.pnlMid)
      && (pointValue > 0.0 && quantity >= 0 ==> AtMost(m.pnlNaturalUsd, m.pnlMidUsd))
  {
    QuoteArithmetic(qs);
    var mid, natural := Total(qs, CloseMidOf), Total(qs, CloseNaturalOf);
    RoundPriceMonotone(Total(qs, OpenNaturalOf), Total(qs, OpenMidOf));
    RoundPriceMonotone(mid, natural);
    if credit.Some? {
      RoundPriceMonotone(credit.value - natural, credit.value - mid);
      if pointValue > 0.0 && quantity >= 0 {
        UsdOrder(credit.value - natural, credit.value - mid, pointValue, quantity);
      }
    }
  }

  /** The suggested limit is an accepted positive price. */
  lemma SuggestionIsAllowed(qs: seq<Quote>, tick: real)
    requires tick > 0.0
    ensures SuggestionFor(qs, tick).limit >= tick
    ensures IsAllowed(SuggestionFor(qs, tick).limit, SuggestionFor(qs, tick).limit, tick)
  {
    var raw := RoundPrice(Max(Total(qs, OpenMidOf), 0.01));
    RoundPriceNear(Max(Total(qs, OpenMidOf), 0.01));
    assert raw > 0.0;
    SnapPositive(raw, tick);
    SnapTwice(raw, tick);
    SnapFixesAllowed(Snap(raw, tick), tick);
  }

  // ----- the figures by sides -----

  function BidOf(q: Quote): real { q.bid }
  function AskOf(q: Quote): real { q.ask }
  function MiddleOf(q: Quote): real { (q.bid + q.ask) / 2.0 }

  /** The sum of a price over the legs sold, or over the legs bought. */
  ghost function SideSum(qs: seq<Quote>, sold: bool, price: Quote -> real): real {
    if qs == [] then 0.0
    else SideSum(qs[1..], sold, price) + if qs[0].sell == sold then price(qs[0]) else 0.0
  }

  ghost function Net(qs: seq<Quote>, ofSold: Quote -> real, ofBought: Quote -> real): real {
    SideSum(qs, true, ofSold) - SideSum(qs, false, ofBought)
  }

  lemma {:induction false} SideSumParts(qs: seq<Quote>, q: Quote, sold: bool, price: Quote -> real)
    ensures SideSum(qs + [q], sold, price) == SideSum(qs, sold, price) + if q.sell == sold then price(q) else 0.0
  {
    if qs == [] {
      assert [q][1..] == [];
    } else {
      SideSumParts(qs[1..], q, sold, price);
      assert (qs + [q])[1..] == qs[1..] + [q];
    }
  }

  /** A sum over all legs is what the sold ones bring less what the bought ones cost:
      opening at natural sells at the bid and buys at the ask, closing the other way
      round, and at mid both are the middle of bid and ask. */
  lemma {:induction false} TotalsBySide(qs: seq<Quote>)
    ensures Total(qs, OpenMidOf) == Net(qs, MiddleOf, MiddleOf) && Total(qs, CloseMidOf) == Net(qs, MiddleOf, MiddleOf)
    ensures Total(qs, OpenNaturalOf) == Net(qs, BidOf, AskOf) && Total(qs, CloseNaturalOf) == Net(qs, AskOf, BidOf)
  {
    if qs != [] {
      var n := |qs| - 1;
      TotalsBySide(qs[..n]);
      assert qs == qs[..n] + [qs[n]];
      SideParts(qs[..n], qs[n]);
    }
  }

  lemma SideParts(qs: seq<Quote>, q: Quote)
    ensures Net(qs + [q], MiddleOf, MiddleOf) == Net(qs, MiddleOf, MiddleOf) + (if q.sell then MiddleOf(q) else -MiddleOf(q))
    ensures Net(qs + [q], BidOf, AskOf) == Net(qs, BidOf, AskOf) + (if q.sell then q.bid else -q.ask)
    ensures Net(qs + [q], AskOf, BidOf) == Net(qs, AskOf, BidOf) + (if q.sell then q.ask else -q.bid)
  {
    SideSumParts(qs, q, true, MiddleOf);
    SideSumParts(qs, q, false, MiddleOf);
    SideSumParts(qs, q, true, BidOf);
    SideSumParts(qs, q, false, BidOf);
    SideSumParts(qs, q, true, AskOf);
    SideSumParts(qs, q, false, AskOf);
  }

  /** The quotes of a ticket: every leg needs a bid and an ask, and a leg is sold when its
      action says so. */
  lemma {:induction false} QuotesMeaning(legs: seq<Leg>, matches: seq<Contract>, n: nat)
    requires n <= |legs| && |matches| == |legs|
    ensures QuotesOf(legs, matches, n).Some? <==> forall i | 0 <= i < n :: matches[i].bid.Some? && matches[i].ask.Some?
    ensures QuotesOf(legs, matches, n).Some? ==>
      var qs := QuotesOf(legs, matches, n).value;
      |qs| == n && forall i | 0 <= i < n ::
        (qs[i].sell <==> Contains(legs[i].action, "SELL")) && matches[i].bid == Some(qs[i].bid) && matches[i].ask == Some(qs[i].ask)
  {
    if n > 0 {
      QuotesMeaning(legs, matches, n - 1);
    }
  }

  /** r is x in whole cents, a billionth added before rounding. */
  predicate InCents(x: real, r: real) {
    -0.005 <= r - (x + 0.000000001) <= 0.005 && (r * 100.0).Floor as real == r * 100.0
  }

  lemma RoundPriceInCents(x: real)
    ensures InCents(x, RoundPrice(x))
  {
    RoundPriceNear(x);
    var n := RoundHalfEven((x + 0.000000001) * 100.0);
    assert RoundPrice(x) * 100.0 == n as real;
  }

  /** The mid over all legs in cents; less than a cent counts as a cent. */
  ghost predicate IsMidCredit(qs: seq<Quote>, x: real) {
    var mid := Net(qs, MiddleOf, MiddleOf);
    InCents(if mid >= 0.01 then mid else 0.01, x)
  }

  /** The entry credit: what the legs bring at mid and at natural prices, in cents, and the
      accepted price nearest to the mid, which counts as a cent when it is less. */
  lemma SuggestionMeaning(qs: seq<Quote>, tick: real)
    requires tick > 0.0
    ensures var r, mid := SuggestionFor(qs, tick), Net(qs, MiddleOf, MiddleOf);
      && InCents(mid, r.mid) && InCents(Net(qs, BidOf, AskOf), r.natural)
      && exists asked :: IsMidCredit(qs, asked) && IsAllowed(r.limit, asked, tick)
           && forall p | IsAllowed(p, asked, tick) :: Abs(r.limit - asked) <= Abs(p - asked)
  {
    TotalsBySide(qs);
    var mid := Net(qs, MiddleOf, MiddleOf);
    RoundPriceInCents(mid);
    RoundPriceInCents(Net(qs, BidOf, AskOf));
    RoundPriceInCents(Max(mid, 0.01));
    var asked := RoundPrice(Max(mid, 0.01));
    SnapIsAllowedAndNear(asked, tick);
    forall p | IsAllowed(p, asked, tick) ensures Abs(Snap(asked, tick) - asked) <= Abs(p - asked) {
      SnapIsNearest(asked, tick, p);
    }
  }

  predicate GainInCents(credit: Option<real>, debit: real, factor: real, r: Option<real>) {
    (r.Some? <==> credit.Some?) && (r.Some? ==> InCents((credit.value - debit) * factor, r.value))
  }

  /** The live mark of a position: prices by side in cents, and the gain is the entry
      credit less the debit for closing, in money for every point and contract. */
  lemma MarkMeaning(qs: seq<Quote>, quantity: int, credit: Option<real>, pointValue: real)
    ensures var m := MarkFor(qs, quantity, credit, pointValue);
      var mid, natural, size := Net(qs, MiddleOf, MiddleOf), Net(qs, AskOf, BidOf), pointValue * quantity as real;
      && m.quantity == quantity && (m.entryCredit.Some? <==> credit.Some?) && (credit.Some? ==> InCents(credit.value, m.entryCredit.value))
      && InCents(mid, m.openMid) && InCents(Net(qs, BidOf, AskOf), m.openNatural)
      && InCents(mid, m.closeMid) && InCents(natural, m.closeNatural)
      && GainInCents(credit, mid, 1.0, m.pnlMid) && GainInCents(credit, natural, 1.0, m.pnlNatural)
      && GainInCents(credit, mid, size, m.pnlMidUsd) && GainInCents(credit, natural, size, m.pnlNaturalUsd)
  {
    TotalsBySide(qs);
    var mid, natural := Net(qs, MiddleOf, MiddleOf), Net(qs, AskOf, BidOf);
    RoundPriceInCents(mid);
    RoundPriceInCents(natural);
    RoundPriceInCents(Net(qs, BidOf, AskOf));
    if credit.Some? {
      RoundPriceInCents(credit.value);
      GainMeaning(credit.value, mid, pointValue, quantity);
      GainMeaning(credit.value, natural, pointValue, quantity);
    }
  }

  lemma GainMeaning(credit: real, debit: real, pointValue: real, quantity: int)
    ensures GainInCents(Some(credit), debit, 1.0, Rounded(Gain(Some(credit), debit)))
    ensures GainInCents(Some(credit), debit, pointValue * quantity as real, InUsd(Gain(Some(credit), debit), pointValue, quantity))
  {
    RoundPriceInCents(credit - debit);
    RoundPriceInCents(Scale(credit - debit, pointValue, quantity));
    assert Scale(credit - debit, pointValue, quantity) == (credit - debit) * (pointValue * quantity as real);
  }

  /** The credit a position was entered for: the intent's limit, the order's limit, the net
      price, or the suggestion, whichever is the first to be given and not 0; else the
      alert's. */
  lemma EntryCreditMeaning(t: Ticket, fallback: Option<real>)
    ensures EntryCredit(t, fallback) == FirstGiven([t.intent.limit, t.prices.limit, t.prices.netPrice, t.prices.suggested], fallback)
  {
    var a, b, c, d := t.intent.limit, t.prices.limit, t.prices.netPrice, t.prices.suggested;
    FirstGivenOf(d, [], fallback);
    FirstGivenOf(c, [d], fallback);
    FirstGivenOf(b, [c, d], fallback);
    FirstGivenOf(a, [b, c, d], fallback);
    assert [d] + [] == [d] && [c] + [d] == [c, d] && [b] + [c, d] == [b, c, d] && [a] + [b, c, d] == [a, b, c, d];
  }

  // ----- writing the matches into the ticket -----

  function MatchedLeg(leg: Leg, i: nat, symbol: string, expiry: Expiry, c: Contract): Leg {
    var root := AsSome(NormRoot(c.root));
    leg.(symbol := if root.Some? then root.value else symbol, callPut := Some(InferSide(leg, i)), expiry := expiry,
         osi := if c.osi.Some? then c.osi else leg.osi, root := if root.Some? then root else leg.root)
  }

  /** The bridge's version: it orders by the root the contract lists. */
  function ApplyMatches(t: Ticket, symbol: string, expiry: Expiry, matches: seq<Contract>, now: real): Ticket
    requires |matches| == |t.legs|
  {
    var qs := QuotesOf(t.legs, matches, |t.legs|);
    t.(legs := seq(|t.legs|, i requires 0 <= i < |t.legs| => MatchedLeg(t.legs[i], i, symbol, expiry, matches[i])),
       prices := t.prices.(suggested := if qs == None then None else Some(SuggestionFor(qs.value, Tick(t, "NET_CREDIT")).limit)),
       snapshot := Some(now))
  }

  function SuggestedLeg(leg: Leg, i: nat, symbol: string, expiry: Expiry, c: Contract): Leg {
    leg.(symbol := symbol, callPut := Some(InferSide(leg, i)), expiry := expiry, osi := if c.osi.Some? then c.osi else leg.osi)
  }

  /** The ticket page's version: it orders by the chain's symbol and does not snap. */
  function ApplySuggestion(t: Ticket, symbol: string, expiry: Expiry, matches: seq<Contract>, now: real): Ticket
    requires |matches| == |t.legs|
  {
    var qs := QuotesOf(t.legs, matches, |t.legs|);
    t.(legs := seq(|t.legs|, i requires 0 <= i < |t.legs| => SuggestedLeg(t.legs[i], i, symbol, expiry, matches[i])),
       prices := t.prices.(suggested := if qs == None then None else Some(RoundPrice(Max(Total(qs.value, OpenMidOf), 0.01)))),
       snapshot := Some(now))
  }
}
