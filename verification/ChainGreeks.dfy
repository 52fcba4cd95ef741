/** From an option chain to the greeks dictionary of the picker and back to option
    points: the symbols carry the contracts through without loss or collision. */
module ChainGreeks {
  import opened Basics
  import opened OptionSymbols
  import opened CondorPicker

  /** One side of a chain row; None is a field that is missing or unreadable. */
  datatype ChainOption = ChainOption(delta: Option<real>, right: Option<char>, strike: Option<real>)

  predicate Usable(o: ChainOption) {
    o.delta.Some? && o.right.Some? && o.strike.Some?
  }

  /** dict[key] = g: a known key keeps its place, a new one is appended. */
  function Put<K(==)>(d: seq<(K, Greek)>, key: K, g: Greek): seq<(K, Greek)> {
    if d == [] then [(key, g)]
    else if d[0].0 == key then [(key, g)] + d[1..]
    else [d[0]] + Put(d[1..], key, g)
  }

  type Contract = (char, int)

  function ContractOf(o: ChainOption): Contract
    requires Usable(o)
  {
    (o.right.value, RoundHalfEven(o.strike.value * 1000.0))
  }

  /** A listing with delta, right and strike stands for the contract of that right at the
      strike in thousandths, to the nearest one. */
  lemma ContractMeaning(o: ChainOption)
    ensures Usable(o) <==> o.delta != None && o.right != None && o.strike != None
    ensures Usable(o) ==> o.right == Some(ContractOf(o).0) && IsRounded(1000.0 * o.strike.value, ContractOf(o).1)
  {
    if Usable(o) {
      RoundHalfEvenMeaning(o.strike.value * 1000.0, ContractOf(o).1);
    }
  }

  /** The dictionary the chain would give if it were keyed by right and strike. */
  function ByContract(options: seq<ChainOption>): seq<(Contract, Greek)> {
    if options == [] then []
    else
      var n := |options| - 1;
      var o, d := options[n], ByContract(options[..n]);
      if Usable(o) then Put(d, ContractOf(o), Greek(o.delta)) else d
  }

  function Symbol(root: string, date: string, c: Contract): string {
    SymbolOf(root, date, c.0, c.1)
  }

  function Rename(root: string, date: string, d: seq<(Contract, Greek)>): Dict {
    seq(|d|, i requires 0 <= i < |d| => (Symbol(root, date, d[i].0), d[i].1))
  }

  lemma RenameParts(root: string, date: string, d: seq<(Contract, Greek)>, e: seq<(Contract, Greek)>)
    ensures Rename(root, date, d + e) == Rename(root, date, d) + Rename(root, date, e)
  {
  }

  lemma {:induction false} PutRenamed(root: string, date: string, d: seq<(Contract, Greek)>, c: Contract, g: Greek)
    ensures Put(Rename(root, date, d), Symbol(root, date, c), g) == Rename(root, date, Put(d, c, g))
  {
    if d != [] {
      var rest := d[1..];
      assert Rename(root, date, d)[1..] == Rename(root, date, rest);
      if Symbol(root, date, d[0].0) == Symbol(root, date, c) {
        SymbolsNeverCollide(root, date, d[0].0.0, d[0].0.1, c.0, c.1);
        RenameParts(root, date, [(c, g)], rest);
      } else {
        PutRenamed(root, date, rest, c, g);
        RenameParts(root, date, [d[0]], Put(rest, c, g));
      }
    }
  }

  /** _chain_greeks_map: its keys are symbols, but it is the dictionary by contract
      under another name; no two contracts ever share an entry. */
  method ChainGreeksMap(root: string, year: int, month: int, day: int, options: seq<ChainOption>) returns (d: Dict)
    ensures d == Rename(root, DatePart(year, month, day), ByContract(options))
  {
    ghost var date := DatePart(year, month, day);
    d := [];
    for k := 0 to |options|
      invariant d == Rename(root, date, ByContract(options[..k]))
    {
      assert options[..k + 1][..k] == options[..k];
      var o := options[k];
      if Usable(o) {
        PutRenamed(root, date, ByContract(options[..k]), ContractOf(o), Greek(o.delta));
        d := Put(d, OccSymbol(root, year, month, day, o.right.value, o.strike.value), Greek(o.delta));
      }
    }
    assert options[..|options|] == options;
  }

  /** What the symbol of a contract reads back as. */
  function Read(root: string, date: string, c: Contract): Option<ParsedOption> {
    Carried(root, Symbol(root, date, c), c.0, c.1)
  }

  /** The point of one entry, if it has one. */
  function PointAt(root: string, date: string, entry: (Contract, Greek)): seq<OptionPoint> {
    PointFrom(Symbol(root, date, entry.0), Read(root, date, entry.0), entry.1)
  }

  /** The points of a dictionary by contract, without parsing any symbol. */
  function PointsOf(root: string, date: string, d: seq<(Contract, Greek)>): seq<OptionPoint> {
    if d == [] then []
    else
      var n := |d| - 1;
      PointsOf(root, date, d[..n]) + PointAt(root, date, d[n])
  }

  lemma RenamePrefix(root: string, date: string, d: seq<(Contract, Greek)>)
    requires d != []
    ensures var n := |d| - 1; Rename(root, date, d)[..n] == Rename(root, date, d[..n])
  {
  }

  lemma {:induction false} PointsSurvive(parse: string -> Option<ParsedOption>, root: string, date: string, d: seq<(Contract, Greek)>)
    requires forall i | 0 <= i < |d| :: parse(Symbol(root, date, d[i].0)) == Read(root, date, d[i].0)
    ensures PointsWith(parse, Rename(root, date, d)) == PointsOf(root, date, d)
  {
    if d != [] {
      var n := |d| - 1;
      PointsSurvive(parse, root, date, d[..n]);
      RenamePrefix(root, date, d);
      assert Rename(root, date, d)[n] == (Symbol(root, date, d[n].0), d[n].1);
      assert PointFrom(Symbol(root, date, d[n].0), parse(Symbol(root, date, d[n].0)), d[n].1) == PointAt(root, date, d[n]);
    }
  }

  lemma {:induction false} RightsKept(options: seq<ChainOption>)
    requires forall i | 0 <= i < |options| && options[i].right.Some? :: IsRight(options[i].right.value)
    ensures forall i | 0 <= i < |ByContract(options)| :: IsRight(ByContract(options)[i].0.0)
  {
    if options != [] {
      var n := |options| - 1;
      RightsKept(options[..n]);
      if Usable(options[n]) {
        PutKeys(ByContract(options[..n]), ContractOf(options[n]), Greek(options[n].delta));
      }
    }
  }

  lemma {:induction false} PutKeys(d: seq<(Contract, Greek)>, key: Contract, g: Greek)
    ensures forall e | e in Put(d, key, g) :: e == (key, g) || e in d
    ensures (key, g) in Put(d, key, g)
    ensures forall e | e in d && e.0 != key :: e in Put(d, key, g)
  {
    if d != [] {
      assert d == [d[0]] + d[1..];
      PutKeys(d[1..], key, g);
    }
  }

  ghost predicate KeysDistinct(d: seq<(Contract, Greek)>) {
    forall i, j | 0 <= i < j < |d| :: d[i].0 != d[j].0
  }

  lemma {:induction false} PutKeepsDistinct(d: seq<(Contract, Greek)>, key: Contract, g: Greek)
    requires KeysDistinct(d)
    ensures KeysDistinct(Put(d, key, g))
  {
    if d != [] && d[0].0 != key {
      var rest := d[1..];
      PutKeepsDistinct(rest, key, g);
      PutKeys(rest, key, g);
      var r := Put(rest, key, g);
      forall i | 0 <= i < |r| ensures r[i].0 != d[0].0 {
        assert r[i] in r;
        if r[i] != (key, g) {
          var j :| 0 <= j < |rest| && rest[j] == r[i];
          assert d[j + 1] == r[i];
        }
      }
    }
  }

  /** Option i is the last usable one of its contract. */
  ghost predicate LastOfContract(options: seq<ChainOption>, i: nat) {
    && i < |options| && Usable(options[i])
    && forall j | i < j < |options| && Usable(options[j]) :: ContractOf(options[j]) != ContractOf(options[i])
  }

  /** The last usable option of contract c quotes g. */
  ghost predicate QuotesLast(options: seq<ChainOption>, c: Contract, g: Greek) {
    exists i: nat :: LastOfContract(options, i) && ContractOf(options[i]) == c && Greek(options[i].delta) == g
  }

  lemma QuotesLastStays(options: seq<ChainOption>, c: Contract, g: Greek)
    requires options != []
    requires var o := options[|options| - 1]; !(Usable(o) && ContractOf(o) == c)
    ensures QuotesLast(options, c, g) == QuotesLast(options[..|options| - 1], c, g)
  {
    var n := |options| - 1;
    var before := options[..n];
    assert forall j | 0 <= j < n :: before[j] == options[j];
    if QuotesLast(before, c, g) {
      var i: nat :| LastOfContract(before, i) && ContractOf(before[i]) == c && Greek(before[i].delta) == g;
      assert LastOfContract(options, i);
    }
    if QuotesLast(options, c, g) {
      var i: nat :| LastOfContract(options, i) && ContractOf(options[i]) == c && Greek(options[i].delta) == g;
      assert LastOfContract(before, i);
    }
  }

  lemma QuotesLastNew(options: seq<ChainOption>, g: Greek)
    requires options != [] && Usable(options[|options| - 1])
    ensures var o := options[|options| - 1]; QuotesLast(options, ContractOf(o), g) <==> g == Greek(o.delta)
  {
    assert LastOfContract(options, |options| - 1);
  }

  /** The dictionary has each contract once, with the delta quoted last. */
  lemma {:induction false} ByContractMeaning(options: seq<ChainOption>, c: Contract, g: Greek)
    ensures KeysDistinct(ByContract(options))
    ensures (c, g) in ByContract(options) <==> QuotesLast(options, c, g)
  {
    if options != [] {
      var n := |options| - 1;
      var o, d := options[n], ByContract(options[..n]);
      ByContractMeaning(options[..n], c, g);
      if Usable(o) {
        PutKeepsDistinct(d, ContractOf(o), Greek(o.delta));
        PutKeys(d, ContractOf(o), Greek(o.delta));
      }
      if Usable(o) && ContractOf(o) == c {
        PutReplaces(d, c, Greek(o.delta), g);
        QuotesLastNew(options, g);
      } else {
        QuotesLastStays(options, c, g);
      }
    }
  }

  lemma {:induction false} PutReplaces(d: seq<(Contract, Greek)>, key: Contract, g: Greek, g': Greek)
    requires KeysDistinct(d)
    ensures (key, g') in Put(d, key, g) ==> g' == g
  {
    PutKeepsDistinct(d, key, g);
    PutKeys(d, key, g);
    var r := Put(d, key, g);
    if (key, g') in r {
      var i :| 0 <= i < |r| && r[i] == (key, g');
      var j :| 0 <= j < |r| && r[j] == (key, g);
      assert i == j;
    }
  }

  // ----- the order of the dictionary -----

  /** Where a contract is first listed; the length of the chain when it never is. */
  function FirstListed(options: seq<ChainOption>, c: Contract): (k: nat)
    ensures k <= |options|
  {
    if options == [] then 0
    else
      var n := |options| - 1;
      var k := FirstListed(options[..n], c);
      if k < n || (Usable(options[n]) && ContractOf(options[n]) == c) then k else n + 1
  }

  lemma {:induction false} FirstListedMeaning(options: seq<ChainOption>, c: Contract)
    ensures var k := FirstListed(options, c);
      && (k < |options| ==> Usable(options[k]) && ContractOf(options[k]) == c)
      && forall j | 0 <= j < k && Usable(options[j]) :: ContractOf(options[j]) != c
  {
    if options != [] {
      var n := |options| - 1;
      FirstListedMeaning(options[..n], c);
      assert forall j | 0 <= j < n :: options[..n][j] == options[j];
    }
  }

  lemma {:induction false} PutKeepsOrder(d: seq<(Contract, Greek)>, key: Contract, g: Greek)
    ensures var r := Put(d, key, g);
      && (forall i | 0 <= i < |d| :: i < |r| && r[i].0 == d[i].0)
      && (|r| == |d| || (|r| == |d| + 1 && r[|d|].0 == key && forall i | 0 <= i < |d| :: d[i].0 != key))
  {
    if d != [] && d[0].0 != key {
      PutKeepsOrder(d[1..], key, g);
      assert forall i | 1 <= i < |d| :: d[1..][i - 1] == d[i];
    }
  }

  ghost predicate HasEntry(d: seq<(Contract, Greek)>, c: Contract) { exists i :: 0 <= i < |d| && d[i].0 == c }

  /** Every entry is listed, and entries come in the order of first listing. */
  ghost predicate Ordered(d: seq<(Contract, Greek)>, options: seq<ChainOption>) {
    && (forall i | 0 <= i < |d| :: FirstListed(options, d[i].0) < |options|)
    && (forall i, j | 0 <= i < j < |d| :: FirstListed(options, d[i].0) < FirstListed(options, d[j].0))
  }

  /** Every listed contract has an entry. */
  ghost predicate Complete(d: seq<(Contract, Greek)>, options: seq<ChainOption>) {
    forall c: Contract | FirstListed(options, c) < |options| :: HasEntry(d, c)
  }

  /** The entries are exactly the listed contracts, in the order of first listing. */
  ghost predicate InOrder(d: seq<(Contract, Greek)>, options: seq<ChainOption>) {
    Ordered(d, options) && Complete(d, options)
  }

  lemma FirstListedStep(before: seq<ChainOption>, o: ChainOption, c: Contract)
    ensures var k := FirstListed(before, c);
      FirstListed(before + [o], c) == if k < |before| || (Usable(o) && ContractOf(o) == c) then k else |before| + 1
  {
    assert (before + [o])[..|before|] == before;
  }

  lemma UnusableKeepsOrder(d: seq<(Contract, Greek)>, before: seq<ChainOption>, o: ChainOption)
    requires InOrder(d, before) && !Usable(o)
    ensures InOrder(d, before + [o])
  {
    forall i | 0 <= i < |d| ensures FirstListed(before + [o], d[i].0) == FirstListed(before, d[i].0) {
      FirstListedStep(before, o, d[i].0);
    }
    forall c: Contract | FirstListed(before + [o], c) < |before| + 1 ensures HasEntry(d, c) {
      FirstListedStep(before, o, c);
    }
  }

  lemma PutHasEntry(d: seq<(Contract, Greek)>, key: Contract, g: Greek, c: Contract)
    requires c == key || HasEntry(d, c)
    ensures HasEntry(Put(d, key, g), c)
  {
    var r := Put(d, key, g);
    PutKeys(d, key, g);
    PutKeepsOrder(d, key, g);
    if c == key {
      var i :| 0 <= i < |r| && r[i] == (key, g);
    } else {
      var i :| 0 <= i < |d| && d[i].0 == c;
      assert r[i].0 == c;
    }
  }

  lemma UsableKeepsComplete(d: seq<(Contract, Greek)>, before: seq<ChainOption>, o: ChainOption)
    requires Complete(d, before) && Usable(o)
    ensures Complete(Put(d, ContractOf(o), Greek(o.delta)), before + [o])
  {
    forall c: Contract | FirstListed(before + [o], c) < |before| + 1
      ensures HasEntry(Put(d, ContractOf(o), Greek(o.delta)), c)
    {
      FirstListedStep(before, o, c);
      PutHasEntry(d, ContractOf(o), Greek(o.delta), c);
    }
  }

  /** Entries of old keys stay where they are first listed. */
  lemma OldKeysStay(d: seq<(Contract, Greek)>, r: seq<(Contract, Greek)>, before: seq<ChainOption>, o: ChainOption)
    requires Ordered(d, before) && |d| <= |r| && forall i | 0 <= i < |d| :: r[i].0 == d[i].0
    ensures forall i | 0 <= i < |d| :: FirstListed(before + [o], r[i].0) == FirstListed(before, d[i].0) < |before|
  {
    forall i | 0 <= i < |d| ensures FirstListed(before + [o], r[i].0) == FirstListed(before, d[i].0) < |before| {
      FirstListedStep(before, o, d[i].0);
    }
  }

  lemma NewKeyIsLast(d: seq<(Contract, Greek)>, before: seq<ChainOption>, o: ChainOption)
    requires Complete(d, before) && Usable(o) && !HasEntry(d, ContractOf(o))
    ensures FirstListed(before + [o], ContractOf(o)) == |before|
  {
    FirstListedStep(before, o, ContractOf(o));
  }

  lemma GrownIsOrdered(d: seq<(Contract, Greek)>, r: seq<(Contract, Greek)>, before: seq<ChainOption>, o: ChainOption)
    requires InOrder(d, before) && Usable(o) && |d| <= |r| && forall i | 0 <= i < |d| :: r[i].0 == d[i].0
    requires |r| == |d| || (|r| == |d| + 1 && r[|d|].0 == ContractOf(o) && !HasEntry(d, ContractOf(o)))
    ensures Ordered(r, before + [o])
  {
    OldKeysStay(d, r, before, o);
    if |r| == |d| + 1 {
      NewKeyIsLast(d, before, o);
    }
  }

  lemma UsableKeepsOrder(d: seq<(Contract, Greek)>, before: seq<ChainOption>, o: ChainOption)
    requires InOrder(d, before) && Usable(o)
    ensures Ordered(Put(d, ContractOf(o), Greek(o.delta)), before + [o])
  {
    PutKeepsOrder(d, ContractOf(o), Greek(o.delta));
    GrownIsOrdered(d, Put(d, ContractOf(o), Greek(o.delta)), before, o);
  }

  /** The dictionary lists the contracts in the order of first appearance. */
  lemma {:induction false} ByContractInOrder(options: seq<ChainOption>)
    ensures InOrder(ByContract(options), options)
  {
    if options != [] {
      var n := |options| - 1;
      var before, o := options[..n], options[n];
      assert options == before + [o];
      ByContractInOrder(before);
      if Usable(o) {
        UsableKeepsOrder(ByContract(before), before, o);
        UsableKeepsComplete(ByContract(before), before, o);
      } else {
        UnusableKeepsOrder(ByContract(before), before, o);
      }
    }
  }

  /** Point i is read from entry at[i], the entries come in order, and no other entry
      has a point. */
  ghost predicate DrawnInOrder(root: string, date: string, d: seq<(Contract, Greek)>, points: seq<OptionPoint>, at: seq<nat>) {
    && |at| == |points| && (forall i, j | 0 <= i < j < |at| :: at[i] < at[j])
    && (forall i | 0 <= i < |at| :: at[i] < |d| && PointAt(root, date, d[at[i]]) == [points[i]])
    && (forall k | 0 <= k < |d| && k !in at :: PointAt(root, date, d[k]) == [])
  }

  lemma DrawnStep(root: string, date: string, d: seq<(Contract, Greek)>, points: seq<OptionPoint>, at: seq<nat>,
                  entry: (Contract, Greek), p: seq<OptionPoint>)
    requires DrawnInOrder(root, date, d, points, at) && p == PointAt(root, date, entry) && |p| <= 1
    ensures DrawnInOrder(root, date, d + [entry], points + p, at + if p == [] then [] else [|d|])
  {
    var d', at' := d + [entry], at + if p == [] then [] else [|d|];
    assert p != [] ==> p == [p[0]];
    forall k | 0 <= k < |d'| && k !in at' ensures PointAt(root, date, d'[k]) == [] {
      if k < |d| {
        assert k !in at && d'[k] == d[k];
      }
    }
  }

  lemma {:induction false} PointsAreDrawn(root: string, date: string, d: seq<(Contract, Greek)>) returns (at: seq<nat>)
    ensures DrawnInOrder(root, date, d, PointsOf(root, date, d), at)
  {
    at := [];
    if d != [] {
      var n := |d| - 1;
      var p := PointAt(root, date, d[n]);
      at := PointsAreDrawn(root, date, d[..n]);
      DrawnStep(root, date, d[..n], PointsOf(root, date, d[..n]), at, d[n], p);
      assert d == d[..n] + [d[n]];
      at := at + if p == [] then [] else [n];
    }
  }

  lemma SymbolsReadBack(root: string, year: int, month: int, day: int, d: seq<(Contract, Greek)>)
    requires All(root, IsRootChar) && 0 <= month < 100 && 0 <= day < 100
    requires forall i | 0 <= i < |d| :: IsRight(d[i].0.0)
    ensures var date := DatePart(year, month, day);
      forall i | 0 <= i < |d| :: Parse(Symbol(root, date, d[i].0)) == Read(root, date, d[i].0)
  {
    var date := DatePart(year, month, day);
    DateIsSixDigits(year, month, day);
    forall i | 0 <= i < |d| ensures Parse(Symbol(root, date, d[i].0)) == Read(root, date, d[i].0) {
      SymbolParses(root, date, d[i].0.0, d[i].0.1);
    }
  }

  lemma ChainIsRead(root: string, year: int, month: int, day: int, options: seq<ChainOption>)
    requires All(root, IsRootChar) && 0 <= month < 100 && 0 <= day < 100
    requires forall i | 0 <= i < |options| && options[i].right.Some? :: IsRight(options[i].right.value)
    ensures var date, d := DatePart(year, month, day), ByContract(options);
      ToOptionPoints(Rename(root, date, d)) == PointsOf(root, date, d)
  {
    RightsKept(options);
    SymbolsReadBack(root, year, month, day, ByContract(options));
    PointsSurvive(Parse, root, DatePart(year, month, day), ByContract(options));
  }

  /** From chain to points in one statement: the dictionary lists the contracts of the
      chain in order of first appearance, and the picker sees, in that order, each one
      that can be read back, under its own right and strike. */
  lemma ChainToPoints(root: string, date: string, options: seq<ChainOption>, year: int, month: int, day: int)
    requires All(root, IsRootChar) && 0 <= month < 100 && 0 <= day < 100 && date == DatePart(year, month, day)
    requires forall i | 0 <= i < |options| && options[i].right.Some? :: IsRight(options[i].right.value)
    ensures var d := ByContract(options);
      InOrder(d, options) && exists at :: DrawnInOrder(root, date, d, ToOptionPoints(Rename(root, date, d)), at)
  {
    ByContractInOrder(options);
    ChainIsRead(root, year, month, day, options);
    var at := PointsAreDrawn(root, date, ByContract(options));
  }
}
