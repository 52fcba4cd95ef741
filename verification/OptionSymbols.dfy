/** OCC option symbols: the printer of the chain probe and the regular-expression
    parser of the engine, with their round trip over all roots, dates and strikes. */
module OptionSymbols {
  import opened Basics

  // ----- characters -----

  predicate IsDigit(c: char) { '0' <= c <= '9' }

  predicate IsSpace(c: char) { '\t' <= c <= '\r' || '\U{1C}' <= c <= '\U{1F}' || c == ' ' }

  predicate IsRootChar(c: char) { 'A' <= c <= 'Z' || IsDigit(c) || c == '/' }

  predicate IsDot(c: char) { c == '.' }

  predicate IsRight(c: char) { c == 'C' || c == 'P' }

  predicate All(s: string, f: char -> bool) {
    forall i | 0 <= i < |s| :: f(s[i])
  }

  /** Length of the longest suffix of s whose characters all satisfy f. */
  function Trailing(s: string, f: char -> bool): (n: nat)
    ensures n <= |s|
  {
    if s == [] || !f(s[|s| - 1]) then 0 else 1 + Trailing(s[..|s| - 1], f)
  }

  /** Length of the longest prefix of s whose characters all satisfy f. */
  function Leading(s: string, f: char -> bool): (n: nat)
    ensures n <= |s|
  {
    if s == [] || !f(s[0]) then 0 else 1 + Leading(s[1..], f)
  }

  lemma {:induction false} TrailingIs(a: string, b: string, f: char -> bool)
    requires All(b, f) && (a != [] ==> !f(a[|a| - 1]))
    ensures Trailing(a + b, f) == |b|
  {
    if b == [] {
      assert a + b == a;
    } else {
      assert (a + b)[..|a + b| - 1] == a + b[..|b| - 1];
      TrailingIs(a, b[..|b| - 1], f);
    }
  }

  lemma {:induction false} LeadingIs(a: string, b: string, f: char -> bool)
    requires All(a, f) && (b != [] ==> !f(b[0]))
    ensures Leading(a + b, f) == |a|
  {
    if a == [] {
      assert a + b == b;
    } else {
      assert (a + b)[1..] == a[1..] + b;
      LeadingIs(a[1..], b, f);
    }
  }

  lemma {:induction false} TrailingMeaning(s: string, f: char -> bool)
    ensures var n := |s| - Trailing(s, f); All(s[n..], f) && (n > 0 ==> !f(s[n - 1]))
  {
    if s != [] && f(s[|s| - 1]) {
      TrailingMeaning(s[..|s| - 1], f);
    }
  }

  lemma {:induction false} LeadingMeaning(s: string, f: char -> bool)
    ensures var n := Leading(s, f); All(s[..n], f) && (n < |s| ==> !f(s[n]))
  {
    if s != [] && f(s[0]) {
      LeadingMeaning(s[1..], f);
    }
  }

  function StripRight(s: string): string { s[..|s| - Trailing(s, IsSpace)] }

  function StripLeft(s: string): string { s[Leading(s, IsSpace)..] }

  /** str.strip() */
  function Strip(s: string): string { StripLeft(StripRight(s)) }

  // ----- the pattern -----

  /** One way of matching ^\.*\s*([A-Z0-9/]{1,6})\s*(\d{6})([CP])(\d+)\s*$ */
  datatype Parts = Parts(dots: string, gap: string, root: string, pad: string,
                         date: string, right: char, digits: string, tail: string)

  function Join(p: Parts): string {
    p.dots + p.gap + p.root + p.pad + p.date + [p.right] + p.digits + p.tail
  }

  ghost predicate Matches(s: string, p: Parts) {
    && s == Join(p)
    && All(p.dots, IsDot) && All(p.gap, IsSpace)
    && 1 <= |p.root| <= 6 && All(p.root, IsRootChar) && All(p.pad, IsSpace)
    && |p.date| == 6 && All(p.date, IsDigit) && IsRight(p.right)
    && |p.digits| >= 1 && All(p.digits, IsDigit) && All(p.tail, IsSpace)
  }

  /** The part before the date: dots, blanks, the root and blanks. */
  function ScanRoot(s: string): Option<string> {
    var t := StripRight(s);
    var u := t[Leading(t, IsDot)..];
    var root := StripLeft(u);
    if 1 <= |root| <= 6 && All(root, IsRootChar) then Some(root) else None
  }

  /** The groups (root, date, right, digits), read off from the right. */
  function Scan(s: string): Option<(string, string, char, string)> {
    var t := StripRight(s);
    var n := |t| - Trailing(t, IsDigit);
    if n == |t| || n < 7 then None
    else if !IsRight(t[n - 1]) || !All(t[n - 7..n - 1], IsDigit) then None
    else match ScanRoot(t[..n - 7])
      case None => None
      case Some(root) => Some((root, t[n - 7..n - 1], t[n - 1], t[n..]))
  }

  lemma ScanRootComplete(dots: string, gap: string, root: string, pad: string)
    requires All(dots, IsDot) && All(gap, IsSpace) && 1 <= |root| <= 6 && All(root, IsRootChar) && All(pad, IsSpace)
    ensures ScanRoot(dots + gap + root + pad) == Some(root)
  {
    TrailingIs(dots + gap + root, pad, IsSpace);
    var t := dots + gap + root;
    assert StripRight(t + pad) == t;
    assert t == dots + (gap + root);
    LeadingIs(dots, gap + root, IsDot);
    LeadingIs(gap, root, IsSpace);
    assert (gap + root)[|gap|..] == root;
  }

  lemma ScanSplit(front: string, date: string, right: char, digits: string, tail: string)
    requires |date| == 6 && All(date, IsDigit) && IsRight(right)
    requires |digits| >= 1 && All(digits, IsDigit) && All(tail, IsSpace)
    ensures Scan(front + date + [right] + digits + tail)
         == match ScanRoot(front) { case None => None case Some(root) => Some((root, date, right, digits)) }
  {
    var head := front + date + [right];
    var t := head + digits;
    TrailingIs(t, tail, IsSpace);
    assert StripRight(t + tail) == t;
    TrailingIs(head, digits, IsDigit);
    var n := |head|;
    assert t[n..] == digits && t[n - 1] == right && t[n - 7..n - 1] == date && t[..n - 7] == front;
  }

  /** Every match has the same groups: the pattern is unambiguous. */
  lemma ScanComplete(s: string, p: Parts)
    requires Matches(s, p)
    ensures Scan(s) == Some((p.root, p.date, p.right, p.digits))
  {
    ScanSplit(p.dots + p.gap + p.root + p.pad, p.date, p.right, p.digits, p.tail);
    ScanRootComplete(p.dots, p.gap, p.root, p.pad);
  }

  lemma ScanRootSound(s: string) returns (dots: string, gap: string, pad: string)
    requires ScanRoot(s).Some?
    ensures s == dots + gap + ScanRoot(s).value + pad
    ensures All(dots, IsDot) && All(gap, IsSpace) && All(pad, IsSpace)
  {
    var t := StripRight(s);
    var u := t[Leading(t, IsDot)..];
    TrailingMeaning(s, IsSpace);
    LeadingMeaning(t, IsDot);
    LeadingMeaning(u, IsSpace);
    dots, gap, pad := t[..Leading(t, IsDot)], u[..Leading(u, IsSpace)], s[|t|..];
    Glue(s, t, u, |t|, |dots|, |gap|);
  }

  lemma Glue(s: string, t: string, u: string, i: nat, j: nat, k: nat)
    requires i <= |s| && t == s[..i] && j <= |t| && u == t[j..] && k <= |u|
    ensures s == t[..j] + u[..k] + u[k..] + s[i..]
  {
    assert t == t[..j] + u;
    assert u == u[..k] + u[k..];
  }

  lemma ScanBack(s: string) returns (front: string, tail: string)
    requires Scan(s).Some?
    ensures var (root, date, right, digits) := Scan(s).value;
      && s == front + date + [right] + digits + tail && All(tail, IsSpace) && ScanRoot(front) == Some(root)
      && |date| == 6 && All(date, IsDigit) && IsRight(right) && |digits| >= 1 && All(digits, IsDigit)
  {
    var t := StripRight(s);
    TrailingMeaning(s, IsSpace);
    TrailingMeaning(t, IsDigit);
    var n := |t| - Trailing(t, IsDigit);
    front, tail := t[..n - 7], s[|t|..];
    assert t == t[..n - 7] + t[n - 7..n - 1] + [t[n - 1]] + t[n..];
  }

  /** The scan finds groups only if the pattern matches. */
  lemma ScanSound(s: string) returns (p: Parts)
    requires Scan(s).Some?
    ensures Matches(s, p)
  {
    var (root, date, right, digits) := Scan(s).value;
    var front, tail := ScanBack(s);
    var dots, gap, pad := ScanRootSound(front);
    p := Parts(dots, gap, root, pad, date, right, digits, tail);
  }

  /** The scan succeeds exactly when the regular expression matches, and then
      returns the groups of every match. */
  lemma ScanIsThePattern(s: string)
    ensures Scan(s).Some? <==> exists p :: Matches(s, p)
    ensures forall p | Matches(s, p) :: Scan(s) == Some((p.root, p.date, p.right, p.digits))
  {
    forall p | Matches(s, p) ensures Scan(s) == Some((p.root, p.date, p.right, p.digits)) {
      ScanComplete(s, p);
    }
    if Scan(s).Some? {
      var p := ScanSound(s);
      assert Matches(s, p);
    }
  }

  // ----- the parser -----

  /** int() of a digit string. */
  function Value(digits: string): (n: nat)
    requires All(digits, IsDigit)
  {
    if digits == [] then 0
    else 10 * Value(digits[..|digits| - 1]) + (digits[|digits| - 1] as int - '0' as int)
  }

  datatype ParsedOption = ParsedOption(eventSymbol: string, right: char, strike: real)

  /** The strike: seven or more digits are thousandths; at most 200000. */
  function StrikeOf(digits: string): Option<real>
    requires All(digits, IsDigit)
  {
    var n := Value(digits) as real;
    var strike := if |digits| >= 7 then n / 1000.0 else n;
    if strike <= 0.0 || strike > 200000.0 then None else Some(strike)
  }

  /** parse_spxw_event_symbol */
  function Parse(eventSymbol: string): Option<ParsedOption> {
    var s := Strip(eventSymbol);
    match Scan(s)
    case None => None
    case Some((root, date, right, digits)) =>
      ScanDigits(s);
      match StrikeOf(digits)
      case None => None
      case Some(strike) => Some(ParsedOption(s, right, strike))
  }

  lemma ScanDigits(s: string)
    ensures Scan(s).Some? ==> All(Scan(s).value.3, IsDigit)
  {
    if Scan(s).Some? {
      TrailingMeaning(StripRight(s), IsDigit);
    }
  }

  // ----- the printer -----

  function Digit(d: nat): (c: char)
    requires d < 10
    ensures IsDigit(c) && c as int - '0' as int == d
  {
    ('0' as int + d) as char
  }

  function Decimal(n: nat): (s: string)
    ensures |s| >= 1 && All(s, IsDigit)
  {
    if n < 10 then [Digit(n)] else Decimal(n / 10) + [Digit(n % 10)]
  }

  function Zeros(n: nat): (s: string)
    ensures |s| == n && All(s, IsDigit)
  {
    seq(n, _ => '0')
  }

  /** f"{n:0{width}d}" */
  function Padded(n: int, width: nat): string {
    var body := Decimal(if n < 0 then -n else n);
    var sign := if n < 0 then "-" else "";
    sign + (if |sign| + |body| < width then Zeros(width - |sign| - |body|) else "") + body
  }

  function DatePart(year: int, month: int, day: int): string {
    Padded(year % 100, 2) + Padded(month, 2) + Padded(day, 2)
  }

  /** _occ_symbol, with the strike already in thousandths. */
  function SymbolOf(root: string, date: string, right: char, k: int): string {
    root + date + [right] + Padded(k, 8)
  }

  function OccSymbol(root: string, year: int, month: int, day: int, right: char, strike: real): string {
    SymbolOf(root, DatePart(year, month, day), right, RoundHalfEven(strike * 1000.0))
  }

  lemma {:induction false} ValueOfZeros(z: nat, s: string)
    requires All(s, IsDigit)
    ensures All(Zeros(z) + s, IsDigit) && Value(Zeros(z) + s) == Value(s)
  {
    var t := Zeros(z) + s;
    if s == [] {
      if z > 0 {
        assert t[..|t| - 1] == Zeros(z - 1) + s;
        ValueOfZeros(z - 1, s);
      } else {
        assert t == [];
      }
    } else {
      assert t[..|t| - 1] == Zeros(z) + s[..|s| - 1];
      ValueOfZeros(z, s[..|s| - 1]);
    }
  }

  lemma {:induction false} ValueOfDecimal(n: nat)
    ensures Value(Decimal(n)) == n
  {
    if n >= 10 {
      ValueOfDecimal(n / 10);
      var s := Decimal(n);
      assert s[..|s| - 1] == Decimal(n / 10);
    } else {
      assert Decimal(n)[..0] == [];
    }
  }

  /** A padded non-negative number is all digits, at least as wide as asked, and
      reads back as itself. */
  lemma PaddedReadsBack(n: nat, width: nat)
    ensures var s := Padded(n, width);
      |s| >= width && |s| >= 1 && All(s, IsDigit) && Value(s) == n
  {
    ValueOfDecimal(n);
    var body := Decimal(n);
    var z := if |body| < width then width - |body| else 0;
    ValueOfZeros(z, body);
    assert Padded(n, width) == Zeros(z) + body;
  }

  lemma TwoDigits(n: nat)
    requires n < 100
    ensures |Padded(n, 2)| == 2 && All(Padded(n, 2), IsDigit)
  {
    PaddedReadsBack(n, 2);
    if n >= 10 {
      assert Decimal(n) == Decimal(n / 10) + [Digit(n % 10)];
    }
  }

  lemma DateIsSixDigits(year: int, month: int, day: int)
    requires 0 <= month < 100 && 0 <= day < 100
    ensures |DatePart(year, month, day)| == 6 && All(DatePart(year, month, day), IsDigit)
  {
    TwoDigits(year % 100);
    TwoDigits(month);
    TwoDigits(day);
  }

  // ----- the round trip -----

  lemma NothingToStrip(s: string)
    requires s != [] && !IsSpace(s[0]) && !IsSpace(s[|s| - 1])
    ensures Strip(s) == s && StripRight(s) == s
  {
    TrailingIs(s, [], IsSpace);
    assert s + [] == s;
    LeadingIs([], s, IsSpace);
    assert [] + s == s;
  }

  lemma ScanOfSymbol(root: string, date: string, right: char, k: nat)
    requires All(root, IsRootChar) && |date| == 6 && All(date, IsDigit) && IsRight(right)
    ensures Scan(SymbolOf(root, date, right, k))
         == if 1 <= |root| <= 6 then Some((root, date, right, Padded(k, 8))) else None
  {
    PaddedReadsBack(k, 8);
    var digits := Padded(k, 8);
    ScanSplit(root, date, right, digits, "");
    assert SymbolOf(root, date, right, k) == root + date + [right] + digits + "";
    ScanRootOfRoot(root);
  }

  lemma ScanRootOfRoot(root: string)
    requires All(root, IsRootChar)
    ensures ScanRoot(root) == if 1 <= |root| <= 6 then Some(root) else None
  {
    if root != [] {
      NothingToStrip(root);
      LeadingIs([], root, IsDot);
      LeadingIs([], root, IsSpace);
      assert [] + root == root;
    }
  }

  /** The contract a symbol stands for, if the format can carry it. */
  function Carried(root: string, symbol: string, right: char, k: int): Option<ParsedOption> {
    if 1 <= |root| <= 6 && 0 < k <= 200_000_000 then Some(ParsedOption(symbol, right, k as real / 1000.0)) else None
  }

  lemma SymbolIsStripped(root: string, date: string, right: char, k: int)
    requires All(root, IsRootChar) && |date| == 6 && All(date, IsDigit)
    ensures var symbol := SymbolOf(root, date, right, k); Strip(symbol) == symbol
  {
    PaddedSign(k);
    NothingToStrip(SymbolOf(root, date, right, k));
  }

  lemma StrikeOfPadded(k: nat)
    ensures All(Padded(k, 8), IsDigit)
    ensures StrikeOf(Padded(k, 8)) == if 0 < k <= 200_000_000 then Some(k as real / 1000.0) else None
  {
    PaddedReadsBack(k, 8);
  }

  lemma ParseScanned(symbol: string, root: string, date: string, right: char, digits: string)
    requires Strip(symbol) == symbol && Scan(symbol) == Some((root, date, right, digits)) && All(digits, IsDigit)
    ensures var strike := StrikeOf(digits);
      Parse(symbol) == if strike == None then None else Some(ParsedOption(symbol, right, strike.value))
  {
  }

  lemma ParseUnscanned(symbol: string)
    requires Strip(symbol) == symbol && Scan(symbol) == None
    ensures Parse(symbol) == None
  {
  }

  /** The outcome from the digits' strike and the scan, however they were printed. */
  lemma CarriedFromDigits(symbol: string, root: string, date: string, right: char, digits: string, k: nat)
    requires Strip(symbol) == symbol && All(digits, IsDigit)
    requires Scan(symbol) == if 1 <= |root| <= 6 then Some((root, date, right, digits)) else None
    requires StrikeOf(digits) == if 0 < k <= 200_000_000 then Some(k as real / 1000.0) else None
    ensures Parse(symbol) == Carried(root, symbol, right, k)
  {
    if 1 <= |root| <= 6 {
      ParseScanned(symbol, root, date, right, digits);
    } else {
      ParseUnscanned(symbol);
    }
  }

  lemma NaturalStrikeParses(root: string, date: string, right: char, k: nat)
    requires All(root, IsRootChar) && |date| == 6 && All(date, IsDigit) && IsRight(right)
    ensures var symbol := SymbolOf(root, date, right, k); Parse(symbol) == Carried(root, symbol, right, k)
  {
    StrikeOfPadded(k);
    SymbolIsStripped(root, date, right, k);
    ScanOfSymbol(root, date, right, k);
    CarriedFromDigits(SymbolOf(root, date, right, k), root, date, right, Padded(k, 8), k);
  }

  /** A negative strike prints a sign, which the pattern rejects. */
  lemma NegativeStrikeFails(root: string, date: string, right: char, k: int)
    requires k < 0 && All(root, IsRootChar) && |date| == 6 && All(date, IsDigit) && IsRight(right)
    ensures Parse(SymbolOf(root, date, right, k)) == None
  {
    var symbol := SymbolOf(root, date, right, k);
    PaddedSign(k);
    var digits := Padded(k, 8)[1..];
    var head := root + date + [right] + "-";
    assert symbol == head + digits;
    NothingToStrip(symbol);
    DashRejected(head, digits);
  }

  lemma SymbolParses(root: string, date: string, right: char, k: int)
    requires All(root, IsRootChar) && |date| == 6 && All(date, IsDigit) && IsRight(right)
    ensures Parse(SymbolOf(root, date, right, k)) == Carried(root, SymbolOf(root, date, right, k), right, k)
  {
    if k < 0 {
      NegativeStrikeFails(root, date, right, k);
    } else {
      NaturalStrikeParses(root, date, right, k);
    }
  }

  /** Printing then parsing gives back the right and the strike in thousandths, for
      every root, date and strike the format can carry, and fails for all others. */
  lemma RoundTrip(root: string, year: int, month: int, day: int, right: char, strike: real)
    requires All(root, IsRootChar) && 0 <= month < 100 && 0 <= day < 100 && IsRight(right)
    ensures var symbol := OccSymbol(root, year, month, day, right, strike);
      Parse(symbol) == Carried(root, symbol, right, RoundHalfEven(strike * 1000.0))
  {
    DateIsSixDigits(year, month, day);
    SymbolParses(root, DatePart(year, month, day), right, RoundHalfEven(strike * 1000.0));
  }

  lemma DashRejected(head: string, digits: string)
    requires head != [] && head[|head| - 1] == '-' && digits != [] && All(digits, IsDigit)
    ensures Scan(head + digits) == None
  {
    var s := head + digits;
    TrailingIs(s, [], IsSpace);
    assert s + [] == s && StripRight(s) == s;
    TrailingIs(head, digits, IsDigit);
  }

  lemma PaddedInjective(j: int, k: int)
    requires Padded(j, 8) == Padded(k, 8)
    ensures j == k
  {
    PaddedSign(j);
    PaddedSign(k);
  }

  lemma PaddedSign(k: int)
    ensures var s := Padded(k, 8);
      |s| >= 2 && (k < 0 <==> s[0] == '-') && (k >= 0 ==> All(s, IsDigit) && Value(s) == k)
      && (k < 0 ==> All(s[1..], IsDigit) && Value(s[1..]) == -k)
  {
    if k >= 0 {
      PaddedReadsBack(k, 8);
    } else {
      ValueOfDecimal(-k);
      var body := Decimal(-k);
      var z := if 1 + |body| < 8 then 7 - |body| else 0;
      ValueOfZeros(z, body);
      assert Padded(k, 8)[1..] == Zeros(z) + body;
    }
  }

  /** On one root and date no two contracts share a symbol. */
  lemma SymbolsNeverCollide(root: string, date: string, r: char, k: int, r': char, k': int)
    requires SymbolOf(root, date, r, k) == SymbolOf(root, date, r', k')
    ensures r == r' && k == k'
  {
    var n := |root| + |date|;
    var s := SymbolOf(root, date, r, k);
    assert s[n] == r && s[n + 1..] == Padded(k, 8);
    var s' := SymbolOf(root, date, r', k');
    assert s'[n] == r' && s'[n + 1..] == Padded(k', 8);
    PaddedInjective(k, k');
  }
}
