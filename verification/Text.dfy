/** The string operations tickets are normalised with, on ASCII letters and blanks. */
module Text {

  predicate IsBlank(c: char) { c == ' ' || c == '\t' || c == '\n' || c == '\r' }

  function UpperChar(c: char): char {
    if 'a' <= c <= 'z' then (c as int - 32) as char else c
  }

  function LowerChar(c: char): char {
    if 'A' <= c <= 'Z' then (c as int + 32) as char else c
  }

  function Upper(s: string): (r: string)
    ensures |r| == |s| && forall i | 0 <= i < |s| :: r[i] == UpperChar(s[i])
  {
    if s == "" then "" else [UpperChar(s[0])] + Upper(s[1..])
  }

  function Lower(s: string): (r: string)
    ensures |r| == |s| && forall i | 0 <= i < |s| :: r[i] == LowerChar(s[i])
  {
    if s == "" then "" else [LowerChar(s[0])] + Lower(s[1..])
  }

  function StripLeft(s: string): string {
    if s != "" && IsBlank(s[0]) then StripLeft(s[1..]) else s
  }

  function StripRight(s: string): string {
    if s != "" && IsBlank(s[|s| - 1]) then StripRight(s[..|s| - 1]) else s
  }

  function Strip(s: string): string { StripRight(StripLeft(s)) }

  /** s.strip().upper() */
  function Norm(s: string): string { Upper(Strip(s)) }

  function PartAt(s: string, i: nat, n: nat): string
    requires i + n <= |s|
  {
    s[i..i + n]
  }

  predicate Contains(s: string, part: string) {
    exists i | 0 <= i <= |s| - |part| :: PartAt(s, i, |part|) == part
  }

  /** Upper-case letters, digits and signs: what normalising leaves alone. */
  predicate IsPlain(s: string) { forall c | c in s :: !IsBlank(c) && !('a' <= c <= 'z') }

  lemma NormOfPlain(s: string)
    requires IsPlain(s)
    ensures Norm(s) == s
  {
    assert forall i | 0 <= i < |s| :: s[i] in s;
    assert Strip(s) == s;
  }

  lemma {:induction false} StripLeftMeaning(s: string)
    ensures StripLeft(s) == "" || !IsBlank(StripLeft(s)[0])
    ensures exists k | 0 <= k <= |s| :: StripLeft(s) == s[k..]
  {
    if s != "" && IsBlank(s[0]) {
      StripLeftMeaning(s[1..]);
      var k :| 0 <= k <= |s| - 1 && StripLeft(s[1..]) == s[1..][k..];
      assert s[1..][k..] == s[k + 1..];
    } else {
      assert s[0..] == s;
    }
  }

  lemma {:induction false} StripRightMeaning(s: string)
    ensures StripRight(s) == "" || !IsBlank(StripRight(s)[|StripRight(s)| - 1])
    ensures exists k | 0 <= k <= |s| :: StripRight(s) == s[..k]
  {
    if s != "" && IsBlank(s[|s| - 1]) {
      StripRightMeaning(s[..|s| - 1]);
      var k :| 0 <= k <= |s| - 1 && StripRight(s[..|s| - 1]) == s[..|s| - 1][..k];
      assert s[..|s| - 1][..k] == s[..k];
    } else {
      assert s[..|s|] == s;
    }
  }

  lemma StripTwice(s: string)
    ensures Strip(Strip(s)) == Strip(s)
  {
    StripLeftMeaning(s);
    StripRightMeaning(StripLeft(s));
  }

  /** Blanks on the left never remove a last character that is not blank. */
  lemma {:induction false} StripKeepsLast(s: string)
    requires s != "" && !IsBlank(s[|s| - 1])
    ensures Strip(s) != "" && Strip(s)[|Strip(s)| - 1] == s[|s| - 1]
  {
    if IsBlank(s[0]) {
      assert |s| > 1;
      StripKeepsLast(s[1..]);
    }
  }

  lemma UpperCharMeaning(c: char)
    ensures !('a' <= UpperChar(c) <= 'z') && LowerChar(UpperChar(c)) == LowerChar(c) && UpperChar(UpperChar(c)) == UpperChar(c)
    ensures !('A' <= LowerChar(c) <= 'Z') && UpperChar(LowerChar(c)) == UpperChar(c)
  {
  }

  /** Two texts that differ in case only. */
  predicate SameButForCase(s: string, t: string) {
    |s| == |t| && forall i | 0 <= i < |s| :: LowerChar(s[i]) == LowerChar(t[i])
  }

  /** Normalising leaves no small letter and no blank at either end, changes nothing but
      case and those blanks, and sees no difference between texts that differ in case. */
  lemma NormMeaning(s: string)
    ensures forall i | 0 <= i < |Norm(s)| :: !('a' <= Norm(s)[i] <= 'z')
    ensures SameButForCase(Norm(s), Strip(s))
    ensures forall t | SameButForCase(Strip(s), Strip(t)) :: Norm(t) == Norm(s)
    ensures Norm(s) != "" ==> !IsBlank(Norm(s)[0]) && !IsBlank(Norm(s)[|Norm(s)| - 1])
  {
    forall c: char ensures !('a' <= UpperChar(c) <= 'z') && LowerChar(UpperChar(c)) == LowerChar(c) && UpperChar(LowerChar(c)) == UpperChar(c) {
      UpperCharMeaning(c);
    }
    forall t | SameButForCase(Strip(s), Strip(t)) ensures Norm(t) == Norm(s) {
      forall i | 0 <= i < |Norm(s)| ensures Norm(t)[i] == Norm(s)[i] {
        assert LowerChar(Strip(s)[i]) == LowerChar(Strip(t)[i]);
      }
    }
    StripEnds(s);
  }

  lemma StripEnds(s: string)
    ensures Strip(s) != "" ==> !IsBlank(Strip(s)[0]) && !IsBlank(Strip(s)[|Strip(s)| - 1])
  {
    var left := StripLeft(s);
    StripLeftMeaning(s);
    StripRightMeaning(left);
    var k :| 0 <= k <= |left| && StripRight(left) == left[..k];
  }

  /** Blanks are spaces, tabs and line ends. */
  lemma NormOfSpx()
    ensures Norm(" \tspx\r\n") == "SPX"
  {
    var s := " \tspx\r\n";
    assert s[1..][1..] == "spx\r\n";
    assert StripLeft(s) == "spx\r\n";
    assert "spx\r\n"[..4] == "spx\r" && "spx\r"[..3] == "spx";
    assert Strip(s) == "spx";
    assert forall i | 0 <= i < 3 :: Upper("spx")[i] == "SPX"[i];
  }
}
