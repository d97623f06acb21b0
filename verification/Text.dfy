/** ASCII text, as Python's str methods treat it. */
module Text {

  function LowerChar(c: char): char { if 'A' <= c <= 'Z' then c + 32 as char else c }

  function Lower(s: string): (r: string)
    ensures |r| == |s| && forall i :: 0 <= i < |s| ==> r[i] == LowerChar(s[i])
  {
    seq(|s|, i requires 0 <= i < |s| => LowerChar(s[i]))
  }

  function UpperChar(c: char): char { if 'a' <= c <= 'z' then c - 32 as char else c }

  function Upper(s: string): (r: string)
    ensures |r| == |s| && forall i :: 0 <= i < |s| ==> r[i] == UpperChar(s[i])
  {
    seq(|s|, i requires 0 <= i < |s| => UpperChar(s[i]))
  }

  lemma LowerTwice(s: string)
    ensures Lower(Lower(s)) == Lower(s)
  {
  }

  /** What `str.strip` removes and `\s` matches. */
  predicate IsSpace(c: char) { c == ' ' || 9 as char <= c <= 13 as char || 28 as char <= c <= 31 as char }

  function LStrip(s: string): string { if s != "" && IsSpace(s[0]) then LStrip(s[1..]) else s }

  function RStrip(s: string): string { if s != "" && IsSpace(s[|s| - 1]) then RStrip(s[..|s| - 1]) else s }

  function Strip(s: string): string { RStrip(LStrip(s)) }

  // ---- decimal numerals ----

  predicate IsDigit(c: char) { '0' <= c <= '9' }

  /** `str.isdigit`, on ASCII. */
  predicate AllDigits(s: string) { s != "" && forall i :: 0 <= i < |s| ==> IsDigit(s[i]) }

  function Digit(d: nat): (c: char)
    requires d < 10
    ensures IsDigit(c) && c as int - '0' as int == d
  {
    '0' + d as char
  }

  function Dec(n: nat): string { if n < 10 then [Digit(n)] else Dec(n / 10) + [Digit(n % 10)] }

  function DigitValue(c: char): nat
    requires IsDigit(c)
  {
    c as int - '0' as int
  }

  function Value(s: string): nat
    requires forall i :: 0 <= i < |s| ==> IsDigit(s[i])
    decreases |s|
  {
    if s == "" then 0 else Value(s[..|s| - 1]) * 10 + DigitValue(s[|s| - 1])
  }

  /** A numeral reads back as the number it was written for. */
  lemma {:induction false} DecReadsBack(n: nat)
    ensures AllDigits(Dec(n)) && Value(Dec(n)) == n
  {
    if n >= 10 {
      DecReadsBack(n / 10);
      var s := Dec(n);
      assert s[..|s| - 1] == Dec(n / 10);
    } else {
      assert Dec(n)[..0] == "";
    }
  }

  predicate Canonical(s: string) { AllDigits(s) && (s[0] != '0' || |s| == 1) }

  lemma {:induction false} DecIsCanonical(n: nat)
    ensures Canonical(Dec(n)) && (Dec(n)[0] == '0' ==> n == 0)
  {
    DecReadsBack(n);
    if n >= 10 { DecIsCanonical(n / 10); }
  }

  /** The numeral written for a value is the one it was read from, if that had no leading zero. */
  lemma {:induction false} ValueWritesBack(s: string)
    requires Canonical(s)
    ensures Dec(Value(s)) == s && (s[0] != '0' ==> Value(s) > 0)
    decreases |s|
  {
    var init, last := s[..|s| - 1], s[|s| - 1];
    if init == "" {
      assert s == [last];
      assert Value(s[..0]) == 0;
      assert Digit(Value(s)) == last;
    } else {
      ValueWritesBack(init);
      assert Value(s) / 10 == Value(init) && Value(s) % 10 == DigitValue(last);
      assert Digit(Value(s) % 10) == last;
      assert s == init + [last];
    }
  }
}
