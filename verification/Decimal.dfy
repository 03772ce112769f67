/** Decimal numbers as the program formats and parses them: 32 bits, unsigned. */
module Decimals {
  import opened Wrappers

  const LIMIT := 0x1_0000_0000

  predicate IsDigit(c: char) {
    '0' <= c <= '9'
  }

  function Digit(n: nat): char
    requires n < 10
  {
    '0' + n as char
  }

  function Value(c: char): nat
    requires IsDigit(c)
  {
    (c - '0') as nat
  }

  function Format(n: nat): (s: string)
    ensures s != "" && forall i :: 0 <= i < |s| ==> IsDigit(s[i])
    ensures s[0] == '0' ==> n == 0 && |s| == 1
  {
    if n < 10 then [Digit(n)] else Format(n / 10) + [Digit(n % 10)]
  }

  /** The digits' number, without regard to size. */
  function Number(s: string): Option<nat> {
    if s == "" then Some(0)
    else
      var before := Number(s[..|s| - 1]);
      if before.None? || !IsDigit(s[|s| - 1]) then None else Some(10 * before.value + Value(s[|s| - 1]))
  }

  /** Parsing stops at the empty string, at anything but digits, and above 32 bits. */
  function Parse(s: string): Option<nat> {
    if s == "" then None
    else
      var n := Number(s);
      if n.Some? && n.value < LIMIT then n else None
  }

  lemma {:induction false} NumberOfFormat(n: nat)
    ensures Number(Format(n)) == Some(n)
  {
    if n >= 10 {
      NumberOfFormat(n / 10);
      var s := Format(n / 10) + [Digit(n % 10)];
      assert s[..|s| - 1] == Format(n / 10);
    } else {
      assert [Digit(n)][..0] == "";
    }
  }

  lemma ParseOfFormat(n: nat)
    ensures Parse(Format(n)) == if n < LIMIT then Some(n) else None
  {
    NumberOfFormat(n);
  }

  /** What parses formats back to itself, if and only if it has no leading zero. */
  lemma {:induction false} FormatOfNumber(s: string)
    requires s != "" && Number(s).Some?
    ensures Format(Number(s).value) == s <==> (s[0] != '0' || |s| == 1)
    ensures s[0] != '0' ==> Number(s).value > 0
  {
    var less := s[..|s| - 1];
    if |s| == 1 {
      assert less == "";
      assert s == [s[0]];
    } else {
      FormatOfNumber(less);
      assert s == less + [s[|s| - 1]];
      var n, m := Number(s).value, Number(less).value;
      assert n / 10 == m && n % 10 == Value(s[|s| - 1]);
      if s[0] != '0' {
        assert Format(n) == Format(m) + [Digit(n % 10)];
      }
    }
  }

  lemma FormatOfParse(s: string)
    requires Parse(s).Some?
    ensures Format(Parse(s).value) == s <==> (s[0] != '0' || |s| == 1)
  {
    FormatOfNumber(s);
  }
}
