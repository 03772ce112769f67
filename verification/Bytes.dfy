/** Bytes and big-endian integers, as the wire format uses them. */
module Bytes {

  type Byte = x: int | 0 <= x < 256

  /** 256^n: the number of values an n-byte field can hold. */
  function Pow256(n: nat): (p: nat)
    ensures p > 0
  {
    if n == 0 then 1 else 256 * Pow256(n - 1)
  }

  /** The n lowest bytes of v, most significant first. */
  function PutBE(v: nat, n: nat): (s: seq<Byte>)
    ensures |s| == n
    decreases n
  {
    if n == 0 then [] else PutBE(v / 256, n - 1) + [v % 256]
  }

  function GetBE(s: seq<Byte>): nat {
    if s == [] then 0 else GetBE(s[..|s| - 1]) * 256 + s[|s| - 1]
  }

  lemma {:induction false} GetOfPut(v: nat, n: nat)
    ensures GetBE(PutBE(v, n)) == v % Pow256(n)
    ensures v < Pow256(n) ==> GetBE(PutBE(v, n)) == v
    decreases n
  {
    if n > 0 {
      GetOfPut(v / 256, n - 1);
      var s := PutBE(v, n);
      assert s[..|s| - 1] == PutBE(v / 256, n - 1);
      DivThenMod(v, Pow256(n - 1));
      if v < Pow256(n) {
        assert v / 256 < Pow256(n - 1);
      }
    }
  }

  lemma DivThenMod(v: nat, p: nat)
    requires p > 0
    ensures (v / 256) % p * 256 + v % 256 == v % (256 * p)
  {
    var q, r := v / 256, v % 256;
    var a, b := q / p, q % p;
    assert q == a * p + b;
    assert v == (a * p + b) * 256 + r == a * (256 * p) + (b * 256 + r);
    assert b * 256 + r < 256 * p;
    ModUnique(v, 256 * p, a, b * 256 + r);
  }

  lemma {:induction false} ModUnique(v: nat, m: nat, a: nat, r: nat)
    requires m > 0 && v == a * m + r && r < m
    ensures v % m == r && v / m == a
  {
    var d := v / m - a;
    assert d * m == r - v % m;
    MultipleBetween(d, m);
  }

  /** The only multiple of m strictly between -m and m is zero. */
  lemma MultipleBetween(d: int, m: int)
    requires m > 0
    ensures -m < d * m < m ==> d == 0
  {
    if d > 0 {
      assert d * m >= m;
    } else if d < 0 {
      assert d * m <= -m;
    }
  }

  lemma {:induction false} PutOfGet(s: seq<Byte>)
    ensures GetBE(s) < Pow256(|s|)
    ensures PutBE(GetBE(s), |s|) == s
  {
    if s != [] {
      var t := s[..|s| - 1];
      PutOfGet(t);
      assert GetBE(s) / 256 == GetBE(t) && GetBE(s) % 256 == s[|s| - 1];
      assert s == t + [s[|s| - 1]];
    }
  }
}
