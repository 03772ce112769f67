/**
 The scrollback ring: a fixed array that represents the last bytes of an
 unbounded output stream, addressed by absolute stream offset.
 */
module RingBuffer {
  import opened Bytes

  function Min(a: int, b: int): int { if a < b then a else b }

  /** The last k bytes of a stream. */
  function Last(s: seq<Byte>, k: nat): (r: seq<Byte>)
    requires k <= |s|
    ensures |r| == k
  {
    s[|s| - k..]
  }

  /** Whether a ring of capacity c still covers the stream from offset l on. */
  predicate Retains(stream: seq<Byte>, c: nat, l: nat) {
    |stream| - Min(|stream|, c) <= l <= |stream|
  }

  function Wrap(i: nat, c: nat): (r: nat)
    requires c > 0 && i < 2 * c
    ensures r < c
  {
    if i < c then i else i - c
  }

  /** How far index j lies after index at, going round a buffer of size c. */
  function Ahead(j: nat, at: nat, c: nat): (d: nat)
    requires j < c && at < c
    ensures d < c
  {
    if at <= j then j - at else j - at + c
  }

  /** The source reduces every index with %; all of them are below 2c. */
  method Index(i: nat, c: nat) returns (r: nat)
    requires c > 0 && i < 2 * c
    ensures r == Wrap(i, c)
  {
    ModUnique(i, c, if i < c then 0 else 1, Wrap(i, c));
    r := i % c;
  }

  /** Read round the end from index start on, the circular buffer b holds h. */
  ghost predicate Holds(b: seq<Byte>, start: nat, h: seq<Byte>) {
    && start < |b| && |h| <= |b|
    && forall i :: 0 <= i < |h| ==> h[i] == b[Wrap(start + i, |b|)]
  }

  lemma HoldsItself(b: seq<Byte>)
    requires |b| > 0
    ensures Holds(b, 0, b)
  {
  }

  /** b' is b with p written over it, from index at on and round the end. */
  ghost predicate Placed(b: seq<Byte>, b': seq<Byte>, at: nat, p: seq<Byte>) {
    && |b'| == |b| && at < |b| && |p| <= |b|
    && forall j :: 0 <= j < |b| ==>
      b'[j] == if Ahead(j, at, |b|) < |p| then p[Ahead(j, at, |b|)] else b[j]
  }

  /**
   Writing p behind the held bytes, and dropping the oldest k when they no
   longer all fit, leaves the last bytes of both.
   */
  lemma PlacedBehind(b: seq<Byte>, b': seq<Byte>, start: nat, h: seq<Byte>, p: seq<Byte>, k: nat)
    requires Holds(b, start, h) && |p| < |b|
    requires Placed(b, b', Wrap(start + |h|, |b|), p)
    requires k == if |h| + |p| > |b| then |h| + |p| - |b| else 0
    ensures Holds(b', Wrap(start + k, |b|), (h + p)[k..])
  {
    var c := |b|;
    var r := (h + p)[k..];
    forall i | 0 <= i < |r| ensures r[i] == b'[Wrap(Wrap(start + k, c) + i, c)] {
      var j := Wrap(Wrap(start + k, c) + i, c);
      if k + i < |h| {
        assert j == Wrap(start + k + i, c);
        assert Ahead(j, Wrap(start + |h|, c), c) >= |p|;
      } else {
        assert Ahead(j, Wrap(start + |h|, c), c) == k + i - |h|;
      }
    }
  }

  /** The last k held bytes, copied in at most two pieces. */
  lemma CopiedInTwo(b: seq<Byte>, start: nat, h: seq<Byte>, k: nat, from: nat, first: nat)
    requires Holds(b, start, h) && 0 < k <= |h|
    requires from == Wrap(start + |h| - k, |b|) && first == Min(|b| - from, k)
    ensures b[from..from + first] + b[..k - first] == Last(h, k)
  {
    var l, r := b[from..from + first] + b[..k - first], Last(h, k);
    forall i | 0 <= i < k ensures l[i] == r[i] {
      assert r[i] == h[|h| - k + i];
    }
  }

  lemma LastOfLast(s: seq<Byte>, n: nat, k: nat)
    requires k <= n <= |s|
    ensures Last(Last(s, n), k) == Last(s, k)
  {
  }

  lemma LastOfBoth(s: seq<Byte>, n: nat, p: seq<Byte>, k: nat)
    requires n <= |s| && k <= n + |p|
    ensures (Last(s, n) + p)[k..] == Last(s + p, n + |p| - k)
  {
  }

  class Ring {
    const buf: array<Byte>
    var start: nat
    var n: nat
    var seqNo: nat
    ghost var stream: seq<Byte>

    /** The ring represents exactly the last min(total, capacity) bytes written. */
    ghost predicate Valid()
      reads this, buf
    {
      && 0 < buf.Length
      && seqNo == |stream|
      && n == Min(|stream|, buf.Length)
      && Holds(buf[..], start, Last(stream, n))
    }

    constructor (capacity: nat)
      requires capacity > 0
      ensures Valid() && fresh(buf)
      ensures buf.Length == capacity && stream == []
    {
      buf := new Byte[capacity](_ => 0);
      start, n, seqNo := 0, 0, 0;
      stream := [];
    }

    /** Go's copy(buf[at:], p): as much of p as fits, and how much that was. */
    method CopyIn(at: nat, p: seq<Byte>) returns (k: nat)
      requires at <= buf.Length
      modifies buf
      ensures k == Min(buf.Length - at, |p|)
      ensures forall i :: 0 <= i < buf.Length ==>
        buf[i] == if at <= i < at + k then p[i - at] else old(buf[i])
    {
      k := if buf.Length - at < |p| then buf.Length - at else |p|;
      forall i | 0 <= i < k {
        buf[at + i] := p[i];
      }
    }

    /** Both copies of a write that is shorter than the buffer. */
    method Place(at: nat, p: seq<Byte>)
      requires at < buf.Length && |p| < buf.Length
      modifies buf
      ensures Placed(old(buf[..]), buf[..], at, p)
    {
      var first := CopyIn(at, p);
      if first < |p| {
        var _ := CopyIn(0, p[first..]);
      }
    }

    method Write(p: seq<Byte>) returns (startSeq: nat)
      requires Valid()
      modifies this, buf
      ensures Valid()
      ensures stream == old(stream) + p
      ensures startSeq == |old(stream)|
    {
      startSeq := seqNo;
      if |p| >= buf.Length {
        WriteLong(p);
      } else {
        WriteShort(p);
      }
    }

    /** Only the tail of p survives; the ring becomes exactly full. */
    method WriteLong(p: seq<Byte>)
      requires Valid() && |p| >= buf.Length
      modifies this, buf
      ensures Valid()
      ensures stream == old(stream) + p
    {
      var c := buf.Length;
      seqNo := seqNo + |p|;
      stream := stream + p;
      var _ := CopyIn(0, p[|p| - c..]);
      start := 0;
      n := c;
      ghost var b := buf[..];
      HoldsItself(b);
      assert Last(stream, c) == b;
    }

    method WriteShort(p: seq<Byte>)
      requires Valid() && |p| < buf.Length
      modifies this, buf
      ensures Valid()
      ensures stream == old(stream) + p
    {
      var c := buf.Length;
      ghost var k := if n + |p| > c then n + |p| - c else 0;
      ghost var b, h, st := buf[..], Last(stream, n), start;
      LastOfBoth(stream, n, p, k);
      seqNo := seqNo + |p|;
      var end := Index(start + n, c);
      Place(end, p);
      ghost var b' := buf[..];
      PlacedBehind(b, b', st, h, p, k);
      stream := stream + p;
      if n + |p| > c {
        var overflow := n + |p| - c;
        start := Index(start + overflow, c);
        n := c;
      } else {
        n := n + |p|;
      }
      assert buf[..] == b' && start == Wrap(st + k, c);
      assert Last(stream, n) == (h + p)[k..];
    }

    /** The last max bytes, or all of them, with the offset of their end. */
    method Tail(max: int) returns (data: seq<Byte>, endSeq: nat)
      requires Valid()
      ensures data == Last(stream, if max < 0 then 0 else Min(max, n))
      ensures endSeq == |stream|
    {
      var k := max;
      if k > n {
        k := n;
      }
      if k < 0 {
        k := 0;
      }
      data := CopyLast(k);
      endSeq := seqNo;
    }

    /** Everything from offset lastSeq on, exactly when the ring still covers it. */
    method Delta(lastSeq: nat) returns (data: seq<Byte>, ok: bool)
      requires Valid()
      ensures ok <==> Retains(stream, buf.Length, lastSeq)
      ensures data == if ok then stream[lastSeq..] else []
    {
      var oldest := seqNo - n;
      if lastSeq < oldest || lastSeq > seqNo {
        return [], false;
      }
      data := CopyLast(seqNo - lastSeq);
      ok := true;
    }

    method CopyLast(k: nat) returns (out: seq<Byte>)
      requires Valid() && k <= n
      ensures out == Last(stream, k)
    {
      if k == 0 {
        return [];
      }
      var c := buf.Length;
      ghost var b, h := buf[..], Last(stream, n);
      var from := Index(start + n - k, c);
      var first := if c - from < k then c - from else k;
      CopiedInTwo(b, start, h, k, from, first);
      LastOfLast(stream, n, k);
      out := buf[from..from + first];
      assert out == b[from..from + first];
      if first < k {
        out := out + buf[..k - first];
      }
      assert out == b[from..from + first] + b[..k - first];
    }
  }
}
