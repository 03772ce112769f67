/**
 What a terminal shows: a log of frames, each of them a piece of the session's
 output stream, and what it means for the log to have no gap or no repeat.
 */
module Pieces {
  import opened Bytes
  import opened Frames

  /** A frame together with the stream offset of its first payload byte. */
  datatype Item = Item(f: Frame, at: nat)
  {
    function End(): nat { at + |f.payload| }
    predicate Resets() { f.typ == SNAPSHOT && f.Reset() }
  }

  /** The payload is a piece of the stream, and the header says which. */
  ghost predicate Piece(i: Item, stream: seq<Byte>) {
    && i.End() <= |stream| && i.f.payload == stream[i.at..i.End()]
    && (i.f.typ == OUTPUT || i.f.typ == SNAPSHOT)
    && (i.f.typ == OUTPUT ==> i.f.seqNo == i.at)
    && (i.f.typ == SNAPSHOT && !i.f.More() ==> i.f.seqNo == i.End())
  }

  ghost predicate AllPieces(q: seq<Item>, stream: seq<Byte>) {
    forall i :: i in q ==> Piece(i, stream)
  }

  function Max(a: nat, b: nat): nat { if a < b then b else a }

  function Init(l: seq<Item>): seq<Item>
    requires l != []
  {
    l[..|l| - 1]
  }

  function Final(l: seq<Item>): Item
    requires l != []
  {
    l[|l| - 1]
  }

  /** Where the last frame of the log ended; base when there is none. */
  function End(l: seq<Item>, base: nat): nat {
    if l == [] then base else Final(l).End()
  }

  /** The furthest offset reached since the last reset. */
  function Reach(l: seq<Item>, base: nat): nat {
    if l == [] then base
    else if Final(l).Resets() then Final(l).End()
    else Max(Reach(Init(l), base), Final(l).End())
  }

  /** Where what is on the screen begins: at the last reset, or at base. */
  function Start(l: seq<Item>, base: nat): nat {
    if l == [] then base
    else if Final(l).Resets() then Final(l).at
    else Start(Init(l), base)
  }

  /** The bytes written to the terminal since the last reset. */
  function Screen(l: seq<Item>): seq<Byte> {
    if l == [] then []
    else if Final(l).Resets() then Final(l).f.payload
    else Screen(Init(l)) + Final(l).f.payload
  }

  /** Offset o is among the bytes written since the last reset. */
  predicate Shows(l: seq<Item>, o: nat) {
    l != [] && (Final(l).at <= o < Final(l).End() || (!Final(l).Resets() && Shows(Init(l), o)))
  }

  /** No frame starts beyond everything shown before it. */
  predicate NoGap(l: seq<Item>, base: nat) {
    l == [] || (NoGap(Init(l), base) && (Final(l).Resets() || Final(l).at <= Reach(Init(l), base)))
  }

  /** Every frame starts exactly where the one before it ended. */
  predicate Exact(l: seq<Item>, base: nat) {
    l == [] || (Exact(Init(l), base) && (Final(l).Resets() || Final(l).at == End(Init(l), base)))
  }

  /** Meaning of NoGap: every byte between the start and the reach was written. */
  lemma {:induction false} NoGapShowsAll(l: seq<Item>, base: nat, o: nat)
    requires NoGap(l, base) && Start(l, base) <= o < Reach(l, base)
    ensures Shows(l, o)
  {
    if l != [] && !(Final(l).at <= o < Final(l).End()) {
      NoGapShowsAll(Init(l), base, o);
    }
  }

  /** Meaning of Exact: the screen is one piece of the stream, byte for byte. */
  lemma {:induction false} ExactIsStream(l: seq<Item>, base: nat, stream: seq<Byte>)
    requires Exact(l, base) && AllPieces(l, stream)
    requires l == [] ==> base <= |stream|
    ensures Start(l, base) <= End(l, base) <= |stream|
    ensures Screen(l) == stream[Start(l, base)..End(l, base)]
    ensures Reach(l, base) == End(l, base)
  {
    if l != [] {
      assert Piece(Final(l), stream);
      if !Final(l).Resets() {
        ExactIsStream(Init(l), base, stream);
        var s, m, e := Start(l, base), Final(l).at, End(l, base);
        assert stream[s..e] == stream[s..m] + stream[m..e];
      }
    }
  }

  lemma {:induction false} PrefixesToo(l: seq<Item>, q: seq<Item>, base: nat)
    ensures NoGap(l + q, base) ==> NoGap(l, base)
    ensures Exact(l + q, base) ==> Exact(l, base)
  {
    if q == [] {
      assert l + q == l;
    } else {
      assert Init(l + q) == l + Init(q);
      PrefixesToo(l, Init(q), base);
    }
  }

  lemma Push(l: seq<Item>, i: Item, base: nat)
    ensures Init(l + [i]) == l && Final(l + [i]) == i
    ensures End(l + [i], base) == i.End()
    ensures Reach(l + [i], base) == if i.Resets() then i.End() else Max(Reach(l, base), i.End())
    ensures NoGap(l + [i], base) <==> NoGap(l, base) && (i.Resets() || i.at <= Reach(l, base))
    ensures Exact(l + [i], base) <==> Exact(l, base) && (i.Resets() || i.at == End(l, base))
  {
    assert Init(l + [i]) == l;
  }

  /** Without a reset, what follows can only extend the reach. */
  lemma {:induction false} ReachGrows(l: seq<Item>, q: seq<Item>, base: nat)
    requires forall i :: i in q ==> !i.Resets()
    ensures Reach(l + q, base) >= Reach(l, base)
  {
    if q == [] {
      assert l + q == l;
    } else {
      assert l + q == (l + Init(q)) + [Final(q)];
      Push(l + Init(q), Final(q), base);
      ReachGrows(l, Init(q), base);
    }
  }

  // ---- chains of frames ---------------------------------------------------------

  /** Output frames that carry the stream from one offset to another. */
  ghost predicate OutChain(q: seq<Item>, from: nat, to: nat) {
    if q == [] then from == to
    else q[0].f.typ == OUTPUT && q[0].at == from == q[0].f.seqNo && OutChain(q[1..], q[0].End(), to)
  }

  /** The frames of one snapshot message: contiguous, ended by the one without More. */
  ghost predicate SnapChain(q: seq<Item>, from: nat, to: nat) {
    && q != []
    && q[0].f.typ == SNAPSHOT && q[0].at == from && q[0].f.seqNo == to
    && (q[0].f.More() <==> |q| > 1)
    && (|q| == 1 ==> q[0].End() == to)
    && (|q| > 1 ==> !q[1].Resets() && SnapChain(q[1..], q[0].End(), to))
  }

  /** Frames, in order, of the bytes from offset at on. */
  function Tag(fs: seq<Frame>, at: nat): (q: seq<Item>)
    ensures |q| == |fs|
  {
    if fs == [] then [] else [Item(fs[0], at)] + Tag(fs[1..], at + |fs[0].payload|)
  }

  lemma {:induction false} ChunkedOutput(sid: nat, stream: seq<Byte>, a: nat, b: nat)
    requires a <= b <= |stream|
    ensures var q := Tag(Chunks(OUTPUT, sid, a, stream[a..b], 0), a);
      OutChain(q, a, b) && AllPieces(q, stream)
    decreases b - a
  {
    var fs := Chunks(OUTPUT, sid, a, stream[a..b], 0);
    var q := Tag(fs, a);
    if b - a <= MAX_PAYLOAD {
      assert fs[1..] == [] && q[1..] == [];
    } else {
      var m := a + MAX_PAYLOAD;
      assert stream[a..b][..MAX_PAYLOAD] == stream[a..m] && stream[a..b][MAX_PAYLOAD..] == stream[m..b];
      ChunkedOutput(sid, stream, m, b);
      assert fs[1..] == Chunks(OUTPUT, sid, m, stream[m..b], 0);
      assert q[1..] == Tag(fs[1..], m) && q == [q[0]] + q[1..];
    }
  }

  lemma {:induction false} ChunkedSnapshot(sid: nat, stream: seq<Byte>, a: nat, b: nat, flags: Byte)
    requires a <= b <= |stream| && !Bit0(flags)
    ensures var q := Tag(Chunks(SNAPSHOT, sid, b, stream[a..b], flags), a);
      SnapChain(q, a, b) && AllPieces(q, stream) && (q[0].Resets() <==> Bit0(flags / 2))
    decreases b - a
  {
    var fs := Chunks(SNAPSHOT, sid, b, stream[a..b], flags);
    var q := Tag(fs, a);
    if b - a <= MAX_PAYLOAD {
      assert fs[1..] == [] && q[1..] == [];
    } else {
      var m := a + MAX_PAYLOAD;
      assert stream[a..b][..MAX_PAYLOAD] == stream[a..m] && stream[a..b][MAX_PAYLOAD..] == stream[m..b];
      ChunkedSnapshot(sid, stream, m, b, 0);
      assert fs[1..] == Chunks(SNAPSHOT, sid, b, stream[m..b], 0);
      assert q[1..] == Tag(fs[1..], m) && q == [q[0]] + q[1..];
    }
  }

  /** The Output bytes in a queue, in order. */
  function OutputBytes(q: seq<Item>): seq<Byte> {
    if q == [] then [] else (if q[0].f.typ == OUTPUT then q[0].f.payload else []) + OutputBytes(q[1..])
  }

  lemma {:induction false} OutputBytesJoin(p: seq<Item>, q: seq<Item>)
    ensures OutputBytes(p + q) == OutputBytes(p) + OutputBytes(q)
  {
    if p == [] {
      assert p + q == q;
    } else {
      assert (p + q)[1..] == p[1..] + q;
      OutputBytesJoin(p[1..], q);
    }
  }

  lemma {:induction false} OutChainBytes(q: seq<Item>, from: nat, to: nat, stream: seq<Byte>)
    requires OutChain(q, from, to) && AllPieces(q, stream) && from <= |stream|
    ensures from <= to <= |stream| && OutputBytes(q) == stream[from..to]
  {
    if q != [] {
      assert Piece(q[0], stream);
      OutChainBytes(q[1..], q[0].End(), to, stream);
      assert stream[from..to] == stream[from..q[0].End()] + stream[q[0].End()..to];
    }
  }

  lemma {:induction false} SnapChainBytes(q: seq<Item>, from: nat, to: nat)
    requires SnapChain(q, from, to)
    ensures OutputBytes(q) == []
  {
    if |q| > 1 {
      SnapChainBytes(q[1..], q[0].End(), to);
    } else {
      assert q[1..] == [];
    }
  }

  lemma {:induction false} OutChainJoins(p: seq<Item>, q: seq<Item>, a: nat, b: nat, c: nat)
    requires OutChain(p, a, b) && OutChain(q, b, c)
    ensures OutChain(p + q, a, c)
  {
    if p == [] {
      assert p + q == q;
    } else {
      assert (p + q)[1..] == p[1..] + q;
      OutChainJoins(p[1..], q, p[0].End(), b, c);
    }
  }

  /**
   Exactly when a snapshot that starts at offset from continues a terminal's
   log, whoever asked for it: it resets, or it does not start beyond what the
   terminal reached; and it repeats nothing just when it starts at its end.
   */
  lemma {:induction false} SnapshotJoins(l: seq<Item>, q: seq<Item>, from: nat, to: nat, base: nat)
    requires SnapChain(q, from, to)
    ensures NoGap(l + q, base) <==> NoGap(l, base) && (q[0].Resets() || from <= Reach(l, base))
    ensures Exact(l + q, base) <==> Exact(l, base) && (q[0].Resets() || from == End(l, base))
    ensures End(l + q, base) == to && Reach(l + q, base) >= to
    decreases |q|
  {
    Push(l, q[0], base);
    if |q| == 1 {
      assert q == [q[0]];
    } else {
      assert l + q == (l + [q[0]]) + q[1..];
      SnapshotJoins(l + [q[0]], q[1..], q[0].End(), to, base);
    }
  }

  /** Where a screen begins after a snapshot: at its start if it resets, and otherwise where it did. */
  lemma {:induction false} SnapshotStarts(l: seq<Item>, q: seq<Item>, from: nat, to: nat, base: nat)
    requires SnapChain(q, from, to)
    ensures Start(l + q, base) == if q[0].Resets() then from else Start(l, base)
    decreases |q|
  {
    Push(l, q[0], base);
    assert Start(l + [q[0]], base) == if q[0].Resets() then from else Start(l, base);
    if |q| == 1 {
      assert q == [q[0]];
    } else {
      assert l + q == (l + [q[0]]) + q[1..];
      SnapshotStarts(l + [q[0]], q[1..], q[0].End(), to, base);
    }
  }
}
