/**
 Output batching of one session, one call at a time: PTY bytes enter the ring
 and a pending batch, batches leave through OnOutput, and Replay answers an
 attaching client.
 */
module Sessions {
  import opened Bytes
  import opened RingBuffer

  const SNAPSHOT_TAIL := 512 * 1024
  const BATCH_LIMIT := 256 * 1024

  /** One OnOutput callback: data starts at stream offset seqNo. */
  datatype Batch = Batch(seqNo: nat, data: seq<Byte>)

  /** The batches carry stream[from..to), without holes, overlaps or empty calls. */
  ghost predicate Contiguous(bs: seq<Batch>, stream: seq<Byte>, from: nat, to: nat) {
    if bs == [] then from == to <= |stream|
    else
      var b := bs[|bs| - 1];
      && from <= b.seqNo < to <= |stream|
      && b.data == stream[b.seqNo..to]
      && Contiguous(bs[..|bs| - 1], stream, from, b.seqNo)
  }

  function Joined(bs: seq<Batch>): seq<Byte> {
    if bs == [] then [] else Joined(bs[..|bs| - 1]) + bs[|bs| - 1].data
  }

  /** Contiguity as a client sees it: what was handed over is exactly the stream. */
  lemma {:induction false} ContiguousIsStream(bs: seq<Batch>, stream: seq<Byte>, from: nat, to: nat)
    requires Contiguous(bs, stream, from, to)
    ensures from <= to <= |stream| && Joined(bs) == stream[from..to]
  {
    if bs != [] {
      var b := bs[|bs| - 1];
      ContiguousIsStream(bs[..|bs| - 1], stream, from, b.seqNo);
      assert stream[from..to] == stream[from..b.seqNo] + stream[b.seqNo..to];
    }
  }

  lemma {:induction false} ContiguousGrows(bs: seq<Batch>, stream: seq<Byte>, more: seq<Byte>, from: nat, to: nat)
    requires Contiguous(bs, stream, from, to)
    ensures Contiguous(bs, stream + more, from, to)
  {
    if bs != [] {
      var b := bs[|bs| - 1];
      ContiguousGrows(bs[..|bs| - 1], stream, more, from, b.seqNo);
      assert (stream + more)[b.seqNo..to] == stream[b.seqNo..to];
    }
  }

  /** The OnOutput call, if any, that delivers a pending batch ending at offset end. */
  function Handover(pending: seq<Byte>, end: nat): seq<Batch>
    requires |pending| <= end
  {
    if pending == [] then [] else [Batch(end - |pending|, pending)]
  }

  /** A tail of n bytes is all that was written, as far as a snapshot and a ring of this capacity allow. */
  predicate FullTail(n: nat, written: nat, cap: nat) {
    n <= written && n <= SNAPSHOT_TAIL && n <= cap && (n == written || n == SNAPSHOT_TAIL || n == cap)
  }

  /** What a client that has seen everything up to lastSeq gets to see. */
  function ReplayDelta(stream: seq<Byte>, cap: nat, lastSeq: nat): (r: (seq<Byte>, bool))
    ensures |r.0| <= |stream| && r.0 == stream[|stream| - |r.0|..]
    ensures r.1 <==> |stream| - cap <= lastSeq <= |stream|
    ensures r.1 ==> |stream| - |r.0| == lastSeq
    ensures !r.1 ==> FullTail(|r.0|, |stream|, cap)
  {
    if Retains(stream, cap, lastSeq) then (stream[lastSeq..], true)
    else (Last(stream, Min(SNAPSHOT_TAIL, Min(|stream|, cap))), false)
  }

  lemma LastOfMore(stream: seq<Byte>, pending: seq<Byte>, data: seq<Byte>)
    requires |pending| <= |stream| && pending == Last(stream, |pending|)
    ensures pending + data == Last(stream + data, |pending + data|)
  {
  }

  class Session {
    const ring: Ring
    const seeded: nat // bytes put into the ring from captured scrollback, never delivered
    var pending: seq<Byte>
    var pendingSeq: nat
    var flushTimer: bool
    var output: seq<Batch> // the calls of OnOutput so far

    ghost predicate Valid()
      reads this, ring, ring.buf
    {
      && ring.Valid()
      && seeded + |pending| <= |ring.stream|
      && pending == Last(ring.stream, |pending|)
      && (pending != [] ==> pendingSeq == |ring.stream| - |pending| && flushTimer)
      && Contiguous(output, ring.stream, seeded, |ring.stream| - |pending|)
    }

    constructor (ringSize: nat, scrollback: seq<Byte>)
      requires ringSize > 0
      ensures Valid() && fresh(ring) && fresh(ring.buf)
      ensures ring.stream == scrollback && ring.buf.Length == ringSize
      ensures seeded == |scrollback| && pending == [] && output == [] && !flushTimer
    {
      var r := new Ring(ringSize);
      var _ := r.Write(scrollback);
      ring := r;
      seeded := |scrollback|;
      pending, pendingSeq, flushTimer, output := [], 0, false, [];
    }

    method Emit(data: seq<Byte>)
      requires Valid()
      modifies this, ring, ring.buf
      ensures Valid()
      ensures ring.stream == old(ring.stream) + data
      ensures var p := old(pending) + data;
        if |p| >= BATCH_LIMIT
        then pending == [] && !flushTimer && output == old(output) + Handover(p, |ring.stream|)
        else pending == p && flushTimer && output == old(output)
    {
      var big := Append(data);
      if big {
        Flush();
      }
    }

    /** The part of Emit under the session lock. */
    method Append(data: seq<Byte>) returns (big: bool)
      requires Valid()
      modifies this`pending, this`pendingSeq, this`flushTimer, ring, ring.buf
      ensures Valid()
      ensures ring.stream == old(ring.stream) + data
      ensures pending == old(pending) + data && flushTimer
      ensures big <==> |pending| >= BATCH_LIMIT
    {
      ContiguousGrows(output, ring.stream, data, seeded, |ring.stream| - |pending|);
      LastOfMore(ring.stream, pending, data);
      var start := ring.Write(data);
      if |pending| == 0 {
        pendingSeq := start;
      }
      pending := pending + data;
      big := |pending| >= BATCH_LIMIT;
      if !flushTimer {
        flushTimer := true;
      }
    }

    method Flush()
      requires Valid()
      modifies this
      ensures Valid()
      ensures pending == [] && !flushTimer
      ensures output == old(output) + Handover(old(pending), |ring.stream|)
    {
      flushTimer := false;
      var data, seqNo := pending, pendingSeq;
      pending := [];
      if |data| == 0 {
        return;
      }
      output := output + [Batch(seqNo, data)];
      assert data == ring.stream[seqNo..|ring.stream|];
    }

    /** Nothing can interleave here: the reply then starts where output stopped. */
    method Replay(lastSeq: nat) returns (data: seq<Byte>, endSeq: nat, delta: bool)
      requires Valid()
      modifies this
      ensures Valid()
      ensures pending == [] && Contiguous(output, ring.stream, seeded, |ring.stream|)
      ensures output == old(output) + Handover(old(pending), |ring.stream|)
      ensures (data, delta) == ReplayDelta(ring.stream, ring.buf.Length, lastSeq)
      ensures endSeq == |ring.stream| && |data| <= endSeq && data == ring.stream[endSeq - |data|..]
      ensures delta <==> endSeq - ring.buf.Length <= lastSeq <= endSeq
      ensures if delta then endSeq - |data| == lastSeq else FullTail(|data|, endSeq, ring.buf.Length)
    {
      Flush();
      var d, ok := ring.Delta(lastSeq);
      if ok {
        return d, lastSeq + |d|, true;
      }
      var tail, end := ring.Tail(SNAPSHOT_TAIL);
      return tail, end, false;
    }
  }
}
