/** The binary data plane: the 18-byte frame header, its codec, and chunking. */
module Frames {
  import opened Bytes

  const VERSION: Byte := 1
  const HEADER_SIZE := 18
  const MAX_PAYLOAD := 65535

  const OUTPUT: Byte := 1
  const INPUT: Byte := 2
  const RESIZE: Byte := 3
  const SNAPSHOT: Byte := 4
  const EOF: Byte := 5
  const ACK: Byte := 6

  const FLAG_MORE: Byte := 1
  const FLAG_RESET: Byte := 2

  datatype Error = Short | Version | Length | PayloadBig | BadPayload
  datatype Result<T> = Ok(value: T) | Err(error: Error)

  datatype Frame = Frame(typ: Byte, flags: Byte, sid: nat, seqNo: nat, payload: seq<Byte>)
  {
    /** The field widths of the header: sid is a u32 and seq a u64. */
    predicate OnWire() {
      sid < Pow256(4) && seqNo < Pow256(8)
    }

    predicate More() { Bit0(flags / FLAG_MORE) }
    predicate Reset() { Bit0(flags / FLAG_RESET) }
  }

  predicate Bit0(x: Byte) { x % 2 == 1 }

  /** flags | FlagMore */
  function SetMore(flags: Byte): (r: Byte)
    ensures Bit0(r) && r / 2 == flags / 2
  {
    if Bit0(flags) then flags else flags + FLAG_MORE
  }

  // ---- codec ---------------------------------------------------------------

  function Encode(f: Frame): Result<seq<Byte>> {
    if |f.payload| > MAX_PAYLOAD then Err(PayloadBig)
    else Ok(Header(f) + f.payload)
  }

  function Header(f: Frame): (h: seq<Byte>)
    ensures |h| == HEADER_SIZE
  {
    [VERSION, f.typ, f.flags, 0] + PutBE(f.sid, 4) + PutBE(f.seqNo, 8) + PutBE(|f.payload|, 2)
  }

  /** binary.BigEndian.PutUintN into b[at:at+width]. */
  method PutInto(b: array<Byte>, at: nat, width: nat, v: nat)
    requires at + width <= b.Length
    modifies b
    ensures b[..] == old(b[..at]) + PutBE(v, width) + old(b[at + width..])
  {
    var s := PutBE(v, width);
    forall i | 0 <= i < width {
      b[at + i] := s[i];
    }
  }

  method Marshal(f: Frame) returns (r: Result<seq<Byte>>)
    ensures r == Encode(f)
  {
    if |f.payload| > MAX_PAYLOAD {
      return Err(PayloadBig);
    }
    var b := new Byte[HEADER_SIZE + |f.payload|](_ => 0);
    b[0] := VERSION;
    b[1] := f.typ;
    b[2] := f.flags;
    b[3] := 0;
    assert b[..4] == [VERSION, f.typ, f.flags, 0];
    PutInto(b, 4, 4, f.sid);
    assert b[..8] == [VERSION, f.typ, f.flags, 0] + PutBE(f.sid, 4);
    PutInto(b, 8, 8, f.seqNo);
    assert b[..16] == [VERSION, f.typ, f.flags, 0] + PutBE(f.sid, 4) + PutBE(f.seqNo, 8);
    PutInto(b, 16, 2, |f.payload|);
    assert b[..HEADER_SIZE] == Header(f);
    forall i | 0 <= i < |f.payload| {
      b[HEADER_SIZE + i] := f.payload[i];
    }
    assert b[..] == Header(f) + f.payload;
    return Ok(b[..]);
  }

  function Unmarshal(b: seq<Byte>): Result<Frame> {
    if |b| < HEADER_SIZE then Err(Short)
    else if b[0] != VERSION then Err(Version)
    else
      var n := GetBE(b[16..18]);
      if |b| != HEADER_SIZE + n then Err(Length)
      else Ok(Frame(b[1], b[2], GetBE(b[4..8]), GetBE(b[8..16]), b[HEADER_SIZE..]))
  }

  /** Type and sid, without looking at the payload. */
  function PeekHeader(b: seq<Byte>): Result<(Byte, nat)> {
    if |b| < HEADER_SIZE then Err(Short)
    else if b[0] != VERSION then Err(Version)
    else
      var n := GetBE(b[16..18]);
      if |b| != HEADER_SIZE + n then Err(Length)
      else Ok((b[1], GetBE(b[4..8])))
  }

  lemma FieldSizes()
    ensures Pow256(2) == 65536 && Pow256(4) == 0x1_0000_0000
    ensures Pow256(8) == 0x1_0000_0000_0000_0000
  {
    assert Pow256(1) == 256 && Pow256(3) == 0x100_0000;
    assert Pow256(5) == 0x100_0000_0000 && Pow256(6) == 0x1_0000_0000_0000;
    assert Pow256(7) == 0x100_0000_0000_0000;
  }

  /** Decoding undoes encoding, for every frame that fits its header. */
  lemma UnmarshalOfMarshal(f: Frame)
    requires f.OnWire() && |f.payload| <= MAX_PAYLOAD
    ensures Unmarshal(Encode(f).value) == Ok(f)
  {
    var b := Encode(f).value;
    FieldSizes();
    GetOfPut(f.sid, 4);
    GetOfPut(f.seqNo, 8);
    GetOfPut(|f.payload|, 2);
    FieldsOfHeader(b, PutBE(f.sid, 4), PutBE(f.seqNo, 8), PutBE(|f.payload|, 2), f);
  }

  lemma FieldsOfHeader(b: seq<Byte>, sid: seq<Byte>, seqNo: seq<Byte>, len: seq<Byte>, f: Frame)
    requires |sid| == 4 && |seqNo| == 8 && |len| == 2
    requires b == [VERSION, f.typ, f.flags, 0] + sid + seqNo + len + f.payload
    ensures |b| == HEADER_SIZE + |f.payload| && b[..3] == [VERSION, f.typ, f.flags]
    ensures b[4..8] == sid && b[8..16] == seqNo && b[16..18] == len && b[18..] == f.payload
  {
  }

  /** What decodes is what some frame encodes to, up to the reserved byte. */
  lemma MarshalOfUnmarshal(b: seq<Byte>)
    requires Unmarshal(b).Ok?
    ensures var f := Unmarshal(b).value;
      f.OnWire() && |f.payload| <= MAX_PAYLOAD && Encode(f) == Ok(b[3 := 0])
  {
    var f := Unmarshal(b).value;
    FieldSizes();
    PutOfGet(b[4..8]);
    PutOfGet(b[8..16]);
    PutOfGet(b[16..18]);
    assert |f.payload| == GetBE(b[16..18]);
    HeaderOfFields(b, f);
  }

  lemma HeaderOfFields(b: seq<Byte>, f: Frame)
    requires |b| >= HEADER_SIZE && b[0] == VERSION && b[1] == f.typ && b[2] == f.flags
    requires PutBE(f.sid, 4) == b[4..8] && PutBE(f.seqNo, 8) == b[8..16]
    requires PutBE(|f.payload|, 2) == b[16..18] && b[18..] == f.payload
    ensures Header(f) + f.payload == b[3 := 0]
  {
    assert b[3 := 0] == [VERSION, f.typ, f.flags, 0] + b[4..8] + b[8..16] + b[16..18] + b[18..];
  }

  /** The relay, which only peeks, rejects exactly what the endpoints reject. */
  lemma PeekAgrees(b: seq<Byte>)
    ensures PeekHeader(b).Ok? <==> exists f: Frame ::
      f.OnWire() && |f.payload| <= MAX_PAYLOAD && |b| >= HEADER_SIZE && Encode(f) == Ok(b[3 := 0])
    ensures PeekHeader(b).Ok? ==>
      Unmarshal(b).Ok? && PeekHeader(b).value == (Unmarshal(b).value.typ, Unmarshal(b).value.sid)
  {
    if PeekHeader(b).Ok? {
      MarshalOfUnmarshal(b);
    }
    forall f: Frame | f.OnWire() && |f.payload| <= MAX_PAYLOAD && |b| >= HEADER_SIZE && Encode(f) == Ok(b[3 := 0])
      ensures PeekHeader(b).Ok?
    {
      UnmarshalOfMarshal(f);
      assert b[16..18] == b[3 := 0][16..18];
    }
  }

  // ---- the browser's mirror of the codec ------------------------------------

  /** DataView.getUint32 / getUint16 / getBigUint64 read at fixed positions. */
  function U16At(b: seq<Byte>, i: nat): nat
    requires i + 2 <= |b|
  {
    b[i] as int * 256 + b[i + 1] as int
  }

  function U32At(b: seq<Byte>, i: nat): nat
    requires i + 4 <= |b|
  {
    U16At(b, i) * 65536 + U16At(b, i + 2)
  }

  function U64At(b: seq<Byte>, i: nat): nat
    requires i + 8 <= |b|
  {
    U32At(b, i) * 0x1_0000_0000 + U32At(b, i + 4)
  }

  function TsDecode(b: seq<Byte>): Result<Frame> {
    if |b| < HEADER_SIZE then Err(Short)
    else if b[0] != VERSION then Err(Version)
    else if |b| != HEADER_SIZE + U16At(b, 16) then Err(Length)
    else Ok(Frame(b[1], b[2], U32At(b, 4), U64At(b, 8), b[HEADER_SIZE..]))
  }

  lemma {:induction false} GetBEJoins(s: seq<Byte>, t: seq<Byte>)
    ensures GetBE(s + t) == GetBE(s) * Pow256(|t|) + GetBE(t)
  {
    if t == [] {
      assert s + t == s;
    } else {
      var t' := t[..|t| - 1];
      GetBEJoins(s, t');
      assert (s + t)[..|s + t| - 1] == s + t';
      ShiftByte(GetBE(s), Pow256(|t'|), GetBE(t'));
    }
  }

  lemma ShiftByte(a: nat, p: nat, g: nat)
    ensures (a * p + g) * 256 == a * (256 * p) + g * 256
  {
  }

  lemma U16Reads(b: seq<Byte>, i: nat)
    requires i + 2 <= |b|
    ensures GetBE(b[i..i + 2]) == U16At(b, i)
  {
    var s := b[i..i + 2];
    assert s[..1] == [b[i]] && [b[i]][..0] == [];
    assert GetBE([b[i]]) == b[i];
  }

  lemma U32Reads(b: seq<Byte>, i: nat)
    requires i + 4 <= |b|
    ensures GetBE(b[i..i + 4]) == U32At(b, i)
  {
    assert b[i..i + 4] == b[i..i + 2] + b[i + 2..i + 4];
    FieldSizes();
    GetBEJoins(b[i..i + 2], b[i + 2..i + 4]);
    U16Reads(b, i);
    U16Reads(b, i + 2);
  }

  /** The browser and the Go side agree on every byte string, errors included. */
  lemma CodecsAgree(b: seq<Byte>)
    ensures TsDecode(b) == Unmarshal(b)
  {
    if |b| >= HEADER_SIZE {
      U16Reads(b, 16);
      U32Reads(b, 4);
      assert b[8..16] == b[8..12] + b[12..16];
      FieldSizes();
      GetBEJoins(b[8..12], b[12..16]);
      U32Reads(b, 8);
      U32Reads(b, 12);
    }
  }

  // ---- small payloads --------------------------------------------------------

  function ResizePayload(cols: nat, rows: nat): seq<Byte> {
    PutBE(cols, 2) + PutBE(rows, 2)
  }

  function ParseResize(p: seq<Byte>): Result<(nat, nat)> {
    if |p| != 4 then Err(BadPayload) else Ok((GetBE(p[..2]), GetBE(p[2..])))
  }

  /** uint32(int32) and back: two's complement. */
  function EOFPayload(code: int): seq<Byte>
    requires -0x8000_0000 <= code < 0x8000_0000
  {
    PutBE(code % 0x1_0000_0000, 4)
  }

  function ParseEOF(p: seq<Byte>): Result<int> {
    if |p| != 4 then Err(BadPayload)
    else
      var u := GetBE(p);
      Ok(if u < 0x8000_0000 then u else u - 0x1_0000_0000)
  }

  lemma ResizeRoundTrip(cols: nat, rows: nat)
    requires cols < 65536 && rows < 65536
    ensures ParseResize(ResizePayload(cols, rows)) == Ok((cols, rows))
  {
    FieldSizes();
    GetOfPut(cols, 2);
    GetOfPut(rows, 2);
    var r := ResizePayload(cols, rows);
    assert r[..2] == PutBE(cols, 2) && r[2..] == PutBE(rows, 2);
  }

  /** Exit codes survive both ways, negative ones included. */
  lemma EOFRoundTrip(code: int, p: seq<Byte>)
    requires -0x8000_0000 <= code < 0x8000_0000
    ensures ParseEOF(EOFPayload(code)) == Ok(code)
    ensures ParseEOF(p).Ok? <==> |p| == 4
    ensures |p| == 4 ==>
      var c := ParseEOF(p).value;
      -0x8000_0000 <= c < 0x8000_0000 && EOFPayload(c) == p
  {
    FieldSizes();
    GetOfPut(code % 0x1_0000_0000, 4);
    if |p| == 4 {
      PutOfGet(p);
      var u, c := GetBE(p), ParseEOF(p).value;
      assert c % 0x1_0000_0000 == u;
    }
  }

  // ---- chunking ----------------------------------------------------------------

  /** The frames of a payload; flags are those of the first one. */
  function Chunks(t: Byte, sid: nat, seqNo: nat, payload: seq<Byte>, flags: Byte): (fs: seq<Frame>)
    ensures fs != []
    decreases |payload|
  {
    if |payload| <= MAX_PAYLOAD then [Frame(t, flags, sid, seqNo, payload)]
    else
      [Frame(t, SetMore(flags), sid, seqNo, payload[..MAX_PAYLOAD])]
      + Chunks(t, sid, if t == OUTPUT then seqNo + MAX_PAYLOAD else seqNo, payload[MAX_PAYLOAD..], 0)
  }

  method Chunk(t: Byte, sid: nat, seqNo: nat, payload: seq<Byte>, extra: Byte) returns (out: seq<Frame>)
    ensures out == Chunks(t, sid, seqNo, payload, extra)
  {
    if |payload| == 0 {
      return [Frame(t, extra, sid, seqNo, [])];
    }
    out := [];
    var off: nat, s: nat := 0, seqNo;
    ghost var all := Chunks(t, sid, seqNo, payload, extra);
    assert payload[0..] == payload;
    while off < |payload|
      invariant off <= |payload|
      invariant off < |payload| ==>
        all == out + Chunks(t, sid, s, payload[off..], if off == 0 then extra else 0)
      invariant off == |payload| ==> all == out
    {
      var end := off + MAX_PAYLOAD;
      if end > |payload| {
        end := |payload|;
      }
      var flags: Byte := if off == 0 then extra else 0;
      ghost var flags0 := flags;
      if end < |payload| {
        flags := SetMore(flags);
      }
      var f := Frame(t, flags, sid, s, payload[off..end]);
      ChunkStep(out, s, payload, off, end, flags0, f);
      out := out + [f];
      if t == OUTPUT {
        s := s + (end - off);
      }
      off := end;
    }
  }

  /** One round of the loop: f is the next chunk of what is left from off on. */
  lemma ChunkStep(out: seq<Frame>, s: nat, payload: seq<Byte>, off: nat, end: nat, flags: Byte, f: Frame)
    requires off < end <= |payload| && end - off == if |payload| - off > MAX_PAYLOAD then MAX_PAYLOAD else |payload| - off
    requires f == Frame(f.typ, if end < |payload| then SetMore(flags) else flags, f.sid, s, payload[off..end])
    ensures end == |payload| ==> out + Chunks(f.typ, f.sid, s, payload[off..], flags) == out + [f]
    ensures end < |payload| ==>
      out + Chunks(f.typ, f.sid, s, payload[off..], flags)
      == out + [f] + Chunks(f.typ, f.sid, if f.typ == OUTPUT then s + (end - off) else s, payload[end..], 0)
  {
    var rest := payload[off..];
    assert rest[..end - off] == payload[off..end] && rest[end - off..] == payload[end..];
    if end == |payload| {
      assert rest == payload[off..end];
    }
  }

  function Payloads(fs: seq<Frame>): seq<Byte> {
    if fs == [] then [] else fs[0].payload + Payloads(fs[1..])
  }

  /** Every frame can be marshalled, and nothing of the payload is lost or moved. */
  lemma {:induction false} ChunksCarryPayload(t: Byte, sid: nat, seqNo: nat, payload: seq<Byte>, flags: Byte)
    ensures var fs := Chunks(t, sid, seqNo, payload, flags);
      && Payloads(fs) == payload
      && forall i :: 0 <= i < |fs| ==> Encode(fs[i]).Ok? && fs[i].typ == t && fs[i].sid == sid
    decreases |payload|
  {
    var fs := Chunks(t, sid, seqNo, payload, flags);
    if |payload| <= MAX_PAYLOAD {
      assert fs[1..] == [] && payload + [] == payload;
    } else {
      ChunksCarryPayload(t, sid, if t == OUTPUT then seqNo + MAX_PAYLOAD else seqNo, payload[MAX_PAYLOAD..], 0);
      assert payload == payload[..MAX_PAYLOAD] + payload[MAX_PAYLOAD..];
    }
  }

  /** Only the last frame ends the message. */
  lemma {:induction false} ChunksMarkTheEnd(t: Byte, sid: nat, seqNo: nat, payload: seq<Byte>, flags: Byte)
    ensures var fs := Chunks(t, sid, seqNo, payload, flags);
      && (forall i :: 0 <= i < |fs| - 1 ==> fs[i].More() && |fs[i].payload| == MAX_PAYLOAD)
      && (fs[|fs| - 1].More() <==> Bit0(flags) && |payload| <= MAX_PAYLOAD)
    decreases |payload|
  {
    if |payload| > MAX_PAYLOAD {
      var seqNo' := if t == OUTPUT then seqNo + MAX_PAYLOAD else seqNo;
      var rest := Chunks(t, sid, seqNo', payload[MAX_PAYLOAD..], 0);
      ChunksMarkTheEnd(t, sid, seqNo', payload[MAX_PAYLOAD..], 0);
      var fs := Chunks(t, sid, seqNo, payload, flags);
      assert forall i :: 0 < i < |fs| ==> fs[i] == rest[i - 1];
    }
  }

  /** Only the first frame can reset; Output offsets are consecutive, others repeat. */
  lemma {:induction false} ChunksPositions(t: Byte, sid: nat, seqNo: nat, payload: seq<Byte>, flags: Byte)
    ensures var fs := Chunks(t, sid, seqNo, payload, flags);
      && fs[0].flags / 2 == flags / 2
      && (forall i :: 0 < i < |fs| ==> !fs[i].Reset())
      && (forall i :: 0 <= i < |fs| ==>
        fs[i].seqNo == if t == OUTPUT then seqNo + i * MAX_PAYLOAD else seqNo)
    decreases |payload|
  {
    if |payload| > MAX_PAYLOAD {
      var seqNo' := if t == OUTPUT then seqNo + MAX_PAYLOAD else seqNo;
      var rest := Chunks(t, sid, seqNo', payload[MAX_PAYLOAD..], 0);
      ChunksPositions(t, sid, seqNo', payload[MAX_PAYLOAD..], 0);
      var fs := Chunks(t, sid, seqNo, payload, flags);
      assert forall i :: 0 < i < |fs| ==> fs[i] == rest[i - 1];
    }
  }

  function EncodeAll(fs: seq<Frame>): seq<Result<seq<Byte>>> {
    seq(|fs|, i requires 0 <= i < |fs| => Encode(fs[i]))
  }

  function PayloadOf(m: Result<seq<Byte>>): seq<Byte> {
    if m.Ok? && Unmarshal(m.value).Ok? then Unmarshal(m.value).value.payload else []
  }

  /** Payload bytes of a list of received messages, in order. */
  function Received(ms: seq<Result<seq<Byte>>>): seq<Byte> {
    if ms == [] then [] else PayloadOf(ms[0]) + Received(ms[1..])
  }

  lemma {:induction false} ReceivedPayloads(fs: seq<Frame>)
    requires forall f :: f in fs ==> f.OnWire() && Encode(f).Ok?
    ensures Received(EncodeAll(fs)) == Payloads(fs)
  {
    if fs != [] {
      UnmarshalOfMarshal(fs[0]);
      assert EncodeAll(fs)[1..] == EncodeAll(fs[1..]);
      ReceivedPayloads(fs[1..]);
    }
  }

  /** Chunk, marshal every frame, unmarshal and join again: the payload is back. */
  lemma PipelineRoundTrip(t: Byte, sid: nat, seqNo: nat, payload: seq<Byte>, flags: Byte)
    requires sid < Pow256(4) && seqNo + |payload| < Pow256(8)
    ensures Received(EncodeAll(Chunks(t, sid, seqNo, payload, flags))) == payload
  {
    ChunksCarryPayload(t, sid, seqNo, payload, flags);
    ChunksOnWire(t, sid, seqNo, payload, flags);
    ReceivedPayloads(Chunks(t, sid, seqNo, payload, flags));
  }

  lemma {:induction false} ChunksOnWire(t: Byte, sid: nat, seqNo: nat, payload: seq<Byte>, flags: Byte)
    requires sid < Pow256(4) && seqNo + |payload| < Pow256(8)
    ensures forall f :: f in Chunks(t, sid, seqNo, payload, flags) ==> f.OnWire()
    decreases |payload|
  {
    if |payload| > MAX_PAYLOAD {
      ChunksOnWire(t, sid, if t == OUTPUT then seqNo + MAX_PAYLOAD else seqNo, payload[MAX_PAYLOAD..], 0);
    }
  }
}
