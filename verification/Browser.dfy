/** What the browser sends: its own frame encoder, and the chunking of input. */
module BrowserFrames {
  import opened Bytes
  import opened Frames

  // ---- DataView's setters ------------------------------------------------------

  /** setUint16 and its wider relatives keep the low bits and write big-endian. */
  function U16Bytes(v: nat): seq<Byte> {
    [v / 0x100 % 0x100, v % 0x100]
  }

  function U32Bytes(v: nat): seq<Byte> {
    U16Bytes(v / 0x1_0000 % 0x1_0000) + U16Bytes(v % 0x1_0000)
  }

  function U64Bytes(v: nat): seq<Byte> {
    U32Bytes(v / 0x1_0000_0000 % 0x1_0000_0000) + U32Bytes(v % 0x1_0000_0000)
  }

  function TsEncode(f: Frame): Result<seq<Byte>> {
    if |f.payload| > MAX_PAYLOAD then Err(PayloadBig)
    else Ok([VERSION, f.typ, f.flags, 0] + U32Bytes(f.sid) + U64Bytes(f.seqNo) + U16Bytes(|f.payload|) + f.payload)
  }

  method SetBytes(b: array<Byte>, at: nat, v: seq<Byte>)
    requires at + |v| <= b.Length
    modifies b
    ensures b[..] == old(b[..at]) + v + old(b[at + |v|..])
  {
    forall i | 0 <= i < |v| {
      b[at + i] := v[i];
    }
  }

  method EncodeFrame(f: Frame) returns (r: Result<seq<Byte>>)
    ensures r == TsEncode(f)
  {
    if |f.payload| > MAX_PAYLOAD {
      return Err(PayloadBig);
    }
    var b := new Byte[HEADER_SIZE + |f.payload|](_ => 0);
    SetBytes(b, 0, [VERSION, f.typ, f.flags, 0]);
    assert b[..4] == [VERSION, f.typ, f.flags, 0];
    SetBytes(b, 4, U32Bytes(f.sid));
    assert b[..8] == [VERSION, f.typ, f.flags, 0] + U32Bytes(f.sid);
    SetBytes(b, 8, U64Bytes(f.seqNo));
    assert b[..16] == [VERSION, f.typ, f.flags, 0] + U32Bytes(f.sid) + U64Bytes(f.seqNo);
    SetBytes(b, 16, U16Bytes(|f.payload|));
    ghost var header := [VERSION, f.typ, f.flags, 0] + U32Bytes(f.sid) + U64Bytes(f.seqNo) + U16Bytes(|f.payload|);
    assert b[..HEADER_SIZE] == header;
    SetBytes(b, HEADER_SIZE, f.payload);
    assert b[..] == header + f.payload;
    return Ok(b[..]);
  }

  lemma U16IsPut(v: nat)
    ensures U16Bytes(v) == PutBE(v, 2)
  {
    assert PutBE(v, 2) == PutBE(v / 256, 1) + [v % 256];
    assert PutBE(v / 256, 1) == PutBE(v / 256 / 256, 0) + [v / 256 % 256];
  }

  /** Both parts of a wider field. */
  lemma {:induction false} PutParts(v: nat, m: nat, n: nat, hi: nat, lo: nat)
    requires v == hi * Pow256(n) + lo && lo < Pow256(n)
    ensures PutBE(v, m + n) == PutBE(hi, m) + PutBE(lo, n)
    decreases n
  {
    if n == 0 {
      assert PutBE(v, m) + [] == PutBE(v, m);
    } else {
      Shift(v, hi, lo, Pow256(n - 1));
      PutParts(v / 256, m, n - 1, hi, lo / 256);
    }
  }

  lemma Shift(v: nat, hi: nat, lo: nat, p: nat)
    requires v == hi * (256 * p) + lo && lo < 256 * p
    ensures v / 256 == hi * p + lo / 256 && v % 256 == lo % 256 && lo / 256 < p
  {
    var t := hi * p;
    assert hi * (256 * p) == 256 * t;
  }

  /** Only the low bytes of a value are put. */
  lemma PutMod(v: nat, n: nat, hi: nat, lo: nat)
    requires v == hi * Pow256(n) + lo && lo < Pow256(n)
    ensures PutBE(v, n) == PutBE(lo, n)
  {
    PutParts(v, 0, n, hi, lo);
    assert [] + PutBE(lo, n) == PutBE(lo, n);
  }

  lemma U32IsPut(v: nat)
    ensures U32Bytes(v) == PutBE(v, 4)
  {
    FieldSizes();
    var hi, lo := v / 0x1_0000, v % 0x1_0000;
    PutParts(v, 2, 2, hi, lo);
    PutMod(hi, 2, hi / 0x1_0000, hi % 0x1_0000);
    U16IsPut(hi % 0x1_0000);
    U16IsPut(lo);
  }

  lemma U64IsPut(v: nat)
    ensures U64Bytes(v) == PutBE(v, 8)
  {
    FieldSizes();
    var hi, lo := v / 0x1_0000_0000, v % 0x1_0000_0000;
    PutParts(v, 4, 4, hi, lo);
    PutMod(hi, 4, hi / 0x1_0000_0000, hi % 0x1_0000_0000);
    U32IsPut(hi % 0x1_0000_0000);
    U32IsPut(lo);
  }

  /**
   The browser encodes every frame as the Go side does, so the Go decoder
   reads back every frame that fits its header.
   */
  lemma EncodersAgree(f: Frame)
    ensures TsEncode(f) == Encode(f)
    ensures f.OnWire() && |f.payload| <= MAX_PAYLOAD ==> Unmarshal(TsEncode(f).value) == Ok(f)
  {
    U32IsPut(f.sid);
    U64IsPut(f.seqNo);
    U16IsPut(|f.payload|);
    if f.OnWire() && |f.payload| <= MAX_PAYLOAD {
      UnmarshalOfMarshal(f);
    }
  }

  /** getInt32: the sign is the top bit. */
  function TsParseEOF(p: seq<Byte>): Result<int> {
    if |p| != 4 then Err(BadPayload)
    else Ok(if p[0] >= 0x80 then U32At(p, 0) - 0x1_0000_0000 else U32At(p, 0))
  }

  /** The browser reads every exit code as the agent wrote it. */
  lemma EOFArrives(code: int, p: seq<Byte>)
    requires -0x8000_0000 <= code < 0x8000_0000
    ensures TsParseEOF(p) == ParseEOF(p) && TsParseEOF(EOFPayload(code)) == Ok(code)
  {
    EOFRoundTrip(code, p);
    SameEOF(p);
    SameEOF(EOFPayload(code));
  }

  lemma SameEOF(p: seq<Byte>)
    ensures TsParseEOF(p) == ParseEOF(p)
  {
    if |p| == 4 {
      U32Reads(p, 0);
      assert p[0..4] == p;
    }
  }

  // ---- input ---------------------------------------------------------------------

  /** Pieces of input, each its own frame; unlike Chunk there is no more flag. */
  function InputFrames(sid: nat, bytes: seq<Byte>): (fs: seq<Frame>)
    decreases |bytes|
  {
    if |bytes| <= MAX_PAYLOAD then [Frame(INPUT, 0, sid, 0, bytes)]
    else [Frame(INPUT, 0, sid, 0, bytes[..MAX_PAYLOAD])] + InputFrames(sid, bytes[MAX_PAYLOAD..])
  }

  method ChunkInput(sid: nat, bytes: seq<Byte>) returns (out: seq<Frame>)
    ensures out == InputFrames(sid, bytes)
  {
    out := [];
    var off: nat := 0;
    assert bytes[0..] == bytes;
    while off < |bytes|
      invariant off <= |bytes|
      invariant off < |bytes| ==> out + InputFrames(sid, bytes[off..]) == InputFrames(sid, bytes)
      invariant off == |bytes| && off > 0 ==> out == InputFrames(sid, bytes)
      invariant off == 0 ==> out == []
    {
      var end := if off + MAX_PAYLOAD < |bytes| then off + MAX_PAYLOAD else |bytes|;
      ghost var rest := bytes[off..];
      assert rest[..end - off] == bytes[off..end] && rest[end - off..] == bytes[end..];
      out := out + [Frame(INPUT, 0, sid, 0, bytes[off..end])];
      if end == |bytes| {
        assert rest == bytes[off..end];
      }
      off := end;
    }
    if |bytes| == 0 {
      out := [Frame(INPUT, 0, sid, 0, bytes)];
    }
  }

  lemma {:induction false} InputCarried(sid: nat, bytes: seq<Byte>)
    ensures Payloads(InputFrames(sid, bytes)) == bytes
    ensures forall f :: f in InputFrames(sid, bytes) ==>
      f.typ == INPUT && f.sid == sid && |f.payload| <= MAX_PAYLOAD && f.seqNo == 0
    decreases |bytes|
  {
    var fs := InputFrames(sid, bytes);
    if |bytes| <= MAX_PAYLOAD {
      assert fs[1..] == [] && bytes + [] == bytes;
    } else {
      InputCarried(sid, bytes[MAX_PAYLOAD..]);
      assert bytes == bytes[..MAX_PAYLOAD] + bytes[MAX_PAYLOAD..];
    }
  }

  function TsEncodeAll(fs: seq<Frame>): seq<Result<seq<Byte>>> {
    seq(|fs|, i requires 0 <= i < |fs| => TsEncode(fs[i]))
  }

  /** Input of any length, chunked and encoded by the browser and decoded by the agent, arrives byte for byte. */
  lemma InputArrives(sid: nat, bytes: seq<Byte>)
    requires sid < Pow256(4)
    ensures Received(TsEncodeAll(InputFrames(sid, bytes))) == bytes
  {
    var fs := InputFrames(sid, bytes);
    InputCarried(sid, bytes);
    forall i | 0 <= i < |fs| ensures TsEncode(fs[i]) == Encode(fs[i]) {
      EncodersAgree(fs[i]);
    }
    assert TsEncodeAll(fs) == EncodeAll(fs);
    forall f | f in fs ensures f.OnWire() && Encode(f).Ok? {
    }
    ReceivedPayloads(fs);
  }
}
