/** The wire format: a little-endian 32-bit body length, a little-endian 16-bit message id, the body. */
module MessageCodec {
  import opened Prelude

  newtype Byte = b: int | 0 <= b < 256
  type Bytes = seq<Byte>
  type U16 = v: int | 0 <= v < 0x1_0000
  type U32 = v: int | 0 <= v < 0x1_0000_0000

  datatype Message = Message(msgId: U16, body: Bytes)

  datatype DecodeStatus = Success | NeedMore | Error

  const HEADER_SIZE: nat := 6
  const MAX_BODY_SIZE: nat := 1024 * 1024

  // ---- What the bytes mean ----

  function LE16(v: U16): Bytes {
    [(v % 256) as Byte, (v / 256) as Byte]
  }

  function LE32(v: U32): Bytes {
    [(v % 256) as Byte, (v / 256 % 256) as Byte, (v / 0x1_0000 % 256) as Byte, (v / 0x100_0000) as Byte]
  }

  function U16Of(b: Bytes): U16
    requires |b| == 2
  {
    b[0] as int + 256 * b[1] as int
  }

  function U32Of(b: Bytes): U32
    requires |b| == 4
  {
    b[0] as int + 256 * b[1] as int + 0x1_0000 * b[2] as int + 0x100_0000 * b[3] as int
  }

  /** Reading back a written number gives the number, and every four bytes are some number's. */
  lemma NumbersRoundTrip(v: U32, w: U16, b: Bytes, c: Bytes)
    requires |b| == 4 && |c| == 2
    ensures U32Of(LE32(v)) == v && U16Of(LE16(w)) == w
    ensures LE32(U32Of(b)) == b && LE16(U16Of(c)) == c
  {
    var n, b1, b2, b3 := U32Of(b), b[1] as int, b[2] as int, b[3] as int;
    assert n / 256 == b1 + 256 * b2 + 0x1_0000 * b3;
    assert n / 0x1_0000 == b2 + 256 * b3;
    assert v / 0x1_0000 == v / 256 / 256 && v / 0x100_0000 == v / 256 / 256 / 256;
  }

  /** A frame can carry any body whose length fits the header. */
  ghost predicate Framable(m: Message) {
    |m.body| < 0x1_0000_0000
  }

  function Frame(m: Message): Bytes
    requires Framable(m)
  {
    LE32(|m.body|) + LE16(m.msgId) + m.body
  }

  /** Only the encoder applies the size limit; an oversized message becomes an empty packet. */
  predicate Fits(m: Message) {
    |m.body| <= MAX_BODY_SIZE
  }

  function Packet(m: Message): Bytes {
    if Fits(m) then Frame(m) else []
  }

  /** Byte by byte: length and id little-endian, then the body; a bare login request is `00 00 00 00 e9 03`. */
  lemma FrameLayout(m: Message)
    requires Framable(m)
    ensures var f := Frame(m);
      && |f| == 6 + |m.body| && f[6..] == m.body
      && f[0] as int + 256 * f[1] as int + 65_536 * f[2] as int + 16_777_216 * f[3] as int == |m.body|
      && f[4] as int + 256 * f[5] as int == m.msgId
    ensures Packet(Message(1001, [])) == [0, 0, 0, 0, 0xe9, 0x03]
    ensures Packet(m) == if |m.body| <= 1_048_576 then Frame(m) else []
  {
    NumbersRoundTrip(|m.body|, m.msgId, [0, 0, 0, 0], [0, 0]);
  }

  /** Where the first frame of a buffer ends, if the whole of it has arrived. */
  function FrameEnd(buffer: Bytes): (end: Option<nat>)
    ensures end.Some? ==> HEADER_SIZE <= end.value <= |buffer|
  {
    if |buffer| < HEADER_SIZE then None
    else
      var end := HEADER_SIZE + U32Of(buffer[..4]);
      if |buffer| < end then None else Some(end)
  }

  function FirstMessage(buffer: Bytes): (m: Message)
    requires FrameEnd(buffer).Some?
    ensures Framable(m)
  {
    Message(U16Of(buffer[4..6]), buffer[HEADER_SIZE..FrameEnd(buffer).value])
  }

  // ---- Decoding inverts framing, in both directions ----

  lemma DecodeFrame(m: Message, rest: Bytes)
    requires Framable(m)
    ensures FrameEnd(Frame(m) + rest) == Some(|Frame(m)|)
    ensures FirstMessage(Frame(m) + rest) == m
  {
    var buffer := Frame(m) + rest;
    NumbersRoundTrip(|m.body|, m.msgId, [0, 0, 0, 0], [0, 0]);
    assert buffer[..4] == LE32(|m.body|);
    assert buffer[4..6] == LE16(m.msgId);
    assert buffer[6..6 + |m.body|] == m.body;
  }

  lemma FrameDecoded(buffer: Bytes)
    requires FrameEnd(buffer).Some?
    ensures Frame(FirstMessage(buffer)) == buffer[..FrameEnd(buffer).value]
  {
    var end := FrameEnd(buffer).value;
    NumbersRoundTrip(0, 0, buffer[..4], buffer[4..6]);
    assert buffer[..end] == buffer[..4] + buffer[4..6] + buffer[6..end];
  }

  // ---- The code ----

  method WriteUint16(data: array<Byte>, offset: nat, value: U16)
    requires offset + 2 <= data.Length
    modifies data
    ensures data[..] == old(data[..offset]) + LE16(value) + old(data[offset + 2..])
  {
    data[offset] := (value % 256) as Byte;
    data[offset + 1] := (value / 256) as Byte;
  }

  method WriteUint32(data: array<Byte>, offset: nat, value: U32)
    requires offset + 4 <= data.Length
    modifies data
    ensures data[..] == old(data[..offset]) + LE32(value) + old(data[offset + 4..])
  {
    data[offset] := (value % 256) as Byte;
    data[offset + 1] := (value / 256 % 256) as Byte;
    data[offset + 2] := (value / 0x1_0000 % 256) as Byte;
    data[offset + 3] := (value / 0x100_0000 % 256) as Byte;
  }

  method Encode(message: Message) returns (packet: Bytes)
    ensures packet == Packet(message)
    ensures |message.body| > 1_048_576 <==> packet == []
  {
    var size := |message.body|;
    if size > MAX_BODY_SIZE {
      return [];
    }
    var header := new Byte[HEADER_SIZE];
    WriteUint32(header, 0, size);
    WriteUint16(header, 4, message.msgId);
    var result := new Byte[size + HEADER_SIZE];
    var i := 0;
    while i < HEADER_SIZE
      invariant 0 <= i <= HEADER_SIZE
      invariant result[..i] == header[..i]
      invariant header[..] == LE32(size) + LE16(message.msgId)
    {
      result[i] := header[i];
      i := i + 1;
    }
    i := 0;
    while i < size
      invariant 0 <= i <= size
      invariant result[..HEADER_SIZE + i] == LE32(size) + LE16(message.msgId) + message.body[..i]
    {
      result[HEADER_SIZE + i] := message.body[i];
      i := i + 1;
    }
    packet := result[..];
    assert message.body[..size] == message.body;
  }

  /** `buffer` and `rest` are the buffer before and after the call; `Error` is never returned. */
  method TryDecode(buffer: Bytes) returns (status: DecodeStatus, out: Message, rest: Bytes)
    ensures status == if FrameEnd(buffer).Some? then Success else NeedMore
    ensures status == Success ==> Framable(out) && buffer == Frame(out) + rest && |rest| < |buffer|
    ensures status == NeedMore ==> rest == buffer
  {
    out, rest := Message(0, []), buffer;
    if |buffer| < HEADER_SIZE {
      return NeedMore, out, rest;
    }
    var bodySize := U32Of(buffer[..4]);
    var msgId := U16Of(buffer[4..6]);
    if |buffer| < bodySize + HEADER_SIZE {
      return NeedMore, out, rest;
    }
    var packetSize := HEADER_SIZE + bodySize;
    out := Message(msgId, buffer[HEADER_SIZE..packetSize]);
    rest := buffer[packetSize..];
    status := Success;
    FrameDecoded(buffer);
    assert buffer == buffer[..packetSize] + rest;
  }
}
