/**
 The 1024 bytes of a `Message` (`common/protocol.h`) and the byte-level builders and getters of
 the Go worker (`worker/golang/protocol/protocol.go`).
 */
module MessageLayout {
  import opened Bytes
  import opened BitFields
  import opened Protocol

  const FULL_SIZE: nat := 1024
  const HEADER_SIZE: nat := 64

  predicate WellFormed(m: Message) {
    && InRange(m.call) && m.detail < WORD64 && m.sendTimestamp < WORD64
    && IsInt32(m.payloadSize) && m.flags < 0x1_0000_0000 && |m.inlineData| == INLINE_DATA_SIZE
  }

  /** The fields of the struct side by side. */
  function Layout(header: seq<byte>, detail: seq<byte>, timestamp: seq<byte>, size: seq<byte>, flags: seq<byte>, data: seq<byte>): seq<byte> {
    header + detail + timestamp + size + flags + Zeros(32) + data
  }

  function MessageBytes(m: Message): seq<byte> {
    Layout(LittleEndian(PackedHeader(Code(m.kind), m.call), 8), LittleEndian(m.detail, 8),
           LittleEndian(m.sendTimestamp, 8), Int32Bytes(m.payloadSize), LittleEndian(m.flags, 4), m.inlineData)
  }

  /** Where each field lies. */
  lemma FieldsAt(header: seq<byte>, detail: seq<byte>, timestamp: seq<byte>, size: seq<byte>, flags: seq<byte>, data: seq<byte>)
    requires |header| == |detail| == |timestamp| == 8 && |size| == |flags| == 4
    ensures var b := Layout(header, detail, timestamp, size, flags, data);
      && |b| == HEADER_SIZE + |data|
      && b[0..8] == header && b[8..16] == detail && b[16..24] == timestamp
      && b[24..28] == size && b[28..32] == flags && b[64..] == data
  {
  }

  // ---- Go getters ---------------------------------------------------------------------------

  function GoMessageType(b: seq<byte>): nat
    requires |b| == FULL_SIZE
  {
    b[0] % 16
  }

  function GoFuncCall(b: seq<byte>): FuncCall
    requires |b| == FULL_SIZE
  {
    FuncCallFromFullCallId(FromLittleEndian(b[0..8]) / 16)
  }

  function GoPayloadSize(b: seq<byte>): int
    requires |b| == FULL_SIZE
  {
    Int32At(b, 24)
  }

  function GoInlineData(b: seq<byte>): seq<byte>
    requires |b| == FULL_SIZE
  {
    var n := GoPayloadSize(b);
    if 0 < n <= INLINE_DATA_SIZE then b[HEADER_SIZE..HEADER_SIZE + n] else []
  }

  lemma HeaderType(word: nat)
    ensures LittleEndian(word, 8)[0] % 16 == word % 16
  {
    var q, r := word / 256, word % 256;
    Divide(r % 16, 16, 16 * q + r / 16);
  }

  /** The Go getters read from a message's bytes what the C++ struct holds. */
  lemma GoReadsCpp(m: Message)
    requires WellFormed(m)
    ensures |MessageBytes(m)| == FULL_SIZE
    ensures GoMessageType(MessageBytes(m)) == Code(m.kind)
    ensures GoFuncCall(MessageBytes(m)) == m.call
    ensures GoPayloadSize(MessageBytes(m)) == m.payloadSize
    ensures GoInlineData(MessageBytes(m)) == if 0 < m.payloadSize <= INLINE_DATA_SIZE then m.inlineData[..m.payloadSize] else []
  {
    var b, word := MessageBytes(m), PackedHeader(Code(m.kind), m.call);
    FieldsAt(LittleEndian(word, 8), LittleEndian(m.detail, 8), LittleEndian(m.sendTimestamp, 8),
             Int32Bytes(m.payloadSize), LittleEndian(m.flags, 4), m.inlineData);
    HeaderType(word);
    assert b[0] == b[0..8][0];
    WordHoldsCall(Code(m.kind), m.call);
    Int32RoundTrip(m.payloadSize);
    if 0 < m.payloadSize <= INLINE_DATA_SIZE {
      assert b[HEADER_SIZE..HEADER_SIZE + m.payloadSize] == b[64..][..m.payloadSize];
    }
  }

  lemma WordHoldsCall(code: nat, c: FuncCall)
    requires code < 16 && InRange(c)
    ensures PackedHeader(code, c) % 16 == code
    ensures FromLittleEndian(LittleEndian(PackedHeader(code, c), 8)) == PackedHeader(code, c)
    ensures FuncCallFromFullCallId(PackedHeader(code, c) / 16) == c
  {
    PackedValues(code, c);
    GoMatchesCpp(code, c);
    CallIdRoundTrip(c);
    Divide(code, 16, FullCallId(c));
    Pow256Values();
    LittleEndianRoundTrip(PackedHeader(code, c), 8);
  }

  // ---- Go builders --------------------------------------------------------------------------

  /** `binary.LittleEndian.Put…` and `copy` into a byte slice. */
  method Put(buffer: array<byte>, offset: nat, data: seq<byte>)
    requires offset + |data| <= buffer.Length
    modifies buffer
    ensures buffer[..] == Overwrite(old(buffer[..]), offset, data)
  {
    forall i | 0 <= i < |data| { buffer[offset + i] := data[i]; }
  }

  method NewEmptyMessage() returns (buffer: array<byte>)
    ensures fresh(buffer) && buffer[..] == Layout(Zeros(8), Zeros(8), Zeros(8), Zeros(4), Zeros(4), Zeros(INLINE_DATA_SIZE))
  {
    buffer := new byte[FULL_SIZE](_ => 0);
  }

  lemma PutHeader(h: seq<byte>, header: seq<byte>, detail: seq<byte>, timestamp: seq<byte>, size: seq<byte>, flags: seq<byte>, data: seq<byte>)
    requires |h| == |header| == 8
    ensures Overwrite(Layout(header, detail, timestamp, size, flags, data), 0, h) == Layout(h, detail, timestamp, size, flags, data)
  {
  }

  lemma PutDetail(d: seq<byte>, header: seq<byte>, detail: seq<byte>, timestamp: seq<byte>, size: seq<byte>, flags: seq<byte>, data: seq<byte>)
    requires |header| == 8 && |d| == |detail|
    ensures Overwrite(Layout(header, detail, timestamp, size, flags, data), 8, d) == Layout(header, d, timestamp, size, flags, data)
  {
  }

  lemma PutSize(z: seq<byte>, header: seq<byte>, detail: seq<byte>, timestamp: seq<byte>, size: seq<byte>, flags: seq<byte>, data: seq<byte>)
    requires |header| == |detail| == |timestamp| == 8 && |z| == |size|
    ensures Overwrite(Layout(header, detail, timestamp, size, flags, data), 24, z) == Layout(header, detail, timestamp, z, flags, data)
  {
  }

  lemma PutData(x: seq<byte>, header: seq<byte>, detail: seq<byte>, timestamp: seq<byte>, size: seq<byte>, flags: seq<byte>, data: seq<byte>)
    requires |header| == |detail| == |timestamp| == 8 && |size| == |flags| == 4 && |x| <= |data|
    ensures Overwrite(Layout(header, detail, timestamp, size, flags, data), HEADER_SIZE, x)
         == Layout(header, detail, timestamp, size, flags, Overwrite(data, 0, x))
  {
  }

  lemma ZeroBytes(n: nat)
    ensures LittleEndian(0, n) == Zeros(n)
  {
    if n > 0 { ZeroBytes(n - 1); }
  }

  lemma ShiftedByte(v: nat, n: nat)
    ensures LittleEndian(256 * v, n + 1) == [0] + LittleEndian(v, n)
  {
  }

  /** Shifting by `k` bytes puts `k` zero bytes in front. */
  lemma {:induction false} ShiftedBytes(v: nat, k: nat, n: nat)
    ensures LittleEndian(Pow256(k) * v, k + n) == Zeros(k) + LittleEndian(v, n)
  {
    if k > 0 {
      var w := Pow256(k - 1) * v;
      assert Pow256(k) * v == 256 * w;
      ShiftedByte(w, k - 1 + n);
      ShiftedBytes(v, k - 1, n);
      assert Zeros(k) == [0] + Zeros(k - 1);
    }
  }

  /** The processing time fills the upper half of the union; the lower half stays zero. */
  lemma HighHalf(v: nat)
    ensures LittleEndian(v * 0x1_0000_0000, 8) == Zeros(4) + LittleEndian(v, 4)
  {
    Pow256Values();
    ShiftedBytes(v, 4, 4);
  }

  /** A message just built: header and union set, everything else zero. */
  lemma BuiltBytes(kind: MessageType, c: FuncCall, detail: nat)
    ensures MessageBytes(NewMessage(kind, c).(detail := detail))
         == Layout(LittleEndian(PackedHeader(Code(kind), c), 8), LittleEndian(detail, 8), Zeros(8), Zeros(4), Zeros(4), Zeros(INLINE_DATA_SIZE))
  {
    ZeroBytes(8);
    ZeroBytes(4);
    assert Int32Bytes(0) == LittleEndian(0, 4);
  }

  /** The Go worker's own constants. */
  function GoCode(kind: MessageType): nat {
    match kind
    case FuncWorkerHandshake => 3
    case HandshakeResponse => 4
    case CreateFuncWorker => 5
    case InvokeFunc => 6
    case DispatchFuncCall => 7
    case FuncCallComplete => 8
    case FuncCallFailed => 9
    case _ => 0
  }

  predicate KnownToGo(kind: MessageType) { !kind.EngineHandshake? && !kind.LauncherHandshake? }

  lemma CodesAgree(kind: MessageType)
    requires KnownToGo(kind)
    ensures GoCode(kind) == Code(kind)
  {
  }

  method NewGoMessage(kind: MessageType, c: FuncCall) returns (buffer: array<byte>)
    requires InRange(c) && KnownToGo(kind)
    ensures fresh(buffer) && buffer[..] == MessageBytes(NewMessage(kind, c))
  {
    buffer := NewEmptyMessage();
    CodesAgree(kind);
    GoMatchesCpp(Code(kind), c);
    PutHeader(LittleEndian(GoHeader(Code(kind), c), 8), Zeros(8), Zeros(8), Zeros(8), Zeros(4), Zeros(4), Zeros(INLINE_DATA_SIZE));
    Put(buffer, 0, LittleEndian(GoHeader(GoCode(kind), c), 8));
    BuiltBytes(kind, c, 0);
    ZeroBytes(8);
  }

  method NewInvokeFuncCallMessage(c: FuncCall, parentCallId: nat) returns (buffer: array<byte>)
    requires InRange(c)
    ensures fresh(buffer) && buffer[..] == MessageBytes(NewMessage(InvokeFunc, c).(detail := parentCallId))
  {
    buffer := NewGoMessage(InvokeFunc, c);
    BuiltBytes(InvokeFunc, c, 0);
    BuiltBytes(InvokeFunc, c, parentCallId);
    PutDetail(LittleEndian(parentCallId, 8), LittleEndian(PackedHeader(Code(InvokeFunc), c), 8), LittleEndian(0, 8), Zeros(8), Zeros(4), Zeros(4), Zeros(INLINE_DATA_SIZE));
    Put(buffer, 8, LittleEndian(parentCallId, 8));
  }

  /** `dispatch_delay` zero and `processing_time` in the upper half. */
  function CompletionDetail(processingTime: int): nat { ToWord32(processingTime) * 0x1_0000_0000 }

  method NewFuncCallCompleteMessage(c: FuncCall, processingTime: int) returns (buffer: array<byte>)
    requires InRange(c)
    ensures fresh(buffer) && buffer[..] == MessageBytes(NewMessage(FuncCallComplete, c).(detail := CompletionDetail(processingTime)))
  {
    buffer := NewGoMessage(FuncCallComplete, c);
    BuiltBytes(FuncCallComplete, c, 0);
    BuiltBytes(FuncCallComplete, c, CompletionDetail(processingTime));
    HighHalf(ToWord32(processingTime));
    ZeroBytes(8);
    HalfPut(Int32Bytes(processingTime), LittleEndian(PackedHeader(Code(FuncCallComplete), c), 8));
    Put(buffer, 12, Int32Bytes(processingTime));
  }

  lemma HalfPut(p: seq<byte>, header: seq<byte>)
    requires |header| == 8 && |p| == 4
    ensures Overwrite(Layout(header, Zeros(8), Zeros(8), Zeros(4), Zeros(4), Zeros(INLINE_DATA_SIZE)), 12, p)
         == Layout(header, Zeros(4) + p, Zeros(8), Zeros(4), Zeros(4), Zeros(INLINE_DATA_SIZE))
  {
  }

  method SetPayloadSizeInMessage(buffer: array<byte>, ghost m: Message, payloadSize: int)
    requires buffer[..] == MessageBytes(m) && |m.inlineData| == INLINE_DATA_SIZE
    modifies buffer
    ensures buffer[..] == MessageBytes(m.(payloadSize := payloadSize))
  {
    assert |buffer[..]| == FULL_SIZE;
    PutSize(Int32Bytes(payloadSize), LittleEndian(PackedHeader(Code(m.kind), m.call), 8), LittleEndian(m.detail, 8),
            LittleEndian(m.sendTimestamp, 8), Int32Bytes(m.payloadSize), LittleEndian(m.flags, 4), m.inlineData);
    Put(buffer, 24, Int32Bytes(payloadSize));
  }

  /** `FillInlineDataInMessage` gives the bytes of `SetInlineDataInMessage`. */
  method FillInlineDataInMessage(buffer: array<byte>, ghost m: Message, data: seq<byte>)
    requires buffer[..] == MessageBytes(m) && |m.inlineData| == INLINE_DATA_SIZE && |data| <= INLINE_DATA_SIZE
    modifies buffer
    ensures buffer[..] == MessageBytes(SetInlineData(m, data))
  {
    assert |buffer[..]| == FULL_SIZE;
    PutData(data, LittleEndian(PackedHeader(Code(m.kind), m.call), 8), LittleEndian(m.detail, 8),
            LittleEndian(m.sendTimestamp, 8), Int32Bytes(m.payloadSize), LittleEndian(m.flags, 4), m.inlineData);
    Put(buffer, HEADER_SIZE, data);
    SetPayloadSizeInMessage(buffer, m.(inlineData := Overwrite(m.inlineData, 0, data)), |data|);
  }
}
