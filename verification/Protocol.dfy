/**
 Call identifiers and messages, as the C++ structs lay them out (`common/protocol.h`) and as
 the Go worker reads and writes them byte by byte (`worker/golang/protocol/protocol.go`).
 */
module Protocol {
  import opened Bytes
  import opened BitFields

  const FUNC_ID_LIMIT: nat := 0x100          // 8 bits
  const METHOD_ID_LIMIT: nat := 0x40         // 6 bits
  const CLIENT_ID_LIMIT: nat := 0x4000       // 14 bits
  const CALL_ID_LIMIT: nat := 0x1_0000_0000  // 32 bits

  /** The four fields of the `FuncCall` union; the padding bits are always zero. */
  datatype FuncCall = FuncCall(funcId: nat, methodId: nat, clientId: nat, callId: nat)

  predicate InRange(c: FuncCall) {
    && c.funcId < FUNC_ID_LIMIT
    && c.methodId < METHOD_ID_LIMIT
    && c.clientId < CLIENT_ID_LIMIT
    && c.callId < CALL_ID_LIMIT
  }

  datatype MessageType =
    | Invalid
    | EngineHandshake
    | LauncherHandshake
    | FuncWorkerHandshake
    | HandshakeResponse
    | CreateFuncWorker
    | InvokeFunc
    | DispatchFuncCall
    | FuncCallComplete
    | FuncCallFailed

  const INLINE_DATA_SIZE: nat := 960  // __FAAS_MESSAGE_SIZE - __FAAS_CACHE_LINE_SIZE

  /**
   `struct Message`. `detail` is the 8-byte union at offset 8: the parent call id of an
   INVOKE_FUNC, or the dispatch delay and processing time of a completion.
   */
  datatype Message = Message(
    kind: MessageType, call: FuncCall, detail: nat, sendTimestamp: nat,
    payloadSize: int, flags: nat, inlineData: seq<byte>)

  /** `NEW_EMPTY_MESSAGE` followed by the type and `SetFuncCallInMessage`. */
  function NewMessage(kind: MessageType, call: FuncCall): Message {
    Message(kind, call, 0, 0, 0, 0, Zeros(INLINE_DATA_SIZE))
  }

  /** `SetInlineDataInMessage`. */
  function SetInlineData(m: Message, data: seq<byte>): Message {
    m.(payloadSize := |data|, inlineData := Overwrite(m.inlineData, 0, data))
  }

  /** `GetInlineDataFromMessage`. */
  function GetInlineData(m: Message): seq<byte> {
    if (m.kind.InvokeFunc? || m.kind.DispatchFuncCall? || m.kind.FuncCallComplete? || m.kind.LauncherHandshake?)
       && 0 < m.payloadSize <= |m.inlineData|
    then m.inlineData[..m.payloadSize]
    else []
  }

  // ---- Call ids and header words ------------------------------------------------------------

  const WORD64: nat := 0x1_0000_0000_0000_0000

  function Code(kind: MessageType): (r: nat)
    ensures r < 16
  {
    match kind
    case Invalid => 0
    case EngineHandshake => 1
    case LauncherHandshake => 2
    case FuncWorkerHandshake => 3
    case HandshakeResponse => 4
    case CreateFuncWorker => 5
    case InvokeFunc => 6
    case DispatchFuncCall => 7
    case FuncCallComplete => 8
    case FuncCallFailed => 9
  }

  /** The bit-field struct inside the C++ `FuncCall` union, read as its `full_call_id`. */
  function PackedCall(c: FuncCall): nat {
    Pack([Field(c.funcId, 8), Field(c.methodId, 6), Field(c.clientId, 14), Field(c.callId, 32), Field(0, 4)])
  }

  /** The first 8 bytes of a C++ `Message` or `GatewayMessage`, as one word. */
  function PackedHeader(code: nat, c: FuncCall): nat {
    Pack([Field(code, 4), Field(c.funcId, 8), Field(c.methodId, 6), Field(c.clientId, 14), Field(c.callId, 32)])
  }

  /** The C++ struct read back from its 8 bytes. */
  function UnpackedHeader(word: nat): (nat, FuncCall) {
    var v := Unpack(word, [4, 8, 6, 14, 32]);
    (v[0], FuncCall(v[1], v[2], v[3], v[4]))
  }

  /** Go's `FullCallId`: 64-bit shifts and additions. */
  function FullCallId(c: FuncCall): nat {
    (c.funcId + c.methodId * 0x100 % WORD64 + c.clientId * 0x4000 % WORD64 + c.callId * 0x1000_0000 % WORD64) % WORD64
  }

  /** Go's `FuncCallFromFullCallId`: shifts, masks and narrowing conversions. */
  function FuncCallFromFullCallId(id: nat): FuncCall {
    FuncCall(id % 0x100, id / 0x100 % 0x40, id / 0x4000 % 0x4000, id / 0x1000_0000 % CALL_ID_LIMIT)
  }

  /** The header word Go's message builders write: the call id shifted over the message type. */
  function GoHeader(code: nat, c: FuncCall): nat {
    (FullCallId(c) * 16 % WORD64 + code) % WORD64
  }

  lemma PackedValues(code: nat, c: FuncCall)
    ensures PackedCall(c) == c.funcId + 0x100 * (c.methodId + 0x40 * (c.clientId + 0x4000 * c.callId))
    ensures PackedHeader(code, c) == code + 16 * PackedCall(c)
  {
    Pow2Values();
    var call, none: nat := c.callId, 0;
    assert Pack([Field(none, 4)]) == 0 by { assert Pack([]) == 0; }
    var p32 := [Field(call, 32), Field(none, 4)];
    var p14 := [Field(c.clientId, 14)] + p32;
    var p6 := [Field(c.methodId, 6)] + p14;
    PackCons(Field(call, 32), [Field(none, 4)]);
    PackCons(Field(c.clientId, 14), p32);
    PackCons(Field(c.methodId, 6), p14);
    PackCons(Field(c.funcId, 8), p6);
    assert [Field(c.funcId, 8), Field(c.methodId, 6), Field(c.clientId, 14), Field(call, 32), Field(none, 4)] == [Field(c.funcId, 8)] + p6;
    PackCons(Field(call, 32), []);
    var q14 := [Field(c.clientId, 14), Field(call, 32)];
    var q6 := [Field(c.methodId, 6)] + q14;
    var q8 := [Field(c.funcId, 8)] + q6;
    PackCons(Field(c.clientId, 14), [Field(call, 32)]);
    PackCons(Field(c.methodId, 6), q14);
    PackCons(Field(c.funcId, 8), q6);
    PackCons(Field(code, 4), q8);
    assert [Field(code, 4), Field(c.funcId, 8), Field(c.methodId, 6), Field(c.clientId, 14), Field(call, 32)] == [Field(code, 4)] + q8;
  }

  lemma FullCallIdValue(c: FuncCall)
    requires InRange(c)
    ensures FullCallId(c) == c.funcId + 0x100 * c.methodId + 0x4000 * c.clientId + 0x1000_0000 * c.callId
    ensures FullCallId(c) < 0x1000_0000_0000_0000
  {
    NoWrap(c.methodId * 0x100);
    NoWrap(c.clientId * 0x4000);
    NoWrap(c.callId * 0x1000_0000);
    NoWrap(c.funcId + c.methodId * 0x100 + c.clientId * 0x4000 + c.callId * 0x1000_0000);
  }

  lemma NoWrap(v: nat)
    requires v < WORD64
    ensures v % WORD64 == v
  {
  }

  /** The shifts and sums of the Go worker give the C++ bit-field layouts, without overflow. */
  lemma GoMatchesCpp(code: nat, c: FuncCall)
    requires code < 16 && InRange(c)
    ensures FullCallId(c) == PackedCall(c) < 0x1000_0000_0000_0000
    ensures GoHeader(code, c) == PackedHeader(code, c) < WORD64
  {
    PackedValues(code, c);
    FullCallIdValue(c);
    NoWrap(FullCallId(c) * 16);
    NoWrap(FullCallId(c) * 16 + code);
  }

  lemma CallIdRoundTrip(c: FuncCall)
    requires InRange(c)
    ensures FuncCallFromFullCallId(FullCallId(c)) == c
  {
    FullCallIdValue(c);
    var high := c.clientId + 0x4000 * c.callId;
    Divide(c.funcId, 0x100, c.methodId + 0x40 * high);
    Divide(c.methodId, 0x40, high);
    Divide(c.funcId + 0x100 * c.methodId, 0x4000, high);
    Divide(c.clientId, 0x4000, c.callId);
    Divide(c.funcId + 0x100 * c.methodId + 0x4000 * c.clientId, 0x1000_0000, c.callId);
  }

  /** Distinct calls have distinct ids: no two live calls ever share a table key or a file name. */
  lemma CallIdInjective(a: FuncCall, b: FuncCall)
    requires InRange(a) && InRange(b)
    ensures FullCallId(a) == FullCallId(b) <==> a == b
  {
    CallIdRoundTrip(a);
    CallIdRoundTrip(b);
  }

  lemma HeaderRoundTrip(code: nat, c: FuncCall)
    requires code < 16 && InRange(c)
    ensures UnpackedHeader(PackedHeader(code, c)) == (code, c)
  {
    Pow2Values();
    var fs := [Field(code, 4), Field(c.funcId, 8), Field(c.methodId, 6), Field(c.clientId, 14), Field(c.callId, 32)];
    UnpackPack(fs);
    assert Widths(fs) == [4, 8, 6, 14, 32];
    assert Values(fs) == [code, c.funcId, c.methodId, c.clientId, c.callId];
  }
}
