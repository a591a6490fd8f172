/**
 How inputs and outputs of calls travel between workers (`worker/worker_lib.cpp`,
 `worker/v1/func_worker.cpp`): inside a message, through a FIFO, or in shared memory, told
 apart by the sign of `payload_size` and by sizes.
 */
module Payload {
  import opened Collections
  import opened Bytes
  import opened Protocol
  import opened MessageLayout
  import D = Dispatcher

  const PIPE_BUF: nat := 4096
  const MAX_PAYLOAD: nat := 0x8000_0000

  /** Names of shared memory regions: input and output of a call, by its full call id. */
  datatype ShmName = InputOf(id: nat) | OutputOf(id: nat)

  /** The shared file system: regions by name, unread FIFO bytes by call id. */
  datatype World = World(shm: map<ShmName, seq<byte>>, fifos: map<nat, seq<byte>>)

  /** `ShmCreate` and filling the region: refuses an existing name; `ok` is the system's answer. */
  function ShmWrite(w: World, name: ShmName, data: seq<byte>, ok: bool): Option<World> {
    if !ok || name in w.shm then None else Some(w.(shm := w.shm[name := data]))
  }

  function ShmRead(w: World, name: ShmName): Option<seq<byte>> {
    if name in w.shm then Some(w.shm[name]) else None
  }

  // ---- Caller's side: the request -----------------------------------------------------------

  function PrepareNewFuncCall(w: World, call: FuncCall, parent: nat, input: seq<byte>, ok: bool): Option<(World, Message)> {
    var m := NewMessage(InvokeFunc, call).(detail := parent);
    if |input| <= INLINE_DATA_SIZE then Some((w, SetInlineData(m, input)))
    else
      var w1 := ShmWrite(w, InputOf(FullCallId(call)), input, ok);
      if w1.None? then None else Some((w1.value, m.(payloadSize := -|input|)))
  }

  /** The engine takes the request apart and its dispatcher builds the message for the callee. */
  function Redispatch(m: Message): Message {
    if m.payloadSize < 0 then D.BuildMessage(m.call, D.ShmInput(-m.payloadSize))
    else D.BuildMessage(m.call, D.InlineInput(GetInlineData(m)))
  }

  // ---- Callee's side ------------------------------------------------------------------------

  function GetFuncCallInput(w: World, m: Message): Option<seq<byte>> {
    if !m.kind.DispatchFuncCall? then None
    else if m.payloadSize < 0 then ShmRead(w, InputOf(FullCallId(m.call)))
    else Some(GetInlineData(m))
  }

  function Completed(call: FuncCall, time: int): Message {
    NewMessage(FuncCallComplete, call).(detail := CompletionDetail(time))
  }

  function Failure(call: FuncCall): Message { NewMessage(FuncCallFailed, call) }

  /** A successful output in the response message, or in shared memory when it does not fit. */
  function OutputInMessage(w: World, call: FuncCall, output: seq<byte>, time: int, ok: bool): (World, Message) {
    if |output| <= INLINE_DATA_SIZE then (w, SetInlineData(Completed(call, time), output))
    else
      var w1 := ShmWrite(w, OutputOf(FullCallId(call)), output, ok);
      if w1.None? then (w, Failure(call)) else (w1.value, Completed(call, time).(payloadSize := -|output|))
  }

  function FuncCallFinished(w: World, call: FuncCall, success: bool, output: seq<byte>, time: int, ok: bool): (World, Message) {
    if success then OutputInMessage(w, call, output, time, ok) else (w, Failure(call))
  }

  function WriteOutputToFifo(w: World, call: FuncCall, success: bool, output: seq<byte>, ok: bool): Option<World> {
    var id := FullCallId(call);
    if id !in w.fifos then None
    else if !success then Some(w.(fifos := w.fifos[id := w.fifos[id] + Int32Bytes(-1)]))
    else if |output| + 4 <= PIPE_BUF then Some(w.(fifos := w.fifos[id := w.fifos[id] + (Int32Bytes(|output|) + output)]))
    else
      var w1 := ShmWrite(w, OutputOf(id), output, ok);
      if w1.None? then None else Some(w1.value.(fifos := w.fifos[id := w.fifos[id] + Int32Bytes(|output|)]))
  }

  function FifoFuncCallFinished(w: World, call: FuncCall, success: bool, output: seq<byte>, time: int, ok: bool): (World, Message) {
    if call.clientId == 0 then FuncCallFinished(w, call, success, output, time, ok)
    else
      var response := if success then Completed(call, time) else Failure(call);
      var w1 := WriteOutputToFifo(w, call, success, output, ok);
      if w1.None? then (w, Failure(call)) else (w1.value, response.(payloadSize := |output|))
  }

  // ---- Caller's side: the answer ------------------------------------------------------------

  datatype Answer = Output(data: seq<byte>) | CallFailed | Broken

  /** `WaitInvokeFunc`, and without the size check the engine's reader of external outputs. */
  function ReadResponse(w: World, m: Message): Answer {
    if m.kind.FuncCallFailed? then CallFailed
    else if m.payloadSize < 0 then
      var data := ShmRead(w, OutputOf(FullCallId(m.call)));
      if data.None? || |data.value| != -m.payloadSize then Broken else Output(data.value)
    else Output(GetInlineData(m))
  }

  /** `FifoGetFuncCallOutput`: one read of at most `PIPE_BUF` bytes, `nread` of them. */
  function FifoGetFuncCallOutput(w: World, call: FuncCall, nread: seq<byte>): Answer {
    if |nread| < 4 then Broken
    else
      var header := Int32At(nread, 0);
      if header < 0 then CallFailed
      else if 4 + header <= PIPE_BUF then
        if |nread| < 4 + header then Broken else Output(nread[4..4 + header])
      else if |nread| == 4 then
        var data := ShmRead(w, OutputOf(FullCallId(call)));
        if data.None? || |data.value| != header then Broken else Output(data.value)
      else Broken
  }

  /** What one `read` of up to `PIPE_BUF` bytes returns. */
  function FifoRead(w: World, call: FuncCall): seq<byte>
    requires FullCallId(call) in w.fifos
  {
    var s := w.fifos[FullCallId(call)];
    if |s| <= PIPE_BUF then s else s[..PIPE_BUF]
  }

  // ---- What arrives -------------------------------------------------------------------------

  lemma InlineRoundTrip(m: Message, data: seq<byte>)
    requires |m.inlineData| == INLINE_DATA_SIZE && |data| <= INLINE_DATA_SIZE
    requires m.kind.InvokeFunc? || m.kind.DispatchFuncCall? || m.kind.FuncCallComplete?
    ensures GetInlineData(SetInlineData(m, data)) == data
  {
  }

  /**
   The callee sees exactly the caller's input: through the request, the engine's re-encoding
   and the dispatch message, for every length, with any time stamps put on the way, in any
   later world that still holds the input region.
   */
  lemma InputArrives(w: World, call: FuncCall, parent: nat, input: seq<byte>, sent: nat, dispatched: nat, w2: World)
    requires |input| < MAX_PAYLOAD && InputOf(FullCallId(call)) !in w.shm
    requires var r := PrepareNewFuncCall(w, call, parent, input, true);
      r.Some? ==> ShmRead(w2, InputOf(FullCallId(call))) == ShmRead(r.value.0, InputOf(FullCallId(call)))
    ensures var r := PrepareNewFuncCall(w, call, parent, input, true);
      && r.Some?
      && IsInt32(r.value.1.payloadSize)
      && GetFuncCallInput(w2, Redispatch(r.value.1.(sendTimestamp := sent)).(sendTimestamp := dispatched)) == Some(input)
  {
    var m := NewMessage(InvokeFunc, call).(detail := parent);
    if |input| <= INLINE_DATA_SIZE {
      InlineRoundTrip(m.(sendTimestamp := sent), input);
      InlineRoundTrip(NewMessage(DispatchFuncCall, call), input);
      InlineRoundTrip(NewMessage(DispatchFuncCall, call).(sendTimestamp := dispatched), input);
    }
  }

  /** Message mode: the caller gets exactly the callee's output, or learns that the call failed. */
  lemma OutputArrives(w: World, call: FuncCall, success: bool, output: seq<byte>, time: int, detail: nat, sent: nat, ok: bool)
    requires |output| < MAX_PAYLOAD
    ensures var (w1, m) := FuncCallFinished(w, call, success, output, time, ok);
      && IsInt32(m.payloadSize)
      && ReadResponse(w1, m.(detail := detail, sendTimestamp := sent))
         == (if success && (|output| <= INLINE_DATA_SIZE || (ok && OutputOf(FullCallId(call)) !in w.shm)) then Output(output) else CallFailed)
  {
    if success && |output| <= INLINE_DATA_SIZE {
      InlineRoundTrip(Completed(call, time).(detail := detail, sendTimestamp := sent), output);
    }
  }

  /** FIFO mode: one read of the call's FIFO gives the output, or the failure, and nothing else. */
  lemma FifoOutputArrives(w: World, call: FuncCall, success: bool, output: seq<byte>, ok: bool)
    requires |output| < MAX_PAYLOAD && FullCallId(call) in w.fifos && w.fifos[FullCallId(call)] == []
    ensures var w1 := WriteOutputToFifo(w, call, success, output, ok);
      && (w1.Some? <==> !success || |output| + 4 <= PIPE_BUF || (ok && OutputOf(FullCallId(call)) !in w.shm))
      && (w1.Some? ==> FullCallId(call) in w1.value.fifos)
      && (w1.Some? ==> FifoGetFuncCallOutput(w1.value, call, FifoRead(w1.value, call)) == if success then Output(output) else CallFailed)
  {
    var size := if success then |output| else -1;
    var body := if success && |output| + 4 <= PIPE_BUF then output else [];
    FifoHeader(size, body);
    assert [] + (Int32Bytes(size) + body) == Int32Bytes(size) + body;
    assert [] + Int32Bytes(size) == Int32Bytes(size) + [];
  }

  lemma FifoHeader(size: int, body: seq<byte>)
    requires IsInt32(size)
    ensures var s := Int32Bytes(size) + body; Int32At(s, 0) == size && s[4..] == body
  {
    var s := Int32Bytes(size) + body;
    assert s[0..4] == Int32Bytes(size);
    Int32RoundTrip(size);
  }

  /** Different calls never touch each other's regions or FIFOs. */
  lemma CallsDoNotInterfere(w: World, a: FuncCall, b: FuncCall, success: bool, output: seq<byte>, time: int, ok: bool)
    requires InRange(a) && InRange(b) && a != b
    ensures var w1 := FifoFuncCallFinished(w, a, success, output, time, ok).0;
      && ShmRead(w1, OutputOf(FullCallId(b))) == ShmRead(w, OutputOf(FullCallId(b)))
      && ShmRead(w1, InputOf(FullCallId(b))) == ShmRead(w, InputOf(FullCallId(b)))
      && (FullCallId(b) in w1.fifos <==> FullCallId(b) in w.fifos)
      && (FullCallId(b) in w.fifos ==> w1.fifos[FullCallId(b)] == w.fifos[FullCallId(b)])
  {
    CallIdInjective(a, b);
  }

  // ---- Which way the bytes go ---------------------------------------------------------------

  /** Creating the region works: the system allows it and the name is free. */
  predicate Creatable(w: World, name: ShmName, ok: bool) { ok && name !in w.shm }

  /** A request names its call and its parent; 960 bytes go inside it, more go through shared memory. */
  lemma RequestTransport(w: World, call: FuncCall, parent: nat, input: seq<byte>, ok: bool)
    ensures
      var name, r := InputOf(FullCallId(call)), PrepareNewFuncCall(w, call, parent, input, ok);
      && (r.Some? <==> |input| <= 960 || Creatable(w, name, ok))
      && (r.Some? ==> r.value.0.fifos == w.fifos)
      && (r.Some? ==> r.value.0.shm == if |input| > 960 then w.shm[name := input] else w.shm)
      && (r.Some? ==> r.value.1.payloadSize == if |input| > 960 then -|input| else |input|)
      && (r.Some? ==> r.value.1.kind == InvokeFunc && r.value.1.call == call && r.value.1.detail == parent)
  {
  }

  /** A worker of a nested call in FIFO mode writes to the FIFO; every other output goes with the response. */
  predicate OutputSent(w: World, call: FuncCall, output: seq<byte>, ok: bool) {
    var id := FullCallId(call);
    if call.clientId == 0 then |output| <= 960 || Creatable(w, OutputOf(id), ok)
    else id in w.fifos && (|output| + 4 <= 4096 || Creatable(w, OutputOf(id), ok))
  }

  /** What the response says: it completes the call exactly when the callee succeeded and its output got away. */
  lemma ResponseSays(w: World, call: FuncCall, success: bool, output: seq<byte>, time: int, ok: bool)
    ensures
      var m := FifoFuncCallFinished(w, call, success, output, time, ok).1;
      && m.call == call
      && m.kind == (if success && OutputSent(w, call, output, ok) then FuncCallComplete else FuncCallFailed)
      && (m.kind == FuncCallComplete ==> m.detail == (time % 0x1_0000_0000) * 0x1_0000_0000)
      && (m.kind == FuncCallComplete ==> m.payloadSize == if call.clientId == 0 && |output| > 960 then -|output| else |output|)
  {
  }

  /** What lands in the FIFO: a length and the output if both fit into one atomic write, the length alone, or minus one. */
  function FifoEntry(success: bool, output: seq<byte>): seq<byte> {
    if !success then [255, 255, 255, 255]
    else LittleEndian(|output| % 0x1_0000_0000, 4) + if |output| <= 4092 then output else []
  }

  lemma FifoBytes(success: bool, output: seq<byte>)
    ensures
      FifoEntry(success, output)
      == if !success then Int32Bytes(-1) else if |output| + 4 <= PIPE_BUF then Int32Bytes(|output|) + output else Int32Bytes(|output|)
  {
    MinusOneBytes();
    assert Int32Bytes(|output|) + [] == Int32Bytes(|output|);
  }

  /** What one finished call leaves behind: its entry in the FIFO, and a region when the output did not fit. */
  lemma OutputTransport(w: World, call: FuncCall, success: bool, output: seq<byte>, time: int, ok: bool)
    requires call.clientId != 0 && FullCallId(call) in w.fifos && (success ==> OutputSent(w, call, output, ok))
    ensures
      var id, w1 := FullCallId(call), FifoFuncCallFinished(w, call, success, output, time, ok).0;
      && w1.fifos == w.fifos[id := w.fifos[id] + FifoEntry(success, output)]
      && w1.shm == (if success && |output| > 4092 then w.shm[OutputOf(id) := output] else w.shm)
  {
    FifoBytes(success, output);
    var w1 := WriteOutputToFifo(w, call, success, output, ok);
    assert w1.Some?;
    assert FifoFuncCallFinished(w, call, success, output, time, ok).0 == w1.value;
  }

  lemma MinusOneBytes()
    ensures Int32Bytes(-1) == [255, 255, 255, 255]
  {
    var ff: nat := 0xFFFF_FFFF;
    forall i | 0 <= i < 4 ensures LittleEndian(ff, 4)[i] == 255 {
      LittleEndianAt(ff, 4, i);
    }
  }

  // ---- What readers accept --------------------------------------------------------------------

  /** What the FIFO must hold for an output: its length and itself, or its length alone beside its region. */
  predicate FifoHolds(w: World, call: FuncCall, nread: seq<byte>, output: seq<byte>) {
    && |output| < MAX_PAYLOAD
    && if |output| <= 4092 then Int32Bytes(|output|) + output <= nread
       else nread == Int32Bytes(|output|) && ShmRead(w, OutputOf(FullCallId(call))) == Some(output)
  }

  lemma HeaderOf(nread: seq<byte>)
    requires |nread| >= 4
    ensures IsInt32(Int32At(nread, 0)) && Int32Bytes(Int32At(nread, 0)) == nread[..4]
  {
    Int32BytesOf(nread[..4]);
    assert nread[0..4] == nread[..4];
  }

  /** The reader takes an output from exactly the bytes that a writer leaves for it; anything else is no output. */
  lemma FifoReaderAcceptsIff(w: World, call: FuncCall, nread: seq<byte>, output: seq<byte>)
    ensures FifoGetFuncCallOutput(w, call, nread) == Output(output) <==> FifoHolds(w, call, nread, output)
  {
    if FifoHolds(w, call, nread, output) {
      var body := nread[4..];
      assert nread[..4] == Int32Bytes(|output|) by { assert (Int32Bytes(|output|) + output)[..4] == Int32Bytes(|output|); }
      assert nread == Int32Bytes(|output|) + body;
      FifoHeader(|output|, body);
      if |output| <= 4092 { assert nread[4..4 + |output|] == (Int32Bytes(|output|) + output)[4..]; }
    }
    if FifoGetFuncCallOutput(w, call, nread) == Output(output) {
      HeaderOf(nread);
      if |output| <= 4092 {
        assert nread[..4 + |output|] == nread[..4] + nread[4..4 + |output|];
      } else {
        assert nread == nread[..4];
      }
    }
  }

  /** A response that points at shared memory is good only for a region of exactly its size. */
  lemma RegionMustMatch(w: World, m: Message)
    requires m.kind.FuncCallComplete? && m.payloadSize < 0
    ensures
      var name := OutputOf(FullCallId(m.call));
      ReadResponse(w, m) == if name in w.shm && |w.shm[name]| == -m.payloadSize then Output(w.shm[name]) else Broken
  {
  }
}
