/**
 The Go worker's side of the payload formats (`worker/golang/worker/func_worker.go`), on raw
 message bytes. Each writer leaves the same world and the same bytes as its C++ counterpart,
 and each reader takes from the bytes what the C++ reader takes from the struct.
 */
module GoWorker {
  import opened Collections
  import opened Bytes
  import opened Protocol
  import opened MessageLayout
  import opened Payload

  // ---- Writers ------------------------------------------------------------------------------

  method OutputIntoMessage(w: World, call: FuncCall, response: array<byte>, output: seq<byte>, time: int, ok: bool)
    returns (w': World, r: array<byte>)
    requires InRange(call) && response[..] == MessageBytes(Completed(call, time))
    modifies response
    ensures (w', r[..]) == (OutputInMessage(w, call, output, time, ok).0, MessageBytes(OutputInMessage(w, call, output, time, ok).1))
    ensures r == response || fresh(r)
  {
    w', r := w, response;
    if |output| > INLINE_DATA_SIZE {
      var written := ShmWrite(w, OutputOf(FullCallId(call)), output, ok);
      if written.None? {
        r := NewGoMessage(FuncCallFailed, call);
      } else {
        w' := written.value;
        SetPayloadSizeInMessage(r, Completed(call, time), -|output|);
      }
    } else if |output| > 0 {
      FillInlineDataInMessage(r, Completed(call, time), output);
    } else {
      assert SetInlineData(Completed(call, time), output) == Completed(call, time);
    }
  }

  method FuncCallFinishedGo(w: World, call: FuncCall, success: bool, output: seq<byte>, time: int, ok: bool)
    returns (w': World, response: array<byte>)
    requires InRange(call)
    ensures fresh(response)
    ensures (w', response[..]) == (FuncCallFinished(w, call, success, output, time, ok).0,
                                   MessageBytes(FuncCallFinished(w, call, success, output, time, ok).1))
  {
    w' := w;
    if success {
      response := NewFuncCallCompleteMessage(call, time);
      w', response := OutputIntoMessage(w, call, response, output, time, ok);
    } else {
      response := NewGoMessage(FuncCallFailed, call);
    }
  }

  method WriteOutputToFifoGo(w: World, call: FuncCall, success: bool, output: seq<byte>, ok: bool) returns (r: Option<World>)
    ensures r == WriteOutputToFifo(w, call, success, output, ok)
  {
    var id := FullCallId(call);
    if id !in w.fifos { return None; }
    var w1 := w;
    var buffer: array<byte>;
    if success {
      if |output| + 4 > PIPE_BUF {
        var written := ShmWrite(w, OutputOf(id), output, ok);
        if written.None? { return None; }
        w1 := written.value;
        buffer := new byte[4](_ => 0);
        Put(buffer, 0, Int32Bytes(|output|));
        assert buffer[..] == Int32Bytes(|output|);
      } else {
        buffer := new byte[|output| + 4](_ => 0);
        Put(buffer, 0, Int32Bytes(|output|));
        Put(buffer, 4, output);
        assert buffer[..] == Int32Bytes(|output|) + output;
      }
    } else {
      buffer := new byte[4](_ => 0);
      Put(buffer, 0, Int32Bytes(-1));
      assert buffer[..] == Int32Bytes(-1);
    }
    r := Some(w1.(fifos := w.fifos[id := w.fifos[id] + buffer[..]]));
  }

  /**
   The one place where the languages differ: after reporting a failure through the FIFO the
   C++ worker still puts the output's length in its response to the engine, the Go worker
   leaves it zero.
   */
  ghost function GoResponse(w: World, call: FuncCall, success: bool, output: seq<byte>, time: int, ok: bool): Message {
    var m := FifoFuncCallFinished(w, call, success, output, time, ok).1;
    if success then m else m.(payloadSize := 0)
  }

  /** Exactly when the two responses agree. */
  lemma ResponsesAgreeIff(w: World, call: FuncCall, success: bool, output: seq<byte>, time: int, ok: bool)
    ensures GoResponse(w, call, success, output, time, ok) == FifoFuncCallFinished(w, call, success, output, time, ok).1
       <==> success || call.clientId == 0 || output == [] || FullCallId(call) !in w.fifos
  {
  }

  /** A nested call that fails after producing one byte: the C++ response says one, the Go response zero. */
  lemma ResponsesCanDiffer()
    ensures
      var call := FuncCall(1, 0, 2, 1);
      var w := World(map[], map[FullCallId(call) := []]);
      && FifoFuncCallFinished(w, call, false, [7], 0, true).1.payloadSize == 1
      && GoResponse(w, call, false, [7], 0, true).payloadSize == 0
  {
  }

  method FifoFuncCallFinishedGo(w: World, call: FuncCall, success: bool, output: seq<byte>, time: int, ok: bool)
    returns (w': World, response: array<byte>)
    requires InRange(call)
    ensures fresh(response)
    ensures w' == FifoFuncCallFinished(w, call, success, output, time, ok).0
    ensures response[..] == MessageBytes(GoResponse(w, call, success, output, time, ok))
  {
    w' := w;
    if success {
      response := NewFuncCallCompleteMessage(call, time);
    } else {
      response := NewGoMessage(FuncCallFailed, call);
    }
    if call.clientId == 0 {
      if success {
        w', response := OutputIntoMessage(w, call, response, output, time, ok);
      } else {
        assert Failure(call).(payloadSize := 0) == Failure(call);
      }
    } else {
      var written := WriteOutputToFifoGo(w, call, success, output, ok);
      if written.None? {
        response := NewGoMessage(FuncCallFailed, call);
        assert Failure(call).(payloadSize := 0) == Failure(call);
      } else {
        w' := written.value;
        if success {
          SetPayloadSizeInMessage(response, Completed(call, time), |output|);
        }
      }
    }
  }

  /** The request part of `newFuncCallCommon`. */
  method NewFuncCallGo(w: World, call: FuncCall, parent: nat, input: seq<byte>, ok: bool)
    returns (sent: bool, w': World, message: array<byte>)
    requires InRange(call)
    ensures sent <==> PrepareNewFuncCall(w, call, parent, input, ok).Some?
    ensures sent ==> PrepareNewFuncCall(w, call, parent, input, ok).value.0 == w'
    ensures sent ==> message[..] == MessageBytes(PrepareNewFuncCall(w, call, parent, input, ok).value.1)
  {
    sent, w' := true, w;
    message := NewInvokeFuncCallMessage(call, parent);
    ghost var m := NewMessage(InvokeFunc, call).(detail := parent);
    if |input| > INLINE_DATA_SIZE {
      var written := ShmWrite(w, InputOf(FullCallId(call)), input, ok);
      if written.None? { sent := false; return; }
      w' := written.value;
      SetPayloadSizeInMessage(message, m, -|input|);
    } else {
      FillInlineDataInMessage(message, m, input);
    }
  }

  // ---- Readers ------------------------------------------------------------------------------

  function GoInput(w: World, b: seq<byte>): Option<seq<byte>>
    requires |b| == FULL_SIZE
  {
    if GoPayloadSize(b) < 0 then ShmRead(w, InputOf(FullCallId(GoFuncCall(b)))) else Some(GoInlineData(b))
  }

  function GoReadResponse(w: World, call: FuncCall, b: seq<byte>): Answer
    requires |b| == FULL_SIZE
  {
    if GoMessageType(b) == GoCode(FuncCallFailed) then CallFailed
    else if GoPayloadSize(b) < 0 then
      var data := ShmRead(w, OutputOf(FullCallId(call)));
      if data.None? || |data.value| != -GoPayloadSize(b) then Broken else Output(data.value)
    else Output(GoInlineData(b))
  }

  /** The FIFO part of `newFuncCallCommon`: a read of the header, then a read of the output. */
  function GoFifoOutput(w: World, call: FuncCall): Answer
    requires FullCallId(call) in w.fifos
  {
    var s := w.fifos[FullCallId(call)];
    if |s| < 4 then Broken
    else
      var size := Int32At(s, 0);
      if size < 0 then CallFailed
      else if size + 4 > PIPE_BUF then
        var data := ShmRead(w, OutputOf(FullCallId(call)));
        if data.None? || |data.value| != size then Broken else Output(data.value)
      else if |s| - 4 < size then Broken
      else Output(s[4..4 + size])
  }

  lemma InputReadersAgree(w: World, m: Message)
    requires WellFormed(m) && m.kind.DispatchFuncCall? && m.payloadSize <= INLINE_DATA_SIZE
    ensures |MessageBytes(m)| == FULL_SIZE && GoInput(w, MessageBytes(m)) == GetFuncCallInput(w, m)
  {
    GoReadsCpp(m);
  }

  lemma ResponseReadersAgree(w: World, m: Message)
    requires WellFormed(m) && (m.kind.FuncCallComplete? || m.kind.FuncCallFailed?) && m.payloadSize <= INLINE_DATA_SIZE
    ensures |MessageBytes(m)| == FULL_SIZE && GoReadResponse(w, m.call, MessageBytes(m)) == ReadResponse(w, m)
  {
    GoReadsCpp(m);
  }

  /** On everything a worker of either language writes, both FIFO readers give the same answer. */
  lemma FifoReadersAgree(w: World, call: FuncCall, success: bool, output: seq<byte>, ok: bool)
    requires |output| < MAX_PAYLOAD && FullCallId(call) in w.fifos && w.fifos[FullCallId(call)] == []
    ensures var w1 := WriteOutputToFifo(w, call, success, output, ok);
      && (w1.Some? ==> FullCallId(call) in w1.value.fifos)
      && (w1.Some? ==> GoFifoOutput(w1.value, call) == FifoGetFuncCallOutput(w1.value, call, FifoRead(w1.value, call)))
  {
    var size := if success then |output| else -1;
    var body := if success && |output| + 4 <= PIPE_BUF then output else [];
    FifoHeader(size, body);
    assert [] + (Int32Bytes(size) + body) == Int32Bytes(size) + body;
    assert [] + Int32Bytes(size) == Int32Bytes(size) + [];
  }

  // ---- Across languages ---------------------------------------------------------------------

  /** A Go callee sees the input of a caller in either language: their requests are the same bytes. */
  lemma GoCalleeSeesInput(w: World, call: FuncCall, parent: nat, input: seq<byte>, sent: nat, dispatched: nat, w2: World)
    requires InRange(call) && dispatched < WORD64
    requires |input| < MAX_PAYLOAD && InputOf(FullCallId(call)) !in w.shm
    requires var r := PrepareNewFuncCall(w, call, parent, input, true);
      r.Some? ==> ShmRead(w2, InputOf(FullCallId(call))) == ShmRead(r.value.0, InputOf(FullCallId(call)))
    ensures var m := Redispatch(PrepareNewFuncCall(w, call, parent, input, true).value.1.(sendTimestamp := sent)).(sendTimestamp := dispatched);
      |MessageBytes(m)| == FULL_SIZE && GoInput(w2, MessageBytes(m)) == Some(input)
  {
    InputArrives(w, call, parent, input, sent, dispatched, w2);
    var m := Redispatch(PrepareNewFuncCall(w, call, parent, input, true).value.1.(sendTimestamp := sent)).(sendTimestamp := dispatched);
    if |input| <= INLINE_DATA_SIZE {
      InlineRoundTrip(NewMessage(InvokeFunc, call).(detail := parent, sendTimestamp := sent), input);
    }
    assert WellFormed(m) && m.payloadSize <= INLINE_DATA_SIZE;
    InputReadersAgree(w2, m);
  }

  /** A Go caller gets the output of a callee in either language, in message mode. */
  lemma GoCallerGetsOutput(w: World, call: FuncCall, success: bool, output: seq<byte>, time: int, detail: nat, sent: nat, ok: bool)
    requires InRange(call) && |output| < MAX_PAYLOAD && detail < WORD64 && sent < WORD64
    ensures var (w1, m) := FuncCallFinished(w, call, success, output, time, ok);
      var b := MessageBytes(m.(detail := detail, sendTimestamp := sent));
      && |b| == FULL_SIZE
      && GoReadResponse(w1, call, b)
         == (if success && (|output| <= INLINE_DATA_SIZE || (ok && OutputOf(FullCallId(call)) !in w.shm)) then Output(output) else CallFailed)
  {
    var (w1, m) := FuncCallFinished(w, call, success, output, time, ok);
    OutputArrives(w, call, success, output, time, detail, sent, ok);
    ResponseReadersAgree(w1, m.(detail := detail, sendTimestamp := sent));
  }
}
