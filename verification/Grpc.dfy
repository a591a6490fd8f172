/**
 The gRPC Length-Prefixed-Message carried by the DATA frames of a stream
 (`gateway/grpc_connection.cpp`): sending a response under any frame limits, and receiving a
 request from any chunks.
 */
module Grpc {
  import opened Bytes

  const PREFIX_SIZE: nat := 5
  const LENGTH_LIMIT: nat := 0x1_0000_0000

  /** Compressed-Flag zero, then the length in network byte order, truncated to 32 bits. */
  function Prefix(body: seq<byte>): (r: seq<byte>)
    ensures |r| == PREFIX_SIZE
  {
    [0] + BigEndian(|body| % LENGTH_LIMIT, 4)
  }

  function Encoded(body: seq<byte>): (r: seq<byte>)
    ensures |r| == PREFIX_SIZE + |body|
  {
    Prefix(body) + body
  }

  function Min(a: nat, b: nat): nat { if a <= b then a else b }

  // ---- Sending ------------------------------------------------------------------------------

  datatype Sender = Sender(body: seq<byte>, pos: nat, first: bool, finished: bool)

  function NewSender(body: seq<byte>): Sender { Sender(body, 0, true, false) }

  predicate SenderOk(s: Sender) {
    && s.pos <= |s.body| && (s.first ==> s.pos == 0)
    && (s.finished ==> !s.first && s.pos == |s.body|)
  }

  /** How many of the encoded bytes are out. */
  function Sent(s: Sender): nat { if s.first then 0 else PREFIX_SIZE + s.pos }

  /** One `H2DataSourceRead` with room for `limit` bytes and the `H2SendData` that follows it. */
  function SendStep(s: Sender, limit: nat): (Sender, seq<byte>)
    requires SenderOk(s) && limit > 0 && (s.first ==> limit >= PREFIX_SIZE)
  {
    if s.finished then (s, [])
    else
      var remaining := |s.body| - s.pos + if s.first then PREFIX_SIZE else 0;
      if remaining == 0 then (s.(finished := true), [])
      else
        var length := Min(remaining, limit) - if s.first then PREFIX_SIZE else 0;
        (s.(pos := s.pos + length, first := false),
         (if s.first then Prefix(s.body) else []) + s.body[s.pos..s.pos + length])
  }

  predicate Legal(s: Sender, limits: seq<nat>) {
    && (forall i :: 0 <= i < |limits| ==> limits[i] > 0)
    && (s.first && limits != [] ==> limits[0] >= PREFIX_SIZE)
  }

  lemma SendStepOk(s: Sender, limit: nat)
    requires SenderOk(s) && limit > 0 && (s.first ==> limit >= PREFIX_SIZE)
    ensures var (s', out) := SendStep(s, limit);
      && SenderOk(s') && !s'.first && s'.body == s.body
      && Sent(s') == Min(Sent(s) + limit, |Encoded(s.body)|)
      && Sent(s) <= Sent(s') && out == Encoded(s.body)[Sent(s)..Sent(s')]
      && (s'.finished <==> Sent(s) == |Encoded(s.body)|)
  {
  }

  /** The sender after a sequence of frames, and the bytes in them. */
  function SendRun(s: Sender, limits: seq<nat>): (Sender, seq<byte>)
    requires SenderOk(s) && Legal(s, limits)
    decreases |limits|
  {
    if limits == [] then (s, [])
    else
      SendStepOk(s, limits[0]);
      var (s1, out) := SendStep(s, limits[0]);
      var (s2, rest) := SendRun(s1, limits[1..]);
      (s2, out + rest)
  }

  function Sum(limits: seq<nat>): nat { if limits == [] then 0 else limits[0] + Sum(limits[1..]) }

  /** All frames but the last: the first of them and all but the last of the rest. */
  lemma {:induction false} SumOfInit(limits: seq<nat>)
    requires limits != []
    ensures Sum(limits[..|limits| - 1]) <= Sum(limits)
    ensures |limits| > 1 ==> Sum(limits[..|limits| - 1]) == limits[0] + Sum(limits[1..][..|limits[1..]| - 1])
    ensures |limits| == 1 ==> Sum(limits[..|limits| - 1]) == 0
  {
    if |limits| > 1 {
      SumOfInit(limits[1..]);
      assert limits[..|limits| - 1][1..] == limits[1..][..|limits[1..]| - 1];
    }
  }

  lemma Cut(s: seq<byte>, a: nat, b: nat, c: nat)
    requires a <= b <= c <= |s|
    ensures s[a..b] + s[b..c] == s[a..c]
  {
  }

  /** What a run of frames achieved: `all` is the encoded message, `from` and `to` what was out before and after. */
  ghost predicate Progress(all: seq<byte>, from: nat, to: nat, out: seq<byte>, limits: seq<nat>, was: bool, finished: bool) {
    && to == Min(from + Sum(limits), |all|) && from <= to
    && out == all[from..to]
    && (finished <==> was || (limits != [] && from + Sum(limits[..|limits| - 1]) >= |all|))
  }

  lemma ProgressCons(all: seq<byte>, from: nat, mid: nat, to: nat, out: seq<byte>, rest: seq<byte>, limits: seq<nat>, was: bool, next: bool, finished: bool)
    requires limits != [] && from <= mid == Min(from + limits[0], |all|) && out == all[from..mid]
    requires (next <==> from == |all|) && (was ==> from == |all|)
    requires Progress(all, mid, to, rest, limits[1..], next, finished)
    ensures Progress(all, from, to, out + rest, limits, was, finished)
  {
    SumOfInit(limits);
    Cut(all, from, mid, to);
  }

  lemma {:induction false} SendRunFrom(s: Sender, limits: seq<nat>)
    requires SenderOk(s) && Legal(s, limits)
    ensures var (s', out) := SendRun(s, limits);
      && SenderOk(s') && s'.body == s.body
      && Progress(Encoded(s.body), Sent(s), Sent(s'), out, limits, s.finished, s'.finished)
    decreases |limits|
  {
    if limits != [] {
      SendStepOk(s, limits[0]);
      var (s1, out) := SendStep(s, limits[0]);
      var (s2, rest) := SendRun(s1, limits[1..]);
      SendRunFrom(s1, limits[1..]);
      ProgressCons(Encoded(s.body), Sent(s), Sent(s1), Sent(s2), out, rest, limits, s.finished, s1.finished, s2.finished);
    }
  }

  lemma ProgressFromStart(all: seq<byte>, to: nat, out: seq<byte>, limits: seq<nat>, finished: bool)
    requires Progress(all, 0, to, out, limits, false, finished)
    ensures out == all[..Min(Sum(limits), |all|)]
    ensures finished <==> limits != [] && Sum(limits[..|limits| - 1]) >= |all|
    ensures finished ==> out == all
  {
    if limits != [] { SumOfInit(limits); }
  }

  /**
   Whatever the frame limits, the DATA bytes are the length prefix followed by the body, cut
   off only where the limits end, and end-of-data is reported exactly by the first read after
   all of it.
   */
  lemma ResponseIsLengthPrefixed(body: seq<byte>, limits: seq<nat>)
    requires |body| < LENGTH_LIMIT && Legal(NewSender(body), limits)
    ensures var (s, out) := SendRun(NewSender(body), limits);
      && out == Encoded(body)[..Min(Sum(limits), |Encoded(body)|)]
      && (s.finished <==> limits != [] && Sum(limits[..|limits| - 1]) >= |Encoded(body)|)
      && (s.finished ==> out == Encoded(body))
  {
    SendRunFrom(NewSender(body), limits);
    var (s, out) := SendRun(NewSender(body), limits);
    ProgressFromStart(Encoded(body), Sent(s), out, limits, s.finished);
  }

  // ---- Receiving ----------------------------------------------------------------------------

  datatype ReceiveState = RecvHeaders | RecvBody | Error

  datatype Receiver = Receiver(state: ReceiveState, first: bool, bodySize: nat, body: seq<byte>)

  const NEW_RECEIVER: Receiver := Receiver(RecvHeaders, true, 0, [])

  /** `H2OnDataChunkRecv`; the first chunk must hold the whole prefix. */
  function Receive(r: Receiver, data: seq<byte>): Receiver
    requires r.first && r.state != Error ==> |data| >= PREFIX_SIZE
  {
    if r.state == Error then r
    else if r.first then
      if data[0] != 0 then r.(state := Error)
      else r.(state := RecvBody, first := false, bodySize := FromBigEndian(data[1..5]), body := r.body + data[5..])
    else r.(state := RecvBody, body := r.body + data)
  }

  function ReceiveAll(r: Receiver, chunks: seq<seq<byte>>): Receiver
    requires r.first && r.state != Error && chunks != [] ==> |chunks[0]| >= PREFIX_SIZE
    decreases |chunks|
  {
    if chunks == [] then r else ReceiveAll(Receive(r, chunks[0]), chunks[1..])
  }

  /** The END_STREAM check: the request is processed, or answered as a bad request. */
  predicate Accepted(r: Receiver) { |r.body| == r.bodySize && r.state != Error }

  lemma {:induction false} ReceiveLater(r: Receiver, chunks: seq<seq<byte>>)
    requires !r.first && r.state == RecvBody
    ensures ReceiveAll(r, chunks) == r.(body := r.body + Flatten(chunks))
    decreases |chunks|
  {
    if chunks == [] {
      assert r.body + Flatten(chunks) == r.body;
    } else {
      ReceiveLater(Receive(r, chunks[0]), chunks[1..]);
      Associate(r.body, chunks[0], Flatten(chunks[1..]));
    }
  }

  lemma {:induction false} ErrorStays(r: Receiver, chunks: seq<seq<byte>>)
    requires r.state == Error
    ensures ReceiveAll(r, chunks) == r
    decreases |chunks|
  {
    if chunks != [] { ErrorStays(r, chunks[1..]); }
  }

  /** The outcome depends only on the bytes received, not on how they were cut. */
  lemma ReceivedStream(chunks: seq<seq<byte>>)
    requires chunks != [] && |chunks[0]| >= PREFIX_SIZE
    ensures var r := ReceiveAll(NEW_RECEIVER, chunks); var s := Flatten(chunks);
      && |s| >= PREFIX_SIZE
      && (s[0] != 0 ==> r.state == Error)
      && (s[0] == 0 ==> r == Receiver(RecvBody, false, FromBigEndian(s[1..5]), s[5..]))
  {
    var r1, s := Receive(NEW_RECEIVER, chunks[0]), Flatten(chunks);
    if chunks[0][0] != 0 {
      ErrorStays(r1, chunks[1..]);
    } else {
      ReceiveLater(r1, chunks[1..]);
      assert s[1..5] == chunks[0][1..5];
      assert s[5..] == [] + chunks[0][5..] + Flatten(chunks[1..]);
    }
  }

  lemma EncodedParts(body: seq<byte>)
    requires |body| < LENGTH_LIMIT
    ensures var s := Encoded(body); s[0] == 0 && FromBigEndian(s[1..5]) == |body| && s[5..] == body
  {
    Pow256Values();
    BigEndianRoundTrip(|body|, 4);
    assert Encoded(body)[1..5] == BigEndian(|body|, 4);
  }

  lemma LengthFromBytes(p: seq<byte>, n: nat)
    requires |p| == 4 && FromBigEndian(p) == n
    ensures n < LENGTH_LIMIT && BigEndian(n % LENGTH_LIMIT, 4) == p
  {
    Pow256Values();
    FromBigEndianRoundTrip(p);
  }

  lemma EncodedFromParts(s: seq<byte>, p: seq<byte>, body: seq<byte>)
    requires |p| == 4 && s == [0] + p + body && FromBigEndian(p) == |body|
    ensures |body| < LENGTH_LIMIT && s == Encoded(body)
  {
    LengthFromBytes(p, |body|);
  }

  /**
   A request is accepted only if it carries no DATA at all, and then its body is empty, or its
   bytes are one length-prefixed message, whose body is handed on;
   */
  lemma AcceptedIsLengthPrefixed(chunks: seq<seq<byte>>)
    requires chunks != [] ==> |chunks[0]| >= PREFIX_SIZE
    ensures var r := ReceiveAll(NEW_RECEIVER, chunks);
      && (chunks == [] ==> Accepted(r) && r.body == [])
      && (chunks != [] && Accepted(r) ==> |r.body| < LENGTH_LIMIT && Flatten(chunks) == Encoded(r.body))
  {
    if chunks != [] {
      ReceivedStream(chunks);
      if Accepted(ReceiveAll(NEW_RECEIVER, chunks)) { AcceptedStream(ReceiveAll(NEW_RECEIVER, chunks), Flatten(chunks)); }
    }
  }

  /** and every length-prefixed message is accepted, however it is cut. */
  lemma LengthPrefixedIsAccepted(chunks: seq<seq<byte>>, body: seq<byte>)
    requires chunks != [] && |chunks[0]| >= PREFIX_SIZE
    requires |body| < LENGTH_LIMIT && Flatten(chunks) == Encoded(body)
    ensures Accepted(ReceiveAll(NEW_RECEIVER, chunks)) && ReceiveAll(NEW_RECEIVER, chunks).body == body
  {
    ReceivedStream(chunks);
    EncodedParts(body);
  }

  lemma AcceptedStream(r: Receiver, s: seq<byte>)
    requires |s| >= PREFIX_SIZE && Accepted(r) && s[0] == 0
    requires r.body == s[5..] && r.bodySize == FromBigEndian(s[1..5])
    ensures |r.body| < LENGTH_LIMIT && s == Encoded(r.body)
  {
    assert s == [s[0]] + s[1..5] + s[5..];
    EncodedFromParts(s, s[1..5], s[5..]);
  }

  /** What the sender emits, the receiver takes back, for any limits and any re-cutting. */
  lemma SendReceiveRoundTrip(body: seq<byte>, limits: seq<nat>, chunks: seq<seq<byte>>)
    requires |body| < LENGTH_LIMIT && Legal(NewSender(body), limits) && SendRun(NewSender(body), limits).0.finished
    requires Flatten(chunks) == SendRun(NewSender(body), limits).1 && chunks != [] && |chunks[0]| >= PREFIX_SIZE
    ensures Accepted(ReceiveAll(NEW_RECEIVER, chunks)) && ReceiveAll(NEW_RECEIVER, chunks).body == body
  {
    ResponseIsLengthPrefixed(body, limits);
    LengthPrefixedIsAccepted(chunks, body);
  }

  // ---- The stream context -------------------------------------------------------------------

  datatype StreamState = Created | Headers | RequestBody | Processing | SendResponse | Failed | Finished

  /** The fields of `H2StreamContext` that the two directions work on. */
  class StreamContext {
    var state: StreamState
    var firstDataChunk: bool
    var bodySize: nat
    var bodyBuffer: seq<byte>
    var badRequest: bool
    var responseBody: seq<byte>
    var responseWritePos: nat
    var firstResponseFrame: bool

    ghost predicate Receiving()
      reads this
    {
      state == Headers || state == RequestBody || state == Failed
    }

    ghost function ReceiverView(): Receiver
      reads this
    {
      Receiver(if state == Failed then Error else if state == Headers then RecvHeaders else RecvBody, firstDataChunk, bodySize, bodyBuffer)
    }

    ghost function SenderView(): Sender
      reads this
    {
      Sender(responseBody, responseWritePos, firstResponseFrame, state == Finished)
    }

    constructor ()
      ensures Receiving() && ReceiverView() == NEW_RECEIVER && !badRequest
      ensures SenderView() == NewSender([])
    {
      state, firstDataChunk, bodySize, bodyBuffer := Headers, true, 0, [];
      badRequest, responseBody, responseWritePos, firstResponseFrame := false, [], 0, true;
    }

    method OnDataChunkRecv(data: seq<byte>)
      requires Receiving() && (firstDataChunk && state != Failed ==> |data| >= PREFIX_SIZE)
      modifies this
      ensures Receiving() && ReceiverView() == Receive(old(ReceiverView()), data)
      ensures SenderView() == old(SenderView())
      ensures badRequest == (old(badRequest) || (state == Failed && old(state) != Failed))
    {
      if state == Failed { return; }
      if state == Headers { state := RequestBody; }
      if firstDataChunk {
        if data[0] != 0 {
          badRequest, state := true, Failed;
          return;
        }
        bodySize := FromBigEndian(data[1..5]);
        if |data| > PREFIX_SIZE { bodyBuffer := bodyBuffer + data[PREFIX_SIZE..]; }
        firstDataChunk := false;
      } else {
        bodyBuffer := bodyBuffer + data;
      }
    }

    /** Any list of chunk callbacks. */
    method ReceiveChunks(chunks: seq<seq<byte>>)
      requires Receiving() && (firstDataChunk && state != Failed && chunks != [] ==> |chunks[0]| >= PREFIX_SIZE)
      modifies this
      ensures Receiving() && ReceiverView() == ReceiveAll(old(ReceiverView()), chunks)
      decreases |chunks|
    {
      if chunks != [] {
        OnDataChunkRecv(chunks[0]);
        ReceiveChunks(chunks[1..]);
      }
    }

    /** Any list of frames; the first end-of-data ends it. */
    method SendFrames(limits: seq<nat>) returns (out: seq<byte>)
      requires SenderOk(SenderView()) && Legal(SenderView(), limits) && (state == SendResponse || state == Finished)
      modifies this`state, this`responseWritePos, this`firstResponseFrame
      ensures (SenderView(), out) == SendRun(old(SenderView()), limits)
      decreases |limits|
    {
      out := [];
      if limits == [] { return; }
      SendStepOk(SenderView(), limits[0]);
      if state == SendResponse {
        var eof;
        out, eof := SendFrame(limits[0]);
      }
      var rest := SendFrames(limits[1..]);
      out := out + rest;
    }

    /** END_STREAM: processing starts exactly when the length matched and nothing failed before. */
    method OnEndStream() returns (accepted: bool)
      requires Receiving()
      modifies this`state, this`badRequest
      ensures accepted == Accepted(old(ReceiverView()))
      ensures state == if accepted then Processing else SendResponse
      ensures badRequest == (old(badRequest) || |bodyBuffer| != bodySize)
    {
      if |bodyBuffer| != bodySize { badRequest, state := true, Failed; }
      if state == Failed {
        state := SendResponse;
        return false;
      }
      state := Processing;
      return true;
    }

    /** The length callback and the send callback for one frame. */
    method SendFrame(limit: nat) returns (out: seq<byte>, eof: bool)
      requires state == SendResponse && SenderOk(SenderView()) && limit > 0 && (firstResponseFrame ==> limit >= PREFIX_SIZE)
      modifies this`state, this`responseWritePos, this`firstResponseFrame
      ensures (SenderView(), out) == SendStep(old(SenderView()), limit)
      ensures state == (if eof then Finished else SendResponse) && SenderOk(SenderView())
    {
      var remaining := |responseBody| - responseWritePos;
      if firstResponseFrame { remaining := remaining + PREFIX_SIZE; }
      if remaining == 0 {
        state := Finished;
        return [], true;
      }
      var length := Min(remaining, limit);
      out, eof := [], false;
      var pos := responseWritePos;
      if firstResponseFrame {
        length := length - PREFIX_SIZE;
        out := [0] + BigEndian(|responseBody| % LENGTH_LIMIT, 4);
        firstResponseFrame := false;
      }
      out := out + responseBody[pos..pos + length];
      responseWritePos := responseWritePos + length;
    }
  }
}
