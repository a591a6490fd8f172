/**
 The launcher's end of its connection to the engine (`launcher/engine_connection.cpp`): one
 handshake response with a payload of its own length, then fixed-size messages. The first
 reader hands its buffer over to the second.
 */
module Launcher {
  import opened Bytes
  import opened Framing
  import opened Buffers

  const MESSAGE_SIZE: nat := 1024
  const PAYLOAD_SIZE_OFFSET: nat := 24

  /** `Stopped`: the launcher refused the response and reading was stopped. */
  datatype Reader = AwaitingResponse(held: seq<byte>) | Reading(held: seq<byte>) | Stopped(held: seq<byte>)

  /** What a run of callbacks delivered: handshake responses with payload, and messages. */
  datatype Delivery = Delivery(responses: seq<seq<byte>>, messages: seq<seq<byte>>)

  const NOTHING: Delivery := Delivery([], [])

  function Plus(a: Delivery, b: Delivery): Delivery { Delivery(a.responses + b.responses, a.messages + b.messages) }

  /** The size of a complete handshake response, 0 while it is incomplete. */
  function ResponseSize(s: seq<byte>): (n: nat)
    ensures n <= |s|
  {
    if |s| < MESSAGE_SIZE then 0
    else
      var size := Int32At(s, PAYLOAD_SIZE_OFFSET);
      if size >= 0 && |s| >= MESSAGE_SIZE + size then MESSAGE_SIZE + size else 0
  }

  /**
   The outcome once `s` has arrived in full; `accepted` is the launcher's verdict on the
   response. Messages that came with it are delivered either way.
   */
  function Outcome(s: seq<byte>, accepted: bool): (Reader, Delivery) {
    var n := ResponseSize(s);
    if n == 0 then (AwaitingResponse(s), NOTHING)
    else
      var rest := Rest(BlockSizer(MESSAGE_SIZE), s[n..]);
      (if accepted then Reading(rest) else Stopped(rest),
       Delivery([s[..n]], Frames(BlockSizer(MESSAGE_SIZE), s[n..])))
  }

  /** One read callback; a stopped reader gets none. */
  function Feed(r: Reader, chunk: seq<byte>, accepted: bool): (Reader, Delivery) {
    match r
    case AwaitingResponse(held) => Outcome(held + chunk, accepted)
    case Reading(held) =>
      (Reading(Rest(BlockSizer(MESSAGE_SIZE), held + chunk)),
       Delivery([], Frames(BlockSizer(MESSAGE_SIZE), held + chunk)))
    case Stopped(_) => (r, NOTHING)
  }

  function FeedAll(r: Reader, chunks: seq<seq<byte>>, accepted: bool): (Reader, Delivery)
    decreases |chunks|
  {
    if chunks == [] then (r, NOTHING)
    else
      var (r1, now) := Feed(r, chunks[0], accepted);
      var (r2, later) := FeedAll(r1, chunks[1..], accepted);
      (r2, Plus(now, later))
  }

  /** At every read of the handshake, what is held and the new chunk are at most 2^30 bytes; afterwards any length goes. */
  ghost predicate ChunksFit(r: Reader, chunks: seq<seq<byte>>, accepted: bool)
    decreases |chunks|
  {
    chunks == []
    || ((r.AwaitingResponse? ==> |r.held| + |chunks[0]| <= MAX_LENGTH)
        && ChunksFit(Feed(r, chunks[0], accepted).0, chunks[1..], accepted))
  }

  /** After a refusal nothing more is delivered. */
  lemma {:induction false} StoppedStays(held: seq<byte>, chunks: seq<seq<byte>>, accepted: bool)
    ensures FeedAll(Stopped(held), chunks, accepted) == (Stopped(held), NOTHING)
    decreases |chunks|
  {
    if chunks != [] {
      StoppedStays(held, chunks[1..], accepted);
      NothingIsNeutral(NOTHING);
    }
  }

  lemma {:induction false} FeedAllReading(held: seq<byte>, chunks: seq<seq<byte>>)
    requires |held| < MESSAGE_SIZE
    ensures FeedAll(Reading(held), chunks, true)
         == (Reading(Rest(BlockSizer(MESSAGE_SIZE), held + Flatten(chunks))),
             Delivery([], Frames(BlockSizer(MESSAGE_SIZE), held + Flatten(chunks))))
    decreases |chunks|
  {
    var f := BlockSizer(MESSAGE_SIZE);
    BlockSizerStable(MESSAGE_SIZE);
    if chunks == [] {
      assert held + Flatten(chunks) == held;
    } else {
      var s, t := held + chunks[0], Flatten(chunks[1..]);
      RestHasNoFrame(f, s);
      FeedAllReading(Rest(f, s), chunks[1..]);
      FramesAppend(f, s, t);
      Associate(held, chunks[0], t);
      assert FeedAll(Reading(held), chunks, true).1.responses == [];
    }
  }

  /** Once the response is complete, what follows is read as if it had come with it. */
  lemma OutcomeAppend(s: seq<byte>, chunks: seq<seq<byte>>)
    requires ResponseSize(s) > 0
    ensures (FeedAll(Outcome(s, true).0, chunks, true).0, Plus(Outcome(s, true).1, FeedAll(Outcome(s, true).0, chunks, true).1))
         == Outcome(s + Flatten(chunks), true)
  {
    var f, n, t := BlockSizer(MESSAGE_SIZE), ResponseSize(s), Flatten(chunks);
    var st := s + t;
    assert st[24..28] == s[24..28];
    assert ResponseSize(st) == n && st[..n] == s[..n] && st[n..] == s[n..] + t;
    BlockSizerStable(MESSAGE_SIZE);
    RestHasNoFrame(f, s[n..]);
    FeedAllReading(Rest(f, s[n..]), chunks);
    FramesAppend(f, s[n..], t);
    assert Plus(Outcome(s, true).1, FeedAll(Outcome(s, true).0, chunks, true).1).responses == [s[..n]];
  }

  /**
   For every byte stream with an acceptable response and every chunking, both readers together deliver what the whole
   stream holds: nothing is lost or repeated at the hand-over, wherever a chunk ends.
   */
  lemma {:induction false} HandOverIsSeamless(held: seq<byte>, chunks: seq<seq<byte>>)
    requires ResponseSize(held) == 0
    ensures FeedAll(AwaitingResponse(held), chunks, true) == Outcome(held + Flatten(chunks), true)
    decreases |chunks|
  {
    if chunks == [] {
      assert held + Flatten(chunks) == held;
    } else {
      var s := held + chunks[0];
      Associate(held, chunks[0], Flatten(chunks[1..]));
      if ResponseSize(s) == 0 {
        HandOverIsSeamless(s, chunks[1..]);
        var later := FeedAll(AwaitingResponse(s), chunks[1..], true).1;
        assert Plus(NOTHING, later) == later by { NothingIsNeutral(later); }
      } else {
        OutcomeAppend(s, chunks[1..]);
      }
    }
  }

  lemma NothingIsNeutral(d: Delivery)
    ensures Plus(NOTHING, d) == d
  {
    assert [] + d.responses == d.responses && [] + d.messages == d.messages;
  }

  /** The engine's stream, cut in any way, gives back its response and its messages. */
  lemma EngineStreamIsDelivered(response: seq<byte>, messages: seq<seq<byte>>, chunks: seq<seq<byte>>)
    requires |response| >= MESSAGE_SIZE && |response| == MESSAGE_SIZE + Int32At(response, PAYLOAD_SIZE_OFFSET)
    requires forall m :: m in messages ==> |m| == MESSAGE_SIZE
    requires Flatten(chunks) == response + Flatten(messages)
    ensures FeedAll(AwaitingResponse([]), chunks, true) == (Reading([]), Delivery([response], messages))
  {
    var s, t := Flatten(chunks), Flatten(messages);
    HandOverIsSeamless([], chunks);
    assert [] + s == s;
    assert s[24..28] == response[24..28];
    assert ResponseSize(s) == |response| && s[..|response|] == response && s[|response|..] == t;
    BlockSizerStable(MESSAGE_SIZE);
    FramesOfFrames(BlockSizer(MESSAGE_SIZE), messages);
  }

  /** The launcher's connection object: two read callbacks on one buffer. */
  class EngineConnection {
    const messageBuffer: AppendableBuffer
    var running: bool
    var stopped: bool

    ghost predicate Valid()
      reads this, messageBuffer, messageBuffer.buf
    {
      messageBuffer.Valid() && (running ==> |messageBuffer.Contents()| < MESSAGE_SIZE && !stopped)
    }

    /** The abstract reader this object stands for. */
    ghost function View(): Reader
      requires Valid()
      reads this, messageBuffer, messageBuffer.buf
    {
      if running then Reading(messageBuffer.Contents())
      else if stopped then Stopped(messageBuffer.Contents())
      else AwaitingResponse(messageBuffer.Contents())
    }

    constructor ()
      ensures Valid() && View() == AwaitingResponse([])
      ensures fresh(messageBuffer) && fresh(messageBuffer.buf)
    {
      messageBuffer := new AppendableBuffer(INLINE_BUFFER_SIZE);
      running, stopped := false, false;
    }

    /** The first reader; `accepted` is what the launcher will say to a complete response. */
    method OnReadHandshakeResponse(data: seq<byte>, accepted: bool) returns (delivered: Delivery)
      requires Valid() && !running && !stopped && messageBuffer.CanHold(|messageBuffer.Contents()| + |data|)
      modifies this, messageBuffer, messageBuffer.buf
      ensures Valid() && (messageBuffer.buf == old(messageBuffer.buf) || fresh(messageBuffer.buf))
      ensures (View(), delivered) == Feed(old(View()), data, accepted)
    {
      delivered := NOTHING;
      messageBuffer.AppendData(data);
      if messageBuffer.pos as int >= MESSAGE_SIZE {
        var s := messageBuffer.buf[..messageBuffer.pos];
        var payloadSize := Int32At(s, PAYLOAD_SIZE_OFFSET);
        if payloadSize >= 0 && |s| >= MESSAGE_SIZE + payloadSize {
          delivered := FinishHandshake(MESSAGE_SIZE + payloadSize, accepted);
        }
      }
    }

    method FinishHandshake(expectedSize: nat, accepted: bool) returns (delivered: Delivery)
      requires messageBuffer.Valid() && !running && ResponseSize(messageBuffer.Contents()) == expectedSize > 0
      modifies this, messageBuffer, messageBuffer.buf
      ensures Valid() && messageBuffer.buf == old(messageBuffer.buf)
      ensures (View(), delivered) == Outcome(old(messageBuffer.Contents()), accepted)
    {
      var response := messageBuffer.buf[..expectedSize];
      assert response == messageBuffer.Contents()[..expectedSize];
      running, stopped := accepted, !accepted;
      messageBuffer.ConsumeFront(expectedSize as int32);
      var messages := DrainMessages();
      delivered := Delivery([response], messages);
    }

    /** The loop at the end of the handshake callback. */
    method DrainMessages() returns (messages: seq<seq<byte>>)
      requires messageBuffer.Valid()
      modifies messageBuffer, messageBuffer.buf
      ensures messageBuffer.Valid() && messageBuffer.buf == old(messageBuffer.buf)
      ensures messages == Frames(BlockSizer(MESSAGE_SIZE), old(messageBuffer.Contents()))
      ensures messageBuffer.Contents() == Rest(BlockSizer(MESSAGE_SIZE), old(messageBuffer.Contents()))
      ensures |messageBuffer.Contents()| < MESSAGE_SIZE
    {
      ghost var f, stream := BlockSizer(MESSAGE_SIZE), messageBuffer.Contents();
      messages := [];
      while messageBuffer.pos as int >= MESSAGE_SIZE
        invariant messageBuffer.Valid() && messageBuffer.buf == old(messageBuffer.buf)
        invariant messages + Frames(f, messageBuffer.Contents()) == Frames(f, stream)
        invariant Rest(f, messageBuffer.Contents()) == Rest(f, stream)
        decreases messageBuffer.pos
      {
        ghost var s := messageBuffer.Contents();
        TakeOne(f, s, messages, stream);
        var message := messageBuffer.buf[..MESSAGE_SIZE];
        assert message == s[..f(s)];
        messages := messages + [message];
        messageBuffer.ConsumeFront(MESSAGE_SIZE as int32);
      }
    }

    /** The second reader. */
    method OnReadMessage(data: seq<byte>) returns (delivered: Delivery)
      requires Valid() && running
      modifies messageBuffer, messageBuffer.buf
      ensures Valid() && (messageBuffer.buf == old(messageBuffer.buf) || fresh(messageBuffer.buf))
      ensures forall accepted :: (View(), delivered) == Feed(old(View()), data, accepted)
    {
      var messages := ReadMessages(messageBuffer, data, MESSAGE_SIZE as int32);
      delivered := Delivery([], messages);
    }

    /** Any list of chunks, each given to the callback that is registered when it arrives. */
    method FeedChunks(chunks: seq<seq<byte>>, accepted: bool) returns (delivered: Delivery)
      requires Valid() && ChunksFit(View(), chunks, accepted)
      modifies this, messageBuffer, messageBuffer.buf
      ensures Valid() && (messageBuffer.buf == old(messageBuffer.buf) || fresh(messageBuffer.buf))
      ensures (View(), delivered) == FeedAll(old(View()), chunks, accepted)
      decreases |chunks|
    {
      delivered := NOTHING;
      if chunks == [] { return; }
      var now := NOTHING;
      if running {
        now := OnReadMessage(chunks[0]);
      } else if !stopped {
        messageBuffer.HoldsGigabyte(|messageBuffer.Contents()| + |chunks[0]|);
        now := OnReadHandshakeResponse(chunks[0], accepted);
      }
      var later := FeedChunks(chunks[1..], accepted);
      delivered := Plus(now, later);
    }
  }

  /** A new connection fed with the engine's stream, cut in any way, delivers its response and its messages. */
  method ReceiveEngineStream(response: seq<byte>, messages: seq<seq<byte>>, chunks: seq<seq<byte>>) returns (delivered: Delivery)
    requires |response| >= MESSAGE_SIZE && |response| == MESSAGE_SIZE + Int32At(response, PAYLOAD_SIZE_OFFSET)
    requires forall m :: m in messages ==> |m| == MESSAGE_SIZE
    requires Flatten(chunks) == response + Flatten(messages) && ChunksFit(AwaitingResponse([]), chunks, true)
    ensures delivered == Delivery([response], messages)
  {
    EngineStreamIsDelivered(response, messages, chunks);
    var c := new EngineConnection();
    delivered := c.FeedChunks(chunks, true);
  }
}
