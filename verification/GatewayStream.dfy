/**
 The byte stream between engine and gateway: 16-byte messages followed by their payloads,
 printed by `SendMessage` in buffer-sized writes and parsed back by `ProcessGatewayMessages`,
 behind a handshake that names the node (`engine/gateway_connection.cpp`,
 `gateway/engine_connection.cpp`, the handshake reader of `gateway/server.cpp`).
 */
module GatewayStream {
  import opened Bytes
  import opened Framing
  import opened Protocol

  const MESSAGE_SIZE: nat := 16
  const WORD32: nat := 0x1_0000_0000

  /**
   `struct GatewayMessage`. `detail` is the 4-byte union: node and connection id of a handshake,
   processing time or status code of a completion.
   */
  datatype GatewayMessage = GatewayMessage(code: nat, call: FuncCall, detail: nat, payloadSize: int)

  predicate WellFormed(m: GatewayMessage) {
    m.code < 16 && InRange(m.call) && m.detail < WORD32 && IsInt32(m.payloadSize)
  }

  /** The struct's bytes. */
  function Encode(m: GatewayMessage): (r: seq<byte>)
    ensures |r| == MESSAGE_SIZE
  {
    LittleEndian(PackedHeader(m.code, m.call), 8) + LittleEndian(m.detail, 4) + Int32Bytes(m.payloadSize)
  }

  function Decode(s: seq<byte>): GatewayMessage
    requires |s| >= MESSAGE_SIZE
  {
    var (code, call) := UnpackedHeader(FromLittleEndian(s[..8]));
    GatewayMessage(code, call, FromLittleEndian(s[8..12]), Int32At(s, 12))
  }

  lemma DecodeEncode(m: GatewayMessage, tail: seq<byte>)
    requires WellFormed(m)
    ensures Decode(Encode(m) + tail) == m
  {
    var s := Encode(m) + tail;
    assert s[..8] == LittleEndian(PackedHeader(m.code, m.call), 8);
    assert s[8..12] == LittleEndian(m.detail, 4);
    assert s[12..16] == Int32Bytes(m.payloadSize);
    GoMatchesCpp(m.code, m.call);
    Pow256Values();
    LittleEndianRoundTrip(PackedHeader(m.code, m.call), 8);
    HeaderRoundTrip(m.code, m.call);
    LittleEndianRoundTrip(m.detail, 4);
    Int32RoundTrip(m.payloadSize);
  }

  lemma DecodeReadsHeader(s: seq<byte>, t: seq<byte>)
    requires |s| >= MESSAGE_SIZE
    ensures Decode(s + t) == Decode(s)
  {
    assert (s + t)[..8] == s[..8] && (s + t)[8..12] == s[8..12] && (s + t)[12..16] == s[12..16];
  }

  // ---- Frames -------------------------------------------------------------------------------

  datatype Frame = Frame(message: GatewayMessage, payload: seq<byte>)

  /** What `SendMessage` insists on. */
  predicate Sendable(f: Frame) { WellFormed(f.message) && f.message.payloadSize == |f.payload| }

  function FrameBytes(f: Frame): (r: seq<byte>)
    ensures |r| == MESSAGE_SIZE + |f.payload|
  {
    Encode(f.message) + f.payload
  }

  /** The size of the first complete frame, 0 if it is not complete. */
  function FrameSize(s: seq<byte>): nat {
    if |s| < MESSAGE_SIZE then 0
    else
      var size := Int32At(s, 12);
      if size >= 0 && |s| >= MESSAGE_SIZE + size then MESSAGE_SIZE + size else 0
  }

  /** The frame held by its bytes. */
  function ReadFrame(s: seq<byte>): Frame {
    if |s| < MESSAGE_SIZE then Frame(GatewayMessage(0, FuncCall(0, 0, 0, 0), 0, 0), [])
    else Frame(Decode(s), s[MESSAGE_SIZE..])
  }

  function AllBytes(frames: seq<Frame>): seq<seq<byte>> {
    seq(|frames|, i requires 0 <= i < |frames| => FrameBytes(frames[i]))
  }

  /** Everything the parser delivers from a byte string, and what it keeps. */
  function Parse(s: seq<byte>): seq<Frame> { Map(ReadFrame, Frames(FrameSize, s)) }
  function Unparsed(s: seq<byte>): seq<byte> { Rest(FrameSize, s) }

  lemma FrameSizeStable()
    ensures Stable(FrameSize)
  {
    forall s: seq<byte>, t: seq<byte> | FrameSize(s) > 0 ensures FrameSize(s + t) == FrameSize(s) {
      assert (s + t)[12..16] == s[12..16];
    }
  }

  lemma FrameRoundTrip(f: Frame)
    requires Sendable(f)
    ensures FrameSize(FrameBytes(f)) == |FrameBytes(f)| && ReadFrame(FrameBytes(f)) == f
  {
    DecodeEncode(f.message, f.payload);
    assert FrameBytes(f)[MESSAGE_SIZE..] == f.payload;
  }

  /** The parser undoes the printer on every list of messages. */
  lemma ParsePrinted(frames: seq<Frame>)
    requires forall f :: f in frames ==> Sendable(f)
    ensures Parse(Flatten(AllBytes(frames))) == frames && Unparsed(Flatten(AllBytes(frames))) == []
  {
    var blocks := AllBytes(frames);
    forall i | 0 <= i < |frames|
      ensures FrameSize(blocks[i]) == |blocks[i]| > 0 && ReadFrame(blocks[i]) == frames[i]
    {
      assert frames[i] in frames;
      FrameRoundTrip(frames[i]);
    }
    FrameSizeStable();
    ReadBack(FrameSize, ReadFrame, blocks, frames);
  }

  // ---- Handshake, then messages -------------------------------------------------------------

  /** The receiving end of a connection that an engine opened. */
  datatype Peer =
    | Handshaking(held: seq<byte>)
    | Running(node: nat, conn: nat, held: seq<byte>)
    | Refused

  function Handshake(node: nat, conn: nat): GatewayMessage {
    GatewayMessage(Code(EngineHandshake), FuncCall(0, 0, 0, 0), node + 0x1_0000 * conn, 0)
  }

  /** The peer once `s` has arrived in full. */
  function Accept(s: seq<byte>): (Peer, seq<Frame>) {
    if |s| < MESSAGE_SIZE then (Handshaking(s), [])
    else
      var m := Decode(s);
      if m.code != Code(EngineHandshake) then (Refused, [])
      else
        var remaining := s[MESSAGE_SIZE..];
        (Running(m.detail % 0x1_0000, m.detail / 0x1_0000, Unparsed(remaining)), Parse(remaining))
  }

  /** One read callback: the state after it and the messages it delivers. */
  function Feed(p: Peer, chunk: seq<byte>): (Peer, seq<Frame>) {
    match p
    case Handshaking(held) => Accept(held + chunk)
    case Running(node, conn, held) => (Running(node, conn, Unparsed(held + chunk)), Parse(held + chunk))
    case Refused => (Refused, [])
  }

  function FeedAll(p: Peer, chunks: seq<seq<byte>>): (Peer, seq<Frame>)
    decreases |chunks|
  {
    if chunks == [] then (p, [])
    else
      var (q, now) := Feed(p, chunks[0]);
      var (r, later) := FeedAll(q, chunks[1..]);
      (r, now + later)
  }

  lemma {:induction false} FeedAllRunning(node: nat, conn: nat, held: seq<byte>, chunks: seq<seq<byte>>)
    requires FrameSize(held) == 0
    ensures FeedAll(Running(node, conn, held), chunks)
         == (Running(node, conn, Unparsed(held + Flatten(chunks))), Parse(held + Flatten(chunks)))
    decreases |chunks|
  {
    FrameSizeStable();
    if chunks == [] {
      assert held + Flatten(chunks) == held;
      assert Parse(held) == [];
    } else {
      var s := held + chunks[0];
      RestHasNoFrame(FrameSize, s);
      FeedAllRunning(node, conn, Unparsed(s), chunks[1..]);
      ParseAppend(s, Flatten(chunks[1..]));
      Associate(held, chunks[0], Flatten(chunks[1..]));
    }
  }

  lemma ParseAppend(s: seq<byte>, t: seq<byte>)
    ensures Parse(s + t) == Parse(s) + Parse(Unparsed(s) + t)
    ensures Unparsed(s + t) == Unparsed(Unparsed(s) + t)
  {
    FrameSizeStable();
    FramesAppend(FrameSize, s, t);
    var a, b := Frames(FrameSize, s), Frames(FrameSize, Unparsed(s) + t);
    MapAppend(ReadFrame, a, b);
  }

  /** What arrives after the handshake is parsed as if it had arrived with it. */
  lemma AcceptAppend(s: seq<byte>, chunks: seq<seq<byte>>)
    requires |s| >= MESSAGE_SIZE
    ensures var (p, now) := Accept(s);
      var (q, later) := FeedAll(p, chunks);
      (q, now + later) == Accept(s + Flatten(chunks))
  {
    var t, remaining := Flatten(chunks), s[MESSAGE_SIZE..];
    DecodeReadsHeader(s, t);
    assert (s + t)[MESSAGE_SIZE..] == remaining + t;
    var m := Decode(s);
    if m.code == Code(EngineHandshake) {
      FrameSizeStable();
      RestHasNoFrame(FrameSize, remaining);
      FeedAllRunning(m.detail % 0x1_0000, m.detail / 0x1_0000, Unparsed(remaining), chunks);
      ParseAppend(remaining, t);
    } else {
      RefusedStays(chunks);
      assert Accept(s).1 + FeedAll(Refused, chunks).1 == [];
    }
  }

  lemma {:induction false} RefusedStays(chunks: seq<seq<byte>>)
    ensures FeedAll(Refused, chunks) == (Refused, [])
    decreases |chunks|
  {
    if chunks != [] {
      RefusedStays(chunks[1..]);
      assert FeedAll(Refused, chunks).1 == [];
    }
  }

  /** On every byte stream, however it is cut: the outcome is that of the whole stream at once. */
  lemma {:induction false} HandshakeChunkingDoesNotMatter(held: seq<byte>, chunks: seq<seq<byte>>)
    requires |held| < MESSAGE_SIZE
    ensures FeedAll(Handshaking(held), chunks) == Accept(held + Flatten(chunks))
    decreases |chunks|
  {
    if chunks == [] {
      assert held + Flatten(chunks) == held;
    } else {
      var s := held + chunks[0];
      Associate(held, chunks[0], Flatten(chunks[1..]));
      if |s| < MESSAGE_SIZE {
        HandshakeChunkingDoesNotMatter(s, chunks[1..]);
        assert FeedAll(Handshaking(held), chunks).1 == FeedAll(Handshaking(s), chunks[1..]).1;
      } else {
        AcceptAppend(s, chunks[1..]);
      }
    }
  }

  lemma AcceptDecoded(s: seq<byte>, m: GatewayMessage, node: nat, conn: nat)
    requires |s| >= MESSAGE_SIZE && Decode(s) == m && m.code == Code(EngineHandshake)
    requires node < 0x1_0000 && m.detail == node + 0x1_0000 * conn
    ensures Accept(s) == (Running(node, conn, Unparsed(s[MESSAGE_SIZE..])), Parse(s[MESSAGE_SIZE..]))
  {
  }

  lemma AcceptHandshake(node: nat, conn: nat, s: seq<byte>, tail: seq<byte>)
    requires node < 0x1_0000 && conn < 0x1_0000 && s == Encode(Handshake(node, conn)) + tail
    ensures Accept(s) == (Running(node, conn, Unparsed(tail)), Parse(tail))
  {
    var m := Handshake(node, conn);
    DecodeEncode(m, tail);
    AcceptDecoded(s, m, node, conn);
    assert s[MESSAGE_SIZE..] == tail;
  }

  /**
   For every list of messages and every chunking of the stream that carries the handshake and
   them, the gateway learns the node and receives exactly that list, in order.
   */
  lemma EngineStreamIsDelivered(node: nat, conn: nat, frames: seq<Frame>, chunks: seq<seq<byte>>)
    requires node < 0x1_0000 && conn < 0x1_0000 && forall f :: f in frames ==> Sendable(f)
    requires Flatten(chunks) == Encode(Handshake(node, conn)) + Flatten(AllBytes(frames))
    ensures FeedAll(Handshaking([]), chunks) == (Running(node, conn, []), frames)
  {
    var s := [] + Flatten(chunks);
    assert s == Flatten(chunks);
    HandshakeChunkingDoesNotMatter([], chunks);
    ParsePrinted(frames);
    AcceptHandshake(node, conn, s, Flatten(AllBytes(frames)));
  }

  /** The other direction has no handshake: the engine parses from an empty buffer. */
  lemma GatewayStreamIsDelivered(node: nat, conn: nat, frames: seq<Frame>, chunks: seq<seq<byte>>)
    requires forall f :: f in frames ==> Sendable(f)
    requires Flatten(chunks) == Flatten(AllBytes(frames))
    ensures FeedAll(Running(node, conn, []), chunks) == (Running(node, conn, []), frames)
  {
    FeedAllRunning(node, conn, [], chunks);
    assert [] + Flatten(chunks) == Flatten(chunks);
    ParsePrinted(frames);
  }

  lemma AssociateFrames(a: seq<Frame>, b: seq<Frame>, c: seq<Frame>)
    ensures a + (b + c) == a + b + c
  {
  }

  lemma {:induction false} FeedAllAppend(p: Peer, a: seq<seq<byte>>, b: seq<seq<byte>>)
    ensures FeedAll(p, a + b)
         == (FeedAll(FeedAll(p, a).0, b).0, FeedAll(p, a).1 + FeedAll(FeedAll(p, a).0, b).1)
    decreases |a|
  {
    if a == [] {
      assert a + b == b;
      assert FeedAll(p, a).1 + FeedAll(p, b).1 == FeedAll(p, b).1;
    } else {
      var ab, q := a + b, Feed(p, a[0]);
      assert ab[0] == a[0] && ab[1..] == a[1..] + b;
      FeedAllAppend(q.0, a[1..], b);
      var r := FeedAll(q.0, a[1..]);
      AssociateFrames(q.1, r.1, FeedAll(r.0, b).1);
    }
  }

  /** While the stream is still arriving, what was delivered is a prefix of what was sent. */
  lemma DeliveredIsPrefix(node: nat, conn: nat, frames: seq<Frame>, chunks: seq<seq<byte>>, missing: seq<byte>)
    requires node < 0x1_0000 && conn < 0x1_0000 && forall f :: f in frames ==> Sendable(f)
    requires Flatten(chunks) + missing == Encode(Handshake(node, conn)) + Flatten(AllBytes(frames))
    ensures FeedAll(Handshaking([]), chunks).1 <= frames
  {
    FlattenSnoc(chunks, missing);
    EngineStreamIsDelivered(node, conn, frames, chunks + [missing]);
    FeedAllAppend(Handshaking([]), chunks, [missing]);
  }
}

/** The connection objects that print and parse that stream. */
module GatewayConnections {
  import opened Bytes
  import opened Framing
  import opened Protocol
  import opened Buffers
  import opened GatewayStream

  datatype ConnState = Created | Open | Closing | Closed

  /** `GatewayConnection` on the engine and `EngineConnection` on the gateway: same code. */
  class Connection {
    const readBuffer: AppendableBuffer
    var state: ConnState

    ghost predicate Valid()
      reads this, readBuffer
    {
      readBuffer.Valid()
    }

    /** `initialData` is what arrived behind the handshake; empty on the engine's side. */
    constructor (initialData: seq<byte>)
      requires Doubled(INLINE_BUFFER_SIZE as nat, |initialData|) < INT_LIMIT
      ensures Valid() && state == Created && readBuffer.Contents() == initialData
      ensures fresh(readBuffer) && fresh(readBuffer.buf)
    {
      state := Created;
      readBuffer := new AppendableBuffer(INLINE_BUFFER_SIZE);
      new;
      readBuffer.AppendData(initialData);
    }

    /** One round of the parse loop: the first frame is taken off if it is complete. */
    method TakeFrame() returns (got: bool, frame: Frame)
      requires Valid()
      modifies readBuffer, readBuffer.buf
      ensures Valid() && readBuffer.buf == old(readBuffer.buf)
      ensures got <==> FrameSize(old(readBuffer.Contents())) > 0
      ensures !got ==> readBuffer.Contents() == old(readBuffer.Contents())
      ensures got ==> frame == Frame(Decode(old(readBuffer.Contents())), old(readBuffer.Contents())[MESSAGE_SIZE..FrameSize(old(readBuffer.Contents()))])
      ensures got ==> readBuffer.Contents() == old(readBuffer.Contents())[FrameSize(old(readBuffer.Contents()))..]
    {
      got, frame := false, Frame(GatewayMessage(0, FuncCall(0, 0, 0, 0), 0, 0), []);
      if readBuffer.pos as int < MESSAGE_SIZE { return; }
      var s := readBuffer.buf[..readBuffer.pos];
      var message := Decode(s);
      if message.payloadSize < 0 || |s| < MESSAGE_SIZE + message.payloadSize { return; }
      var fullSize := MESSAGE_SIZE + message.payloadSize;
      got, frame := true, Frame(message, s[MESSAGE_SIZE..fullSize]);
      readBuffer.ConsumeFront(fullSize as int32);
    }

    method ProcessGatewayMessages() returns (delivered: seq<Frame>)
      requires Valid()
      modifies readBuffer, readBuffer.buf
      ensures Valid() && readBuffer.buf == old(readBuffer.buf)
      ensures delivered == Parse(old(readBuffer.Contents()))
      ensures readBuffer.Contents() == Unparsed(old(readBuffer.Contents()))
    {
      ghost var stream := readBuffer.Contents();
      delivered := [];
      var more := true;
      while more
        invariant Valid() && readBuffer.buf == old(readBuffer.buf)
        invariant more ==> delivered + Parse(readBuffer.Contents()) == Parse(stream)
        invariant more ==> Unparsed(readBuffer.Contents()) == Unparsed(stream)
        invariant !more ==> delivered == Parse(stream) && readBuffer.Contents() == Unparsed(stream)
        decreases more, readBuffer.pos
      {
        ghost var s := readBuffer.Contents();
        var frame;
        more, frame := TakeFrame();
        ParseStep(s, delivered, stream);
        if more { delivered := delivered + [frame]; }
      }
    }

    method Start() returns (delivered: seq<Frame>)
      requires Valid() && state == Created
      modifies this, readBuffer, readBuffer.buf
      ensures Valid() && readBuffer.buf == old(readBuffer.buf) && state == Open
      ensures delivered == Parse(old(readBuffer.Contents()))
      ensures readBuffer.Contents() == Unparsed(old(readBuffer.Contents()))
    {
      state := Open;
      delivered := ProcessGatewayMessages();
    }

    method RecvData(data: seq<byte>) returns (delivered: seq<Frame>)
      requires Valid() && readBuffer.CanHold(|readBuffer.Contents()| + |data|)
      modifies readBuffer, readBuffer.buf
      ensures Valid() && (readBuffer.buf == old(readBuffer.buf) || fresh(readBuffer.buf))
      ensures forall node, conn ::
        Feed(Running(node, conn, old(readBuffer.Contents())), data) == (Running(node, conn, readBuffer.Contents()), delivered)
    {
      readBuffer.AppendData(data);
      delivered := ProcessGatewayMessages();
    }

    /**
     One message printed into write buffers of `bufLen` bytes: together the writes are the
     message's bytes followed by its payload, none is empty and none overruns its buffer.
     */
    method SendMessage(message: GatewayMessage, payload: seq<byte>, bufLen: nat) returns (writes: seq<seq<byte>>)
      requires bufLen >= MESSAGE_SIZE && Sendable(Frame(message, payload))
      ensures state != Open ==> writes == []
      ensures state == Open ==> Flatten(writes) == FrameBytes(Frame(message, payload))
      ensures forall w :: w in writes ==> 0 < |w| <= bufLen
    {
      writes := [];
      if state != Open { return; }
      ghost var all := FrameBytes(Frame(message, payload));
      var pos := 0;
      while pos < MESSAGE_SIZE + |payload|
        invariant pos <= |all| && (pos == 0 || pos >= MESSAGE_SIZE)
        invariant Flatten(writes) == all[..pos]
        invariant forall w :: w in writes ==> 0 < |w| <= bufLen
      {
        var write: seq<byte>;
        if pos == 0 {
          var copySize := if bufLen - MESSAGE_SIZE < |payload| then bufLen - MESSAGE_SIZE else |payload|;
          write := Encode(message) + payload[..copySize];
          FirstWrite(Encode(message), payload, copySize);
        } else {
          var copySize := if bufLen < |payload| + MESSAGE_SIZE - pos then bufLen else |payload| + MESSAGE_SIZE - pos;
          write := payload[pos - MESSAGE_SIZE..pos - MESSAGE_SIZE + copySize];
          LaterWrite(Encode(message), payload, pos, copySize);
        }
        FlattenSnoc(writes, write);
        writes := writes + [write];
        pos := pos + |write|;
      }
    }
  }

  lemma FirstWrite(head: seq<byte>, payload: seq<byte>, n: nat)
    requires n <= |payload|
    ensures (head + payload)[..0] + (head + payload[..n]) == (head + payload)[..0 + |head + payload[..n]|]
  {
  }

  lemma LaterWrite(head: seq<byte>, payload: seq<byte>, pos: nat, n: nat)
    requires |head| <= pos && pos - |head| + n <= |payload|
    ensures (head + payload)[..pos] + payload[pos - |head|..pos - |head| + n] == (head + payload)[..pos + n]
  {
  }

  lemma ParseFirst(s: seq<byte>)
    requires FrameSize(s) > 0
    ensures var n := FrameSize(s);
      && Parse(s) == [Frame(Decode(s), s[MESSAGE_SIZE..n])] + Parse(s[n..])
      && Unparsed(s) == Unparsed(s[n..])
  {
    var n := FrameSize(s);
    var first := s[..n];
    assert s == first + s[n..];
    DecodeReadsHeader(first, s[n..]);
    assert first[MESSAGE_SIZE..] == s[MESSAGE_SIZE..n];
    var rest := Frames(FrameSize, s[n..]);
    MapAppend(ReadFrame, [first], rest);
    assert Map(ReadFrame, [first]) == [ReadFrame(first)];
  }

  lemma ParseStep(s: seq<byte>, delivered: seq<Frame>, stream: seq<byte>)
    requires delivered + Parse(s) == Parse(stream) && Unparsed(s) == Unparsed(stream)
    ensures FrameSize(s) == 0 ==> delivered == Parse(stream) && s == Unparsed(stream)
    ensures 0 < FrameSize(s) <= |s| ==> delivered + [Frame(Decode(s), s[MESSAGE_SIZE..FrameSize(s)])] + Parse(s[FrameSize(s)..]) == Parse(stream)
    ensures 0 < FrameSize(s) <= |s| ==> Unparsed(s[FrameSize(s)..]) == Unparsed(stream)
  {
    if FrameSize(s) > 0 {
      ParseFirst(s);
    } else {
      assert Parse(s) == [] && delivered + [] == delivered;
    }
  }

  /** The gateway's reader of an engine's first message, and the connection it becomes. */
  class OngoingEngineHandshake {
    const readBuffer: AppendableBuffer
    var connection: Connection?
    var refused: bool

    ghost predicate Valid()
      reads this, readBuffer, readBuffer.buf
    {
      readBuffer.Valid() && |readBuffer.Contents()| < MESSAGE_SIZE && connection == null && !refused
    }

    constructor ()
      ensures Valid() && readBuffer.Contents() == []
      ensures fresh(readBuffer) && fresh(readBuffer.buf)
    {
      readBuffer := new AppendableBuffer(INLINE_BUFFER_SIZE);
      connection, refused := null, false;
    }

    /** One read callback of the handshake, `OnEngineHandshake` and the new connection's `Start`. */
    method ReadMessage(data: seq<byte>) returns (node: nat, conn: nat, delivered: seq<Frame>)
      requires Valid() && readBuffer.CanHold(|readBuffer.Contents()| + |data|)
      requires Doubled(INLINE_BUFFER_SIZE as nat, |readBuffer.Contents()| + |data|) < INT_LIMIT
      modifies this, readBuffer, readBuffer.buf
      ensures readBuffer.buf == old(readBuffer.buf) || fresh(readBuffer.buf)
      ensures connection != null ==> fresh(connection) && fresh(connection.readBuffer) && fresh(connection.readBuffer.buf)
      ensures var (peer, frames) := Feed(Handshaking(old(readBuffer.Contents())), data);
        && delivered == frames
        && refused == peer.Refused?
        && (connection != null) == peer.Running?
        && (peer.Handshaking? ==> Valid() && readBuffer.Contents() == peer.held)
        && (peer.Running? ==> connection.Valid() && connection.state == Open)
        && (peer.Running? ==> peer == Running(node, conn, connection.readBuffer.Contents()))
    {
      node, conn, delivered := 0, 0, [];
      readBuffer.AppendData(data);
      if readBuffer.pos as int >= MESSAGE_SIZE {
        var s := readBuffer.buf[..readBuffer.pos];
        var message := Decode(s);
        if message.code != Code(EngineHandshake) {
          refused := true;
        } else {
          node, conn := message.detail % 0x1_0000, message.detail / 0x1_0000;
          DoubledMonotone(INLINE_BUFFER_SIZE as nat, |s| - MESSAGE_SIZE, |s|);
          connection := new Connection(s[MESSAGE_SIZE..]);
          delivered := connection.Start();
        }
      }
    }
  }

  // ---- Objects fed with any chunks ------------------------------------------------------------

  function HeldBytes(p: Peer): nat { if p.Refused? then 0 else |p.held| }

  /** At every read, what is still held and the new chunk together are at most 2^30 bytes, however long the connection lives. */
  ghost predicate ChunksFit(p: Peer, chunks: seq<seq<byte>>)
    decreases |chunks|
  {
    chunks == [] || (HeldBytes(p) + |chunks[0]| <= MAX_LENGTH && ChunksFit(Feed(p, chunks[0]).0, chunks[1..]))
  }

  /** A running connection fed with any list of chunks delivers what the abstract reader delivers. */
  method FeedConnection(c: Connection, chunks: seq<seq<byte>>, ghost node: nat, ghost conn: nat) returns (delivered: seq<Frame>)
    requires c.Valid() && ChunksFit(Running(node, conn, c.readBuffer.Contents()), chunks)
    modifies c.readBuffer, c.readBuffer.buf
    ensures c.Valid() && (c.readBuffer.buf == old(c.readBuffer.buf) || fresh(c.readBuffer.buf))
    ensures FeedAll(Running(node, conn, old(c.readBuffer.Contents())), chunks) == (Running(node, conn, c.readBuffer.Contents()), delivered)
    decreases |chunks|
  {
    if chunks == [] { return []; }
    ghost var held := c.readBuffer.Contents();
    c.readBuffer.HoldsGigabyte(|held| + |chunks[0]|);
    var now := c.RecvData(chunks[0]);
    assert Feed(Running(node, conn, held), chunks[0]) == (Running(node, conn, c.readBuffer.Contents()), now);
    var later := FeedConnection(c, chunks[1..], node, conn);
    delivered := now + later;
  }

  /** What a chunk list makes of a handshake: still waiting, refused, or a running connection. */
  datatype Ending = StillWaiting | WasRefused | Became(connection: Connection, node: nat, conn: nat)

  ghost predicate EndsAs(e: Ending, peer: Peer, held: seq<byte>)
    reads if e.Became? then {e.connection, e.connection.readBuffer, e.connection.readBuffer.buf} else {}
  {
    match e
    case StillWaiting => peer == Handshaking(held)
    case WasRefused => peer == Refused
    case Became(c, node, conn) => c.Valid() && peer == Running(node, conn, c.readBuffer.Contents())
  }

  /** The gateway's objects fed with any list of chunks deliver what the abstract reader delivers. */
  method FeedHandshake(h: OngoingEngineHandshake, chunks: seq<seq<byte>>) returns (e: Ending, delivered: seq<Frame>)
    requires h.Valid() && ChunksFit(Handshaking(h.readBuffer.Contents()), chunks)
    modifies h, h.readBuffer, h.readBuffer.buf
    ensures e.StillWaiting? ==> h.readBuffer.Valid()
    ensures var (peer, frames) := FeedAll(Handshaking(old(h.readBuffer.Contents())), chunks);
      delivered == frames && EndsAs(e, peer, if e.StillWaiting? then h.readBuffer.Contents() else [])
    decreases |chunks|
  {
    if chunks == [] { return StillWaiting, []; }
    ghost var held := h.readBuffer.Contents();
    h.readBuffer.HoldsGigabyte(|held| + |chunks[0]|);
    DoubledBelow(INLINE_BUFFER_SIZE as nat, |held| + |chunks[0]|);
    var node, conn, now := h.ReadMessage(chunks[0]);
    var later;
    if h.connection != null {
      later := FeedConnection(h.connection, chunks[1..], node, conn);
      e := Became(h.connection, node, conn);
    } else if h.refused {
      RefusedStays(chunks[1..]);
      e, later := WasRefused, [];
    } else {
      e, later := FeedHandshake(h, chunks[1..]);
    }
    delivered := now + later;
  }

  /** From the first byte to the last: a new gateway end fed with an engine's stream, cut in any way. */
  method ReceiveEngineStream(node: nat, conn: nat, frames: seq<Frame>, chunks: seq<seq<byte>>) returns (e: Ending, delivered: seq<Frame>)
    requires node < 0x1_0000 && conn < 0x1_0000 && forall f :: f in frames ==> Sendable(f)
    requires Flatten(chunks) == Encode(Handshake(node, conn)) + Flatten(AllBytes(frames)) && ChunksFit(Handshaking([]), chunks)
    ensures delivered == frames && e.Became? && e.node == node && e.conn == conn
    ensures e.connection.Valid() && e.connection.readBuffer.Contents() == []
  {
    EngineStreamIsDelivered(node, conn, frames, chunks);
    var h := new OngoingEngineHandshake();
    e, delivered := FeedHandshake(h, chunks);
  }

  // ---- From one connection object to the other --------------------------------------------------

  /** Any list of messages, each printed into write buffers of its own size. */
  method SendAll(c: Connection, frames: seq<Frame>, bufLens: seq<nat>) returns (writes: seq<seq<byte>>)
    requires c.state == Open && |bufLens| == |frames| && (forall f :: f in frames ==> Sendable(f))
    requires forall i :: 0 <= i < |bufLens| ==> bufLens[i] >= MESSAGE_SIZE
    ensures Flatten(writes) == Flatten(AllBytes(frames))
    decreases |frames|
  {
    if frames == [] { return []; }
    assert frames[0] in frames && forall f :: f in frames[1..] ==> f in frames;
    var first := c.SendMessage(frames[0].message, frames[0].payload, bufLens[0]);
    var rest := SendAll(c, frames[1..], bufLens[1..]);
    writes := first + rest;
    FlattenAppend(first, rest);
    assert AllBytes(frames)[1..] == AllBytes(frames[1..]);
  }

  /** A byte stream cut into pieces of these sizes, the last piece being what is left. */
  function Cuts(s: seq<byte>, sizes: seq<nat>): seq<seq<byte>>
    decreases |sizes|
  {
    if sizes == [] then [s]
    else
      var n := if sizes[0] >= |s| then |s| else sizes[0];
      [s[..n]] + Cuts(s[n..], sizes[1..])
  }

  lemma {:induction false} CutsLoseNothing(s: seq<byte>, sizes: seq<nat>)
    ensures Flatten(Cuts(s, sizes)) == s
    decreases |sizes|
  {
    if sizes == [] {
      assert [s][1..] == [];
    } else {
      var n := if sizes[0] >= |s| then |s| else sizes[0];
      CutsLoseNothing(s[n..], sizes[1..]);
      assert s[..n] + s[n..] == s;
      var rest := Cuts(s[n..], sizes[1..]);
      assert ([s[..n]] + rest)[1..] == rest;
    }
  }

  /**
   End to end: an engine's connection sends its handshake and any list of messages through
   write buffers of any sizes, the network cuts the bytes anywhere, and the gateway's objects
   deliver exactly that list from that node.
   */
  method Transfer(engine: Connection, node: nat, conn: nat, frames: seq<Frame>, bufLens: seq<nat>, sizes: seq<nat>)
    returns (e: Ending, delivered: seq<Frame>)
    requires engine.state == Open && node < 0x1_0000 && conn < 0x1_0000
    requires |bufLens| == |frames| && (forall f :: f in frames ==> Sendable(f))
    requires forall i :: 0 <= i < |bufLens| ==> bufLens[i] >= MESSAGE_SIZE
    requires ChunksFit(Handshaking([]), Cuts(Encode(Handshake(node, conn)) + Flatten(AllBytes(frames)), sizes))
    ensures delivered == frames && e.Became? && e.node == node && e.conn == conn
  {
    var writes := SendAll(engine, frames, bufLens);
    var stream := Encode(Handshake(node, conn)) + Flatten(writes);
    CutsLoseNothing(stream, sizes);
    e, delivered := ReceiveEngineStream(node, conn, frames, Cuts(stream, sizes));
  }
}
