/**
 The bytes on the wire, position by position: what other implementations of the two protocols
 and of the gRPC framing rely on.
 */
module WireFormats {
  import opened Bytes
  import opened BitFields
  import opened Protocol
  import L = MessageLayout
  import S = GatewayStream
  import Grpc
  import Launcher

  /** The header word holds the message type in its low 4 bits and the call above them. */
  lemma HeaderWord(code: nat, c: FuncCall)
    requires code < 16 && InRange(c)
    ensures FromLittleEndian(LittleEndian(PackedHeader(code, c), 8))
         == code + 0x10 * c.funcId + 0x1000 * c.methodId + 0x4_0000 * c.clientId + 0x1_0000_0000 * c.callId
  {
    PackedValues(code, c);
    L.WordHoldsCall(code, c);
  }

  /** Type and call in bytes 0 to 7, the union in 8 to 11, the payload size in 12 to 15. */
  lemma GatewayMessageBytes(m: S.GatewayMessage)
    requires S.WellFormed(m)
    ensures
      var b, c := S.Encode(m), m.call;
      && |b| == 16
      && FromLittleEndian(b[0..8])
         == m.code + 0x10 * c.funcId + 0x1000 * c.methodId + 0x4_0000 * c.clientId + 0x1_0000_0000 * c.callId
      && FromLittleEndian(b[8..12]) == m.detail
      && Int32At(b, 12) == m.payloadSize
  {
    var b := S.Encode(m);
    assert b[0..8] == LittleEndian(PackedHeader(m.code, m.call), 8) && b[8..12] == LittleEndian(m.detail, 4)
        && b[12..16] == Int32Bytes(m.payloadSize);
    HeaderWord(m.code, m.call);
    Pow256Values();
    LittleEndianRoundTrip(m.detail, 4);
    Int32RoundTrip(m.payloadSize);
  }

  lemma TwoHalves(a: nat, b: nat)
    requires a < 0x1_0000
    ensures LittleEndian(a + 0x1_0000 * b, 4) == LittleEndian(a, 2) + LittleEndian(b, 2)
  {
    var v := a + 0x1_0000 * b;
    assert v / 256 == a / 256 + 256 * b && v / 256 / 256 == b;
    assert LittleEndian(v, 4) == [v % 256] + ([v / 256 % 256] + LittleEndian(b, 2));
    assert LittleEndian(a, 2) == [a % 256, a / 256 % 256];
  }

  /** A handshake is a message of type 1 without call and payload that carries node and connection as two 16-bit numbers. */
  lemma HandshakeBytes(node: nat, conn: nat)
    requires node < 0x1_0000 && conn < 0x1_0000
    ensures
      var m := S.Handshake(node, conn);
      && S.WellFormed(m) && m.code == 1 && m.call == FuncCall(0, 0, 0, 0) && m.payloadSize == 0
      && S.Encode(m)[8..10] == LittleEndian(node, 2) && S.Encode(m)[10..12] == LittleEndian(conn, 2)
  {
    TwoHalves(node, conn);
    DetailBytes(S.Handshake(node, conn), LittleEndian(node, 2), LittleEndian(conn, 2));
  }

  lemma DetailBytes(m: S.GatewayMessage, low: seq<byte>, high: seq<byte>)
    requires LittleEndian(m.detail, 4) == low + high && |low| == 2
    ensures S.Encode(m)[8..10] == low && S.Encode(m)[10..12] == high
  {
    assert S.Encode(m)[8..12] == low + high;
    assert S.Encode(m)[8..10] == S.Encode(m)[8..12][..2] && S.Encode(m)[10..12] == S.Encode(m)[8..12][2..];
  }

  /** The message type is in the low half of the first byte. */
  lemma TypeInFirstByte(s: seq<byte>)
    requires |s| >= 16
    ensures S.Decode(s).code == s[0] % 16
  {
    var word, rest := FromLittleEndian(s[..8]), FromLittleEndian(s[..8][1..]);
    assert word == s[0] + 256 * rest;
    assert UnpackedHeader(word).0 == word % 16 by { assert Pow2(4) == 16; }
    Divide(s[0] % 16, 16, s[0] / 16 + 16 * rest);
    assert word == s[0] % 16 + 16 * (s[0] / 16 + 16 * rest);
  }

  /** Whatever the chunking, a connection is refused exactly if its first 16 bytes are not of type 1, and runs exactly if they are. */
  lemma RefusedIff(chunks: seq<seq<byte>>)
    ensures
      var s, peer := Flatten(chunks), S.FeedAll(S.Handshaking([]), chunks).0;
      && (peer.Refused? <==> |s| >= 16 && s[0] % 16 != 1)
      && (peer.Running? <==> |s| >= 16 && s[0] % 16 == 1)
  {
    var s := Flatten(chunks);
    S.HandshakeChunkingDoesNotMatter([], chunks);
    assert [] + s == s;
    if |s| >= 16 { TypeInFirstByte(s); }
  }

  /** The 1024-byte message: header, union, time stamp, payload size and flags in that order, inline data from byte 64. */
  lemma MessageFields(m: Message)
    requires L.WellFormed(m)
    ensures
      var b, c := L.MessageBytes(m), m.call;
      && |b| == 1024
      && FromLittleEndian(b[0..8])
         == Code(m.kind) + 0x10 * c.funcId + 0x1000 * c.methodId + 0x4_0000 * c.clientId + 0x1_0000_0000 * c.callId
      && FromLittleEndian(b[8..16]) == m.detail && FromLittleEndian(b[16..24]) == m.sendTimestamp
      && Int32At(b, 24) == m.payloadSize && FromLittleEndian(b[28..32]) == m.flags && b[64..] == m.inlineData
  {
    L.FieldsAt(LittleEndian(PackedHeader(Code(m.kind), m.call), 8), LittleEndian(m.detail, 8), LittleEndian(m.sendTimestamp, 8),
               Int32Bytes(m.payloadSize), LittleEndian(m.flags, 4), m.inlineData);
    HeaderWord(Code(m.kind), m.call);
    Pow256Values();
    LittleEndianRoundTrip(m.detail, 8);
    LittleEndianRoundTrip(m.sendTimestamp, 8);
    LittleEndianRoundTrip(m.flags, 4);
    Int32RoundTrip(m.payloadSize);
  }

  /** A handshake response is complete exactly when as many payload bytes followed it as its own size field says. */
  lemma ResponseIsComplete(m: Message, payload: seq<byte>)
    requires L.WellFormed(m) && m.payloadSize >= 0
    ensures
      var s := L.MessageBytes(m) + payload;
      Launcher.ResponseSize(s) == if |payload| >= m.payloadSize then 1024 + m.payloadSize else 0
  {
    MessageFields(m);
    var b, s := L.MessageBytes(m), L.MessageBytes(m) + payload;
    assert s[24..28] == b[24..28];
  }

  /** A zero byte and the length of the body, most significant byte first. */
  lemma GrpcPrefixBytes(body: seq<byte>)
    requires |body| < 0x1_0000_0000
    ensures
      var n := |body|;
      Grpc.Encoded(body)[..5] == [0, n / 0x100_0000, n / 0x1_0000 % 256, n / 256 % 256, n % 256]
    ensures Grpc.Encoded(body)[5..] == body
  {
    var n := |body|;
    var p := Grpc.Prefix(body);
    forall i | 0 <= i < 4 ensures p[4 - i] == n / Pow256(i) % 256 {
      BigEndianAt(n, 4, i);
      assert p[4 - i] == BigEndian(n, 4)[3 - i];
    }
    assert Pow256(0) == 1 && Pow256(1) == 256 && Pow256(2) == 0x1_0000 && Pow256(3) == 0x100_0000;
    assert p[4] == n % 256 && p[3] == n / 256 % 256 && p[2] == n / 0x1_0000 % 256 && p[1] == n / 0x100_0000 % 256;
    assert Grpc.Encoded(body)[..5] == p;
  }
}
