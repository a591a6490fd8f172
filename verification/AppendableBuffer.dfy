/**
 The growable byte buffer of `utils/appendable_buffer.h`, its swap, and the reader of
 fixed-size messages on top of it. Positions and sizes are C++ `int`s: arithmetic on
 `int32` values is checked for overflow by the type.
 */
module Buffers {
  import opened Bytes
  import opened Framing

  newtype int32 = x: int | -0x8000_0000 <= x < 0x8000_0000

  const INLINE_BUFFER_SIZE: int32 := 48
  const MAX_LENGTH: int := 0x4000_0000

  const INT_LIMIT: int := 0x8000_0000

  /** The size the doubling of `AppendData` arrives at for `need` bytes, if no `int` overflows on the way. */
  function Doubled(size: nat, need: nat): (r: nat)
    requires size > 0
    ensures r >= need && r >= size
    decreases need - size
  {
    if need <= size then size else Doubled(2 * size, need)
  }

  /** No overflow happens while the length is at most 2^30. */
  lemma {:induction false} DoubledBelow(size: nat, need: nat)
    requires size > 0
    ensures need > size ==> Doubled(size, need) < 2 * need
    decreases need - size
  {
    if need > 2 * size { DoubledBelow(2 * size, need); }
  }

  lemma {:induction false} DoubledMonotone(size: nat, a: nat, b: nat)
    requires size > 0 && a <= b
    ensures Doubled(size, a) <= Doubled(size, b)
    decreases b - size
  {
    if a > size { DoubledMonotone(2 * size, a, b); }
  }

  class AppendableBuffer {
    var bufSize: int32
    var pos: int32
    var buf: array<byte>
    const inlineBuf: array<byte>

    ghost predicate Valid()
      reads this
    {
      && inlineBuf.Length == INLINE_BUFFER_SIZE as int
      && INLINE_BUFFER_SIZE <= bufSize && buf.Length == bufSize as int
      && 0 <= pos <= bufSize
    }

    /** The bytes appended and not yet consumed. */
    ghost function Contents(): (s: seq<byte>)
      requires Valid()
      reads this, buf
      ensures |s| == pos as int
    {
      buf[..pos]
    }

    constructor (initialSize: int32)
      ensures Valid() && Contents() == []
      ensures bufSize == if initialSize <= INLINE_BUFFER_SIZE then INLINE_BUFFER_SIZE else initialSize
      ensures fresh(buf) && fresh(inlineBuf)
    {
      pos := 0;
      inlineBuf := new byte[INLINE_BUFFER_SIZE];
      new;
      if initialSize <= INLINE_BUFFER_SIZE {
        buf, bufSize := inlineBuf, INLINE_BUFFER_SIZE;
      } else {
        buf, bufSize := new byte[initialSize], initialSize;
      }
    }

    /** `n` bytes fit without overflow of an `int`: exactly the lengths the source can handle. */
    ghost predicate CanHold(n: nat)
      requires Valid()
      reads this
    {
      Doubled(bufSize as nat, n) < INT_LIMIT
    }

    lemma HoldsGigabyte(n: nat)
      requires Valid() && n <= MAX_LENGTH
      ensures CanHold(n)
    {
      DoubledBelow(bufSize as nat, n);
    }

    /** The doubling loop; the arithmetic on `int32` is free of overflow. */
    method GrownSize(length: int32) returns (newSize: int32)
      requires Valid() && 0 <= length && CanHold(pos as nat + length as nat)
      ensures newSize as int == Doubled(bufSize as nat, pos as nat + length as nat)
    {
      ghost var need := pos as nat + length as nat;
      newSize := bufSize;
      while pos + length > newSize
        invariant 0 < newSize && Doubled(newSize as nat, need) == Doubled(bufSize as nat, need)
        decreases need - newSize as int
      {
        newSize := newSize * 2;
      }
    }

    method AppendData(data: seq<byte>)
      requires Valid() && CanHold(|Contents()| + |data|)
      modifies this, buf
      ensures Valid() && Contents() == old(Contents()) + data
      ensures buf == old(buf) || fresh(buf)
    {
      if |data| == 0 { return; }
      var length := |data| as int32;
      var newSize := GrownSize(length);
      if newSize > bufSize {
        var newBuf := new byte[newSize];
        Copy(newBuf, 0, buf[..pos]);
        buf, bufSize := newBuf, newSize;
      }
      Copy(buf, pos as nat, data);
      pos := pos + length;
    }

    method Reset()
      requires Valid()
      modifies this`pos
      ensures Valid() && Contents() == []
    {
      pos := 0;
    }

    method ConsumeFront(size: int32)
      requires Valid() && 0 <= size <= pos
      modifies this`pos, buf
      ensures Valid() && Contents() == old(Contents())[size..]
    {
      if size < pos {
        Copy(buf, 0, buf[size..pos]);
      }
      pos := pos - size;
    }

    method Swap(other: AppendableBuffer)
      requires Valid() && other.Valid()
      requires other != this ==> inlineBuf != other.inlineBuf && buf != other.buf && buf != other.inlineBuf && other.buf != inlineBuf
      modifies this, inlineBuf, other, other.inlineBuf
      ensures Valid() && other.Valid()
      ensures Contents() == old(other.Contents()) && other.Contents() == old(Contents())
      ensures other != this ==> buf != other.buf && buf != other.inlineBuf && other.buf != inlineBuf
      ensures buf in old({inlineBuf, other.buf}) && other.buf in old({other.inlineBuf, buf})
    {
      pos, other.pos := other.pos, pos;
      bufSize, other.bufSize := other.bufSize, bufSize;
      if buf != inlineBuf {
        if other.buf != other.inlineBuf {
          buf, other.buf := other.buf, buf;
        } else {
          other.buf := buf;
          Copy(inlineBuf, 0, other.inlineBuf[..]);
          buf := inlineBuf;
        }
      } else {
        if other.buf != other.inlineBuf {
          buf := other.buf;
          Copy(other.inlineBuf, 0, inlineBuf[..]);
          other.buf := other.inlineBuf;
        } else {
          Exchange(inlineBuf, other.inlineBuf);
        }
      }
    }
  }

  /** `memcpy` / `memmove` into `dst` at `offset`. */
  method Copy(dst: array<byte>, offset: nat, data: seq<byte>)
    requires offset + |data| <= dst.Length
    modifies dst
    ensures dst[..] == old(dst[..])[..offset] + data + old(dst[..])[offset + |data|..]
  {
    forall i | 0 <= i < |data| { dst[offset + i] := data[i]; }
  }

  /** The contents of two inline buffers change places. */
  method Exchange(a: array<byte>, b: array<byte>)
    requires a.Length == b.Length
    modifies a, b
    ensures a[..] == old(b[..]) && b[..] == old(a[..])
  {
    var tmp := a[..];
    Copy(a, 0, b[..]);
    Copy(b, 0, tmp);
  }

  /** One round of the loop of `ReadMessages`: fill up to one message, hand it out, start over. */
  method CompleteMessage(buffer: AppendableBuffer, data: seq<byte>, size: int32) returns (message: seq<byte>, rest: seq<byte>)
    requires buffer.Valid() && 0 < size as int <= MAX_LENGTH && |buffer.Contents()| < size as int <= |buffer.Contents()| + |data|
    modifies buffer, buffer.buf
    ensures buffer.Valid() && buffer.Contents() == [] && |rest| < |data|
    ensures message == (old(buffer.Contents()) + data)[..size] && rest == (old(buffer.Contents()) + data)[size..]
    ensures buffer.buf == old(buffer.buf) || fresh(buffer.buf)
  {
    var copySize := size - buffer.pos;
    buffer.HoldsGigabyte(size as nat);
    buffer.AppendData(data[..copySize]);
    message, rest := buffer.buf[..buffer.pos], data[copySize..];
    buffer.Reset();
  }

  /**
   `ReadMessages`: the messages handed to the callback are exactly the whole blocks of what was
   held followed by the new data, and the buffer keeps the short tail.
   */
  method ReadMessages(buffer: AppendableBuffer, newData: seq<byte>, size: int32) returns (messages: seq<seq<byte>>)
    requires buffer.Valid() && 0 < size as int <= MAX_LENGTH && |buffer.Contents()| < size as int
    modifies buffer, buffer.buf
    ensures buffer.Valid()
    ensures messages == Frames(BlockSizer(size as nat), old(buffer.Contents()) + newData)
    ensures buffer.Contents() == Rest(BlockSizer(size as nat), old(buffer.Contents()) + newData)
    ensures |buffer.Contents()| < size as int
    ensures buffer.buf == old(buffer.buf) || fresh(buffer.buf)
  {
    ghost var f := BlockSizer(size as nat);
    ghost var stream := old(buffer.Contents()) + newData;
    messages := [];
    var data := newData;
    while |data| + buffer.pos as int >= size as int
      invariant buffer.Valid() && |buffer.Contents()| < size as int
      invariant buffer.buf == old(buffer.buf) || fresh(buffer.buf)
      invariant messages + Frames(f, buffer.Contents() + data) == Frames(f, stream)
      invariant Rest(f, buffer.Contents() + data) == Rest(f, stream)
      decreases |data|
    {
      ghost var s := buffer.Contents() + data;
      TakeOne(f, s, messages, stream);
      var message;
      message, data := CompleteMessage(buffer, data, size);
      messages := messages + [message];
      assert buffer.Contents() + data == data;
    }
    ghost var last := buffer.Contents() + data;
    assert f(last) == 0;
    if |data| > 0 {
      buffer.HoldsGigabyte(|last|);
      buffer.AppendData(data);
    } else {
      assert last == buffer.Contents();
    }
  }

  /**
   Over any chunking, calls of `ReadMessages` on one buffer deliver whole blocks and keep a
   short tail, which put together are exactly the concatenated stream.
   */
  lemma MessagesForEveryChunking(size: nat, chunks: seq<seq<byte>>)
    requires size > 0
    ensures
      var (messages, held) := Deliver(BlockSizer(size), [], chunks);
      && Flatten(messages) + held == Flatten(chunks)
      && (forall m :: m in messages ==> |m| == size)
      && |held| < size
  {
    BlockSizerStable(size);
    ChunkingDoesNotMatter(BlockSizer(size), [], chunks);
    assert [] + Flatten(chunks) == Flatten(chunks);
    BlocksAreTheStream(size, Flatten(chunks));
  }
}
