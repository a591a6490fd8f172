/**
 Cutting a byte stream into frames. A sizer says how long the first complete frame of a byte
 string is, or 0 when there is none yet; a reader repeats it greedily after every chunk.
 */
module Framing {
  import opened Bytes

  type Sizer = seq<byte> -> nat

  /** A complete frame stays the first frame however much arrives behind it. */
  ghost predicate Stable(f: Sizer) {
    && (forall s: seq<byte> :: f(s) <= |s|)
    && (forall s: seq<byte>, t: seq<byte> :: f(s) > 0 ==> f(s + t) == f(s))
  }

  function Frames(f: Sizer, s: seq<byte>): seq<seq<byte>>
    decreases |s|
  {
    if 0 < f(s) <= |s| then [s[..f(s)]] + Frames(f, s[f(s)..]) else []
  }

  function Rest(f: Sizer, s: seq<byte>): (r: seq<byte>)
    ensures |r| <= |s|
    decreases |s|
  {
    if 0 < f(s) <= |s| then Rest(f, s[f(s)..]) else s
  }

  /** What a reader has delivered and still holds after a list of chunks. */
  function Deliver(f: Sizer, held: seq<byte>, chunks: seq<seq<byte>>): (seq<seq<byte>>, seq<byte>)
    decreases |chunks|
  {
    if chunks == [] then ([], held)
    else
      var s := held + chunks[0];
      var (later, rest) := Deliver(f, Rest(f, s), chunks[1..]);
      (Frames(f, s) + later, rest)
  }

  lemma {:induction false} FramesLoseNothing(f: Sizer, s: seq<byte>)
    ensures Flatten(Frames(f, s)) + Rest(f, s) == s
    decreases |s|
  {
    if 0 < f(s) <= |s| {
      FramesLoseNothing(f, s[f(s)..]);
      assert ([s[..f(s)]] + Frames(f, s[f(s)..]))[1..] == Frames(f, s[f(s)..]);
    }
  }

  lemma {:induction false} RestHasNoFrame(f: Sizer, s: seq<byte>)
    requires Stable(f)
    ensures f(Rest(f, s)) == 0 && Frames(f, Rest(f, s)) == [] && Rest(f, Rest(f, s)) == Rest(f, s)
    decreases |s|
  {
    if 0 < f(s) <= |s| { RestHasNoFrame(f, s[f(s)..]); }
  }

  /** Reading `s` and then the rest followed by `t` is reading `s + t` at once. */
  lemma {:induction false} FramesAppend(f: Sizer, s: seq<byte>, t: seq<byte>)
    requires Stable(f)
    ensures Frames(f, s + t) == Frames(f, s) + Frames(f, Rest(f, s) + t)
    ensures Rest(f, s + t) == Rest(f, Rest(f, s) + t)
    decreases |s|
  {
    var n, st := f(s), s + t;
    if 0 < n <= |s| {
      assert f(st) == n;
      assert st[..n] == s[..n] && st[n..] == s[n..] + t;
      FramesAppend(f, s[n..], t);
      var rest := Rest(f, s[n..]) + t;
      assert Frames(f, st) == [s[..n]] + (Frames(f, s[n..]) + Frames(f, rest));
    }
  }

  /** The frames delivered do not depend on how the stream was cut into chunks. */
  lemma {:induction false} ChunkingDoesNotMatter(f: Sizer, held: seq<byte>, chunks: seq<seq<byte>>)
    requires Stable(f) && f(held) == 0
    ensures Deliver(f, held, chunks) == (Frames(f, held + Flatten(chunks)), Rest(f, held + Flatten(chunks)))
    decreases |chunks|
  {
    if chunks == [] {
      assert held + Flatten(chunks) == held;
    } else {
      var s := held + chunks[0];
      RestHasNoFrame(f, s);
      ChunkingDoesNotMatter(f, Rest(f, s), chunks[1..]);
      FramesAppend(f, s, Flatten(chunks[1..]));
      Associate(held, chunks[0], Flatten(chunks[1..]));
    }
  }

  /** A stream of whole frames is cut back into exactly those frames. */
  lemma {:induction false} FramesOfFrames(f: Sizer, frames: seq<seq<byte>>)
    requires Stable(f) && forall x :: x in frames ==> f(x) == |x| > 0
    ensures Frames(f, Flatten(frames)) == frames && Rest(f, Flatten(frames)) == []
  {
    if frames == [] {
      assert Flatten(frames) == [] && f([]) <= |Flatten(frames)|;
    } else {
      var x, tail := frames[0], Flatten(frames[1..]);
      assert x in frames;
      FramesOfFrames(f, frames[1..]);
      assert f(x + tail) == |x|;
      assert (x + tail)[..|x|] == x && (x + tail)[|x|..] == tail;
      assert frames == [x] + frames[1..];
    }
  }

  function Map<T>(g: seq<byte> -> T, blocks: seq<seq<byte>>): (r: seq<T>)
    ensures |r| == |blocks|
  {
    seq(|blocks|, i requires 0 <= i < |blocks| => g(blocks[i]))
  }

  lemma MapAppend<T>(g: seq<byte> -> T, a: seq<seq<byte>>, b: seq<seq<byte>>)
    ensures Map(g, a + b) == Map(g, a) + Map(g, b)
  {
  }

  /** A printed list is read back when each of its frames is. */
  lemma ReadBack<T>(f: Sizer, g: seq<byte> -> T, blocks: seq<seq<byte>>, values: seq<T>)
    requires Stable(f) && |blocks| == |values|
    requires forall i :: 0 <= i < |blocks| ==> f(blocks[i]) == |blocks[i]| > 0 && g(blocks[i]) == values[i]
    ensures Map(g, Frames(f, Flatten(blocks))) == values && Rest(f, Flatten(blocks)) == []
  {
    FramesOfFrames(f, blocks);
  }

  /** One round of a reader's loop. */
  lemma TakeOne(f: Sizer, s: seq<byte>, taken: seq<seq<byte>>, stream: seq<byte>)
    requires 0 < f(s) <= |s| && taken + Frames(f, s) == Frames(f, stream) && Rest(f, s) == Rest(f, stream)
    ensures taken + [s[..f(s)]] + Frames(f, s[f(s)..]) == Frames(f, stream) && Rest(f, s[f(s)..]) == Rest(f, stream)
  {
  }

  // ---- Fixed-size blocks --------------------------------------------------------------------

  function BlockSizer(n: nat): Sizer { s => if |s| >= n then n else 0 }

  lemma BlockSizerStable(n: nat)
    ensures Stable(BlockSizer(n))
  {
  }

  /** The blocks and the short tail, put back together, are the stream. */
  lemma {:induction false} BlocksAreTheStream(n: nat, s: seq<byte>)
    requires n > 0
    ensures Flatten(Frames(BlockSizer(n), s)) + Rest(BlockSizer(n), s) == s
    ensures forall b :: b in Frames(BlockSizer(n), s) ==> |b| == n
    ensures |Rest(BlockSizer(n), s)| < n
    decreases |s|
  {
    FramesLoseNothing(BlockSizer(n), s);
    if |s| >= n { BlocksAreTheStream(n, s[n..]); }
  }
}
