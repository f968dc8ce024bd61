/** Tagged frames on a byte stream (src/codec.rs:82-161): however the stream is cut into reads, the
    same frames come out and the same bytes are left over. */
module Framing {
  import opened Messages
  import opened Wire
  import F = FrontendCodec
  import B = BackendCodec

  const MAX_PROTOCOL_FRAME_LEN: nat := 0x8000_0000

  /** `with_max_frame_len` rejects every other limit. */
  predicate ValidLimit(max: nat) {
    5 <= max <= MAX_PROTOCOL_FRAME_LEN
  }

  function FrameBytes(f: Frame): Bytes
    requires |f.body| + 4 < 0x1_0000_0000
  {
    [f.tag] + (PutU32(|f.body| + 4) + f.body)
  }

  /** `PgCodec::encode`. */
  function Encode(f: Frame, max: nat): Option<Bytes> {
    if |f.body| + 5 > max || |f.body| + 4 >= 0x1_0000_0000 then None else Some(FrameBytes(f))
  }

  datatype Step = Incomplete | Broken | Complete(frame: Frame, rest: Bytes)

  /** `decode_frame` on a buffer. */
  function DecodeFrame(b: Bytes, max: nat): Step {
    if |b| < 5 then Incomplete
    else
      var length: int := TakeU32(b[1..]).value;
      if length < 4 || length + 1 > MAX_PROTOCOL_FRAME_LEN || length + 1 > max then Broken
      else if |b| < length + 1 then Incomplete
      else Complete(Frame(b[0], b[5..length + 1]), b[length + 1..])
  }

  /** What a frame encodes to decodes to that frame and leaves the rest. */
  lemma FrameInverse(f: Frame, rest: Bytes, max: nat)
    requires ValidLimit(max) && |f.body| + 5 <= max
    ensures Encode(f, max) == Some(FrameBytes(f)) && DecodeFrame(FrameBytes(f) + rest, max) == Complete(f, rest)
  {
    var b, n := FrameBytes(f) + rest, |f.body| + 4;
    hide PutU32, TakeU32;
    U32Inverse(n);
    assert b[1..] == PutU32(n) + (f.body + rest);
    assert b[5..n + 1] == f.body && b[n + 1..] == rest;
  }

  /** And nothing else decodes to it: the bytes consumed are the frame's own. */
  lemma CompleteRestores(b: Bytes, max: nat)
    requires ValidLimit(max) && DecodeFrame(b, max).Complete?
    ensures var c := DecodeFrame(b, max); |c.frame.body| + 5 <= max && b == FrameBytes(c.frame) + c.rest
  {
    var c := DecodeFrame(b, max);
    var length: int := TakeU32(b[1..]).value;
    assert TakeU32(b[1..]).rest == b[5..];
    hide PutU32, TakeU32;
    U32Restores(b[1..]);
    assert b[5..] == b[5..length + 1] + b[length + 1..];
    assert b == [b[0]] + b[1..];
  }

  /** What the decoder waits for and what it refuses, exactly: the length is the big-endian number behind
      the tag, counts itself, and has to fit the limit. */
  lemma DecodesExactly(b: Bytes, max: nat)
    requires ValidLimit(max)
    ensures var step := DecodeFrame(b, max);
      if |b| < 5 then step.Incomplete?
      else
        var n := BigEndian(b[1..]);
        if n < 4 || n + 1 > max then step.Broken?
        else if |b| < n + 1 then step.Incomplete?
        else step == Complete(Frame(b[0], b[5..n + 1]), b[n + 1..])
  {
    if |b| >= 5 { TakesBigEndian(b[1..]); }
  }

  /** A frame is written exactly when it fits the limit. */
  lemma EncodesExactly(f: Frame, max: nat)
    requires ValidLimit(max)
    ensures if |f.body| + 5 <= max then
        Encode(f, max).Some? && Encode(f, max).value[0] == f.tag && Encode(f, max).value[5..] == f.body
        && |Encode(f, max).value| == |f.body| + 5
      else Encode(f, max).None?
  {
  }

  /** More bytes never change a decision already made. */
  lemma DecodeExtends(a: Bytes, b: Bytes, max: nat)
    ensures DecodeFrame(a, max).Broken? ==> DecodeFrame(a + b, max).Broken?
    ensures DecodeFrame(a, max).Complete? ==>
      DecodeFrame(a + b, max) == Complete(DecodeFrame(a, max).frame, DecodeFrame(a, max).rest + b)
  {
    if |a| >= 5 {
      assert (a + b)[1..] == a[1..] + b;
      var length: int := TakeU32(a[1..]).value;
      assert TakeU32((a + b)[1..]).value == length;
      if DecodeFrame(a, max).Complete? {
        assert (a + b)[5..length + 1] == a[5..length + 1];
        assert (a + b)[length + 1..] == a[length + 1..] + b;
      }
    }
  }

  /* ---------- streams ---------- */

  /** What comes out of a buffer: whole frames, the bytes not consumed, and whether it is broken there. */
  datatype Stream = Stream(frames: seq<Frame>, rest: Bytes, broken: bool)

  /** What `s` and then `t` give together. */
  function Then(s: Stream, t: Stream): Stream {
    Stream(s.frames + t.frames, t.rest, t.broken)
  }

  lemma CompleteShrinks(b: Bytes, max: nat)
    requires DecodeFrame(b, max).Complete?
    ensures |DecodeFrame(b, max).rest| < |b|
  {
  }

  function Split(b: Bytes, max: nat): Stream
    requires ValidLimit(max)
    decreases |b|
  {
    var step := DecodeFrame(b, max);
    if !step.Complete? then Stream([], b, step.Broken?)
    else
      CompleteShrinks(b, max);
      Then(Stream([step.frame], step.rest, false), Split(step.rest, max))
  }

  lemma SplitStep(b: Bytes, max: nat)
    requires ValidLimit(max)
    ensures var step := DecodeFrame(b, max);
      Split(b, max) ==
        if step.Complete? then Then(Stream([step.frame], step.rest, false), Split(step.rest, max))
        else Stream([], b, step.Broken?)
  {
  }

  /** Splitting a longer buffer continues where the shorter one stopped. */
  lemma {:induction false} SplitExtends(a: Bytes, b: Bytes, max: nat)
    requires ValidLimit(max)
    ensures var s := Split(a, max);
      Split(a + b, max) == if s.broken then Stream(s.frames, s.rest + b, true) else Then(s, Split(s.rest + b, max))
    decreases |a|
  {
    DecodeExtends(a, b, max);
    hide DecodeFrame, Split;
    SplitStep(a, max);
    SplitStep(a + b, max);
    match DecodeFrame(a, max)
    case Incomplete => assert [] + Split(a + b, max).frames == Split(a + b, max).frames;
    case Broken =>
    case Complete(f, rest) =>
      CompleteShrinks(a, max);
      SplitExtends(rest, b, max);
      var s := Split(rest, max);
      if !s.broken {
        var more := Split(s.rest + b, max).frames;
        assert [f] + (s.frames + more) == [f] + s.frames + more;
      }
  }

  /** Reading chunk by chunk, taking every whole frame after each read and stopping at an error. */
  function Fed(buffer: Bytes, chunks: seq<Bytes>, max: nat): Stream
    requires ValidLimit(max)
    decreases chunks
  {
    if chunks == [] then Stream([], buffer, false)
    else
      var s := Split(buffer + chunks[0], max);
      if s.broken then Stream(s.frames, s.rest + Concat(chunks[1..]), true)
      else
        var t := Fed(s.rest, chunks[1..], max);
        Stream(s.frames + t.frames, t.rest, t.broken)
  }

  /** Framing ignores chunking: any way of cutting the stream gives what the whole stream gives. */
  lemma {:induction false} ChunkingIsIrrelevant(buffer: Bytes, chunks: seq<Bytes>, max: nat)
    requires ValidLimit(max) && DecodeFrame(buffer, max).Incomplete?
    ensures Fed(buffer, chunks, max) == Split(buffer + Concat(chunks), max)
    decreases chunks
  {
    if chunks == [] {
      assert buffer + Concat(chunks) == buffer;
    } else {
      var a, rest := buffer + chunks[0], Concat(chunks[1..]);
      assert buffer + Concat(chunks) == a + rest;
      SplitExtends(a, rest, max);
      var s := Split(a, max);
      if !s.broken {
        SplitStops(a, max);
        ChunkingIsIrrelevant(s.rest, chunks[1..], max);
      }
    }
  }

  lemma {:induction false} SplitStops(b: Bytes, max: nat)
    requires ValidLimit(max) && !Split(b, max).broken
    ensures DecodeFrame(Split(b, max).rest, max).Incomplete?
    decreases |b|
  {
    match DecodeFrame(b, max)
    case Complete(_, rest) =>
      CompleteShrinks(b, max);
      SplitStops(rest, max);
    case _ =>
  }

  function FramesBytes(fs: seq<Frame>): Bytes
    requires forall i :: 0 <= i < |fs| ==> |fs[i].body| + 4 < 0x1_0000_0000
  {
    if fs == [] then [] else FrameBytes(fs[0]) + FramesBytes(fs[1..])
  }

  lemma {:induction false} SplitFrames(fs: seq<Frame>, tail: Bytes, max: nat)
    requires ValidLimit(max) && (forall i :: 0 <= i < |fs| ==> |fs[i].body| + 5 <= max)
      && DecodeFrame(tail, max).Incomplete?
    ensures Split(FramesBytes(fs) + tail, max) == Stream(fs, tail, false)
  {
    hide FrameBytes, DecodeFrame, Split;
    SplitStep(FramesBytes(fs) + tail, max);
    if fs == [] {
      assert FramesBytes(fs) + tail == tail;
    } else {
      var after := FramesBytes(fs[1..]) + tail;
      assert FramesBytes(fs) + tail == FrameBytes(fs[0]) + after;
      FrameInverse(fs[0], after, max);
      SplitFrames(fs[1..], tail, max);
      assert [fs[0]] + fs[1..] == fs;
    }
  }

  /** Frames that were encoded come out of every chunking of the stream, with nothing consumed of an
      incomplete frame behind them. */
  lemma EncodedFramesArrive(fs: seq<Frame>, tail: Bytes, chunks: seq<Bytes>, max: nat)
    requires ValidLimit(max) && (forall i :: 0 <= i < |fs| ==> |fs[i].body| + 5 <= max)
      && DecodeFrame(tail, max).Incomplete?
    requires Concat(chunks) == FramesBytes(fs) + tail
    ensures Fed([], chunks, max) == Stream(fs, tail, false)
  {
    SplitFrames(fs, tail, max);
    ChunkingIsIrrelevant([], chunks, max);
    assert [] + Concat(chunks) == Concat(chunks);
  }

  /** So client messages arrive as they were sent. */
  lemma ClientMessagesArrive(ms: seq<FrontendMessage>, fs: seq<Frame>, tail: Bytes, chunks: seq<Bytes>, max: nat)
    requires ValidLimit(max) && |fs| == |ms| && DecodeFrame(tail, max).Incomplete?
    requires forall i :: 0 <= i < |ms| ==> F.Encodes(ms[i], fs[i]) && |fs[i].body| + 5 <= max
    requires Concat(chunks) == FramesBytes(fs) + tail
    ensures var s := Fed([], chunks, max);
      && s.rest == tail && !s.broken && |s.frames| == |ms|
      && forall i :: 0 <= i < |ms| ==> F.Decode(s.frames[i]) == Some(ms[i])
  {
    EncodedFramesArrive(fs, tail, chunks, max);
    forall i | 0 <= i < |ms| ensures F.Decode(fs[i]) == Some(ms[i]) { F.RoundTrips(ms[i]); }
  }

  /** And backend messages, except a SASL offer with a nameless mechanism. */
  lemma BackendMessagesArrive(ms: seq<BackendMessage>, fs: seq<Frame>, tail: Bytes, chunks: seq<Bytes>, max: nat)
    requires ValidLimit(max) && |fs| == |ms| && DecodeFrame(tail, max).Incomplete?
    requires forall i :: 0 <= i < |ms| ==> B.Encodes(ms[i], fs[i]) && |fs[i].body| + 5 <= max && !B.LosesName(ms[i])
    requires Concat(chunks) == FramesBytes(fs) + tail
    ensures var s := Fed([], chunks, max);
      && s.rest == tail && !s.broken && |s.frames| == |ms|
      && forall i :: 0 <= i < |ms| ==> B.Decode(s.frames[i]) == Some(ms[i])
  {
    EncodedFramesArrive(fs, tail, chunks, max);
    forall i | 0 <= i < |ms| ensures B.Decode(fs[i]) == Some(ms[i]) { B.RoundTrips(ms[i]); }
  }

  /* ---------- the decoder ---------- */

  /** The read buffer of a connection, consumed from the front. */
  class Decoder {
    const max: nat
    var buffer: Bytes

    constructor (max: nat)
      requires ValidLimit(max)
      ensures this.max == max && buffer == []
    {
      this.max := max;
      buffer := [];
    }

    /** Takes one frame off the buffer; an incomplete or broken frame is left in place. */
    method Next() returns (step: Step)
      requires ValidLimit(max)
      modifies this`buffer
      ensures step == DecodeFrame(old(buffer), max)
      ensures buffer == if step.Complete? then step.rest else old(buffer)
    {
      if |buffer| < 5 { return Incomplete; }
      var length: int := TakeU32(buffer[1..]).value;
      if length < 4 || length + 1 > MAX_PROTOCOL_FRAME_LEN || length + 1 > max { return Broken; }
      if |buffer| < length + 1 { return Incomplete; }
      step := Complete(Frame(buffer[0], buffer[5..length + 1]), buffer[length + 1..]);
      buffer := buffer[length + 1..];
    }

    /** Appends a read and takes every whole frame. */
    method Read(chunk: Bytes) returns (frames: seq<Frame>, broken: bool)
      requires ValidLimit(max)
      modifies this`buffer
      ensures Split(old(buffer) + chunk, max) == Stream(frames, buffer, broken)
    {
      hide DecodeFrame, Split;
      buffer := buffer + chunk;
      ghost var whole := buffer;
      frames, broken := [], false;
      assert [] + Split(whole, max).frames == Split(whole, max).frames;
      while true
        invariant Split(whole, max) == Then(Stream(frames, buffer, false), Split(buffer, max))
        decreases |buffer|
      {
        ghost var before := buffer;
        SplitStep(buffer, max);
        var step := Next();
        if !step.Complete? {
          assert frames + [] == frames;
          return frames, step.Broken?;
        }
        CompleteShrinks(before, max);
        assert frames + ([step.frame] + Split(buffer, max).frames) == frames + [step.frame] + Split(buffer, max).frames;
        frames := frames + [step.frame];
      }
    }
  }
}
