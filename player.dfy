/**
 * The frame producer (player.ts): writeTo feeds the compressed track to the
 * decoder's stdin in bounded slices, and the oggPlayer generator cuts the
 * decoder's PCM output into fixed-size fragments and Opus-encodes each one.
 */
module Pcm {

  import opened Wrappers
  import opened Udp
  import opened Soundcloud

  /** The largest slice writeTo hands to the writer in one call. */
  const WriteSize: nat := 24 * 1024

  /** One `write` call on the sink: the slice offered and how many bytes it took. */
  datatype WriteCall = WriteCall(slice: seq<byte>, accepted: nat)

  /** The total number of bytes a run of write calls accepted. */
  function Accepted(calls: seq<WriteCall>): nat
  {
    if calls == [] then 0 else Accepted(calls[..|calls| - 1]) + calls[|calls| - 1].accepted
  }

  function Min(a: int, b: int): int
  {
    if a <= b then a else b
  }

  /** A `Deno.Writer & Deno.Closer` (the decoder's stdin). */
  class Sink {
    var written: seq<byte>
    var calls: seq<WriteCall>
    var closed: bool

    constructor ()
      ensures written == [] && calls == [] && !closed
    {
      written, calls, closed := [], [], false;
    }

    /**
     * write(slice): takes some prefix of the slice and says how long it was;
     * a writer may take less than offered but takes something of a non-empty slice.
     */
    method Write(slice: seq<byte>) returns (n: nat)
      modifies this
      ensures n <= |slice| && (|slice| > 0 ==> n > 0)
      ensures written == old(written) + slice[..n]
      ensures calls == old(calls) + [WriteCall(slice, n)]
      ensures closed == old(closed)
    {
      if |slice| == 0 {
        n := 0;
      } else {
        n :| 0 < n <= |slice|;
      }
      written := written + slice[..n];
      calls := calls + [WriteCall(slice, n)];
    }

    method Close()
      modifies this
      ensures closed && written == old(written) && calls == old(calls)
    {
      closed := true;
    }
  }

  /**
   * writeTo: offers the writer the slice of `p` that starts at the current
   * offset and is at most WriteSize long, advances by what it accepted, and
   * closes it once everything is written.
   */
  method WriteTo(p: seq<byte>, dst: Sink) returns (offset: nat)
    modifies dst
    ensures offset == |p|
    ensures dst.written == old(dst.written) + p
    ensures dst.closed
    ensures |dst.calls| >= |old(dst.calls)|
    ensures forall j :: 0 <= j < |dst.calls| - |old(dst.calls)| ==>
      SliceAt(p, dst.calls[|old(dst.calls)|..], j)
  {
    ghost var mine: seq<WriteCall> := [];
    offset := 0;
    while offset < |p|
      invariant offset <= |p|
      invariant dst.written == old(dst.written) + p[..offset]
      invariant dst.calls == old(dst.calls) + mine
      invariant offset == Accepted(mine)
      invariant forall j :: 0 <= j < |mine| ==> SliceAt(p, mine, j)
      decreases |p| - offset
    {
      var slice := p[offset..Min(offset + WriteSize, |p|)];
      var length := dst.Write(slice);
      SliceAtExtend(p, mine, WriteCall(slice, length));
      assert (mine + [WriteCall(slice, length)])[..|mine|] == mine;
      mine := mine + [WriteCall(slice, length)];
      assert p[..offset] + slice[..length] == p[..offset + length];
      offset := offset + length;
    }
    dst.Close();
    assert dst.calls[|old(dst.calls)|..] == mine;
  }

  /**
   * Call `j` of a run of write calls on `p` was offered the slice that starts
   * where the bytes accepted so far end, at most WriteSize long, and took a
   * non-empty prefix of it.
   */
  ghost predicate SliceAt(p: seq<byte>, calls: seq<WriteCall>, j: nat)
    requires j < |calls|
  {
    var o := Accepted(calls[..j]);
    && o < |p|
    && calls[j].slice == p[o..Min(o + WriteSize, |p|)]
    && 0 < calls[j].accepted <= |calls[j].slice| <= WriteSize
  }

  lemma SliceAtExtend(p: seq<byte>, calls: seq<WriteCall>, c: WriteCall)
    requires forall j :: 0 <= j < |calls| ==> SliceAt(p, calls, j)
    requires Accepted(calls) < |p|
    requires c.slice == p[Accepted(calls)..Min(Accepted(calls) + WriteSize, |p|)]
    requires 0 < c.accepted <= |c.slice|
    ensures forall j :: 0 <= j < |calls| + 1 ==> SliceAt(p, calls + [c], j)
    ensures Accepted(calls + [c]) == Accepted(calls) + c.accepted
  {
    var ext := calls + [c];
    assert ext[..|ext| - 1] == calls;
    forall j | 0 <= j < |calls| + 1
      ensures SliceAt(p, ext, j)
    {
      assert ext[..j] == calls[..j];
      if j < |calls| {
        assert SliceAt(p, calls, j);
      } else {
        assert calls[..j] == calls;
      }
    }
  }

  /** A player's settings and the progress it reports; shared with the scheduler. */
  class PlayerInput {
    var audio: seq<byte>
    const sampleRate: int
    const channels: int
    const frameSize: int
    var play: bool
    var trackInfo: Option<TrackInfo>
    var timestamp: int

    constructor (sampleRate: int, channels: int, frameSize: int, play: bool)
      ensures this.sampleRate == sampleRate && this.channels == channels
      ensures this.frameSize == frameSize && this.play == play
      ensures audio == [] && trackInfo == None && timestamp == 0
    {
      this.sampleRate, this.channels, this.frameSize := sampleRate, channels, frameSize;
      this.play := play;
      audio, trackInfo, timestamp := [], None, 0;
    }
  }

  /** opusdec: the compressed track in, raw 16-bit stereo PCM out. */
  type Decoder = seq<byte> -> seq<byte>

  /** Opus.encode(pcm, frameSize): one PCM fragment in, one Opus frame out. */
  type Encoder = (seq<byte>, int) -> seq<byte>

  /**
   * The fragments readFull returns from the PCM stream: full fragments of
   * `size` bytes while enough bytes remain, then the short remainder, if any.
   */
  function Fragments(pcm: seq<byte>, size: nat): (frames: seq<seq<byte>>)
    requires size > 0
    ensures forall i :: 0 <= i < |frames| ==> 0 < |frames[i]| <= size
    decreases |pcm|
  {
    if |pcm| == 0 then []
    else if |pcm| < size then [pcm]
    else [pcm[..size]] + Fragments(pcm[size..], size)
  }

  /** Every PCM byte is read exactly once, in order, and nothing is padded. */
  lemma {:induction false} FragmentsConcat(pcm: seq<byte>, size: nat)
    requires size > 0
    ensures Concat(Fragments(pcm, size)) == pcm
    decreases |pcm|
  {
    if |pcm| >= size {
      FragmentsConcat(pcm[size..], size);
      assert Fragments(pcm, size)[1..] == Fragments(pcm[size..], size);
      assert pcm[..size] + pcm[size..] == pcm;
    }
  }

  /** Only the last fragment can be short. */
  lemma {:induction false} FragmentsFull(pcm: seq<byte>, size: nat)
    requires size > 0
    ensures forall i :: 0 <= i < |Fragments(pcm, size)| - 1 ==> |Fragments(pcm, size)[i]| == size
    decreases |pcm|
  {
    if |pcm| >= size {
      FragmentsFull(pcm[size..], size);
      var fs := Fragments(pcm, size);
      assert fs[1..] == Fragments(pcm[size..], size);
      forall i | 1 <= i < |fs| - 1
        ensures |fs[i]| == size
      {
        assert fs[i] == fs[1..][i - 1];
      }
    }
  }

  /** The generator's answer to one `next()` call. */
  datatype Step = Yield(frame: seq<byte>) | Return(value: Option<seq<byte>>)

  /**
   * Where the generator is suspended: in its read loop, after yielding the
   * short last fragment (the next call leaves the loop), or finished.
   */
  datatype Phase = Reading | Closing | Finished

  /** The oggPlayer generator, with the decoder output and the encoder given. */
  class OggPlayer {
    const p: PlayerInput
    const encode: Encoder
    const pcm: seq<byte>
    const fragmentSize: nat
    var pos: nat
    var played: nat
    var phase: Phase
    var yielded: seq<seq<byte>>

    ghost predicate Valid()
      reads this
    {
      && fragmentSize > 0
      && pos <= |pcm|
      && played == pos
      && Fragments(pcm, fragmentSize) == yielded + Fragments(pcm[pos..], fragmentSize)
      && (phase == Closing ==> pos == |pcm|)
    }

    /** How far the generator is from finishing; every yield brings it closer. */
    function Remaining(): nat
      reads this
      requires Valid()
    {
      match phase
      case Finished => 0
      case Closing => 1
      case Reading => 2 + |pcm| - pos
    }

    /**
     * Starting the generator: the track is written to the decoder's stdin
     * and the decoder's output is what the read loop consumes.
     */
    constructor (p: PlayerInput, decode: Decoder, encode: Encoder)
      requires p.frameSize > 0
      ensures Valid()
      ensures this.p == p && this.encode == encode && pcm == decode(p.audio)
      ensures fragmentSize == p.frameSize * 4
      ensures pos == 0 && phase == Reading && yielded == []
    {
      var stdin := new Sink();
      var _ := WriteTo(p.audio, stdin);
      assert stdin.written == p.audio;
      this.p := p;
      this.encode := encode;
      this.pcm := decode(stdin.written);
      this.fragmentSize := p.frameSize * 4;
      pos, played, phase, yielded := 0, 0, Reading, [];
    }

    /** The value the generator returns: `played` truncated to one byte. */
    function Result(): seq<byte>
      reads this
    {
      Uint8From([played])
    }

    /**
     * next(): while `p.play` holds, read a fragment; a full one is encoded and
     * yielded, a short one is encoded and yielded and ends the loop, and end of
     * stream ends the loop without yielding.
     */
    method Next() returns (step: Step)
      requires Valid()
      modifies this
      ensures Valid()
      ensures old(phase) == Finished ==> step == Return(None) && phase == Finished
      ensures old(phase) != Reading || !p.play || old(pos) == |pcm| ==>
        && pos == old(pos) && yielded == old(yielded) && phase == Finished
        && (old(phase) != Finished ==> step == Return(Some(old(Result()))))
      ensures old(phase) == Reading && p.play && old(pos) < |pcm| ==>
        var f := Fragments(pcm[old(pos)..], fragmentSize)[0];
        && step == Yield(encode(f, p.frameSize))
        && yielded == old(yielded) + [f]
        && pos == old(pos) + |f|
        && phase == (if |f| < fragmentSize then Closing else Reading)
      ensures step.Yield? ==> Remaining() < old(Remaining())
    {
      if phase == Finished {
        return Return(None);
      }
      if phase == Closing || !p.play || pos == |pcm| {
        phase := Finished;
        return Return(Some(Result()));
      }
      var rest := pcm[pos..];
      var fragment;
      if |rest| >= fragmentSize {
        fragment := rest[..fragmentSize];
        assert rest[fragmentSize..] == pcm[pos + fragmentSize..];
      } else {
        fragment := rest;
        phase := Closing;
      }
      step := Yield(encode(fragment, p.frameSize));
      played := played + |fragment|;
      pos := pos + |fragment|;
      yielded := yielded + [fragment];
    }
  }

  /**
   * `played` counts exactly the PCM bytes of the fragments yielded so far,
   * and the generator's return value is that count modulo 256.
   */
  lemma PlayedCountsYieldedBytes(g: OggPlayer)
    requires g.Valid()
    ensures g.played == |Concat(g.yielded)|
    ensures |g.Result()| == 1 && g.Result()[0] == g.played % 256
  {
    var rest := Fragments(g.pcm[g.pos..], g.fragmentSize);
    FragmentsConcat(g.pcm, g.fragmentSize);
    FragmentsConcat(g.pcm[g.pos..], g.fragmentSize);
    ConcatAppend(g.yielded, rest);
    assert g.pcm == g.pcm[..g.pos] + g.pcm[g.pos..];
  }
}
