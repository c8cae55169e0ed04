/**
 * The playback scheduler (soundcloudPlayer.ts): a FIFO queue of track ids,
 * a `playing` guard, and a per-track loop that turns each Opus frame into one
 * transport packet per tick with counters that start again at zero for every
 * track.
 */
module Playback {

  import opened Wrappers
  import opened Udp
  import opened Pcm
  import opened Soundcloud

  /** defaultSettings: 48 kHz stereo, 960 samples (20 ms) per frame, playing. */
  const SampleRate: int := 48000
  const Channels: int := 2
  const FrameSize: int := 960
  const DefaultPlay: bool := true

  /** Bytes of 16-bit stereo PCM in one frame: what the generator reads per fragment. */
  const FragmentBytes: nat := 4 * 960

  /** getTrack(trackId, clientId) as the scheduler consumes it. */
  type Resolver = (string, string) -> (Option<TrackInfo>, seq<byte>)

  /** What the constructor receives. */
  datatype PlayerSettings = PlayerSettings(
    secretKey: seq<byte>, clientId: string, ssrc: int, port: int, hostname: string)

  /** The fixed inputs of playback: session key and SSRC plus the collaborators. */
  datatype Setup = Setup(
    secretKey: seq<byte>, clientId: string, ssrc: int,
    secretbox: Secretbox, decode: Decoder, encode: Encoder, resolve: Resolver)

  /** The scheduler's three per-track counters. */
  datatype Counters = Counters(sequence: int, nonce: int, timestamp: int)

  /**
   * The packets sent for a run of Opus frames, one per tick: each packet uses
   * the current counters, then sequence and nonce go up by one and the
   * timestamp by a frame.
   */
  function TickPackets(chunks: seq<seq<byte>>, key: seq<byte>, ssrc: int, c: Counters): seq<PacketInfo>
    decreases |chunks|
  {
    if chunks == [] then []
    else [PacketInfo(chunks[0], key, ssrc, c.timestamp, c.sequence, c.nonce)]
         + TickPackets(chunks[1..], key, ssrc, Counters(c.sequence + 1, c.nonce + 1, c.timestamp + FrameSize))
  }

  /** The k-th packet carries sequence and nonce advanced by k and the timestamp advanced by k frames. */
  lemma {:induction false} TickPacketsAt(chunks: seq<seq<byte>>, key: seq<byte>, ssrc: int, c: Counters, k: nat)
    requires k < |chunks|
    ensures |TickPackets(chunks, key, ssrc, c)| == |chunks|
    ensures TickPackets(chunks, key, ssrc, c)[k]
      == PacketInfo(chunks[k], key, ssrc, c.timestamp + k * FrameSize, c.sequence + k, c.nonce + k)
    decreases k
  {
    var next := Counters(c.sequence + 1, c.nonce + 1, c.timestamp + FrameSize);
    if k == 0 {
      TickPacketsLength(chunks[1..], key, ssrc, next);
    } else {
      TickPacketsAt(chunks[1..], key, ssrc, next, k - 1);
    }
  }

  lemma {:induction false} TickPacketsLength(chunks: seq<seq<byte>>, key: seq<byte>, ssrc: int, c: Counters)
    ensures |TickPackets(chunks, key, ssrc, c)| == |chunks|
    decreases |chunks|
  {
    if chunks != [] {
      TickPacketsLength(chunks[1..], key, ssrc, Counters(c.sequence + 1, c.nonce + 1, c.timestamp + FrameSize));
    }
  }

  /** One more tick appends one packet with the counters advanced by the ticks before it. */
  lemma TickPacketsSnoc(chunks: seq<seq<byte>>, chunk: seq<byte>, key: seq<byte>, ssrc: int, c: Counters)
    ensures TickPackets(chunks + [chunk], key, ssrc, c)
      == TickPackets(chunks, key, ssrc, c)
         + [PacketInfo(chunk, key, ssrc, c.timestamp + |chunks| * FrameSize, c.sequence + |chunks|, c.nonce + |chunks|)]
  {
    var all := chunks + [chunk];
    var left := TickPackets(all, key, ssrc, c);
    var right := TickPackets(chunks, key, ssrc, c)
      + [PacketInfo(chunk, key, ssrc, c.timestamp + |chunks| * FrameSize, c.sequence + |chunks|, c.nonce + |chunks|)];
    TickPacketsLength(all, key, ssrc, c);
    TickPacketsLength(chunks, key, ssrc, c);
    forall k | 0 <= k < |all|
      ensures left[k] == right[k]
    {
      TickPacketsAt(all, key, ssrc, c, k);
      if k < |chunks| {
        TickPacketsAt(chunks, key, ssrc, c, k);
      }
    }
  }

  /** The Opus frames the generator yields for a run of PCM fragments. */
  function Encoded(s: Setup, fragments: seq<seq<byte>>): (chunks: seq<seq<byte>>)
    ensures |chunks| == |fragments|
  {
    seq(|fragments|, i requires 0 <= i < |fragments| => s.encode(fragments[i], FrameSize))
  }

  /** The bytes the UDP socket sends for a run of packets. */
  function Datagrams(s: Setup, infos: seq<PacketInfo>): (wire: seq<seq<byte>>)
    ensures |wire| == |infos|
  {
    seq(|infos|, i requires 0 <= i < |infos| => PreparePacket(infos[i], s.secretbox))
  }

  /** The datagrams of the first `n` frames of a track. */
  function TrackWire(s: Setup, frames: seq<seq<byte>>, n: nat): seq<seq<byte>>
    requires n <= |frames|
  {
    Datagrams(s, TickPackets(Encoded(s, frames[..n]), s.secretKey, s.ssrc, Counters(0, 0, 0)))
  }

  lemma TrackWireSnoc(s: Setup, frames: seq<seq<byte>>, n: nat)
    requires n < |frames|
    ensures TrackWire(s, frames, n + 1) == TrackWire(s, frames, n) + [PreparePacket(
      PacketInfo(s.encode(frames[n], FrameSize), s.secretKey, s.ssrc, n * FrameSize, n, n), s.secretbox)]
  {
    var chunks := Encoded(s, frames[..n]);
    var chunk := s.encode(frames[n], FrameSize);
    assert frames[..n + 1] == frames[..n] + [frames[n]];
    EncodedSnoc(s, frames[..n], frames[n]);
    var c0 := Counters(0, 0, 0);
    TickPacketsSnoc(chunks, chunk, s.secretKey, s.ssrc, c0);
    var infos := TickPackets(chunks, s.secretKey, s.ssrc, c0);
    var info := PacketInfo(chunk, s.secretKey, s.ssrc, n * FrameSize, n, n);
    assert TickPackets(chunks + [chunk], s.secretKey, s.ssrc, c0) == infos + [info];
    DatagramsSnoc(s, infos, info);
  }

  lemma EncodedSnoc(s: Setup, fragments: seq<seq<byte>>, f: seq<byte>)
    ensures Encoded(s, fragments + [f]) == Encoded(s, fragments) + [s.encode(f, FrameSize)]
  {
  }

  lemma DatagramsSnoc(s: Setup, infos: seq<PacketInfo>, info: PacketInfo)
    ensures Datagrams(s, infos + [info]) == Datagrams(s, infos) + [PreparePacket(info, s.secretbox)]
  {
  }

  /** The PCM fragments of one track. */
  function TrackFragments(s: Setup, audio: seq<byte>): seq<seq<byte>>
  {
    Fragments(s.decode(audio), FragmentBytes)
  }

  /**
   * How many packets a track of `total` frames sends when skip() is called
   * just before tick `skipBefore` (if ever): the generator sees `play` cleared
   * at that tick and stops.
   */
  function SentCount(total: nat, skipBefore: Option<nat>): nat
  {
    if skipBefore.Some? && skipBefore.value < total then skipBefore.value else total
  }

  /** Whether the skip request arrives before the track's loop has ended. */
  predicate SkipSeen(total: nat, skipBefore: Option<nat>)
  {
    skipBefore.Some? && skipBefore.value <= total
  }

  /** The packets playTrack sends for one track. */
  function TrackPackets(s: Setup, audio: seq<byte>, skipBefore: Option<nat>): seq<PacketInfo>
  {
    var fragments := TrackFragments(s, audio);
    TickPackets(Encoded(s, fragments[..SentCount(|fragments|, skipBefore)]), s.secretKey, s.ssrc, Counters(0, 0, 0))
  }

  /** The fields of the shared player input that playback reports as progress. */
  datatype Progress = Progress(audio: seq<byte>, trackInfo: Option<TrackInfo>, timestamp: int, play: bool)

  /** The progress record when playTrack returns. */
  function AfterTrack(s: Setup, audio: seq<byte>, info: TrackInfo, skipBefore: Option<nat>): Progress
  {
    var total := |TrackFragments(s, audio)|;
    Progress(audio, Some(info), SentCount(total, skipBefore) * FrameSize, !SkipSeen(total, skipBefore))
  }

  /** What play() sends and leaves behind. */
  datatype Outcome = Outcome(wire: seq<seq<byte>>, progress: Progress)

  /**
   * The loop of play() over the queue entries `ids`, the first of which is the
   * `first`-th entry taken: an empty id ends the loop, an id whose metadata
   * cannot be resolved is passed over, and every other track is played.
   * `skipPlan(i)` is the tick of the i-th taken track before which skip() is
   * called, if it is.
   */
  function PlayQueue(s: Setup, ids: seq<string>, first: nat, skipPlan: nat -> Option<nat>, pr: Progress): Outcome
    decreases |ids|
  {
    if ids == [] || ids[0] == "" then Outcome([], pr)
    else
      var resolved := s.resolve(ids[0], s.clientId);
      if resolved.0.None? then PlayQueue(s, ids[1..], first + 1, skipPlan, pr)
      else
        var skip := skipPlan(first);
        var rest := PlayQueue(s, ids[1..], first + 1, skipPlan, AfterTrack(s, resolved.1, resolved.0.value, skip));
        Outcome(Datagrams(s, TrackPackets(s, resolved.1, skip)) + rest.wire, rest.progress)
  }

  /** Unfolding of PlayQueue at an id that is not empty. */
  lemma PlayQueueCons(s: Setup, id: string, ids: seq<string>, first: nat, skipPlan: nat -> Option<nat>, pr: Progress)
    requires id != ""
    ensures var resolved := s.resolve(id, s.clientId);
      PlayQueue(s, [id] + ids, first, skipPlan, pr)
      == if resolved.0.None? then PlayQueue(s, ids, first + 1, skipPlan, pr)
         else
           var rest := PlayQueue(s, ids, first + 1, skipPlan, AfterTrack(s, resolved.1, resolved.0.value, skipPlan(first)));
           Outcome(Datagrams(s, TrackPackets(s, resolved.1, skipPlan(first))) + rest.wire, rest.progress)
  {
    assert ([id] + ids)[1..] == ids;
  }

  /**
   * A track's loop that stops at tick `tick`, by a skip due then or because
   * every frame went out, has sent SentCount frames, and `play` is left
   * cleared exactly when the skip was seen.
   */
  lemma TrackEnds(total: nat, tick: nat, skipBefore: Option<nat>)
    requires tick <= total && (skipBefore.Some? ==> skipBefore.value >= tick)
    requires (skipBefore.Some? && skipBefore.value == tick) || tick == total
    ensures tick == SentCount(total, skipBefore)
    ensures SkipSeen(total, skipBefore) <==> skipBefore.Some? && skipBefore.value == tick
  {
  }

  /** The queue left after play(): everything after the first empty id, or nothing. */
  function QueueAfterPlay(ids: seq<string>): seq<string>
  {
    if ids == [] then [] else if ids[0] == "" then ids[1..] else QueueAfterPlay(ids[1..])
  }

  class SoundcloudPlayer {
    const secretKey: seq<byte>
    const clientId: string
    const ssrc: int
    /** The UDP socket's remote endpoint (hostname, port). */
    const remote: (string, int)
    const secretbox: Secretbox
    const decode: Decoder
    const encode: Encoder
    const resolve: Resolver

    var queue: seq<string>
    var playing: bool
    const playerInput: PlayerInput
    /** The datagrams the UDP socket has sent, in order. */
    var wire: seq<seq<byte>>
    /** Text messages posted through the REST collaborator: (channel, content). */
    var notices: seq<(string, string)>

    ghost predicate Valid()
    {
      playerInput.frameSize == FrameSize
    }

    function Config(): Setup
    {
      Setup(secretKey, clientId, ssrc, secretbox, decode, encode, resolve)
    }

    function CurrentProgress(): Progress
      reads playerInput
    {
      Progress(playerInput.audio, playerInput.trackInfo, playerInput.timestamp, playerInput.play)
    }

    constructor (settings: PlayerSettings, secretbox: Secretbox, decode: Decoder, encode: Encoder, resolve: Resolver)
      ensures Valid()
      ensures secretKey == settings.secretKey && clientId == settings.clientId && ssrc == settings.ssrc
      ensures remote == (settings.hostname, settings.port)
      ensures this.secretbox == secretbox && this.decode == decode && this.encode == encode && this.resolve == resolve
      ensures queue == [] && !playing && wire == [] && notices == []
      ensures fresh(playerInput)
      ensures playerInput.sampleRate == SampleRate && playerInput.channels == Channels
      ensures CurrentProgress() == Progress([], None, 0, DefaultPlay)
    {
      secretKey, clientId, ssrc := settings.secretKey, settings.clientId, settings.ssrc;
      remote := (settings.hostname, settings.port);
      this.secretbox, this.decode, this.encode, this.resolve := secretbox, decode, encode, resolve;
      queue, playing, wire, notices := [], false, [], [];
      playerInput := new PlayerInput(SampleRate, Channels, FrameSize, DefaultPlay);
    }

    /** enqueue: the id goes to the back of the queue; nothing else changes. */
    method Enqueue(id: string)
      modifies this
      ensures queue == old(queue) + [id]
      ensures playing == old(playing) && wire == old(wire) && notices == old(notices)
    {
      queue := queue + [id];
    }

    /** skip: clears `play` on the shared player input and nothing else. */
    method Skip()
      modifies playerInput`play
      ensures !playerInput.play
    {
      playerInput.play := false;
    }
 
    /**
     * The interval callback of playTrack: ask the generator for the next frame;
     * when it is done report so, otherwise send the frame as a packet stamped
     * with the current counters and advance the timestamp by one frame.
     */
    method OnTick(player: OggPlayer, sequence: int, nonce: int) returns (done: bool)
      requires Valid() && player.Valid() && player.p == playerInput && player.encode == encode
      requires player.phase != Finished
      modifies this, player, playerInput`timestamp
      ensures player.Valid() && (!done ==> player.phase != Finished)
      ensures done <==> old(player.phase) == Closing || !playerInput.play || old(player.pos) == |player.pcm|
      ensures done ==> wire == old(wire) && player.yielded == old(player.yielded)
      ensures done ==> playerInput.timestamp == old(playerInput.timestamp)
      ensures !done ==>
        var f := Fragments(player.pcm[old(player.pos)..], player.fragmentSize)[0];
        && player.yielded == old(player.yielded) + [f]
        && (player.phase == Closing ==> player.pos == |player.pcm|)
        && wire == old(wire) + [PreparePacket(
             PacketInfo(encode(f, FrameSize), secretKey, ssrc, old(playerInput.timestamp), sequence, nonce), secretbox)]
        && playerInput.timestamp == old(playerInput.timestamp) + FrameSize
      ensures !done ==> player.Remaining() < old(player.Remaining())
      ensures queue == old(queue) && playing == old(playing) && notices == old(notices)
    {
      var chunk := player.Next();
      if chunk.Return? {
        return true;
      }
      var packet := PreparePacket(PacketInfo(chunk.frame, secretKey, ssrc, playerInput.timestamp, sequence, nonce), secretbox);
      wire := wire + [packet];
      playerInput.timestamp := playerInput.timestamp + playerInput.frameSize;
      done := false;
    }

    /**
     * playTrack: counters start at zero, the player input is reset for the
     * track, and every tick sends the next Opus frame as a packet stamped with
     * the current counters, until the generator finishes. `skipBefore` is the
     * tick before which skip() is called, if it is.
     */
    method PlayTrack(audio: seq<byte>, trackInfo: TrackInfo, skipBefore: Option<nat>)
      requires Valid()
      modifies this, playerInput
      ensures wire == old(wire) + Datagrams(Config(), TrackPackets(Config(), audio, skipBefore))
      ensures CurrentProgress() == AfterTrack(Config(), audio, trackInfo, skipBefore)
      ensures queue == old(queue) && playing == old(playing) && notices == old(notices)
    {
      var sequence, nonce := 0, 0;
      playerInput.audio := audio;
      playerInput.trackInfo := Some(trackInfo);
      playerInput.timestamp := 0;
      playerInput.play := true;
      var player := new OggPlayer(playerInput, decode, encode);
      ghost var frames := TrackFragments(Config(), audio);
      var tick := 0;
      while true
        invariant fresh(player) && player.Valid()
        invariant player.p == playerInput && player.encode == encode
        invariant player.pcm == decode(audio) && player.fragmentSize == FragmentBytes
        invariant player.phase != Finished
        invariant tick == sequence == nonce == |player.yielded| <= |frames|
        invariant player.yielded == frames[..tick]
        invariant player.phase == Closing ==> tick == |frames|
        invariant playerInput.audio == audio && playerInput.trackInfo == Some(trackInfo)
        invariant playerInput.timestamp == tick * FrameSize && playerInput.play
        invariant skipBefore.Some? ==> skipBefore.value >= tick
        invariant wire == old(wire) + TrackWire(Config(), frames, tick)
        invariant queue == old(queue) && playing == old(playing) && notices == old(notices)
        decreases player.Remaining()
      {
        var done := PlayTick(player, tick, skipBefore, frames, old(wire));
        if done {
          break;
        }
        sequence := sequence + 1;
        nonce := nonce + 1;
        tick := tick + 1;
      }
    }

    /**
     * One tick of playTrack's loop, with skip() called first when it is due:
     * either the track ends here, after exactly the packets of the frames
     * sent so far, or the next frame goes out stamped with the tick's
     * counters and the track's wire grows by that packet.
     */
    method PlayTick(player: OggPlayer, tick: nat, skipBefore: Option<nat>, ghost frames: seq<seq<byte>>,
                    ghost start: seq<seq<byte>>) returns (done: bool)
      requires Valid() && player.Valid() && player.p == playerInput && player.encode == encode
      requires player.fragmentSize == FragmentBytes && frames == Fragments(player.pcm, FragmentBytes)
      requires player.phase != Finished
      requires tick == |player.yielded| <= |frames| && player.yielded == frames[..tick]
      requires player.phase == Closing ==> tick == |frames|
      requires playerInput.timestamp == tick * FrameSize && playerInput.play
      requires skipBefore.Some? ==> skipBefore.value >= tick
      requires wire == start + TrackWire(Config(), frames, tick)
      modifies this, player, playerInput`timestamp, playerInput`play
      ensures player.Valid() && (!done ==> player.phase != Finished)
      ensures done ==> tick == SentCount(|frames|, skipBefore) && wire == old(wire)
      ensures done ==> playerInput.timestamp == tick * FrameSize && playerInput.play == !SkipSeen(|frames|, skipBefore)
      ensures !done ==> tick + 1 == |player.yielded| <= |frames| && player.yielded == frames[..tick + 1]
      ensures !done ==> (player.phase == Closing ==> tick + 1 == |frames|)
      ensures !done ==> playerInput.timestamp == (tick + 1) * FrameSize && playerInput.play
      ensures !done ==> (skipBefore.Some? ==> skipBefore.value >= tick + 1)
      ensures !done ==> wire == start + TrackWire(Config(), frames, tick + 1)
      ensures !done ==> player.Remaining() < old(player.Remaining())
      ensures queue == old(queue) && playing == old(playing) && notices == old(notices)
    {
      ghost var pos := player.pos;
      ghost var rest := Fragments(player.pcm[pos..], FragmentBytes);
      assert frames == frames[..tick] + rest;
      var skipped := skipBefore.Some? && skipBefore.value == tick;
      if skipped {
        Skip();
      }
      done := OnTick(player, tick, tick);
      if done {
        if !skipped && pos == |player.pcm| {
          assert player.pcm[pos..] == [];
        }
        TrackEnds(|frames|, tick, skipBefore);
        return;
      }
      assert frames[tick] == rest[0];
      TrackWireSnoc(Config(), frames, tick);
    }

    /**
     * Plays one non-empty id taken from the queue: an id without metadata is
     * passed over, any other is played. What is sent plus the rest of the
     * queue's work equals the work of the queue with the id still in front.
     */
    method PlayId(trackId: string, taken: nat, skipPlan: nat -> Option<nat>)
      requires Valid() && trackId != ""
      modifies this, playerInput
      ensures var before := PlayQueue(Config(), [trackId] + queue, taken, skipPlan, old(CurrentProgress()));
        var after := PlayQueue(Config(), queue, taken + 1, skipPlan, CurrentProgress());
        old(wire) + before.wire == wire + after.wire && before.progress == after.progress
      ensures queue == old(queue) && playing == old(playing) && notices == old(notices)
    {
      ghost var ids := queue;
      ghost var pr := CurrentProgress();
      PlayQueueCons(Config(), trackId, ids, taken, skipPlan, pr);
      var resolved := resolve(trackId, clientId);
      if resolved.0.Some? {
        PlayTrack(resolved.1, resolved.0.value, skipPlan(taken));
      }
    }

    /**
     * One turn of play()'s loop: shift the next id; a missing or empty id
     * stops the loop, any other is handed to PlayId. The queue's remaining
     * work plus what was sent stays the same.
     */
    method TakeNext(taken: nat, skipPlan: nat -> Option<nat>) returns (stop: bool)
      requires Valid()
      modifies this, playerInput
      ensures !stop ==> |queue| < |old(queue)|
      ensures stop ==> queue == QueueAfterPlay(old(queue))
      ensures !stop ==> QueueAfterPlay(queue) == QueueAfterPlay(old(queue))
      ensures var before := PlayQueue(Config(), old(queue), taken, skipPlan, old(CurrentProgress()));
        var after := PlayQueue(Config(), queue, taken + 1, skipPlan, CurrentProgress());
        if stop then wire == old(wire) && before == Outcome([], CurrentProgress())
        else old(wire) + before.wire == wire + after.wire && before.progress == after.progress
      ensures playing == old(playing) && notices == old(notices)
    {
      if queue == [] {
        return true;
      }
      var trackId := queue[0];
      queue := queue[1..];
      if trackId == "" {
        return true;
      }
      assert old(queue) == [trackId] + queue;
      PlayId(trackId, taken, skipPlan);
      stop := false;
    }

    /**
     * play: while already playing, returns at once. Otherwise posts a notice,
     * sets `playing`, and takes ids from the front of the queue: an id that
     * does not resolve to track metadata is passed over, every other track is
     * played to its end or its skip, and a missing or empty id ends the loop
     * and clears `playing`. `skipPlan(i)` is when skip() interrupts the i-th
     * id taken.
     */
    method Play(commChannel: string, skipPlan: nat -> Option<nat>)
      requires Valid()
      modifies this, playerInput
      ensures old(playing) ==>
        && queue == old(queue) && playing && wire == old(wire) && notices == old(notices)
        && CurrentProgress() == old(CurrentProgress())
      ensures !old(playing) ==>
        var outcome := PlayQueue(Config(), old(queue), 0, skipPlan, old(CurrentProgress()));
        && notices == old(notices) + [(commChannel, "Playin: ")]
        && !playing
        && queue == QueueAfterPlay(old(queue))
        && wire == old(wire) + outcome.wire
        && CurrentProgress() == outcome.progress
    {
      if playing {
        return;
      }
      notices := notices + [(commChannel, "Playin: ")];
      playing := true;
      ghost var total := PlayQueue(Config(), queue, 0, skipPlan, CurrentProgress());
      var taken := 0;
      while true
        invariant playing && notices == old(notices) + [(commChannel, "Playin: ")]
        invariant QueueAfterPlay(queue) == QueueAfterPlay(old(queue))
        invariant old(wire) + total.wire == wire + PlayQueue(Config(), queue, taken, skipPlan, CurrentProgress()).wire
        invariant total.progress == PlayQueue(Config(), queue, taken, skipPlan, CurrentProgress()).progress
        decreases |queue|
      {
        var stop := TakeNext(taken, skipPlan);
        if stop {
          break;
        }
        taken := taken + 1;
      }
      playing := false;
    }
  }
}
