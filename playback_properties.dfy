/**
 * What the playback scheduler's specification functions promise: per-track
 * counters, the nonce values they put on the wire, skip as a cut, FIFO order
 * of the queue and the empty id that ends play().
 */
module PlaybackProperties {

  import opened Wrappers
  import opened Udp
  import opened Pcm
  import opened Playback

  /** Every id in `ids` is a non-empty (truthy) string. */
  predicate NoEmptyId(ids: seq<string>)
  {
    forall i :: 0 <= i < |ids| ==> ids[i] != ""
  }

  /** The first `n` ticks of a run of frames send the first `n` packets of the whole run. */
  lemma {:induction false} TickPacketsPrefix(chunks: seq<seq<byte>>, key: seq<byte>, ssrc: int, c: Counters, n: nat)
    requires n <= |chunks|
    ensures |TickPackets(chunks, key, ssrc, c)| == |chunks|
    ensures TickPackets(chunks[..n], key, ssrc, c) == TickPackets(chunks, key, ssrc, c)[..n]
  {
    var left := TickPackets(chunks[..n], key, ssrc, c);
    var whole := TickPackets(chunks, key, ssrc, c);
    TickPacketsLength(chunks[..n], key, ssrc, c);
    TickPacketsLength(chunks, key, ssrc, c);
    forall k | 0 <= k < n
      ensures left[k] == whole[k]
    {
      TickPacketsAt(chunks[..n], key, ssrc, c, k);
      TickPacketsAt(chunks, key, ssrc, c, k);
    }
  }

  /**
   * Within one track the k-th packet carries the k-th frame's encoding,
   * sequence k, nonce k and timestamp k frames, under the session key and
   * SSRC; a track sends one packet per frame up to the skip.
   */
  lemma TrackPacketsCounters(s: Setup, audio: seq<byte>, skipBefore: Option<nat>, k: nat)
    requires k < |TrackPackets(s, audio, skipBefore)|
    ensures |TrackPackets(s, audio, skipBefore)| == SentCount(|TrackFragments(s, audio)|, skipBefore)
    ensures k < |TrackFragments(s, audio)|
    ensures TrackPackets(s, audio, skipBefore)[k] == PacketInfo(
      s.encode(TrackFragments(s, audio)[k], FrameSize), s.secretKey, s.ssrc, k * FrameSize, k, k)
  {
    var frames := TrackFragments(s, audio);
    var n := SentCount(|frames|, skipBefore);
    var chunks := Encoded(s, frames[..n]);
    TickPacketsLength(chunks, s.secretKey, s.ssrc, Counters(0, 0, 0));
    TickPacketsAt(chunks, s.secretKey, s.ssrc, Counters(0, 0, 0), k);
  }

  /** No nonce value repeats within one track. */
  lemma TrackNoncesDistinct(s: Setup, audio: seq<byte>, skipBefore: Option<nat>, i: nat, j: nat)
    requires i < j < |TrackPackets(s, audio, skipBefore)|
    ensures TrackPackets(s, audio, skipBefore)[i].nonce != TrackPackets(s, audio, skipBefore)[j].nonce
  {
    TrackPacketsCounters(s, audio, skipBefore, i);
    TrackPacketsCounters(s, audio, skipBefore, j);
  }

  /**
   * Every track starts its nonce counter again at zero under the same key:
   * the first packets of any two tracks are sealed with the same nonce and
   * key, and carry the same nonce trailer.
   */
  lemma NonceReuseAcrossTracks(s: Setup, audio1: seq<byte>, skip1: Option<nat>, audio2: seq<byte>, skip2: Option<nat>)
    requires |TrackPackets(s, audio1, skip1)| > 0 && |TrackPackets(s, audio2, skip2)| > 0
    ensures var p1 := TrackPackets(s, audio1, skip1)[0];
      var p2 := TrackPackets(s, audio2, skip2)[0];
      && p1.nonce == p2.nonce == 0
      && p1.secretKey == p2.secretKey == s.secretKey
      && Nonce(p1.nonce) == Nonce(p2.nonce)
  {
    TrackPacketsCounters(s, audio1, skip1, 0);
    TrackPacketsCounters(s, audio2, skip2, 0);
  }

  /**
   * What a receiver reads back from the k-th datagram of a track: sequence k
   * modulo 2^16, timestamp k frames modulo 2^32, the SSRC, the sealed frame
   * and the nonce k.
   */
  lemma TrackDatagramParses(s: Setup, audio: seq<byte>, skipBefore: Option<nat>, k: nat)
    requires s.ssrc >= 0
    requires k < |TrackPackets(s, audio, skipBefore)|
    ensures var info := TrackPackets(s, audio, skipBefore)[k];
      ParsePacket(Datagrams(s, TrackPackets(s, audio, skipBefore))[k])
      == Some(Datagram(k % TwoTo16, (k * FrameSize) % TwoTo32, s.ssrc % TwoTo32,
                       s.secretbox(info.chunk, Nonce(k), s.secretKey), Nonce(k)))
  {
    var info := TrackPackets(s, audio, skipBefore)[k];
    TrackPacketsCounters(s, audio, skipBefore, k);
    PacketRoundTrip(info, s.secretbox);
  }

  /**
   * skip() before tick k cuts the track after its first k packets (when the
   * track is that long); a skip that comes after the last frame changes no
   * packet.
   */
  lemma SkipTruncates(s: Setup, audio: seq<byte>, k: nat)
    ensures |TrackPackets(s, audio, None)| == |TrackFragments(s, audio)|
    ensures k <= |TrackFragments(s, audio)| ==>
      TrackPackets(s, audio, Some(k)) == TrackPackets(s, audio, None)[..k]
    ensures k >= |TrackFragments(s, audio)| ==>
      TrackPackets(s, audio, Some(k)) == TrackPackets(s, audio, None)
  {
    var frames := TrackFragments(s, audio);
    var all := Encoded(s, frames);
    assert frames[..|frames|] == frames;
    TickPacketsLength(all, s.secretKey, s.ssrc, Counters(0, 0, 0));
    if k <= |frames| {
      assert Encoded(s, frames[..k]) == all[..k];
      TickPacketsPrefix(all, s.secretKey, s.ssrc, Counters(0, 0, 0), k);
    }
  }

  /**
   * FIFO order: play() over `ids1 + ids2`, when `ids1` holds no empty id,
   * sends everything of `ids1` and then everything of `ids2`, the latter
   * starting from the progress `ids1` leaves.
   */
  lemma {:induction false} PlayQueueAppend(s: Setup, ids1: seq<string>, ids2: seq<string>, first: nat,
                                           skipPlan: nat -> Option<nat>, pr: Progress)
    requires NoEmptyId(ids1)
    ensures var a := PlayQueue(s, ids1, first, skipPlan, pr);
      var b := PlayQueue(s, ids2, first + |ids1|, skipPlan, a.progress);
      PlayQueue(s, ids1 + ids2, first, skipPlan, pr) == Outcome(a.wire + b.wire, b.progress)
    decreases |ids1|
  {
    if ids1 == [] {
      assert ids1 + ids2 == ids2;
    } else {
      var id := ids1[0];
      assert ids1 + ids2 == [id] + (ids1[1..] + ids2);
      assert ids1 == [id] + ids1[1..];
      PlayQueueCons(s, id, ids1[1..] + ids2, first, skipPlan, pr);
      PlayQueueCons(s, id, ids1[1..], first, skipPlan, pr);
      var resolved := s.resolve(id, s.clientId);
      var next := if resolved.0.None? then pr
                  else AfterTrack(s, resolved.1, resolved.0.value, skipPlan(first));
      PlayQueueAppend(s, ids1[1..], ids2, first + 1, skipPlan, next);
    }
  }

  /**
   * An empty id ends play(): nothing after it is sent, and the queue keeps
   * exactly the ids after it.
   */
  lemma StopsAtEmptyId(s: Setup, ids1: seq<string>, ids2: seq<string>, first: nat,
                       skipPlan: nat -> Option<nat>, pr: Progress)
    requires NoEmptyId(ids1)
    ensures PlayQueue(s, ids1 + [""] + ids2, first, skipPlan, pr) == PlayQueue(s, ids1, first, skipPlan, pr)
    ensures QueueAfterPlay(ids1 + [""] + ids2) == ids2
  {
    assert ids1 + [""] + ids2 == ids1 + ([""] + ids2);
    PlayQueueAppend(s, ids1, [""] + ids2, first, skipPlan, pr);
    QueueAfterPlayAppend(ids1, [""] + ids2);
    assert ([""] + ids2)[1..] == ids2;
  }

  /** The ids before the first empty one are all consumed by play(). */
  lemma {:induction false} QueueAfterPlayAppend(ids1: seq<string>, ids2: seq<string>)
    requires NoEmptyId(ids1)
    ensures QueueAfterPlay(ids1 + ids2) == QueueAfterPlay(ids2)
    decreases |ids1|
  {
    if ids1 != [] {
      assert (ids1 + ids2)[1..] == ids1[1..] + ids2;
      QueueAfterPlayAppend(ids1[1..], ids2);
    } else {
      assert ids1 + ids2 == ids2;
    }
  }

  /** Without an empty id, play() runs the queue dry. */
  lemma {:induction false} QueueAfterPlayDrains(ids: seq<string>)
    requires NoEmptyId(ids)
    ensures QueueAfterPlay(ids) == []
    decreases |ids|
  {
    if ids != [] {
      QueueAfterPlayDrains(ids[1..]);
    }
  }

  /** Ids without track metadata send nothing and leave the progress as it was. */
  lemma {:induction false} UnresolvedSendNothing(s: Setup, ids: seq<string>, first: nat,
                                                 skipPlan: nat -> Option<nat>, pr: Progress)
    requires forall i :: 0 <= i < |ids| ==> s.resolve(ids[i], s.clientId).0.None?
    ensures PlayQueue(s, ids, first, skipPlan, pr) == Outcome([], pr)
    decreases |ids|
  {
    if ids != [] && ids[0] != "" {
      UnresolvedSendNothing(s, ids[1..], first + 1, skipPlan, pr);
    }
  }

  /**
   * A queue of one resolved track sends exactly that track's datagrams and
   * leaves the progress of its end.
   */
  lemma SingleTrack(s: Setup, id: string, first: nat, skipPlan: nat -> Option<nat>, pr: Progress)
    requires id != "" && s.resolve(id, s.clientId).0.Some?
    ensures var r := s.resolve(id, s.clientId);
      PlayQueue(s, [id], first, skipPlan, pr)
      == Outcome(Datagrams(s, TrackPackets(s, r.1, skipPlan(first))),
                 AfterTrack(s, r.1, r.0.value, skipPlan(first)))
  {
    PlayQueueCons(s, id, [], first, skipPlan, pr);
  }

  /**
   * A queue whose first track cannot be resolved and whose second can: the
   * first is passed over without sending anything and the second is played
   * as the second id taken.
   */
  lemma FailedThenPlayed(s: Setup, t1: string, t2: string, skipPlan: nat -> Option<nat>, pr: Progress)
    requires t1 != "" && t2 != ""
    requires s.resolve(t1, s.clientId).0.None? && s.resolve(t2, s.clientId).0.Some?
    ensures var r := s.resolve(t2, s.clientId);
      PlayQueue(s, [t1, t2], 0, skipPlan, pr)
      == Outcome(Datagrams(s, TrackPackets(s, r.1, skipPlan(1))), AfterTrack(s, r.1, r.0.value, skipPlan(1)))
  {
    PlayQueueCons(s, t1, [t2], 0, skipPlan, pr);
    assert [t1, t2] == [t1] + [t2];
    SingleTrack(s, t2, 1, skipPlan, pr);
  }
}
