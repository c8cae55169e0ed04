/**
 * Track assembly helpers (soundcloud.ts): choosing the Opus transcoding,
 * extracting the segment links of an HLS playlist, and joining the fetched
 * segments into one buffer.
 */
module Soundcloud {

  import opened Wrappers
  import opened Udp

  /** Title, duration and uploader of a track, as the player announces them. */
  datatype TrackInfo = TrackInfo(title: string, durationMs: nat, ownerName: string)

  /** The API's base address. */
  const Api: string := "https://api-v2.soundcloud.com"

  /** The transcoding preset the bot streams. */
  const OpusPreset: string := "opus_0_0"

  /** The bytes appended after the segments by toUint8Array. */
  const Padding: nat := 10

  /** The segments one after another. */
  function Concat(frames: seq<seq<byte>>): seq<byte>
  {
    if frames == [] then [] else frames[0] + Concat(frames[1..])
  }

  /** The reduce that sums the segments' byte lengths. */
  function TotalLength(frames: seq<seq<byte>>): nat
  {
    if frames == [] then 0 else |frames[0]| + TotalLength(frames[1..])
  }

  lemma {:induction false} ConcatLength(frames: seq<seq<byte>>)
    ensures |Concat(frames)| == TotalLength(frames)
    decreases |frames|
  {
    if frames != [] {
      ConcatLength(frames[1..]);
    }
  }

  /** Adding one more segment at the end appends its bytes. */
  lemma {:induction false} ConcatSnoc(frames: seq<seq<byte>>, f: seq<byte>)
    ensures Concat(frames + [f]) == Concat(frames) + f
    decreases |frames|
  {
    if frames == [] {
      assert [] + [f] == [f];
    } else {
      assert (frames + [f])[1..] == frames[1..] + [f];
      ConcatSnoc(frames[1..], f);
    }
  }

  lemma {:induction false} ConcatAppend(a: seq<seq<byte>>, b: seq<seq<byte>>)
    ensures Concat(a + b) == Concat(a) + Concat(b)
    decreases |a|
  {
    if a == [] {
      assert a + b == b;
    } else {
      assert (a + b)[1..] == a[1..] + b;
      ConcatAppend(a[1..], b);
    }
  }

  /**
   * toUint8Array: a zero-filled buffer ten bytes longer than all segments
   * together, with each segment copied in at the running offset. The result
   * is the segments in order followed by ten zero bytes.
   */
  method ToUint8Array(fragments: seq<seq<byte>>) returns (result: seq<byte>)
    ensures result == Concat(fragments) + Zeros(Padding)
    ensures |result| == TotalLength(fragments) + Padding
  {
    var totalLength := Padding;
    for i := 0 to |fragments|
      invariant totalLength == |Concat(fragments[..i])| + Padding
    {
      assert fragments[..i + 1] == fragments[..i] + [fragments[i]];
      ConcatSnoc(fragments[..i], fragments[i]);
      totalLength := totalLength + |fragments[i]|;
    }
    assert fragments[..|fragments|] == fragments;
    var buffer := new byte[totalLength](_ => 0);
    var prev := 0;
    for i := 0 to |fragments|
      invariant prev == |Concat(fragments[..i])|
      invariant prev + |Concat(fragments[i..])| + Padding == buffer.Length
      invariant buffer[..prev] == Concat(fragments[..i])
      invariant forall k :: prev <= k < buffer.Length ==> buffer[k] == 0
    {
      var f := fragments[i];
      assert fragments[..i + 1] == fragments[..i] + [f];
      ConcatSnoc(fragments[..i], f);
      assert fragments[i..] == [f] + fragments[i + 1..];
      CopyIn(buffer, prev, f);
      prev := prev + |f|;
    }
    assert buffer[..] == buffer[..prev] + buffer[prev..];
    assert buffer[prev..] == Zeros(Padding);
    result := buffer[..];
    ConcatLength(fragments);
  }

  /** buffer.set(f, prev): writes f at offset prev and leaves the other bytes alone. */
  method CopyIn(buffer: array<byte>, prev: nat, f: seq<byte>)
    requires prev + |f| <= buffer.Length
    modifies buffer
    ensures buffer[..prev + |f|] == old(buffer[..prev]) + f
    ensures buffer[prev + |f|..] == old(buffer[prev + |f|..])
  {
    forall j | 0 <= j < |f| {
      buffer[prev + j] := f[j];
    }
    assert buffer[..prev + |f|] == buffer[..prev] + f;
  }

  /** A transcoding entry of a track's media: its stream URL and preset. */
  datatype Transcoding = Transcoding(url: string, preset: string)

  /** Array.find for the Opus preset: the first entry whose preset matches. */
  function FindOpus(ts: seq<Transcoding>): (r: Option<nat>)
    ensures r.Some? ==> r.value < |ts| && ts[r.value].preset == OpusPreset
    ensures r.Some? ==> forall i :: 0 <= i < r.value ==> ts[i].preset != OpusPreset
    ensures r.None? ==> forall i :: 0 <= i < |ts| ==> ts[i].preset != OpusPreset
    decreases |ts|
  {
    if ts == [] then None
    else if ts[0].preset == OpusPreset then Some(0)
    else
      var rest := FindOpus(ts[1..]);
      if rest.None? then None else Some(rest.value + 1)
  }

  /** The line terminators `.` does not match in a JavaScript regular expression. */
  predicate IsLineTerminator(c: char)
  {
    c == '\n' || c == '\r' || c == '\U{2028}' || c == '\U{2029}'
  }

  /** The `.*` of the comment pattern: everything up to the next line terminator. */
  function SkipLine(s: string): (r: string)
    ensures |r| <= |s| && r == s[|s| - |r|..]
    ensures r == [] || IsLineTerminator(r[0])
    ensures forall i :: 0 <= i < |s| - |r| ==> !IsLineTerminator(s[i])
    decreases |s|
  {
    if s == [] || IsLineTerminator(s[0]) then s else SkipLine(s[1..])
  }

  /** The `\n*` of the comment pattern. */
  function SkipNewlines(s: string): (r: string)
    ensures |r| <= |s| && r == s[|s| - |r|..]
    ensures r == [] || r[0] != '\n'
    ensures forall i :: 0 <= i < |s| - |r| ==> s[i] == '\n'
    decreases |s|
  {
    if s != [] && s[0] == '\n' then SkipNewlines(s[1..]) else s
  }

  /**
   * replace(/#.*\n*\/g, ""): every `#`, the rest of its line and the
   * newlines after it are deleted, scanning left to right.
   */
  function StripComments(s: string): (r: string)
    ensures forall i :: 0 <= i < |r| ==> r[i] != '#'
    decreases |s|
  {
    if s == [] then []
    else if s[0] == '#' then StripComments(SkipNewlines(SkipLine(s[1..])))
    else [s[0]] + StripComments(s[1..])
  }

  /** split("\n"): the pieces between newlines; at least one, possibly empty. */
  function SplitLines(s: string): (parts: seq<string>)
    ensures |parts| >= 1
    ensures forall i, j :: 0 <= i < |parts| && 0 <= j < |parts[i]| ==> parts[i][j] != '\n'
    decreases |s|
  {
    if s == [] then [[]]
    else if s[0] == '\n' then [[]] + SplitLines(s[1..])
    else
      var rest := SplitLines(s[1..]);
      [[s[0]] + rest[0]] + rest[1..]
  }

  /** The pieces joined back with newlines. */
  function JoinLines(parts: seq<string>): string
    requires |parts| >= 1
    decreases |parts|
  {
    if |parts| == 1 then parts[0] else parts[0] + "\n" + JoinLines(parts[1..])
  }

  /** Splitting loses nothing: joining the pieces gives the text back. */
  lemma {:induction false} SplitJoin(s: string)
    ensures JoinLines(SplitLines(s)) == s
    decreases |s|
  {
    if s != [] {
      SplitJoin(s[1..]);
      var rest := SplitLines(s[1..]);
      if s[0] == '\n' {
        JoinAfterNewline(rest);
      } else {
        JoinGrowFront(s[0], rest);
      }
      assert s == [s[0]] + s[1..];
    }
  }

  /** An empty first piece joins to a leading newline. */
  lemma JoinAfterNewline(rest: seq<string>)
    requires |rest| >= 1
    ensures JoinLines([[]] + rest) == "\n" + JoinLines(rest)
  {
    var parts := [[]] + rest;
    assert parts[1..] == rest;
  }

  /** Growing the first piece by one character grows the joined text by it. */
  lemma JoinGrowFront(c: char, rest: seq<string>)
    requires |rest| >= 1
    ensures JoinLines([[c] + rest[0]] + rest[1..]) == [c] + JoinLines(rest)
  {
    var parts := [[c] + rest[0]] + rest[1..];
    if |rest| > 1 {
      assert parts[1..] == rest[1..];
      var tail := "\n" + JoinLines(rest[1..]);
      assert JoinLines(parts) == [c] + rest[0] + tail;
      assert JoinLines(rest) == rest[0] + tail;
      AppendAssoc([c], rest[0], tail);
    }
  }

  lemma AppendAssoc(a: string, b: string, d: string)
    ensures a + b + d == a + (b + d)
  {
  }

  /**
   * Lines 36-37 of getTrack: strip comments, split on newlines and pop the
   * last piece (the text after the last newline, usually empty).
   */
  function ExtractLinks(linkInfo: string): (links: seq<string>)
    ensures forall i, j :: 0 <= i < |links| && 0 <= j < |links[i]| ==> links[i][j] != '#' && links[i][j] != '\n'
  {
    var parts := SplitLines(StripComments(linkInfo));
    NoHashSurvivesSplit(StripComments(linkInfo));
    parts[..|parts| - 1]
  }

  lemma {:induction false} NoHashSurvivesSplit(s: string)
    requires forall i :: 0 <= i < |s| ==> s[i] != '#'
    ensures forall i, j :: 0 <= i < |SplitLines(s)| && 0 <= j < |SplitLines(s)[i]| ==> SplitLines(s)[i][j] != '#'
    decreases |s|
  {
    if s != [] {
      NoHashSurvivesSplit(s[1..]);
    }
  }

  /** One line of an HLS media playlist: a `#` line (tag or comment) or a segment URI. */
  datatype PlaylistLine = Comment(text: string) | Uri(text: string)

  /** A line the comment pattern handles line by line: no terminator inside, URIs non-empty and without `#`. */
  predicate WellFormedLine(l: PlaylistLine)
  {
    match l
    case Comment(t) => forall i :: 0 <= i < |t| ==> !IsLineTerminator(t[i])
    case Uri(t) => t != [] && forall i :: 0 <= i < |t| ==> t[i] != '#' && t[i] != '\n'
  }

  /** The playlist text: every line followed by a newline. */
  function Render(lines: seq<PlaylistLine>): string
    decreases |lines|
  {
    if lines == [] then []
    else
      var l := lines[0];
      (match l case Comment(t) => "#" + t case Uri(t) => t) + "\n" + Render(lines[1..])
  }

  /** The segment URIs of a playlist, in order. */
  function Uris(lines: seq<PlaylistLine>): (uris: seq<string>)
    ensures |uris| <= |lines|
    decreases |lines|
  {
    if lines == [] then []
    else if lines[0].Uri? then [lines[0].text] + Uris(lines[1..])
    else Uris(lines[1..])
  }

  /**
   * Link extraction recovers exactly the segment URIs, in order, from a
   * playlist whose every line ends in a line feed, whose comments hold no
   * line terminator (no carriage return) and whose URI lines are non-empty
   * and hold no `#`.
   */
  lemma PlaylistLinks(lines: seq<PlaylistLine>)
    requires forall i :: 0 <= i < |lines| ==> WellFormedLine(lines[i])
    ensures ExtractLinks(Render(lines)) == Uris(lines)
  {
    StripRendered(lines);
    UrisHaveNoNewline(lines);
    SplitUris(Uris(lines));
    var parts := Uris(lines) + [[]];
    assert parts[..|parts| - 1] == Uris(lines);
  }

  /**
   * Outside those playlists: a comment line ended by CRLF leaves its carriage
   * return behind as a link of its own, ahead of the links of the rest.
   */
  lemma CrlfCommentLeavesCr(t: string, rest: string)
    requires forall i :: 0 <= i < |t| ==> !IsLineTerminator(t[i])
    ensures ExtractLinks("#" + t + ("\r" + "\n" + rest)) == ["\r"] + ExtractLinks(rest)
  {
    CrlfCommentStripped(t, rest);
    LinksAfterCr(StripComments(rest));
  }

  /** Stripping a CRLF comment line keeps its CRLF in front of the stripped rest. */
  lemma CrlfCommentStripped(t: string, rest: string)
    requires forall i :: 0 <= i < |t| ==> !IsLineTerminator(t[i])
    ensures StripComments("#" + t + ("\r" + "\n" + rest)) == "\r" + "\n" + StripComments(rest)
  {
    CrlfStrip(t, "\r" + "\n" + rest);
    CrlfKept(rest);
  }

  /** The CRLF itself holds no `#` and stays in the text. */
  lemma CrlfKept(rest: string)
    ensures StripComments("\r" + "\n" + rest) == "\r" + "\n" + StripComments(rest)
  {
    KeepUri("\r" + "\n", rest);
  }

  /** Splitting a CRLF-led text gives a lone carriage return before the other lines. */
  lemma LinksAfterCr(s: string)
    ensures var parts := SplitLines("\r" + "\n" + s);
      parts[..|parts| - 1] == ["\r"] + SplitLines(s)[..|SplitLines(s)| - 1]
  {
    SplitLineFront("\r", s);
    var p := SplitLines(s);
    assert (["\r"] + p)[..|p|] == ["\r"] + p[..|p| - 1];
  }

  /** A comment line ended by a carriage return is removed up to that carriage return only. */
  lemma CrlfStrip(t: string, body: string)
    requires forall i :: 0 <= i < |t| ==> !IsLineTerminator(t[i])
    requires body != [] && body[0] == '\r'
    ensures StripComments("#" + t + body) == StripComments(body)
  {
    var line := "#" + t + body;
    assert line == ['#'] + (t + body);
    SkipLineToEnd(t, body);
    assert SkipNewlines(body) == body;
    StripHash(['#'] + (t + body));
  }

  /** Outside those playlists: a blank line becomes an empty link. */
  lemma BlankLineGivesEmptyLink(u: string, v: string)
    requires forall i :: 0 <= i < |u| ==> u[i] != '#' && u[i] != '\n'
    requires forall i :: 0 <= i < |v| ==> v[i] != '#' && v[i] != '\n'
    ensures ExtractLinks(u + "\n\n" + v + "\n") == [u, "", v]
  {
    var text := u + "\n" + ("" + "\n" + (v + "\n" + ""));
    assert u + "\n\n" + v + "\n" == text;
    KeepUri(text, []);
    assert text + [] == text;
    SplitLineFront(v, "");
    SplitLineFront("", v + "\n" + "");
    SplitLineFront(u, "" + "\n" + (v + "\n" + ""));
    assert SplitLines(text) == [u, "", v, ""];
  }

  lemma {:induction false} UrisHaveNoNewline(lines: seq<PlaylistLine>)
    requires forall i :: 0 <= i < |lines| ==> WellFormedLine(lines[i])
    ensures forall i, j :: 0 <= i < |Uris(lines)| && 0 <= j < |Uris(lines)[i]| ==> Uris(lines)[i][j] != '\n'
    decreases |lines|
  {
    if lines != [] {
      UrisHaveNoNewline(lines[1..]);
      assert WellFormedLine(lines[0]);
    }
  }

  /** The text of a list of URIs, each followed by a newline. */
  function UriText(uris: seq<string>): string
    decreases |uris|
  {
    if uris == [] then [] else uris[0] + "\n" + UriText(uris[1..])
  }

  lemma {:induction false} StripRendered(lines: seq<PlaylistLine>)
    requires forall i :: 0 <= i < |lines| ==> WellFormedLine(lines[i])
    ensures StripComments(Render(lines)) == UriText(Uris(lines))
    ensures Render(lines) == [] || Render(lines)[0] != '\n'
    decreases |lines|
  {
    if lines != [] {
      var rest := Render(lines[1..]);
      StripRendered(lines[1..]);
      if lines[0].Comment? {
        StripComment(lines[0].text, rest);
      } else {
        StripUriLine(lines[0].text, rest);
      }
    }
  }

  /** A `#` line vanishes together with its newline. */
  lemma StripComment(t: string, rest: string)
    requires forall i :: 0 <= i < |t| ==> !IsLineTerminator(t[i])
    requires rest == [] || rest[0] != '\n'
    ensures StripComments("#" + t + "\n" + rest) == StripComments(rest)
  {
    var nl := "\n" + rest;
    var line := "#" + t + "\n" + rest;
    assert line == ['#'] + (t + nl);
    SkipLineToEnd(t, nl);
    NewlineThenText(rest);
    StripHash(['#'] + (t + nl));
  }

  lemma StripHash(line: string)
    requires line != [] && line[0] == '#'
    ensures StripComments(line) == StripComments(SkipNewlines(SkipLine(line[1..])))
  {
  }

  lemma NewlineThenText(rest: string)
    requires rest == [] || rest[0] != '\n'
    ensures SkipNewlines("\n" + rest) == rest
  {
    assert ("\n" + rest)[1..] == rest;
  }

  /** A URI line is kept as it is, newline included. */
  lemma StripUriLine(t: string, rest: string)
    requires forall i :: 0 <= i < |t| ==> t[i] != '#'
    ensures StripComments(t + "\n" + rest) == t + "\n" + StripComments(rest)
  {
    var nl := "\n" + rest;
    KeepUri(t, nl);
    assert t + "\n" + rest == t + nl;
    assert nl[1..] == rest;
    assert StripComments(nl) == "\n" + StripComments(rest);
  }

  lemma {:induction false} SkipLineToEnd(t: string, rest: string)
    requires forall i :: 0 <= i < |t| ==> !IsLineTerminator(t[i])
    requires rest == [] || IsLineTerminator(rest[0])
    ensures SkipLine(t + rest) == rest
    decreases |t|
  {
    if t != [] {
      assert (t + rest)[1..] == t[1..] + rest;
      SkipLineToEnd(t[1..], rest);
    } else {
      assert t + rest == rest;
    }
  }

  lemma {:induction false} KeepUri(t: string, rest: string)
    requires forall i :: 0 <= i < |t| ==> t[i] != '#'
    ensures StripComments(t + rest) == t + StripComments(rest)
    decreases |t|
  {
    if t != [] {
      assert (t + rest)[1..] == t[1..] + rest;
      KeepUri(t[1..], rest);
    } else {
      assert t + rest == rest;
    }
  }

  lemma {:induction false} SplitUris(uris: seq<string>)
    requires forall i, j :: 0 <= i < |uris| && 0 <= j < |uris[i]| ==> uris[i][j] != '\n'
    ensures SplitLines(UriText(uris)) == uris + [[]]
    decreases |uris|
  {
    if uris != [] {
      SplitUris(uris[1..]);
      SplitLineFront(uris[0], UriText(uris[1..]));
    }
  }

  lemma {:induction false} SplitLineFront(u: string, rest: string)
    requires forall j :: 0 <= j < |u| ==> u[j] != '\n'
    ensures SplitLines(u + "\n" + rest) == [u] + SplitLines(rest)
    decreases |u|
  {
    if u == [] {
      assert u + "\n" + rest == "\n" + rest;
      assert ("\n" + rest)[1..] == rest;
    } else {
      assert (u + "\n" + rest)[1..] == u[1..] + "\n" + rest;
      SplitLineFront(u[1..], rest);
      assert [u[0]] + u[1..] == u;
    }
  }

  /** What getTrack asks of the network: each call either answers or fails (throws). */
  datatype Remote = Remote(
    trackMedia: string -> Option<seq<Transcoding>>,
    streamUrl: string -> Option<string>,
    text: string -> Option<string>,
    segment: string -> Option<seq<byte>>)

  /** The track endpoint queried for an id. */
  function TrackUrl(trackId: string, clientId: string): string
  {
    Api + "/tracks/" + trackId + "?client_id=" + clientId
  }

  /** Promise.all over the segment fetches: all segments in link order, or a failure. */
  function FetchAll(remote: Remote, links: seq<string>): (r: Option<seq<seq<byte>>>)
    ensures r.Some? <==> forall i :: 0 <= i < |links| ==> remote.segment(links[i]).Some?
    ensures r.Some? ==> |r.value| == |links|
    ensures r.Some? ==> forall i :: 0 <= i < |links| ==> r.value[i] == remote.segment(links[i]).value
    decreases |links|
  {
    if links == [] then Some([])
    else
      var head := remote.segment(links[0]);
      var tail := FetchAll(remote, links[1..]);
      if head.None? || tail.None? then
        assert tail.None? ==> exists i :: 1 <= i < |links| && remote.segment(links[i]).None? by {
          if tail.None? {
            var k :| 0 <= k < |links[1..]| && remote.segment(links[1..][k]).None?;
            assert remote.segment(links[k + 1]).None?;
          }
        }
        None
      else Some([head.value] + tail.value)
  }

  /** The segments getTrack downloads, or None when some step fails. */
  function TrackSegments(remote: Remote, trackId: string, clientId: string): Option<seq<seq<byte>>>
  {
    var media := remote.trackMedia(TrackUrl(trackId, clientId));
    if media.None? then None
    else
      var opus := FindOpus(media.value);
      if opus.None? then None
      else
        var stream := remote.streamUrl(media.value[opus.value].url + "?client_id=" + clientId);
        if stream.None? then None
        else
          var linkInfo := remote.text(stream.value);
          if linkInfo.None? then None
          else FetchAll(remote, ExtractLinks(linkInfo.value))
  }

  /**
   * getTrack: fetch the track, pick the Opus transcoding, fetch its stream
   * URL and playlist, fetch every segment, and join them. Any failure,
   * including a track without an Opus transcoding, yields an empty buffer.
   */
  method GetTrack(remote: Remote, trackId: string, clientId: string) returns (audio: seq<byte>)
    ensures TrackSegments(remote, trackId, clientId).None? ==> audio == []
    ensures TrackSegments(remote, trackId, clientId).Some? ==>
      audio == Concat(TrackSegments(remote, trackId, clientId).value) + Zeros(Padding)
  {
    var media := remote.trackMedia(TrackUrl(trackId, clientId));
    if media.None? {
      return [];
    }
    var opus := FindOpus(media.value);
    if opus.None? {
      return [];
    }
    var stream := remote.streamUrl(media.value[opus.value].url + "?client_id=" + clientId);
    if stream.None? {
      return [];
    }
    var linkInfo := remote.text(stream.value);
    if linkInfo.None? {
      return [];
    }
    var fragments := FetchAll(remote, ExtractLinks(linkInfo.value));
    if fragments.None? {
      return [];
    }
    audio := ToUint8Array(fragments.value);
  }

  /**
   * A successful download is never empty: it ends in the ten padding bytes
   * even when the playlist lists no segment. A track with no Opus
   * transcoding downloads nothing.
   */
  lemma TrackSegmentsOutcomes(remote: Remote, trackId: string, clientId: string)
    ensures var media := remote.trackMedia(TrackUrl(trackId, clientId));
      media.Some? && FindOpus(media.value).None? ==> TrackSegments(remote, trackId, clientId).None?
    ensures var segs := TrackSegments(remote, trackId, clientId);
      segs.Some? ==> |Concat(segs.value) + Zeros(Padding)| == TotalLength(segs.value) + Padding >= Padding
  {
    var segs := TrackSegments(remote, trackId, clientId);
    if segs.Some? {
      ConcatLength(segs.value);
    }
  }
}
