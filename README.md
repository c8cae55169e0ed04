# Discord SoundCloud voice bot — Dafny model

This project models the core of a Discord bot that streams SoundCloud tracks
into a voice channel. The core has six parts, each a Dafny module:

- **`Udp`** (`udp_sender.dfy`, from udpSender.ts) builds the voice transport
  packet:
  - `nToArr` turns a number into four big-endian bytes.
  - The packet is a 12-byte RTP fixed header (section 5.1 of RFC 3550), then
    the secretbox ciphertext of one Opus frame, then the 4-byte nonce counter
    in plaintext, as Discord's `xsalsa20_poly1305_lite` mode requires.
  - A structural parser, `ParsePacket`, is the inverse of packet building.
- **`Pcm`** (`player.dfy`, from player.ts) is the frame producer:
  - `writeTo` feeds the compressed track to the decoder's stdin in slices of at
    most 24 KiB.
  - The `oggPlayer` generator, modelled as the `OggPlayer` class, cuts the
    decoded PCM into `frameSize * 4`-byte fragments and encodes each one.
    Decoding, encoding and the writer are abstract.
- **`Playback`** (`soundcloud_player.dfy`, from soundcloudPlayer.ts) is the
  scheduler: a FIFO queue of track ids, the `playing` guard, `skip`, and the
  per-track loop. Each 20 ms tick of that loop sends one packet and advances
  the `sequence`, `nonce` and `timestamp` counters. The class methods are
  proved against the specification functions `PlayQueue`, `TrackPackets` and
  `AfterTrack`.
- **`PlaybackProperties`** (`playback_properties.dfy`) proves what those
  functions promise:
  - per-track counters and the nonces they put on the wire;
  - skip as a cut of the track;
  - FIFO order;
  - an empty id ends `play()`.
- **`VoiceSignaling`** (`voice_gateway.dfy`, from voiceGateway.ts) is the
  voice gateway handshake:
  - Hello is answered with Identify the first time and with Resume afterwards.
  - Ready is answered with Select Protocol and then Speaking.
  - Session Description stores the SSRC and the key.
  - `udpConnection` is derived from the stored state.
  - On close, the heartbeat timer stops and a new socket opens; nothing else
    is reset.
- **`MainGateway`** (`bot.dfy`, from bot.ts) is the main gateway client:
  - the intents bitmask;
  - routing of ops 10, 11 and 0;
  - the handler registry;
  - the voice props record it shares with each voice gateway;
  - `joinVoice`.
- **`Soundcloud`** (`soundcloud.dfy`, from soundcloud.ts) assembles a track:
  - `toUint8Array` joins the fetched segments into a zero-filled buffer
    10 bytes longer than the segments.
  - HLS playlist link extraction.
  - Choice of the `opus_0_0` transcoding.
  - The `getTrack` pipeline, where any failure gives an empty buffer.

Collaborators that cannot be seen are parameters:
- libsodium's `crypto_secretbox_easy` (`Secretbox`);
- `opusdec` (`Decoder`);
- the Opus encoder (`Encoder`);
- the track resolver used by `play` (`Resolver`);
- the HTTP endpoints (`Remote`).

What is sent is recorded rather than performed: UDP datagrams go in `wire`,
gateway payloads in `sent`, REST messages in `notices`, and handler calls in
`invoked`.

Where the code departs from what the voice protocol expects, the model
follows the code:
- **Per-track counters.** `playTrack` resets `sequence`, `nonce` and
  `timestamp` to 0 for every track (soundcloudPlayer.ts:49-54).
  xsalsa20_poly1305 must never reuse a nonce under one key; as written, every
  track reuses nonces 0, 1, 2, … under the same key
  (`PlaybackProperties.NonceReuseAcrossTracks`).
- **Ready.** Ready stores only the ip and port (voiceGateway.ts:82-83). The
  SSRC comes from Session Description (voiceGateway.ts:91), so Speaking
  carries whatever SSRC was stored before.
- **Voice reconnect.** Reconnecting the voice gateway resets neither the
  counters nor the key (voiceGateway.ts:178-181).
- **Main gateway.** It tracks no dispatch sequence and never resumes. Its
  close handler only logs (bot.ts:115-117).
- **Voice state owner.** Every VOICE_STATE_UPDATE stores its `user_id` and
  `session_id` (bot.ts:168-170), whoever's state it is. The props can then
  pair the server's token with another user's session
  (`MainGateway.BothUpdatesFillProps` holds for whichever update came last).
- **Empty track id.** An empty track id ends `play()` just as an empty queue
  does (soundcloudPlayer.ts:98-99). Both end through the `catch`, which clears
  `_playing`.

## Model

| member | source | states |
|---|---|---|
| `Udp.JsRem256` | udpSender.ts:9 | JavaScript `%` by 256: the remainder has the dividend's sign, lies within (-256, 256) and is congruent to it modulo 256 |
| `Udp.Digits` | udpSender.ts:8-11 | the digit loop produces exactly `k` entries, each a byte when the number is non-negative |
| `Udp.NToArr` | udpSender.ts:5-14 | the in-place loop over a 4-element array returns exactly the digits `NumBytes(num)`, most significant first |
| `Udp.NumBytesOfNatural` | udpSender.ts:8-11 | for `num >= 0`, the four entries are `num` divided by 2^24, 2^16, 2^8 and 1, each modulo 256 |
| `Udp.NumBytesRoundTrip` | udpSender.ts:5-14 | for `num >= 0` every entry is a byte and the big-endian value of the four entries is `num mod 2^32` |
| `Udp.FromBigEndianRoundTrip` | udpSender.ts:5-14 | any four bytes are `nToArr` of their big-endian value, which is below 2^32 (the inverse direction) |
| `Udp.DigitsOfBigEndian` | udpSender.ts:5-14 | for any byte string, the loop's digits of its big-endian value, as many as there are bytes, give the string back |
| `Udp.LowDigits` | udpSender.ts:5-14 | the low two and low four digits the loop writes spell the number modulo 2^16 and modulo 2^32 |
| `Udp.NumBytesTruncates` | udpSender.ts:8-11 | bits above 2^32 are dropped: `nToArr(num) == nToArr(num mod 2^32)` |
| `Udp.RtpHeaderLayout` | udpSender.ts:26-31 | the header is 12 bytes: 0x80, 0x78, the low 16 bits of the sequence big-endian, then the timestamp's and SSRC's four bytes |
| `Udp.NonceLayout` | udpSender.ts:33-36 | the nonce is 24 bytes: `nToArr(nonce)` followed by 20 zero bytes |
| `Udp.PacketLayout` | udpSender.ts:40-44 | the packet is header, then ciphertext, then the nonce counter; its length is 12 + ciphertext + 4; the last 4 bytes equal the nonce's first 4 |
| `Udp.PacketHeaderFieldsStayInHeader` | udpSender.ts:38-44 | the ciphertext depends only on chunk, nonce and key; packets that differ only in sequence, timestamp or SSRC differ only in bytes 2-11 |
| `Udp.PacketRoundTrip` | udpSender.ts:25-45 | parsing a packet gives back sequence mod 2^16, timestamp and SSRC mod 2^32, the ciphertext and the 24-byte nonce |
| `Pcm.Sink.Write` | player.ts:44 | the writer takes a prefix of the offered slice, non-empty when the slice is, and logs the call |
| `Pcm.WriteTo` | player.ts:38-52 | every call is offered the slice at the running offset, at most 24 KiB long; the offset advances by what was accepted; the writer receives exactly `p` and is closed; the result is `p.length` |
| `Pcm.Fragments` | player.ts:74-96 | every fragment read from the PCM stream is non-empty and at most `frameSize*4` bytes |
| `Pcm.FragmentsConcat` | player.ts:77-97 | the fragments put back together are the whole PCM stream: nothing is skipped, repeated or padded |
| `Pcm.FragmentsFull` | player.ts:79-85 | every fragment except the last is a full `frameSize*4` read |
| `Pcm.PlayerInput.constructor` | player.ts:28-36 | the player input starts with the given format and `play` flag, empty audio, no track info and timestamp 0 |
| `Pcm.OggPlayer.constructor` | player.ts:54-75 | the whole track is written to the decoder; reading starts at the beginning of the decoded stream with `frameSize*4`-byte fragments |
| `Pcm.OggPlayer.Next` | player.ts:77-99 | while `play` holds and bytes remain, the next fragment is encoded and yielded; a short fragment ends the loop after its yield; EOF or a cleared `play` returns without yielding; once done it stays done |
| `Pcm.PlayedCountsYieldedBytes` | player.ts:75-108 | `played` is the total byte length of the fragments yielded, and the return value is that count modulo 256 |
| `Soundcloud.ConcatLength` | soundcloud.ts:11 | the reduce over byte lengths equals the length of the segments joined |
| `Soundcloud.ToUint8Array` | soundcloud.ts:10-21 | the zero-filled buffer, filled at running offsets, is the segments in order followed by 10 zero bytes; its length is their total plus 10 |
| `Soundcloud.CopyIn` | soundcloud.ts:16 | `set` writes the segment at the offset: the bytes before the offset are kept, the next bytes are the segment, and the bytes after it are unchanged |
| `Soundcloud.FindOpus` | soundcloud.ts:28 | the index found is the first entry whose preset is `opus_0_0`; none found means no entry has it |
| `Soundcloud.SkipLine` | soundcloud.ts:36 | `.*` consumes exactly the characters before the first line terminator, all of them, and stops there or at the end |
| `Soundcloud.SkipNewlines` | soundcloud.ts:36 | `\n*` consumes only newlines, all of the leading ones, and stops before the first other character or at the end |
| `Soundcloud.StripComments` | soundcloud.ts:36 | after the replace, no `#` remains in the text |
| `Soundcloud.SplitLines` | soundcloud.ts:36 | split on newline gives at least one piece, and no piece contains a newline |
| `Soundcloud.SplitJoin` | soundcloud.ts:36 | split loses nothing: joining the pieces with newlines gives back the text |
| `Soundcloud.ExtractLinks` | soundcloud.ts:36-37 | no extracted link contains `#` or a newline |
| `Soundcloud.PlaylistLinks` | soundcloud.ts:36-37 | for an LF-only playlist with no blank line, no `#` inside a URI line and no line terminator (carriage return included) inside a comment, the extracted links are exactly its URI lines, in order; the comment lines vanish |
| `Soundcloud.CrlfCommentLeavesCr` | soundcloud.ts:36-37 | a comment line ended by CRLF (any comment text without line terminators, any text after it) leaves its carriage return behind: the links are a lone `"\r"` followed by the links of the text after the comment line |
| `Soundcloud.BlankLineGivesEmptyLink` | soundcloud.ts:36-37 | for any two URI lines `u` and `v` (no `#`, no newline) with a blank line between them, the links are `u`, the empty string and `v` |
| `Soundcloud.FetchAll` | soundcloud.ts:39-41 | `Promise.all` over the links succeeds exactly when every fetch does, with the segments in link order |
| `Soundcloud.GetTrack` | soundcloud.ts:23-49 | a failed fetch, a missing Opus transcoding or a failed segment gives an empty buffer; otherwise the segments joined plus 10 zero bytes |
| `Soundcloud.TrackSegmentsOutcomes` | soundcloud.ts:28-48 | a track without an Opus transcoding gives nothing; a successful download is never shorter than the 10 padding bytes |
| `Playback.TickPacketsAt` | soundcloudPlayer.ts:67-78 | the k-th packet of a run of ticks carries sequence and nonce advanced by k and the timestamp advanced by k frames |
| `Playback.TickPacketsSnoc` | soundcloudPlayer.ts:67-78 | one more tick appends exactly one packet, with counters advanced by the ticks before it |
| `Playback.TrackWireSnoc` | soundcloudPlayer.ts:59-79 | one more tick of a track appends the datagram of the next frame, stamped with sequence n, nonce n and timestamp n*960 |
| `Playback.PlayQueueCons` | soundcloudPlayer.ts:95-104 | an id taken from the queue is passed over when it does not resolve, and otherwise its datagrams come before those of the rest of the queue |
| `Playback.SoundcloudPlayer.constructor` | soundcloudPlayer.ts:34-41 | settings are stored; the queue is empty, not playing; the player input holds the default 48 kHz stereo format with frames of 960 and `play` true |
| `Playback.SoundcloudPlayer.Enqueue` | soundcloudPlayer.ts:43-45 | the id goes to the back of the queue and nothing else changes |
| `Playback.SoundcloudPlayer.Skip` | soundcloudPlayer.ts:83-85 | only `play` on the player input is cleared; the queue and `playing` are untouched |
| `Playback.SoundcloudPlayer.OnTick` | soundcloudPlayer.ts:59-79 | one tick either ends the track or sends the next frame stamped with the current counters and advances the timestamp by one frame |
| `Playback.SoundcloudPlayer.PlayTick` | soundcloudPlayer.ts:59-79 | one tick, after a skip() that is due: either the track ends having sent exactly `SentCount` frames, with `play` cleared exactly when the skip was seen, or the wire grows by the packet of the next frame and the counters advance |
| `Playback.TrackEnds` | soundcloudPlayer.ts:59-79 | a loop that stops at a tick, by a due skip or with every frame sent, has sent `SentCount` frames, and the skip counts as seen exactly when it was due at that tick |
| `Playback.SoundcloudPlayer.PlayTrack` | soundcloudPlayer.ts:47-81 | the datagrams sent for a track are exactly `TrackPackets` (counters from 0) and the player input ends at the track's progress |
| `Playback.SoundcloudPlayer.PlayId` | soundcloudPlayer.ts:101-104 | a resolved id is played, and an unresolved one sends nothing; what is sent plus the rest of the queue's work equals the queue's work with the id in front |
| `Playback.SoundcloudPlayer.TakeNext` | soundcloudPlayer.ts:95-104 | one turn of the loop: shift, then stop on a missing or empty id, otherwise play it, keeping the remaining work invariant |
| `Playback.SoundcloudPlayer.Play` | soundcloudPlayer.ts:87-110 | while playing, nothing changes; otherwise it posts the notice, sends exactly `PlayQueue` of the old queue, leaves the ids after the first empty one and ends not playing |
| `PlaybackProperties.TickPacketsPrefix` | soundcloudPlayer.ts:67-78 | the first n ticks send the first n packets of the whole run |
| `PlaybackProperties.TrackPacketsCounters` | soundcloudPlayer.ts:49-78 | a track sends one packet per frame up to the skip; the k-th has the k-th frame's encoding, sequence k, nonce k, timestamp k*960, the session key and SSRC |
| `PlaybackProperties.TrackNoncesDistinct` | soundcloudPlayer.ts:50-78 | no nonce value repeats within one track |
| `PlaybackProperties.NonceReuseAcrossTracks` | soundcloudPlayer.ts:49-55 | the first packet of every track uses nonce 0 under the same key |
| `PlaybackProperties.TrackDatagramParses` | soundcloudPlayer.ts:67-74 | the k-th datagram of a track parses to sequence k mod 2^16, timestamp k*960 mod 2^32, the SSRC, the sealed frame and nonce k |
| `PlaybackProperties.SkipTruncates` | soundcloudPlayer.ts:83-85 | a skip before tick k cuts the track to its first k packets; a skip after the last frame changes nothing |
| `PlaybackProperties.PlayQueueAppend` | soundcloudPlayer.ts:95-104 | FIFO: for `ids1 ++ ids2` with no empty id in `ids1`, all of `ids1` is sent before `ids2`, and `ids2` starts from `ids1`'s progress |
| `PlaybackProperties.StopsAtEmptyId` | soundcloudPlayer.ts:96-99 | nothing after the first empty id is sent, and the queue keeps exactly the ids after it |
| `PlaybackProperties.QueueAfterPlayAppend` | soundcloudPlayer.ts:96-99 | ids before the first empty one are all consumed |
| `PlaybackProperties.QueueAfterPlayDrains` | soundcloudPlayer.ts:95-99 | without an empty id, `play` empties the queue |
| `PlaybackProperties.UnresolvedSendNothing` | soundcloudPlayer.ts:101-102 | ids without metadata send nothing and leave the progress as it was |
| `PlaybackProperties.SingleTrack` | soundcloudPlayer.ts:101-104 | a one-track queue sends exactly that track's datagrams and ends at its progress |
| `PlaybackProperties.FailedThenPlayed` | soundcloudPlayer.ts:101-104 | with `[T1, T2]`, where T1 fails to resolve, T1 is passed over silently and T2 is played to its end |
| `VoiceSignaling.OpOf` | voiceGateway.ts:9-14 | Identify is op 0 and Resume is op 7, and only those payloads carry them |
| `VoiceSignaling.Connection` | voiceGateway.ts:46-54 | `udpConnection` is defined exactly when the key is set and hostname, port and SSRC are truthy, and then carries those four values |
| `VoiceSignaling.VoiceGatewayProps.constructor` | voiceGateway.ts:16-22 | the props record holds the five given fields |
| `VoiceSignaling.VoiceGateway.constructor` | voiceGateway.ts:56-64 | one socket is opened to `wss://` plus the address; nothing is learned or sent yet |
| `VoiceSignaling.VoiceGateway.UdpConnectionNow` | voiceGateway.ts:46-54 | the getter is defined exactly when the key is set and hostname, port and SSRC are truthy on the object, and then carries those four values |
| `VoiceSignaling.VoiceGateway.OnMessage` | voiceGateway.ts:66-97 | the new state, the payloads sent on the current socket and the timer started are exactly `Respond` of the old state and the current props |
| `VoiceSignaling.VoiceGateway.StartHeartbeat` | voiceGateway.ts:149-158 | a new running timer is added and its handle overwrites the previous one |
| `VoiceSignaling.VoiceGateway.Beat` | voiceGateway.ts:155-157 | a running timer sends Heartbeat on the current socket; a stopped one sends nothing |
| `VoiceSignaling.VoiceGateway.OnClose` | voiceGateway.ts:178-181 | only the timer whose handle is kept stops; a new socket opens to the current address; the learned state is kept |
| `VoiceSignaling.CountOpAppend` | voiceGateway.ts:107-172 | payload counts by opcode add up over concatenation |
| `VoiceSignaling.HelloGreets` | voiceGateway.ts:70-79 | Hello sends exactly one greeting (Identify if not connected, else Resume without the user id), starts a timer and sets `connected` |
| `VoiceSignaling.IdentifyOnlyOnce` | voiceGateway.ts:70-79 | from a fresh gateway, any run of messages is connected iff it held a Hello, sends Identify once for the first Hello and Resume for every later one |
| `VoiceSignaling.NonHelloSendsNoGreeting` | voiceGateway.ts:80-95 | only Hello greets, starts a timer or changes `connected` |
| `VoiceSignaling.ReadySelectsThenSpeaks` | voiceGateway.ts:80-88 | Ready stores ip and port, then sends Select Protocol (udp, that endpoint, `xsalsa20_poly1305_lite`) followed by Speaking(1, 0, stored SSRC) |
| `VoiceSignaling.SessionStoresKey` | voiceGateway.ts:89-93 | Session Description stores `encodings[0].ssrc` and the key as bytes, sends nothing and keeps the endpoint; without encodings nothing changes |
| `VoiceSignaling.OtherOpcodesIgnored` | voiceGateway.ts:94-95 | any other opcode, HeartbeatACK included, changes nothing and sends nothing |
| `VoiceSignaling.HandshakeYieldsConnection` | voiceGateway.ts:46-93 | after Ready and Session Description with a truthy endpoint and SSRC, in either order, the UDP connection carries exactly those values |
| `MainGateway.Shift` | bot.ts:23-39 | every intent's bit position is below 15 |
| `MainGateway.IntentsAreDistinctBits` | bot.ts:23-39 | every intent is a single bit and two different intents share none |
| `MainGateway.SingleBit` | bot.ts:23-39 | `1 << n` for n below 15 is a non-zero power of two |
| `MainGateway.IdentifyIntentsValue` | bot.ts:77-88 | the Identify intents, GUILDS, GUILD_VOICE_STATES and GUILD_MESSAGES or-ed together, are 641 |
| `MainGateway.OpOf` | bot.ts:66-145 | Heartbeat is op 1, Identify op 2 and the voice state update op 4 |
| `MainGateway.PropsAfterFields` | bot.ts:168-179 | VOICE_STATE_UPDATE writes only user and session ids; VOICE_SERVER_UPDATE only token, server id and address; nothing else writes the props |
| `MainGateway.BothUpdatesFillProps` | bot.ts:168-177 | once both voice updates have arrived, in either order, the props hold all five values |
| `MainGateway.Bot.constructor` | bot.ts:41-64 | the bot starts with empty props, no handler, no voice gateway and nothing sent |
| `MainGateway.Bot.OnMessage` | bot.ts:94-113 | op 10 starts a heartbeat timer and then sends Identify with intents 641 and the fixed client properties; op 0 calls the registered message handler on MESSAGE_CREATE, writes the props on the voice updates and, on VOICE_SERVER_UPDATE, opens a fresh voice gateway at `"wss://" + endpoint` in its initial session, leaving the voice gateway alone otherwise; op 11 and other ops change nothing |
| `MainGateway.Bot.HandleDispatch` | bot.ts:147-181 | MESSAGE_CREATE calls the registered message handler, if any; the voice updates write the props; VOICE_SERVER_UPDATE creates a fresh voice gateway on the same props object |
| `MainGateway.Bot.Beat` | bot.ts:66-75 | a started heartbeat timer firing sends one Heartbeat payload (op 1) |
| `MainGateway.Bot.Handle` | bot.ts:183-185 | registering replaces any earlier handler for the action |
| `MainGateway.Bot.JoinVoice` | bot.ts:133-145 | sends op 4 for the guild and channel with `self_mute` and `self_deaf` false |

## Left out

- The `UdpSocket` class (udpSender.ts:47-66), the websockets, `fetch`, and
  `Deno.run("opusdec")` are I/O. Datagrams, payloads and messages are
  appended to logs. The decoder's output is `decode(audio)` of the whole
  written track.
- `crypto_secretbox_easy`, the Opus encoder and `getTrack` as `play`
  consumes it are uninterpreted function parameters. XSalsa20-Poly1305 and
  Opus are not modelled.
- The 20 ms `setInterval` of `playTrack` and the heartbeat intervals are
  timing. One tick is one loop iteration, finished before the next begins. A
  heartbeat timer's period is recorded, and its firings are `Beat` calls on
  the voice gateway and on the bot.
- `Playback.SoundcloudPlayer.Play`: the run is sequential. `enqueue()` and a
  second `play()` call that arrive while `play()` awaits `getTrack` or
  `playTrack` (soundcloudPlayer.ts:43-45, 88, 101, 104) are not modelled. In
  the source, ids enqueued mid-run are played by that same run, and the
  early return on `_playing` is reached only this way. `PlayQueue` and
  `QueueAfterPlay` describe a queue that nobody changes during the run.
- `PlaybackProperties.TrackNoncesDistinct` and
  `PlaybackProperties.TrackPacketsCounters` assume each tick finishes before
  the next starts. The source's interval callback is `async` and
  `setInterval` does not wait for it (soundcloudPlayer.ts:59-79). The
  counters are read after `await player.next()` (lines 60, 69-70) and
  advanced only after `await this.socket.send` (lines 74-78). Callbacks that
  overlap, for instance while the first `next()` awaits `Opus.load()`
  (player.ts:70), can stamp two frames of one track with the same sequence
  number and nonce. The model does not capture that.
- `Playback.SoundcloudPlayer.Play`: `skip()` interleaving is a parameter,
  `skipPlan(i)`, the tick of the i-th taken track before which `skip()` runs.
  A `skip()` between two tracks is overwritten when `playTrack` sets `play`
  back to true, so it is not offered.
- `Pcm.WriteTo` runs to completion before decoding. In the source the writer
  runs alongside the reads, unawaited.
- `Pcm.WriteTo` assumes the writer always takes something of a non-empty
  slice. A writer that returns 0 forever would make the source loop
  forever.
- `Pcm.OggPlayer.Next` never sees a read error other than
  `PartialReadError`. The source swallows such an error and reads again
  (player.ts:87-98). An empty partial read cannot arise from a fixed byte
  stream.
- `encoder.delete()`, `decoder.kill(9)` and `console.log` release resources
  or only print.
- JavaScript numbers are doubles, while the model's integers are unbounded.
  Values beyond 2^53 are not modelled.
- `Udp.RtpHeaderLayout`, `Udp.NonceLayout` and `Udp.PacketRoundTrip` are
  stated only for non-negative counters and SSRC; the scheduler only
  produces those. `Udp.JsRem256` and `Udp.Digits` cover negative values too.
- `VoiceSignaling.VoiceGateway.OnMessage` takes decoded messages. JSON
  parsing and payloads with missing fields are left out, apart from an empty
  `encodings` list, which makes the source throw before any assignment. A
  non-numeric port (`NaN`) is left out.
- The voice gateway's unused fields `sequence`, `timestamp`, `nonce` and
  `socket` (voiceGateway.ts:34-40) and `onStart` have no effect.
- `Soundcloud.PlaylistLinks` covers LF-only playlists without blank lines.
  On a CRLF playlist every comment line leaves a `"\r"` link ahead of the
  links after it (`Soundcloud.CrlfCommentLeavesCr`), and a URI line keeps
  its trailing `\r` since only `\n` splits lines; a blank line
  gives an empty link (`Soundcloud.BlankLineGivesEmptyLink`). In the source
  the fetch of such a link fails, and `getTrack` then returns an empty buffer.
- A VOICE_SERVER_UPDATE replaces the bot's voice gateway (bot.ts:177) without
  closing the previous one. In the source its socket stays open, its
  heartbeat keeps firing and its close handler keeps reconnecting it. The
  model leaves the old object as it was, still sharing the props. The bot
  keeps no reference to it, so that object's later heartbeats and reconnects
  are not part of the bot's state.
- The main gateway has no sequence tracking, resume or reconnect
  (bot.ts:66-75, 115-117), so the model has none either. `sendMessage`
  (bot.ts:119-131) and the handlers' effects are REST calls and user code.
  Only the call and its `MessageInfo` are recorded.
- api.ts, interfaces.ts and app.ts are REST wrappers, type declarations and
  bootstrap. app.ts calls `getUserVoiceChannel` and `guild_id`, which do not
  exist on the bot, so there is no guild voice state to model.
- The mismatch between soundcloudPlayer.ts:101, which destructures
  `[trackInfo, audio]`, and soundcloud.ts:23, which returns one buffer, is
  bridged by the abstract `Resolver`.
