/**
 * The voice transport packet: an RTP fixed header (section 5.1 of RFC 3550),
 * the secretbox ciphertext of one Opus frame, and the 4-byte nonce trailer of
 * the "xsalsa20_poly1305_lite" encryption mode (udpSender.ts).
 */
module Udp {

  import opened Wrappers

  /** One element of a `Uint8Array`. */
  type byte = x: int | 0 <= x < 256

  const TwoTo16: int := 0x1_0000
  const TwoTo32: int := 0x1_0000_0000

  /** JavaScript's `a % 256` on an integer: the remainder takes the sign of the dividend. */
  function JsRem256(a: int): (r: int)
    ensures a >= 0 ==> 0 <= r < 256
    ensures a < 0 ==> -256 < r <= 0
    ensures (a - r) % 256 == 0
  {
    if a >= 0 then a % 256 else -((-a) % 256)
  }

  /**
   * The `k` digits the loop of nToArr writes, most significant first:
   * each step stores `num % 256` at the current end and continues with
   * `Math.floor(num / 256)` (Dafny's `/` by a positive divisor is the floor).
   */
  function Digits(num: int, k: nat): (r: seq<int>)
    ensures |r| == k
    ensures num >= 0 ==> forall i :: 0 <= i < k ==> 0 <= r[i] < 256
    decreases k
  {
    if k == 0 then [] else Digits(num / 256, k - 1) + [JsRem256(num)]
  }

  /** The value of nToArr(num). */
  function NumBytes(num: int): seq<int>
  {
    Digits(num, 4)
  }

  /** nToArr: fill a 4-element array from the last entry to the first. */
  method NToArr(num: int) returns (bytes: seq<int>)
    ensures bytes == NumBytes(num)
  {
    var byteArray := new int[4](_ => 0);
    var n := num;
    var i := 3;
    while i >= 0
      invariant -1 <= i <= 3
      invariant Digits(n, i + 1) + byteArray[i + 1..] == Digits(num, 4)
    {
      byteArray[i] := JsRem256(n);
      n := n / 256;
      i := i - 1;
    }
    bytes := byteArray[..];
  }

  /** The big-endian value of a byte string. */
  function FromBigEndian(s: seq<int>): int
  {
    if s == [] then 0 else FromBigEndian(s[..|s| - 1]) * 256 + s[|s| - 1]
  }

  /** `Uint8Array.from`: every number is reduced modulo 2^8 (ToUint8). */
  function Uint8From(xs: seq<int>): (r: seq<byte>)
    ensures |r| == |xs|
  {
    seq(|xs|, i requires 0 <= i < |xs| => xs[i] % 256)
  }

  function Zeros(n: nat): (r: seq<byte>)
    ensures |r| == n && forall i :: 0 <= i < n ==> r[i] == 0
  {
    seq(n, _ => 0)
  }

  const VersionByte: byte := 0x80
  const PayloadTypeByte: byte := 0x78

  /** The 12-byte RTP header: version 2, payload type 0x78, sequence, timestamp, SSRC. */
  function RtpHeader(sequence: int, timestamp: int, ssrc: int): seq<byte>
  {
    var s := NumBytes(sequence);
    Uint8From([VersionByte, PayloadTypeByte, s[2], s[3]] + NumBytes(timestamp) + NumBytes(ssrc))
  }

  /** The 24-byte secretbox nonce: the 4-byte counter followed by 20 zero bytes. */
  function Nonce(nonce: int): seq<byte>
  {
    Uint8From(NumBytes(nonce) + Zeros(20))
  }

  /** What the source hands to preparePacket. */
  datatype PacketInfo = PacketInfo(
    chunk: seq<byte>, secretKey: seq<byte>,
    ssrc: int, timestamp: int, sequence: int, nonce: int)

  /** libsodium's crypto_secretbox_easy(message, nonce, key), left uninterpreted. */
  type Secretbox = (seq<byte>, seq<byte>, seq<byte>) -> seq<byte>

  function Ciphertext(info: PacketInfo, secretbox: Secretbox): seq<byte>
  {
    secretbox(info.chunk, Nonce(info.nonce), info.secretKey)
  }

  /** preparePacket: header, then the ciphertext, then the plaintext nonce counter. */
  function PreparePacket(info: PacketInfo, secretbox: Secretbox): seq<byte>
  {
    Uint8From(RtpHeader(info.sequence, info.timestamp, info.ssrc)
              + Ciphertext(info, secretbox) + NumBytes(info.nonce))
  }

  /** For a non-negative number, nToArr yields its four low base-256 digits, most significant first. */
  lemma NumBytesOfNatural(num: int)
    requires num >= 0
    ensures NumBytes(num) == [num / 0x100_0000 % 256, num / 0x1_0000 % 256, num / 256 % 256, num % 256]
  {
    var n1 := num / 256;
    var n2 := n1 / 256;
    var n3 := n2 / 256;
    assert n2 == num / 0x1_0000;
    assert n3 == num / 0x100_0000;
    assert Digits(num, 4) == Digits(n1, 3) + [num % 256];
    assert Digits(n1, 3) == Digits(n2, 2) + [n1 % 256];
    assert Digits(n2, 2) == Digits(n3, 1) + [n2 % 256];
    assert Digits(n3, 1) == [n3 % 256];
  }

  /** The low two and the low four base-256 digits of `num` spell `num` modulo 2^16 and 2^32. */
  lemma LowDigits(num: int)
    requires num >= 0
    ensures (num / 256 % 256) * 256 + num % 256 == num % TwoTo16
    ensures (((num / 0x100_0000 % 256) * 256 + num / 0x1_0000 % 256) * 256 + num / 256 % 256) * 256 + num % 256
            == num % TwoTo32
  {
    var q1 := num / 256;
    var q2 := q1 / 256;
    var q3 := q2 / 256;
    var q4 := q3 / 256;
    assert q2 == num / 0x1_0000;
    assert q3 == num / 0x100_0000;
    var r0, r1, r2, r3 := num % 256, q1 % 256, q2 % 256, q3 % 256;
    assert num == q1 * 256 + r0;
    assert q1 == q2 * 256 + r1;
    assert q2 == q3 * 256 + r2;
    assert q3 == q4 * 256 + r3;
    var lo16 := r1 * 256 + r0;
    assert num == q2 * TwoTo16 + lo16 && 0 <= lo16 < TwoTo16;
    var lo32 := ((r3 * 256 + r2) * 256 + r1) * 256 + r0;
    assert num == q4 * TwoTo32 + lo32 && 0 <= lo32 < TwoTo32;
  }

  lemma FromBigEndianOfFour(s: seq<int>)
    requires |s| == 4
    ensures FromBigEndian(s) == ((s[0] * 256 + s[1]) * 256 + s[2]) * 256 + s[3]
  {
    assert FromBigEndian(s) == FromBigEndian(s[..3]) * 256 + s[3];
    assert FromBigEndian(s[..3]) == FromBigEndian(s[..2]) * 256 + s[2] by { assert s[..3][..2] == s[..2]; }
    assert FromBigEndian(s[..2]) == FromBigEndian(s[..1]) * 256 + s[1] by { assert s[..2][..1] == s[..1]; }
    assert FromBigEndian(s[..1]) == s[0] by { assert s[..1][..0] == []; }
  }

  /** The four entries are bytes, and reading them back big-endian gives `num` modulo 2^32. */
  lemma NumBytesRoundTrip(num: int)
    requires num >= 0
    ensures forall i :: 0 <= i < 4 ==> 0 <= NumBytes(num)[i] < 256
    ensures FromBigEndian(NumBytes(num)) == num % TwoTo32
  {
    NumBytesOfNatural(num);
    LowDigits(num);
    var b := NumBytes(num);
    FromBigEndianOfFour(b);
  }

  /** Four bytes read big-endian and written back by nToArr come out unchanged. */
  lemma FromBigEndianRoundTrip(s: seq<int>)
    requires |s| == 4 && forall i :: 0 <= i < 4 ==> 0 <= s[i] < 256
    ensures 0 <= FromBigEndian(s) < TwoTo32
    ensures NumBytes(FromBigEndian(s)) == s
  {
    var b0, b1, b2, b3 := s[0], s[1], s[2], s[3];
    assert 0 <= b0 < 256 && 0 <= b1 < 256 && 0 <= b2 < 256 && 0 <= b3 < 256;
    var v1 := b0 * 256 + b1;
    var v2 := v1 * 256 + b2;
    var v := v2 * 256 + b3;
    assert 0 <= v1 < 0x1_0000;
    assert 0 <= v2 < 0x100_0000;
    assert 0 <= v < TwoTo32;
    FromBigEndianOfFour(s);
    assert FromBigEndian(s) == v;
    DigitsOfBigEndian(s);
  }

  /** Reading a byte string big-endian and taking as many digits back gives the string. */
  lemma {:induction false} DigitsOfBigEndian(s: seq<int>)
    requires forall i :: 0 <= i < |s| ==> 0 <= s[i] < 256
    ensures FromBigEndian(s) >= 0
    ensures Digits(FromBigEndian(s), |s|) == s
  {
    if s != [] {
      var init, last := s[..|s| - 1], s[|s| - 1];
      DigitsOfBigEndian(init);
      assert FromBigEndian(s) == FromBigEndian(init) * 256 + last;
      DigitsSnoc(init, last, FromBigEndian(init));
      assert s == init + [last];
    }
  }

  lemma DigitsSnoc(init: seq<int>, last: int, v: int)
    requires v >= 0 && 0 <= last < 256 && Digits(v, |init|) == init
    ensures Digits(v * 256 + last, |init| + 1) == init + [last]
  {
    DigitStep(v, last, |init|);
  }

  /** Appending a low digit to a non-negative number appends it to the digits. */
  lemma DigitStep(hi: int, lo: int, k: nat)
    requires hi >= 0 && 0 <= lo < 256
    ensures Digits(hi * 256 + lo, k + 1) == Digits(hi, k) + [lo]
  {
    var v := hi * 256 + lo;
    assert v / 256 == hi && v % 256 == lo;
  }

  /** nToArr silently drops every bit above the 32nd. */
  lemma NumBytesTruncates(num: int)
    requires num >= 0
    ensures NumBytes(num) == NumBytes(num % TwoTo32)
  {
    NumBytesRoundTrip(num);
    FromBigEndianRoundTrip(NumBytes(num));
  }

  /** `Uint8Array.from` leaves numbers that are already bytes unchanged. */
  lemma Uint8FromBytes(xs: seq<int>)
    requires forall i :: 0 <= i < |xs| ==> 0 <= xs[i] < 256
    ensures Uint8From(xs) == xs
  {
  }

  lemma Uint8FromAppend(xs: seq<int>, ys: seq<int>)
    ensures Uint8From(xs + ys) == Uint8From(xs) + Uint8From(ys)
  {
  }

  /**
   * The header is 12 bytes: 0x80, 0x78, the low 16 bits of the sequence,
   * then the timestamp and the SSRC as 32-bit big-endian numbers.
   */
  lemma RtpHeaderLayout(sequence: int, timestamp: int, ssrc: int)
    requires sequence >= 0 && timestamp >= 0 && ssrc >= 0
    ensures var h := RtpHeader(sequence, timestamp, ssrc);
      && |h| == 12 && h[0] == VersionByte && h[1] == PayloadTypeByte
      && h[2] as int * 256 + h[3] == sequence % TwoTo16
      && h[4..8] == NumBytes(timestamp) && FromBigEndian(h[4..8]) == timestamp % TwoTo32
      && h[8..12] == NumBytes(ssrc) && FromBigEndian(h[8..12]) == ssrc % TwoTo32
  {
    var s := NumBytes(sequence);
    NumBytesOfNatural(sequence);
    LowDigits(sequence);
    NumBytesRoundTrip(timestamp);
    NumBytesRoundTrip(ssrc);
    var raw := [VersionByte as int, PayloadTypeByte as int, s[2], s[3]] + NumBytes(timestamp) + NumBytes(ssrc);
    Uint8FromBytes(raw);
    var h := RtpHeader(sequence, timestamp, ssrc);
    assert h == raw;
    assert h[4..8] == NumBytes(timestamp);
    assert h[8..12] == NumBytes(ssrc);
  }

  /** The secretbox nonce is 24 bytes: nToArr(nonce) and then 20 zero bytes. */
  lemma NonceLayout(nonce: int)
    requires nonce >= 0
    ensures |Nonce(nonce)| == 24
    ensures Nonce(nonce)[..4] == NumBytes(nonce) && Nonce(nonce)[4..] == Zeros(20)
  {
    NumBytesRoundTrip(nonce);
    Uint8FromBytes(NumBytes(nonce) + Zeros(20));
    assert Nonce(nonce) == NumBytes(nonce) + Zeros(20);
  }

  /**
   * The packet is the header, the ciphertext and a 4-byte trailer equal to
   * the first four bytes of the nonce, whatever the counters are.
   */
  lemma PacketLayout(info: PacketInfo, secretbox: Secretbox)
    ensures var p := PreparePacket(info, secretbox);
      var c := Ciphertext(info, secretbox);
      && |p| == 12 + |c| + 4
      && p[..12] == RtpHeader(info.sequence, info.timestamp, info.ssrc)
      && p[12..12 + |c|] == c
      && p[|p| - 4..] == Nonce(info.nonce)[..4]
  {
    var h := RtpHeader(info.sequence, info.timestamp, info.ssrc);
    var c := Ciphertext(info, secretbox);
    var t := NumBytes(info.nonce);
    Uint8FromAppend(h + c, t);
    Uint8FromAppend(h, c);
    Uint8FromBytes(h);
    Uint8FromBytes(c);
    Uint8FromAppend(t, Zeros(20));
    var p := PreparePacket(info, secretbox);
    assert p == h + c + Uint8From(t);
    assert p[..12] == h;
    assert p[12..12 + |c|] == c;
  }

  /**
   * Sequence, timestamp and SSRC reach only header bytes 2 to 11: two packets
   * with the same chunk, key and nonce agree everywhere else.
   */
  lemma PacketHeaderFieldsStayInHeader(a: PacketInfo, b: PacketInfo, secretbox: Secretbox)
    requires a.chunk == b.chunk && a.secretKey == b.secretKey && a.nonce == b.nonce
    ensures |PreparePacket(a, secretbox)| == |PreparePacket(b, secretbox)|
    ensures forall i :: 0 <= i < |PreparePacket(a, secretbox)| && !(2 <= i < 12) ==>
      PreparePacket(a, secretbox)[i] == PreparePacket(b, secretbox)[i]
  {
    PacketLayout(a, secretbox);
    PacketLayout(b, secretbox);
    var pa, pb := PreparePacket(a, secretbox), PreparePacket(b, secretbox);
    var c := Ciphertext(a, secretbox);
    assert c == Ciphertext(b, secretbox);
    forall i | 0 <= i < |pa| && !(2 <= i < 12)
      ensures pa[i] == pb[i]
    {
      if i < 12 {
        assert pa[i] == pa[..12][i] && pb[i] == pb[..12][i];
      } else if i < 12 + |c| {
        assert pa[i] == pa[12..12 + |c|][i - 12] && pb[i] == pb[12..12 + |c|][i - 12];
      } else {
        assert pa[i] == pa[|pa| - 4..][i - (|pa| - 4)] && pb[i] == pb[|pb| - 4..][i - (|pb| - 4)];
      }
    }
  }

  /** What a receiver reads back out of a packet; the nonce is rebuilt from the trailer. */
  datatype Datagram = Datagram(
    sequence: int, timestamp: int, ssrc: int, ciphertext: seq<byte>, nonce: seq<byte>)

  /** The structural inverse of preparePacket (receiving is not part of the source). */
  function ParsePacket(p: seq<byte>): Option<Datagram>
  {
    if |p| < 16 || p[0] != VersionByte || p[1] != PayloadTypeByte then None
    else Some(Datagram(p[2] as int * 256 + p[3], FromBigEndian(p[4..8]), FromBigEndian(p[8..12]),
                       p[12..|p| - 4], p[|p| - 4..] + Zeros(20)))
  }

  /**
   * Parsing a prepared packet recovers the counters modulo their wire widths,
   * the ciphertext, and exactly the nonce the sender sealed the frame with.
   */
  lemma PacketRoundTrip(info: PacketInfo, secretbox: Secretbox)
    requires info.sequence >= 0 && info.timestamp >= 0 && info.ssrc >= 0 && info.nonce >= 0
    ensures ParsePacket(PreparePacket(info, secretbox)) == Some(Datagram(
      info.sequence % TwoTo16, info.timestamp % TwoTo32, info.ssrc % TwoTo32,
      Ciphertext(info, secretbox), Nonce(info.nonce)))
  {
    var p := PreparePacket(info, secretbox);
    var h := RtpHeader(info.sequence, info.timestamp, info.ssrc);
    var c := Ciphertext(info, secretbox);
    PacketLayout(info, secretbox);
    RtpHeaderLayout(info.sequence, info.timestamp, info.ssrc);
    NonceLayout(info.nonce);
    assert p[..12] == h;
    assert p[0] == VersionByte && p[1] == PayloadTypeByte by { assert p[0] == h[0] && p[1] == h[1]; }
    assert p[2] as int * 256 + p[3] == info.sequence % TwoTo16 by { assert p[2] == h[2] && p[3] == h[3]; }
    assert p[4..8] == h[4..8] && p[8..12] == h[8..12];
    assert p[12..|p| - 4] == c;
    assert p[|p| - 4..] + Zeros(20) == Nonce(info.nonce);
  }
}
