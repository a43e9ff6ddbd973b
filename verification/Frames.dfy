/** The on-disk frame: a big-endian length, a big-endian checksum, and the payload. */
module Frames {
  import opened Records

  type Byte = b: nat | b < 256

  type Word = w: nat | w < 0x1_0000_0000

  const HEADER_SIZE := 8

  const MAX_RECORD_SIZE := 8388608

  /** The payload encoding and the checksum, as any fixed functions. */
  datatype Codec = Codec(
    marshal: Record -> seq<Byte>,
    unmarshal: seq<Byte> -> Option<Record>,
    checksum: seq<Byte> -> Word)

  /** Low 32 bits, most significant byte first. */
  function PutUint32(n: nat): (s: seq<Byte>)
    ensures |s| == 4
  {
    [n / 0x100_0000 % 256, n / 0x1_0000 % 256, n / 256 % 256, n % 256]
  }

  function GetUint32(s: seq<Byte>): Word
    requires |s| == 4
  {
    var a: int, b: int, c: int, d: int := s[0], s[1], s[2], s[3];
    a * 0x100_0000 + b * 0x1_0000 + c * 256 + d
  }

  lemma ByteOf(n: nat)
    ensures n == n / 256 * 256 + n % 256
  {
  }

  lemma HigherBytes(n: nat)
    ensures n / 0x1_0000 == n / 256 / 256
    ensures n / 0x100_0000 == n / 256 / 256 / 256
  {
    ByteOf(n);
    ByteOf(n / 256);
    ByteOf(n / 256 / 256);
  }

  lemma Low32(n: nat, q: nat, r: nat)
    requires n == q * 0x1_0000_0000 + r && r < 0x1_0000_0000
    ensures n % 0x1_0000_0000 == r
  {
  }

  /** The length and checksum fields read back as written, up to 32 bits. */
  lemma Uint32RoundTrip(n: nat)
    ensures GetUint32(PutUint32(n)) == n % 0x1_0000_0000
  {
    var a, b, c := n / 256, n / 256 / 256, n / 256 / 256 / 256;
    HigherBytes(n);
    ByteOf(n);
    ByteOf(a);
    ByteOf(b);
    ByteOf(c);
    Low32(n, c / 256, GetUint32(PutUint32(n)));
  }

  function Encode(c: Codec, r: Record): (s: seq<Byte>)
    ensures |s| == HEADER_SIZE + |c.marshal(r)|
  {
    var payload := c.marshal(r);
    PutUint32(|payload|) + PutUint32(c.checksum(payload)) + payload
  }

  function DecodePayload(c: Codec, payload: seq<Byte>, wantCrc: Word): Option<Record> {
    if c.checksum(payload) != wantCrc then None else c.unmarshal(payload)
  }

  datatype Frame = CleanEnd | Torn | Whole(record: Record, size: nat)

  /** What a reader makes of the bytes from its position on. */
  function FrameAt(c: Codec, b: seq<Byte>): (f: Frame)
    ensures f.Whole? ==> HEADER_SIZE <= f.size <= |b|
  {
    if |b| == 0 then CleanEnd
    else if |b| < HEADER_SIZE then Torn
    else
      var length := GetUint32(b[0..4]);
      if length > MAX_RECORD_SIZE || |b| - HEADER_SIZE < length then Torn
      else
        match DecodePayload(c, b[HEADER_SIZE..HEADER_SIZE + length], GetUint32(b[4..8]))
        case None => Torn
        case Some(r) => Whole(r, HEADER_SIZE + length)
  }

  /** Four bytes as a number, the first the most significant. */
  lemma BigEndian(s: seq<Byte>)
    requires |s| == 4
    ensures GetUint32(s) == 16777216 * (s[0] as int) + 65536 * (s[1] as int) + 256 * (s[2] as int) + (s[3] as int)
  {
  }

  /** What is written: the payload's length, its checksum, and the payload. */
  lemma EncodeMeaning(c: Codec, r: Record)
    ensures var s, p := Encode(c, r), c.marshal(r);
            && |s| == 8 + |p| && s[8..] == p
            && (|p| < 0x1_0000_0000 ==> 16777216 * (s[0] as int) + 65536 * (s[1] as int) + 256 * (s[2] as int) + (s[3] as int) == |p|)
            && 16777216 * (s[4] as int) + 65536 * (s[5] as int) + 256 * (s[6] as int) + (s[7] as int) == c.checksum(p)
  {
    hide PutUint32, GetUint32;
    var s, p := Encode(c, r), c.marshal(r);
    Uint32RoundTrip(|p|);
    Uint32RoundTrip(c.checksum(p));
    BigEndian(s[0..4]);
    BigEndian(s[4..8]);
    assert s[0..4] == PutUint32(|p|) && s[4..8] == PutUint32(c.checksum(p));
  }

  /** What a reader takes for a frame: a length of at most 8 MiB that the bytes suffice for, and a
      payload that has the checksum written before it and decodes. No bytes at all are a clean end, and
      anything else is torn. */
  lemma FrameMeaning(c: Codec, b: seq<Byte>)
    ensures FrameAt(c, b).CleanEnd? <==> |b| == 0
    ensures |b| >= 8 ==>
              var n := 16777216 * (b[0] as int) + 65536 * (b[1] as int) + 256 * (b[2] as int) + (b[3] as int);
              var crc := 16777216 * (b[4] as int) + 65536 * (b[5] as int) + 256 * (b[6] as int) + (b[7] as int);
              && (FrameAt(c, b).Whole? <==> n <= 8388608 && 8 + n <= |b| && c.checksum(b[8..8 + n]) == crc && c.unmarshal(b[8..8 + n]).Some?)
              && (FrameAt(c, b).Whole? ==> FrameAt(c, b).size == 8 + n && c.unmarshal(b[8..8 + n]) == Some(FrameAt(c, b).record))
    ensures 0 < |b| < 8 ==> FrameAt(c, b).Torn?
  {
    if |b| >= 8 {
      hide GetUint32;
      BigEndian(b[0..4]);
      BigEndian(b[4..8]);
    }
  }

  /** A payload that does not have the checksum written before it reads as torn, whatever follows. */
  lemma DamageIsTorn(c: Codec, b: seq<Byte>, n: nat)
    requires |b| >= 8 + n && GetUint32(b[0..4]) == n && c.checksum(b[8..8 + n]) != GetUint32(b[4..8])
    ensures FrameAt(c, b) == Torn
  {
  }

  /** The codec gives the record back, and the reader accepts its size. */
  ghost predicate Storable(c: Codec, r: Record) {
    c.unmarshal(c.marshal(r)) == Some(r) && |c.marshal(r)| <= MAX_RECORD_SIZE
  }

  lemma HeaderOf(c: Codec, r: Record, rest: seq<Byte>)
    ensures var b := Encode(c, r) + rest;
            && GetUint32(b[0..4]) == |c.marshal(r)| % 0x1_0000_0000
            && GetUint32(b[4..8]) == c.checksum(c.marshal(r))
            && b[HEADER_SIZE..HEADER_SIZE + |c.marshal(r)|] == c.marshal(r)
  {
    var b, p := Encode(c, r) + rest, c.marshal(r);
    assert b[0..4] == PutUint32(|p|);
    assert b[4..8] == PutUint32(c.checksum(p));
    Uint32RoundTrip(|p|);
    Uint32RoundTrip(c.checksum(p));
  }

  /** A record the codec round-trips is read back from its frame, whatever follows, exactly when its
      payload is within the reader's limit: the writer checks no limit, so a larger record is
      written, acknowledged, and on the next start taken for a torn tail, or, once its size wraps
      around 32 bits, for whatever a shorter part of it says. */
  lemma FrameReadsBack(c: Codec, r: Record, rest: seq<Byte>)
    requires c.unmarshal(c.marshal(r)) == Some(r)
    ensures FrameAt(c, Encode(c, r) + rest) == Whole(r, |Encode(c, r)|) <==> |c.marshal(r)| <= MAX_RECORD_SIZE
    ensures |c.marshal(r)| % 0x1_0000_0000 > MAX_RECORD_SIZE ==> FrameAt(c, Encode(c, r) + rest) == Torn
  {
    HeaderOf(c, r, rest);
  }

  /** A frame cut short anywhere inside is recognised as torn. */
  lemma CutFrameIsTorn(c: Codec, r: Record, k: nat)
    requires |c.marshal(r)| <= MAX_RECORD_SIZE && 0 < k < |Encode(c, r)|
    ensures FrameAt(c, Encode(c, r)[..k]) == Torn
  {
    if k >= HEADER_SIZE {
      HeaderOf(c, r, []);
      assert Encode(c, r) + [] == Encode(c, r);
      assert Encode(c, r)[..k][0..4] == Encode(c, r)[0..4];
    }
  }

  /** More bytes after a whole frame do not change how it reads. */
  lemma WholeFrameStands(c: Codec, b: seq<Byte>, more: seq<Byte>)
    requires FrameAt(c, b).Whole?
    ensures FrameAt(c, b + more) == FrameAt(c, b)
  {
    var length := GetUint32(b[0..4]);
    assert (b + more)[0..4] == b[0..4] && (b + more)[4..8] == b[4..8];
    assert (b + more)[HEADER_SIZE..HEADER_SIZE + length] == b[HEADER_SIZE..HEADER_SIZE + length];
  }

  /** Nor does cutting off what follows it. */
  lemma WholeFrameAlone(c: Codec, b: seq<Byte>)
    requires FrameAt(c, b).Whole?
    ensures FrameAt(c, b[..FrameAt(c, b).size]) == FrameAt(c, b)
  {
    var n := FrameAt(c, b).size;
    var length := GetUint32(b[0..4]);
    assert b[..n][0..4] == b[0..4] && b[..n][4..8] == b[4..8];
    assert b[..n][HEADER_SIZE..HEADER_SIZE + length] == b[HEADER_SIZE..HEADER_SIZE + length];
  }
}
