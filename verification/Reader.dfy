/** Scanning a log file, and what a scan recovers. */
module Readers {
  import opened Records
  import opened Frames

  datatype ReadResult = ReadResult(records: seq<Record>, offsets: seq<nat>, validBytes: nat, truncated: bool)

  /** The scan of bytes that start at a file position. */
  function Scan(c: Codec, b: seq<Byte>, pos: nat): (r: ReadResult)
    ensures |r.records| == |r.offsets| && pos <= r.validBytes <= pos + |b|
    ensures !r.truncated ==> r.validBytes == pos + |b|
    decreases |b|
  {
    match FrameAt(c, b)
    case CleanEnd => ReadResult([], [], pos, false)
    case Torn => ReadResult([], [], pos, true)
    case Whole(record, size) => Prepend(record, pos, Scan(c, b[size..], pos + size))
  }

  function Prepend(record: Record, pos: nat, r: ReadResult): ReadResult {
    r.(records := [record] + r.records, offsets := [pos] + r.offsets)
  }

  /** The frames of some records, one after the other. */
  function FramesOf(c: Codec, rs: seq<Record>): seq<Byte> {
    if |rs| == 0 then [] else FramesOf(c, rs[..|rs| - 1]) + Encode(c, rs[|rs| - 1])
  }

  /** Where each record's frame starts, from a position on. */
  function Starts(c: Codec, rs: seq<Record>, pos: nat): seq<nat> {
    seq(|rs|, i requires 0 <= i < |rs| => pos + |FramesOf(c, rs[..i])|)
  }

  ghost predicate AllStorable(c: Codec, rs: seq<Record>) {
    forall r :: r in rs ==> Storable(c, r)
  }

  /** One turn of the reader: header, payload, checksum. */
  method ReadFrame(c: Codec, rest: seq<Byte>) returns (f: Frame)
    ensures f == FrameAt(c, rest)
  {
    if |rest| == 0 { return CleanEnd; }
    if |rest| < HEADER_SIZE { return Torn; }
    var length, crc := GetUint32(rest[0..4]), GetUint32(rest[4..8]);
    if length > MAX_RECORD_SIZE { return Torn; }
    if |rest| - HEADER_SIZE < length { return Torn; }
    var decoded := DecodePayload(c, rest[HEADER_SIZE..HEADER_SIZE + length], crc);
    if decoded.None? { return Torn; }
    return Whole(decoded.value, HEADER_SIZE + length);
  }

  /** The scan loop: stop at a clean end or at the first frame that is torn or damaged. */
  method ReadAll(c: Codec, file: seq<Byte>) returns (res: ReadResult)
    ensures res == Scan(c, file, 0)
  {
    hide FrameAt, Scan;
    res := ReadResult([], [], 0, false);
    while true
      invariant res.validBytes <= |file| && !res.truncated
      invariant var rest := Scan(c, file[res.validBytes..], res.validBytes);
                Scan(c, file, 0) == rest.(records := res.records + rest.records, offsets := res.offsets + rest.offsets)
      decreases |file| - res.validBytes
    {
      var f := ReadFrame(c, file[res.validBytes..]);
      ScanStep(c, file[res.validBytes..], res.validBytes);
      match f
      case CleanEnd => return;
      case Torn =>
        res := res.(truncated := true);
        return;
      case Whole(record, size) =>
        assert file[res.validBytes..][size..] == file[res.validBytes + size..];
        res := ReadResult(res.records + [record], res.offsets + [res.validBytes], res.validBytes + size, false);
    }
  }

  // ---------------------------------------------------------------- one scan after another

  lemma ScanStep(c: Codec, b: seq<Byte>, pos: nat)
    ensures Scan(c, b, pos) == match FrameAt(c, b)
                               case CleanEnd => ReadResult([], [], pos, false)
                               case Torn => ReadResult([], [], pos, true)
                               case Whole(record, size) => Prepend(record, pos, Scan(c, b[size..], pos + size))
    ensures FrameAt(c, b).CleanEnd? <==> |b| == 0
  {
  }

  /** A clean file followed by more bytes scans as the two scans in turn. */
  lemma {:induction false} ScanAppend(c: Codec, b: seq<Byte>, more: seq<Byte>, pos: nat)
    requires !Scan(c, b, pos).truncated
    ensures var first, second := Scan(c, b, pos), Scan(c, more, pos + |b|);
            Scan(c, b + more, pos) ==
            second.(records := first.records + second.records, offsets := first.offsets + second.offsets)
    decreases |b|
  {
    hide FrameAt, Encode, Scan;
    ScanStep(c, b, pos);
    if |b| == 0 {
      assert b + more == more;
    } else {
      var size := FrameAt(c, b).size;
      WholeFrameStands(c, b, more);
      ScanAppend(c, b[size..], more, pos + size);
      ScanStep(c, b + more, pos);
      assert (b + more)[size..] == b[size..] + more;
    }
  }

  lemma ScanOne(c: Codec, r: Record, pos: nat)
    requires Storable(c, r)
    ensures Scan(c, Encode(c, r), pos) == ReadResult([r], [pos], pos + |Encode(c, r)|, false)
  {
    hide FrameAt, Scan;
    var e := Encode(c, r);
    FrameReadsBack(c, r, []);
    assert e + [] == e;
    ScanStep(c, e, pos);
    ScanStep(c, e[|e|..], pos + |e|);
  }

  /** A file of whole frames reads back as exactly its records, each at its start. */
  lemma {:induction false} FramesReadBack(c: Codec, rs: seq<Record>)
    requires AllStorable(c, rs)
    ensures Scan(c, FramesOf(c, rs), 0) == ReadResult(rs, Starts(c, rs, 0), |FramesOf(c, rs)|, false)
  {
    hide FrameAt, Encode, Scan;
    if |rs| == 0 {
      ScanStep(c, [], 0);
    } else {
      var front, last := rs[..|rs| - 1], rs[|rs| - 1];
      FramesReadBack(c, front);
      ScanOne(c, last, |FramesOf(c, front)|);
      ScanAppend(c, FramesOf(c, front), Encode(c, last), 0);
      assert front + [last] == rs;
      assert Starts(c, front, 0) + [|FramesOf(c, front)|] == Starts(c, rs, 0) by {
        assert forall i :: 0 <= i < |front| ==> front[..i] == rs[..i];
      }
    }
  }

  // ------------------------------------------------------------------------ torn tails

  /** How many records lie wholly before a cut. */
  function WholeBefore(c: Codec, rs: seq<Record>, cut: nat): nat {
    if |rs| == 0 || |FramesOf(c, rs)| <= cut then |rs| else WholeBefore(c, rs[..|rs| - 1], cut)
  }

  lemma {:induction false} WholeBeforeMeaning(c: Codec, rs: seq<Record>, cut: nat)
    ensures var k := WholeBefore(c, rs, cut);
            && k <= |rs|
            && |FramesOf(c, rs[..k])| <= cut
            && (k < |rs| ==> cut < |FramesOf(c, rs[..k + 1])|)
  {
    if |rs| == 0 || |FramesOf(c, rs)| <= cut {
      assert rs[..|rs|] == rs;
    } else {
      var front := rs[..|rs| - 1];
      WholeBeforeMeaning(c, front, cut);
      var k := WholeBefore(c, rs, cut);
      assert rs[..k] == front[..k];
      if k < |front| { assert rs[..k + 1] == front[..k + 1]; } else { assert rs[..k + 1] == rs; }
    }
  }

  lemma {:induction false} FramesSplit(c: Codec, rs: seq<Record>, k: nat)
    requires k <= |rs|
    ensures FramesOf(c, rs[..k]) <= FramesOf(c, rs)
  {
    if k < |rs| {
      FramesSplit(c, rs[..|rs| - 1], k);
      assert rs[..|rs| - 1][..k] == rs[..k];
    } else {
      assert rs[..k] == rs;
    }
  }

  /** The bytes of a file of frames, cut anywhere: the whole frames before the cut, then part of
      the next. */
  lemma CutShape(c: Codec, rs: seq<Record>, cut: nat) returns (k: nat, part: nat)
    requires cut <= |FramesOf(c, rs)|
    ensures k == WholeBefore(c, rs, cut) && k <= |rs|
    ensures cut == |FramesOf(c, rs[..k])| + part
    ensures part > 0 ==> k < |rs| && part < |Encode(c, rs[k])|
    ensures FramesOf(c, rs)[..cut] == FramesOf(c, rs[..k]) + (if part > 0 then Encode(c, rs[k])[..part] else [])
  {
    hide FrameAt, Encode;
    WholeBeforeMeaning(c, rs, cut);
    k := WholeBefore(c, rs, cut);
    part := cut - |FramesOf(c, rs[..k])|;
    FramesSplit(c, rs, k);
    if k < |rs| {
      assert rs[..k + 1][..k] == rs[..k];
      FramesSplit(c, rs, k + 1);
      var next := FramesOf(c, rs[..k]) + Encode(c, rs[k]);
      assert next == FramesOf(c, rs[..k + 1]);
      assert FramesOf(c, rs)[..cut] == next[..cut];
    } else {
      assert rs[..k] == rs;
    }
  }

  /** Torn-tail recovery: cut a file of frames at any byte, and the scan returns exactly the records
      wholly before the cut, with their offsets, and reports a tear exactly when the cut is off a
      frame boundary. */
  lemma {:induction false} TornTailRecovery(c: Codec, rs: seq<Record>, cut: nat)
    requires AllStorable(c, rs) && cut <= |FramesOf(c, rs)|
    ensures var k, r := WholeBefore(c, rs, cut), Scan(c, FramesOf(c, rs)[..cut], 0);
            && k <= |rs|
            && r.records == rs[..k]
            && r.offsets == Starts(c, rs[..k], 0)
            && r.validBytes == |FramesOf(c, rs[..k])|
            && (r.truncated <==> forall j :: 0 <= j <= |rs| ==> cut != |FramesOf(c, rs[..j])|)
  {
    hide FrameAt, Encode, Scan, FramesOf;
    var k, part := CutShape(c, rs, cut);
    var whole := FramesOf(c, rs[..k]);
    FramesReadBack(c, rs[..k]);
    if part > 0 {
      assert rs[k] in rs && Storable(c, rs[k]);
      CutFrameIsTorn(c, rs[k], part);
      ScanAppend(c, whole, Encode(c, rs[k])[..part], 0);
      ScanStep(c, Encode(c, rs[k])[..part], |whole|);
      NextFrame(c, rs, k);
      BoundariesOnly(c, rs, cut, k);
    } else {
      assert whole + [] == whole;
    }
  }

  lemma NextFrame(c: Codec, rs: seq<Record>, k: nat)
    requires k < |rs|
    ensures FramesOf(c, rs[..k + 1]) == FramesOf(c, rs[..k]) + Encode(c, rs[k])
  {
    assert rs[..k + 1][..k] == rs[..k];
  }

  lemma BoundariesOnly(c: Codec, rs: seq<Record>, cut: nat, k: nat)
    requires k < |rs| && |FramesOf(c, rs[..k])| < cut < |FramesOf(c, rs[..k + 1])|
    ensures forall j :: 0 <= j <= |rs| ==> cut != |FramesOf(c, rs[..j])|
  {
    forall j: nat | j <= |rs| ensures cut != |FramesOf(c, rs[..j])| {
      if j <= k {
        FramesSplit(c, rs[..k], j);
        assert rs[..k][..j] == rs[..j];
      } else {
        FramesSplit(c, rs[..j], k + 1);
        assert rs[..j][..k + 1] == rs[..k + 1];
      }
    }
  }

  /** Bytes that read as torn, after any whole frames: everything before them is kept, and they and
      what follows them are not. */
  lemma {:induction false} DamageStopsTheScan(c: Codec, rs: seq<Record>, b: seq<Byte>)
    requires AllStorable(c, rs) && FrameAt(c, b) == Torn
    ensures Scan(c, FramesOf(c, rs) + b, 0) == ReadResult(rs, Starts(c, rs, 0), |FramesOf(c, rs)|, true)
  {
    hide FrameAt, Encode, Scan, FramesOf;
    FramesReadBack(c, rs);
    ScanAppend(c, FramesOf(c, rs), b, 0);
    ScanStep(c, b, |FramesOf(c, rs)|);
  }

  /** A payload changed after it was written, so that its checksum is another: the records before it
      are read, and it and those after it are not. */
  lemma {:induction false} ChangedPayloadIsFound(c: Codec, rs: seq<Record>, r: Record, changed: seq<Byte>, rest: seq<Byte>)
    requires AllStorable(c, rs) && |changed| == |c.marshal(r)| <= MAX_RECORD_SIZE
    requires c.checksum(changed) != c.checksum(c.marshal(r))
    ensures Scan(c, FramesOf(c, rs) + (Encode(c, r)[..8] + changed + rest), 0) ==
            ReadResult(rs, Starts(c, rs, 0), |FramesOf(c, rs)|, true)
  {
    hide FrameAt, Encode, Scan, FramesOf;
    var b := Encode(c, r)[..8] + changed + rest;
    HeaderOf(c, r, []);
    assert Encode(c, r) + [] == Encode(c, r);
    assert b[0..4] == Encode(c, r)[0..4] && b[4..8] == Encode(c, r)[4..8];
    assert b[8..8 + |changed|] == changed;
    DamageIsTorn(c, b, |changed|);
    DamageStopsTheScan(c, rs, b);
  }

  // ---------------------------------------------------------------------------- repair

  /** The repair is a fixed point, on any bytes whatever: cut to the valid length, the file scans to
      the same records and offsets, cleanly. */
  lemma {:induction false} RepairIsFixedPoint(c: Codec, b: seq<Byte>, pos: nat)
    ensures var r := Scan(c, b, pos);
            Scan(c, b[..r.validBytes - pos], pos) == r.(truncated := false)
    decreases |b|
  {
    hide FrameAt, Encode, Scan;
    var r := Scan(c, b, pos);
    ScanStep(c, b, pos);
    ScanStep(c, b[..0], pos);
    if FrameAt(c, b).Whole? {
      var size := FrameAt(c, b).size;
      RepairIsFixedPoint(c, b[size..], pos + size);
      var cut := b[..r.validBytes - pos];
      WholeFrameAlone(c, b);
      assert cut[..size] == b[..size];
      WholeFrameStands(c, b[..size], cut[size..]);
      assert b[..size] + cut[size..] == cut;
      assert cut[size..] == b[size..][..r.validBytes - (pos + size)];
      ScanStep(c, cut, pos);
    }
  }

  /** Frames appended after a repair are read back after the records that survived it. */
  lemma {:induction false} AppendAfterRepair(c: Codec, b: seq<Byte>, rs: seq<Record>)
    requires AllStorable(c, rs)
    ensures var r := Scan(c, b, 0);
            Scan(c, b[..r.validBytes] + FramesOf(c, rs), 0) ==
            ReadResult(r.records + rs, r.offsets + Starts(c, rs, r.validBytes), r.validBytes + |FramesOf(c, rs)|, false)
  {
    hide FrameAt, Encode, Scan, FramesOf;
    var r := Scan(c, b, 0);
    RepairIsFixedPoint(c, b, 0);
    ScanAppend(c, b[..r.validBytes], FramesOf(c, rs), 0);
    ScanFrom(c, FramesOf(c, rs), r.validBytes);
    FramesReadBack(c, rs);
    assert Starts(c, rs, r.validBytes) == Shift(Starts(c, rs, 0), r.validBytes);
  }

  function Shift(offsets: seq<nat>, d: nat): seq<nat> {
    seq(|offsets|, i requires 0 <= i < |offsets| => offsets[i] + d)
  }

  /** A scan does not depend on where in the file its bytes lie, but for the offsets it reports. */
  lemma {:induction false} ScanFrom(c: Codec, b: seq<Byte>, pos: nat)
    ensures var r := Scan(c, b, 0);
            Scan(c, b, pos) == r.(offsets := Shift(r.offsets, pos), validBytes := r.validBytes + pos)
  {
    ScanShifts(c, b, 0, pos);
  }

  lemma {:induction false} ScanShifts(c: Codec, b: seq<Byte>, from: nat, d: nat)
    ensures var r := Scan(c, b, from);
            Scan(c, b, from + d) == r.(offsets := Shift(r.offsets, d), validBytes := r.validBytes + d)
    decreases |b|
  {
    hide FrameAt, Encode, Scan;
    ScanStep(c, b, from);
    ScanStep(c, b, from + d);
    if FrameAt(c, b).Whole? {
      var size := FrameAt(c, b).size;
      ScanShifts(c, b[size..], from + size, d);
      var rest := Scan(c, b[size..], from + size);
      assert Shift([from] + rest.offsets, d) == [from + d] + Shift(rest.offsets, d);
    }
  }
}
