/** One node's durable log: records in memory, their byte offsets, and the file, kept in step. */
module Logs {
  import opened Records
  import opened LogSpec
  import opened Frames
  import opened Readers
  import opened Wals

  const SENTINEL := Record(0, 0, "", "", "")

  /** A leader's commands, stamped one after the other. */
  function Stamps(log: seq<Record>, term: nat, cmds: seq<Record>): seq<Record> {
    if |cmds| == 0 then []
    else
      var front := Stamps(log, term, cmds[..|cmds| - 1]);
      front + [cmds[|cmds| - 1].(term := term, index := LastIndex(log + front) + 1)]
  }

  lemma {:induction false} StampsMeaning(log: seq<Record>, term: nat, cmds: seq<Record>)
    requires Indexed(log)
    ensures |Stamps(log, term, cmds)| == |cmds|
    ensures forall k :: 0 <= k < |cmds| ==>
              Stamps(log, term, cmds)[k] == cmds[k].(term := term, index := |log| + k + 1)
    ensures Indexed(log + Stamps(log, term, cmds))
  {
    if |cmds| > 0 {
      StampsMeaning(log, term, cmds[..|cmds| - 1]);
    }
  }

  lemma {:induction false} StampsPrefix(log: seq<Record>, term: nat, cmds: seq<Record>, k: nat)
    requires k < |cmds|
    ensures Stamps(log, term, cmds[..k + 1]) ==
            Stamps(log, term, cmds[..k])
            + [cmds[k].(term := term, index := LastIndex(log + Stamps(log, term, cmds[..k])) + 1)]
  {
    assert cmds[..k + 1][..k] == cmds[..k];
  }

  /** Bytes, records and offsets agree: reading the file back gives exactly the records and the
      offsets held in memory, and the size counter is the file's length. */
  ghost predicate InStep(c: Codec, bytes: seq<Byte>, records: seq<Record>, offsets: seq<nat>, size: nat) {
    size == |bytes| && Scan(c, bytes, 0) == ReadResult(records, offsets, |bytes|, false)
  }

  lemma InStepAppend(c: Codec, bytes: seq<Byte>, records: seq<Record>, offsets: seq<nat>, e: Record)
    requires InStep(c, bytes, records, offsets, |bytes|) && Storable(c, e)
    ensures InStep(c, bytes + Encode(c, e), records + [e], offsets + [|bytes|], |bytes| + |Encode(c, e)|)
  {
    hide FrameAt, Scan, Encode, Storable;
    ScanOne(c, e, |bytes|);
    ScanAppend(c, bytes, Encode(c, e), 0);
  }

  /** An append that failed part-way: a restart finds the old records, with the new one after them
      only if its whole frame made it to the file. */
  lemma FailedAppendRecovers(c: Codec, bytes: seq<Byte>, records: seq<Record>, offsets: seq<nat>, e: Record, k: nat)
    requires InStep(c, bytes, records, offsets, |bytes|) && Storable(c, e) && k <= |Encode(c, e)|
    ensures Scan(c, bytes + Encode(c, e)[..k], 0).records == if k == |Encode(c, e)| then records + [e] else records
    ensures Scan(c, bytes + Encode(c, e)[..k], 0).truncated <==> 0 < k < |Encode(c, e)|
  {
    hide FrameAt, Scan, Encode;
    if k == |Encode(c, e)| {
      assert Encode(c, e)[..k] == Encode(c, e);
      InStepAppend(c, bytes, records, offsets, e);
    } else {
      if k > 0 { CutFrameIsTorn(c, e, k); }
      ScanStep(c, Encode(c, e)[..k], |bytes|);
      ScanAppend(c, bytes, Encode(c, e)[..k], 0);
    }
  }

  /** Cutting at the offset of a record drops it and everything after it, and nothing else. */
  lemma {:induction false} ScanCutAt(c: Codec, b: seq<Byte>, pos: nat, k: nat)
    requires !Scan(c, b, pos).truncated && k < |Scan(c, b, pos).records|
    ensures var r := Scan(c, b, pos);
            && pos <= r.offsets[k] <= pos + |b|
            && Scan(c, b[..r.offsets[k] - pos], pos) == ReadResult(r.records[..k], r.offsets[..k], r.offsets[k], false)
    decreases |b|
  {
    hide FrameAt, Scan;
    ScanStep(c, b, pos);
    var size := FrameAt(c, b).size;
    var r := Scan(c, b, pos);
    if k == 0 {
      ScanStep(c, b[..0], pos);
    } else {
      ScanCutAt(c, b[size..], pos + size, k - 1);
      var cut := b[..r.offsets[k] - pos];
      WholeFrameAlone(c, b);
      assert cut[..size] == b[..size];
      WholeFrameStands(c, b[..size], cut[size..]);
      assert b[..size] + cut[size..] == cut;
      assert cut[size..] == b[size..][..r.offsets[k] - (pos + size)];
      ScanStep(c, cut, pos);
    }
  }

  /** The bytes are exactly the concatenated frames of the records. */
  ghost predicate ExactFrames(c: Codec, bytes: seq<Byte>, records: seq<Record>) {
    AllStorable(c, records) && bytes == FramesOf(c, records)
  }

  /** Then each offset is the sum of the frames before it. */
  lemma ExactOffsets(c: Codec, bytes: seq<Byte>, records: seq<Record>, offsets: seq<nat>, size: nat)
    requires ExactFrames(c, bytes, records) && InStep(c, bytes, records, offsets, size)
    ensures |offsets| == |records| && forall i :: 0 <= i < |records| ==> offsets[i] == |FramesOf(c, records[..i])|
  {
    hide Scan, FrameAt, Encode, FramesOf;
    FramesReadBack(c, records);
  }

  lemma ExactAppend(c: Codec, bytes: seq<Byte>, records: seq<Record>, e: Record)
    requires ExactFrames(c, bytes, records) && Storable(c, e)
    ensures ExactFrames(c, bytes + Encode(c, e), records + [e])
  {
    hide Encode, Storable;
    assert (records + [e])[..|records|] == records;
  }

  lemma InStepSize(c: Codec, bytes: seq<Byte>, records: seq<Record>, offsets: seq<nat>, size: nat)
    requires InStep(c, bytes, records, offsets, size)
    ensures size == |bytes|
  {
    hide Scan;
  }

  lemma ExactCut(c: Codec, bytes: seq<Byte>, records: seq<Record>, offsets: seq<nat>, size: nat, k: nat)
    requires ExactFrames(c, bytes, records) && InStep(c, bytes, records, offsets, size) && k < |records|
    ensures |offsets| == |records| && offsets[k] <= |bytes| && ExactFrames(c, bytes[..offsets[k]], records[..k])
  {
    hide Scan, FrameAt, Encode, Storable;
    ExactOffsets(c, bytes, records, offsets, size);
    FramesSplit(c, records, k);
  }

  /** A log is what a process dying part-way through a request leaves behind. */
  ghost predicate IsCrashPoint(x: seq<Record>, log: seq<Record>, prev: nat, entries: seq<Record>, j: nat, mid: bool) {
    prev <= |log| && j <= |entries| && x == CrashPoint(log, prev, entries, j, mid)
  }

  lemma DropTake<T>(s: seq<T>, i: nat)
    requires 1 <= i <= |s|
    ensures s[..i][1..] == s[1..][..i - 1]
  {
  }

  /** The crash points around entry i: before it, with its conflict cut away, and after it. */
  lemma CrashPointsAt(log: seq<Record>, prev: nat, entries: seq<Record>, i: nat)
    requires prev <= |log| && i < |entries|
    ensures var x := Merge(log, prev, entries[..i]);
            && prev + i <= |x|
            && IsCrashPoint(x, log, prev, entries, i, false)
            && IsCrashPoint(Merge(log, prev, entries[..i + 1]), log, prev, entries, i + 1, false)
            && (prev + i == |x| || x[prev + i].term != entries[i].term ==> IsCrashPoint(x[..prev + i], log, prev, entries, i, true))
  {
    hide Merge;
    MergeStep(log, prev, entries, i);
    var x := Merge(log, prev, entries[..i]);
    if prev + i == |x| { assert x[..prev + i] == x; }
  }

  /** What happens to the cut before each entry of a request, and to its store. */
  datatype Faults = Faults(cuts: nat -> CutFault, stores: nat -> Fault) {
    ghost predicate None() {
      forall i :: cuts(i).Cut? && stores(i).NoFault?
    }
  }

  datatype OpenError = WrongIndex(want: nat, got: nat)

  /** Recover a log from its file: scan, repair a torn tail, check that every record claims its own
      position. Refused exactly when one does not; the repair is made either way. */
  method OpenLog(c: Codec, file: File) returns (log: Log?, error: Option<OpenError>)
    modifies file
    ensures file.bytes == old(file.bytes)[..Scan(c, old(file.bytes), 0).validBytes]
    ensures log != null <==> Indexed(Scan(c, old(file.bytes), 0).records)
    ensures log == null <==> error.Some?
    ensures error.Some? ==>
              var rs, want := Scan(c, old(file.bytes), 0).records, error.value.want;
              && 1 <= want <= |rs| && rs[want - 1].index == error.value.got != want
              && forall k :: 0 <= k < want - 1 ==> rs[k].index == k + 1
    ensures log != null ==> log.Valid() && log.Durable() && log.w != null && log.w.file == file && log.w.codec == c
    ensures log != null ==> log.Contents() == Scan(c, old(file.bytes), 0).records
    ensures log != null ==> log.offsets[1..] == Scan(c, old(file.bytes), 0).offsets
  {
    hide Scan;
    var res := ReadAll(c, file.bytes);
    RepairIsFixedPoint(c, file.bytes, 0);
    if res.truncated {
      file.bytes := file.bytes[..res.validBytes];
    } else {
      assert file.bytes[..res.validBytes] == file.bytes;
    }
    var w := new Wal(c, file);
    var records: seq<Record>, offsets: seq<nat> := [], [];
    for i := 0 to |res.records|
      invariant records == res.records[..i] && offsets == res.offsets[..i]
      invariant forall k :: 0 <= k < i ==> res.records[k].index == k + 1
    {
      var r := res.records[i];
      if r.index != i + 1 { return null, Some(WrongIndex(i + 1, r.index)); }
      records := records + [r];
      offsets := offsets + [res.offsets[i]];
    }
    log := new Log.OnFile(w, records, offsets);
    error := None;
  }

  class Log {
    var entries: seq<Record>
    var offsets: seq<nat>
    const w: Wal?

    function Repr(): set<object> {
      if w == null then {this} else {this, w, w.file}
    }

    ghost predicate Valid()
      reads this
    {
      |entries| >= 1 && entries[0] == SENTINEL && |offsets| == |entries|
    }

    /** The log proper, without the sentinel. */
    function Contents(): seq<Record>
      reads this
    {
      if |entries| == 0 then [] else entries[1..]
    }

    /** Disk and memory agree. */
    ghost predicate Durable()
      requires Valid()
      reads this, Repr()
    {
      w != null ==> InStep(w.codec, w.file.bytes, Contents(), offsets[1..], w.size)
    }

    /** The file is exactly the frames of the records in memory. */
    ghost predicate Exact()
      reads this, Repr()
    {
      w != null ==> ExactFrames(w.codec, w.file.bytes, Contents())
    }

    ghost predicate Stores(e: Record) {
      w != null ==> Storable(w.codec, e)
    }

    /** The records a restart would find. */
    ghost function Recovered(): seq<Record>
      requires w != null
      reads Repr()
    {
      Scan(w.codec, w.file.bytes, 0).records
    }

    /** An in-memory log. */
    constructor InMemory()
      ensures Valid() && Contents() == [] && w == null
    {
      entries, offsets, w := [SENTINEL], [0], null;
    }

    constructor OnFile(w: Wal, records: seq<Record>, offsets: seq<nat>)
      requires |records| == |offsets| && InStep(w.codec, w.file.bytes, records, offsets, w.size)
      ensures Valid() && Durable() && Contents() == records && this.w == w && this.offsets[1..] == offsets
    {
      this.entries := [SENTINEL] + records;
      this.offsets := [0] + offsets;
      this.w := w;
    }

    method LastIndexOf() returns (i: nat)
      requires Valid()
      ensures i == LastIndex(Contents())
    {
      i := entries[|entries| - 1].index;
    }

    method LastTermOf() returns (t: nat)
      requires Valid()
      ensures t == LastTerm(Contents())
    {
      t := entries[|entries| - 1].term;
    }

    /** The entry at an index; the sentinel and an absent entry read as not there. */
    method At(index: nat) returns (r: Record, ok: bool)
      requires Valid()
      ensures ok <==> 1 <= index <= |Contents()|
      ensures ok ==> r == Contents()[index - 1]
      ensures !ok ==> r == Record(0, 0, "", "", "")
      ensures r.term == TermAt(Contents(), index)
    {
      if index == 0 || index >= |entries| { return SENTINEL, false; }
      return entries[index], true;
    }

    method From(index: nat) returns (out: seq<Record>)
      requires Valid()
      ensures out == EntriesFrom(Contents(), index)
      ensures index == 0 ==> out == Contents()
      ensures 1 <= index <= |Contents()| + 1 ==> Contents() == Contents()[..index - 1] + out
      ensures index > |Contents()| ==> out == []
    {
      var from := if index == 0 then 1 else index;
      if from >= |entries| { return []; }
      return entries[from..];
    }

    method Match(prev: nat, prevTerm: nat) returns (ok: bool)
      requires Valid()
      ensures ok == Matches(Contents(), prev, prevTerm)
      ensures prev == 0 ==> (ok <==> prevTerm == 0)
      ensures prev > 0 ==> (ok <==> prev <= |Contents()| && Contents()[prev - 1].term == prevTerm)
    {
      if prev >= |entries| { return false; }
      return entries[prev].term == prevTerm;
    }

    /** Disk first: memory never holds an entry the disk does not have. */
    method Store(e: Record, fault: Fault) returns (res: Outcome<()>)
      requires Valid()
      modifies Repr()
      ensures Valid()
      ensures w == null || fault.NoFault? ==> res.Ok?
      ensures res.Ok? ==> Contents() == old(Contents()) + [e]
      ensures res.Ok? && old(Durable()) && Stores(e) ==> Durable()
      ensures res.Ok? && old(Exact()) && Stores(e) ==> Exact()
      ensures res.Failed? ==> w != null && Contents() == old(Contents())
      ensures res.Failed? && old(Durable()) && Stores(e) ==>
                Recovered() == Contents() || Recovered() == Contents() + [e]
    {
      hide Encode, Scan, InStep, ExactFrames, Storable;
      var offset := 0;
      if w != null {
        if Durable() { InStepSize(w.codec, w.file.bytes, Contents(), offsets[1..], w.size); }
        var r := w.Append(e, fault);
        if r.Failed? {
          ghost var bytes := old(w.file.bytes);
          if old(Durable()) && Stores(e) {
            var k := Min(fault.written, |Encode(w.codec, e)|);
            FailedAppendRecovers(w.codec, bytes, Contents(), offsets[1..], e, k);
          }
          return Failed;
        }
        offset := r.value;
        if old(Durable()) && Stores(e) {
          InStepAppend(w.codec, old(w.file.bytes), old(Contents()), old(offsets[1..]), e);
        }
        if old(Exact()) && Stores(e) { ExactAppend(w.codec, old(w.file.bytes), old(Contents()), e); }
      }
      entries := entries + [e];
      offsets := offsets + [offset];
      assert Contents() == old(Contents()) + [e];
      assert offsets[1..] == old(offsets[1..]) + [offset];
      return Ok(());
    }

    /** Drop every entry from an index on, on disk and in memory. */
    method TruncateFrom(index: nat, fault: CutFault) returns (res: Outcome<()>)
      requires Valid() && 1 <= index < |entries|
      modifies Repr()
      ensures Valid()
      ensures w == null || (fault.Cut? && old(Durable())) ==> res.Ok?
      ensures res.Ok? ==> Contents() == old(Contents())[..index - 1]
      ensures res.Ok? && old(Durable()) ==> Durable()
      ensures res.Ok? && old(Durable()) && old(Exact()) ==> Exact()
      ensures res.Failed? ==> w != null && Contents() == old(Contents())
      ensures res.Failed? && old(Durable()) ==>
                Recovered() == if fault.NotCut? then Contents() else Contents()[..index - 1]
    {
      hide Scan, FramesOf;
      if w != null {
        if Durable() { CutAt(index); }
        if Durable() && Exact() { ExactCut(w.codec, w.file.bytes, Contents(), offsets[1..], w.size, index - 1); }
        var r := w.Truncate(offsets[index], fault);
        if r.Failed? { return Failed; }
      }
      DropTake(entries, index);
      DropTake(offsets, index);
      entries := entries[..index];
      offsets := offsets[..index];
      return Ok(());
    }

    /** The leader side: each command stamped with the term and the next index, stored in turn. On
        an error the ones before it are already durable. */
    method Append(term: nat, cmds: seq<Record>, faults: nat -> Fault) returns (appended: seq<Record>, ok: bool)
      requires Valid()
      modifies Repr()
      ensures Valid()
      ensures w == null || (forall i :: faults(i).NoFault?) ==> ok
      ensures |appended| <= |cmds| && appended == Stamps(old(Contents()), term, cmds[..|appended|])
      ensures ok <==> |appended| == |cmds|
      ensures ok ==> appended == Stamps(old(Contents()), term, cmds)
      ensures Contents() == old(Contents()) + appended
      ensures old(Durable()) && (forall e :: e in appended ==> Stores(e)) && ok ==> Durable()
      ensures old(Exact()) && (forall e :: e in appended ==> Stores(e)) && ok ==> Exact()
      ensures !ok ==> w != null
      ensures !ok && old(Durable()) && (forall e :: e in Stamps(old(Contents()), term, cmds[..|appended| + 1]) ==> Stores(e)) ==>
                Recovered() == Contents()
                || Recovered() == old(Contents()) + Stamps(old(Contents()), term, cmds[..|appended| + 1])
    {
      hide Scan, InStep, Encode, Storable, ExactFrames, LastIndex;
      appended := [];
      ghost var before := Contents();
      assert Stamps(before, term, cmds[..0]) == [];
      for i := 0 to |cmds|
        invariant Valid() && |appended| == i && appended == Stamps(old(Contents()), term, cmds[..i])
        invariant Contents() == old(Contents()) + appended
        invariant old(Durable()) && (forall e :: e in appended ==> Stores(e)) ==> Durable()
        invariant old(Exact()) && (forall e :: e in appended ==> Stores(e)) ==> Exact()
      {
        var last := LastIndexOf();
        var c := cmds[i].(term := term, index := last + 1);
        StampsPrefix(before, term, cmds, i);
        ghost var next := appended + [c];
        assert Stamps(before, term, cmds[..i + 1]) == next;
        ghost var held := Contents();
        var r := Store(c, faults(i));
        if r.Failed? {
          assert held + [c] == before + next;
          assert c in next;
          return appended, false;
        }
        appended := appended + [c];
      }
      assert cmds[..|cmds|] == cmds;
      return appended, true;
    }

    /** The follower side: anchor, skip what is held, cut at a conflict, store the rest. */
    method AppendAfter(prev: nat, prevTerm: nat, entries: seq<Record>, faults: Faults) returns (res: Outcome<bool>)
      requires Valid()
      modifies Repr()
      ensures Valid()
      ensures w == null ==> res.Ok?
      ensures old(Durable()) && faults.None() && (forall e :: e in entries ==> Stores(e)) ==> res.Ok?
      ensures res.Ok? ==> (res.value, Contents()) == LogSpec.AppendAfter(old(Contents()), prev, prevTerm, entries)
      ensures res.Ok? && old(Durable()) && (forall e :: e in entries ==> Stores(e)) ==> Durable()
      ensures res.Ok? && old(Durable()) && old(Exact()) && (forall e :: e in entries ==> Stores(e)) ==> Exact()
      ensures res.Failed? ==> w != null && Matches(old(Contents()), prev, prevTerm)
                              && exists j, mid :: IsCrashPoint(Contents(), old(Contents()), prev, entries, j, mid)
      ensures res.Failed? && old(Durable()) && (forall e :: e in entries ==> Stores(e)) ==>
                exists j, mid :: IsCrashPoint(Recovered(), old(Contents()), prev, entries, j, mid)
    {
      hide Scan, InStep, Encode, Storable, Merge, IsCrashPoint, ExactFrames;
      var ok := Match(prev, prevTerm);
      if !ok { return Ok(false); }
      MergeOfNothing(Contents(), prev);
      ghost var before := Contents();
      ghost var storable := old(Durable()) && forall e :: e in entries ==> Stores(e);
      for i := 0 to |entries|
        invariant Valid() && Contents() == Merge(before, prev, entries[..i])
        invariant prev + i <= |Contents()|
        invariant storable ==> Durable()
        invariant storable && old(Exact()) ==> Exact()
      {
        var e := entries[i];
        var idx := prev + 1 + i;
        MergeStep(before, prev, entries, i);
        CrashPointsAt(before, prev, entries, i);
        if idx < |this.entries| {
          if this.entries[idx].term == e.term { continue; }
          var cut := TruncateFrom(idx, faults.cuts(i));
          if cut.Failed? { return Failed; }
        }
        ghost var anchored := Contents();
        assert anchored == Merge(before, prev, entries[..i])[..prev + i];
        var stored := Store(e, faults.stores(i));
        if stored.Failed? {
          assert storable && Recovered() != Contents() ==> Recovered() == Merge(before, prev, entries[..i + 1]);
          return Failed;
        }
      }
      assert entries[..|entries|] == entries;
      return Ok(true);
    }

    lemma CutAt(index: nat)
      requires Valid() && Durable() && w != null && 1 <= index < |entries|
      ensures offsets[index] <= |w.file.bytes|
      ensures InStep(w.codec, w.file.bytes[..offsets[index]], Contents()[..index - 1], offsets[1..][..index - 1], offsets[index])
    {
      hide Scan;
      ScanCutAt(w.codec, w.file.bytes, 0, index - 1);
      assert offsets[1..][index - 1] == offsets[index];
    }
  }

  /** Restarting on the file of a log in step with it rebuilds the same records and offsets and
      changes no byte; it is refused exactly when some record does not carry its own position. */
  method Reopen(log: Log) returns (again: Log?)
    requires log.Valid() && log.Durable() && log.w != null
    modifies log.w.file
    ensures log.w.file.bytes == old(log.w.file.bytes)
    ensures again != null <==> Indexed(log.Contents())
    ensures again != null ==> again.Valid() && again.Durable() && again.Contents() == log.Contents()
    ensures again != null ==> again.offsets[1..] == log.offsets[1..]
    ensures again != null ==> again.w != null && again.w.file == log.w.file && again.w.codec == log.w.codec
    ensures again != null && old(log.Exact()) ==> again.Exact()
  {
    hide Scan, ExactFrames;
    var error;
    again, error := OpenLog(log.w.codec, log.w.file);
  }
}
