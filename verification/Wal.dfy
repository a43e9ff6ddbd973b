/** The append-only log file. */
module Wals {
  import Records
  import opened Frames

  /** The bytes on disk, which outlive the process. */
  class File {
    var bytes: seq<Byte>

    constructor (bytes: seq<Byte>)
      ensures this.bytes == bytes
    {
      this.bytes := bytes;
    }
  }

  datatype Outcome<T> = Ok(value: T) | Failed

  /** What the operating system does with a write: all of it durable, or an error with some prefix
      of the bytes already in the file. */
  datatype Fault = NoFault | FaultAfter(written: nat)

  /** What becomes of a cut: made and durable, refused with the file untouched, or made with an error
      while making it durable. */
  datatype CutFault = Cut | NotCut | CutThenError

  /** Cutting a file to a length; a length past the end pads it with zeros. */
  function Resized(bytes: seq<Byte>, n: nat): seq<Byte> {
    if n <= |bytes| then bytes[..n] else bytes + seq(n - |bytes|, _ => 0)
  }

  class Wal {
    const codec: Codec
    const file: File
    var size: nat

    /** The counter is the file's length; an I/O error can break this, in either direction. */
    predicate Clean()
      reads this, file
    {
      size == |file.bytes|
    }

    /** Open for appending: the next append lands where the file now ends. */
    constructor (codec: Codec, file: File)
      ensures this.codec == codec && this.file == file && Clean()
    {
      this.codec := codec;
      this.file := file;
      size := |file.bytes|;
    }

    /** One frame at the end of the file; the offset returned is where it starts. On an error part
        of the frame may be there, and the counter does not know. */
    method Append(r: Records.Record, fault: Fault) returns (res: Outcome<nat>)
      modifies this, file
      ensures fault.NoFault? ==> res == Ok(old(size))
                                 && file.bytes == old(file.bytes) + Encode(codec, r)
                                 && size == old(size) + |Encode(codec, r)|
      ensures fault.FaultAfter? ==> res == Failed && size == old(size)
                                    && file.bytes == old(file.bytes) + Encode(codec, r)[..Records.Min(fault.written, |Encode(codec, r)|)]
    {
      var frame := Encode(codec, r);
      var offset := size;
      match fault
      case FaultAfter(written) =>
        file.bytes := file.bytes + frame[..Records.Min(written, |frame|)];
        return Failed;
      case NoFault =>
        file.bytes := file.bytes + frame;
        size := size + |frame|;
        return Ok(offset);
    }

    /** Cut the file back. Asking for more than the counter is refused and changes nothing; an error
        while making the cut durable leaves the cut made and the counter too high. */
    method Truncate(to: nat, fault: CutFault) returns (res: Outcome<()>)
      modifies this, file
      ensures res.Ok? <==> to <= old(size) && fault.Cut?
      ensures file.bytes == if to <= old(size) && !fault.NotCut? then Resized(old(file.bytes), to) else old(file.bytes)
      ensures size == if res.Ok? then to else old(size)
    {
      if to > size || fault.NotCut? { return Failed; }
      file.bytes := Resized(file.bytes, to);
      if fault.CutThenError? { return Failed; }
      size := to;
      return Ok(());
    }
  }
}
