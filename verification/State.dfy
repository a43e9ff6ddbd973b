/** The persistent pair and the file it lives in. */
module States {
  import opened Records
  import Frames

  datatype PersistentState = PersistentState(currentTerm: nat, votedFor: NodeId)

  /** The state file's encoding, as any fixed pair of functions. */
  datatype StateCodec = StateCodec(marshal: PersistentState -> seq<Frames.Byte>, unmarshal: seq<Frames.Byte> -> Option<PersistentState>)

  /** How far a save got: all the way, or an error (or a crash) after part of it. */
  datatype Progress = Complete | NotCreated | PartlyWritten(bytes: nat) | NotRenamed | DirectoryNotSynced

  datatype Loaded = Fresh | Restored(state: PersistentState) | Unreadable

  /** The state file and the temporary file beside it; None is a missing file. */
  class StateStore {
    const codec: StateCodec
    var file: Option<seq<Frames.Byte>>
    var temp: Option<seq<Frames.Byte>>

    constructor (codec: StateCodec)
      ensures this.codec == codec && file == None && temp == None
    {
      this.codec := codec;
      file, temp := None, None;
    }

    /** Opening the store: a missing file is a new node, of term 0 and with no vote cast; a file that
        does not parse is refused. */
    method Open() returns (st: Option<PersistentState>)
      ensures file == None ==> st == Some(PersistentState(0, ""))
      ensures file.Some? ==> st == codec.unmarshal(file.value)
      ensures st.None? <==> Load().Unreadable?
      ensures st.Some? ==> st.value == Holds()
    {
      match file
      case None => return Some(PersistentState(0, ""));
      case Some(data) => return codec.unmarshal(data);
    }

    /** What opening the store yields: a missing file is a new node, a file that does not parse is
        refused. */
    function Load(): Loaded
      reads this
    {
      if file.None? then Fresh
      else
        match codec.unmarshal(file.value)
        case Some(st) => Restored(st)
        case None => Unreadable
    }

    /** The pair a node would start from. */
    function Holds(): PersistentState
      reads this
    {
      if Load().Restored? then Load().state else PersistentState(0, "")
    }

    /** Write beside, then rename over. Wherever it stops, the state file holds the complete old
        pair or the complete new one. */
    method Save(st: PersistentState, progress: Progress) returns (ok: bool)
      modifies this
      ensures ok <==> progress.Complete?
      ensures codec.unmarshal(codec.marshal(st)) == Some(st) ==>
                Load() == if progress.Complete? || progress.DirectoryNotSynced? then Restored(st) else old(Load())
    {
      var data := codec.marshal(st);
      if progress.NotCreated? { return false; }
      temp := Some([]);
      if progress.PartlyWritten? {
        temp := Some(data[..Min(progress.bytes, |data|)]);
        return false;
      }
      temp := Some(data);
      if progress.NotRenamed? { return false; }
      file, temp := temp, None;
      return progress.Complete?;
    }
  }
}
