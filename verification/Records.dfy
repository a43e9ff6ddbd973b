/** Log records, and the pure view of a log as a sequence of them.
    Indices are 1-based: index i is position i - 1, and index 0 is the sentinel of term 0. */
module Records {

  const OP_SET := "set"
  const OP_DELETE := "delete"
  const OP_NOOP := "noop"

  datatype Record = Record(term: nat, index: nat, op: string, key: string, value: string)

  type NodeId = string

  datatype Option<+T> = None | Some(value: T)

  /** The term a lookup of index i yields; the sentinel and a missing entry both read as term 0. */
  function TermAt(log: seq<Record>, i: nat): nat {
    if i == 0 || i > |log| then 0 else log[i - 1].term
  }

  /** The index stored inside the newest record, 0 for an empty log. */
  function LastIndex(log: seq<Record>): nat {
    if |log| == 0 then 0 else log[|log| - 1].index
  }

  function LastTerm(log: seq<Record>): nat {
    if |log| == 0 then 0 else log[|log| - 1].term
  }

  /** Every record carries its own position as its index. */
  ghost predicate Indexed(log: seq<Record>) {
    forall k :: 0 <= k < |log| ==> log[k].index == k + 1
  }

  /** The sender's suffix from index i on; the sentinel is never sent. */
  function EntriesFrom(log: seq<Record>, i: nat): seq<Record> {
    var from := if i == 0 then 1 else i;
    if from > |log| then [] else log[from - 1..]
  }

  function Min(a: nat, b: nat): nat { if a < b then a else b }

  function Max(a: nat, b: nat): nat { if a < b then b else a }
}
