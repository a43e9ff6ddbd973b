/** The deterministic state machine: one committed record at a time against a key-value map. */
module Engines {
  import opened Records

  type Store = map<string, string>

  /** The operations as they are written in a record: three different names. */
  lemma OperationNames()
    ensures OP_SET == "set" && OP_DELETE == "delete" && OP_NOOP == "noop"
  {
  }

  function ApplyRecord(store: Store, r: Record): Store {
    if r.op == OP_SET then store[r.key := r.value]
    else if r.op == OP_DELETE then store - {r.key}
    else store
  }

  /** The map a log prefix produces, applied oldest first to an empty map. */
  function Replay(log: seq<Record>): Store {
    if |log| == 0 then map[] else ApplyRecord(Replay(log[..|log| - 1]), log[|log| - 1])
  }

  /** The newest record of a log that touches a key. */
  function LastTouch(log: seq<Record>, key: string): nat {
    if |log| == 0 then 0
    else if log[|log| - 1].key == key && log[|log| - 1].op in {OP_SET, OP_DELETE} then |log|
    else LastTouch(log[..|log| - 1], key)
  }

  lemma {:induction false} LastTouchIsLast(log: seq<Record>, key: string)
    ensures LastTouch(log, key) <= |log|
    ensures LastTouch(log, key) > 0 ==>
              log[LastTouch(log, key) - 1].key == key
              && log[LastTouch(log, key) - 1].op in {OP_SET, OP_DELETE}
    ensures forall k :: LastTouch(log, key) <= k < |log| ==>
              log[k].key != key || log[k].op !in {OP_SET, OP_DELETE}
  {
    if |log| > 0 { LastTouchIsLast(log[..|log| - 1], key); }
  }

  /** Meaning of a replay: a key is bound exactly when the last record that touches it is a set,
      and then to that record's value. */
  lemma {:induction false} ReplayMeaning(log: seq<Record>, key: string)
    ensures LastTouch(log, key) <= |log|
    ensures key in Replay(log) <==>
              LastTouch(log, key) > 0 && log[LastTouch(log, key) - 1].op == OP_SET
    ensures key in Replay(log) ==> Replay(log)[key] == log[LastTouch(log, key) - 1].value
  {
    LastTouchIsLast(log, key);
    if |log| > 0 { ReplayMeaning(log[..|log| - 1], key); }
  }

  class Engine {
    var data: Store

    constructor ()
      ensures data == Replay([])
    {
      data := map[];
    }

    /** Unknown operations, the no-op among them, change nothing. */
    method Apply(r: Record)
      modifies this
      ensures data == ApplyRecord(old(data), r)
      ensures r.op == "set" ==> data == old(data)[r.key := r.value]
      ensures r.op == "delete" ==> data == old(data) - {r.key}
      ensures r.op != "set" && r.op != "delete" ==> data == old(data)
    {
      if r.op == OP_SET {
        data := data[r.key := r.value];
      } else if r.op == OP_DELETE {
        data := data - {r.key};
      }
    }
  }
}
