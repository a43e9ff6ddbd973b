/** What AppendAfter does to a log, as a function, and what that means. */
module LogSpec {
  import opened Records

  /** The anchor check: an entry at prev whose term is prevTerm. */
  predicate Matches(log: seq<Record>, prev: nat, prevTerm: nat) {
    prev <= |log| && TermAt(log, prev) == prevTerm
  }

  /** Walk the incoming entries: skip a duplicate, cut at a conflict, store the rest. */
  function Merge(log: seq<Record>, prev: nat, entries: seq<Record>): seq<Record>
    requires prev <= |log|
    decreases |entries|
  {
    if |entries| == 0 then log
    else if prev < |log| then
      if log[prev].term == entries[0].term then Merge(log, prev + 1, entries[1..])
      else Merge(log[..prev] + [entries[0]], prev + 1, entries[1..])
    else Merge(log + [entries[0]], prev + 1, entries[1..])
  }

  lemma MergeOfNothing(log: seq<Record>, prev: nat)
    requires prev <= |log|
    ensures Merge(log, prev, []) == log
  {
  }

  function AppendAfter(log: seq<Record>, prev: nat, prevTerm: nat, entries: seq<Record>): (bool, seq<Record>) {
    if Matches(log, prev, prevTerm) then (true, Merge(log, prev, entries)) else (false, log)
  }

  /** How many of the entries the log already holds, by position and term. */
  function Held(log: seq<Record>, prev: nat, entries: seq<Record>): nat
    requires prev <= |log|
    decreases |entries|
  {
    if |entries| == 0 || prev == |log| || log[prev].term != entries[0].term then 0
    else 1 + Held(log, prev + 1, entries[1..])
  }

  lemma {:induction false} HeldMeaning(log: seq<Record>, prev: nat, entries: seq<Record>)
    requires prev <= |log|
    ensures Held(log, prev, entries) <= |entries| && prev + Held(log, prev, entries) <= |log|
    ensures forall j :: 0 <= j < Held(log, prev, entries) ==> log[prev + j].term == entries[j].term
    ensures Held(log, prev, entries) < |entries| && prev + Held(log, prev, entries) < |log| ==>
              log[prev + Held(log, prev, entries)].term != entries[Held(log, prev, entries)].term
    decreases |entries|
  {
    if |entries| != 0 && prev < |log| && log[prev].term == entries[0].term {
      HeldMeaning(log, prev + 1, entries[1..]);
      var h := Held(log, prev + 1, entries[1..]);
      forall j | 0 <= j < 1 + h ensures log[prev + j].term == entries[j].term {
        if j > 0 { assert entries[1..][j - 1] == entries[j]; }
      }
    }
  }

  /** Once past the end of the log, a merge only appends. */
  lemma {:induction false} MergeAppends(log: seq<Record>, entries: seq<Record>)
    ensures Merge(log, |log|, entries) == log + entries
    decreases |entries|
  {
    if |entries| != 0 {
      MergeAppends(log + [entries[0]], entries[1..]);
      assert (log + [entries[0]]) + entries[1..] == log + entries;
    }
  }

  /** The closed form: the log is kept whole when every entry is already held, and is otherwise cut
      at the first entry it does not hold, with the rest of the request stored from there. */
  lemma {:induction false} MergeClosedForm(log: seq<Record>, prev: nat, entries: seq<Record>)
    requires prev <= |log|
    ensures prev + Held(log, prev, entries) <= |log| && Held(log, prev, entries) <= |entries|
    ensures var h := Held(log, prev, entries);
            Merge(log, prev, entries) == if h == |entries| then log else log[..prev + h] + entries[h..]
    decreases |entries|
  {
    if |entries| != 0 {
      if prev < |log| && log[prev].term == entries[0].term {
        MergeClosedForm(log, prev + 1, entries[1..]);
        var h := Held(log, prev + 1, entries[1..]);
        assert entries[1..][h..] == entries[h + 1..];
      } else {
        var cut := log[..prev] + [entries[0]];
        assert prev == |log| ==> log + [entries[0]] == cut;
        MergeAppends(cut, entries[1..]);
        assert cut + entries[1..] == log[..prev] + entries[0..];
      }
    }
  }

  /** The part of the log at or before the anchor never changes, the result reaches the end of the
      request, agrees with it there by term, and a longer suffix survives exactly when nothing
      conflicted. */
  lemma {:induction false} MergeEffect(log: seq<Record>, prev: nat, entries: seq<Record>)
    requires prev <= |log|
    ensures var x := Merge(log, prev, entries);
            && |x| >= prev + |entries|
            && x[..prev] == log[..prev]
            && (forall j :: 0 <= j < |entries| ==> x[prev + j].term == entries[j].term)
            && (|log| > prev + |entries| ==>
                  (|x| == |log| <==> forall j :: 0 <= j < |entries| ==> log[prev + j].term == entries[j].term)
                  && (|x| == |log| <==> x == log))
            && (|x| != |log| && x != log ==> |x| == prev + |entries|)
  {
    MergeClosedForm(log, prev, entries);
    HeldMeaning(log, prev, entries);
    var h := Held(log, prev, entries);
    var x := Merge(log, prev, entries);
    forall j | 0 <= j < |entries| ensures x[prev + j].term == entries[j].term {
      if h < |entries| && j >= h { assert x[prev + j] == entries[h..][j - h]; }
    }
  }

  /** Merging in two parts is merging at once. */
  lemma {:induction false} MergeConcat(log: seq<Record>, prev: nat, a: seq<Record>, b: seq<Record>)
    requires prev <= |log|
    ensures prev + |a| <= |Merge(log, prev, a)|
    ensures Merge(log, prev, a + b) == Merge(Merge(log, prev, a), prev + |a|, b)
    decreases |a|
  {
    if |a| == 0 {
      assert a + b == b;
    } else {
      assert (a + b)[1..] == a[1..] + b;
      var next := if prev == |log| then log + [a[0]]
                  else if log[prev].term == a[0].term then log
                  else log[..prev] + [a[0]];
      MergeConcat(next, prev + 1, a[1..], b);
    }
  }

  /** One more entry taken in. */
  lemma {:induction false} MergeStep(log: seq<Record>, prev: nat, entries: seq<Record>, i: nat)
    requires prev <= |log| && i < |entries|
    ensures var x := Merge(log, prev, entries[..i]);
            && prev + i <= |x|
            && Merge(log, prev, entries[..i + 1]) ==
               if prev + i == |x| then x + [entries[i]]
               else if x[prev + i].term == entries[i].term then x
               else x[..prev + i] + [entries[i]]
  {
    MergeConcat(log, prev, entries[..i], [entries[i]]);
    assert entries[..i] + [entries[i]] == entries[..i + 1];
  }

  /** Delivering the same request again changes nothing. */
  lemma {:induction false} MergeIdempotent(log: seq<Record>, prev: nat, entries: seq<Record>)
    requires prev <= |log|
    ensures prev <= |Merge(log, prev, entries)|
    ensures Merge(Merge(log, prev, entries), prev, entries) == Merge(log, prev, entries)
  {
    MergeEffect(log, prev, entries);
    var x := Merge(log, prev, entries);
    HeldMeaning(x, prev, entries);
    MergeClosedForm(x, prev, entries);
    assert x[..prev + Held(x, prev, entries)] + entries[Held(x, prev, entries)..] == x || Held(x, prev, entries) == |entries|;
  }

  // ------------------------------------------------------------- against a sender's log

  /** The logs agree on their first n entries. */
  ghost predicate Agree(a: seq<Record>, b: seq<Record>, n: nat) {
    n <= |a| && n <= |b| && a[..n] == b[..n]
  }

  /** Equal terms at a position imply equal prefixes through it. */
  ghost predicate LogMatching(a: seq<Record>, b: seq<Record>) {
    forall k :: 0 <= k < |a| && k < |b| && a[k].term == b[k].term ==> a[..k + 1] == b[..k + 1]
  }

  /** What a log can become while it takes in any part of a sender's log: unchanged, or a prefix of
      the sender's that kept all of the old log unless the two conflicted. */
  ghost predicate Absorbed(before: seq<Record>, sender: seq<Record>, x: seq<Record>) {
    x == before || (x <= sender && (before <= x || Conflict(before, sender, x)))
  }

  ghost predicate Conflict(before: seq<Record>, sender: seq<Record>, x: seq<Record>) {
    exists k :: 0 <= k <= |x| && k < |before| && k < |sender|
                && before[k].term != sender[k].term && before[..k] == sender[..k]
  }

  /** A request cut from the sender's log, accepted: the log agrees with the sender through the end
      of the request and lost nothing that did not conflict. */
  lemma {:induction false} MergeAbsorbs(log: seq<Record>, sender: seq<Record>, prev: nat, count: nat)
    requires prev + count <= |sender|
    requires LogMatching(log, sender)
    requires Matches(log, prev, TermAt(sender, prev))
    ensures var x := Merge(log, prev, sender[prev..prev + count]);
            Absorbed(log, sender, x) && Agree(x, sender, prev + count)
  {
    var entries := sender[prev..prev + count];
    MergeClosedForm(log, prev, entries);
    HeldMeaning(log, prev, entries);
    var h := Held(log, prev, entries);
    var x := Merge(log, prev, entries);
    assert log[..prev] == sender[..prev] by {
      if prev > 0 { assert log[prev - 1].term == sender[prev - 1].term; }
    }
    assert log[..prev + h] == sender[..prev + h] by {
      if h > 0 { assert log[prev + (h - 1)].term == entries[h - 1].term == sender[prev + h - 1].term; }
    }
    if h < count {
      assert entries[h..] == sender[prev + h..prev + count];
      assert x == sender[..prev + count];
      if prev + h < |log| {
        assert log[prev + h].term != sender[prev + h].term;
        assert Conflict(log, sender, x);
      } else {
        assert log == log[..prev + h];
        assert log <= x;
      }
    }
  }

  /** A redelivered older request of the same sender, after the log caught up further, changes
      nothing. */
  lemma {:induction false} StaleRequestIsNoOp(log: seq<Record>, sender: seq<Record>, prev: nat, count: nat, upTo: nat)
    requires prev + count <= upTo && Agree(log, sender, upTo)
    ensures AppendAfter(log, prev, TermAt(sender, prev), sender[prev..prev + count]) == (true, log)
  {
    var entries := sender[prev..prev + count];
    assert forall k :: 0 <= k < upTo ==> log[k] == log[..upTo][k] && sender[k] == sender[..upTo][k];
    MergeClosedForm(log, prev, entries);
    HeldMeaning(log, prev, entries);
    assert forall i :: 0 <= i < count ==> entries[i] == sender[prev + i];
  }

  // ------------------------------------------------------------- a crash part-way

  /** The durable log if the process dies after j entries, or (mid) between the truncate and the
      store of entry j. */
  function CrashPoint(log: seq<Record>, prev: nat, entries: seq<Record>, j: nat, mid: bool): seq<Record>
    requires prev <= |log| && j <= |entries|
  {
    var x := Merge(log, prev, entries[..j]);
    if mid && j < |entries| && prev + j < |x| && x[prev + j].term != entries[j].term then x[..prev + j] else x
  }

  lemma {:induction false} CrashAbsorbs(log: seq<Record>, sender: seq<Record>, prev: nat, count: nat, j: nat, mid: bool)
    requires prev + count <= |sender| && j <= count
    requires LogMatching(log, sender)
    requires Matches(log, prev, TermAt(sender, prev))
    ensures Absorbed(log, sender, CrashPoint(log, prev, sender[prev..prev + count], j, mid))
  {
    var entries := sender[prev..prev + count];
    assert entries[..j] == sender[prev..prev + j];
    MergeAbsorbs(log, sender, prev, j);
    MergeClosedForm(log, prev, entries[..j]);
    var x := Merge(log, prev, entries[..j]);
    if mid && j < count && prev + j < |x| && x[prev + j].term != entries[j].term {
      var y := x[..prev + j];
      assert y == sender[..prev + j];
      assert entries[j] == sender[prev + j];
      assert x == log;
      assert Conflict(log, sender, y) by { assert 0 <= prev + j <= |y|; }
    }
  }
}
