/** What happened in a run: the record the proofs reason over. Nothing a node does depends on it. */
module Histories {
  import opened Records
  import Configs
  import LogSpec

  /** A vote, with the voter's log when it was cast; early means nobody had won the term yet. */
  datatype Vote = Vote(candidate: NodeId, log: seq<Record>, early: bool)

  /** One term's leadership: who, the log it was elected with, and that log as extended since. */
  datatype Reign = Reign(leader: NodeId, elected: seq<Record>, log: seq<Record>)

  /** A write whose proposer was told it succeeded, with the term its node was in by then. */
  datatype Ack = Ack(node: NodeId, term: nat, index: nat, record: Record)

  /** A read-index round: the term and commit index captured, whether nothing inherited from earlier
      leaders was left above it, what had been acknowledged anywhere, and every node's term then. */
  datatype Read = Read(node: NodeId, term: nat, index: nat, settled: bool, acked: set<Ack>, terms: map<NodeId, nat>)

  datatype Applied = Applied(node: NodeId, index: nat, record: Record)

  datatype History = History(
    nodes: set<NodeId>,
    reigns: map<nat, Reign>,
    votes: map<(NodeId, nat), Vote>,
    accepted: map<(NodeId, nat), nat>,
    marked: map<nat, nat>,
    wins: set<(NodeId, nat)>,
    acked: set<Ack>,
    rounds: map<nat, Read>,
    applied: set<Applied>)

  /** How long a prefix of the term's leader log a node has acknowledged. */
  function AcceptedLen(h: History, n: NodeId, term: nat): nat {
    if (n, term) in h.accepted then h.accepted[(n, term)] else 0
  }

  /** The highest index the term's leader has marked committed by counting. */
  function MarkedLen(h: History, term: nat): nat {
    if term in h.marked then h.marked[term] else 0
  }

  /** Some leader of term at most bound has marked the first c entries of its log. */
  ghost predicate MarkedBy(h: History, c: nat, bound: nat) {
    c == 0 || exists term: nat :: term <= bound && c <= MarkedLen(h, term)
  }

  function Holders(h: History, term: nat, i: nat): set<NodeId> {
    set n | n in h.nodes && AcceptedLen(h, n, term) >= i
  }

  /** Index i of the term's leader log is of that term and a quorum accepted it from that leader. */
  ghost predicate Committed(h: History, term: nat, i: nat) {
    && term in h.reigns
    && 1 <= i <= |h.reigns[term].log|
    && h.reigns[term].log[i - 1].term == term
    && Configs.IsQuorum(h.nodes, Holders(h, term, i))
  }

  /** The first c entries of a log are committed, by some leader of term at most bound. */
  ghost predicate CommittedPrefix(h: History, log: seq<Record>, c: nat, bound: nat) {
    c == 0 || exists term, i :: CommittedBy(h, log, c, bound, term, i)
  }

  ghost predicate CommittedBy(h: History, log: seq<Record>, c: nat, bound: nat, term: nat, i: nat) {
    term <= bound && c <= i && Committed(h, term, i) && LogSpec.Agree(log, h.reigns[term].log, c)
  }

  function Electors(h: History, term: nat): set<NodeId>
    requires term in h.reigns
  {
    set v | v in h.nodes && (v, term) in h.votes
            && h.votes[(v, term)].early && h.votes[(v, term)].candidate == h.reigns[term].leader
  }

  /** Every prefix of the log that ends in term T is a prefix of T's leader log. */
  ghost predicate LogOk(h: History, log: seq<Record>) {
    forall k :: 0 <= k < |log| ==> EntryOk(h, log, k)
  }

  ghost predicate EntryOk(h: History, log: seq<Record>, k: nat)
    requires k < |log|
  {
    log[k].index == k + 1 && log[k].term in h.reigns && log[..k + 1] <= h.reigns[log[k].term].log
  }

  ghost predicate TermsBelow(log: seq<Record>, bound: nat) {
    forall k :: 0 <= k < |log| ==> log[k].term < bound
  }

  /** The first i entries of the term's leader log, none if it has no such prefix. */
  function LeaderPrefix(h: History, term: nat, i: nat): seq<Record> {
    if term in h.reigns && i <= |h.reigns[term].log| then h.reigns[term].log[..i] else []
  }

  /** The log still holds the first i entries of the term's leader log, or some leader of a term in
      between, below the bound, was elected without them. */
  ghost predicate Retained(h: History, log: seq<Record>, term: nat, i: nat, bound: nat) {
    || LeaderPrefix(h, term, i) <= log
    || exists t :: Superseded(h, term, i, t, bound)
  }

  ghost predicate Superseded(h: History, term: nat, i: nat, t: nat, bound: nat) {
    term < t < bound && t in h.reigns && !(LeaderPrefix(h, term, i) <= h.reigns[t].elected)
  }

  /** Everything a node accepted from leaders of terms below the bound is retained. */
  ghost predicate AllRetained(h: History, n: NodeId, log: seq<Record>, bound: nat) {
    forall term: nat, i: nat {:trigger Retained(h, log, term, i, bound)} ::
      i <= AcceptedLen(h, n, term) && term < bound ==> Retained(h, log, term, i, bound)
  }

  // ------------------------------------------------------------- invariants of the record

  ghost predicate ReignOk(h: History, term: nat)
    requires term in h.reigns
  {
    var r := h.reigns[term];
    && r.leader in h.nodes
    && r.elected <= r.log
    && TermsBelow(r.elected, term)
    && (forall k :: |r.elected| <= k < |r.log| ==> r.log[k].term == term)
    && LogOk(h, r.log)
    && AcceptedLen(h, r.leader, term) == |r.log|
    && (r.leader, term) in h.votes && h.votes[(r.leader, term)].log == r.elected
    && Configs.IsQuorum(h.nodes, Electors(h, term))
  }

  ghost predicate ReignsOk(h: History) {
    forall term :: term in h.reigns ==> ReignOk(h, term)
  }

  ghost predicate AcceptedOk(h: History) {
    forall n: NodeId, term: nat :: AcceptedLen(h, n, term) > 0 ==>
                        term in h.reigns && AcceptedLen(h, n, term) <= |h.reigns[term].log|
  }

  /** A vote went to a candidate that voted for itself, and whose log was at least as complete. */
  ghost predicate VoteOk(h: History, v: NodeId, term: nat)
    requires (v, term) in h.votes
  {
    var vote := h.votes[(v, term)];
    && (vote.candidate, term) in h.votes
    && vote.candidate in h.nodes
    && var own := h.votes[(vote.candidate, term)];
    && own.candidate == vote.candidate
    && TermsBelow(own.log, term)
    && LogOk(h, own.log) && LogOk(h, vote.log)
    && AtLeast(own.log, vote.log)
    && (term !in h.reigns ==> vote.early)
    && (vote.early ==> AllRetained(h, v, vote.log, term))
  }

  /** The election restriction, between two logs. */
  ghost predicate AtLeast(a: seq<Record>, b: seq<Record>) {
    LastTerm(a) > LastTerm(b) || (LastTerm(a) == LastTerm(b) && |a| >= |b|)
  }

  ghost predicate VotesOk(h: History) {
    forall v, term :: (v, term) in h.votes ==> VoteOk(h, v, term)
  }

  ghost predicate WinsOk(h: History) {
    forall n, term :: (n, term) in h.wins <==> term in h.reigns && h.reigns[term].leader == n
  }

  ghost predicate MarkedOk(h: History) {
    forall term: nat :: MarkedLen(h, term) > 0 ==> Committed(h, term, MarkedLen(h, term))
  }

  lemma MarkedCommitted(h: History, term: nat)
    requires MarkedOk(h) && MarkedLen(h, term) > 0
    ensures Committed(h, term, MarkedLen(h, term))
    ensures term in h.reigns && MarkedLen(h, term) <= |h.reigns[term].log|
  {
  }

  ghost predicate AckOk(h: History, a: Ack) {
    exists term: nat :: AckBy(h, a, term)
  }

  /** The leader of a term has marked the record at its index. */
  ghost predicate AckBy(h: History, a: Ack, term: nat) {
    && term <= a.term && term in h.reigns
    && 1 <= a.index <= MarkedLen(h, term) && a.index <= |h.reigns[term].log|
    && h.reigns[term].log[a.index - 1] == a.record
  }

  ghost predicate CommittedAt(h: History, index: nat, record: Record) {
    exists term, i :: Committed(h, term, i) && 1 <= index <= i && h.reigns[term].log[index - 1] == record
  }

  function NewerAt(r: Read, term: nat): set<NodeId> {
    set q | q in r.terms && r.terms[q] >= term
  }

  ghost predicate ReadOk(h: History, r: Read) {
    && r.terms.Keys == h.nodes
    && r.node in h.nodes
    && r.terms[r.node] == r.term
    && r.acked <= h.acked
    && (forall a :: a in r.acked ==> (r.settled ==> a.index <= r.index) || Configs.IsQuorum(h.nodes, NewerAt(r, r.term + 1)))
  }

  ghost predicate HistInv(h: History) {
    && "" !in h.nodes
    && AcceptedOk(h)
    && ReignsOk(h)
    && VotesOk(h)
    && WinsOk(h)
    && MarkedOk(h)
    && (forall a :: a in h.acked ==> AckOk(h, a))
    && (forall e :: e in h.applied ==> CommittedAt(h, e.index, e.record))
    && (forall r :: r in h.rounds ==> ReadOk(h, h.rounds[r]))
  }

  // --------------------------------------------------------------------- log facts

  lemma LogOkTake(h: History, log: seq<Record>, n: nat)
    requires LogOk(h, log) && n <= |log|
    ensures LogOk(h, log[..n])
  {
    forall k | 0 <= k < n ensures EntryOk(h, log[..n], k) {
      assert EntryOk(h, log, k);
      assert log[..n][..k + 1] == log[..k + 1];
    }
  }

  /** The Log Matching property, for any two logs of the run. */
  lemma LogsMatch(h: History, a: seq<Record>, b: seq<Record>)
    requires LogOk(h, a) && LogOk(h, b)
    ensures LogSpec.LogMatching(a, b)
  {
    forall k | 0 <= k < |a| && k < |b| && a[k].term == b[k].term ensures a[..k + 1] == b[..k + 1] {
      assert EntryOk(h, a, k) && EntryOk(h, b, k);
      var l := h.reigns[a[k].term].log;
      assert a[..k + 1] == l[..k + 1] == b[..k + 1];
    }
  }

  lemma ReignTerms(h: History, term: nat, k: nat)
    requires ReignsOk(h) && term in h.reigns && k < |h.reigns[term].log|
    ensures h.reigns[term].log[k].term <= term
    ensures k < |h.reigns[term].elected| <==> h.reigns[term].log[k].term < term
  {
    assert ReignOk(h, term);
    var r := h.reigns[term];
    if k < |r.elected| { assert r.elected[k] == r.log[k]; }
  }

  /** Terms never decrease along a log. */
  lemma TermsMonotone(h: History, log: seq<Record>, j: nat, k: nat)
    requires ReignsOk(h) && LogOk(h, log) && j <= k < |log|
    ensures log[j].term <= log[k].term
  {
    assert EntryOk(h, log, k);
    var l := h.reigns[log[k].term].log;
    assert log[..k + 1][j] == l[j];
    ReignTerms(h, log[k].term, j);
  }

  lemma IndexedLog(h: History, log: seq<Record>)
    requires LogOk(h, log)
    ensures Indexed(log)
    ensures LastIndex(log) == |log|
  {
    forall k | 0 <= k < |log| ensures log[k].index == k + 1 { assert EntryOk(h, log, k); }
  }

  // -------------------------------------------------------------- leader completeness

  /** Two logs that end in the same term: the longer one extends the shorter. */
  lemma SameLastTerm(h: History, a: seq<Record>, b: seq<Record>)
    requires LogOk(h, a) && LogOk(h, b) && 0 < |b| <= |a| && LastTerm(a) == LastTerm(b)
    ensures b <= a
  {
    assert EntryOk(h, a, |a| - 1) && EntryOk(h, b, |b| - 1);
    assert a == a[..|a|] <= h.reigns[LastTerm(a)].log;
    assert b == b[..|b|] <= h.reigns[LastTerm(a)].log;
    assert b == h.reigns[LastTerm(a)].log[..|b|] == a[..|b|];
  }

  /** A log that ends in a later term than a prefix of that term's leader log holds all of it, once
      that later leader does. */
  lemma LaterLastTerm(h: History, term: nat, i: nat, a: seq<Record>)
    requires ReignsOk(h) && LogOk(h, a) && |a| > 0 && LastTerm(a) > term
    requires term in h.reigns && i <= |h.reigns[term].log|
    requires LastTerm(a) in h.reigns && h.reigns[term].log[..i] <= h.reigns[LastTerm(a)].log
    ensures h.reigns[term].log[..i] <= a
  {
    var p, l := h.reigns[term].log[..i], h.reigns[LastTerm(a)].log;
    assert EntryOk(h, a, |a| - 1);
    assert a == a[..|a|] <= l;
    if |a| < i {
      ReignTerms(h, term, |a| - 1);
      assert false;
    }
    assert p == l[..i] == a[..i];
  }

  /** An elector that accepted the entry still held it, unless a leader in between lacked it. */
  lemma ElectorHolds(h: History, term: nat, i: nat, later: nat) returns (v: NodeId)
    requires HistInv(h) && Committed(h, term, i)
    requires later in h.reigns && term < later
    ensures (v, later) in h.votes && LogOk(h, h.votes[(v, later)].log)
    ensures LogOk(h, h.reigns[later].elected) && TermsBelow(h.reigns[later].elected, later)
    ensures AtLeast(h.reigns[later].elected, h.votes[(v, later)].log)
    ensures Retained(h, h.votes[(v, later)].log, term, i, later)
  {
    assert ReignOk(h, later);
    v := Configs.QuorumsMeet(h.nodes, Holders(h, term, i), Electors(h, later));
    assert VoteOk(h, v, later);
  }

  /** An entry a quorum accepted from its own term's leader was in the log every later leader was
      elected with, together with everything before it. */
  lemma LeaderCompleteness(h: History, term: nat, i: nat, later: nat)
    requires HistInv(h) && Committed(h, term, i)
    requires later in h.reigns && term < later
    ensures h.reigns[term].log[..i] <= h.reigns[later].elected
    decreases later
  {
    hide AckOk, CommittedAt, ReadOk, MarkedOk, AllRetained, Configs.IsQuorum, Holders, Electors, VoteOk;
    var p := h.reigns[term].log[..i];
    var v := ElectorHolds(h, term, i, later);
    var voter, own := h.votes[(v, later)].log, h.reigns[later].elected;
    if !(p <= voter) {
      var t :| Superseded(h, term, i, t, later);
      LeaderCompleteness(h, term, i, t);
      assert false;
    }
    assert voter[i - 1] == p[i - 1];
    TermsMonotone(h, voter, i - 1, |voter| - 1);
    if LastTerm(own) == LastTerm(voter) {
      SameLastTerm(h, own, voter);
    } else {
      assert EntryOk(h, own, |own| - 1);
      LeaderCompleteness(h, term, i, LastTerm(own));
      assert ReignOk(h, LastTerm(own));
      LaterLastTerm(h, term, i, own);
    }
  }

  /** Two committed entries never disagree: the shorter committed prefix is a prefix of the longer. */
  lemma CommittedAgree(h: History, t1: nat, i1: nat, t2: nat, i2: nat, c: nat)
    requires HistInv(h) && Committed(h, t1, i1) && Committed(h, t2, i2)
    requires c <= i1 && c <= i2
    ensures h.reigns[t1].log[..c] == h.reigns[t2].log[..c]
  {
    if t1 < t2 {
      LeaderCompleteness(h, t1, i1, t2);
      assert ReignOk(h, t2);
      CommonPrefix(h.reigns[t1].log, h.reigns[t2].log, i1, c);
    } else if t2 < t1 {
      LeaderCompleteness(h, t2, i2, t1);
      assert ReignOk(h, t1);
      CommonPrefix(h.reigns[t2].log, h.reigns[t1].log, i2, c);
    }
  }

  lemma CommonPrefix(a: seq<Record>, b: seq<Record>, i: nat, c: nat)
    requires c <= i <= |a| && a[..i] <= b
    ensures a[..c] == b[..c]
  {
    assert a[..i][..c] == a[..c];
    assert b[..i][..c] == b[..c];
  }
}
