/** What holds in every run: the safety theorems of the protocol. */
module Safety {
  import opened Records
  import opened Engines
  import Configs
  import opened LogSpec
  import Messages
  import opened NodeSpec
  import opened Histories
  import opened Cluster
  import opened Invariants
  import Preservation
  import Replication
  import opened Commitment

  // ------------------------------------------------------------------ along a run

  lemma GrowsOn(a: History, b: History, c: History)
    requires Grows(a, b) && Grows(b, c)
    ensures Grows(a, c)
  {
  }

  lemma GrowsInPlace(h: History)
    ensures Grows(h, h)
  {
  }

  /** The record of a run only grows. */
  lemma {:induction false} RunGrows(run: seq<System>, i: nat, j: nat)
    requires IsRun(run) && i <= j < |run|
    ensures Grows(run[i].h, run[j].h)
    decreases j
  {
    hide Inv, Init, Enabled, Next, Grows;
    if i == j {
      GrowsInPlace(run[i].h);
    } else {
      RunGrows(run, i, j - 1);
      RunKeeps(run, j - 1);
      assert Steps(run[j - 1], run[j - 1 + 1]);
      var step :| Enabled(run[j - 1], step) && run[j] == Next(run[j - 1], step);
      StepKeeps(run[j - 1], step);
      GrowsOn(run[i].h, run[j - 1].h, run[j].h);
    }
  }

  lemma NodeHolds(s: System, n: NodeId)
    requires Inv(s) && n in s.nodes
    ensures NodeInv(s.h, n, s.nodes[n]) && HistInv(s.h)
  {
    hide ValidCluster, HistInv, NodeInv, MsgInv;
  }

  lemma NodeLogOk(h: History, n: NodeId, s: NodeState)
    requires NodeInv(h, n, s)
    ensures LogOk(h, s.log) && TermsBelow(s.log, s.currentTerm + 1)
  {
    hide LogOk, AcceptState, AppliedState;
  }

  // --------------------------------------------------------------- election safety

  /** At most one node ever wins a term. */
  lemma ElectionSafety(run: seq<System>, i: nat, j: nat, n1: NodeId, n2: NodeId, term: nat)
    requires IsRun(run) && i < |run| && j < |run|
    requires (n1, term) in run[i].h.wins && (n2, term) in run[j].h.wins
    ensures n1 == n2
  {
    RunKeeps(run, i);
    RunKeeps(run, j);
    WinsInHistory(run[i], n1, term);
    WinsInHistory(run[j], n2, term);
    if i <= j { RunGrows(run, i, j); } else { RunGrows(run, j, i); }
  }

  lemma WinsInHistory(s: System, n: NodeId, term: nat)
    requires Inv(s)
    ensures (n, term) in s.h.wins <==> term in s.h.reigns && s.h.reigns[term].leader == n
  {
    hide ValidCluster, NodeInv, MsgInv, ReignsOk, VotesOk, AckOk, CommittedAt, ReadOk, MarkedOk;
  }

  lemma LeaderFacts(s: System, n: NodeId)
    requires Inv(s) && n in s.nodes && s.nodes[n].role == Leader
    ensures s.nodes[n].currentTerm in s.h.reigns
    ensures s.h.reigns[s.nodes[n].currentTerm].leader == n
    ensures s.nodes[n].log == s.h.reigns[s.nodes[n].currentTerm].log
    ensures forall p :: p in s.h.nodes && p != n ==>
              Get(s.nodes[n].matchIndex, p) <= AcceptedLen(s.h, p, s.nodes[n].currentTerm)
  {
    hide ValidCluster, HistInv, MsgInv, LogOk, AcceptState, AppliedState, VoteState;
    assert NodeInv(s.h, n, s.nodes[n]);
  }

  /** No two nodes are ever leader of the same term, at the same time or at different times. */
  lemma OneLeaderPerTerm(run: seq<System>, i: nat, j: nat, n1: NodeId, n2: NodeId)
    requires IsRun(run) && i < |run| && j < |run|
    requires n1 in run[i].nodes && run[i].nodes[n1].role == Leader
    requires n2 in run[j].nodes && run[j].nodes[n2].role == Leader
    requires run[i].nodes[n1].currentTerm == run[j].nodes[n2].currentTerm
    ensures n1 == n2
  {
    hide Inv;
    RunKeeps(run, i);
    RunKeeps(run, j);
    LeaderFacts(run[i], n1);
    LeaderFacts(run[j], n2);
    if i <= j { RunGrows(run, i, j); } else { RunGrows(run, j, i); }
  }

  // --------------------------------------------------- log matching, leader append-only

  /** Two logs of any two states of a run that agree on index and term at one point are identical
      up to it; terms never decrease along a log, and never exceed the node's own. */
  lemma LogMatchingInRun(run: seq<System>, i: nat, j: nat, n1: NodeId, n2: NodeId)
    requires IsRun(run) && i <= j < |run| && n1 in run[i].nodes && n2 in run[j].nodes
    ensures LogMatching(run[i].nodes[n1].log, run[j].nodes[n2].log)
    ensures Indexed(run[i].nodes[n1].log)
    ensures forall k, l :: 0 <= k <= l < |run[i].nodes[n1].log| ==>
              run[i].nodes[n1].log[k].term <= run[i].nodes[n1].log[l].term
    ensures TermsBelow(run[i].nodes[n1].log, run[i].nodes[n1].currentTerm + 1)
  {
    hide Inv, HistInv, NodeInv, LogMatching, LogOk;
    RunKeeps(run, i);
    RunKeeps(run, j);
    NodeHolds(run[i], n1);
    NodeHolds(run[j], n2);
    NodeLogOk(run[i].h, n1, run[i].nodes[n1]);
    NodeLogOk(run[j].h, n2, run[j].nodes[n2]);
    RunGrows(run, i, j);
    LogOkGrows(run[i].h, run[j].h, run[i].nodes[n1].log);
    LogsMatch(run[j].h, run[i].nodes[n1].log, run[j].nodes[n2].log);
    NodeOrdered(run[i].h, n1, run[i].nodes[n1]);
  }

  /** A leader only ever extends its log while it leads. */
  lemma LeaderAppendOnly(run: seq<System>, i: nat, j: nat, n: NodeId)
    requires IsRun(run) && i <= j < |run| && n in run[i].nodes && n in run[j].nodes
    requires run[i].nodes[n].role == Leader && run[j].nodes[n].role == Leader
    requires run[i].nodes[n].currentTerm == run[j].nodes[n].currentTerm
    ensures run[i].nodes[n].log <= run[j].nodes[n].log
  {
    hide Inv;
    RunKeeps(run, i);
    RunKeeps(run, j);
    LeaderFacts(run[i], n);
    LeaderFacts(run[j], n);
    RunGrows(run, i, j);
  }

  /** Whoever stops leading a term it won does not lead it again. */
  lemma NeverLeadsAgain(s: System, step: Step, n: NodeId)
    requires Inv(s) && Enabled(s, step) && n in s.nodes
    requires s.nodes[n].currentTerm in s.h.reigns && s.nodes[n].role != Leader
    ensures n in Next(s, step).nodes
    ensures var b := Next(s, step).nodes[n]; b.currentTerm == s.nodes[n].currentTerm ==> b.role != Leader
  {
    hide Inv, ValidCluster, AppendAfter, CrashPoint, CommitScan, Granted, Answered, BeginRead, VoteRequests, Cast, Crown, Extend, Accept;
    if step.Wins? && step.n == n && s.nodes[n].role == Candidate && s.nodes[n].currentTerm == step.term {
      Preservation.WinIsFirst(s, n, step.term, step.q);
    }
  }

  /** So whoever leads a term at two moments leads it all the while. */
  lemma {:induction false} LeadershipIsUnbroken(run: seq<System>, i: nat, k: nat, j: nat, n: NodeId)
    requires IsRun(run) && i <= k <= j < |run| && n in run[i].nodes && n in run[j].nodes
    requires run[i].nodes[n].role == Leader && run[j].nodes[n].role == Leader
    requires run[i].nodes[n].currentTerm == run[j].nodes[n].currentTerm
    ensures n in run[k].nodes && run[k].nodes[n].role == Leader && run[k].nodes[n].currentTerm == run[i].nodes[n].currentTerm
    decreases j
  {
    hide Inv, Init, Enabled, Next;
    PairIsPersistent(run, i, k, n);
    PairIsPersistent(run, k, j, n);
    if k < j {
      PairIsPersistent(run, i, j - 1, n);
      PairIsPersistent(run, j - 1, j, n);
      RunKeeps(run, i);
      RunKeeps(run, j - 1);
      LeaderFacts(run[i], n);
      RunGrows(run, i, j - 1);
      if run[j - 1].nodes[n].role != Leader {
        assert Steps(run[j - 1], run[j - 1 + 1]);
        var step :| Enabled(run[j - 1], step) && run[j] == Next(run[j - 1], step);
        NeverLeadsAgain(run[j - 1], step, n);
      }
      LeadershipIsUnbroken(run, i, k, j - 1, n);
    }
  }

  // -------------------------------------------------------------- leader completeness

  /** Once a quorum has accepted an entry from a leader of that entry's own term, every leader of
      every later term holds that entry and everything before it. */
  lemma LeaderCompletenessInRun(run: seq<System>, i: nat, j: nat, term: nat, index: nat, n: NodeId)
    requires IsRun(run) && i <= j < |run| && Committed(run[i].h, term, index)
    requires n in run[j].nodes && run[j].nodes[n].role == Leader && run[j].nodes[n].currentTerm >= term
    ensures run[i].h.reigns[term].log[..index] <= run[j].nodes[n].log
  {
    hide Inv, HistInv;
    RunKeeps(run, j);
    RunGrows(run, i, j);
    CommittedGrows(run[i].h, run[j].h, term, index);
    NodeHolds(run[j], n);
    LeaderFacts(run[j], n);
    Replication.LeaderCompletenessHere(run[j].h, term, index, run[j].nodes[n].currentTerm);
  }

  // ------------------------------------------------------------- state machine safety

  lemma CommittedPrefixesAgree(h: History, a: seq<Record>, b: seq<Record>, c: nat, d: nat, ba: nat, bb: nat)
    requires HistInv(h) && CommittedPrefix(h, a, c, ba) && CommittedPrefix(h, b, d, bb)
    requires c <= |a| && d <= |b|
    ensures a[..Min(c, d)] == b[..Min(c, d)]
  {
    hide HistInv, Committed;
    var m := Min(c, d);
    if m > 0 {
      var t1: nat, i1: nat :| CommittedBy(h, a, c, ba, t1, i1);
      var t2: nat, i2: nat :| CommittedBy(h, b, d, bb, t2, i2);
      InReigns(h, t1, i1);
      InReigns(h, t2, i2);
      CommittedAgree(h, t1, i1, t2, i2, m);
      assert a[..c][..m] == a[..m] && h.reigns[t1].log[..c][..m] == h.reigns[t1].log[..m];
      assert b[..d][..m] == b[..m] && h.reigns[t2].log[..d][..m] == h.reigns[t2].log[..m];
    }
  }

  lemma InReigns(h: History, t: nat, i: nat)
    requires Committed(h, t, i)
    ensures t in h.reigns && 1 <= i <= |h.reigns[t].log|
  {
  }

  /** Whatever two applications of one index did, on one node or two, before or after a restart,
      they applied the same record. */
  lemma StateMachineSafety(run: seq<System>, i: nat, j: nat, e: Applied, f: Applied)
    requires IsRun(run) && i <= j < |run|
    requires e in run[i].h.applied && f in run[j].h.applied && e.index == f.index
    ensures e.record == f.record
  {
    hide ValidCluster, NodeInv, MsgInv, ReignsOk, VotesOk, AckOk, ReadOk, MarkedOk, Configs.IsQuorum, Holders;
    RunKeeps(run, j);
    RunGrows(run, i, j);
    var h := run[j].h;
    assert CommittedAt(h, e.index, e.record) && CommittedAt(h, f.index, f.record);
    var t1: nat, i1: nat :| Committed(h, t1, i1) && 1 <= e.index <= i1 && h.reigns[t1].log[e.index - 1] == e.record;
    var t2: nat, i2: nat :| Committed(h, t2, i2) && 1 <= f.index <= i2 && h.reigns[t2].log[f.index - 1] == f.record;
    InReigns(h, t1, i1);
    InReigns(h, t2, i2);
    CommittedAgree(h, t1, i1, t2, i2, e.index);
    assert h.reigns[t1].log[..e.index][e.index - 1] == h.reigns[t2].log[..e.index][e.index - 1];
  }

  lemma NodeApplied(h: History, n: NodeId, s: NodeState)
    requires NodeInv(h, n, s)
    ensures s.lastApplied <= |s.log| && CommittedPrefix(h, s.log, s.lastApplied, s.currentTerm)
    ensures s.commitIndex <= |s.log| && CommittedPrefix(h, s.log, s.commitIndex, s.currentTerm)
    ensures s.store == Replay(s.log[..s.lastApplied])
  {
    hide LogOk, AcceptState, VoteState, LeaderState, CandidateState, TermState, CommittedPrefix, Replay;
  }

  /** A node's map is always the replay of exactly what it applied, and two nodes (or one node at
      two times) that have applied equally far have equal maps. */
  lemma ReplicasAgree(run: seq<System>, i: nat, j: nat, n1: NodeId, n2: NodeId)
    requires IsRun(run) && i <= j < |run| && n1 in run[i].nodes && n2 in run[j].nodes
    ensures var a, b := run[i].nodes[n1], run[j].nodes[n2];
            && a.lastApplied <= |a.log| && b.lastApplied <= |b.log|
            && a.store == Replay(a.log[..a.lastApplied]) && b.store == Replay(b.log[..b.lastApplied])
            && (var m := Min(a.lastApplied, b.lastApplied); a.log[..m] == b.log[..m])
            && (a.lastApplied == b.lastApplied ==> a.store == b.store)
  {
    hide Inv, HistInv, NodeInv, CommittedPrefix, Replay;
    RunKeeps(run, i);
    RunKeeps(run, j);
    RunGrows(run, i, j);
    NodeHolds(run[i], n1);
    NodeHolds(run[j], n2);
    var a, b := run[i].nodes[n1], run[j].nodes[n2];
    NodeApplied(run[i].h, n1, a);
    NodeApplied(run[j].h, n2, b);
    CommittedPrefixGrows(run[i].h, run[j].h, a.log, a.lastApplied, a.currentTerm, a.currentTerm);
    CommittedPrefixesAgree(run[j].h, a.log, b.log, a.lastApplied, b.lastApplied, a.currentTerm, b.currentTerm);
  }

  /** Commit soundness: everything at or below any node's commit index is committed, the node's log
      agrees there with the committing leader's, and any two nodes agree up to the smaller of their
      commit indexes. */
  lemma CommitSoundness(run: seq<System>, i: nat, n1: NodeId, n2: NodeId)
    requires IsRun(run) && i < |run| && n1 in run[i].nodes && n2 in run[i].nodes
    ensures var a, b := run[i].nodes[n1], run[i].nodes[n2];
            && a.commitIndex <= |a.log| && b.commitIndex <= |b.log|
            && CommittedPrefix(run[i].h, a.log, a.commitIndex, a.currentTerm)
            && (var m := Min(a.commitIndex, b.commitIndex); a.log[..m] == b.log[..m])
  {
    hide Inv, HistInv, NodeInv, CommittedPrefix, Replay;
    RunKeeps(run, i);
    NodeHolds(run[i], n1);
    NodeHolds(run[i], n2);
    var a, b := run[i].nodes[n1], run[i].nodes[n2];
    NodeApplied(run[i].h, n1, a);
    NodeApplied(run[i].h, n2, b);
    CommittedPrefixesAgree(run[i].h, a.log, b.log, a.commitIndex, b.commitIndex, a.currentTerm, b.currentTerm);
  }

  // ---------------------------------------------------- nothing committed is truncated

  /** What one step may do to a node's log: extend it, or absorb part of the log of the leader of
      the term the node is then in. */
  ghost predicate LogMoves(h: History, a: NodeState, b: NodeState) {
    || a.log <= b.log
    || (a.currentTerm <= b.currentTerm && b.currentTerm in h.reigns
        && Absorbed(a.log, h.reigns[b.currentTerm].log, b.log))
  }

  lemma StepMovesLogs(s: System, step: Step, n: NodeId)
    requires Inv(s) && Enabled(s, step) && n in s.nodes
    ensures n in Next(s, step).nodes && LogMoves(s.h, s.nodes[n], Next(s, step).nodes[n])
  {
    hide ValidCluster, HistInv, NodeInv, MsgInv, Absorbed;
    if step.Handles? {
      HandleMovesLog(s, step.n, step.areq, step.round, n);
    } else if step.CrashesHandling? {
      CrashMovesLog(s, step.n, step.areq, step.round, step.j, step.mid, n);
    }
  }

  lemma HandleMovesLog(s: System, m: NodeId, req: Messages.AppendEntriesRequest, round: nat, n: NodeId)
    requires Inv(s) && Enabled(s, Handles(m, req, round)) && n in s.nodes
    ensures n in Next(s, Handles(m, req, round)).nodes
    ensures LogMoves(s.h, s.nodes[n], Next(s, Handles(m, req, round)).nodes[n])
  {
    hide ValidCluster, HistInv, NodeInv, MsgInv, Absorbed, GrowsBy, HandleAppendEntries, RequestInv;
    if n == m {
      Replication.HandledRequest(s, m, req, round);
      NodeHolds(s, m);
      Preservation.NodeConfig(s, m);
      Replication.HandleNode(s.h, m, s.nodes[m], req);
      TermInReigns(s.h, req);
    }
  }

  lemma TermInReigns(h: History, req: Messages.AppendEntriesRequest)
    requires RequestInv(h, req)
    ensures req.term in h.reigns
  {
  }

  lemma CrashMovesLog(s: System, m: NodeId, req: Messages.AppendEntriesRequest, round: nat, j: nat, mid: bool, n: NodeId)
    requires Inv(s) && Enabled(s, CrashesHandling(m, req, round, j, mid)) && n in s.nodes
    ensures n in Next(s, CrashesHandling(m, req, round, j, mid)).nodes
    ensures LogMoves(s.h, s.nodes[n], Next(s, CrashesHandling(m, req, round, j, mid)).nodes[n])
  {
    hide ValidCluster, HistInv, NodeInv, MsgInv, Absorbed, CrashPoint, RequestInv;
    if n == m {
      Replication.HandledRequest(s, m, req, round);
      NodeHolds(s, m);
      Replication.CrashNode(s.h, m, s.nodes[m], req, j, mid);
      TermInReigns(s.h, req);
    }
  }

  /** No step, a delivery however late or repeated, or a crash part-way through one, changes a
      node's log at or below an index committed there. */
  lemma CommittedNeverTruncated(s: System, step: Step, n: NodeId, c: nat)
    requires Inv(s) && Enabled(s, step) && n in s.nodes
    requires c <= |s.nodes[n].log| && CommittedPrefix(s.h, s.nodes[n].log, c, s.nodes[n].currentTerm)
    ensures n in Next(s, step).nodes && Agree(s.nodes[n].log, Next(s, step).nodes[n].log, c)
  {
    hide Inv, Enabled, Next, HistInv, NodeInv, CommittedPrefix, Absorbed;
    StepMovesLogs(s, step, n);
    NodeHolds(s, n);
    var a, b := s.nodes[n], Next(s, step).nodes[n];
    if !(a.log <= b.log) {
      Replication.CommittedSurvives(s.h, a.log, c, a.currentTerm, b.currentTerm, b.log);
    }
  }

  /** In particular what a node has marked committed or has applied. */
  lemma MarkedNeverTruncated(run: seq<System>, i: nat, n: NodeId)
    requires IsRun(run) && i + 1 < |run| && n in run[i].nodes
    ensures n in run[i + 1].nodes
    ensures Agree(run[i].nodes[n].log, run[i + 1].nodes[n].log, Max(run[i].nodes[n].commitIndex, run[i].nodes[n].lastApplied))
  {
    hide Inv, Init, Enabled, Next, HistInv, NodeInv, CommittedPrefix;
    RunKeeps(run, i);
    assert Steps(run[i], run[i + 1]);
    var step :| Enabled(run[i], step) && run[i + 1] == Next(run[i], step);
    NodeHolds(run[i], n);
    NodeApplied(run[i].h, n, run[i].nodes[n]);
    CommittedNeverTruncated(run[i], step, n, run[i].nodes[n].commitIndex);
    CommittedNeverTruncated(run[i], step, n, run[i].nodes[n].lastApplied);
  }

  // --------------------------------------------------------------- acknowledged writes

  /** No acknowledged write is lost: the log of the leader of any term from the one its proposer was
      in when it returned, at any later time, holds that very record at its index. */
  lemma AcknowledgedSurvives(run: seq<System>, i: nat, j: nat, a: Ack, n: NodeId)
    requires IsRun(run) && i <= j < |run| && a in run[i].h.acked
    requires n in run[j].nodes && run[j].nodes[n].role == Leader && run[j].nodes[n].currentTerm >= a.term
    ensures 1 <= a.index <= |run[j].nodes[n].log| && run[j].nodes[n].log[a.index - 1] == a.record
  {
    hide Inv, HistInv, AckOk, Committed;
    RunKeeps(run, j);
    RunGrows(run, i, j);
    NodeHolds(run[j], n);
    var h := run[j].h;
    var t := AckMarked(h, a);
    LeaderFacts(run[j], n);
    Replication.LeaderCompletenessHere(h, t, MarkedLen(h, t), run[j].nodes[n].currentTerm);
    assert h.reigns[t].log[..MarkedLen(h, t)][a.index - 1] == a.record;
  }

  /** And every node that has applied that far has applied that record. */
  lemma AcknowledgedApplied(h: History, n: NodeId, s: NodeState, a: Ack)
    requires HistInv(h) && NodeInv(h, n, s) && a in h.acked && s.lastApplied >= a.index
    ensures 1 <= a.index <= s.lastApplied <= |s.log| && s.log[a.index - 1] == a.record
    ensures s.store == Replay(s.log[..s.lastApplied])
  {
    hide HistInv, NodeInv, Committed, Replay;
    var t := AckMarked(h, a);
    NodeApplied(h, n, s);
    var l, i := h.reigns[t].log, MarkedLen(h, t);
    InReigns(h, t, i);
    assert CommittedBy(h, l, a.index, t, t, i);
    CommittedPrefixesAgree(h, s.log, l, s.lastApplied, a.index, s.currentTerm, t);
    assert s.log[..a.index][a.index - 1] == l[..a.index][a.index - 1];
  }

  /** What a proposer goes by shows that its record is committed exactly when its node's log still
      has an entry of the proposal's term at the index. */
  lemma SuccessIsCommittedIff(s: System, n: NodeId, term: nat, index: nat, q: set<NodeId>)
    requires Inv(s) && ProposeSucceeds(s, n, term, index, q)
    ensures CommittedAt(s.h, index, s.h.reigns[term].log[index - 1]) <==> TermAt(s.nodes[n].log, index) == term
  {
    hide Inv, HistInv, NodeInv, Committed, Answered;
    NodeHolds(s, n);
    var mark := MarkedRecord(s.h, n, s.nodes[n], index);
    if TermAt(s.nodes[n].log, index) == term {
      StillProposed(s.h, n, s.nodes[n], term, index);
    } else if CommittedAt(s.h, index, s.h.reigns[term].log[index - 1]) {
      OneCommittedRecord(s.h, index, s.h.reigns[term].log[index - 1], s.nodes[n].log[index - 1]);
    }
  }

  lemma OneCommittedRecord(h: History, index: nat, r: Record, r': Record)
    requires HistInv(h) && CommittedAt(h, index, r) && CommittedAt(h, index, r')
    ensures r == r'
  {
    hide HistInv, Configs.IsQuorum, Holders;
    var t1: nat, i1: nat :| Committed(h, t1, i1) && 1 <= index <= i1 && h.reigns[t1].log[index - 1] == r;
    var t2: nat, i2: nat :| Committed(h, t2, i2) && 1 <= index <= i2 && h.reigns[t2].log[index - 1] == r';
    CommittedAgree(h, t1, i1, t2, i2, index);
    assert h.reigns[t1].log[..index][index - 1] == h.reigns[t2].log[..index][index - 1];
  }

  /** Over a run: when a proposer's conditions are met, the record is in the log of every leader of
      its node's term or a later one, at any later time, if it still has its place; if it does not,
      it is in none of them. */
  lemma SuccessSurvivesIff(run: seq<System>, i: nat, j: nat, n: NodeId, term: nat, index: nat, q: set<NodeId>, l: NodeId)
    requires IsRun(run) && i <= j < |run| && ProposeSucceeds(run[i], n, term, index, q)
    requires l in run[j].nodes && run[j].nodes[l].role == Leader
    requires run[j].nodes[l].currentTerm >= run[i].nodes[n].currentTerm
    ensures index <= |run[j].nodes[l].log|
    ensures run[j].nodes[l].log[index - 1] == run[i].h.reigns[term].log[index - 1]
            <==> TermAt(run[i].nodes[n].log, index) == term
  {
    hide Inv, HistInv, NodeInv, Committed, Answered;
    RunKeeps(run, i);
    RunKeeps(run, j);
    RunGrows(run, i, j);
    NodeHolds(run[i], n);
    NodeHolds(run[j], l);
    LeaderFacts(run[j], l);
    var me, h := run[i].nodes[n], run[j].h;
    var t := MarkedRecord(run[i].h, n, me, index);
    var marked := MarkedLen(run[i].h, t);
    InReigns(run[i].h, t, marked);
    CommittedGrows(run[i].h, h, t, marked);
    Replication.LeaderCompletenessHere(h, t, marked, run[j].nodes[l].currentTerm);
    assert h.reigns[t].log[..marked][index - 1] == run[i].h.reigns[t].log[..marked][index - 1] == me.log[index - 1];
    if TermAt(me.log, index) == term { StillProposed(run[i].h, n, me, term, index); }
  }

  // ------------------------------------------------------------- read linearizability

  lemma ConfirmMeansTerm(s: System, term: nat, round: nat, v: NodeId)
    requires Inv(s) && Confirmed(s, term, round, v) && round > 0
    ensures round in s.h.rounds && v in s.h.rounds[round].terms && s.h.rounds[round].terms[v] <= term
  {
    hide ValidCluster, HistInv, NodeInv, RequestInv;
    var m :| m in s.net && IsConfirm(m, term, round, v);
    assert MsgInv(s.h, m);
  }

  lemma RoundHolds(h: History, round: nat)
    requires HistInv(h) && round in h.rounds
    ensures ReadOk(h, h.rounds[round])
  {
    hide ReignsOk, VotesOk, CommittedAt, AckOk, ReadOk, MarkedOk;
  }

  /** A round confirmed by a majority in the term it captured returns an index at or above every
      index acknowledged anywhere before the round began, given that nothing inherited from earlier
      leaders was left above the captured commit index. */
  lemma ReadIsLinearizable(run: seq<System>, i: nat, round: nat, q: set<NodeId>)
    requires IsRun(run) && i < |run| && round > 0 && round in run[i].h.rounds
    requires var r := run[i].h.rounds[round];
             && r.settled && r.node in q && Configs.IsQuorum(run[i].h.nodes, q)
             && forall p :: p in q && p != r.node ==> Confirmed(run[i], r.term, round, p)
    ensures forall a :: a in run[i].h.rounds[round].acked ==> a.index <= run[i].h.rounds[round].index
  {
    hide Init, Enabled, Next, ValidCluster, HistInv, NodeInv, MsgInv, Confirmed, Configs.IsQuorum;
    RunKeeps(run, i);
    var h := run[i].h;
    var r := h.rounds[round];
    RoundHolds(h, round);
    forall a | a in r.acked ensures a.index <= r.index {
      if Configs.IsQuorum(h.nodes, NewerAt(r, r.term + 1)) {
        var v := Configs.QuorumsMeet(h.nodes, NewerAt(r, r.term + 1), q);
        if v != r.node { ConfirmMeansTerm(run[i], r.term, round, v); }
        assert false;
      }
    }
  }

  /** So once any node has applied up to the returned index, its map reflects every write that was
      acknowledged before the round began. */
  lemma StrongReadSeesAcknowledged(run: seq<System>, i: nat, round: nat, q: set<NodeId>, n: NodeId)
    requires IsRun(run) && i < |run| && round > 0 && round in run[i].h.rounds
    requires var r := run[i].h.rounds[round];
             && r.settled && r.node in q && Configs.IsQuorum(run[i].h.nodes, q)
             && forall p :: p in q && p != r.node ==> Confirmed(run[i], r.term, round, p)
    requires n in run[i].nodes && run[i].nodes[n].lastApplied >= run[i].h.rounds[round].index
    ensures var s := run[i].nodes[n];
            && s.lastApplied <= |s.log| && s.store == Replay(s.log[..s.lastApplied])
            && forall a :: a in run[i].h.rounds[round].acked ==>
                 1 <= a.index <= s.lastApplied && s.log[a.index - 1] == a.record
  {
    hide Init, Enabled, Next, Inv, HistInv, NodeInv, Confirmed, Configs.IsQuorum, Replay, ReadOk, MarkedOk;
    ReadIsLinearizable(run, i, round, q);
    RunKeeps(run, i);
    NodeHolds(run[i], n);
    NodeApplied(run[i].h, n, run[i].nodes[n]);
    RoundAcksKnown(run[i].h, round);
    forall a | a in run[i].h.rounds[round].acked
      ensures 1 <= a.index <= run[i].nodes[n].lastApplied && run[i].nodes[n].log[a.index - 1] == a.record
    {
      AcknowledgedApplied(run[i].h, n, run[i].nodes[n], a);
    }
  }

  lemma RoundAcksKnown(h: History, round: nat)
    requires HistInv(h) && round in h.rounds
    ensures h.rounds[round].acked <= h.acked
  {
    hide ReignsOk, VotesOk, CommittedAt, AckOk;
    assert ReadOk(h, h.rounds[round]);
  }

  // --------------------------------------------------- the persistent pair, and applying

  /** One step: the term never decreases and a vote cast in it never changes, restarts included. */
  lemma PairIsStable(s: System, step: Step, n: NodeId)
    requires Enabled(s, step) && n in s.nodes
    ensures n in Next(s, step).nodes
    ensures var a, b := s.nodes[n], Next(s, step).nodes[n];
            && a.currentTerm <= b.currentTerm
            && (a.currentTerm == b.currentTerm && a.votedFor != NOBODY ==> b.votedFor == a.votedFor)
  {
    hide ValidCluster, AppendAfter, CrashPoint, CommitScan, ApplyRecord, Granted, Acknowledged;
  }

  /** Over a run: the term never decreases, and two votes of one node in one term are for the same
      candidate, crashes in between or not. */
  lemma {:induction false} PairIsPersistent(run: seq<System>, i: nat, j: nat, n: NodeId)
    requires IsRun(run) && i <= j < |run| && n in run[i].nodes
    ensures n in run[j].nodes
    ensures var a, b := run[i].nodes[n], run[j].nodes[n];
            && a.currentTerm <= b.currentTerm
            && (a.currentTerm == b.currentTerm && a.votedFor != NOBODY ==> b.votedFor == a.votedFor)
    decreases j
  {
    hide Init, Enabled, Next;
    if i < j {
      PairIsPersistent(run, i, j - 1, n);
      assert Steps(run[j - 1], run[j - 1 + 1]);
      var step :| Enabled(run[j - 1], step) && run[j] == Next(run[j - 1], step);
      PairIsStable(run[j - 1], step, n);
    }
  }

  lemma RequestsDoNotApply(s: NodeState, req: Messages.AppendEntriesRequest)
    ensures HandleAppendEntries(s, req).0.lastApplied == s.lastApplied && HandleAppendEntries(s, req).0.store == s.store
  {
  }

  lemma VotesDoNotApply(s: NodeState, req: Messages.RequestVoteRequest)
    ensures HandleRequestVote(s, req).0.lastApplied == s.lastApplied && HandleRequestVote(s, req).0.store == s.store
  {
  }

  lemma RepliesDoNotApply(s: NodeState, p: NodeId, req: Messages.AppendEntriesRequest, resp: Messages.AppendEntriesResponse)
    ensures HandleAppendReply(s, p, req, resp).lastApplied == s.lastApplied
    ensures HandleAppendReply(s, p, req, resp).store == s.store
  {
  }

  /** Applying is exactly once and in order: between restarts an index is applied only as the next
      one, and nothing else changes what was applied, even when the commit index moves down. */
  lemma AppliesInOrder(s: System, step: Step, n: NodeId)
    requires Enabled(s, step) && n in s.nodes
    ensures n in Next(s, step).nodes
    ensures var a, b := s.nodes[n], Next(s, step).nodes[n];
            if step == Applies(n) then
              && b.lastApplied == a.lastApplied + 1
              && b.store == ApplyRecord(a.store, a.log[a.lastApplied])
              && Applied(n, b.lastApplied, a.log[a.lastApplied]) in Next(s, step).h.applied
            else if step.n == n && (step.Restarts? || step.CrashesHandling?) then
              b.lastApplied == 0 && b.store == map[]
            else
              b.lastApplied == a.lastApplied && b.store == a.store
  {
    hide ValidCluster, CrashPoint, CommitScan, ApplyRecord, Granted, Acknowledged, BeginRead, VoteRequests, Cast, Crown, Extend, Accept,
      HandleAppendEntries, HandleRequestVote, HandleAppendReply;
    match step
    case Votes(m, req) => VotesDoNotApply(s.nodes[m], req);
    case Handles(m, req, round) => RequestsDoNotApply(s.nodes[m], req);
    case HearsReply(m, from, req, resp) => RepliesDoNotApply(s.nodes[m], from, req, resp);
    case _ =>
  }
}
