/** The inductive invariant: what the history says of every node and every message, and how those
    statements survive the history growing. */
module Invariants {
  import opened Records
  import Engines
  import Configs
  import LogSpec
  import Messages
  import opened NodeSpec
  import opened Histories
  import Cluster

  // --------------------------------------------------------------------- one node

  ghost predicate VoteState(h: History, n: NodeId, s: NodeState) {
    && (forall term :: term > s.currentTerm ==> (n, term) !in h.votes)
    && s.votedFor == (if (n, s.currentTerm) in h.votes then h.votes[(n, s.currentTerm)].candidate else NOBODY)
  }

  ghost predicate AcceptState(h: History, n: NodeId, s: NodeState) {
    && (forall term :: term > s.currentTerm ==> AcceptedLen(h, n, term) == 0)
    && (forall term :: term in h.reigns && h.reigns[term].leader == n ==> term <= s.currentTerm)
    && AllRetained(h, n, s.log, s.currentTerm + 1)
  }

  ghost predicate LeaderState(h: History, n: NodeId, s: NodeState) {
    && s.currentTerm in h.reigns
    && h.reigns[s.currentTerm].leader == n
    && s.log == h.reigns[s.currentTerm].log
    && (forall p :: p in h.nodes && p != n ==>
          && 1 <= Get(s.nextIndex, p) <= |s.log| + 1
          && Get(s.matchIndex, p) <= AcceptedLen(h, p, s.currentTerm))
    && MarkedLen(h, s.currentTerm) <= s.commitIndex
  }

  ghost predicate CandidateState(h: History, n: NodeId, s: NodeState) {
    && (n, s.currentTerm) in h.votes
    && h.votes[(n, s.currentTerm)].candidate == n
    && h.votes[(n, s.currentTerm)].log == s.log
    && (s.currentTerm in h.reigns ==> h.reigns[s.currentTerm].leader != n)
  }

  ghost predicate AppliedState(h: History, s: NodeState) {
    && s.commitIndex <= |s.log| && s.lastApplied <= |s.log|
    && CommittedPrefix(h, s.log, s.commitIndex, s.currentTerm) && MarkedBy(h, s.commitIndex, s.currentTerm)
    && CommittedPrefix(h, s.log, s.lastApplied, s.currentTerm)
    && s.store == Engines.Replay(s.log[..s.lastApplied])
  }

  ghost predicate TermState(h: History, n: NodeId, s: NodeState) {
    forall r :: r in h.rounds ==> n in h.rounds[r].terms && h.rounds[r].terms[n] <= s.currentTerm
  }

  ghost predicate NodeInv(h: History, n: NodeId, s: NodeState) {
    && LogOk(h, s.log)
    && TermsBelow(s.log, s.currentTerm + 1)
    && VoteState(h, n, s)
    && AcceptState(h, n, s)
    && (s.role == Leader ==> LeaderState(h, n, s))
    && (s.role == Candidate ==> CandidateState(h, n, s))
    && AppliedState(h, s)
    && TermState(h, n, s)
  }

  // ------------------------------------------------------------------- one message

  ghost predicate MsgInv(h: History, m: Cluster.Message) {
    match m
    case VoteReq(to, req) =>
      && to != req.candidateId && req.candidateId in h.nodes
      && (req.candidateId, req.term) in h.votes
      && var vote := h.votes[(req.candidateId, req.term)];
      && vote.candidate == req.candidateId
      && req.lastLogIndex == |vote.log| && req.lastLogTerm == LastTerm(vote.log)
    case VoteResp(from, req, resp) =>
      resp.voteGranted ==>
        from in h.nodes && (from, req.term) in h.votes && h.votes[(from, req.term)].candidate == req.candidateId
    case AppendReq(to, req, round) =>
      && RequestInv(h, req)
      && to != req.leaderId
      && (round > 0 ==> round in h.rounds)
    case AppendResp(from, req, resp, round) =>
      && from in h.nodes
      && RequestInv(h, req)
      && (resp.success ==> AcceptedLen(h, from, req.term) >= req.prevLogIndex + |req.entries|)
      && (round > 0 ==> round in h.rounds && from in h.rounds[round].terms)
      && (round > 0 && resp.success ==> h.rounds[round].terms[from] <= req.term)
  }

  /** A replication request is a slice of its term's leader log. */
  ghost predicate RequestInv(h: History, req: Messages.AppendEntriesRequest) {
    && req.term in h.reigns
    && var r := h.reigns[req.term];
    && req.leaderId == r.leader
    && req.prevLogIndex + |req.entries| <= |r.log|
    && req.prevLogTerm == TermAt(r.log, req.prevLogIndex)
    && req.entries == r.log[req.prevLogIndex..req.prevLogIndex + |req.entries|]
    && req.leaderCommit <= |r.log|
    && CommittedPrefix(h, r.log, req.leaderCommit, req.term) && MarkedBy(h, req.leaderCommit, req.term)
  }

  // -------------------------------------------------------------------- the system

  ghost predicate Inv(s: Cluster.System) {
    && Cluster.ValidCluster(s.cfgs)
    && s.nodes.Keys == s.cfgs.Keys == s.h.nodes
    && HistInv(s.h)
    && (forall n :: n in s.nodes ==> NodeInv(s.h, n, s.nodes[n]))
    && (forall m :: m in s.net ==> MsgInv(s.h, m))
  }

  // ------------------------------------------------------- the history only grows

  ghost predicate Grows(h: History, g: History) {
    && g.nodes == h.nodes
    && (forall t :: t in h.reigns ==>
          && t in g.reigns && g.reigns[t].leader == h.reigns[t].leader
          && g.reigns[t].elected == h.reigns[t].elected && h.reigns[t].log <= g.reigns[t].log)
    && (forall v, t :: (v, t) in h.votes ==> (v, t) in g.votes && g.votes[(v, t)] == h.votes[(v, t)])
    && (forall v, t :: AcceptedLen(h, v, t) <= AcceptedLen(g, v, t))
    && (forall t: nat :: MarkedLen(h, t) <= MarkedLen(g, t))
    && h.acked <= g.acked
    && h.applied <= g.applied
    && (forall r :: r in h.rounds ==> r in g.rounds && g.rounds[r] == h.rounds[r])
  }

  /** Only node n made history. */
  ghost predicate GrowsBy(h: History, g: History, n: NodeId) {
    && Grows(h, g)
    && (forall v, t :: v != n && (v, t) in g.votes ==> (v, t) in h.votes)
    && (forall v, t :: v != n ==> AcceptedLen(g, v, t) == AcceptedLen(h, v, t))
    && (forall t :: t in g.reigns && g.reigns[t].leader != n ==> t in h.reigns && g.reigns[t] == h.reigns[t])
    && (forall t :: t in g.reigns && g.reigns[t].leader != n ==> MarkedLen(g, t) == MarkedLen(h, t))
    && g.rounds == h.rounds
  }

  /** What a voter accepted below a term it voted in is settled. */
  ghost predicate VotersSettled(h: History, g: History) {
    forall v, t, u :: (v, t) in h.votes && u < t ==> AcceptedLen(g, v, u) == AcceptedLen(h, v, u)
  }

  lemma LogOkGrows(h: History, g: History, log: seq<Record>)
    requires Grows(h, g) && LogOk(h, log)
    ensures LogOk(g, log)
  {
    forall k | 0 <= k < |log| ensures EntryOk(g, log, k) {
      assert EntryOk(h, log, k);
    }
  }

  lemma CommittedGrows(h: History, g: History, t: nat, i: nat)
    requires Grows(h, g) && Committed(h, t, i)
    ensures Committed(g, t, i)
    ensures g.reigns[t].log[..i] == h.reigns[t].log[..i]
  {
    Configs.QuorumGrows(h.nodes, Holders(h, t, i), Holders(g, t, i));
  }

  lemma CommittedPrefixGrows(h: History, g: History, log: seq<Record>, c: nat, b: nat, b': nat)
    requires Grows(h, g) && CommittedPrefix(h, log, c, b) && b <= b'
    ensures CommittedPrefix(g, log, c, b')
  {
    if c > 0 {
      var t: nat, i: nat :| CommittedBy(h, log, c, b, t, i);
      CommittedGrows(h, g, t, i);
      assert g.reigns[t].log[..i][..c] == g.reigns[t].log[..c];
      assert h.reigns[t].log[..i][..c] == h.reigns[t].log[..c];
      assert CommittedBy(g, log, c, b', t, i);
    }
  }

  lemma RetainedGrows(h: History, g: History, log: seq<Record>, t: nat, i: nat, b: nat)
    requires Grows(h, g) && Retained(h, log, t, i, b)
    requires i > 0 ==> t in h.reigns && i <= |h.reigns[t].log|
    ensures Retained(g, log, t, i, b)
  {
    assert LeaderPrefix(g, t, i) == LeaderPrefix(h, t, i);
    if !(LeaderPrefix(h, t, i) <= log) {
      var u :| Superseded(h, t, i, u, b);
      assert Superseded(g, t, i, u, b);
    }
  }

  lemma AllRetainedGrows(h: History, g: History, v: NodeId, log: seq<Record>, b: nat)
    requires AcceptedOk(h) && Grows(h, g) && AllRetained(h, v, log, b)
    requires forall t: nat :: t < b ==> AcceptedLen(g, v, t) == AcceptedLen(h, v, t)
    ensures AllRetained(g, v, log, b)
  {
    forall t: nat, i: nat {:trigger Retained(g, log, t, i, b)} | i <= AcceptedLen(g, v, t) && t < b
      ensures Retained(g, log, t, i, b)
    {
      RetainedGrows(h, g, log, t, i, b);
    }
  }

  lemma RequestGrows(h: History, g: History, req: Messages.AppendEntriesRequest)
    requires Grows(h, g) && RequestInv(h, req)
    ensures RequestInv(g, req)
  {
    var a, b := h.reigns[req.term].log, g.reigns[req.term].log;
    var from, to := req.prevLogIndex, req.prevLogIndex + |req.entries|;
    assert a[from..to] == b[from..to];
    CommittedPrefixGrows(h, g, a, req.leaderCommit, req.term, req.term);
    CommittedPrefixExtends(g, a, b, req.leaderCommit, req.term);
  }

  lemma MarkedByGrows(h: History, g: History, c: nat, bound: nat)
    requires Grows(h, g) && MarkedBy(h, c, bound)
    ensures MarkedBy(g, c, bound)
  {
    if c > 0 {
      var t: nat :| t <= bound && c <= MarkedLen(h, t);
      assert MarkedLen(h, t) <= MarkedLen(g, t);
    }
  }

  lemma CommittedPrefixExtends(h: History, a: seq<Record>, b: seq<Record>, c: nat, bound: nat)
    requires CommittedPrefix(h, a, c, bound) && c <= |a| && c <= |b| && a[..c] == b[..c]
    ensures CommittedPrefix(h, b, c, bound)
  {
    if c > 0 {
      var t: nat, i: nat :| CommittedBy(h, a, c, bound, t, i);
      assert CommittedBy(h, b, c, bound, t, i);
    }
  }

  lemma MsgGrows(h: History, g: History, m: Cluster.Message)
    requires Grows(h, g) && MsgInv(h, m)
    ensures MsgInv(g, m)
  {
    if m.AppendReq? || m.AppendResp? { RequestGrows(h, g, m.areq); }
  }

  /** A node is not affected by the history another node makes. */
  lemma OtherNodeKeeps(h: History, g: History, n: NodeId, v: NodeId, s: NodeState)
    requires HistInv(h) && GrowsBy(h, g, n) && v != n
    requires NodeInv(h, v, s)
    ensures NodeInv(g, v, s)
  {
    hide LogOk, TermsBelow, AllRetained, CommittedPrefix, Engines.Replay, Committed, ReignOk, VoteOk, AckOk, CommittedAt, ReadOk;
    LogOkGrows(h, g, s.log);
    AllRetainedGrows(h, g, v, s.log, s.currentTerm + 1);
    CommittedPrefixGrows(h, g, s.log, s.commitIndex, s.currentTerm, s.currentTerm);
    CommittedPrefixGrows(h, g, s.log, s.lastApplied, s.currentTerm, s.currentTerm);
  }

  // ------------------------------------------- the record's own invariants, growing

  lemma ReignKeeps(h: History, g: History, t: nat)
    requires Grows(h, g) && t in h.reigns && ReignOk(h, t)
    requires g.reigns[t] == h.reigns[t]
    requires AcceptedLen(g, h.reigns[t].leader, t) == AcceptedLen(h, h.reigns[t].leader, t)
    ensures ReignOk(g, t)
  {
    LogOkGrows(h, g, h.reigns[t].log);
    Configs.QuorumGrows(h.nodes, Electors(h, t), Electors(g, t));
  }

  lemma ReignsKeep(h: History, g: History, except: set<nat>)
    requires ReignsOk(h) && Grows(h, g)
    requires forall t :: t in h.reigns && t !in except ==>
               && g.reigns[t] == h.reigns[t]
               && AcceptedLen(g, h.reigns[t].leader, t) == AcceptedLen(h, h.reigns[t].leader, t)
    ensures forall t :: t in h.reigns && t !in except ==> ReignOk(g, t)
  {
    hide ReignOk;
    forall t | t in h.reigns && t !in except ensures ReignOk(g, t) {
      assert ReignOk(h, t);
      ReignKeeps(h, g, t);
    }
  }

  lemma VoteKeeps(h: History, g: History, v: NodeId, t: nat)
    requires AcceptedOk(h) && Grows(h, g) && VotersSettled(h, g)
    requires (v, t) in h.votes && VoteOk(h, v, t)
    ensures VoteOk(g, v, t)
  {
    hide LogOk, AllRetained, TermsBelow, AtLeast;
    var vote := h.votes[(v, t)];
    LogOkGrows(h, g, vote.log);
    LogOkGrows(h, g, h.votes[(vote.candidate, t)].log);
    if vote.early { AllRetainedGrows(h, g, v, vote.log, t); }
  }

  lemma VotesKeep(h: History, g: History)
    requires AcceptedOk(h) && VotesOk(h) && Grows(h, g) && VotersSettled(h, g)
    ensures forall v, t :: (v, t) in h.votes ==> VoteOk(g, v, t)
  {
    hide VoteOk;
    forall v, t | (v, t) in h.votes ensures VoteOk(g, v, t) {
      assert VoteOk(h, v, t);
      VoteKeeps(h, g, v, t);
    }
  }

  lemma CommittedAtGrows(h: History, g: History, index: nat, record: Record)
    requires Grows(h, g) && CommittedAt(h, index, record)
    ensures CommittedAt(g, index, record)
  {
    var t: nat, i: nat :| Committed(h, t, i) && 1 <= index <= i && h.reigns[t].log[index - 1] == record;
    CommittedGrows(h, g, t, i);
    assert g.reigns[t].log[..i][index - 1] == record;
  }

  lemma ReadGrows(h: History, g: History, r: Read)
    requires Grows(h, g) && ReadOk(h, r)
    ensures ReadOk(g, r)
  {
    hide Configs.IsQuorum, NewerAt;
  }

  lemma MarksKeep(h: History, g: History)
    requires MarkedOk(h) && Grows(h, g) && g.marked == h.marked
    ensures MarkedOk(g)
  {
    hide Committed;
    forall t: nat | MarkedLen(g, t) > 0 ensures Committed(g, t, MarkedLen(g, t)) {
      assert MarkedLen(g, t) == MarkedLen(h, t);
      CommittedGrows(h, g, t, MarkedLen(h, t));
    }
  }

  lemma OutcomesKeep(h: History, g: History)
    requires HistInv(h) && Grows(h, g)
    ensures g.marked == h.marked ==> MarkedOk(g)
    ensures forall a :: a in h.acked ==> AckOk(g, a)
    ensures forall e :: e in h.applied ==> CommittedAt(g, e.index, e.record)
    ensures forall r :: r in h.rounds ==> ReadOk(g, h.rounds[r])
  {
    hide ReignsOk, VotesOk, AcceptedOk, WinsOk, MarkedOk, CommittedAt, ReadOk;
    if g.marked == h.marked { MarksKeep(h, g); }
    forall r | r in h.rounds ensures ReadOk(g, h.rounds[r]) { ReadGrows(h, g, h.rounds[r]); }
    forall a | a in h.acked ensures AckOk(g, a) {
      assert AckOk(h, a);
      var t: nat :| AckBy(h, a, t);
      assert AckBy(g, a, t);
    }
    forall e | e in h.applied ensures CommittedAt(g, e.index, e.record) {
      CommittedAtGrows(h, g, e.index, e.record);
    }
  }

  // ----------------------------------------------------------- carrying one node along

  /** Committing and applying depend only on the log up to the two indexes. */
  lemma AppliedCarries(h: History, g: History, s: NodeState, t: NodeState)
    requires Grows(h, g) && AppliedState(h, s)
    requires t.commitIndex == s.commitIndex && t.lastApplied == s.lastApplied && t.store == s.store
    requires t.currentTerm >= s.currentTerm
    requires LogSpec.Agree(s.log, t.log, s.commitIndex) && LogSpec.Agree(s.log, t.log, s.lastApplied)
    ensures AppliedState(g, t)
  {
    hide Engines.Replay, Committed;
    CommittedPrefixGrows(h, g, s.log, s.commitIndex, s.currentTerm, t.currentTerm);
    CommittedPrefixGrows(h, g, s.log, s.lastApplied, s.currentTerm, t.currentTerm);
    CommittedPrefixExtends(g, s.log, t.log, s.commitIndex, t.currentTerm);
    CommittedPrefixExtends(g, s.log, t.log, s.lastApplied, t.currentTerm);
  }

  lemma RetainedLater(h: History, log: seq<Record>, term: nat, i: nat, b: nat, b': nat)
    requires b <= b' && Retained(h, log, term, i, b)
    ensures Retained(h, log, term, i, b')
  {
    if !(LeaderPrefix(h, term, i) <= log) {
      var u :| Superseded(h, term, i, u, b);
      assert Superseded(h, term, i, u, b');
    }
  }

  /** Moving to a later term with the same log, having accepted nothing in between. */
  lemma AllRetainedLater(h: History, n: NodeId, log: seq<Record>, b: nat, b': nat)
    requires b <= b' && AllRetained(h, n, log, b)
    requires forall t: nat :: t >= b ==> AcceptedLen(h, n, t) == 0
    ensures AllRetained(h, n, log, b')
  {
    forall t: nat, i: nat {:trigger Retained(h, log, t, i, b')} | i <= AcceptedLen(h, n, t) && t < b'
      ensures Retained(h, log, t, i, b')
    {
      if t < b { RetainedLater(h, log, t, i, b, b'); }
    }
  }

  /** While nobody has won the term, no leader of that term can have superseded anything. */
  lemma AllRetainedEarly(h: History, n: NodeId, log: seq<Record>, term: nat)
    requires term !in h.reigns && AllRetained(h, n, log, term + 1)
    ensures AllRetained(h, n, log, term)
  {
    forall u: nat, i: nat {:trigger Retained(h, log, u, i, term)} | i <= AcceptedLen(h, n, u) && u < term
      ensures Retained(h, log, u, i, term)
    {
      assert Retained(h, log, u, i, term + 1);
      if !(LeaderPrefix(h, u, i) <= log) {
        var w :| Superseded(h, u, i, w, term + 1);
        assert Superseded(h, u, i, w, term);
      }
    }
  }

  /** A leader holds all of its own term's log, and extending it loses nothing. */
  lemma LeaderRetains(h: History, g: History, n: NodeId, log: seq<Record>, log': seq<Record>, term: nat)
    requires AcceptedOk(h) && Grows(h, g) && AllRetained(h, n, log, term + 1) && log <= log'
    requires term in g.reigns && g.reigns[term].log == log'
    requires forall u: nat :: u < term ==> AcceptedLen(g, n, u) == AcceptedLen(h, n, u)
    ensures AllRetained(g, n, log', term + 1)
  {
    forall u: nat, i: nat {:trigger Retained(g, log', u, i, term + 1)} | i <= AcceptedLen(g, n, u) && u < term + 1
      ensures Retained(g, log', u, i, term + 1)
    {
      if u < term {
        RetainedGrows(h, g, log, u, i, term + 1);
        if LeaderPrefix(g, u, i) <= log { assert LeaderPrefix(g, u, i) <= log'; }
      }
    }
  }
}
