/** Commit, apply, acknowledge and read-index steps keep the invariant; and so does every step. */
module Commitment {
  import opened Records
  import Engines
  import opened Configs
  import opened NodeSpec
  import opened Histories
  import opened Cluster
  import opened Invariants
  import opened Preservation
  import opened Replication

  // ----------------------------------------------------------------- advanceCommit

  function Matched(matchIndex: map<NodeId, nat>, ids: set<NodeId>, n: nat): set<NodeId> {
    set p | p in ids && Get(matchIndex, p) >= n
  }

  /** Counting the peer list counts the peers, since their ids are distinct. */
  lemma {:induction false} CountIsCardinality(matchIndex: map<NodeId, nat>, peers: seq<Peer>, n: nat)
    requires forall i, j :: 0 <= i < j < |peers| ==> peers[i].id != peers[j].id
    ensures CountMatches(matchIndex, peers, n) == |Matched(matchIndex, IdsOf(peers), n)|
  {
    if |peers| > 0 {
      var front, last := peers[..|peers| - 1], peers[|peers| - 1].id;
      CountIsCardinality(matchIndex, front, n);
      var ids := IdsOf(front);
      assert IdsOf(peers) == ids + {last};
      MatchedWith(matchIndex, ids, last, n);
    }
  }

  lemma MatchedWith(matchIndex: map<NodeId, nat>, ids: set<NodeId>, p: NodeId, n: nat)
    requires p !in ids
    ensures |Matched(matchIndex, ids + {p}, n)| == |Matched(matchIndex, ids, n)| + if Get(matchIndex, p) >= n then 1 else 0
  {
    var a, b := Matched(matchIndex, ids + {p}, n), Matched(matchIndex, ids, n);
    if Get(matchIndex, p) >= n { assert a == b + {p}; } else { assert a == b; }
  }

  /** A leader's own copy and the peers known to hold index n. */
  function HoldersOf(s: NodeState, c: Config, n: nat): set<NodeId> {
    {c.id} + Matched(s.matchIndex, c.PeerIds(), n)
  }

  lemma MajorityHolds(s: NodeState, c: Config, n: nat)
    requires WellFormed(c)
    ensures 1 + CountMatches(s.matchIndex, c.peers, n) >= c.Majority() <==> IsQuorum(c.Members(), HoldersOf(s, c, n))
  {
    CountIsCardinality(s.matchIndex, c.peers, n);
    MajorityIsQuorum(c, HoldersOf(s, c, n));
  }

  /** Index n is of the leader's current term and a majority is known to hold it. */
  ghost predicate Committable(s: NodeState, c: Config, n: nat) {
    1 <= n <= |s.log| && s.log[n - 1].term == s.currentTerm && IsQuorum(c.Members(), HoldersOf(s, c, n))
  }

  lemma {:induction false} ScanFinds(s: NodeState, c: Config, n: nat)
    requires WellFormed(c)
    requires forall j, k :: 0 <= j <= k < |s.log| ==> s.log[j].term <= s.log[k].term
    requires TermsBelow(s.log, s.currentTerm + 1)
    ensures var r := CommitScan(s, c, n);
            && (r == s.commitIndex || (s.commitIndex < r <= n && Committable(s, c, r)))
            && (forall k :: r < k <= n ==> !Committable(s, c, k))
    decreases n
  {
    hide HoldersOf, IsQuorum, WellFormed;
    if n > s.commitIndex {
      MajorityHolds(s, c, n);
      if n > |s.log| || (s.log[n - 1].term == s.currentTerm && !Committable(s, c, n)) {
        ScanFinds(s, c, n - 1);
      }
    }
  }

  /** The scan picks exactly the highest index above the commit index that is of the current term
      and held by a majority, and leaves the commit index alone when there is none. */
  lemma CommitIsHighest(s: NodeState, c: Config)
    requires WellFormed(c) && s.role == Leader && Indexed(s.log)
    requires forall j, k :: 0 <= j <= k < |s.log| ==> s.log[j].term <= s.log[k].term
    requires TermsBelow(s.log, s.currentTerm + 1)
    ensures var r := AdvanceCommit(s, c).commitIndex;
            && r >= s.commitIndex
            && (r > s.commitIndex ==> Committable(s, c, r))
            && (forall k :: k > r ==> !Committable(s, c, k))
  {
    ScanFinds(s, c, LastIndex(s.log));
  }

  lemma CommitNode(h: History, c: Config, s: NodeState)
    requires HistInv(h) && WellFormed(c) && c.Members() == h.nodes && NodeInv(h, c.id, s)
    ensures var r := AdvanceCommit(s, c).commitIndex;
            var g := if r > s.commitIndex then Mark(h, s.currentTerm, r) else h;
            HistInv(g) && GrowsBy(h, g, c.id) && NodeInv(g, c.id, AdvanceCommit(s, c))
  {
    hide LogOk, AllRetained, HistInv, IsQuorum, WellFormed, CommittedPrefix, AdvanceCommit, Engines.Replay;
    if s.role == Leader {
      NodeOrdered(h, c.id, s);
      CommitIsHighest(s, c);
      var r := AdvanceCommit(s, c).commitIndex;
      CommitOnlyMoves(s, c);
      if r > s.commitIndex {
        LeaderCommits(h, c, s, r);
        MarkKeeps(h, c.id, s, r);
      }
    } else {
      assert AdvanceCommit(s, c) == s by { FollowersDoNotCommit(s, c); }
    }
  }

  lemma MarkKeeps(h: History, n: NodeId, s: NodeState, r: nat)
    requires HistInv(h) && NodeInv(h, n, s) && s.role == Leader && r > s.commitIndex && r <= |s.log|
    requires Committed(h, s.currentTerm, r) && CommittedPrefix(h, s.log, r, s.currentTerm)
    ensures var g := Mark(h, s.currentTerm, r);
            HistInv(g) && GrowsBy(h, g, n) && NodeInv(g, n, s.(commitIndex := r))
  {
    hide LogOk, AllRetained, CommittedPrefix, ReignsOk, VotesOk, AcceptedOk, AckOk, CommittedAt, ReadOk, MarkedOk, Engines.Replay, Holders, IsQuorum;
    var g := Mark(h, s.currentTerm, r);
    MarkGrows(h, n, s, r);
    OutcomeGrows(h, g, n, s);
    CommittedPrefixGrows(h, g, s.log, r, s.currentTerm, s.currentTerm);
    assert r <= MarkedLen(g, s.currentTerm);
    MarkedMore(h, g, s.currentTerm, r);
  }

  lemma MarkGrows(h: History, n: NodeId, s: NodeState, r: nat)
    requires LeaderState(h, n, s) && r >= s.commitIndex
    ensures GrowsBy(h, Mark(h, s.currentTerm, r), n)
  {
    var g := Mark(h, s.currentTerm, r);
    assert forall t: nat :: t != s.currentTerm ==> MarkedLen(g, t) == MarkedLen(h, t);
  }

  lemma MarkedMore(h: History, g: History, term: nat, r: nat)
    requires MarkedOk(h) && Committed(h, term, r) && g == Mark(h, term, r) && Grows(h, g)
    ensures MarkedOk(g)
  {
    hide Committed;
    forall t: nat | MarkedLen(g, t) > 0 ensures Committed(g, t, MarkedLen(g, t)) {
      if t != term {
        assert MarkedLen(g, t) == MarkedLen(h, t);
        MarkedCommitted(h, t);
      }
      CommittedGrows(h, g, t, MarkedLen(g, t));
    }
  }

  lemma FollowersDoNotCommit(s: NodeState, c: Config)
    requires s.role != Leader
    ensures AdvanceCommit(s, c) == s
  {
  }

  lemma CommitOnlyMoves(s: NodeState, c: Config)
    ensures AdvanceCommit(s, c) == s.(commitIndex := AdvanceCommit(s, c).commitIndex)
  {
  }

  lemma NodeOrdered(h: History, n: NodeId, s: NodeState)
    requires HistInv(h) && NodeInv(h, n, s)
    ensures Indexed(s.log)
    ensures forall j, k :: 0 <= j <= k < |s.log| ==> s.log[j].term <= s.log[k].term
  {
    hide LogOk, VotesOk, WinsOk, AckOk, CommittedAt, ReadOk, MarkedOk, AcceptState, AppliedState;
    IndexedLog(h, s.log);
    forall j: nat, k: nat | j <= k < |s.log| ensures s.log[j].term <= s.log[k].term {
      TermsMonotone(h, s.log, j, k);
    }
  }

  lemma LeaderCommits(h: History, c: Config, s: NodeState, r: nat)
    requires HistInv(h) && c.Members() == h.nodes && LeaderState(h, c.id, s) && Committable(s, c, r)
    ensures Committed(h, s.currentTerm, r) && CommittedPrefix(h, s.log, r, s.currentTerm)
  {
    hide VotesOk, WinsOk, AckOk, CommittedAt, ReadOk, MarkedOk, LogOk;
    assert ReignOk(h, s.currentTerm);
    QuorumGrows(h.nodes, HoldersOf(s, c, r), Holders(h, s.currentTerm, r));
    assert CommittedBy(h, s.log, r, s.currentTerm, s.currentTerm, r);
  }

  lemma CommitsKeep(s: System, n: NodeId)
    requires Inv(s) && Enabled(s, Commits(n))
    ensures Inv(Next(s, Commits(n)))
    ensures Grows(s.h, Next(s, Commits(n)).h)
  {
    hide ValidCluster, HistInv, NodeInv, MsgInv, GrowsBy, AdvanceCommit, WellFormed;
    NodeConfig(s, n);
    CommitNode(s.h, s.cfgs[n], s.nodes[n]);
    Assemble(s, Next(s, Commits(n)), n);
  }

  // ------------------------------------------------------------------------- apply

  lemma ApplyNode(h: History, n: NodeId, s: NodeState)
    requires HistInv(h) && NodeInv(h, n, s) && CanApply(s)
    ensures var g := h.(applied := h.applied + {Applied(n, s.lastApplied + 1, s.log[s.lastApplied])});
            HistInv(g) && GrowsBy(h, g, n) && NodeInv(g, n, ApplyOne(s))
  {
    hide LogOk, AllRetained, AppliedState, ReignsOk, VotesOk, AcceptedOk, AckOk, CommittedAt, ReadOk, MarkedOk;
    var next := s.lastApplied + 1;
    var g := h.(applied := h.applied + {Applied(n, next, s.log[s.lastApplied])});
    ApplyIsCommitted(h, s);
    AppliedGrows(h, g.applied, n);
    CommittedAtGrows(h, g, next, s.log[s.lastApplied]);
    OutcomeGrows(h, g, n, s);
    AppliedCarriesOn(h, g, ApplyOne(s), ApplyOne(s));
  }

  lemma AppliedGrows(h: History, applied: set<Applied>, n: NodeId)
    requires h.applied <= applied
    ensures GrowsBy(h, h.(applied := applied), n)
  {
  }

  lemma ApplyIsCommitted(h: History, s: NodeState)
    requires AppliedState(h, s) && CanApply(s)
    ensures CommittedAt(h, s.lastApplied + 1, s.log[s.lastApplied])
    ensures AppliedState(h, ApplyOne(s))
  {
    hide IsQuorum, Holders;
    var c, b := s.commitIndex, s.currentTerm;
    var t: nat, i: nat :| CommittedBy(h, s.log, c, b, t, i);
    assert s.log[..c][s.lastApplied] == h.reigns[t].log[..c][s.lastApplied];
    CommittedPrefixShorter(h, s.log, c, s.lastApplied + 1, b);
    assert s.log[..s.lastApplied + 1][..s.lastApplied] == s.log[..s.lastApplied];
  }

  lemma AppliesKeep(s: System, n: NodeId)
    requires Inv(s) && Enabled(s, Applies(n))
    ensures Inv(Next(s, Applies(n)))
    ensures Grows(s.h, Next(s, Applies(n)).h)
  {
    hide ValidCluster, HistInv, NodeInv, MsgInv, GrowsBy, ApplyOne;
    ApplyNode(s.h, n, s.nodes[n]);
    Assemble(s, Next(s, Applies(n)), n);
  }

  // ------------------------------------------------------------------- acknowledge

  lemma AckMeansAccepted(s: System, n: NodeId, term: nat, index: nat, p: NodeId)
    requires Inv(s) && Acknowledged(s, n, term, index, p)
    ensures p in s.h.nodes && AcceptedLen(s.h, p, term) >= index
  {
    hide NodeInv, HistInv, RequestInv, ValidCluster;
    var m :| m in s.net && IsAck(m, n, term, index, p);
    assert MsgInv(s.h, m);
  }

  lemma LeaderHoldsOwn(s: System, term: nat)
    requires Inv(s) && term in s.h.reigns
    ensures AcceptedLen(s.h, s.h.reigns[term].leader, term) == |s.h.reigns[term].log|
  {
    hide NodeInv, MsgInv, VotesOk, WinsOk, AckOk, CommittedAt, ReadOk, MarkedOk, ReignOk, ValidCluster;
    assert ReignOk(s.h, term);
    LeaderAccepted(s.h, term);
  }

  /** Majority acknowledgements in the proposer's own term commit the entry. */
  lemma OwnTermAnswersCommit(s: System, n: NodeId, term: nat, index: nat, q: set<NodeId>)
    requires Inv(s) && n in s.nodes && term in s.h.reigns && s.h.reigns[term].leader == n
    requires 1 <= index <= |s.h.reigns[term].log| && s.h.reigns[term].log[index - 1].term == term
    requires n in q && q <= s.nodes.Keys && |q| >= s.cfgs[n].Majority()
    requires forall p :: p in q && p != n ==> Acknowledged(s, n, term, index, p)
    ensures Committed(s.h, term, index)
  {
    hide ValidCluster, NodeInv, MsgInv, HistInv, WellFormed, Acknowledged, IsQuorum;
    NodeConfig(s, n);
    MajorityIsQuorum(s.cfgs[n], q);
    LeaderHoldsOwn(s, term);
    forall p | p in q ensures p in Holders(s.h, term, index) {
      if p != n { AckMeansAccepted(s, n, term, index, p); }
    }
    QuorumGrows(s.h.nodes, q, Holders(s.h, term, index));
  }

  /** The history grew in ways that are nothing to do with votes, leaders or acceptance. */
  lemma OutcomeGrows(h: History, g: History, n: NodeId, s: NodeState)
    requires HistInv(h) && Grows(h, g) && g.votes == h.votes && g.reigns == h.reigns && g.accepted == h.accepted
    requires NodeInv(h, n, s)
    ensures forall a :: a in h.acked ==> AckOk(g, a)
    ensures forall e :: e in h.applied ==> CommittedAt(g, e.index, e.record)
    ensures forall r :: r in h.rounds ==> ReadOk(g, h.rounds[r])
    ensures g.marked == h.marked ==> MarkedOk(g)
    ensures AcceptedOk(g) && ReignsOk(g) && VotesOk(g) && LogOk(g, s.log) && AllRetained(g, n, s.log, s.currentTerm + 1)
    ensures AppliedState(g, s)
  {
    hide LogOk, AllRetained, AppliedState, ReignOk, VoteOk, AckOk, CommittedAt, ReadOk, MarkedOk, VoteState, TermState, LeaderState, CandidateState;
    OutcomesKeep(h, g);
    ReignsKeep(h, g, {});
    VotesKeep(h, g);
    LogOkGrows(h, g, s.log);
    AllRetainedGrows(h, g, n, s.log, s.currentTerm + 1);
    AppliedCarriesOn(h, g, s, s);
  }

  /** Whatever a node holds at or below its commit index, some leader marked. */
  lemma MarkedRecord(h: History, n: NodeId, s: NodeState, index: nat) returns (term: nat)
    requires HistInv(h) && NodeInv(h, n, s) && 1 <= index <= s.commitIndex
    ensures index <= |s.log| && CommittedAt(h, index, s.log[index - 1])
    ensures term <= s.currentTerm && Committed(h, term, MarkedLen(h, term)) && index <= MarkedLen(h, term)
    ensures term in h.reigns && index <= |h.reigns[term].log| && h.reigns[term].log[index - 1] == s.log[index - 1]
  {
    hide LogOk, AcceptState, VoteState, LeaderState, CandidateState, TermState, ReignsOk, VotesOk, AckOk, ReadOk, MarkedOk, Holders, IsQuorum, Engines.Replay;
    assert AppliedState(h, s);
    term :| term <= s.currentTerm && s.commitIndex <= MarkedLen(h, term);
    var t: nat, i: nat :| CommittedBy(h, s.log, s.commitIndex, s.currentTerm, t, i);
    MarkedCommitted(h, term);
    CommittedAgree(h, t, i, term, MarkedLen(h, term), index);
    var l := h.reigns[t].log;
    assert s.log[..s.commitIndex][index - 1] == l[..s.commitIndex][index - 1];
    assert l[..index][index - 1] == h.reigns[term].log[..index][index - 1];
  }

  /** The entry a node holds at an index is the one a leader appended there, if it is of its term. */
  lemma StillProposed(h: History, n: NodeId, s: NodeState, term: nat, index: nat)
    requires NodeInv(h, n, s) && term in h.reigns && 1 <= index <= |s.log| && index <= |h.reigns[term].log|
    requires s.log[index - 1].term == term
    ensures s.log[index - 1] == h.reigns[term].log[index - 1]
  {
    hide AcceptState, AppliedState, VoteState, LeaderState, CandidateState, TermState;
    assert EntryOk(h, s.log, index - 1);
    assert s.log[..index][index - 1] == h.reigns[term].log[..index][index - 1];
  }

  lemma AckMeans(h: History, a: Ack, term: nat)
    requires AckBy(h, a, term)
    ensures AckOk(h, a)
  {
  }

  lemma ReturnNode(h: History, n: NodeId, s: NodeState, term: nat, index: nat)
    requires HistInv(h) && NodeInv(h, n, s) && term in h.reigns && 1 <= index <= |h.reigns[term].log|
    requires s.commitIndex >= index && TermAt(s.log, index) == term
    ensures var g := h.(acked := h.acked + {Ack(n, s.currentTerm, index, h.reigns[term].log[index - 1])});
            HistInv(g) && GrowsBy(h, g, n) && NodeInv(g, n, s)
  {
    hide LogOk, AllRetained, AppliedState, ReignsOk, VotesOk, AcceptedOk, AckOk, CommittedAt, ReadOk, MarkedOk, Committed;
    var ack := Ack(n, s.currentTerm, index, h.reigns[term].log[index - 1]);
    var g := h.(acked := h.acked + {ack});
    var mark := MarkedRecord(h, n, s, index);
    StillProposed(h, n, s, term, index);
    assert Grows(h, g);
    OutcomeGrows(h, g, n, s);
    AckMeans(g, ack, mark);
  }

  lemma ReturnsKeep(s: System, n: NodeId, term: nat, index: nat, q: set<NodeId>)
    requires Inv(s) && Enabled(s, Returns(n, term, index, q))
    ensures Inv(Next(s, Returns(n, term, index, q)))
    ensures Grows(s.h, Next(s, Returns(n, term, index, q)).h)
  {
    hide ValidCluster, HistInv, NodeInv, MsgInv, GrowsBy, Answered;
    ReturnNode(s.h, n, s.nodes[n], term, index);
    var t := Next(s, Returns(n, term, index, q));
    Assemble(s, t, n);
  }

  // -------------------------------------------------------------------- read rounds

  lemma NewReadOk(s: System, n: NodeId)
    requires Inv(s) && n in s.nodes && s.nodes[n].role == Leader
    ensures ReadOk(s.h, BeginRead(s, n))
  {
    hide HistInv, NodeInv, MsgInv, IsQuorum, ValidCluster;
    LeaderTerm(s, n);
    var me, r := s.nodes[n], BeginRead(s, n);
    forall a | a in s.h.acked ensures (r.settled ==> a.index <= r.index) || IsQuorum(s.h.nodes, NewerAt(r, r.term + 1)) {
      var t := AckMarked(s.h, a);
      if t > r.term { NewerLeaderSeen(s, n, t); } else if r.settled { OwnTermCovers(s.h, n, me, t); }
    }
  }

  lemma AckMarked(h: History, a: Ack) returns (term: nat)
    requires HistInv(h) && a in h.acked
    ensures AckBy(h, a, term) && Committed(h, term, MarkedLen(h, term))
  {
    hide ReignsOk, VotesOk, AcceptedOk, CommittedAt, ReadOk, MarkedOk, Committed;
    assert AckOk(h, a);
    term :| AckBy(h, a, term);
    MarkedCommitted(h, term);
  }

  lemma LeaderTerm(s: System, n: NodeId)
    requires Inv(s) && n in s.nodes
    ensures n in s.h.nodes
  {
    hide HistInv, NodeInv, MsgInv, ValidCluster;
  }

  /** Nothing inherited is left above the commit index, so everything marked by leaders up to this
      one lies at or below it. */
  lemma OwnTermCovers(h: History, n: NodeId, s: NodeState, term: nat)
    requires HistInv(h) && NodeInv(h, n, s) && s.role == Leader && term <= s.currentTerm && MarkedLen(h, term) > 0
    requires Settled(s)
    ensures MarkedLen(h, term) <= s.commitIndex
  {
    hide VotesOk, WinsOk, AckOk, CommittedAt, ReadOk, MarkedOk, LogOk, IsQuorum, AllRetained, CommittedPrefix;
    MarkedCommitted(h, term);
    if term < s.currentTerm {
      LeaderCompleteness(h, term, MarkedLen(h, term), s.currentTerm);
      assert ReignOk(h, s.currentTerm);
      if s.commitIndex < |s.log| { ReignTerms(h, s.currentTerm, s.commitIndex); }
    }
  }

  /** When the entry at the commit index is of the leader's own term, nothing inherited is left above
      it: the condition the no-op brings about. */
  lemma OwnTermSettles(h: History, n: NodeId, s: NodeState)
    requires HistInv(h) && NodeInv(h, n, s) && s.commitIndex > 0 && TermAt(s.log, s.commitIndex) == s.currentTerm
    ensures Settled(s)
  {
    hide LogOk, VotesOk, WinsOk, AckOk, CommittedAt, ReadOk, MarkedOk, AcceptState, CommittedPrefix, Engines.Replay;
    if s.commitIndex < |s.log| { TermsMonotone(h, s.log, s.commitIndex - 1, s.commitIndex); }
  }

  /** Where there has been a leader of a later term, a quorum of nodes is already past this one. */
  lemma NewerLeaderSeen(s: System, n: NodeId, term: nat)
    requires Inv(s) && n in s.nodes && term in s.h.reigns && term > s.nodes[n].currentTerm
    ensures IsQuorum(s.h.nodes, NewerAt(BeginRead(s, n), s.nodes[n].currentTerm + 1))
  {
    hide HistInv, NodeInv, MsgInv, ValidCluster, Electors, IsQuorum;
    var r := BeginRead(s, n);
    ElectedByQuorum(s.h, term);
    forall v | v in Electors(s.h, term) ensures v in NewerAt(r, r.term + 1) {
      ElectorInTerm(s.h, term, v, s.nodes);
    }
    QuorumGrows(s.h.nodes, Electors(s.h, term), NewerAt(r, r.term + 1));
  }

  lemma ElectedByQuorum(h: History, term: nat)
    requires HistInv(h) && term in h.reigns
    ensures IsQuorum(h.nodes, Electors(h, term))
  {
    hide VotesOk, WinsOk, AckOk, CommittedAt, ReadOk, MarkedOk, LogOk, IsQuorum, Electors;
    assert ReignOk(h, term);
  }

  lemma ElectorInTerm(h: History, term: nat, v: NodeId, nodes: map<NodeId, NodeState>)
    requires term in h.reigns && v in Electors(h, term) && nodes.Keys == h.nodes
    requires forall n :: n in nodes ==> NodeInv(h, n, nodes[n])
    ensures v in nodes && nodes[v].currentTerm >= term
  {
    hide LogOk, AcceptState, AppliedState, LeaderState, CandidateState, TermState;
    assert NodeInv(h, v, nodes[v]);
  }

  lemma ReadNodeKeeps(h: History, g: History, n: NodeId, s: NodeState, round: nat, r: Read)
    requires HistInv(h) && NodeInv(h, n, s) && g == h.(rounds := h.rounds[round := r]) && round !in h.rounds
    requires n in r.terms && r.terms[n] <= s.currentTerm
    ensures NodeInv(g, n, s)
  {
    hide LogOk, AllRetained, AppliedState, ReignsOk, VotesOk, AcceptedOk, AckOk, CommittedAt, ReadOk, MarkedOk;
    assert Grows(h, g);
    OutcomeGrows(h, g, n, s);
  }

  lemma ReadHistory(h: History, round: nat, r: Read, n: NodeId, s: NodeState)
    requires HistInv(h) && NodeInv(h, n, s) && ReadOk(h, r) && round !in h.rounds
    ensures var g := h.(rounds := h.rounds[round := r]); HistInv(g) && Grows(h, g)
  {
    hide NodeInv, ReignsOk, VotesOk, AcceptedOk, AckOk, CommittedAt;
    var g := h.(rounds := h.rounds[round := r]);
    assert Grows(h, g);
    OutcomeGrows(h, g, n, s);
  }

  lemma BeginsReadKeep(s: System, n: NodeId, round: nat)
    requires Inv(s) && Enabled(s, BeginsRead(n, round))
    ensures Inv(Next(s, BeginsRead(n, round)))
    ensures Grows(s.h, Next(s, BeginsRead(n, round)).h)
  {
    hide ValidCluster, HistInv, NodeInv, MsgInv, ReadOk, MarkedOk, Grows;
    var t, r := Next(s, BeginsRead(n, round)), BeginRead(s, n);
    NewReadOk(s, n);
    ReadHistory(s.h, round, r, n, s.nodes[n]);
    forall v | v in t.nodes ensures NodeInv(t.h, v, t.nodes[v]) {
      ReadNodeKeeps(s.h, t.h, v, s.nodes[v], round, r);
    }
    forall m | m in t.net ensures MsgInv(t.h, m) { MsgGrows(s.h, t.h, m); }
  }

  // ---------------------------------------------------------------------- every run

  lemma NothingHappened(h: History)
    requires h == History(h.nodes, map[], map[], map[], map[], {}, {}, map[], {}) && NOBODY !in h.nodes
    ensures HistInv(h)
  {
    hide ReignOk, VoteOk, AckOk, CommittedAt, ReadOk;
  }

  lemma NewNodeHolds(h: History, n: NodeId)
    requires h == History(h.nodes, map[], map[], map[], map[], {}, {}, map[], {})
    ensures NodeInv(h, n, NewNode())
  {
    assert AllRetained(h, n, [], 1);
  }

  lemma InitHolds(s: System)
    requires Init(s)
    ensures Inv(s)
  {
    hide HistInv, NodeInv, MsgInv, ValidCluster, NewNode;
    NoBlankMember(s.cfgs);
    NothingHappened(s.h);
    forall n | n in s.nodes ensures NodeInv(s.h, n, s.nodes[n]) { NewNodeHolds(s.h, n); }
  }

  lemma NoBlankMember(cfgs: map<NodeId, Config>)
    requires ValidCluster(cfgs)
    ensures NOBODY !in cfgs
  {
  }

  /** The invariant is inductive. */
  lemma StepKeeps(s: System, step: Step)
    requires Inv(s) && Enabled(s, step)
    ensures Inv(Next(s, step))
    ensures Grows(s.h, Next(s, step).h)
  {
    hide Inv, Enabled, Next;
    match step
    case Campaigns(n) => CampaignsKeep(s, n);
    case Votes(n, req) => VotesStepKeeps(s, n, req);
    case Wins(n, term, q) => WinsKeep(s, n, term, q);
    case Appends(n, cmd) => AppendsKeep(s, n, cmd);
    case Sends(n, p) => SendsKeep(s, n, p);
    case Handles(n, req, round) => HandlesKeep(s, n, req, round);
    case CrashesHandling(n, req, round, j, mid) => CrashesKeep(s, n, req, round, j, mid);
    case HearsReply(n, from, req, resp) => HearsKeep(s, n, from, req, resp);
    case AdoptsTerm(n, term) => AdoptsKeep(s, n, term);
    case Commits(n) => CommitsKeep(s, n);
    case Applies(n) => AppliesKeep(s, n);
    case Restarts(n) => RestartsKeep(s, n);
    case Returns(n, term, index, q) => ReturnsKeep(s, n, term, index, q);
    case BeginsRead(n, round) => BeginsReadKeep(s, n, round);
    case Probes(n, p, round) => ProbesKeep(s, n, p, round);
  }

  lemma {:induction false} RunKeeps(run: seq<System>, i: nat)
    requires IsRun(run) && i < |run|
    ensures Inv(run[i])
    decreases i
  {
    hide Inv, Init, Enabled, Next;
    if i == 0 {
      InitHolds(run[0]);
    } else {
      RunKeeps(run, i - 1);
      assert Steps(run[i - 1], run[i - 1 + 1]);
      var step :| Enabled(run[i - 1], step) && run[i] == Next(run[i - 1], step);
      StepKeeps(run[i - 1], step);
    }
  }
}
