/** Elections keep the invariant; and the parts every step shares. */
module Preservation {
  import opened Records
  import Engines
  import opened Configs
  import Messages
  import opened NodeSpec
  import opened Histories
  import opened Cluster
  import opened Invariants

  // ------------------------------------------------------ the four ways history grows

  lemma NewVoteOk(h: History, g: History, v: NodeId, t: nat, c: NodeId, log: seq<Record>)
    requires AcceptedOk(h) && Grows(h, g) && g == Cast(h, v, t, c, log) && (v, t) !in h.votes
    requires c in h.nodes && LogOk(h, log)
    requires if c == v then TermsBelow(log, t)
             else (c, t) in h.votes && VoteOk(h, c, t) && h.votes[(c, t)].candidate == c && AtLeast(h.votes[(c, t)].log, log)
    requires t !in h.reigns ==> AllRetained(h, v, log, t)
    ensures VoteOk(g, v, t)
  {
    hide LogOk, AllRetained;
    LogOkGrows(h, g, log);
    if c != v { LogOkGrows(h, g, h.votes[(c, t)].log); }
    if t !in h.reigns { AllRetainedGrows(h, g, v, log, t); }
  }

  lemma CastKeeps(h: History, v: NodeId, t: nat, c: NodeId, log: seq<Record>)
    requires HistInv(h) && v in h.nodes && c in h.nodes && (v, t) !in h.votes
    requires LogOk(h, log)
    requires if c == v then TermsBelow(log, t)
             else (c, t) in h.votes && h.votes[(c, t)].candidate == c && AtLeast(h.votes[(c, t)].log, log)
    requires t !in h.reigns ==> AllRetained(h, v, log, t)
    ensures HistInv(Cast(h, v, t, c, log)) && GrowsBy(h, Cast(h, v, t, c, log), v)
  {
    hide LogOk, AllRetained, AckOk, CommittedAt, ReadOk, MarkedOk, AtLeast, ReignOk, VoteOk;
    var g := Cast(h, v, t, c, log);
    VotesKeep(h, g);
    NewVoteOk(h, g, v, t, c, log);
    ReignsKeep(h, g, {});
    OutcomesKeep(h, g);
  }

  lemma NewReignOk(h: History, g: History, n: NodeId, t: nat, q: set<NodeId>)
    requires AcceptedOk(h) && VotesOk(h) && n in h.nodes && t !in h.reigns
    requires (n, t) in h.votes && h.votes[(n, t)].candidate == n
    requires IsQuorum(h.nodes, q) && forall v :: v in q ==> (v, t) in h.votes && h.votes[(v, t)].candidate == n
    requires g == Crown(h, n, t, h.votes[(n, t)].log) && Grows(h, g)
    ensures ReignOk(g, t)
  {
    hide AllRetained, LogOk;
    assert forall v :: v in q ==> VoteOk(h, v, t);
    LogOkGrows(h, g, h.votes[(n, t)].log);
    QuorumGrows(g.nodes, q, Electors(g, t));
  }

  lemma CrownGrows(h: History, n: NodeId, t: nat, log: seq<Record>)
    requires AcceptedOk(h) && t !in h.reigns && forall u :: u > t ==> (n, u) !in h.votes
    ensures var g := Crown(h, n, t, log); AcceptedOk(g) && GrowsBy(h, g, n) && VotersSettled(h, g)
  {
    var g := Crown(h, n, t, log);
    hide IsQuorum;
    assert forall w: nat :: MarkedLen(g, w) == MarkedLen(h, w);
    assert AcceptedLen(h, n, t) == 0;
    assert forall u: NodeId, w: nat :: (u, w) != (n, t) ==> AcceptedLen(g, u, w) == AcceptedLen(h, u, w);
  }

  lemma CrownKeeps(h: History, n: NodeId, t: nat, q: set<NodeId>)
    requires HistInv(h) && n in h.nodes && t !in h.reigns
    requires (n, t) in h.votes && h.votes[(n, t)].candidate == n
    requires forall u :: u > t ==> (n, u) !in h.votes
    requires IsQuorum(h.nodes, q) && forall v :: v in q ==> (v, t) in h.votes && h.votes[(v, t)].candidate == n
    ensures var g := Crown(h, n, t, h.votes[(n, t)].log); HistInv(g) && GrowsBy(h, g, n)
  {
    hide LogOk, AllRetained, AckOk, CommittedAt, ReadOk, MarkedOk, AtLeast, ReignOk, VoteOk;
    var g := Crown(h, n, t, h.votes[(n, t)].log);
    CrownGrows(h, n, t, h.votes[(n, t)].log);
    VotesKeep(h, g);
    NewReignOk(h, g, n, t, q);
    ReignsKeep(h, g, {});
    OutcomesKeep(h, g);
  }

  lemma LeaderAccepted(h: History, t: nat)
    requires t in h.reigns && ReignOk(h, t)
    ensures AcceptedLen(h, h.reigns[t].leader, t) == |h.reigns[t].log|
  {
    hide LogOk, TermsBelow, IsQuorum;
  }

  /** An entry appended to the log of its own term's leader. */
  lemma LogOkExtends(g: History, l: seq<Record>, r: Record)
    requires LogOk(g, l) && r.term in g.reigns && g.reigns[r.term].log == l + [r] && r.index == |l| + 1
    ensures LogOk(g, l + [r])
  {
    forall k | 0 <= k < |l| + 1 ensures EntryOk(g, l + [r], k) {
      if k < |l| {
        assert EntryOk(g, l, k);
        assert (l + [r])[..k + 1] == l[..k + 1];
      }
    }
  }

  lemma LongerReignOk(h: History, g: History, n: NodeId, t: nat, r: Record)
    requires t in h.reigns && h.reigns[t].leader == n && ReignOk(h, t)
    requires r.term == t && r.index == |h.reigns[t].log| + 1
    requires g == Extend(h, n, t, h.reigns[t].log + [r]) && Grows(h, g)
    ensures ReignOk(g, t)
  {
    hide LogOk, IsQuorum;
    LogOkGrows(h, g, h.reigns[t].log);
    LogOkExtends(g, h.reigns[t].log, r);
    QuorumGrows(h.nodes, Electors(h, t), Electors(g, t));
  }

  lemma ExtendGrows(h: History, n: NodeId, t: nat, r: Record)
    requires AcceptedOk(h) && t in h.reigns && h.reigns[t].leader == n
    requires AcceptedLen(h, n, t) == |h.reigns[t].log| && forall u :: u > t ==> (n, u) !in h.votes
    ensures var g := Extend(h, n, t, h.reigns[t].log + [r]); AcceptedOk(g) && GrowsBy(h, g, n) && VotersSettled(h, g)
  {
    var g := Extend(h, n, t, h.reigns[t].log + [r]);
    assert forall u: NodeId, w: nat :: (u, w) != (n, t) ==> AcceptedLen(g, u, w) == AcceptedLen(h, u, w);
  }

  lemma ExtendKeeps(h: History, n: NodeId, t: nat, r: Record)
    requires HistInv(h) && t in h.reigns && h.reigns[t].leader == n
    requires r.term == t && r.index == |h.reigns[t].log| + 1
    requires forall u :: u > t ==> (n, u) !in h.votes
    ensures var g := Extend(h, n, t, h.reigns[t].log + [r]); HistInv(g) && GrowsBy(h, g, n)
  {
    hide LogOk, AllRetained, AckOk, CommittedAt, ReadOk, MarkedOk, AtLeast, VoteOk, ReignOk;
    var g := Extend(h, n, t, h.reigns[t].log + [r]);
    assert ReignOk(h, t);
    LeaderAccepted(h, t);
    ExtendGrows(h, n, t, r);
    VotesKeep(h, g);
    LongerReignOk(h, g, n, t, r);
    ReignsKeep(h, g, {t});
    OutcomesKeep(h, g);
  }

  lemma AcceptKeeps(h: History, n: NodeId, req: Messages.AppendEntriesRequest)
    requires HistInv(h) && n in h.nodes && RequestInv(h, req) && n != req.leaderId
    requires forall u :: u > req.term ==> (n, u) !in h.votes
    ensures HistInv(Accept(h, n, req)) && GrowsBy(h, Accept(h, n, req), n)
  {
    hide LogOk, AllRetained, AckOk, CommittedAt, ReadOk, MarkedOk, AtLeast, ReignOk, VoteOk, CommittedPrefix;
    var g := Accept(h, n, req);
    assert forall u: NodeId, w: nat :: (u, w) != (n, req.term) ==> AcceptedLen(g, u, w) == AcceptedLen(h, u, w);
    assert Grows(h, g);
    VotesKeep(h, g);
    ReignsKeep(h, g, {});
    OutcomesKeep(h, g);
  }

  // -------------------------------------------------------------------- assembling

  lemma GrowsByGrows(h: History, g: History, n: NodeId)
    requires GrowsBy(h, g, n)
    ensures Grows(h, g) && g.nodes == h.nodes
  {
  }

  lemma NodeConfig(s: System, n: NodeId)
    requires Inv(s) && n in s.nodes
    ensures n in s.h.nodes && n in s.cfgs && s.cfgs[n].id == n
    ensures WellFormed(s.cfgs[n]) && s.cfgs[n].Members() == s.h.nodes
  {
    hide HistInv, NodeInv, MsgInv, WellFormed;
  }

  /** One node and its part of the history changed; messages were added. */
  lemma Assemble(s: System, t: System, n: NodeId)
    requires Inv(s) && n in s.nodes && t.cfgs == s.cfgs
    requires n in t.nodes && t.nodes == s.nodes[n := t.nodes[n]]
    requires HistInv(t.h) && GrowsBy(s.h, t.h, n) && NodeInv(t.h, n, t.nodes[n])
    requires forall m :: m in t.net && m !in s.net ==> MsgInv(t.h, m)
    ensures Inv(t) && Grows(s.h, t.h)
  {
    hide ValidCluster, NodeInv, MsgInv, HistInv, GrowsBy, Grows;
    GrowsByGrows(s.h, t.h, n);
    forall v | v in t.nodes ensures NodeInv(t.h, v, t.nodes[v]) {
      if v != n { OtherNodeKeeps(s.h, t.h, n, v, s.nodes[v]); }
    }
    forall m | m in t.net ensures MsgInv(t.h, m) {
      if m in s.net { MsgGrows(s.h, t.h, m); }
    }
  }

  /** Stepping down to a later term. */
  lemma SetTermKeeps(h: History, n: NodeId, s: NodeState, term: nat)
    requires NodeInv(h, n, s) && term > s.currentTerm
    ensures NodeInv(h, n, SetTerm(s, term))
  {
    hide LogOk, AllRetained, AppliedState;
    AllRetainedLater(h, n, s.log, s.currentTerm + 1, term + 1);
    AppliedCarriesHere(h, s, SetTerm(s, term));
  }

  lemma AppliedCarriesHere(h: History, s: NodeState, t: NodeState)
    requires AppliedState(h, s) && t.log == s.log && t.currentTerm >= s.currentTerm
    requires t.commitIndex == s.commitIndex && t.lastApplied == s.lastApplied && t.store == s.store
    ensures AppliedState(h, t)
  {
    hide CommittedPrefix, Engines.Replay;
    AppliedCarries(h, h, s, t);
  }

  // --------------------------------------------------------------------- elections

  lemma CampaignNode(h: History, n: NodeId, s: NodeState)
    requires HistInv(h) && n in h.nodes && NodeInv(h, n, s)
    ensures var (t, req) := Campaign(s, n);
            var g := Cast(h, n, req.term, n, s.log);
            && HistInv(g) && GrowsBy(h, g, n) && NodeInv(g, n, t)
            && forall p :: p != n ==> MsgInv(g, VoteReq(p, req))
  {
    hide HistInv, LogOk, AllRetained, AppliedState;
    var (t, req) := Campaign(s, n);
    CastKeeps(h, n, req.term, n, s.log);
    var g := Cast(h, n, req.term, n, s.log);
    IndexedLog(h, s.log);
    LogOkGrows(h, g, s.log);
    AllRetainedLater(h, n, s.log, s.currentTerm + 1, req.term + 1);
    CastRetains(h, n, req.term, n, s.log);
    AppliedCarriesOn(h, g, s, t);
  }

  lemma CastRetains(h: History, n: NodeId, term: nat, c: NodeId, log: seq<Record>)
    requires HistInv(h) && AllRetained(h, n, log, term + 1) && GrowsBy(h, Cast(h, n, term, c, log), n)
    ensures AllRetained(Cast(h, n, term, c, log), n, log, term + 1)
  {
    hide AllRetained, ReignsOk, VotesOk;
    AllRetainedGrows(h, Cast(h, n, term, c, log), n, log, term + 1);
  }

  lemma AppliedCarriesOn(h: History, g: History, s: NodeState, t: NodeState)
    requires Grows(h, g) && AppliedState(h, s) && s.log <= t.log && t.currentTerm >= s.currentTerm
    requires t.commitIndex == s.commitIndex && t.lastApplied == s.lastApplied && t.store == s.store
    ensures AppliedState(g, t)
  {
    hide CommittedPrefix, Engines.Replay;
    AppliedCarries(h, g, s, t);
  }

  lemma CampaignsKeep(s: System, n: NodeId)
    requires Inv(s) && Enabled(s, Campaigns(n))
    ensures Inv(Next(s, Campaigns(n)))
    ensures Grows(s.h, Next(s, Campaigns(n)).h)
  {
    hide ValidCluster, HistInv, NodeInv, MsgInv, GrowsBy;
    CampaignNode(s.h, n, s.nodes[n]);
    var t := Next(s, Campaigns(n));
    forall m | m in t.net && m !in s.net ensures MsgInv(t.h, m) {
      assert m.VoteReq? && m.to in s.cfgs[n].PeerIds();
      PeersAreOthers(s, n, m.to);
    }
    Assemble(s, t, n);
  }

  lemma PeersAreOthers(s: System, n: NodeId, p: NodeId)
    requires Inv(s) && n in s.nodes && p in s.cfgs[n].PeerIds()
    ensures p != n && p in s.h.nodes
  {
    hide HistInv, NodeInv, MsgInv;
  }

  lemma GrantNode(h: History, n: NodeId, s: NodeState, req: Messages.RequestVoteRequest)
    requires HistInv(h) && n in h.nodes && NodeInv(h, n, s) && MsgInv(h, VoteReq(n, req))
    requires req.term == s.currentTerm && (s.votedFor == NOBODY || s.votedFor == req.candidateId)
    requires UpToDate(s.log, req.lastLogIndex, req.lastLogTerm)
    ensures var g := Cast(h, n, req.term, req.candidateId, s.log);
            && HistInv(g) && GrowsBy(h, g, n)
            && NodeInv(g, n, s.(votedFor := req.candidateId))
            && (n, req.term) in g.votes && g.votes[(n, req.term)].candidate == req.candidateId
  {
    hide LogOk, AllRetained, AppliedState, ReignsOk, AcceptedOk, VoteOk, WinsOk, AckOk, CommittedAt, ReadOk, MarkedOk;
    var term, c := req.term, req.candidateId;
    var g := Cast(h, n, term, c, s.log);
    if (n, term) in h.votes {
      assert c != NOBODY && h.votes[(n, term)].candidate in h.nodes by { VoterIsMember(h, n, term); }
    } else {
      IndexedLog(h, s.log);
      if term !in h.reigns { AllRetainedEarly(h, n, s.log, term); }
      CastKeeps(h, n, term, c, s.log);
      LogOkGrows(h, g, s.log);
      CastRetains(h, n, term, c, s.log);
      AppliedCarriesOn(h, g, s, s.(votedFor := c));
    }
  }

  lemma VoterIsMember(h: History, v: NodeId, t: nat)
    requires HistInv(h) && (v, t) in h.votes
    ensures h.votes[(v, t)].candidate in h.nodes && h.votes[(v, t)].candidate != NOBODY
  {
    hide ReignsOk, LogOk, AllRetained;
    assert VoteOk(h, v, t);
  }

  lemma VoteNode(h: History, n: NodeId, s: NodeState, req: Messages.RequestVoteRequest)
    requires HistInv(h) && n in h.nodes && NodeInv(h, n, s) && MsgInv(h, VoteReq(n, req))
    ensures var (t, resp) := HandleRequestVote(s, req);
            var g := if resp.voteGranted then Cast(h, n, req.term, req.candidateId, s.log) else h;
            && HistInv(g) && GrowsBy(h, g, n) && NodeInv(g, n, t) && MsgInv(g, VoteResp(n, req, resp))
  {
    hide HistInv, NodeInv, UpToDate;
    if req.term >= s.currentTerm {
      if req.term > s.currentTerm { SetTermKeeps(h, n, s, req.term); }
      var mid := if req.term > s.currentTerm then SetTerm(s, req.term) else s;
      if HandleRequestVote(s, req).1.voteGranted { GrantNode(h, n, mid, req); }
    }
  }

  lemma VotesStepKeeps(s: System, n: NodeId, req: Messages.RequestVoteRequest)
    requires Inv(s) && Enabled(s, Votes(n, req))
    ensures Inv(Next(s, Votes(n, req)))
    ensures Grows(s.h, Next(s, Votes(n, req)).h)
  {
    hide ValidCluster, HistInv, NodeInv, MsgInv, GrowsBy, HandleRequestVote;
    VoteNode(s.h, n, s.nodes[n], req);
    Assemble(s, Next(s, Votes(n, req)), n);
  }

  lemma GrantMeansVote(s: System, n: NodeId, term: nat, v: NodeId)
    requires Inv(s) && Granted(s, n, term, v)
    ensures (v, term) in s.h.votes && s.h.votes[(v, term)].candidate == n
  {
    hide ValidCluster, HistInv, NodeInv;
    var m :| m in s.net && IsGrant(m, n, term, v);
    assert MsgInv(s.h, m);
  }

  lemma CandidateVotedItself(h: History, n: NodeId, s: NodeState)
    requires NodeInv(h, n, s) && s.role == Candidate
    ensures CandidateState(h, n, s)
  {
    hide LogOk, AcceptState, AppliedState;
  }

  /** Two quorums of votes in one term are for the same candidate. */
  lemma OneWinner(h: History, n: NodeId, term: nat, q: set<NodeId>)
    requires HistInv(h) && IsQuorum(h.nodes, q) && term in h.reigns
    requires forall v :: v in q ==> (v, term) in h.votes && h.votes[(v, term)].candidate == n
    ensures h.reigns[term].leader == n
  {
    hide LogOk, VotesOk, WinsOk, AckOk, CommittedAt, ReadOk, MarkedOk, IsQuorum, AcceptedOk;
    assert ReignOk(h, term);
    var v := QuorumsMeet(h.nodes, q, Electors(h, term));
  }

  /** Election Safety, at the moment it could be broken: nobody has won the term yet. */
  lemma WinIsFirst(s: System, n: NodeId, term: nat, q: set<NodeId>)
    requires Inv(s) && Enabled(s, Wins(n, term, q))
    requires s.nodes[n].role == Candidate && s.nodes[n].currentTerm == term
    ensures term !in s.h.reigns
    ensures IsQuorum(s.h.nodes, q)
    ensures forall v :: v in q ==> (v, term) in s.h.votes && s.h.votes[(v, term)].candidate == n
  {
    hide ValidCluster, HistInv, NodeInv, MsgInv, Granted, WellFormed;
    NodeConfig(s, n);
    MajorityIsQuorum(s.cfgs[n], q);
    CandidateVotedItself(s.h, n, s.nodes[n]);
    forall v | v in q ensures (v, term) in s.h.votes && s.h.votes[(v, term)].candidate == n {
      if v != n { GrantMeansVote(s, n, term, v); }
    }
    if term in s.h.reigns { OneWinner(s.h, n, term, q); }
  }

  lemma WinNode(h: History, c: Config, s: NodeState, q: set<NodeId>)
    requires HistInv(h) && c.Members() == h.nodes && NodeInv(h, c.id, s) && s.role == Candidate
    requires s.currentTerm !in h.reigns && IsQuorum(h.nodes, q)
    requires forall v :: v in q ==> (v, s.currentTerm) in h.votes && h.votes[(v, s.currentTerm)].candidate == c.id
    ensures var g := Crown(h, c.id, s.currentTerm, s.log);
            HistInv(g) && GrowsBy(h, g, c.id) && NodeInv(g, c.id, BecomeLeader(s, c))
  {
    hide HistInv, LogOk, AcceptState, AppliedState, IsQuorum, LeaderState;
    var n, term := c.id, s.currentTerm;
    var g, t := Crown(h, n, term, s.log), BecomeLeader(s, c);
    CrownKeeps(h, n, term, q);
    IndexedLog(h, s.log);
    LogOkGrows(h, g, s.log);
    WinAccepts(h, n, s, t);
    AppliedCarriesOn(h, g, s, t);
    LeaderStarts(h, c, s);
  }

  lemma WinAccepts(h: History, n: NodeId, s: NodeState, t: NodeState)
    requires HistInv(h) && AcceptState(h, n, s) && s.currentTerm !in h.reigns
    requires t.log == s.log && t.currentTerm == s.currentTerm && Grows(h, Crown(h, n, s.currentTerm, s.log))
    ensures AcceptState(Crown(h, n, s.currentTerm, s.log), n, t)
  {
    hide ReignsOk, VotesOk, WinsOk, CommittedAt, ReadOk, MarkedOk, IsQuorum, AllRetained;
    LeaderRetains(h, Crown(h, n, s.currentTerm, s.log), n, s.log, s.log, s.currentTerm);
  }

  lemma LeaderStarts(h: History, c: Config, s: NodeState)
    requires HistInv(h) && c.Members() == h.nodes && s.currentTerm !in h.reigns && LastIndex(s.log) == |s.log|
    ensures LeaderState(Crown(h, c.id, s.currentTerm, s.log), c.id, BecomeLeader(s, c))
  {
    hide HistInv, BecomeLeader, Config.PeerIds, LastIndex;
    NotMarked(h, s.currentTerm);
    Leads(s, c);
    assert forall p :: p in h.nodes && p != c.id ==> p in c.PeerIds();
  }

  lemma NotMarked(h: History, term: nat)
    requires HistInv(h) && term !in h.reigns
    ensures MarkedLen(h, term) == 0
  {
    hide ReignsOk, VotesOk, AcceptedOk, AckOk, CommittedAt, ReadOk;
  }

  lemma WinsKeep(s: System, n: NodeId, term: nat, q: set<NodeId>)
    requires Inv(s) && Enabled(s, Wins(n, term, q))
    ensures Inv(Next(s, Wins(n, term, q)))
    ensures Grows(s.h, Next(s, Wins(n, term, q)).h)
  {
    hide ValidCluster, HistInv, NodeInv, MsgInv, GrowsBy, BecomeLeader;
    NodeConfig(s, n);
    var me := s.nodes[n];
    if me.role == Candidate && me.currentTerm == term {
      WinIsFirst(s, n, term, q);
      WinNode(s.h, s.cfgs[n], me, q);
    } else {
      GrowsItself(s.h, n);
    }
    Assemble(s, Next(s, Wins(n, term, q)), n);
  }

  lemma GrowsItself(h: History, n: NodeId)
    ensures GrowsBy(h, h, n)
  {
  }
}
