/** Building runs: what each step does to the parts of a state the examples look at, and steps put
    together. */
module Runs {
  import opened Records
  import opened Configs
  import opened Messages
  import opened NodeSpec
  import Histories
  import opened Cluster

  // ------------------------------------------------------------ one step at a time

  ghost predicate SameOutcomes(s: System, t: System) {
    t.cfgs == s.cfgs && s.net <= t.net && t.h.reigns == s.h.reigns && t.h.acked == s.h.acked && t.h.rounds == s.h.rounds
    && t.h.wins == s.h.wins
  }

  lemma CampaignStep(s: System, n: NodeId)
    requires n in s.nodes && n in s.cfgs
    ensures Enabled(s, Campaigns(n))
    ensures var t, (me, req) := Next(s, Campaigns(n)), Campaign(s.nodes[n], n);
            SameOutcomes(s, t) && t.nodes == s.nodes[n := me] && forall p :: p in s.cfgs[n].PeerIds() ==> VoteReq(p, req) in t.net
  {
    hide Config.PeerIds;
  }

  lemma VoteStep(s: System, n: NodeId, req: RequestVoteRequest)
    requires n in s.nodes && n in s.cfgs && VoteReq(n, req) in s.net
    ensures Enabled(s, Votes(n, req))
    ensures var t, (me, resp) := Next(s, Votes(n, req)), HandleRequestVote(s.nodes[n], req);
            SameOutcomes(s, t) && t.nodes == s.nodes[n := me] && VoteResp(n, req, resp) in t.net
  {
    hide HandleRequestVote;
  }

  /** A grant in the network. */
  lemma GrantIn(s: System, v: NodeId, req: RequestVoteRequest)
    requires VoteResp(v, req, RequestVoteResponse(req.term, true)) in s.net
    ensures Granted(s, req.candidateId, req.term, v)
  {
    assert IsGrant(VoteResp(v, req, RequestVoteResponse(req.term, true)), req.candidateId, req.term, v);
  }

  lemma WinStep(s: System, n: NodeId, term: nat, q: set<NodeId>)
    requires n in s.nodes && n in s.cfgs && n in q && q <= s.nodes.Keys && |q| >= s.cfgs[n].Majority()
    requires forall v :: v in q && v != n ==> Granted(s, n, term, v)
    requires s.nodes[n].role == Candidate && s.nodes[n].currentTerm == term
    ensures Enabled(s, Wins(n, term, q))
    ensures var t := Next(s, Wins(n, term, q));
            && t.cfgs == s.cfgs && t.net == s.net && t.nodes == s.nodes[n := BecomeLeader(s.nodes[n], s.cfgs[n])]
            && t.h.reigns == s.h.reigns[term := Histories.Reign(n, s.nodes[n].log, s.nodes[n].log)]
            && t.h.acked == s.h.acked && t.h.rounds == s.h.rounds && t.h.wins == s.h.wins + {(n, term)}
  {
    hide BecomeLeader, Config.Majority, Granted;
  }

  lemma WinStepOfThree(s: System, n: NodeId, v: NodeId, req: RequestVoteRequest)
    requires n in s.nodes && n in s.cfgs && v in s.nodes && v != n && s.cfgs[n].Majority() == 2
    requires VoteResp(v, req, RequestVoteResponse(req.term, true)) in s.net && req.candidateId == n
    requires s.nodes[n].role == Candidate && s.nodes[n].currentTerm == req.term
    ensures Enabled(s, Wins(n, req.term, {n, v}))
    ensures var t := Next(s, Wins(n, req.term, {n, v}));
            && t.cfgs == s.cfgs && t.net == s.net && t.nodes == s.nodes[n := BecomeLeader(s.nodes[n], s.cfgs[n])]
            && t.h.reigns == s.h.reigns[req.term := Histories.Reign(n, s.nodes[n].log, s.nodes[n].log)]
            && t.h.acked == s.h.acked && t.h.rounds == s.h.rounds && t.h.wins == s.h.wins + {(n, req.term)}
  {
    hide BecomeLeader, Config.Majority, Granted, Next, Enabled;
    GrantIn(s, v, req);
    WinStep(s, n, req.term, {n, v});
  }

  lemma AppendStep(s: System, n: NodeId, cmd: Record)
    requires n in s.nodes && n in s.cfgs && s.nodes[n].role == Leader && s.nodes[n].currentTerm in s.h.reigns
    ensures Enabled(s, Appends(n, cmd))
    ensures var me, t := s.nodes[n], Next(s, Appends(n, cmd));
            var mine := LeaderAppend(me, me.currentTerm, cmd);
            && t.cfgs == s.cfgs && t.net == s.net && t.nodes == s.nodes[n := mine]
            && t.h.reigns == s.h.reigns[me.currentTerm := s.h.reigns[me.currentTerm].(log := mine.log)]
            && t.h.acked == s.h.acked && t.h.rounds == s.h.rounds
  {
  }

  lemma SendStep(s: System, n: NodeId, p: NodeId)
    requires n in s.nodes && n in s.cfgs && p in s.cfgs[n].PeerIds()
    requires s.nodes[n].role == Leader && Get(s.nodes[n].nextIndex, p) >= 1
    ensures Enabled(s, Sends(n, p))
    ensures SameOutcomes(s, Next(s, Sends(n, p))) && Next(s, Sends(n, p)).nodes == s.nodes
    ensures AppendReq(p, AppendRequest(s.nodes[n], n, p), 0) in Next(s, Sends(n, p)).net
  {
    hide Config.PeerIds, AppendRequest;
  }

  lemma HandleStep(s: System, n: NodeId, req: AppendEntriesRequest, round: nat)
    requires n in s.nodes && n in s.cfgs && AppendReq(n, req, round) in s.net
    ensures Enabled(s, Handles(n, req, round))
    ensures var t, (me, resp) := Next(s, Handles(n, req, round)), HandleAppendEntries(s.nodes[n], req);
            SameOutcomes(s, t) && t.nodes == s.nodes[n := me] && AppendResp(n, req, resp, round) in t.net
  {
    hide HandleAppendEntries;
  }

  lemma AnswerIn(s: System, from: NodeId, req: AppendEntriesRequest, resp: AppendEntriesResponse)
    requires AppendResp(from, req, resp, 0) in s.net && resp.success
    ensures Answered(s, req.leaderId, from)
  {
  }

  lemma ReturnStep(s: System, n: NodeId, term: nat, index: nat, q: set<NodeId>)
    requires ProposeSucceeds(s, n, term, index, q) && TermAt(s.nodes[n].log, index) == term
    ensures Enabled(s, Returns(n, term, index, q))
    ensures var t := Next(s, Returns(n, term, index, q));
            && t.cfgs == s.cfgs && t.net == s.net && t.nodes == s.nodes && t.h.reigns == s.h.reigns && t.h.rounds == s.h.rounds
            && t.h.acked == s.h.acked + {Histories.Ack(n, s.nodes[n].currentTerm, index, s.h.reigns[term].log[index - 1])}
  {
    hide Config.Majority, Answered;
  }

  lemma Lengthen(run: seq<System>, step: Step) returns (longer: seq<System>)
    requires IsPath(run) && |run| > 0 && Enabled(run[|run| - 1], step)
    ensures IsPath(longer) && run < longer && longer[0] == run[0] && longer[|longer| - 1] == Next(run[|run| - 1], step)
  {
    hide Init, Enabled, Next;
    longer := run + [Next(run[|run| - 1], step)];
    forall i | 0 <= i < |longer| - 1 ensures Steps(longer[i], longer[i + 1]) {
      if i < |run| - 1 { assert Steps(run[i], run[i + 1]); } else { assert longer[i] == run[|run| - 1]; }
    }
  }

  function Plain(term: nat, vote: NodeId, role: Role, log: seq<Record>): NodeState {
    NodeState(term, vote, role, NOBODY, log, 0, 0, map[], map[], map[])
  }

  lemma HearStep(s: System, n: NodeId, from: NodeId, req: AppendEntriesRequest, resp: AppendEntriesResponse)
    requires n in s.nodes && n in s.cfgs && AppendResp(from, req, resp, 0) in s.net && req.leaderId == n
    requires s.nodes[n].currentTerm == req.term
    ensures Enabled(s, HearsReply(n, from, req, resp))
    ensures var t := Next(s, HearsReply(n, from, req, resp));
            SameOutcomes(s, t) && t.nodes == s.nodes[n := HandleAppendReply(s.nodes[n], from, req, resp)]
  {
    hide HandleAppendReply;
  }

  lemma CommitStep(s: System, n: NodeId)
    requires n in s.nodes && n in s.cfgs
    ensures Enabled(s, Commits(n))
    ensures SameOutcomes(s, Next(s, Commits(n)))
    ensures Next(s, Commits(n)).nodes == s.nodes[n := AdvanceCommit(s.nodes[n], s.cfgs[n])]
  {
    hide AdvanceCommit;
  }

  lemma ProbeStep(s: System, n: NodeId, p: NodeId, round: nat)
    requires n in s.nodes && n in s.cfgs && p in s.cfgs[n].PeerIds() && s.nodes[n].role == Leader && round in s.h.rounds
    ensures Enabled(s, Probes(n, p, round))
    ensures SameOutcomes(s, Next(s, Probes(n, p, round))) && Next(s, Probes(n, p, round)).nodes == s.nodes
    ensures AppendReq(p, ProbeRequest(s.nodes[n], n), round) in Next(s, Probes(n, p, round)).net
  {
    hide Config.PeerIds, ProbeRequest;
  }

  lemma ApplyStep(s: System, n: NodeId)
    requires n in s.nodes && n in s.cfgs && CanApply(s.nodes[n])
    ensures Enabled(s, Applies(n))
    ensures var me, t := s.nodes[n], Next(s, Applies(n));
            && SameOutcomes(s, t) && t.nodes == s.nodes[n := ApplyOne(me)]
            && t.h.applied == s.h.applied + {Histories.Applied(n, me.lastApplied + 1, me.log[me.lastApplied])}
  {
  }

  lemma ReadSteps(s: System, n: NodeId, p: NodeId)
    requires n in s.nodes && n in s.cfgs && p in s.cfgs[n].PeerIds() && s.nodes[n].role == Leader && 1 !in s.h.rounds
    ensures Enabled(s, BeginsRead(n, 1))
    ensures var t := Next(s, BeginsRead(n, 1));
            && t.nodes == s.nodes && t.cfgs == s.cfgs && t.h.acked == s.h.acked && t.h.wins == s.h.wins && t.h.reigns == s.h.reigns && s.net <= t.net
            && 1 in t.h.rounds && t.h.rounds[1] == BeginRead(s, n)
            && Enabled(t, Probes(n, p, 1))
            && SameOutcomes(t, Next(t, Probes(n, p, 1))) && Next(t, Probes(n, p, 1)).nodes == t.nodes
            && AppendReq(p, ProbeRequest(s.nodes[n], n), 1) in Next(t, Probes(n, p, 1)).net
  {
    hide Config.PeerIds, BeginRead, ProbeRequest;
  }

  lemma {:induction false} OneMatches(m: map<NodeId, nat>, peers: seq<Peer>, p: NodeId, n: nat)
    requires p in IdsOf(peers) && Get(m, p) >= n
    ensures CountMatches(m, peers, n) >= 1
  {
    if peers[|peers| - 1].id != p { OneMatches(m, peers[..|peers| - 1], p, n); }
  }

  // ---------------------------------------------------------------- steps put together

  /** n stands, v and w vote for it, and it wins. */
  lemma Elect(run: seq<System>, n: NodeId, v: NodeId, w: NodeId) returns (longer: seq<System>)
    requires IsPath(run) && |run| > 0
    requires var s := run[|run| - 1];
             && n in s.nodes && v in s.nodes && w in s.nodes && n != v && v != w && n != w && s.nodes.Keys <= s.cfgs.Keys
             && v in s.cfgs[n].PeerIds() && w in s.cfgs[n].PeerIds() && s.cfgs[n].Majority() == 3
             && (var req := Campaign(s.nodes[n], n).1;
                 && HandleRequestVote(s.nodes[v], req).1 == RequestVoteResponse(req.term, true)
                 && HandleRequestVote(s.nodes[w], req).1 == RequestVoteResponse(req.term, true))
    ensures IsPath(longer) && run < longer && longer[0] == run[0]
    ensures var s, t := run[|run| - 1], longer[|longer| - 1];
            var (me, req) := Campaign(s.nodes[n], n);
            && t.cfgs == s.cfgs && s.net <= t.net
            && t.nodes == s.nodes[n := BecomeLeader(me, s.cfgs[n])]
                                 [v := HandleRequestVote(s.nodes[v], req).0][w := HandleRequestVote(s.nodes[w], req).0]
            && t.h.reigns == s.h.reigns[req.term := Histories.Reign(n, s.nodes[n].log, s.nodes[n].log)]
            && t.h.acked == s.h.acked && t.h.rounds == s.h.rounds
  {
    hide Init, Enabled, Next, Steps, Config.PeerIds, Config.Majority, HandleRequestVote, Campaign, BecomeLeader, Granted;
    var s := run[|run| - 1];
    var (me, req) := Campaign(s.nodes[n], n);
    CampaignMeans(s.nodes[n], n);
    CampaignStep(s, n);
    longer := Lengthen(run, Campaigns(n));
    VoteStep(longer[|longer| - 1], v, req);
    longer := Lengthen(longer, Votes(v, req));
    VoteStep(longer[|longer| - 1], w, req);
    longer := Lengthen(longer, Votes(w, req));
    var t := longer[|longer| - 1];
    GrantIn(t, v, req);
    GrantIn(t, w, req);
    WinStep(t, n, req.term, {n, v, w});
    longer := Lengthen(longer, Wins(n, req.term, {n, v, w}));
  }

  lemma CampaignMeans(s: NodeState, n: NodeId)
    ensures var (me, req) := Campaign(s, n);
            && req == RequestVoteRequest(s.currentTerm + 1, n, LastIndex(s.log), LastTerm(s.log))
            && me.role == Candidate && me.currentTerm == req.term && me.log == s.log
  {
  }

  /** n sends p what it thinks p is missing, p handles it, and the answer is on its way. */
  lemma Deliver(run: seq<System>, n: NodeId, p: NodeId) returns (longer: seq<System>)
    requires IsPath(run) && |run| > 0
    requires var s := run[|run| - 1];
             && n in s.nodes && p in s.nodes && s.nodes.Keys <= s.cfgs.Keys && p in s.cfgs[n].PeerIds()
             && s.nodes[n].role == Leader && Get(s.nodes[n].nextIndex, p) >= 1
    ensures IsPath(longer) && run < longer && longer[0] == run[0]
    ensures var s, t := run[|run| - 1], longer[|longer| - 1];
            var req := AppendRequest(s.nodes[n], n, p);
            var (peer, resp) := HandleAppendEntries(s.nodes[p], req);
            SameOutcomes(s, t) && t.nodes == s.nodes[p := peer] && AppendResp(p, req, resp, 0) in t.net
  {
    hide Init, Enabled, Next, Steps, Config.PeerIds, HandleAppendEntries, AppendRequest;
    var s := run[|run| - 1];
    var req := AppendRequest(s.nodes[n], n, p);
    SendStep(s, n, p);
    longer := Lengthen(run, Sends(n, p));
    HandleStep(longer[|longer| - 1], p, req, 0);
    longer := Lengthen(longer, Handles(p, req, 0));
  }

  /** And n hears the answer. */
  lemma Replicate(run: seq<System>, n: NodeId, p: NodeId) returns (longer: seq<System>)
    requires IsPath(run) && |run| > 0
    requires var s := run[|run| - 1];
             && n in s.nodes && p in s.nodes && s.nodes.Keys <= s.cfgs.Keys && p in s.cfgs[n].PeerIds() && p != n
             && s.nodes[n].role == Leader && Get(s.nodes[n].nextIndex, p) >= 1
    ensures IsPath(longer) && run < longer && longer[0] == run[0]
    ensures var s, t := run[|run| - 1], longer[|longer| - 1];
            var req := AppendRequest(s.nodes[n], n, p);
            var (peer, resp) := HandleAppendEntries(s.nodes[p], req);
            && SameOutcomes(s, t) && AppendResp(p, req, resp, 0) in t.net
            && t.nodes == s.nodes[p := peer][n := HandleAppendReply(s.nodes[n], p, req, resp)]
  {
    hide Init, Enabled, Next, Steps, Config.PeerIds, HandleAppendEntries, HandleAppendReply;
    longer := Deliver(run, n, p);
    var s := run[|run| - 1];
    var req := AppendRequest(s.nodes[n], n, p);
    var resp := HandleAppendEntries(s.nodes[p], req).1;
    HearStep(longer[|longer| - 1], n, p, req, resp);
    longer := Lengthen(longer, HearsReply(n, p, req, resp));
  }
}
