/** A run, on any three nodes, in which two of them win the same term, because one node set a term it
    had compared earlier: the probe compares a reply's term with its own in one critical section and
    sets it in the next. With the two made one step, no run has two winners (Safety.ElectionSafety). */
module LateSetTerm {
  import opened Records
  import opened Configs
  import opened Messages
  import opened NodeSpec
  import opened Cluster
  import opened Runs
  import opened StaleRead

  /** At moment k node n saw a probe reply of a term newer than its own. */
  ghost predicate Compared(run: seq<System>, k: nat, n: NodeId, term: nat) {
    && k < |run| && n in run[k].nodes && term > run[k].nodes[n].currentTerm
    && exists m :: m in run[k].net && m.AppendResp? && m.areq.leaderId == n && m.aresp.term == term
  }

  /** A run in which, besides the ordinary steps, a node may set a term it compared earlier. */
  ghost predicate LooseRun(run: seq<System>) {
    && |run| > 0 && Init(run[0])
    && forall i :: 0 <= i < |run| - 1 ==> Steps(run[i], run[i + 1]) || SetsLate(run, i)
  }

  ghost predicate SetsLate(run: seq<System>, i: nat)
    requires i + 1 < |run|
  {
    exists k: nat, n: NodeId, term: nat :: k <= i && Compared(run, k, n, term) && n in run[i].nodes
                         && run[i + 1] == WithNode(run[i], n, SetTerm(run[i].nodes[n], term))
  }

  lemma LengthenLoose(run: seq<System>, step: Step) returns (longer: seq<System>)
    requires LooseRun(run) && |run| > 0 && Enabled(run[|run| - 1], step)
    ensures LooseRun(longer) && |longer| > 0 && longer[0] == run[0]
    ensures forall j, v, t :: Compared(run, j, v, t) ==> Compared(longer, j, v, t)
    ensures longer[|longer| - 1] == Next(run[|run| - 1], step)
  {
    hide Init, Enabled, Next;
    longer := run + [Next(run[|run| - 1], step)];
    forall i | 0 <= i < |longer| - 1 ensures Steps(longer[i], longer[i + 1]) || SetsLate(longer, i) {
      if i < |run| - 1 {
        assert longer[i] == run[i] && longer[i + 1] == run[i + 1];
        if !Steps(run[i], run[i + 1]) { SetsLateStands(run, longer, i); }
      } else {
        assert longer[i] == run[|run| - 1];
      }
    }
  }

  lemma SetsLateStands(run: seq<System>, longer: seq<System>, i: nat)
    requires i + 1 < |run| && run <= longer && SetsLate(run, i)
    ensures SetsLate(longer, i)
  {
    var k: nat, n: NodeId, term: nat :| k <= i && Compared(run, k, n, term) && n in run[i].nodes
                      && run[i + 1] == WithNode(run[i], n, SetTerm(run[i].nodes[n], term));
    assert Compared(longer, k, n, term);
  }

  lemma SetLate(run: seq<System>, k: nat, n: NodeId, term: nat) returns (longer: seq<System>)
    requires LooseRun(run) && Compared(run, k, n, term) && n in run[|run| - 1].nodes
    ensures LooseRun(longer) && |longer| > 0 && longer[0] == run[0]
    ensures forall j, v, t :: Compared(run, j, v, t) ==> Compared(longer, j, v, t)
    ensures longer[|longer| - 1] == WithNode(run[|run| - 1], n, SetTerm(run[|run| - 1].nodes[n], term))
  {
    hide Init, Steps;
    var last := run[|run| - 1];
    longer := run + [WithNode(last, n, SetTerm(last.nodes[n], term))];
    assert Compared(longer, k, n, term);
    forall i | 0 <= i < |longer| - 1 ensures Steps(longer[i], longer[i + 1]) || SetsLate(longer, i) {
      if i < |run| - 1 {
        assert longer[i] == run[i] && longer[i + 1] == run[i + 1];
        if !Steps(run[i], run[i + 1]) { SetsLateStands(run, longer, i); }
      } else {
        assert longer[i] == last;
      }
    }
  }

  lemma OrdinaryIsLoose(run: seq<System>)
    requires IsRun(run)
    ensures LooseRun(run)
  {
    hide Init, Steps;
  }

  lemma CampaignPlain(n: NodeId, term: nat, vote: NodeId, role: Role, leader: NodeId)
    ensures Campaign(NodeState(term, vote, role, leader, [], 0, 0, map[], map[], map[]), n) ==
            (Plain(term + 1, n, Candidate, []), RequestVoteRequest(term + 1, n, 0, 0))
  {
  }

  /** A leader of term 1 whose log is empty; a candidate of term 2 answers its probe. */
  lemma ProbeRefused(a: NodeId, c: NodeId, cfg: Config)
    ensures var me := NewLeader(a, cfg);
            && me.role == Leader && me.currentTerm == 1 && me.log == []
            && ProbeRequest(me, a) == AppendEntriesRequest(1, a, 0, 0, [], 0)
            && HandleAppendEntries(Plain(2, c, Candidate, []), ProbeRequest(me, a)) ==
               (Plain(2, c, Candidate, []), AppendEntriesResponse(2, false, 0))
  {
  }

  /** a leads term 1; c stands twice, reaching term 2. */
  lemma CandidateAhead(s0: System, a: NodeId, b: NodeId, c: NodeId) returns (run: seq<System>)
    requires Init(s0) && s0.nodes.Keys == {a, b, c} && a != b && b != c && a != c
    ensures LooseRun(run) && |run| > 0 && run[0] == s0
    ensures var s := run[|run| - 1];
            && Three(s, a, b, c)
            && s.nodes[a] == NewLeader(a, s.cfgs[a])
            && s.nodes[b] == Plain(1, a, Follower, []) && s.nodes[c] == Plain(2, c, Candidate, [])
            && s.h.rounds == map[]
  {
    hide Enabled, Next, ValidCluster, Init, IsPath, LooseRun, Config.PeerIds, Config.Majority, Campaign, NewLeader, Compared;
    run := FirstElection(s0, a, b, c);
    OrdinaryIsLoose(run);
    CampaignPlain(c, 0, NOBODY, Follower, NOBODY);
    CampaignStep(run[|run| - 1], c);
    run := LengthenLoose(run, Campaigns(c));
    CampaignPlain(c, 1, c, Candidate, NOBODY);
    CampaignStep(run[|run| - 1], c);
    run := LengthenLoose(run, Campaigns(c));
  }

  /** a probes c and compares the answer. */
  lemma ProbeNewerTerm(s0: System, a: NodeId, b: NodeId, c: NodeId) returns (run: seq<System>)
    requires Init(s0) && s0.nodes.Keys == {a, b, c} && a != b && b != c && a != c
    ensures LooseRun(run) && |run| > 0 && run[0] == s0 && Compared(run, |run| - 1, a, 2)
    ensures var s := run[|run| - 1];
            && Three(s, a, b, c)
            && s.nodes[a] == NewLeader(a, s.cfgs[a]) && s.nodes[b] == Plain(1, a, Follower, [])
            && s.nodes[c] == Plain(2, c, Candidate, [])
  {
    hide Enabled, Next, ValidCluster, BecomeLeader, Init, LooseRun, Config.PeerIds, Config.Majority, HandleAppendEntries,
      NewLeader, ProbeRequest;
    run := CandidateAhead(s0, a, b, c);
    ProbeRefused(a, c, run[|run| - 1].cfgs[a]);
    ReadSteps(run[|run| - 1], a, c);
    run := LengthenLoose(run, BeginsRead(a, 1));
    run := LengthenLoose(run, Probes(a, c, 1));
    var probe := AppendEntriesRequest(1, a, 0, 0, [], 0);
    HandleStep(run[|run| - 1], c, probe, 1);
    run := LengthenLoose(run, Handles(c, probe, 1));
    assert AppendResp(c, probe, AppendEntriesResponse(2, false, 0), 1) in run[|run| - 1].net;
  }

  /** A node with an empty log grants term 3 to b, has term 2 set on it late, and grants term 3 to c. */
  lemma TwoGrants(me: NodeState, b: NodeId, c: NodeId)
    requires me.log == [] && me.currentTerm < 3 && b != NOBODY && c != NOBODY
    ensures var first := HandleRequestVote(me, RequestVoteRequest(3, b, 0, 0));
            var second := HandleRequestVote(SetTerm(first.0, 2), RequestVoteRequest(3, c, 0, 0));
            first.1 == second.1 == RequestVoteResponse(3, true)
  {
  }

  /** b stands until term 3 and wins it with a's vote, after a's comparison. */
  lemma FirstWinner(s0: System, a: NodeId, b: NodeId, c: NodeId) returns (run: seq<System>, k: nat, me: NodeState)
    requires Init(s0) && s0.nodes.Keys == {a, b, c} && a != b && b != c && a != c
    ensures LooseRun(run) && |run| > 0 && run[0] == s0 && Compared(run, k, a, 2)
    ensures var s := run[|run| - 1];
            && Three(s, a, b, c) && (b, 3) in s.h.wins && s.nodes[c] == Plain(2, c, Candidate, [])
            && me.log == [] && me.currentTerm < 3
            && s.nodes[a] == HandleRequestVote(me, RequestVoteRequest(3, b, 0, 0)).0
  {
    hide Enabled, Next, ValidCluster, BecomeLeader, Init, LooseRun, Config.PeerIds, Config.Majority, HandleRequestVote,
      Campaign, NewLeader, Compared;
    run := ProbeNewerTerm(s0, a, b, c);
    k, me := |run| - 1, run[|run| - 1].nodes[a];
    ProbeRefused(a, c, run[k].cfgs[a]);
    TwoGrants(me, b, c);
    CampaignPlain(b, 1, a, Follower, NOBODY);
    CampaignStep(run[|run| - 1], b);
    run := LengthenLoose(run, Campaigns(b));
    CampaignPlain(b, 2, b, Candidate, NOBODY);
    CampaignStep(run[|run| - 1], b);
    run := LengthenLoose(run, Campaigns(b));
    var ask := RequestVoteRequest(3, b, 0, 0);
    VoteStep(run[|run| - 1], a, ask);
    run := LengthenLoose(run, Votes(a, ask));
    WinStepOfThree(run[|run| - 1], b, a, ask);
    run := LengthenLoose(run, Wins(b, 3, {b, a}));
  }

  /** Two nodes win term 3. */
  lemma TwoWinners(s0: System, a: NodeId, b: NodeId, c: NodeId) returns (run: seq<System>)
    requires Init(s0) && s0.nodes.Keys == {a, b, c} && a != b && b != c && a != c
    ensures LooseRun(run) && |run| > 0 && run[0] == s0
    ensures (b, 3) in run[|run| - 1].h.wins && (c, 3) in run[|run| - 1].h.wins
  {
    hide Enabled, Next, ValidCluster, BecomeLeader, Init, LooseRun, Config.PeerIds, Config.Majority, HandleRequestVote,
      Campaign, SetTerm, Compared;
    var k, me;
    run, k, me := FirstWinner(s0, a, b, c);
    TwoGrants(me, b, c);
    run := SetLate(run, k, a, 2);
    CampaignPlain(c, 2, c, Candidate, NOBODY);
    CampaignStep(run[|run| - 1], c);
    run := LengthenLoose(run, Campaigns(c));
    var ask := RequestVoteRequest(3, c, 0, 0);
    VoteStep(run[|run| - 1], a, ask);
    run := LengthenLoose(run, Votes(a, ask));
    WinStepOfThree(run[|run| - 1], c, a, ask);
    run := LengthenLoose(run, Wins(c, 3, {c, a}));
  }
}
