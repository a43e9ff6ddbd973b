/** A run, on any three nodes, in which a read round confirmed by a majority returns an index below
    an acknowledged one: the round of a new leader that has committed nothing of its own term yet. */
module StaleRead {
  import opened Records
  import opened Configs
  import LogSpec
  import opened Messages
  import opened NodeSpec
  import Histories
  import opened Cluster
  import opened Runs

  // ----------------------------------------------------------------------- the run

  /** Three nodes, each the others' peer. */
  ghost predicate Three(s: System, a: NodeId, b: NodeId, c: NodeId) {
    && a != b && b != c && a != c && NOBODY !in {a, b, c}
    && s.nodes.Keys == {a, b, c} && s.cfgs.Keys == {a, b, c}
    && forall n :: n in {a, b, c} ==> s.cfgs[n].id == n && s.cfgs[n].PeerIds() == {a, b, c} - {n} && s.cfgs[n].Majority() == 2
  }

  lemma ThreeNodes(s: System, a: NodeId, b: NodeId, c: NodeId)
    requires Init(s) && s.nodes.Keys == {a, b, c} && a != b && b != c && a != c
    ensures Three(s, a, b, c) && forall n :: n in {a, b, c} ==> s.nodes[n] == NewNode()
  {
    hide WellFormed, Config.Members, Config.PeerIds, Config.Majority, NewNode;
    forall n | n in {a, b, c}
      ensures s.cfgs[n].id == n && s.cfgs[n].PeerIds() == {a, b, c} - {n} && s.cfgs[n].Majority() == 2 && n != NOBODY
    {
      OneOfThree(s.cfgs[n], a, b, c);
    }
  }

  lemma OneOfThree(cfg: Config, a: NodeId, b: NodeId, c: NodeId)
    requires WellFormed(cfg) && cfg.Members() == {a, b, c} && a != b && b != c && a != c
    ensures cfg.PeerIds() == {a, b, c} - {cfg.id} && cfg.Majority() == 2 && cfg.id != NOBODY
  {
    assert cfg.id !in cfg.PeerIds();
    MemberCount(cfg);
    assert |{a, b, c}| == 3;
  }

  function Write(cmd: Record): Record { cmd.(term := 1, index := 1) }

  /** a is elected in term 1 with b's vote. */
  lemma FirstElection(s0: System, a: NodeId, b: NodeId, c: NodeId) returns (run: seq<System>)
    requires Init(s0) && s0.nodes.Keys == {a, b, c} && a != b && b != c && a != c
    ensures IsRun(run) && |run| > 0 && run[0] == s0
    ensures var s := run[|run| - 1];
            && Three(s, a, b, c)
            && s.nodes[a] == NewLeader(a, s.cfgs[a])
            && s.nodes[b] == Plain(1, a, Follower, []) && s.nodes[c] == NewNode()
            && s.h.reigns == map[1 := Histories.Reign(a, [], [])] && s.h.acked == {} && s.h.rounds == map[]
  {
    hide Enabled, Next, ValidCluster, BecomeLeader, Config.PeerIds, Config.Majority;
    ThreeNodes(s0, a, b, c);
    var ask := RequestVoteRequest(1, a, 0, 0);
    run := [s0];
    CampaignStep(s0, a);
    run := Lengthen(run, Campaigns(a));
    var s1 := run[|run| - 1];
    VoteStep(s1, b, ask);
    run := Lengthen(run, Votes(b, ask));
    var s2 := run[|run| - 1];
    WinStepOfThree(s2, a, b, ask);
    run := Lengthen(run, Wins(a, 1, {a, b}));
  }

  function FirstAppend(a: NodeId, cmd: Record): AppendEntriesRequest {
    AppendEntriesRequest(1, a, 0, 0, [Write(cmd)], 0)
  }

  function NewLeader(a: NodeId, cfg: Config): NodeState {
    BecomeLeader(Plain(1, a, Candidate, []), cfg)
  }

  lemma FirstRequest(a: NodeId, b: NodeId, cfg: Config, cmd: Record)
    requires b in cfg.PeerIds()
    ensures var me := NewLeader(a, cfg);
            && me.role == Leader && me.currentTerm == 1 && Get(me.nextIndex, b) == 1
            && LeaderAppend(me, 1, cmd) == me.(log := [Write(cmd)])
            && AppendRequest(me.(log := [Write(cmd)]), a, b) == FirstAppend(a, cmd)
  {
    assert [] + [Write(cmd)] == [Write(cmd)];
    assert [Write(cmd)][0..] == [Write(cmd)];
  }

  lemma FirstStored(a: NodeId, cmd: Record)
    ensures HandleAppendEntries(Plain(1, a, Follower, []), FirstAppend(a, cmd)) ==
            (Plain(1, a, Follower, [Write(cmd)]).(leaderId := a), AppendEntriesResponse(1, true, 1))
  {
    LogSpec.MergeAppends([], [Write(cmd)]);
    assert [] + [Write(cmd)] == [Write(cmd)];
  }

  /** a appends a write, b stores it, and a has b's answer. */
  lemma FirstWrite(s0: System, a: NodeId, b: NodeId, c: NodeId, cmd: Record) returns (run: seq<System>)
    requires Init(s0) && s0.nodes.Keys == {a, b, c} && a != b && b != c && a != c
    ensures IsRun(run) && |run| > 0 && run[0] == s0
    ensures var s := run[|run| - 1];
            && Three(s, a, b, c)
            && s.nodes[a] == NewLeader(a, s.cfgs[a]).(log := [Write(cmd)])
            && s.nodes[b] == Plain(1, a, Follower, [Write(cmd)]).(leaderId := a) && s.nodes[c] == NewNode()
            && s.h.reigns == map[1 := Histories.Reign(a, [], [Write(cmd)])] && s.h.acked == {} && s.h.rounds == map[]
            && AppendResp(b, FirstAppend(a, cmd), AppendEntriesResponse(1, true, 1), 0) in s.net
  {
    hide Enabled, Next, ValidCluster, Init, IsPath, Config.PeerIds, Config.Majority, LeaderAppend, AppendRequest,
      HandleAppendEntries, NewLeader, FirstAppend, NewNode;
    run := FirstElection(s0, a, b, c);
    var s := run[|run| - 1];
    FirstRequest(a, b, s.cfgs[a], cmd);
    AppendStep(s, a, cmd);
    run := Lengthen(run, Appends(a, cmd));
    FirstStored(a, cmd);
    run := Deliver(run, a, b);
  }

  // ----------------------------------------------- acknowledged, and then a new leader

  /** One entry of the leader's term, held by the leader and one of its two peers. */
  lemma FirstCommit(a: NodeId, b: NodeId, cfg: Config, cmd: Record)
    requires b in cfg.PeerIds() && cfg.Majority() == 2
    ensures var me := NewLeader(a, cfg).(log := [Write(cmd)]);
            var heard := HandleAppendReply(me, b, FirstAppend(a, cmd), AppendEntriesResponse(1, true, 1));
            var t := AdvanceCommit(heard, cfg); t.commitIndex == 1 && t.currentTerm == 1 && t.log == [Write(cmd)]
  {
    var me := NewLeader(a, cfg).(log := [Write(cmd)]);
    var heard := HandleAppendReply(me, b, FirstAppend(a, cmd), AppendEntriesResponse(1, true, 1));
    OneMatches(heard.matchIndex, cfg.peers, b, 1);
    hide CountMatches, Config.PeerIds, Config.Majority;
    assert CommitScan(heard, cfg, 1) == 1;
  }

  lemma FirstAcknowledgement(s0: System, a: NodeId, b: NodeId, c: NodeId, cmd: Record) returns (run: seq<System>)
    requires Init(s0) && s0.nodes.Keys == {a, b, c} && a != b && b != c && a != c
    ensures IsRun(run) && |run| > 0 && run[0] == s0
    ensures var s := run[|run| - 1];
            && Three(s, a, b, c)
            && s.nodes[b] == Plain(1, a, Follower, [Write(cmd)]).(leaderId := a) && s.nodes[c] == NewNode()
            && s.h.acked == {Histories.Ack(a, 1, 1, Write(cmd))} && s.h.rounds == map[]
  {
    hide Enabled, Next, ValidCluster, Init, IsPath, Config.PeerIds, Config.Majority, HandleAppendReply, AdvanceCommit,
      NewLeader, NewNode, Answered;
    run := FirstWrite(s0, a, b, c, cmd);
    var s := run[|run| - 1];
    LeaderTerm(a, s.cfgs[a], cmd);
    var req, resp := FirstAppend(a, cmd), AppendEntriesResponse(1, true, 1);
    HearStep(s, a, b, req, resp);
    run := Lengthen(run, HearsReply(a, b, req, resp));
    CommitStep(run[|run| - 1], a);
    run := Lengthen(run, Commits(a));
    FirstCommit(a, b, s.cfgs[a], cmd);
    s := run[|run| - 1];
    AnswerIn(s, b, req, resp);
    assert ProposeSucceeds(s, a, 1, 1, {a, b});
    ReturnStep(s, a, 1, 1, {a, b});
    run := Lengthen(run, Returns(a, 1, 1, {a, b}));
  }

  lemma LeaderTerm(a: NodeId, cfg: Config, cmd: Record)
    ensures NewLeader(a, cfg).(log := [Write(cmd)]).currentTerm == 1
  {
  }

  /** b's election in term 2: c, whose log is empty, grants. */
  lemma SecondVote(b: NodeId, c: NodeId, a: NodeId, cmd: Record)
    requires b != NOBODY
    ensures var (me, ask) := Campaign(Plain(1, a, Follower, [Write(cmd)]).(leaderId := a), b);
            && ask == RequestVoteRequest(2, b, 1, 1)
            && me == Plain(2, b, Candidate, [Write(cmd)])
            && HandleRequestVote(NewNode(), ask) == (Plain(2, b, Follower, []), RequestVoteResponse(2, true))
  {
  }

  /** The new leader's probe, and c's answer. */
  lemma ProbeAnswer(b: NodeId, cfg: Config, cmd: Record)
    ensures var me := BecomeLeader(Plain(2, b, Candidate, [Write(cmd)]), cfg);
            && me.role == Leader && me.currentTerm == 2 && me.commitIndex == 0 && !Settled(me)
            && ProbeRequest(me, b) == AppendEntriesRequest(2, b, 0, 0, [], 0)
            && HandleAppendEntries(Plain(2, b, Follower, []), ProbeRequest(me, b)).1 == AppendEntriesResponse(2, true, 0)
  {
  }

  /** The round is confirmed by a majority in its own term, and yet its index, 0, is below index 1,
      which was acknowledged before the round began. */
  lemma ConfirmedReadCanBeStale(s0: System, a: NodeId, b: NodeId, c: NodeId, cmd: Record) returns (run: seq<System>)
    requires Init(s0) && s0.nodes.Keys == {a, b, c} && a != b && b != c && a != c
    ensures IsRun(run) && |run| > 0 && run[0] == s0
    ensures var s := run[|run| - 1];
            && 1 in s.h.rounds
            && var r := s.h.rounds[1];
            && r.node == b && r.term == 2 && r.index == 0 && !r.settled
            && Confirmed(s, 2, 1, c)
            && Histories.Ack(a, 1, 1, Write(cmd)) in r.acked
  {
    hide Enabled, Next, ValidCluster, Init, IsPath, Config.PeerIds, Config.Majority, HandleRequestVote, HandleAppendEntries,
      BecomeLeader, Campaign, ProbeRequest, NewNode;
    run := FirstAcknowledgement(s0, a, b, c, cmd);
    var ask := RequestVoteRequest(2, b, 1, 1);
    SecondVote(b, c, a, cmd);
    CampaignStep(run[|run| - 1], b);
    run := Lengthen(run, Campaigns(b));
    VoteStep(run[|run| - 1], c, ask);
    run := Lengthen(run, Votes(c, ask));
    WinStepOfThree(run[|run| - 1], b, c, ask);
    run := Lengthen(run, Wins(b, 2, {b, c}));
    run := FinishRead(run, a, b, c, cmd);
  }

  lemma FinishRead(before: seq<System>, a: NodeId, b: NodeId, c: NodeId, cmd: Record) returns (run: seq<System>)
    requires IsRun(before) && |before| > 0
    requires var s := before[|before| - 1];
             && Three(s, a, b, c)
             && s.nodes[b] == BecomeLeader(Plain(2, b, Candidate, [Write(cmd)]), s.cfgs[b])
             && s.nodes[c] == Plain(2, b, Follower, [])
             && Histories.Ack(a, 1, 1, Write(cmd)) in s.h.acked && s.h.rounds == map[]
    ensures IsRun(run) && |run| > 0 && run[0] == before[0]
    ensures var s := run[|run| - 1];
            && 1 in s.h.rounds
            && var r := s.h.rounds[1];
            && r.node == b && r.term == 2 && r.index == 0 && !r.settled
            && Confirmed(s, 2, 1, c)
            && Histories.Ack(a, 1, 1, Write(cmd)) in r.acked
  {
    hide Enabled, Next, ValidCluster, Init, IsPath, Config.PeerIds, Config.Majority, HandleAppendEntries, BecomeLeader, ProbeRequest, Settled;
    var s := before[|before| - 1];
    ProbeAnswer(b, s.cfgs[b], cmd);
    ReadSteps(s, b, c);
    run := Lengthen(before, BeginsRead(b, 1));
    run := Lengthen(run, Probes(b, c, 1));
    var probe := AppendEntriesRequest(2, b, 0, 0, [], 0);
    HandleStep(run[|run| - 1], c, probe, 1);
    run := Lengthen(run, Handles(c, probe, 1));
    assert IsConfirm(AppendResp(c, probe, AppendEntriesResponse(2, true, 0), 1), 2, 1, c);
  }
}
