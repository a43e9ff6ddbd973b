/** A run, on any five nodes, of a leader that is deposed and elected again while requests, replies and
    a read round of its first term are still under way; and what goes wrong at its end wherever the
    code does not compare terms. Every step of the run is an ordinary one. */
module Deposed {
  import opened Records
  import opened Configs
  import opened LogSpec
  import opened Messages
  import opened NodeSpec
  import opened Histories
  import opened Cluster
  import opened Runs
  import Invariants
  import Commitment
  import Safety
  import Races

  /** What is proposed in a term; term 1 writes another value than the later ones. */
  function Command(term: nat): Record {
    Record(0, 0, OP_SET, "k", if term == 1 then "old" else "new")
  }

  /** The command as the leader of its term stores it. */
  function At(term: nat, index: nat): Record { Command(term).(term := term, index := index) }

  /** a leads terms 1 and 3 and b leads term 2; y and z vote for whoever stands; p hears only from a. */
  datatype Team = Team(a: NodeId, b: NodeId, p: NodeId, y: NodeId, z: NodeId) {
    function All(): set<NodeId> { {a, b, p, y, z} }

    predicate Distinct() {
      a !in {b, p, y, z} && b !in {p, y, z} && p !in {y, z} && y != z
    }
  }

  ghost predicate OfFive(s: System, m: Team) {
    && m.Distinct() && NOBODY !in m.All()
    && s.nodes.Keys == m.All() && s.cfgs.Keys == m.All()
    && forall n :: n in m.All() ==>
         s.cfgs[n].id == n && s.cfgs[n].PeerIds() == m.All() - {n} && s.cfgs[n].Majority() == 3 && WellFormed(s.cfgs[n])
  }

  lemma FiveNodes(s: System, m: Team)
    requires Init(s) && s.nodes.Keys == m.All() && m.Distinct()
    ensures OfFive(s, m) && forall n :: n in m.All() ==> s.nodes[n] == NewNode()
  {
    hide WellFormed, Config.Members, Config.PeerIds, Config.Majority, NewNode, Team.All;
    CountFive(m);
    forall n | n in m.All()
      ensures s.cfgs[n].id == n && s.cfgs[n].PeerIds() == m.All() - {n} && s.cfgs[n].Majority() == 3 && n != NOBODY
    {
      OneOfFive(s.cfgs[n], m.All());
    }
  }

  lemma OneOfFive(cfg: Config, all: set<NodeId>)
    requires WellFormed(cfg) && cfg.Members() == all && |all| == 5
    ensures cfg.PeerIds() == all - {cfg.id} && cfg.Majority() == 3 && cfg.id != NOBODY
  {
    assert cfg.id !in cfg.PeerIds();
    MemberCount(cfg);
  }

  lemma CountFive(m: Team)
    requires m.Distinct()
    ensures |m.All()| == 5
  {
    assert m.All() == {m.a} + {m.b} + {m.p} + {m.y} + {m.z};
  }

  // ------------------------------------------------------- what the transitions do here

  lemma Grants(s: NodeState, req: RequestVoteRequest)
    requires req.term > s.currentTerm && UpToDate(s.log, req.lastLogIndex, req.lastLogTerm)
    ensures HandleRequestVote(s, req) ==
            (SetTerm(s, req.term).(votedFor := req.candidateId), RequestVoteResponse(req.term, true))
  {
  }

  /** A request from the start of the log, to a node whose log is empty or conflicts at once. */
  lemma TakesAll(s: NodeState, req: AppendEntriesRequest)
    requires req.term >= s.currentTerm && req.prevLogIndex == 0 && req.prevLogTerm == 0 && |req.entries| > 0
    requires |s.log| == 0 || s.log[0].term != req.entries[0].term
    ensures HandleAppendEntries(s, req) ==
            (FollowLeader(s, req).(log := req.entries, commitIndex := AdoptCommit(s.commitIndex, req)),
             AppendEntriesResponse(req.term, true, LastIndex(req.entries)))
  {
    hide Merge;
    MergeClosedForm(s.log, 0, req.entries);
    assert s.log[..0] + req.entries[0..] == req.entries;
  }

  /** A request that goes on from the end of the log. */
  lemma TakesMore(s: NodeState, req: AppendEntriesRequest)
    requires req.term >= s.currentTerm && req.prevLogIndex == |s.log| && req.prevLogTerm == TermAt(s.log, |s.log|)
    requires |req.entries| > 0
    ensures HandleAppendEntries(s, req) ==
            (FollowLeader(s, req).(log := s.log + req.entries, commitIndex := AdoptCommit(s.commitIndex, req)),
             AppendEntriesResponse(req.term, true, LastIndex(req.entries)))
  {
    hide Merge;
    MergeAppends(s.log, req.entries);
  }

  /** Three of five hold the leader's last entry: it is committed. */
  lemma ThreeCommit(s: NodeState, c: Config, q: NodeId, r: NodeId)
    requires s.role == Leader && c.Majority() == 3 && q in c.PeerIds() && r in c.PeerIds() && q != r
    requires LastIndex(s.log) == |s.log| > s.commitIndex && s.log[|s.log| - 1].term == s.currentTerm
    requires Get(s.matchIndex, q) >= |s.log| && Get(s.matchIndex, r) >= |s.log|
    ensures AdvanceCommit(s, c) == s.(commitIndex := |s.log|)
  {
    TwoMatch(s.matchIndex, c.peers, q, r, |s.log|);
    hide CountMatches, Config.Majority, Config.PeerIds;
  }

  lemma {:induction false} TwoMatch(m: map<NodeId, nat>, peers: seq<Peer>, q: NodeId, r: NodeId, n: nat)
    requires q in IdsOf(peers) && r in IdsOf(peers) && q != r && Get(m, q) >= n && Get(m, r) >= n
    ensures CountMatches(m, peers, n) >= 2
  {
    var front, last := peers[..|peers| - 1], peers[|peers| - 1].id;
    if last == q {
      OneMatches(m, front, r, n);
    } else if last == r {
      OneMatches(m, front, q, n);
    } else {
      TwoMatch(m, front, q, r, n);
    }
  }

  // ------------------------------------------------------------------------- term 1

  /** The request a's second entry went to p in. */
  function First(a: NodeId): AppendEntriesRequest {
    AppendEntriesRequest(1, a, 1, 1, [At(1, 2)], 0)
  }

  function FirstFollower(a: NodeId, log: seq<Record>): NodeState { Plain(1, NOBODY, Follower, log).(leaderId := a) }

  /** a, leading term 1, has heard of p's first entry but not of its second. */
  ghost predicate LedTerm1(s: NodeState, m: Team) {
    s.role == Leader && s.currentTerm == 1 && s.log == [At(1, 1), At(1, 2)] && Get(s.nextIndex, m.p) == 2 && s.commitIndex == 0
    && s.lastApplied == 0 && s.store == map[]
  }

  ghost predicate Term1(s: System, m: Team) {
    && OfFive(s, m) && LedTerm1(s.nodes[m.a], m)
    && s.nodes[m.b] == Plain(1, m.a, Follower, []) && s.nodes[m.y] == Plain(1, m.a, Follower, [])
    && s.nodes[m.z] == NewNode()
    && s.nodes[m.p] == FirstFollower(m.a, [At(1, 1), At(1, 2)])
    && AppendResp(m.p, First(m.a), AppendEntriesResponse(1, true, 2), 0) in s.net
    && s.h.reigns == map[1 := Reign(m.a, [], [At(1, 1), At(1, 2)])] && s.h.acked == {} && s.h.rounds == map[]
  }

  /** a wins term 1, appends two entries, and p alone stores them. */
  lemma FirstReign(s0: System, m: Team) returns (run: seq<System>)
    requires Init(s0) && s0.nodes.Keys == m.All() && m.Distinct()
    ensures IsRun(run) && |run| > 0 && run[0] == s0 && Term1(run[|run| - 1], m)
  {
    hide Enabled, Next, Steps, ValidCluster, Config.PeerIds, Config.Majority, WellFormed, BecomeLeader, HandleRequestVote,
      HandleAppendEntries, HandleAppendReply, AppendRequest, SetTerm, LeaderAppend, First, FirstFollower;
    FiveNodes(s0, m);
    run := [s0];
    VotesInTerm1(m.a);
    run := Elect(run, m.a, m.b, m.y);
    var me := BecomeLeader(Plain(1, m.a, Candidate, []), s0.cfgs[m.a]);
    FirstSent(m.a, m.p, s0.cfgs[m.a]);
    AppendStep(run[|run| - 1], m.a, Command(1));
    run := Lengthen(run, Appends(m.a, Command(1)));
    run := Replicate(run, m.a, m.p);
    run := FirstAgain(run, m);
  }

  /** Its second entry. */
  lemma FirstAgain(before: seq<System>, m: Team) returns (run: seq<System>)
    requires IsPath(before) && |before| > 0
    requires var s := before[|before| - 1];
             && OfFive(s, m) && 1 in s.h.reigns
             && var me := s.nodes[m.a];
             && me.role == Leader && me.currentTerm == 1 && me.log == [At(1, 1)] && Get(me.nextIndex, m.p) == 2
             && me.commitIndex == 0 && s.nodes[m.p] == FirstFollower(m.a, [At(1, 1)])
    ensures IsPath(run) && before < run
    ensures var s, t := before[|before| - 1], run[|run| - 1];
            && OfFive(t, m) && t.cfgs == s.cfgs && s.net <= t.net
            && t.nodes == s.nodes[m.a := s.nodes[m.a].(log := [At(1, 1), At(1, 2)])][m.p := FirstFollower(m.a, [At(1, 1), At(1, 2)])]
            && AppendResp(m.p, First(m.a), AppendEntriesResponse(1, true, 2), 0) in t.net
            && t.h.reigns == s.h.reigns[1 := s.h.reigns[1].(log := [At(1, 1), At(1, 2)])]
            && t.h.acked == s.h.acked && t.h.rounds == s.h.rounds
  {
    hide Enabled, Next, Steps, Config.PeerIds, Config.Majority, WellFormed, HandleAppendEntries, AppendRequest, LeaderAppend,
      First, FirstFollower;
    SecondOfTerm1(before[|before| - 1].nodes[m.a], m.a, m.p);
    AppendStep(before[|before| - 1], m.a, Command(1));
    run := Lengthen(before, Appends(m.a, Command(1)));
    run := Deliver(run, m.a, m.p);
  }

  lemma SecondOfTerm1(me: NodeState, a: NodeId, p: NodeId)
    requires me.role == Leader && me.currentTerm == 1 && me.log == [At(1, 1)] && Get(me.nextIndex, p) == 2 && me.commitIndex == 0
    ensures var two := LeaderAppend(me, 1, Command(1));
            two == me.(log := [At(1, 1), At(1, 2)]) && AppendRequest(two, a, p) == First(a)
    ensures HandleAppendEntries(FirstFollower(a, [At(1, 1)]), First(a)) ==
            (FirstFollower(a, [At(1, 1), At(1, 2)]), AppendEntriesResponse(1, true, 2))
  {
    assert [At(1, 1)] + [At(1, 2)] == [At(1, 1), At(1, 2)];
    assert [At(1, 1), At(1, 2)][1..] == [At(1, 2)];
    TakesMore(FirstFollower(a, [At(1, 1)]), First(a));
  }

  lemma VotesInTerm1(a: NodeId)
    requires a != NOBODY
    ensures Campaign(NewNode(), a) == (Plain(1, a, Candidate, []), RequestVoteRequest(1, a, 0, 0))
    ensures HandleRequestVote(NewNode(), RequestVoteRequest(1, a, 0, 0)) == (Plain(1, a, Follower, []), RequestVoteResponse(1, true))
  {
  }

  lemma FirstSent(a: NodeId, p: NodeId, c: Config)
    requires p in c.PeerIds()
    ensures var me := BecomeLeader(Plain(1, a, Candidate, []), c);
            var one := LeaderAppend(me, 1, Command(1));
            var req, resp := AppendEntriesRequest(1, a, 0, 0, [At(1, 1)], 0), AppendEntriesResponse(1, true, 1);
            && me.role == Leader && me.currentTerm == 1
            && one == me.(log := [At(1, 1)]) && Get(one.nextIndex, p) == 1 && AppendRequest(one, a, p) == req
            && HandleAppendEntries(NewNode(), req) == (FirstFollower(a, [At(1, 1)]), resp)
            && var heard := HandleAppendReply(one, p, req, resp);
            && heard.role == Leader && heard.currentTerm == 1 && heard.log == [At(1, 1)]
            && Get(heard.nextIndex, p) == 2 && heard.commitIndex == 0 && heard.lastApplied == 0 && heard.store == map[]
  {
    var me := BecomeLeader(Plain(1, a, Candidate, []), c);
    Leads(Plain(1, a, Candidate, []), c);
    assert [] + [At(1, 1)] == [At(1, 1)];
    assert [At(1, 1)][0..] == [At(1, 1)];
    TakesAll(NewNode(), AppendEntriesRequest(1, a, 0, 0, [At(1, 1)], 0));
  }

  // ------------------------------------------------------------------------- term 2

  /** b's one entry, sent by a leader that has committed up to an index. */
  function Second(b: NodeId, commit: nat): AppendEntriesRequest {
    AppendEntriesRequest(2, b, 0, 0, [At(2, 1)], commit)
  }

  function SecondFollower(b: NodeId): NodeState { Plain(2, b, Follower, [At(2, 1)]).(leaderId := b) }

  ghost predicate Term2(s: System, m: Team) {
    && OfFive(s, m)
    && LedTerm1(s.nodes[m.a], m)
    && s.nodes[m.b].role == Leader && s.nodes[m.b].currentTerm == 2 && s.nodes[m.b].log == [At(2, 1)]
    && s.nodes[m.b].commitIndex == 1 && Get(s.nodes[m.b].nextIndex, m.a) == 1
    && s.nodes[m.y] == SecondFollower(m.b) && s.nodes[m.z] == SecondFollower(m.b)
    && s.nodes[m.p] == FirstFollower(m.a, [At(1, 1), At(1, 2)])
    && AppendResp(m.p, First(m.a), AppendEntriesResponse(1, true, 2), 0) in s.net
    && s.h.reigns == map[1 := Reign(m.a, [], [At(1, 1), At(1, 2)]), 2 := Reign(m.b, [], [At(2, 1)])]
    && s.h.acked == {Ack(m.b, 2, 1, At(2, 1))} && s.h.rounds == map[]
  }

  /** b wins term 2 without a, and its write is stored by y and z, committed and acknowledged. */
  lemma SecondReign(before: seq<System>, m: Team) returns (run: seq<System>)
    requires IsPath(before) && |before| > 0 && Term1(before[|before| - 1], m)
    ensures IsPath(run) && before < run && Term2(run[|run| - 1], m)
  {
    hide IsPath, BecomeLeader, First, Second, SecondFollower, WellFormed, Config.PeerIds, Config.Majority;
    run := SecondBegun(before, m);
    run := SecondStored(run, m, m.y);
    run := SecondStored(run, m, m.z);
    run := SecondCommit(run, m);
  }

  lemma SecondBegun(before: seq<System>, m: Team) returns (run: seq<System>)
    requires IsPath(before) && |before| > 0 && Term1(before[|before| - 1], m)
    ensures IsPath(run) && before < run
    ensures var s, t := before[|before| - 1], run[|run| - 1];
            && OfFive(t, m) && t.cfgs == s.cfgs && s.net <= t.net
            && t.nodes == s.nodes[m.b := t.nodes[m.b]][m.y := Plain(2, m.b, Follower, [])][m.z := Plain(2, m.b, Follower, [])]
            && t.h.reigns == s.h.reigns[2 := Reign(m.b, [], [At(2, 1)])] && t.h.acked == s.h.acked && t.h.rounds == s.h.rounds
            && var me := t.nodes[m.b];
            && me.role == Leader && me.currentTerm == 2 && me.log == [At(2, 1)] && me.commitIndex == 0
            && forall q :: q in m.All() && q != m.b ==> Get(me.nextIndex, q) == 1
  {
    hide Init, Enabled, Next, Steps, IsPath, Config.PeerIds, Config.Majority, WellFormed, BecomeLeader, First;
    run := SecondElection(before, m);
    Leads(Plain(2, m.b, Candidate, []), run[|run| - 1].cfgs[m.b]);
    AppendStep(run[|run| - 1], m.b, Command(2));
    run := Lengthen(run, Appends(m.b, Command(2)));
    assert [] + [At(2, 1)] == [At(2, 1)];
  }

  lemma SecondStored(before: seq<System>, m: Team, q: NodeId) returns (run: seq<System>)
    requires IsPath(before) && |before| > 0 && OfFive(before[|before| - 1], m) && q in m.All() && q != m.b
    requires var s := before[|before| - 1];
             var me := s.nodes[m.b];
             && me.role == Leader && me.currentTerm == 2 && me.log == [At(2, 1)] && me.commitIndex == 0
             && Get(me.nextIndex, q) == 1 && s.nodes[q] == Plain(2, m.b, Follower, [])
    ensures IsPath(run) && before < run
    ensures var s, t := before[|before| - 1], run[|run| - 1];
            var me := s.nodes[m.b];
            && OfFive(t, m) && SameOutcomes(s, t) && AppendResp(q, Second(m.b, 0), AppendEntriesResponse(2, true, 1), 0) in t.net
            && t.nodes == s.nodes[q := SecondFollower(m.b)]
                                 [m.b := me.(matchIndex := me.matchIndex[q := 1], nextIndex := me.nextIndex[q := 2])]
  {
    hide Init, Enabled, Next, Steps, IsPath, Config.PeerIds, Config.Majority, WellFormed, HandleAppendEntries, AppendRequest,
      HandleAppendReply;
    SecondSent(before[|before| - 1].nodes[m.b], m.b, q, 0);
    run := Replicate(before, m.b, q);
  }

  lemma SecondElection(before: seq<System>, m: Team) returns (run: seq<System>)
    requires IsPath(before) && |before| > 0 && Term1(before[|before| - 1], m)
    ensures IsPath(run) && before < run
    ensures var s, t := before[|before| - 1], run[|run| - 1];
            && OfFive(t, m) && t.cfgs == s.cfgs && s.net <= t.net
            && t.nodes == s.nodes[m.b := BecomeLeader(Plain(2, m.b, Candidate, []), s.cfgs[m.b])]
                                 [m.y := Plain(2, m.b, Follower, [])][m.z := Plain(2, m.b, Follower, [])]
            && t.h.reigns == s.h.reigns[2 := Reign(m.b, [], [])] && t.h.acked == s.h.acked && t.h.rounds == s.h.rounds
  {
    hide Init, Enabled, Next, Steps, Config.PeerIds, Config.Majority, WellFormed, BecomeLeader, HandleRequestVote;
    var s := before[|before| - 1];
    var ask := RequestVoteRequest(2, m.b, 0, 0);
    Grants(s.nodes[m.y], ask);
    Grants(s.nodes[m.z], ask);
    run := Elect(before, m.b, m.y, m.z);
  }

  lemma SecondSent(me: NodeState, b: NodeId, q: NodeId, commit: nat)
    requires me.currentTerm == 2 && me.log == [At(2, 1)] && me.commitIndex == commit && Get(me.nextIndex, q) == 1
    ensures AppendRequest(me, b, q) == Second(b, commit)
    ensures HandleAppendEntries(Plain(2, b, Follower, []), Second(b, 0)) ==
            (SecondFollower(b), AppendEntriesResponse(2, true, 1))
    ensures HandleAppendReply(me, q, Second(b, 0), AppendEntriesResponse(2, true, 1)) ==
            me.(matchIndex := me.matchIndex[q := 1], nextIndex := me.nextIndex[q := 2])
  {
    assert me.log[0..] == me.log;
    TakesAll(Plain(2, b, Follower, []), Second(b, 0));
  }

  lemma SecondCommit(before: seq<System>, m: Team) returns (run: seq<System>)
    requires IsPath(before) && |before| > 0
    requires var s := before[|before| - 1];
             && OfFive(s, m)
             && s.nodes[m.b].role == Leader && s.nodes[m.b].currentTerm == 2 && s.nodes[m.b].log == [At(2, 1)]
             && s.nodes[m.b].commitIndex == 0
             && Get(s.nodes[m.b].matchIndex, m.y) == 1 && Get(s.nodes[m.b].matchIndex, m.z) == 1
             && AppendResp(m.y, Second(m.b, 0), AppendEntriesResponse(2, true, 1), 0) in s.net
             && AppendResp(m.z, Second(m.b, 0), AppendEntriesResponse(2, true, 1), 0) in s.net
             && 2 in s.h.reigns && s.h.reigns[2] == Reign(m.b, [], [At(2, 1)])
    ensures IsPath(run) && before < run
    ensures var s, t := before[|before| - 1], run[|run| - 1];
            && OfFive(t, m) && t.cfgs == s.cfgs && s.net <= t.net && t.nodes == s.nodes[m.b := s.nodes[m.b].(commitIndex := 1)]
            && t.h.reigns == s.h.reigns && t.h.acked == s.h.acked + {Ack(m.b, 2, 1, At(2, 1))} && t.h.rounds == s.h.rounds
  {
    hide Init, Enabled, Next, Steps, Config.PeerIds, Config.Majority, WellFormed, AdvanceCommit, Answered;
    var s := before[|before| - 1];
    ThreeCommit(s.nodes[m.b], s.cfgs[m.b], m.y, m.z);
    CommitStep(s, m.b);
    run := Lengthen(before, Commits(m.b));
    s := run[|run| - 1];
    AnswerIn(s, m.y, Second(m.b, 0), AppendEntriesResponse(2, true, 1));
    AnswerIn(s, m.z, Second(m.b, 0), AppendEntriesResponse(2, true, 1));
    ReturnStep(s, m.b, 2, 1, {m.b, m.y, m.z});
    run := Lengthen(run, Returns(m.b, 2, 1, {m.b, m.y, m.z}));
  }

  // ------------------------------------------------------- deposed, with a round begun

  ghost predicate DeposedState(s: System, m: Team) {
    && OfFive(s, m)
    && s.nodes[m.a].currentTerm == 2 && s.nodes[m.a].log == [At(2, 1)] && s.nodes[m.a].commitIndex == 1
    && s.nodes[m.a].lastApplied == 0 && s.nodes[m.a].store == map[]
    && s.nodes[m.y] == SecondFollower(m.b) && s.nodes[m.z] == SecondFollower(m.b)
    && s.nodes[m.p] == FirstFollower(m.a, [At(1, 1), At(1, 2)])
    && AppendResp(m.p, First(m.a), AppendEntriesResponse(1, true, 2), 0) in s.net
    && s.h.reigns == map[1 := Reign(m.a, [], [At(1, 1), At(1, 2)]), 2 := Reign(m.b, [], [At(2, 1)])]
    && RoundBegun(s, m) && s.nodes[m.b].currentTerm == 2
  }

  /** a's read round: begun in term 1, settled, at index 0, after index 1 was acknowledged. */
  ghost predicate RoundBegun(s: System, m: Team) {
    && 1 in s.h.rounds
    && var r := s.h.rounds[1];
    && r.node == m.a && r.term == 1 && r.index == 0 && r.settled && r.acked == {Ack(m.b, 2, 1, At(2, 1))}
  }

  /** a, still leading term 1, begins a read round, and then hears from b. */
  lemma Deposal(before: seq<System>, m: Team) returns (run: seq<System>)
    requires IsPath(before) && |before| > 0 && Term2(before[|before| - 1], m)
    ensures IsPath(run) && before < run && DeposedState(run[|run| - 1], m)
  {
    hide Init, Enabled, Next, Steps, IsPath, Config.PeerIds, Config.Majority, WellFormed, BecomeLeader, HandleAppendEntries,
      AppendRequest, BeginRead, First, Second, SecondFollower, ProbeRequest;
    var s := before[|before| - 1];
    RoundOf(s, m);
    ReadSteps(s, m.a, m.y);
    run := Lengthen(before, BeginsRead(m.a, 1));
    SecondSent(s.nodes[m.b], m.b, m.a, 1);
    Conflicts(s.nodes[m.a], m.b);
    run := Deliver(run, m.b, m.a);
  }

  lemma RoundOf(s: System, m: Team)
    requires Term2(s, m)
    ensures var r := BeginRead(s, m.a);
            r.node == m.a && r.term == 1 && r.index == 0 && r.settled && r.acked == {Ack(m.b, 2, 1, At(2, 1))}
    ensures s.nodes[m.a].role == Leader && s.nodes[m.a].currentTerm == 1 && s.nodes[m.a].log == [At(1, 1), At(1, 2)]
    ensures s.nodes[m.a].commitIndex == 0 && s.nodes[m.a].lastApplied == 0 && s.nodes[m.a].store == map[]
  {
    hide WellFormed, Config.PeerIds, Config.Majority, First, Second, SecondFollower;
  }

  lemma Conflicts(s: NodeState, b: NodeId)
    requires s.currentTerm == 1 && s.log == [At(1, 1), At(1, 2)] && s.commitIndex == 0 && s.lastApplied == 0 && s.store == map[]
    ensures var t := HandleAppendEntries(s, Second(b, 1)).0;
            t.currentTerm == 2 && t.log == [At(2, 1)] && t.commitIndex == 1 && t.lastApplied == 0 && t.store == map[]
  {
    TakesAll(s, Second(b, 1));
  }

  // ------------------------------------------------------------------------- term 3

  function Third(a: NodeId): AppendEntriesRequest {
    AppendEntriesRequest(3, a, 1, 2, [At(3, 2)], 1)
  }

  ghost predicate Term3(s: System, m: Team) {
    && OfFive(s, m)
    && var me := s.nodes[m.a];
    && me.role == Leader && me.currentTerm == 3 && me.log == [At(2, 1), At(3, 2)] && me.commitIndex == 1
    && me.lastApplied == 0 && me.store == map[] && Get(me.matchIndex, m.y) == 2
    && s.nodes[m.b].currentTerm == 2
    && s.nodes[m.p] == FirstFollower(m.a, [At(1, 1), At(1, 2)])
    && s.nodes[m.y].currentTerm == 3 && s.nodes[m.y].log == [At(2, 1), At(3, 2)]
    && s.nodes[m.z] == Plain(3, m.a, Follower, [At(2, 1)])
    && AppendResp(m.p, First(m.a), AppendEntriesResponse(1, true, 2), 0) in s.net
    && AppendResp(m.y, Third(m.a), AppendEntriesResponse(3, true, 2), 0) in s.net
    && s.h.reigns == map[1 := Reign(m.a, [], [At(1, 1), At(1, 2)]), 2 := Reign(m.b, [], [At(2, 1)]),
                         3 := Reign(m.a, [At(2, 1)], [At(2, 1), At(3, 2)])]
    && RoundBegun(s, m)
  }

  /** a is elected again, by y and z, and y alone stores its next entry. */
  lemma ThirdReign(before: seq<System>, m: Team) returns (run: seq<System>)
    requires IsPath(before) && |before| > 0 && DeposedState(before[|before| - 1], m)
    ensures IsPath(run) && before < run && Term3(run[|run| - 1], m)
  {
    hide Init, Enabled, Next, Steps, IsPath, Config.PeerIds, Config.Majority, WellFormed, BecomeLeader, HandleAppendEntries,
      AppendRequest, First, Third, HandleAppendReply, Campaign;
    run := ThirdElection(before, m);
    AppendStep(run[|run| - 1], m.a, Command(3));
    run := Lengthen(run, Appends(m.a, Command(3)));
    var me := run[|run| - 1].nodes[m.a];
    assert me.log == [At(2, 1), At(3, 2)];
    ThirdSent(me, m.a, m.y);
    run := Replicate(run, m.a, m.y);
  }

  lemma ThirdElection(before: seq<System>, m: Team) returns (run: seq<System>)
    requires IsPath(before) && |before| > 0 && DeposedState(before[|before| - 1], m)
    ensures IsPath(run) && before < run
    ensures var s, t := before[|before| - 1], run[|run| - 1];
            && OfFive(t, m) && t.cfgs == s.cfgs && s.net <= t.net
            && t.nodes == s.nodes[m.a := t.nodes[m.a]][m.y := Plain(3, m.a, Follower, [At(2, 1)])]
                                 [m.z := Plain(3, m.a, Follower, [At(2, 1)])]
            && t.h.reigns == s.h.reigns[3 := Reign(m.a, [At(2, 1)], [At(2, 1)])] && t.h.rounds == s.h.rounds
            && var me := t.nodes[m.a];
            && me.role == Leader && me.currentTerm == 3 && me.log == [At(2, 1)] && me.commitIndex == 1
            && me.lastApplied == 0 && me.store == map[]
            && Get(me.nextIndex, m.y) == 2
  {
    hide Init, Enabled, Next, Steps, IsPath, Config.PeerIds, Config.Majority, WellFormed, BecomeLeader, HandleRequestVote, First;
    var s := before[|before| - 1];
    var ask := RequestVoteRequest(3, m.a, 1, 2);
    Grants(s.nodes[m.y], ask);
    Grants(s.nodes[m.z], ask);
    Leads(Campaign(s.nodes[m.a], m.a).0, s.cfgs[m.a]);
    run := Elect(before, m.a, m.y, m.z);
  }

  lemma ThirdSent(me: NodeState, a: NodeId, y: NodeId)
    requires me.currentTerm == 3 && me.log == [At(2, 1), At(3, 2)] && me.commitIndex == 1 && Get(me.nextIndex, y) == 2
    ensures AppendRequest(me, a, y) == Third(a)
    ensures var t := HandleAppendEntries(Plain(3, a, Follower, [At(2, 1)]), Third(a)).0;
            t.currentTerm == 3 && t.log == [At(2, 1), At(3, 2)]
    ensures HandleAppendEntries(Plain(3, a, Follower, [At(2, 1)]), Third(a)).1 == AppendEntriesResponse(3, true, 2)
    ensures HandleAppendReply(me, y, Third(a), AppendEntriesResponse(3, true, 2)) ==
            me.(matchIndex := me.matchIndex[y := 2], nextIndex := me.nextIndex[y := 3])
  {
    assert me.log[1..] == [At(3, 2)];
    assert [At(2, 1)] + [At(3, 2)] == [At(2, 1), At(3, 2)];
    TakesMore(Plain(3, a, Follower, [At(2, 1)]), Third(a));
  }

  // -------------------------------------------------------------------- the whole run

  lemma DeposedAndBack(s0: System, m: Team) returns (run: seq<System>, k: nat)
    requires Init(s0) && s0.nodes.Keys == m.All() && m.Distinct()
    ensures IsRun(run) && |run| > 0 && run[0] == s0 && Term3(run[|run| - 1], m)
    ensures k < |run| && m.a in run[k].nodes && LedTerm1(run[k].nodes[m.a], m)
  {
    hide Init, IsPath, Term2, DeposedState, Term3, BecomeLeader, WellFormed, Config.PeerIds, Config.Majority, First;
    run := FirstReign(s0, m);
    k := |run| - 1;
    run := SecondReign(run, m);
    run := Deposal(run, m);
    run := ThirdReign(run, m);
  }

  // --------------------------------------------------------------- what goes wrong there

  /** A proposal of term 1 has all its proposer goes by: its node's commit index has reached the
      entry, and with the node p and y make a majority whose answers were successes, p's to a request
      of term 1 and y's to one of term 3. The record at its index is another. */
  lemma LostProposal(s0: System, m: Team) returns (run: seq<System>)
    requires Init(s0) && s0.nodes.Keys == m.All() && m.Distinct()
    ensures IsRun(run) && |run| > 0 && run[0] == s0
    ensures var s := run[|run| - 1];
            && ProposeSucceeds(s, m.a, 1, 1, {m.a, m.p, m.y})
            && s.h.reigns[1].log == [At(1, 1), At(1, 2)] && s.nodes[m.a].log == [At(2, 1), At(3, 2)]
            && !CommittedAt(s.h, 1, At(1, 1))
  {
    hide Init, IsPath, Answered, WellFormed, Config.PeerIds, Config.Majority, CommittedAt, Invariants.Inv, OfFive, ProposeSucceeds;
    var k;
    run, k := DeposedAndBack(s0, m);
    Commitment.RunKeeps(run, |run| - 1);
    ProposerIsTold(run[|run| - 1], m);
    Safety.SuccessIsCommittedIff(run[|run| - 1], m.a, 1, 1, {m.a, m.p, m.y});
  }

  lemma ProposerIsTold(s: System, m: Team)
    requires Term3(s, m)
    ensures ProposeSucceeds(s, m.a, 1, 1, {m.a, m.p, m.y}) && TermAt(s.nodes[m.a].log, 1) == 2
    ensures s.h.reigns[1].log == [At(1, 1), At(1, 2)] && s.nodes[m.a].log == [At(2, 1), At(3, 2)]
  {
    hide Answered, WellFormed, Config.PeerIds, Config.Majority;
    AnswerIn(s, m.p, First(m.a), AppendEntriesResponse(1, true, 2));
    AnswerIn(s, m.y, Third(m.a), AppendEntriesResponse(3, true, 2));
  }

  /** The reply p sent in term 1, heard by a as leader of term 3 as if it were to a request of term 3,
      makes a commit its second entry, which only a and y have. */
  lemma StaleReplyCommits(s0: System, m: Team) returns (run: seq<System>)
    requires Init(s0) && s0.nodes.Keys == m.All() && m.Distinct()
    ensures IsRun(run) && |run| > 0 && run[0] == s0
    ensures var s := run[|run| - 1];
            && OfFive(s, m) && s.nodes[m.a].currentTerm == 3 && s.nodes[m.a].role == Leader
            && AppendResp(m.p, First(m.a), AppendEntriesResponse(1, true, 2), 0) in s.net
            && (var t := HandleAppendReply(s.nodes[m.a], m.p, First(m.a), AppendEntriesResponse(1, true, 2));
                AdvanceCommit(t, s.cfgs[m.a]).commitIndex == 2)
            && Holders(s.h, 3, 2) <= {m.a, m.y}
            && !CommittedPrefix(s.h, s.nodes[m.a].log, 2, 3)
  {
    hide Init, IsPath, AdvanceCommit, WellFormed, Config.PeerIds, Config.Majority, CommittedPrefix, Holders, Invariants.Inv;
    var k;
    run, k := DeposedAndBack(s0, m);
    var s := run[|run| - 1];
    var t := HandleAppendReply(s.nodes[m.a], m.p, First(m.a), AppendEntriesResponse(1, true, 2));
    ThreeCommit(t, s.cfgs[m.a], m.p, m.y);
    Commitment.RunKeeps(run, |run| - 1);
    FewHold(s, m);
    NotCommitted(s.h, m, s.nodes[m.a].log);
  }

  lemma FewHold(s: System, m: Team)
    requires Invariants.Inv(s) && Term3(s, m)
    ensures s.h.nodes == m.All() && Holders(s.h, 3, 2) <= {m.a, m.y}
  {
    hide ValidCluster, HistInv, Invariants.NodeInv, Invariants.MsgInv, First, Third, WellFormed, Config.PeerIds, Config.Majority;
    assert Invariants.NodeInv(s.h, m.z, s.nodes[m.z]);
    NotAccepted(s.h, m.b, s.nodes[m.b]);
    NotAccepted(s.h, m.p, s.nodes[m.p]);
    NotAccepted(s.h, m.z, s.nodes[m.z]);
  }

  /** What a node has not the term or the entries for, it has not accepted. */
  lemma NotAccepted(h: History, n: NodeId, s: NodeState)
    requires Invariants.NodeInv(h, n, s) && (s.currentTerm < 3 || (s.currentTerm == 3 && |s.log| < 2))
    requires 3 in h.reigns && |h.reigns[3].log| >= 2
    ensures AcceptedLen(h, n, 3) < 2
  {
    if s.currentTerm == 3 && AcceptedLen(h, n, 3) >= 2 { HoldsAccepted(h, n, s); }
  }

  lemma HoldsAccepted(h: History, n: NodeId, s: NodeState)
    requires Invariants.NodeInv(h, n, s) && s.currentTerm == 3 && AcceptedLen(h, n, 3) >= 2
    requires 3 in h.reigns && |h.reigns[3].log| >= 2
    ensures |s.log| >= 2
  {
    assert Retained(h, s.log, 3, 2, 4);
    assert LeaderPrefix(h, 3, 2) <= s.log;
  }

  lemma NotCommitted(h: History, m: Team, log: seq<Record>)
    requires h.nodes == m.All() && m.Distinct() && Holders(h, 3, 2) <= {m.a, m.y} && h.reigns.Keys == {1, 2, 3}
    requires h.reigns[1].log == [At(1, 1), At(1, 2)] && |h.reigns[2].log| == 1 && |h.reigns[3].log| == 2
    requires log == [At(2, 1), At(3, 2)]
    ensures !CommittedPrefix(h, log, 2, 3)
  {
    hide Holders, Team.All;
    if CommittedPrefix(h, log, 2, 3) {
      var term: nat, i: nat :| CommittedBy(h, log, 2, 3, term, i);
      if term == 3 {
        CountFive(m);
        SubsetSize(Holders(h, 3, 2), {m.a, m.y});
      }
    }
  }

  /** What a sends p having read its term and the anchor while leading term 1, and the entries while
      leading term 3. */
  function Torn(a: NodeId): AppendEntriesRequest {
    AppendEntriesRequest(1, a, 1, 1, [At(3, 2)], 0)
  }

  lemma TornIsSent(was: NodeState, now: NodeState, m: Team)
    requires LedTerm1(was, m) && now.log == [At(2, 1), At(3, 2)]
    ensures Races.TornRequest(was, was, now, m.a, m.p) == Torn(m.a)
  {
    assert now.log[1..] == [At(3, 2)];
  }

  lemma TornIsStored(a: NodeId)
    ensures HandleAppendEntries(FirstFollower(a, [At(1, 1), At(1, 2)]), Torn(a)).0 ==
            FirstFollower(a, [At(1, 1), At(3, 2)])
  {
    hide Merge;
    var f := FirstFollower(a, [At(1, 1), At(1, 2)]);
    MergeClosedForm(f.log, 1, [At(3, 2)]);
    assert f.log[..1] + [At(3, 2)][0..] == [At(1, 1), At(3, 2)];
  }

  /** p, still in term 1, stores the term 3 entry on top of the term 1 anchor. Its terms exceed its
      own, and its log agrees with a's at index 2 and not at index 1. */
  lemma TornReadBreaksMatching(s0: System, m: Team) returns (run: seq<System>, k: nat)
    requires Init(s0) && s0.nodes.Keys == m.All() && m.Distinct()
    ensures IsRun(run) && |run| > 0 && run[0] == s0 && k < |run| && Term3(run[|run| - 1], m)
    ensures m.a in run[k].nodes && LedTerm1(run[k].nodes[m.a], m)
    ensures var was, now, f := run[k].nodes[m.a], run[|run| - 1].nodes[m.a], run[|run| - 1].nodes[m.p];
            var torn := Races.TornRequest(was, was, now, m.a, m.p);
            var stored := HandleAppendEntries(f, torn).0;
            && torn == Torn(m.a) && LogMatching(f.log, now.log) && stored.log == [At(1, 1), At(3, 2)]
            && !Races.Ordered(stored) && !LogMatching(stored.log, now.log)
  {
    hide Init, IsPath, WellFormed, Config.PeerIds, Config.Majority, HandleAppendEntries, LogMatching;
    run, k := DeposedAndBack(s0, m);
    TornIsSent(run[k].nodes[m.a], run[|run| - 1].nodes[m.a], m);
    TornIsStored(m.a);
    Unmatched();
  }

  lemma Unmatched()
    ensures LogMatching([At(1, 1), At(1, 2)], [At(2, 1), At(3, 2)])
    ensures !LogMatching([At(1, 1), At(3, 2)], [At(2, 1), At(3, 2)])
  {
    var x, l := [At(1, 1), At(3, 2)], [At(2, 1), At(3, 2)];
    assert x[1].term == l[1].term && x[..2][0] != l[..2][0];
  }

  /** With that one request put in the network, ordinary steps lead to two nodes that have applied
      different records at index 1, and whose maps give different values to the key. */
  lemma TwoRecordsApplied(s0: System, m: Team) returns (run: seq<System>, k: nat, rest: seq<System>)
    requires Init(s0) && s0.nodes.Keys == m.All() && m.Distinct()
    ensures IsRun(run) && |run| > 0 && run[0] == s0 && k < |run| && m.a in run[k].nodes && m.a in run[|run| - 1].nodes
    ensures run[k].nodes[m.a].role == Leader && Get(run[k].nodes[m.a].nextIndex, m.p) >= 1
    ensures var s := run[|run| - 1];
            var torn := Races.TornRequest(run[k].nodes[m.a], run[k].nodes[m.a], s.nodes[m.a], m.a, m.p);
            IsPath(rest) && |rest| > 0 && rest[0] == s.(net := s.net + {AppendReq(m.p, torn, 0)})
    ensures var t := rest[|rest| - 1];
            && Applied(m.a, 1, At(2, 1)) in t.h.applied && Applied(m.p, 1, At(1, 1)) in t.h.applied
            && m.a in t.nodes && m.p in t.nodes && t.nodes[m.a].lastApplied == 1 && t.nodes[m.p].lastApplied == 1
            && t.nodes[m.a].store == map["k" := "new"] && t.nodes[m.p].store == map["k" := "old"]
  {
    hide Init, IsPath, WellFormed, Config.PeerIds, Config.Majority, HandleAppendEntries, LogMatching;
    run, k := TornReadBreaksMatching(s0, m);
    var s := run[|run| - 1];
    rest := TornDelivered(s.(net := s.net + {AppendReq(m.p, Torn(m.a), 0)}), m);
    rest := FourthReign(rest, m);
    rest := BothApply(rest, m);
  }

  ghost predicate TornStored(s: System, m: Team) {
    && OfFive(s, m)
    && var me := s.nodes[m.a];
    && me.role == Leader && me.currentTerm == 3 && me.log == [At(2, 1), At(3, 2)] && me.commitIndex == 1
    && me.lastApplied == 0 && me.store == map[]
    && s.nodes[m.y].currentTerm == 3 && s.nodes[m.y].log == [At(2, 1), At(3, 2)]
    && s.nodes[m.z] == Plain(3, m.a, Follower, [At(2, 1)])
    && s.nodes[m.p] == FirstFollower(m.a, [At(1, 1), At(3, 2)])
  }

  lemma TornDelivered(s: System, m: Team) returns (run: seq<System>)
    requires Term3(s, m) && AppendReq(m.p, Torn(m.a), 0) in s.net
    ensures IsPath(run) && |run| > 0 && run[0] == s && TornStored(run[|run| - 1], m)
  {
    hide Enabled, Next, Steps, Config.PeerIds, Config.Majority, WellFormed, HandleAppendEntries, Torn, FirstFollower, First, Third;
    TornIsStored(m.a);
    HandleStep(s, m.p, Torn(m.a), 0);
    run := [s];
    run := Lengthen(run, Handles(m.p, Torn(m.a), 0));
  }

  /** a leads again, with index 2 as its guess for p, and p accepts. */
  ghost predicate Term4(s: System, m: Team) {
    && OfFive(s, m)
    && var me, f := s.nodes[m.a], s.nodes[m.p];
    && me.log == [At(2, 1), At(3, 2)] && me.commitIndex == 1 && me.lastApplied == 0 && me.store == map[]
    && f.log == [At(1, 1), At(3, 2)] && f.commitIndex == 1 && f.lastApplied == 0 && f.store == map[]
  }

  lemma FourthReign(before: seq<System>, m: Team) returns (run: seq<System>)
    requires IsPath(before) && |before| > 0 && TornStored(before[|before| - 1], m)
    ensures IsPath(run) && before < run && Term4(run[|run| - 1], m)
  {
    hide Init, Enabled, Next, Steps, IsPath, Config.PeerIds, Config.Majority, WellFormed, BecomeLeader, HandleAppendEntries,
      AppendRequest, HandleRequestVote;
    var s := before[|before| - 1];
    var ask := RequestVoteRequest(4, m.a, 2, 3);
    Grants(s.nodes[m.y], ask);
    Grants(s.nodes[m.z], ask);
    var me := Campaign(s.nodes[m.a], m.a).0;
    Leads(me, s.cfgs[m.a]);
    run := Elect(before, m.a, m.y, m.z);
    AnchoredAtTwo(BecomeLeader(me, s.cfgs[m.a]), m.a, m.p);
    run := Deliver(run, m.a, m.p);
  }

  lemma AnchoredAtTwo(me: NodeState, a: NodeId, p: NodeId)
    requires me.currentTerm == 4 && me.log == [At(2, 1), At(3, 2)] && me.commitIndex == 1 && Get(me.nextIndex, p) == 3
    ensures var f := FirstFollower(a, [At(1, 1), At(3, 2)]);
            var t := HandleAppendEntries(f, AppendRequest(me, a, p)).0;
            t.log == f.log && t.commitIndex == 1 && t.lastApplied == 0 && t.store == map[]
  {
    MergeOfNothing([At(1, 1), At(3, 2)], 2);
  }

  lemma BothApply(before: seq<System>, m: Team) returns (run: seq<System>)
    requires IsPath(before) && |before| > 0 && Term4(before[|before| - 1], m)
    ensures IsPath(run) && before < run
    ensures var t := run[|run| - 1];
            && Applied(m.a, 1, At(2, 1)) in t.h.applied && Applied(m.p, 1, At(1, 1)) in t.h.applied
            && m.a in t.nodes && m.p in t.nodes && t.nodes[m.a].lastApplied == 1 && t.nodes[m.p].lastApplied == 1
            && t.nodes[m.a].store == map["k" := "new"] && t.nodes[m.p].store == map["k" := "old"]
  {
    hide Init, Enabled, Next, Steps, IsPath, Config.PeerIds, Config.Majority, WellFormed;
    ApplyStep(before[|before| - 1], m.a);
    run := Lengthen(before, Cluster.Applies(m.a));
    ApplyStep(run[|run| - 1], m.p);
    run := Lengthen(run, Cluster.Applies(m.p));
  }

  /** The round a began in term 1 is answered by a majority in term 3, and a leads again, so the round
      passes; its index, 0, is below index 1, acknowledged before it began, though it was settled. */
  lemma RoundAcrossTermsIsStale(s0: System, m: Team) returns (run: seq<System>)
    requires Init(s0) && s0.nodes.Keys == m.All() && m.Distinct()
    ensures IsRun(run) && |run| > 0 && run[0] == s0
    ensures var s := run[|run| - 1];
            && RoundBegun(s, m) && m.a in s.nodes && s.nodes[m.a].role == Leader && s.nodes[m.a].currentTerm == 3
            && IsQuorum(s.nodes.Keys, {m.a, m.y, m.z})
            && Confirmed(s, 3, 1, m.y) && Confirmed(s, 3, 1, m.z)
  {
    hide Init, Enabled, Next, Steps, IsPath, WellFormed, Config.PeerIds, Config.Majority, HandleAppendEntries, First, Third;
    var k;
    run, k := DeposedAndBack(s0, m);
    CountFive(m);
    run := ProbedInTerm3(run, m, m.y);
    run := ProbedInTerm3(run, m, m.z);
  }

  lemma ProbedInTerm3(before: seq<System>, m: Team, q: NodeId) returns (run: seq<System>)
    requires IsPath(before) && |before| > 0 && q in {m.y, m.z}
    requires var s := before[|before| - 1];
             && OfFive(s, m) && s.nodes[m.a].role == Leader && s.nodes[m.a].currentTerm == 3 && s.nodes[q].currentTerm == 3
             && 1 in s.h.rounds
    ensures IsPath(run) && before < run
    ensures var s, t := before[|before| - 1], run[|run| - 1];
            && OfFive(t, m) && SameOutcomes(s, t) && t.nodes == s.nodes[q := t.nodes[q]] && Confirmed(t, 3, 1, q)
  {
    hide Init, Enabled, Next, Steps, IsPath, WellFormed, Config.PeerIds, Config.Majority, HandleAppendEntries;
    var s := before[|before| - 1];
    var probe := ProbeRequest(s.nodes[m.a], m.a);
    ProbeStep(s, m.a, q, 1);
    run := Lengthen(before, Probes(m.a, q, 1));
    HandleStep(run[|run| - 1], q, probe, 1);
    ProbeAccepted(s.nodes[q], probe);
    run := Lengthen(run, Handles(q, probe, 1));
    assert IsConfirm(AppendResp(q, probe, HandleAppendEntries(s.nodes[q], probe).1, 1), 3, 1, q);
  }

  lemma ProbeAccepted(s: NodeState, probe: AppendEntriesRequest)
    requires probe.term == s.currentTerm && probe.prevLogIndex == 0 && probe.prevLogTerm == 0
    ensures HandleAppendEntries(s, probe).1.success
  {
  }
}
