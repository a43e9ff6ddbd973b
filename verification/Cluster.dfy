/** The cluster as a step system: any number of nodes, a network that may lose, repeat, delay and
    reorder messages, and crashes. A message once sent stays deliverable for ever; losing it is
    never delivering it. */
module Cluster {
  import opened Records
  import Configs
  import LogSpec
  import opened Messages
  import opened NodeSpec
  import opened Histories

  /** A request or a reply in flight. A reply carries the request it answers, as an RPC does. Round
      0 is replication; a positive round is a leadership probe of that read round. */
  datatype Message =
    | VoteReq(to: NodeId, vreq: RequestVoteRequest)
    | VoteResp(from: NodeId, vreq: RequestVoteRequest, vresp: RequestVoteResponse)
    | AppendReq(to: NodeId, areq: AppendEntriesRequest, round: nat)
    | AppendResp(from: NodeId, areq: AppendEntriesRequest, aresp: AppendEntriesResponse, round: nat)

  datatype System = System(
    cfgs: map<NodeId, Configs.Config>,
    nodes: map<NodeId, NodeState>,
    net: set<Message>,
    h: History)

  datatype Step =
    | Campaigns(n: NodeId)
    | Votes(n: NodeId, vreq: RequestVoteRequest)
    | Wins(n: NodeId, term: nat, q: set<NodeId>)
    | Appends(n: NodeId, cmd: Record)
    | Sends(n: NodeId, p: NodeId)
    | Handles(n: NodeId, areq: AppendEntriesRequest, round: nat)
    | CrashesHandling(n: NodeId, areq: AppendEntriesRequest, round: nat, j: nat, mid: bool)
    | HearsReply(n: NodeId, from: NodeId, areq: AppendEntriesRequest, aresp: AppendEntriesResponse)
    | AdoptsTerm(n: NodeId, term: nat)
    | Commits(n: NodeId)
    | Applies(n: NodeId)
    | Restarts(n: NodeId)
    | Returns(n: NodeId, term: nat, index: nat, q: set<NodeId>)
    | BeginsRead(n: NodeId, round: nat)
    | Probes(n: NodeId, p: NodeId, round: nat)

  ghost predicate ValidCluster(cfgs: map<NodeId, Configs.Config>) {
    forall n :: n in cfgs ==> cfgs[n].id == n && Configs.WellFormed(cfgs[n]) && cfgs[n].Members() == cfgs.Keys
  }

  function NewNode(): NodeState {
    NodeState(0, NOBODY, Follower, NOBODY, [], 0, 0, map[], map[], map[])
  }

  ghost predicate Init(s: System) {
    && ValidCluster(s.cfgs)
    && s.nodes == (map n | n in s.cfgs :: NewNode())
    && s.net == {}
    && s.h == History(s.cfgs.Keys, map[], map[], map[], map[], {}, {}, map[], {})
  }

  /** A grant of the vote requested by n's candidacy in a term is in the network. */
  ghost predicate Granted(s: System, n: NodeId, term: nat, from: NodeId) {
    exists m :: m in s.net && IsGrant(m, n, term, from)
  }

  predicate IsGrant(m: Message, n: NodeId, term: nat, from: NodeId) {
    m.VoteResp? && m.from == from && m.vreq.candidateId == n && m.vreq.term == term && m.vresp.voteGranted
  }

  /** A success reply to a replication request of n's in a term that reached index is in the network. */
  ghost predicate Acknowledged(s: System, n: NodeId, term: nat, index: nat, from: NodeId) {
    exists m :: m in s.net && IsAck(m, n, term, index, from)
  }

  predicate IsAck(m: Message, n: NodeId, term: nat, index: nat, from: NodeId) {
    && m.AppendResp? && m.from == from && m.areq.leaderId == n && m.areq.term == term
    && m.aresp.success && m.areq.prevLogIndex + |m.areq.entries| >= index
  }

  /** A success reply to any replication request of n's is in the network. */
  ghost predicate Answered(s: System, n: NodeId, from: NodeId) {
    exists m :: m in s.net && m.AppendResp? && m.from == from && m.areq.leaderId == n && m.round == 0 && m.aresp.success
  }

  /** What the proposer of the entry at index in a term goes by: a majority answered some request of
      its node's, of whatever term, and the node's commit index has reached the entry's. */
  ghost predicate ProposeSucceeds(s: System, n: NodeId, term: nat, index: nat, q: set<NodeId>) {
    && n in s.nodes && n in s.cfgs
    && term in s.h.reigns && s.h.reigns[term].leader == n
    && 1 <= index <= |s.h.reigns[term].log| && s.h.reigns[term].log[index - 1].term == term
    && n in q && q <= s.nodes.Keys && |q| >= s.cfgs[n].Majority()
    && (forall p :: p in q && p != n ==> Answered(s, n, p))
    && s.nodes[n].commitIndex >= index
  }

  /** A success reply to a probe of the round, sent in the term, is in the network. */
  ghost predicate Confirmed(s: System, term: nat, round: nat, from: NodeId) {
    exists m :: m in s.net && IsConfirm(m, term, round, from)
  }

  predicate IsConfirm(m: Message, term: nat, round: nat, from: NodeId) {
    m.AppendResp? && m.from == from && m.round == round && m.areq.term == term && m.aresp.success
  }

  // ------------------------------------------------------------------------ steps

  /** When a step can happen. Where the code checks under one lock and acts under another, the step
      is the two together: Appends checks the role at the append, Sends reads term, anchor and
      entries together, AdoptsTerm compares at the set, HearsReply excludes a leader hearing a reply
      to a request of another of its terms, and Returns wants the entry still to be the proposed one.
      Modules Races, LateSetTerm and Deposed show what happens without these. */
  ghost predicate Enabled(s: System, step: Step) {
    step.n in s.nodes && step.n in s.cfgs &&
    var me := s.nodes[step.n];
    match step
    case Campaigns(n) => true
    case Votes(n, req) => VoteReq(n, req) in s.net
    case Wins(n, term, q) =>
      && n in q && q <= s.nodes.Keys && |q| >= s.cfgs[n].Majority()
      && (forall v :: v in q && v != n ==> Granted(s, n, term, v))
    case Appends(n, cmd) => me.role == Leader
    case Sends(n, p) => me.role == Leader && p in s.cfgs[n].PeerIds() && Get(me.nextIndex, p) >= 1
    case Handles(n, req, round) => AppendReq(n, req, round) in s.net
    case CrashesHandling(n, req, round, j, mid) =>
      && AppendReq(n, req, round) in s.net && req.term >= me.currentTerm
      && LogSpec.Matches(me.log, req.prevLogIndex, req.prevLogTerm) && j <= |req.entries|
    case HearsReply(n, from, req, resp) =>
      && AppendResp(from, req, resp, 0) in s.net && req.leaderId == n
      && (me.role == Leader && me.currentTerm != req.term ==> resp.term > me.currentTerm)
    case AdoptsTerm(n, term) => term > me.currentTerm
    case Commits(n) => true
    case Applies(n) => CanApply(me)
    case Restarts(n) => true
    case Returns(n, term, index, q) => ProposeSucceeds(s, n, term, index, q) && TermAt(me.log, index) == term
    case BeginsRead(n, round) => me.role == Leader && round > 0 && round !in s.h.rounds
    case Probes(n, p, round) => me.role == Leader && p in s.cfgs[n].PeerIds() && round in s.h.rounds
  }

  function VoteRequests(peers: set<NodeId>, req: RequestVoteRequest): set<Message> {
    set p | p in peers :: VoteReq(p, req)
  }

  function WithNode(s: System, n: NodeId, t: NodeState): System {
    s.(nodes := s.nodes[n := t])
  }

  ghost function Next(s: System, step: Step): System
    requires Enabled(s, step)
  {
    var me := s.nodes[step.n];
    match step
    case Campaigns(n) =>
      var (t, req) := Campaign(me, n);
      WithNode(s, n, t).(net := s.net + VoteRequests(s.cfgs[n].PeerIds(), req),
                         h := Cast(s.h, n, req.term, n, me.log))
    case Votes(n, req) =>
      var (t, resp) := HandleRequestVote(me, req);
      WithNode(s, n, t).(net := s.net + {VoteResp(n, req, resp)},
                         h := if resp.voteGranted then Cast(s.h, n, req.term, req.candidateId, me.log) else s.h)
    case Wins(n, term, q) =>
      WithNode(s, n, WinElection(me, s.cfgs[n], term))
        .(h := if me.role == Candidate && me.currentTerm == term then Crown(s.h, n, term, me.log) else s.h)
    case Appends(n, cmd) =>
      var t := LeaderAppend(me, me.currentTerm, cmd);
      WithNode(s, n, t).(h := Extend(s.h, n, me.currentTerm, t.log))
    case Sends(n, p) => s.(net := s.net + {AppendReq(p, AppendRequest(me, n, p), 0)})
    case Handles(n, req, round) =>
      var (t, resp) := HandleAppendEntries(me, req);
      WithNode(s, n, t).(net := s.net + {AppendResp(n, req, resp, round)},
                         h := if resp.success then Accept(s.h, n, req) else s.h)
    case CrashesHandling(n, req, round, j, mid) =>
      WithNode(s, n, Restart(FollowLeader(me, req).(log := LogSpec.CrashPoint(me.log, req.prevLogIndex, req.entries, j, mid))))
    case HearsReply(n, from, req, resp) => WithNode(s, n, HandleAppendReply(me, from, req, resp))
    case AdoptsTerm(n, term) => WithNode(s, n, SetTerm(me, term))
    case Commits(n) =>
      var t := AdvanceCommit(me, s.cfgs[n]);
      WithNode(s, n, t).(h := if t.commitIndex > me.commitIndex then Mark(s.h, me.currentTerm, t.commitIndex) else s.h)
    case Applies(n) =>
      WithNode(s, n, ApplyOne(me))
        .(h := s.h.(applied := s.h.applied + {Applied(n, me.lastApplied + 1, me.log[me.lastApplied])}))
    case Restarts(n) => WithNode(s, n, Restart(me))
    case Returns(n, term, index, q) =>
      s.(h := s.h.(acked := s.h.acked + {Ack(n, me.currentTerm, index, s.h.reigns[term].log[index - 1])}))
    case BeginsRead(n, round) => s.(h := s.h.(rounds := s.h.rounds[round := BeginRead(s, n)]))
    case Probes(n, p, round) => s.(net := s.net + {AppendReq(p, ProbeRequest(me, n), round)})
  }

  // ------------------------------------------------------------ keeping the history

  function Cast(h: History, v: NodeId, term: nat, candidate: NodeId, log: seq<Record>): History {
    if (v, term) in h.votes then h
    else h.(votes := h.votes[(v, term) := Vote(candidate, log, term !in h.reigns)])
  }

  function Crown(h: History, n: NodeId, term: nat, log: seq<Record>): History {
    h.(reigns := h.reigns[term := Reign(n, log, log)],
       wins := h.wins + {(n, term)},
       accepted := h.accepted[(n, term) := |log|])
  }

  function Extend(h: History, n: NodeId, term: nat, log: seq<Record>): History {
    if term !in h.reigns then h
    else h.(reigns := h.reigns[term := h.reigns[term].(log := log)],
            accepted := h.accepted[(n, term) := |log|])
  }

  function Accept(h: History, n: NodeId, req: AppendEntriesRequest): History {
    h.(accepted := h.accepted[(n, req.term) :=
      Max(AcceptedLen(h, n, req.term), req.prevLogIndex + |req.entries|)])
  }

  function Mark(h: History, term: nat, index: nat): History {
    h.(marked := h.marked[term := index])
  }

  function BeginRead(s: System, n: NodeId): Read
    requires n in s.nodes
  {
    var me := s.nodes[n];
    Read(n, me.currentTerm, me.commitIndex, Settled(me), s.h.acked, map q | q in s.nodes :: s.nodes[q].currentTerm)
  }

  // ------------------------------------------------------------------------- runs

  ghost predicate IsPath(path: seq<System>) {
    |path| > 0 && forall i :: 0 <= i < |path| - 1 ==> Steps(path[i], path[i + 1])
  }

  ghost predicate IsRun(run: seq<System>) {
    IsPath(run) && Init(run[0])
  }

  ghost predicate Steps(s: System, t: System) {
    exists step :: Enabled(s, step) && t == Next(s, step)
  }
}
