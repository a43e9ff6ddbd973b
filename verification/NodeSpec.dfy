/** The messages of the protocol. */
module Messages {
  import Records

  datatype RequestVoteRequest = RequestVoteRequest(term: nat, candidateId: Records.NodeId, lastLogIndex: nat, lastLogTerm: nat)

  datatype RequestVoteResponse = RequestVoteResponse(term: nat, voteGranted: bool)

  datatype AppendEntriesRequest = AppendEntriesRequest(
    term: nat, leaderId: Records.NodeId, prevLogIndex: nat, prevLogTerm: nat, entries: seq<Records.Record>, leaderCommit: nat)

  datatype AppendEntriesResponse = AppendEntriesResponse(term: nat, success: bool, lastLogIndex: nat)
}

/** One node's transitions, each what the code does under the node's lock. */
module NodeSpec {
  import opened Records
  import Engines
  import Configs
  import LogSpec
  import opened Messages

  datatype Role = Follower | Candidate | Leader

  datatype NodeState = NodeState(
    currentTerm: nat, votedFor: NodeId, role: Role, leaderId: NodeId,
    log: seq<Record>,
    commitIndex: nat, lastApplied: nat,
    nextIndex: map<NodeId, nat>, matchIndex: map<NodeId, nat>,
    store: Engines.Store)

  const NOBODY: NodeId := ""

  /** A map read with the zero default. */
  function Get(m: map<NodeId, nat>, p: NodeId): nat {
    if p in m then m[p] else 0
  }

  // ------------------------------------------------------------------ elections

  /** Entering a term clears the vote. */
  function SetTerm(s: NodeState, term: nat): NodeState {
    s.(currentTerm := term, votedFor := NOBODY, leaderId := NOBODY, role := Follower)
  }

  /** The election restriction: is a log described by its last index and term at least as complete? */
  predicate UpToDate(log: seq<Record>, lastIndex: nat, lastTerm: nat) {
    if lastTerm != LastTerm(log) then lastTerm > LastTerm(log) else lastIndex >= LastIndex(log)
  }

  function HandleRequestVote(s: NodeState, req: RequestVoteRequest): (NodeState, RequestVoteResponse) {
    if req.term < s.currentTerm then (s, RequestVoteResponse(s.currentTerm, false))
    else
      var t := if req.term > s.currentTerm then SetTerm(s, req.term) else s;
      if t.votedFor != NOBODY && t.votedFor != req.candidateId then (t, RequestVoteResponse(t.currentTerm, false))
      else if !UpToDate(t.log, req.lastLogIndex, req.lastLogTerm) then (t, RequestVoteResponse(t.currentTerm, false))
      else (t.(votedFor := req.candidateId), RequestVoteResponse(t.currentTerm, true))
  }

  function Campaign(s: NodeState, self: NodeId): (NodeState, RequestVoteRequest) {
    (s.(currentTerm := s.currentTerm + 1, votedFor := self, role := Candidate, leaderId := NOBODY),
     RequestVoteRequest(s.currentTerm + 1, self, LastIndex(s.log), LastTerm(s.log)))
  }

  /** Winning an election that is no longer the current one does nothing. */
  function WinElection(s: NodeState, c: Configs.Config, term: nat): NodeState {
    if s.role != Candidate || s.currentTerm != term then s else BecomeLeader(s, c)
  }

  function BecomeLeader(s: NodeState, c: Configs.Config): NodeState {
    s.(role := Leader, leaderId := c.id,
       nextIndex := SetAll(s.nextIndex, c.PeerIds(), LastIndex(s.log) + 1),
       matchIndex := SetAll(s.matchIndex, c.PeerIds(), 0))
  }

  /** A new leader thinks every peer caught up and knows of no match. */
  lemma Leads(s: NodeState, c: Configs.Config)
    ensures var t := BecomeLeader(s, c);
            && t == s.(role := Leader, leaderId := c.id, nextIndex := t.nextIndex, matchIndex := t.matchIndex)
            && forall q :: q in c.PeerIds() ==> Get(t.nextIndex, q) == LastIndex(s.log) + 1 && Get(t.matchIndex, q) == 0
  {
  }

  /** A map with every one of some ids set to one value. */
  function SetAll(m: map<NodeId, nat>, ids: set<NodeId>, v: nat): map<NodeId, nat> {
    m + map p | p in ids :: v
  }

  // ---------------------------------------------------------------- replication

  /** Leader append: stamp the command with the term and the next free index. */
  function Stamp(log: seq<Record>, term: nat, cmd: Record): Record {
    cmd.(term := term, index := LastIndex(log) + 1)
  }

  function LeaderAppend(s: NodeState, term: nat, cmd: Record): NodeState {
    s.(log := s.log + [Stamp(s.log, term, cmd)])
  }

  function AppendRequest(s: NodeState, self: NodeId, p: NodeId): AppendEntriesRequest
    requires Get(s.nextIndex, p) >= 1
  {
    var prev := Get(s.nextIndex, p) - 1;
    AppendEntriesRequest(s.currentTerm, self, prev, TermAt(s.log, prev), EntriesFrom(s.log, prev + 1), s.commitIndex)
  }

  /** The leadership probe: anchored at the sentinel, no entries. */
  function ProbeRequest(s: NodeState, self: NodeId): AppendEntriesRequest {
    AppendEntriesRequest(s.currentTerm, self, 0, 0, [], s.commitIndex)
  }

  /** A peer's answer to AppendRequest, branch for branch: a newer term deposes, a success records
      what the request covered, a rejection walks back. */
  function HandleAppendReply(s: NodeState, p: NodeId, req: AppendEntriesRequest, resp: AppendEntriesResponse): NodeState {
    if resp.term > s.currentTerm then SetTerm(s, resp.term)
    else if resp.success then
      var m := req.prevLogIndex + |req.entries|;
      s.(matchIndex := s.matchIndex[p := m], nextIndex := s.nextIndex[p := m + 1])
    else s.(nextIndex := WalkBack(s.nextIndex, p, resp.lastLogIndex))
  }

  function WalkBack(nextIndex: map<NodeId, nat>, p: NodeId, lastLogIndex: nat): map<NodeId, nat> {
    if lastLogIndex + 1 < Get(nextIndex, p) then nextIndex[p := lastLogIndex + 1]
    else if Get(nextIndex, p) > 1 then nextIndex[p := Get(nextIndex, p) - 1]
    else nextIndex
  }

  /** The follower side, up to the reply; applying what became committed comes after it. */
  function HandleAppendEntries(s: NodeState, req: AppendEntriesRequest): (NodeState, AppendEntriesResponse) {
    if req.term < s.currentTerm then (s, Reply(s, false))
    else
      var t := FollowLeader(s, req);
      var (ok, log) := LogSpec.AppendAfter(t.log, req.prevLogIndex, req.prevLogTerm, req.entries);
      if !ok then (t, Reply(t, false))
      else
        var u := t.(log := log, commitIndex := AdoptCommit(t.commitIndex, req));
        (u, Reply(u, true))
  }

  function FollowLeader(s: NodeState, req: AppendEntriesRequest): NodeState {
    (if req.term > s.currentTerm then SetTerm(s, req.term) else s).(role := Follower, leaderId := req.leaderId)
  }

  function AdoptCommit(commitIndex: nat, req: AppendEntriesRequest): nat {
    if req.leaderCommit > commitIndex then Min(req.leaderCommit, req.prevLogIndex + |req.entries|) else commitIndex
  }

  function Reply(s: NodeState, success: bool): AppendEntriesResponse {
    AppendEntriesResponse(s.currentTerm, success, LastIndex(s.log))
  }

  // ------------------------------------------------------------ commit and apply

  function CountMatches(matchIndex: map<NodeId, nat>, peers: seq<Configs.Peer>, n: nat): nat {
    if |peers| == 0 then 0
    else CountMatches(matchIndex, peers[..|peers| - 1], n) + (if Get(matchIndex, peers[|peers| - 1].id) >= n then 1 else 0)
  }

  /** The scan down from index n: stop at the first entry of another term, take the first index a
      majority holds. */
  function CommitScan(s: NodeState, c: Configs.Config, n: nat): nat
    decreases n
  {
    if n <= s.commitIndex then s.commitIndex
    else if n > |s.log| then CommitScan(s, c, n - 1)
    else if s.log[n - 1].term != s.currentTerm then s.commitIndex
    else if 1 + CountMatches(s.matchIndex, c.peers, n) >= c.Majority() then n
    else CommitScan(s, c, n - 1)
  }

  function AdvanceCommit(s: NodeState, c: Configs.Config): NodeState {
    if s.role != Leader then s else s.(commitIndex := CommitScan(s, c, LastIndex(s.log)))
  }

  /** Nothing inherited from an earlier leader is left above the commit index: the next entry, if
      there is one, is of the current term. Committing the no-op a new leader appends settles it. */
  predicate Settled(s: NodeState) {
    s.commitIndex >= |s.log| || s.log[s.commitIndex].term == s.currentTerm
  }

  predicate CanApply(s: NodeState) {
    s.lastApplied + 1 <= s.commitIndex && s.lastApplied + 1 <= |s.log|
  }

  function ApplyOne(s: NodeState): NodeState
    requires CanApply(s)
  {
    s.(lastApplied := s.lastApplied + 1, store := Engines.ApplyRecord(s.store, s.log[s.lastApplied]))
  }

  function ApplyAll(s: NodeState): NodeState
    decreases s.commitIndex - s.lastApplied
  {
    if CanApply(s) then ApplyAll(ApplyOne(s)) else s
  }

  /** Applying goes exactly as far as the commit index and the log reach, and never back. */
  lemma {:induction false} ApplyAllReaches(s: NodeState)
    ensures var t := ApplyAll(s);
            && t == s.(lastApplied := t.lastApplied, store := t.store)
            && t.lastApplied == Max(s.lastApplied, Min(s.commitIndex, |s.log|))
            && t.lastApplied <= Max(s.lastApplied, |s.log|)
            && (s.lastApplied <= |s.log| && s.store == Engines.Replay(s.log[..s.lastApplied]) ==> t.store == Engines.Replay(s.log[..t.lastApplied]))
    decreases s.commitIndex - s.lastApplied
  {
    if CanApply(s) {
      assert s.log[..s.lastApplied + 1][..s.lastApplied] == s.log[..s.lastApplied];
      ApplyAllReaches(ApplyOne(s));
    }
  }

  /** What a restart keeps: the term, the vote and the log. */
  function Restart(s: NodeState): NodeState {
    NodeState(s.currentTerm, s.votedFor, Follower, NOBODY, s.log, 0, 0, map[], map[], map[])
  }
}
