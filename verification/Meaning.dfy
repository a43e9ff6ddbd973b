/** What each transition of a node means, in terms of the fields before and after and of nothing the
    transitions are made of. */
module Meanings {
  import opened Records
  import Engines
  import Configs
  import opened LogSpec
  import opened Messages
  import opened NodeSpec
  import Histories

  /** An entry at the anchor has the anchor's term; the start of the log is an anchor of term 0. */
  predicate Anchored(log: seq<Record>, prev: nat, prevTerm: nat) {
    if prev == 0 then prevTerm == 0 else prev <= |log| && log[prev - 1].term == prevTerm
  }

  // ------------------------------------------------------------------ elections

  /** A new term has no vote, no known leader and no leadership, and changes nothing else. */
  lemma TermMeaning(s: NodeState, term: nat)
    ensures SetTerm(s, term) == s.(currentTerm := term, votedFor := "", leaderId := "", role := Follower)
  {
  }

  /** A vote is granted exactly when the candidate's term is not an older one, the node has voted for
      nobody else in it, and the candidate's log, described by its length and last term, is at least
      as complete. */
  lemma VoteGrantedIff(s: NodeState, req: RequestVoteRequest, c: seq<Record>)
    requires Indexed(s.log) && Indexed(c) && req.lastLogIndex == |c| && req.lastLogTerm == LastTerm(c)
    ensures HandleRequestVote(s, req).1.voteGranted <==>
            && req.term >= s.currentTerm
            && (req.term > s.currentTerm || s.votedFor == "" || s.votedFor == req.candidateId)
            && Histories.AtLeast(c, s.log)
  {
  }

  /** The reply and the node are in the later of the two terms; the vote is the candidate's if granted,
      is cleared by a new term otherwise, and stays what it was in the same term; only a new term ends
      a role; and nothing else changes. */
  lemma VoteMeaning(s: NodeState, req: RequestVoteRequest)
    ensures var (t, resp) := HandleRequestVote(s, req);
            && resp.term == t.currentTerm == Max(s.currentTerm, req.term)
            && t.votedFor == (if resp.voteGranted then req.candidateId else if req.term > s.currentTerm then "" else s.votedFor)
            && t.role == (if req.term > s.currentTerm then Follower else s.role)
            && t.leaderId == (if req.term > s.currentTerm then "" else s.leaderId)
            && t == s.(currentTerm := t.currentTerm, votedFor := t.votedFor, role := t.role, leaderId := t.leaderId)
  {
  }

  /** A candidate is in the next term, has voted for itself, and describes its log by its length and
      last term. */
  lemma CandidacyMeaning(s: NodeState, self: NodeId)
    requires Indexed(s.log)
    ensures var (t, req) := Campaign(s, self);
            && t == s.(currentTerm := s.currentTerm + 1, votedFor := self, role := Candidate, leaderId := "")
            && req == RequestVoteRequest(s.currentTerm + 1, self, |s.log|, if |s.log| == 0 then 0 else s.log[|s.log| - 1].term)
  {
  }

  /** The election won is the one the node is still standing in, or nothing happens. A new leader
      guesses every peer caught up and knows of no match. */
  lemma WinMeaning(s: NodeState, c: Configs.Config, term: nat)
    requires Indexed(s.log)
    ensures var t := WinElection(s, c, term);
            if s.role == Candidate && s.currentTerm == term then
              && t == s.(role := Leader, leaderId := c.id, nextIndex := t.nextIndex, matchIndex := t.matchIndex)
              && (forall p :: p in c.peers ==>
                    p.id in t.nextIndex && t.nextIndex[p.id] == |s.log| + 1 && p.id in t.matchIndex && t.matchIndex[p.id] == 0)
            else t == s
  {
  }

  // ----------------------------------------------------------------- leader side

  /** An append adds one record: the command's own content, with the term and the next position. */
  lemma AppendMeaning(s: NodeState, term: nat, cmd: Record)
    requires Indexed(s.log)
    ensures LeaderAppend(s, term, cmd) == s.(log := s.log + [Record(term, |s.log| + 1, cmd.op, cmd.key, cmd.value)])
  {
  }

  /** What is sent to a peer: everything past the guess, anchored just before it. */
  lemma RequestMeaning(s: NodeState, self: NodeId, p: NodeId)
    requires p in s.nextIndex && 1 <= s.nextIndex[p] <= |s.log| + 1
    ensures var req, prev := AppendRequest(s, self, p), s.nextIndex[p] - 1;
            && req.term == s.currentTerm && req.leaderId == self && req.leaderCommit == s.commitIndex
            && req.prevLogIndex == prev && Anchored(s.log, prev, req.prevLogTerm)
            && s.log == s.log[..prev] + req.entries
  {
  }

  /** What is sent to a peer to confirm leadership is accepted by any log and changes none. */
  lemma ProbeMeaning(s: NodeState, self: NodeId, log: seq<Record>)
    ensures var req := ProbeRequest(s, self);
            && req.term == s.currentTerm && req.leaderId == self && req.leaderCommit == s.commitIndex
            && AppendAfter(log, req.prevLogIndex, req.prevLogTerm, req.entries) == (true, log)
            && req.prevLogIndex + |req.entries| == 0
  {
  }

  /** An answer of a newer term deposes. A success fixes the peer's match at the end of the request and
      the guess after it. A rejection lowers the guess, to just past the peer's log if that is lower
      and by one if it is not, and never below 1. Nothing else changes. */
  lemma ReplyMeaning(s: NodeState, p: NodeId, req: AppendEntriesRequest, resp: AppendEntriesResponse)
    requires p in s.nextIndex && s.nextIndex[p] >= 1
    ensures var t := HandleAppendReply(s, p, req, resp);
            var next := s.nextIndex[p];
            if resp.term > s.currentTerm then
              t == s.(currentTerm := resp.term, votedFor := "", leaderId := "", role := Follower)
            else if resp.success then
              t == s.(matchIndex := s.matchIndex[p := req.prevLogIndex + |req.entries|],
                      nextIndex := s.nextIndex[p := req.prevLogIndex + |req.entries| + 1])
            else
              t == s.(nextIndex := s.nextIndex[p := if resp.lastLogIndex < next - 1 then resp.lastLogIndex + 1 else Max(1, next - 1)])
  {
    assert s.nextIndex[p := s.nextIndex[p]] == s.nextIndex;
  }

  /** Committing moves nothing but the commit index, never down, and only a leader's. */
  lemma CommitMeaning(s: NodeState, c: Configs.Config)
    ensures var t := AdvanceCommit(s, c);
            t == s.(commitIndex := t.commitIndex) && t.commitIndex >= s.commitIndex && (s.role != Leader ==> t == s)
  {
    CommitNeverFalls(s, c, LastIndex(s.log));
  }

  lemma {:induction false} CommitNeverFalls(s: NodeState, c: Configs.Config, n: nat)
    ensures CommitScan(s, c, n) >= s.commitIndex
    decreases n
  {
    if n > s.commitIndex { CommitNeverFalls(s, c, n - 1); }
  }

  // --------------------------------------------------------------- follower side

  /** A request of an older term is refused and changes nothing. Any other makes the node a follower of
      its sender in its term, and is a success exactly when the anchor is there; only then are the log
      and the commit index touched. The answer carries the term and the length of the log left. */
  lemma FollowMeaning(s: NodeState, req: AppendEntriesRequest)
    ensures var (t, resp) := HandleAppendEntries(s, req);
            && resp.term == t.currentTerm == Max(s.currentTerm, req.term)
            && (resp.success <==> req.term >= s.currentTerm && Anchored(s.log, req.prevLogIndex, req.prevLogTerm))
            && (Indexed(t.log) ==> resp.lastLogIndex == |t.log|)
            && (req.term < s.currentTerm ==> t == s)
            && (req.term >= s.currentTerm ==>
                  t == s.(currentTerm := req.term, votedFor := if req.term > s.currentTerm then "" else s.votedFor,
                          role := Follower, leaderId := req.leaderId, log := t.log, commitIndex := t.commitIndex))
            && (!resp.success ==> t.log == s.log)
  {
    hide Merge;
  }

  /** The log after a success: kept whole if it holds every entry of the request by position and term,
      and otherwise cut where it first does not, with the rest of the request from there. */
  lemma StoreMeaning(s: NodeState, req: AppendEntriesRequest) returns (h: nat)
    requires HandleAppendEntries(s, req).1.success
    ensures var prev, n := req.prevLogIndex, |req.entries|;
            && h <= n && prev + h <= |s.log|
            && (forall j :: 0 <= j < h ==> s.log[prev + j].term == req.entries[j].term)
            && (h < n && prev + h < |s.log| ==> s.log[prev + h].term != req.entries[h].term)
            && HandleAppendEntries(s, req).0.log == if h == n then s.log else s.log[..prev + h] + req.entries[h..]
  {
    hide Merge;
    MergeClosedForm(s.log, req.prevLogIndex, req.entries);
    HeldMeaning(s.log, req.prevLogIndex, req.entries);
    h := Held(s.log, req.prevLogIndex, req.entries);
  }

  /** The commit index after any request: the leader's, capped by the end of the request, if the
      request succeeds and the leader's is ahead; what it was, if not. */
  lemma AdoptedCommit(s: NodeState, req: AppendEntriesRequest)
    ensures var (t, resp) := HandleAppendEntries(s, req);
            t.commitIndex ==
            if resp.success && req.leaderCommit > s.commitIndex then
              (if req.leaderCommit <= req.prevLogIndex + |req.entries| then req.leaderCommit else req.prevLogIndex + |req.entries|)
            else s.commitIndex
  {
    hide Merge;
  }

  // ------------------------------------------------------------ applying, restarting

  /** One turn: the next entry, if committed and stored, and its effect on one key. */
  lemma TurnMeaning(s: NodeState)
    ensures CanApply(s) <==> s.lastApplied < s.commitIndex && s.lastApplied < |s.log|
    ensures CanApply(s) ==>
              && ApplyOne(s) == s.(lastApplied := s.lastApplied + 1, store := ApplyOne(s).store)
              && var r := s.log[s.lastApplied];
              && (r.op == "set" ==> ApplyOne(s).store == s.store[r.key := r.value])
              && (r.op == "delete" ==> ApplyOne(s).store == s.store - {r.key})
              && (r.op != "set" && r.op != "delete" ==> ApplyOne(s).store == s.store)
  {
  }

  /** What survives a restart is the term, the vote and the log. */
  lemma RestartMeaning(s: NodeState)
    ensures Restart(s) == NodeState(s.currentTerm, s.votedFor, Follower, "", s.log, 0, 0, map[], map[], map[])
  {
  }

  /** A leader is settled exactly when nothing of an earlier term is left above its commit index. */
  lemma SettledIff(s: NodeState)
    requires forall j, k :: 0 <= j <= k < |s.log| ==> s.log[j].term <= s.log[k].term <= s.currentTerm
    ensures Settled(s) <==> forall k :: s.commitIndex <= k < |s.log| ==> s.log[k].term == s.currentTerm
  {
  }
}
