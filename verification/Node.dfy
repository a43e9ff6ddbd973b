/** One member of the cluster, field by field. Every method is proved to perform the transition of
    the same name on the node's abstract state. A persist or disk error ends the node's run: the
    contracts say what it leaves behind, and that no reply was given. */
module Nodes {
  import opened Records
  import Engines
  import opened Configs
  import opened LogSpec
  import opened Messages
  import opened Wals
  import Frames
  import opened States
  import opened Logs
  import Readers
  import opened Walkback
  import opened NodeSpec

  /** Counting answers as they arrive: stop at a majority, or when everyone has answered and it is
      still short, or when answers stop coming. */
  method CountToMajority(need: nat, peers: nat, answers: seq<bool>) returns (reached: bool)
    requires |answers| <= peers
    ensures reached <==> 1 + Yes(answers) >= need
  {
    var got, replies := 1, 0;
    while got < need
      invariant replies <= |answers| && got == 1 + Yes(answers[..replies])
      decreases |answers| - replies
    {
      if replies == peers || replies == |answers| {
        assert answers[..replies] == answers;
        return false;
      }
      assert answers[..replies + 1][..replies] == answers[..replies];
      if answers[replies] { got := got + 1; }
      replies := replies + 1;
    }
    YesGrows(answers, replies);
    return true;
  }

  function Yes(answers: seq<bool>): nat {
    if |answers| == 0 then 0 else Yes(answers[..|answers| - 1]) + if answers[|answers| - 1] then 1 else 0
  }

  lemma {:induction false} YesGrows(answers: seq<bool>, k: nat)
    requires k <= |answers|
    ensures Yes(answers[..k]) <= Yes(answers)
  {
    if k < |answers| {
      YesGrows(answers[..|answers| - 1], k);
      assert answers[..|answers| - 1][..k] == answers[..k];
    } else {
      assert answers[..k] == answers;
    }
  }

  /** Probe answers that still accept a leader of a term; None is a peer that could not be reached. */
  function Accepting(term: nat, answers: seq<Option<AppendEntriesResponse>>): nat {
    if |answers| == 0 then 0
    else Accepting(term, answers[..|answers| - 1]) + if Accepts(term, answers[|answers| - 1]) then 1 else 0
  }

  predicate Accepts(term: nat, answer: Option<AppendEntriesResponse>) {
    answer.Some? && answer.value.success && answer.value.term <= term
  }

  predicate Deposes(term: nat, answer: Option<AppendEntriesResponse>) {
    answer.Some? && answer.value.term > term
  }

  /** Answer k is the first from a newer term, and comes before any majority. */
  ghost predicate FirstDeposes(c: Config, term: nat, answers: seq<Option<AppendEntriesResponse>>, k: nat) {
    && k < |answers| && Deposes(term, answers[k]) && (forall i :: 0 <= i < k ==> !Deposes(term, answers[i]))
    && forall j: nat :: j <= k ==> 1 + Accepting(term, answers[..j]) < c.Majority()
  }

  /** The first k answers make a majority, and none of them is from a newer term. */
  ghost predicate Confirmed(c: Config, term: nat, answers: seq<Option<AppendEntriesResponse>>, k: nat) {
    && k <= |answers| && 1 + Accepting(term, answers[..k]) >= c.Majority()
    && forall i :: 0 <= i < k ==> !Deposes(term, answers[i])
  }

  /** Counting the answers counts the peers that said yes. */
  lemma {:induction false} YesCounts(answers: seq<bool>)
    ensures Yes(answers) == |set i | 0 <= i < |answers| && answers[i]|
  {
    if |answers| > 0 {
      var front, last := answers[..|answers| - 1], |answers| - 1;
      YesCounts(front);
      var before := set i | 0 <= i < |front| && front[i];
      assert (set i | 0 <= i < |answers| && answers[i]) == if answers[last] then before + {last} else before;
    }
  }

  lemma {:induction false} AcceptingCounts(term: nat, answers: seq<Option<AppendEntriesResponse>>)
    ensures Accepting(term, answers) == |set i | 0 <= i < |answers| && Confirming(term, answers, i)|
  {
    if |answers| > 0 {
      var front, last := answers[..|answers| - 1], |answers| - 1;
      AcceptingCounts(term, front);
      var before := set i | 0 <= i < |front| && Confirming(term, front, i);
      var all := set i | 0 <= i < |answers| && Confirming(term, answers, i);
      assert forall i :: 0 <= i < |front| ==> (Confirming(term, front, i) <==> Confirming(term, answers, i));
      hide Confirming;
      if Accepts(term, answers[last]) { assert all == before + {last}; } else { assert all == before; }
    }
  }

  /** Answer i is a success, in a term no newer. */
  predicate Confirming(term: nat, answers: seq<Option<AppendEntriesResponse>>, i: nat)
    requires i < |answers|
  {
    answers[i].Some? && answers[i].value.success && answers[i].value.term <= term
  }

  lemma SetOneMore(m: map<NodeId, nat>, peers: seq<Peer>, i: nat, v: nat)
    requires i < |peers|
    ensures SetAll(m, IdsOf(peers[..i + 1]), v) == SetAll(m, IdsOf(peers[..i]), v)[peers[i].id := v]
  {
    assert IdsOf(peers[..i + 1]) == IdsOf(peers[..i]) + {peers[i].id};
  }

  lemma SetAllSets(m: map<NodeId, nat>, ids: set<NodeId>, v: nat)
    ensures SetAll(m, {}, v) == m
    ensures forall p :: p in ids ==> Get(SetAll(m, ids, v), p) == v
  {
  }

  class Node {
    const cfg: Config
    const log: Log
    const engine: Engines.Engine
    const disk: StateStore

    var currentTerm: nat
    var votedFor: NodeId
    var role: Role
    var leaderId: NodeId
    var commitIndex: nat
    var lastApplied: nat
    var nextIndex: map<NodeId, nat>
    var matchIndex: map<NodeId, nat>

    ghost function Repr(): set<object> {
      log.Repr() + {this, log, engine, disk}
    }

    ghost predicate Valid()
      reads Repr()
    {
      && log.Valid()
      && (role == Leader ==> forall p :: p in cfg.PeerIds() ==> Get(nextIndex, p) >= 1)
    }

    /** The abstract state. */
    function View(): NodeState
      reads this, log, engine
    {
      NodeState(currentTerm, votedFor, role, leaderId, log.Contents(), commitIndex, lastApplied, nextIndex, matchIndex, engine.data)
    }

    /** The disk holds the pair in memory. */
    ghost predicate Persisted()
      reads this, disk
    {
      disk.Load() == Restored(PersistentState(currentTerm, votedFor))
        || (disk.Load() == Fresh && currentTerm == 0 && votedFor == NOBODY)
    }

    /** The codec gives every pair back. */
    ghost predicate PairsRoundTrip() {
      forall st :: disk.codec.unmarshal(disk.codec.marshal(st)) == Some(st)
    }

    /** Come back exactly where the disk left off. */
    constructor (cfg: Config, log: Log, engine: Engines.Engine, disk: StateStore)
      requires log.Valid() && engine.data == map[] && !disk.Load().Unreadable?
      ensures this.cfg == cfg && this.log == log && this.engine == engine && this.disk == disk
      ensures Valid() && Persisted()
      ensures View() == NodeState(disk.Holds().currentTerm, disk.Holds().votedFor, Follower, NOBODY, log.Contents(),
                                  0, 0, map[], map[], map[])
      ensures disk.file == None ==> currentTerm == 0 && votedFor == ""
      ensures disk.file.Some? ==> disk.codec.unmarshal(disk.file.value) == Some(PersistentState(currentTerm, votedFor))
    {
      this.cfg, this.log, this.engine, this.disk := cfg, log, engine, disk;
      currentTerm, votedFor := disk.Holds().currentTerm, disk.Holds().votedFor;
      role, leaderId := Follower, NOBODY;
      commitIndex, lastApplied := 0, 0;
      nextIndex, matchIndex := map[], map[];
    }

    method Persist(progress: Progress) returns (ok: bool)
      requires Valid() && PairsRoundTrip()
      modifies disk
      ensures ok <==> progress.Complete?
      ensures ok ==> Persisted()
      ensures !ok ==> disk.Load() == old(disk.Load()) || Persisted()
    {
      ok := disk.Save(PersistentState(currentTerm, votedFor), progress);
    }

    method EnterTerm(term: nat, progress: Progress) returns (ok: bool)
      requires Valid() && PairsRoundTrip()
      modifies this`currentTerm, this`votedFor, this`leaderId, this`role, disk
      ensures Valid() && View() == SetTerm(old(View()), term)
      ensures ok <==> progress.Complete?
      ensures ok ==> Persisted()
    {
      currentTerm := term;
      votedFor := NOBODY;
      leaderId := NOBODY;
      role := Follower;
      ok := Persist(progress);
    }

    // ------------------------------------------------------------------ elections

    method LogUpToDate(lastIndex: nat, lastTerm: nat) returns (ok: bool)
      requires Valid()
      ensures ok == UpToDate(log.Contents(), lastIndex, lastTerm)
    {
      var ourIndex := log.LastIndexOf();
      var ourTerm := log.LastTermOf();
      if lastTerm != ourTerm { return lastTerm > ourTerm; }
      return lastIndex >= ourIndex;
    }

    /** Whatever is replied is on disk first. */
    method HandleRequestVote(req: RequestVoteRequest, entering: Progress, voting: Progress)
      returns (res: Outcome<RequestVoteResponse>)
      requires Valid() && PairsRoundTrip()
      modifies this`currentTerm, this`votedFor, this`leaderId, this`role, disk
      ensures Valid()
      ensures res.Ok? ==> (View(), res.value) == NodeSpec.HandleRequestVote(old(View()), req)
      ensures res.Ok? && old(Persisted()) ==> Persisted()
      ensures res.Ok? <==> (req.term > old(currentTerm) ==> entering.Complete?)
                           && (NodeSpec.HandleRequestVote(old(View()), req).1.voteGranted ==> voting.Complete?)
      ensures res.Failed? ==> View() == if req.term > old(currentTerm) && !entering.Complete? then SetTerm(old(View()), req.term)
                                        else NodeSpec.HandleRequestVote(old(View()), req).0
    {
      if req.term < currentTerm { return Ok(RequestVoteResponse(currentTerm, false)); }
      if req.term > currentTerm {
        var ok := EnterTerm(req.term, entering);
        if !ok { return Failed; }
      }
      if votedFor != NOBODY && votedFor != req.candidateId { return Ok(RequestVoteResponse(currentTerm, false)); }
      var upToDate := LogUpToDate(req.lastLogIndex, req.lastLogTerm);
      if !upToDate { return Ok(RequestVoteResponse(currentTerm, false)); }
      votedFor := req.candidateId;
      var saved := Persist(voting);
      if !saved { return Failed; }
      return Ok(RequestVoteResponse(currentTerm, true));
    }

    /** Candidacy: the term and the vote for oneself are on disk before any request goes out. */
    method StandForElection(progress: Progress) returns (res: Outcome<RequestVoteRequest>)
      requires Valid() && PairsRoundTrip()
      modifies this`currentTerm, this`votedFor, this`leaderId, this`role, disk
      ensures Valid() && View() == Campaign(old(View()), cfg.id).0
      ensures res.Ok? ==> Persisted() && res.value == Campaign(old(View()), cfg.id).1
      ensures res.Ok? <==> progress.Complete?
    {
      currentTerm := currentTerm + 1;
      votedFor := cfg.id;
      role := Candidate;
      leaderId := NOBODY;
      var lastIndex := log.LastIndexOf();
      var lastTerm := log.LastTermOf();
      var ok := Persist(progress);
      if !ok { return Failed; }
      return Ok(RequestVoteRequest(currentTerm, cfg.id, lastIndex, lastTerm));
    }

    method WinElection(term: nat)
      requires Valid()
      modifies this`role, this`leaderId, this`nextIndex, this`matchIndex
      ensures Valid() && View() == NodeSpec.WinElection(old(View()), cfg, term)
    {
      if role != Candidate || currentTerm != term { return; }
      BecomeLeader();
    }

    /** Optimistic bookkeeping, one peer at a time. */
    method BecomeLeader()
      requires Valid()
      modifies this`role, this`leaderId, this`nextIndex, this`matchIndex
      ensures Valid() && View() == NodeSpec.BecomeLeader(old(View()), cfg)
    {
      hide SetAll;
      role := Leader;
      leaderId := cfg.id;
      var last := log.LastIndexOf();
      ghost var next0, match0 := nextIndex, matchIndex;
      SetAllSets(next0, cfg.PeerIds(), last + 1);
      SetAllSets(match0, cfg.PeerIds(), 0);
      assert IdsOf(cfg.peers[..0]) == {};
      for i := 0 to |cfg.peers|
        invariant role == Leader && leaderId == cfg.id
        invariant nextIndex == SetAll(next0, IdsOf(cfg.peers[..i]), last + 1)
        invariant matchIndex == SetAll(match0, IdsOf(cfg.peers[..i]), 0)
      {
        SetOneMore(next0, cfg.peers, i, last + 1);
        SetOneMore(match0, cfg.peers, i, 0);
        nextIndex := nextIndex[cfg.peers[i].id := last + 1];
        matchIndex := matchIndex[cfg.peers[i].id := 0];
      }
      assert cfg.peers[..|cfg.peers|] == cfg.peers;
    }

    // ---------------------------------------------------------------- leader side

    method BuildAppend(p: NodeId) returns (req: AppendEntriesRequest)
      requires Valid() && role == Leader && p in cfg.PeerIds()
      ensures req == AppendRequest(View(), cfg.id, p)
    {
      var prevIndex := nextIndex[p] - 1;
      var prev, _ := log.At(prevIndex);
      var entries := log.From(prevIndex + 1);
      req := AppendEntriesRequest(currentTerm, cfg.id, prevIndex, prev.term, entries, commitIndex);
    }

    method HandleReply(p: NodeId, req: AppendEntriesRequest, resp: AppendEntriesResponse, progress: Progress) returns (done: bool)
      requires Valid() && PairsRoundTrip()
      modifies this`currentTerm, this`votedFor, this`leaderId, this`role, this`nextIndex, this`matchIndex, disk
      ensures Valid() && View() == HandleAppendReply(old(View()), p, req, resp)
      ensures done <==> resp.term > old(currentTerm) || resp.success
      ensures resp.term > old(currentTerm) ==> role == Follower && currentTerm == resp.term && votedFor == ""
      ensures old(Persisted()) && progress.Complete? ==> Persisted()
    {
      if resp.term > currentTerm {
        var _ := EnterTerm(resp.term, progress);
        return true;
      }
      if resp.success {
        matchIndex := matchIndex[p := req.prevLogIndex + |req.entries|];
        nextIndex := nextIndex[p := matchIndex[p] + 1];
        return true;
      }
      if resp.lastLogIndex + 1 < Get(nextIndex, p) {
        nextIndex := nextIndex[p := resp.lastLogIndex + 1];
      } else if Get(nextIndex, p) > 1 {
        nextIndex := nextIndex[p := nextIndex[p] - 1];
      }
      return false;
    }

    /** The proposal reaches the leader's own log first, or nothing is promised. */
    method AppendCommand(cmd: Record, faults: nat -> Fault) returns (res: Outcome<nat>)
      requires Valid()
      modifies log.Repr()
      ensures Valid()
      ensures role != Leader ==> res.Failed? && View() == old(View())
      ensures res.Ok? ==> role == Leader && View() == LeaderAppend(old(View()), currentTerm, cmd)
                          && res.value == LastIndex(log.Contents())
      ensures role == Leader && (log.w == null || forall i :: faults(i).NoFault?) ==> res.Ok?
      ensures res.Failed? ==> View() == old(View())
      ensures res.Ok? && old(log.Durable()) && log.Stores(Stamp(old(log.Contents()), currentTerm, cmd)) ==> log.Durable()
    {
      if role != Leader { return Failed; }
      ghost var before := log.Contents();
      var appended, ok := log.Append(currentTerm, [cmd], faults);
      assert Stamps(before, currentTerm, []) == [];
      assert before + [] == before;
      assert [cmd][..0] == [] && [cmd][..1] == [cmd];
      assert Stamps(before, currentTerm, [cmd]) == [Stamp(before, currentTerm, cmd)];
      if !ok { return Failed; }
      return Ok(appended[0].index);
    }

    /** One replication call against a reachable follower that stays put: rejections walk the guess
        back, an acceptance brings the follower's log to agree with the whole of ours. */
    method ReplicateTo(p: NodeId, peer: NodeState) returns (ok: bool, attempts: nat, peer': NodeState)
      requires Valid() && PairsRoundTrip() && role == Leader && p in cfg.PeerIds()
      requires nextIndex[p] <= |log.Contents()| + 1
      requires peer.currentTerm <= currentTerm && Indexed(peer.log) && LogMatching(peer.log, log.Contents())
      modifies this`currentTerm, this`votedFor, this`leaderId, this`role, this`nextIndex, this`matchIndex, disk
      ensures Valid() && log.Contents() == old(log.Contents())
      ensures var needed := Attempts(log.Contents(), peer.log, old(nextIndex[p]) - 1);
              (ok <==> needed <= MAX_WALKBACK_ATTEMPTS) && attempts == Min(needed, MAX_WALKBACK_ATTEMPTS)
      ensures ok ==> Agree(peer'.log, log.Contents(), |log.Contents()|)
      ensures ok ==> View() == old(View()).(matchIndex := old(matchIndex)[p := |log.Contents()|],
                                            nextIndex := old(nextIndex)[p := |log.Contents()| + 1])
      ensures !ok ==> peer'.log == peer.log && p in nextIndex && 1 <= nextIndex[p] <= old(nextIndex[p]) - attempts
                      && View() == old(View()).(nextIndex := nextIndex)
    {
      hide Attempts, LogMatching, Matches, Agree, Indexed;
      attempts, peer' := 0, peer;
      ghost var l, start := log.Contents(), View();
      while attempts < MAX_WALKBACK_ATTEMPTS
        invariant Valid() && attempts <= MAX_WALKBACK_ATTEMPTS
        invariant p in nextIndex && 1 <= nextIndex[p] <= old(nextIndex[p]) - attempts
        invariant View() == start.(nextIndex := start.nextIndex[p := nextIndex[p]])
        invariant peer'.log == peer.log && peer'.currentTerm <= currentTerm
        invariant Attempts(l, peer.log, old(nextIndex[p]) - 1) == attempts + Attempts(l, peer.log, nextIndex[p] - 1)
        decreases MAX_WALKBACK_ATTEMPTS - attempts
      {
        AttemptOnce(l, peer.log, nextIndex[p] - 1);
        ok, peer' := TryOnce(p, peer');
        attempts := attempts + 1;
        if ok { return; }
      }
      AttemptAtLeastOne(l, peer.log, nextIndex[p] - 1);
      ok := false;
    }

    /** One attempt: send from the guess, hear the answer. */
    method TryOnce(p: NodeId, peer: NodeState) returns (ok: bool, peer': NodeState)
      requires Valid() && PairsRoundTrip() && role == Leader && p in cfg.PeerIds() && p in nextIndex
      requires nextIndex[p] <= |log.Contents()| + 1
      requires peer.currentTerm <= currentTerm && Indexed(peer.log) && LogMatching(peer.log, log.Contents())
      modifies this`currentTerm, this`votedFor, this`leaderId, this`role, this`nextIndex, this`matchIndex, disk
      ensures Valid() && log.Contents() == old(log.Contents()) && peer'.currentTerm == currentTerm
      ensures ok <==> Matches(peer.log, old(nextIndex[p]) - 1, TermAt(log.Contents(), old(nextIndex[p]) - 1))
      ensures ok ==> Agree(peer'.log, log.Contents(), |log.Contents()|)
      ensures ok ==> View() == old(View()).(matchIndex := old(matchIndex)[p := |log.Contents()|],
                                            nextIndex := old(nextIndex)[p := |log.Contents()| + 1])
      ensures !ok ==> peer'.log == peer.log
                      && View() == old(View()).(nextIndex := WalkBack(old(nextIndex), p, |peer.log|))
    {
      hide LogMatching, NodeSpec.HandleAppendEntries, AppendRequest, Matches, Agree, Indexed, WalkBack, TermAt;
      var req := BuildAppend(p);
      PeerAnswers(View(), cfg.id, p, peer);
      var answer := NodeSpec.HandleAppendEntries(peer, req);
      peer' := answer.0;
      ok := HandleReply(p, req, answer.1, Complete);
    }

    // ------------------------------------------------------------ commit and apply

    method AdvanceCommit()
      requires Valid()
      modifies this`commitIndex
      ensures Valid() && View() == NodeSpec.AdvanceCommit(old(View()), cfg)
    {
      if role != Leader { return; }
      ghost var before := View();
      var n: nat := log.LastIndexOf();
      while n > commitIndex
        invariant View() == before && Valid()
        invariant CommitScan(before, cfg, LastIndex(before.log)) == CommitScan(before, cfg, n)
        decreases n
      {
        var e, ok := log.At(n);
        if ok {
          if e.term != currentTerm { return; }
          var count := 1;
          for i := 0 to |cfg.peers|
            invariant count == 1 + CountMatches(matchIndex, cfg.peers[..i], n)
          {
            assert cfg.peers[..i + 1][..i] == cfg.peers[..i];
            if Get(matchIndex, cfg.peers[i].id) >= n { count := count + 1; }
          }
          assert cfg.peers[..|cfg.peers|] == cfg.peers;
          if count >= cfg.Majority() {
            commitIndex := n;
            return;
          }
        }
        n := n - 1;
      }
    }

    /** Every newly committed entry to the state machine, in index order. */
    method ApplyCommitted()
      requires Valid()
      modifies this`lastApplied, engine
      ensures Valid() && View() == ApplyAll(old(View()))
    {
      ghost var before := View();
      while true
        invariant Valid() && log.Contents() == before.log
        invariant ApplyAll(View()) == ApplyAll(before)
        decreases commitIndex - lastApplied
      {
        var next := lastApplied + 1;
        if next > commitIndex { return; }
        var entry, ok := log.At(next);
        if !ok { return; }
        ghost var turn := View();
        engine.Apply(entry);
        lastApplied := next;
        assert View() == ApplyOne(turn);
      }
    }

    /** After a majority answered: commit, apply, and report success only if the commit index
        reached the proposal, in which case it has been applied here. */
    method FinishProposal(index: nat, answers: seq<bool>) returns (ok: bool)
      requires Valid() && |answers| <= |cfg.peers|
      modifies this`commitIndex, this`lastApplied, engine
      ensures Valid()
      ensures ok <==> 1 + Yes(answers) >= cfg.Majority() && index <= commitIndex
      ensures ok && commitIndex <= |log.Contents()| ==> index <= lastApplied
      ensures View() == if 1 + Yes(answers) >= cfg.Majority()
                        then ApplyAll(NodeSpec.AdvanceCommit(old(View()), cfg)) else old(View())
    {
      var reached := CountToMajority(cfg.Majority(), |cfg.peers|, answers);
      if !reached { return false; }
      AdvanceCommit();
      ghost var before := View();
      ApplyCommitted();
      ApplyAllReaches(before);
      return index <= commitIndex;
    }

    // ----------------------------------------------------------- strong reads

    method BuildProbe() returns (req: AppendEntriesRequest)
      requires Valid()
      ensures req == ProbeRequest(View(), cfg.id)
    {
      req := AppendEntriesRequest(currentTerm, cfg.id, 0, 0, [], commitIndex);
    }

    method HandleProbeReply(resp: AppendEntriesResponse, progress: Progress) returns (ok: bool)
      requires Valid() && PairsRoundTrip()
      modifies this`currentTerm, this`votedFor, this`leaderId, this`role, disk
      ensures Valid() && View() == if resp.term > old(currentTerm) then SetTerm(old(View()), resp.term) else old(View())
      ensures ok <==> Accepts(old(currentTerm), Some(resp))
    {
      if resp.term > currentTerm {
        var _ := EnterTerm(resp.term, progress);
        return false;
      }
      return resp.success;
    }

    /** A read round: capture the commit index first, then hear from a majority, then still be the
        leader. It succeeds exactly when a majority accepts before any newer term is heard of, and
        then nothing about the node has changed. */
    method ConfirmRound(answers: seq<Option<AppendEntriesResponse>>) returns (res: Outcome<nat>)
      requires Valid() && PairsRoundTrip() && |answers| <= |cfg.peers|
      modifies this`currentTerm, this`votedFor, this`leaderId, this`role, disk
      ensures Valid()
      ensures res.Ok? <==> old(role) == Leader && exists k :: Confirmed(cfg, old(currentTerm), answers, k)
      ensures res.Ok? ==> res.value == old(commitIndex) && View() == old(View())
      ensures (forall k :: 0 <= k < |answers| ==> !Deposes(old(currentTerm), answers[k])) ==> View() == old(View())
      ensures forall k: nat :: FirstDeposes(cfg, old(currentTerm), answers, k) && old(role) == Leader ==>
                && currentTerm >= answers[k].value.term && role == Follower
                && View() == SetTerm(old(View()), currentTerm)
    {
      if role != Leader { return Failed; }
      var readIndex := commitIndex;
      if |cfg.peers| == 0 {
        assert Confirmed(cfg, currentTerm, answers, 0);
        return Ok(readIndex);
      }
      ghost var term, before := currentTerm, View();
      var got, replies := 1, 0;
      while got < cfg.Majority()
        invariant Valid() && replies <= |answers|
        invariant role == Leader ==> View() == before && got == 1 + Accepting(term, answers[..replies])
        invariant role == Leader ==> forall i :: 0 <= i < replies ==> !Deposes(term, answers[i])
        invariant role != Leader ==> exists i :: 0 <= i < replies && Deposes(term, answers[i])
        invariant role != Leader ==> currentTerm > term && View() == SetTerm(before, currentTerm)
        invariant forall i :: 0 <= i < replies && Deposes(term, answers[i]) ==> currentTerm >= answers[i].value.term
        invariant forall k: nat :: k < replies ==> !Confirmed(cfg, term, answers, k)
        decreases |answers| - replies
      {
        if replies == |cfg.peers| || replies == |answers| {
          return Failed;
        }
        var answer := answers[replies];
        assert answers[..replies + 1][..replies] == answers[..replies];
        if answer.Some? {
          var ok := HandleProbeReply(answer.value, Complete);
          if ok { got := got + 1; }
        }
        replies := replies + 1;
      }
      if role != Leader { return Failed; }
      assert Confirmed(cfg, term, answers, replies);
      return Ok(readIndex);
    }

    // -------------------------------------------------------------- follower side

    method HandleAppendEntries(req: AppendEntriesRequest, entering: Progress, faults: Faults)
      returns (res: Outcome<AppendEntriesResponse>)
      requires Valid() && PairsRoundTrip()
      modifies Repr()
      ensures Valid()
      ensures res.Ok? ==> res.value == NodeSpec.HandleAppendEntries(old(View()), req).1
      ensures res.Ok? ==> View() == ApplyAll(NodeSpec.HandleAppendEntries(old(View()), req).0)
      ensures entering.Complete? && log.w == null ==> res.Ok?
      ensures entering.Complete? && old(log.Durable()) && faults.None() && (forall e :: e in req.entries ==> log.Stores(e)) ==> res.Ok?
      ensures req.term < old(currentTerm) ==> res.Ok?
      ensures res.Ok? && old(log.Durable()) && (forall e :: e in req.entries ==> log.Stores(e)) ==> log.Durable()
      ensures res.Ok? && old(Persisted()) ==> Persisted()
      ensures res.Failed? ==> old(currentTerm) <= req.term == currentTerm && lastApplied == old(lastApplied)
                              && engine.data == old(engine.data) && commitIndex == old(commitIndex)
      ensures res.Failed? && log.Contents() != old(log.Contents()) ==>
                exists j, mid :: IsCrashPoint(log.Contents(), old(log.Contents()), req.prevLogIndex, req.entries, j, mid)
    {
      var resp := Follow(req, entering, faults);
      if resp.Failed? { return Failed; }
      ApplyCommitted();
      return resp;
    }

    /** A term at least as high as ours is authoritative: step down and follow its sender. */
    method AcceptLeader(req: AppendEntriesRequest, entering: Progress) returns (ok: bool)
      requires Valid() && PairsRoundTrip() && req.term >= currentTerm
      modifies this`currentTerm, this`votedFor, this`leaderId, this`role, disk
      ensures Valid() && currentTerm == req.term
      ensures role == Follower && votedFor == if req.term > old(currentTerm) then "" else old(votedFor)
      ensures ok ==> View() == FollowLeader(old(View()), req)
      ensures ok && old(Persisted()) ==> Persisted()
      ensures ok <==> entering.Complete? || req.term == old(currentTerm)
      ensures !ok ==> View() == SetTerm(old(View()), req.term)
    {
      if req.term > currentTerm {
        ok := EnterTerm(req.term, entering);
        if !ok { return; }
      }
      role := Follower;
      leaderId := req.leaderId;
      return true;
    }

    /** The part under the node's lock. */
    method Follow(req: AppendEntriesRequest, entering: Progress, faults: Faults)
      returns (res: Outcome<AppendEntriesResponse>)
      requires Valid() && PairsRoundTrip()
      modifies this`currentTerm, this`votedFor, this`leaderId, this`role, this`commitIndex, disk, log.Repr()
      ensures Valid()
      ensures res.Ok? ==> (View(), res.value) == NodeSpec.HandleAppendEntries(old(View()), req)
      ensures entering.Complete? && log.w == null ==> res.Ok?
      ensures entering.Complete? && old(log.Durable()) && faults.None() && (forall e :: e in req.entries ==> log.Stores(e)) ==> res.Ok?
      ensures req.term < old(currentTerm) ==> res.Ok?
      ensures res.Ok? && old(log.Durable()) && (forall e :: e in req.entries ==> log.Stores(e)) ==> log.Durable()
      ensures res.Ok? && old(Persisted()) ==> Persisted()
      ensures res.Failed? ==> old(currentTerm) <= req.term == currentTerm && commitIndex == old(commitIndex)
      ensures res.Failed? ==> role == Follower && votedFor == if req.term > old(currentTerm) then "" else old(votedFor)
      ensures res.Failed? && log.Contents() != old(log.Contents()) ==>
                exists j, mid :: IsCrashPoint(log.Contents(), old(log.Contents()), req.prevLogIndex, req.entries, j, mid)
    {
      hide FollowLeader, SetTerm, Faults.None, IsCrashPoint, Readers.Scan, InStep, ExactFrames, LogSpec.AppendAfter, Frames.Storable, Log.Stores, Log.Durable, Log.Exact, Log.Recovered;
      if req.term < currentTerm {
        var last := log.LastIndexOf();
        return Ok(AppendEntriesResponse(currentTerm, false, last));
      }
      var entered := AcceptLeader(req, entering);
      if !entered { return Failed; }
      RejectionKeeps(log.Contents(), req);
      var appended := log.AppendAfter(req.prevLogIndex, req.prevLogTerm, req.entries, faults);
      if appended.Failed? { return Failed; }
      var last := log.LastIndexOf();
      if !appended.value { return Ok(AppendEntriesResponse(currentTerm, false, last)); }
      if req.leaderCommit > commitIndex {
        commitIndex := Min(req.leaderCommit, req.prevLogIndex + |req.entries|);
      }
      return Ok(AppendEntriesResponse(currentTerm, true, last));
    }
  }

  lemma AttemptOnce(leader: seq<Record>, follower: seq<Record>, p: nat)
    requires Indexed(follower)
    ensures LastIndex(follower) == |follower|
    ensures p == 0 ==> Matches(follower, p, TermAt(leader, p))
    ensures Attempts(leader, follower, p) ==
            if Matches(follower, p, TermAt(leader, p)) then 1
            else 1 + Attempts(leader, follower, if |follower| < p then |follower| else p - 1)
  {
  }

  lemma AttemptAtLeastOne(leader: seq<Record>, follower: seq<Record>, p: nat)
    ensures Attempts(leader, follower, p) >= 1
  {
  }

  /** What a peer in the same or an earlier term answers to a replication request: it accepts
      exactly when it matches the anchor, and then agrees with the sender's whole log; otherwise it
      keeps its log and says how long it is. */
  lemma PeerAnswers(s: NodeState, self: NodeId, p: NodeId, peer: NodeState)
    requires 1 <= Get(s.nextIndex, p) <= |s.log| + 1 && peer.currentTerm <= s.currentTerm
    requires Indexed(peer.log) && LogMatching(peer.log, s.log)
    ensures var req := AppendRequest(s, self, p);
            var (t, resp) := NodeSpec.HandleAppendEntries(peer, req);
            var anchor := Get(s.nextIndex, p) - 1;
            && req.prevLogIndex == anchor && anchor + |req.entries| == |s.log|
            && resp.term == t.currentTerm == s.currentTerm
            && (resp.success <==> Matches(peer.log, anchor, TermAt(s.log, anchor)))
            && (resp.success ==> Agree(t.log, s.log, |s.log|))
            && (!resp.success ==> t.log == peer.log && resp.lastLogIndex == |peer.log|)
  {
    hide LogMatching, Merge, Agree, Absorbed;
    var req := AppendRequest(s, self, p);
    var anchor := Get(s.nextIndex, p) - 1;
    assert req.entries == s.log[anchor..anchor + (|s.log| - anchor)];
    if Matches(peer.log, anchor, TermAt(s.log, anchor)) {
      MergeAbsorbs(peer.log, s.log, anchor, |s.log| - anchor);
    }
  }

  lemma RejectionKeeps(log: seq<Record>, req: AppendEntriesRequest)
    ensures var (ok, x) := AppendAfter(log, req.prevLogIndex, req.prevLogTerm, req.entries); ok || x == log
  {
  }
}
