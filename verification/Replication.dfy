/** Replication, crash, restart and leader steps keep the invariant. */
module Replication {
  import opened Records
  import Engines
  import Configs
  import opened LogSpec
  import opened Messages
  import opened NodeSpec
  import opened Histories
  import opened Cluster
  import opened Invariants
  import opened Preservation

  // ------------------------------------------------------------ taking in a request

  /** What a node accepted from earlier leaders stays retained through any absorption. */
  lemma AbsorbRetains(h: History, n: NodeId, log: seq<Record>, term: nat, b: nat, x: seq<Record>)
    requires ReignsOk(h) && AcceptedOk(h) && AllRetained(h, n, log, b) && b <= term + 1
    requires forall t: nat :: t >= b ==> AcceptedLen(h, n, t) == 0
    requires term in h.reigns && Absorbed(log, h.reigns[term].log, x)
    ensures AllRetained(h, n, x, term + 1)
  {
    AllRetainedLater(h, n, log, b, term + 1);
    forall t: nat, i: nat {:trigger Retained(h, x, t, i, term + 1)} | i <= AcceptedLen(h, n, t) && t < term + 1
      ensures Retained(h, x, t, i, term + 1)
    {
      assert Retained(h, log, t, i, term + 1);
      if LeaderPrefix(h, t, i) <= log { AbsorbKeepsOrSupersedes(h, log, term, x, t, i); }
    }
  }

  lemma AbsorbKeepsOrSupersedes(h: History, log: seq<Record>, term: nat, x: seq<Record>, t: nat, i: nat)
    requires ReignsOk(h) && term in h.reigns && t <= term
    requires i > 0 ==> t in h.reigns && i <= |h.reigns[t].log|
    requires Absorbed(log, h.reigns[term].log, x) && LeaderPrefix(h, t, i) <= log
    ensures Retained(h, x, t, i, term + 1)
  {
    hide LogOk, Configs.IsQuorum, Electors;
    var p, l := LeaderPrefix(h, t, i), h.reigns[term].log;
    if !(p <= x) {
      assert Conflict(log, l, x);
      var k: nat :| k <= |x| && k < |log| && k < |l| && log[k].term != l[k].term && log[..k] == l[..k];
      assert x[..k] == l[..k] == log[..k];
      assert k < |p| by { PrefixOfBoth(p, log, x, k); }
      assert p[k] == log[k];
      assert ReignOk(h, term);
      assert !(p <= h.reigns[term].elected);
      assert Superseded(h, t, i, term, term + 1);
    }
  }

  lemma PrefixOfBoth(p: seq<Record>, a: seq<Record>, b: seq<Record>, k: nat)
    requires p <= a && k <= |a| && k <= |b| && a[..k] == b[..k]
    ensures |p| <= k ==> p <= b
  {
    if |p| <= k { assert p == a[..k][..|p|] == b[..k][..|p|]; }
  }

  /** A committed prefix is in the log of every leader of its own or a later term. */
  lemma CommittedInLeader(h: History, log: seq<Record>, c: nat, bound: nat, term: nat)
    requires HistInv(h) && CommittedPrefix(h, log, c, bound) && bound <= term && term in h.reigns && c <= |log|
    ensures Agree(log, h.reigns[term].log, c)
  {
    hide VotesOk, WinsOk, AckOk, CommittedAt, ReadOk, MarkedOk, Configs.IsQuorum;
    if c > 0 {
      var t: nat, i: nat :| CommittedBy(h, log, c, bound, t, i);
      if t < term {
        LeaderCompletenessHere(h, t, i, term);
        CommonPrefix(h.reigns[t].log, h.reigns[term].log, i, c);
      }
    }
  }

  /** Leader Completeness, against the later leader's log as it now stands. */
  lemma LeaderCompletenessHere(h: History, t: nat, i: nat, later: nat)
    requires HistInv(h) && Committed(h, t, i) && t <= later && later in h.reigns
    ensures i <= |h.reigns[t].log| && h.reigns[t].log[..i] <= h.reigns[later].log
  {
    hide VotesOk, WinsOk, AckOk, CommittedAt, ReadOk, MarkedOk, Configs.IsQuorum, LogOk;
    if t < later {
      LeaderCompleteness(h, t, i, later);
      assert ReignOk(h, later);
    }
  }

  /** No committed entry is ever truncated, whatever part of whichever request is taken in. */
  lemma CommittedSurvives(h: History, log: seq<Record>, c: nat, bound: nat, term: nat, x: seq<Record>)
    requires HistInv(h) && CommittedPrefix(h, log, c, bound) && c <= |log|
    requires bound <= term && term in h.reigns && Absorbed(log, h.reigns[term].log, x)
    ensures Agree(log, x, c)
  {
    hide HistInv, CommittedPrefix;
    var l := h.reigns[term].log;
    CommittedInLeader(h, log, c, bound, term);
    if x != log && !(log <= x) {
      var k: nat :| k <= |x| && k < |log| && k < |l| && log[k].term != l[k].term && log[..k] == l[..k];
      assert forall j :: 0 <= j < c ==> log[..c][j] == l[..c][j];
      assert x[..c] == l[..c];
    }
  }

  /** The follower that took in part of a leader's log and adopted its term. */
  lemma FollowKeeps(h: History, n: NodeId, s: NodeState, req: AppendEntriesRequest, x: seq<Record>)
    requires HistInv(h) && NodeInv(h, n, s) && RequestInv(h, req) && req.term >= s.currentTerm
    requires Absorbed(s.log, h.reigns[req.term].log, x)
    ensures NodeInv(h, n, FollowLeader(s, req).(log := x))
  {
    hide LogOk, AllRetained, Absorbed, AppliedState, CommittedPrefix, VotesOk, WinsOk, AckOk, CommittedAt, ReadOk, MarkedOk, ReignOk;
    var t := FollowLeader(s, req).(log := x);
    AbsorbRetains(h, n, s.log, req.term, s.currentTerm + 1, x);
    AbsorbOk(h, s.log, req.term, x);
    FollowApplied(h, s, t, req.term);
  }

  lemma AbsorbOk(h: History, log: seq<Record>, term: nat, x: seq<Record>)
    requires ReignsOk(h) && term in h.reigns && LogOk(h, log) && Absorbed(log, h.reigns[term].log, x)
    requires TermsBelow(log, term + 1)
    ensures LogOk(h, x) && TermsBelow(x, term + 1)
  {
    hide LogOk, Configs.IsQuorum, Electors;
    var l := h.reigns[term].log;
    assert ReignOk(h, term);
    if x != log {
      LogOkTake(h, l, |x|);
      assert x == l[..|x|];
      forall k | 0 <= k < |x| ensures x[k].term < term + 1 { ReignTerms(h, term, k); }
    }
  }

  lemma FollowApplied(h: History, s: NodeState, t: NodeState, term: nat)
    requires HistInv(h) && AppliedState(h, s) && term in h.reigns && s.currentTerm <= term == t.currentTerm
    requires t.commitIndex == s.commitIndex && t.lastApplied == s.lastApplied && t.store == s.store
    requires Absorbed(s.log, h.reigns[term].log, t.log)
    ensures AppliedState(h, t)
  {
    hide HistInv, Absorbed, CommittedPrefix, Engines.Replay;
    CommittedSurvives(h, s.log, s.commitIndex, s.currentTerm, term, t.log);
    CommittedSurvives(h, s.log, s.lastApplied, s.currentTerm, term, t.log);
    AppliedCarries(h, h, s, t);
  }

  lemma AcceptNode(h: History, n: NodeId, t: NodeState, req: AppendEntriesRequest)
    requires HistInv(h) && n in h.nodes && NodeInv(h, n, t) && t.role == Follower && t.currentTerm == req.term
    requires RequestInv(h, req) && n != req.leaderId
    requires Agree(t.log, h.reigns[req.term].log, req.prevLogIndex + |req.entries|)
    ensures var g := Accept(h, n, req);
            && HistInv(g) && GrowsBy(h, g, n)
            && NodeInv(g, n, t.(commitIndex := AdoptCommit(t.commitIndex, req)))
            && AcceptedLen(g, n, req.term) >= req.prevLogIndex + |req.entries|
  {
    hide LogOk, AllRetained, HistInv, AppliedState;
    var g := Accept(h, n, req);
    AcceptKeeps(h, n, req);
    LogOkGrows(h, g, t.log);
    AcceptRetains(h, n, t, req);
    AcceptApplied(h, g, t, req);
  }

  lemma AcceptRetains(h: History, n: NodeId, t: NodeState, req: AppendEntriesRequest)
    requires HistInv(h) && AllRetained(h, n, t.log, req.term + 1) && req.term in h.reigns
    requires Agree(t.log, h.reigns[req.term].log, req.prevLogIndex + |req.entries|)
    requires Grows(h, Accept(h, n, req))
    ensures AllRetained(Accept(h, n, req), n, t.log, req.term + 1)
  {
    hide ReignsOk, VotesOk, WinsOk, AckOk, CommittedAt, ReadOk, MarkedOk;
    var g := Accept(h, n, req);
    var m := req.prevLogIndex + |req.entries|;
    forall u: nat, i: nat {:trigger Retained(g, t.log, u, i, req.term + 1)} |
      i <= AcceptedLen(g, n, u) && u < req.term + 1
      ensures Retained(g, t.log, u, i, req.term + 1)
    {
      if i <= AcceptedLen(h, n, u) {
        RetainedGrows(h, g, t.log, u, i, req.term + 1);
      } else {
        assert u == req.term && i <= m;
        assert t.log[..m][..i] == h.reigns[u].log[..m][..i];
        assert LeaderPrefix(g, u, i) == t.log[..i];
      }
    }
  }

  lemma AcceptApplied(h: History, g: History, t: NodeState, req: AppendEntriesRequest)
    requires Grows(h, g) && AppliedState(h, t) && t.currentTerm == req.term && RequestInv(h, req)
    requires Agree(t.log, h.reigns[req.term].log, req.prevLogIndex + |req.entries|)
    ensures AppliedState(g, t.(commitIndex := AdoptCommit(t.commitIndex, req)))
  {
    hide Engines.Replay, Committed;
    var l, m := h.reigns[req.term].log, req.prevLogIndex + |req.entries|;
    AppliedCarriesOn(h, g, t, t);
    if req.leaderCommit > t.commitIndex {
      var c := Min(req.leaderCommit, m);
      CommittedPrefixGrows(h, g, l, req.leaderCommit, req.term, req.term);
      CommittedPrefixShorter(g, l, req.leaderCommit, c, req.term);
      assert t.log[..m][..c] == l[..m][..c];
      CommittedPrefixExtends(g, l, t.log, c, req.term);
    }
  }

  lemma CommittedPrefixShorter(h: History, log: seq<Record>, c: nat, d: nat, b: nat)
    requires CommittedPrefix(h, log, c, b) && d <= c
    ensures CommittedPrefix(h, log, d, b)
  {
    if d > 0 {
      var t: nat, i: nat :| CommittedBy(h, log, c, b, t, i);
      assert log[..c][..d] == log[..d] && h.reigns[t].log[..c][..d] == h.reigns[t].log[..d];
      assert CommittedBy(h, log, d, b, t, i);
    }
  }

  lemma RequestMatches(h: History, log: seq<Record>, req: AppendEntriesRequest)
    requires HistInv(h) && LogOk(h, log) && RequestInv(h, req)
    ensures LogMatching(log, h.reigns[req.term].log)
  {
    hide LogOk, VotesOk, WinsOk, AckOk, CommittedAt, ReadOk, MarkedOk, LogMatching;
    assert ReignOk(h, req.term);
    LogsMatch(h, log, h.reigns[req.term].log);
  }

  lemma HandleNode(h: History, n: NodeId, s: NodeState, req: AppendEntriesRequest)
    requires HistInv(h) && n in h.nodes && NodeInv(h, n, s) && RequestInv(h, req) && n != req.leaderId
    ensures var (t, resp) := HandleAppendEntries(s, req);
            var g := if resp.success then Accept(h, n, req) else h;
            && HistInv(g) && GrowsBy(h, g, n) && NodeInv(g, n, t)
            && (resp.success ==> s.currentTerm <= req.term
                                 && AcceptedLen(g, n, req.term) >= req.prevLogIndex + |req.entries|
                                 && t.currentTerm == req.term && Absorbed(s.log, h.reigns[req.term].log, t.log))
            && (!resp.success ==> t.log == s.log)
  {
    hide HistInv, LogMatching, VoteState, AcceptState, LeaderState, CandidateState, TermState, AppliedState, Absorbed, Merge, LogOk;
    if req.term >= s.currentTerm {
      var l := h.reigns[req.term].log;
      var t := FollowLeader(s, req);
      if Matches(s.log, req.prevLogIndex, req.prevLogTerm) {
        RequestMatches(h, s.log, req);
        MergeAbsorbs(s.log, l, req.prevLogIndex, |req.entries|);
        var x := Merge(s.log, req.prevLogIndex, req.entries);
        FollowKeeps(h, n, s, req, x);
        AcceptNode(h, n, t.(log := x), req);
      } else {
        assert Absorbed(s.log, l, s.log) by { AbsorbsItself(s.log, l); }
        FollowKeeps(h, n, s, req, s.log);
        assert t.(log := s.log) == t;
      }
    }
  }

  lemma AbsorbsItself(log: seq<Record>, l: seq<Record>)
    ensures Absorbed(log, l, log)
  {
  }

  lemma HandledRequest(s: System, n: NodeId, req: AppendEntriesRequest, round: nat)
    requires Inv(s) && n in s.nodes && AppendReq(n, req, round) in s.net
    ensures RequestInv(s.h, req) && n != req.leaderId && (round > 0 ==> round in s.h.rounds)
  {
    hide HistInv, NodeInv, RequestInv, ValidCluster;
    assert MsgInv(s.h, AppendReq(n, req, round));
  }

  lemma SentReplyOk(h: History, g: History, n: NodeId, s: NodeState, req: AppendEntriesRequest,
                    resp: AppendEntriesResponse, round: nat)
    requires n in h.nodes && NodeInv(h, n, s) && RequestInv(h, req) && GrowsBy(h, g, n)
    requires round > 0 ==> round in h.rounds
    requires resp.success ==> s.currentTerm <= req.term && AcceptedLen(g, n, req.term) >= req.prevLogIndex + |req.entries|
    ensures MsgInv(g, AppendResp(n, req, resp, round))
  {
    hide RequestInv, LogOk, AppliedState, AcceptState, VoteState, LeaderState, CandidateState;
    RequestGrows(h, g, req);
  }

  lemma HandlesKeep(s: System, n: NodeId, req: AppendEntriesRequest, round: nat)
    requires Inv(s) && Enabled(s, Handles(n, req, round))
    ensures Inv(Next(s, Handles(n, req, round)))
    ensures Grows(s.h, Next(s, Handles(n, req, round)).h)
  {
    hide ValidCluster, HistInv, NodeInv, GrowsBy, RequestInv, HandleAppendEntries, Accept, MsgInv;
    var t := Next(s, Handles(n, req, round));
    HandledRequest(s, n, req, round);
    HandleNode(s.h, n, s.nodes[n], req);
    SentReplyOk(s.h, t.h, n, s.nodes[n], req, HandleAppendEntries(s.nodes[n], req).1, round);
    Assemble(s, t, n);
  }

  // ------------------------------------------------------------- crash and restart

  lemma RestartKeeps(h: History, n: NodeId, s: NodeState)
    requires NodeInv(h, n, s)
    ensures NodeInv(h, n, Restart(s))
  {
    hide LogOk, AllRetained, AppliedState;
    NothingApplied(h, Restart(s));
  }

  lemma NothingApplied(h: History, s: NodeState)
    requires s.commitIndex == 0 && s.lastApplied == 0 && s.store == map[]
    ensures AppliedState(h, s)
  {
  }

  lemma CrashNode(h: History, n: NodeId, s: NodeState, req: AppendEntriesRequest, j: nat, mid: bool)
    requires HistInv(h) && NodeInv(h, n, s) && RequestInv(h, req) && req.term >= s.currentTerm
    requires Matches(s.log, req.prevLogIndex, req.prevLogTerm) && j <= |req.entries|
    ensures var x := CrashPoint(s.log, req.prevLogIndex, req.entries, j, mid);
            NodeInv(h, n, Restart(FollowLeader(s, req).(log := x))) && Absorbed(s.log, h.reigns[req.term].log, x)
  {
    hide HistInv, Absorbed, LogMatching, CrashPoint, LogOk, FollowLeader, Restart, VoteState, AcceptState, LeaderState,
      CandidateState, TermState, AppliedState;
    var x := CrashPoint(s.log, req.prevLogIndex, req.entries, j, mid);
    RequestMatches(h, s.log, req);
    CrashAbsorbs(s.log, h.reigns[req.term].log, req.prevLogIndex, |req.entries|, j, mid);
    FollowKeeps(h, n, s, req, x);
    RestartKeeps(h, n, FollowLeader(s, req).(log := x));
  }

  lemma CrashesKeep(s: System, n: NodeId, req: AppendEntriesRequest, round: nat, j: nat, mid: bool)
    requires Inv(s) && Enabled(s, CrashesHandling(n, req, round, j, mid))
    ensures Inv(Next(s, CrashesHandling(n, req, round, j, mid)))
    ensures Grows(s.h, Next(s, CrashesHandling(n, req, round, j, mid)).h)
  {
    hide ValidCluster, HistInv, NodeInv, GrowsBy, MsgInv, RequestInv, CrashPoint, FollowLeader, Restart;
    HandledRequest(s, n, req, round);
    CrashNode(s.h, n, s.nodes[n], req, j, mid);
    GrowsItself(s.h, n);
    Assemble(s, Next(s, CrashesHandling(n, req, round, j, mid)), n);
  }

  lemma RestartsKeep(s: System, n: NodeId)
    requires Inv(s) && Enabled(s, Restarts(n))
    ensures Inv(Next(s, Restarts(n)))
    ensures Grows(s.h, Next(s, Restarts(n)).h)
  {
    hide ValidCluster, HistInv, NodeInv, MsgInv, GrowsBy;
    RestartKeeps(s.h, n, s.nodes[n]);
    GrowsItself(s.h, n);
    Assemble(s, Next(s, Restarts(n)), n);
  }

  lemma AdoptsKeep(s: System, n: NodeId, term: nat)
    requires Inv(s) && Enabled(s, AdoptsTerm(n, term))
    ensures Inv(Next(s, AdoptsTerm(n, term)))
    ensures Grows(s.h, Next(s, AdoptsTerm(n, term)).h)
  {
    hide ValidCluster, HistInv, NodeInv, MsgInv, GrowsBy;
    SetTermKeeps(s.h, n, s.nodes[n], term);
    GrowsItself(s.h, n);
    Assemble(s, Next(s, AdoptsTerm(n, term)), n);
  }

  // ------------------------------------------------------------------- leader steps

  lemma AppendNode(h: History, n: NodeId, s: NodeState, cmd: Record)
    requires HistInv(h) && NodeInv(h, n, s) && s.role == Leader
    ensures var t := LeaderAppend(s, s.currentTerm, cmd);
            var g := Extend(h, n, s.currentTerm, t.log);
            HistInv(g) && GrowsBy(h, g, n) && NodeInv(g, n, t)
  {
    hide HistInv, LogOk, AcceptState, AppliedState, GrowsBy;
    var term, t := s.currentTerm, LeaderAppend(s, s.currentTerm, cmd);
    var g := Extend(h, n, term, t.log);
    IndexedLog(h, s.log);
    ExtendKeeps(h, n, term, Stamp(s.log, term, cmd));
    AppendStays(h, g, n, s, t);
  }

  lemma AppendStays(h: History, g: History, n: NodeId, s: NodeState, t: NodeState)
    requires HistInv(h) && HistInv(g) && GrowsBy(h, g, n) && s.currentTerm in g.reigns
    requires g.reigns[s.currentTerm].log == t.log && s.log <= t.log && t.currentTerm == s.currentTerm
    requires AppliedState(h, s) && AcceptState(h, n, s) && LeaderState(h, n, s)
    requires t.commitIndex == s.commitIndex && t.lastApplied == s.lastApplied && t.store == s.store
    requires t.nextIndex == s.nextIndex && t.matchIndex == s.matchIndex
    requires forall u: nat :: u != s.currentTerm ==> AcceptedLen(g, n, u) == AcceptedLen(h, n, u)
    requires g.reigns.Keys == h.reigns.Keys && g.marked == h.marked
    ensures LogOk(g, t.log) && AppliedState(g, t) && AcceptState(g, n, t) && LeaderState(g, n, t)
  {
    hide LogOk, AllRetained, AppliedState, VotesOk, WinsOk, AckOk, CommittedAt, ReadOk, MarkedOk, ReignOk;
    LeaderLogOk(g, s.currentTerm);
    LeaderRetains(h, g, n, s.log, t.log, s.currentTerm);
    AppliedCarriesOn(h, g, s, t);
  }

  lemma LeaderLogOk(h: History, term: nat)
    requires ReignsOk(h) && term in h.reigns
    ensures LogOk(h, h.reigns[term].log)
  {
    hide LogOk, Configs.IsQuorum, TermsBelow;
    assert ReignOk(h, term);
  }

  lemma AppendsKeep(s: System, n: NodeId, cmd: Record)
    requires Inv(s) && Enabled(s, Appends(n, cmd))
    ensures Inv(Next(s, Appends(n, cmd)))
    ensures Grows(s.h, Next(s, Appends(n, cmd)).h)
  {
    hide ValidCluster, HistInv, NodeInv, MsgInv, GrowsBy, LeaderAppend, Extend;
    AppendNode(s.h, n, s.nodes[n], cmd);
    Assemble(s, Next(s, Appends(n, cmd)), n);
  }

  lemma AddMessage(s: System, m: Message)
    requires Inv(s) && MsgInv(s.h, m)
    ensures Inv(s.(net := s.net + {m}))
    ensures Grows(s.h, s.h)
  {
    hide HistInv, NodeInv, MsgInv, ValidCluster;
  }

  lemma SendsKeep(s: System, n: NodeId, p: NodeId)
    requires Inv(s) && Enabled(s, Sends(n, p))
    ensures Inv(Next(s, Sends(n, p)))
    ensures Grows(s.h, Next(s, Sends(n, p)).h)
  {
    hide ValidCluster, HistInv, NodeInv, GrowsBy, MsgInv, AppendRequest;
    PeersAreOthers(s, n, p);
    SentRequestOk(s.h, n, s.nodes[n], p);
    AddMessage(s, AppendReq(p, AppendRequest(s.nodes[n], n, p), 0));
  }

  lemma SentRequestOk(h: History, n: NodeId, s: NodeState, p: NodeId)
    requires NodeInv(h, n, s) && s.role == Leader && p in h.nodes && p != n
    ensures Get(s.nextIndex, p) >= 1
    ensures MsgInv(h, AppendReq(p, AppendRequest(s, n, p), 0))
    ensures forall round :: round in h.rounds ==> MsgInv(h, AppendReq(p, ProbeRequest(s, n), round))
  {
    hide LogOk, AllRetained, CommittedPrefix;
    var req := AppendRequest(s, n, p);
    assert req.entries == s.log[req.prevLogIndex..req.prevLogIndex + |req.entries|];
  }

  lemma ProbesKeep(s: System, n: NodeId, p: NodeId, round: nat)
    requires Inv(s) && Enabled(s, Probes(n, p, round))
    ensures Inv(Next(s, Probes(n, p, round)))
    ensures Grows(s.h, Next(s, Probes(n, p, round)).h)
  {
    hide ValidCluster, HistInv, NodeInv, GrowsBy, MsgInv, ProbeRequest;
    PeersAreOthers(s, n, p);
    SentRequestOk(s.h, n, s.nodes[n], p);
    AddMessage(s, AppendReq(p, ProbeRequest(s.nodes[n], n), round));
  }

  lemma ReplyNode(h: History, n: NodeId, s: NodeState, from: NodeId, req: AppendEntriesRequest, resp: AppendEntriesResponse)
    requires HistInv(h) && NodeInv(h, n, s) && MsgInv(h, AppendResp(from, req, resp, 0))
    requires s.role == Leader && s.currentTerm != req.term ==> resp.term > s.currentTerm
    ensures NodeInv(h, n, HandleAppendReply(s, from, req, resp))
  {
    hide LogOk, AllRetained, AppliedState, ReignOk, VotesOk, WinsOk, AckOk, CommittedAt, ReadOk, MarkedOk, CommittedPrefix;
    if resp.term > s.currentTerm {
      SetTermKeeps(h, n, s, resp.term);
    } else {
      AppliedCarriesHere(h, s, HandleAppendReply(s, from, req, resp));
    }
  }

  lemma HearsKeep(s: System, n: NodeId, from: NodeId, req: AppendEntriesRequest, resp: AppendEntriesResponse)
    requires Inv(s) && Enabled(s, HearsReply(n, from, req, resp))
    ensures Inv(Next(s, HearsReply(n, from, req, resp)))
    ensures Grows(s.h, Next(s, HearsReply(n, from, req, resp)).h)
  {
    hide ValidCluster, HistInv, NodeInv, MsgInv, GrowsBy, HandleAppendReply;
    ReplyNode(s.h, n, s.nodes[n], from, req, resp);
    GrowsItself(s.h, n);
    Assemble(s, Next(s, HearsReply(n, from, req, resp)), n);
  }
}
