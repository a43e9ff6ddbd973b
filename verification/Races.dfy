/** Where the code is looser than its guarantees need: for each, an input on which the guarantee
    fails, here or at the end of a run in module Deposed or LateSetTerm, and the exact condition under
    which it holds. */
module Races {
  import opened Records
  import Configs
  import opened LogSpec
  import opened Messages
  import opened NodeSpec
  import opened Histories
  import Cluster
  import Invariants
  import Commitment
  import Safety

  // ---------------------------------------------- follower commit index and probes

  /** A follower's commit index moves down exactly when the leader's is ahead of it and the request
      ends before it, as a probe anchored at the sentinel does. */
  lemma CommitMovesDownIff(s: NodeState, req: AppendEntriesRequest)
    ensures HandleAppendEntries(s, req).0.commitIndex < s.commitIndex <==>
            req.term >= s.currentTerm && Matches(s.log, req.prevLogIndex, req.prevLogTerm)
            && req.leaderCommit > s.commitIndex && req.prevLogIndex + |req.entries| < s.commitIndex
  {
    hide Merge;
  }

  /** The documented order "lastApplied never leads commitIndex" survives a request exactly when it
      is not one of those that end before what has been applied. */
  lemma AppliedTrailsIff(s: NodeState, req: AppendEntriesRequest)
    requires s.lastApplied <= s.commitIndex
    ensures var t := HandleAppendEntries(s, req).0;
            t.lastApplied <= t.commitIndex <==>
            !(req.term >= s.currentTerm && Matches(s.log, req.prevLogIndex, req.prevLogTerm)
              && req.leaderCommit > s.commitIndex && req.prevLogIndex + |req.entries| < s.lastApplied)
  {
    hide Merge;
  }

  /** Three entries committed and applied; a probe from a leader that has committed five takes the
      commit index to zero. */
  lemma ProbeUncommits()
    ensures var log := seq(5, i requires 0 <= i < 5 => Record(1, i + 1, OP_NOOP, "", ""));
            var follower := NodeState(1, NOBODY, Follower, "a", log, 3, 3, map[], map[], map[]);
            var leader := NodeState(1, "a", Leader, "a", log, 5, 5, map[], map[], map[]);
            var t := HandleAppendEntries(follower, ProbeRequest(leader, "a")).0;
            t.commitIndex == 0 && t.lastApplied == 3
  {
  }

  // -------------------------------------------------- a term set after the comparison

  /** Setting a term keeps the persistent pair stable exactly when the term is newer than the one
      held at that moment, or is the same and no vote is lost. The probe compares in one critical
      section and sets in another; module LateSetTerm has the run that results. */
  lemma SetTermIsStableIff(s: NodeState, term: nat)
    ensures var t := SetTerm(s, term);
            (s.currentTerm <= t.currentTerm
             && (s.currentTerm == t.currentTerm && s.votedFor != NOBODY ==> t.votedFor == s.votedFor))
            <==> term > s.currentTerm || (term == s.currentTerm && s.votedFor == NOBODY)
  {
  }

  // ------------------------------------------------------------ an append after deposal

  ghost predicate NonDecreasing(log: seq<Record>) {
    forall j, k :: 0 <= j <= k < |log| ==> log[j].term <= log[k].term
  }

  /** Terms never decrease along the log, nor exceed the node's own. */
  ghost predicate Ordered(s: NodeState) {
    NonDecreasing(s.log) && LastTerm(s.log) <= s.currentTerm
  }

  /** Appending with a term read earlier keeps terms non-decreasing and bounded by the node's own
      exactly when that term is between the log's last and the current one. */
  lemma AppendKeepsOrderIff(s: NodeState, term: nat, cmd: Record)
    requires Ordered(s)
    ensures Ordered(LeaderAppend(s, term, cmd)) <==> LastTerm(s.log) <= term <= s.currentTerm
  {
    var t := LeaderAppend(s, term, cmd);
    assert t.log[|s.log|].term == term;
    if |s.log| > 0 { assert t.log[|s.log| - 1] == s.log[|s.log| - 1]; }
  }

  /** A leader of term 1 checks its role; a leader of term 2 replicates to it; it then appends with
      term 1: its log's terms go down. */
  lemma StaleAppendBreaksOrder(cmd: Record)
    ensures var a := NodeState(1, "a", Leader, "a", [], 0, 0, map[], map[], map[]);
            var req := AppendEntriesRequest(2, "b", 0, 0, [Record(2, 1, OP_NOOP, "", "")], 0);
            var deposed := HandleAppendEntries(a, req).0;
            deposed.role == Follower && Ordered(deposed) && !Ordered(LeaderAppend(deposed, 1, cmd))
  {
    var a := NodeState(1, "a", Leader, "a", [], 0, 0, map[], map[], map[]);
    var req := AppendEntriesRequest(2, "b", 0, 0, [Record(2, 1, OP_NOOP, "", "")], 0);
    var deposed := HandleAppendEntries(a, req).0;
    MergeAppends(a.log, req.entries);
    assert deposed.log == [Record(2, 1, OP_NOOP, "", "")];
    AppendKeepsOrderIff(deposed, 1, cmd);
  }

  /** An append with the term of an earlier leadership keeps the log matching every other exactly when
      the log is at least as long as it was under that leadership, or shorter than what was inherited
      by it, or what is appended is what that leadership had there. That role and term are still the
      same is enough. */
  lemma AppendMatchesIff(h: History, n: NodeId, s: NodeState, term: nat, cmd: Record)
    requires HistInv(h) && Invariants.NodeInv(h, n, s) && term in h.reigns && h.reigns[term].leader == n
    ensures var x, led := LeaderAppend(s, term, cmd).log, h.reigns[term].log;
            (forall l: seq<Record> :: LogOk(h, l) ==> LogMatching(x, l)) <==>
            |led| <= |s.log| || led[|s.log|].term != term || x == led[..|s.log| + 1]
    ensures s.role == Leader && s.currentTerm == term ==> LeaderAppend(s, term, cmd).log == h.reigns[term].log + [Stamp(s.log, term, cmd)]
  {
    hide LogOk, LogMatching, HistInv, Invariants.NodeInv;
    var x, led, k := LeaderAppend(s, term, cmd).log, h.reigns[term].log, |s.log|;
    KnownLogs(h, n, s, term);
    if (forall l: seq<Record> :: LogOk(h, l) ==> LogMatching(x, l)) && k < |led| && led[k].term == term {
      assert LogMatching(x, led);
      MatchesAt(x, led, k);
    }
    if |led| <= k || led[k].term != term || x == led[..k + 1] {
      forall l: seq<Record> | LogOk(h, l) ensures LogMatching(x, l) {
        LogsMatch(h, s.log, l);
        if k < |l| && l[k].term == term {
          LedHolds(h, l, k);
          assert l[..k + 1] == led[..k + 1];
        }
        MatchingGrows(s.log, x, l);
      }
    }
    if s.role == Leader && s.currentTerm == term { Known(h, n, s); }
  }

  lemma KnownLogs(h: History, n: NodeId, s: NodeState, term: nat)
    requires HistInv(h) && Invariants.NodeInv(h, n, s) && term in h.reigns
    ensures LogOk(h, s.log) && LogOk(h, h.reigns[term].log)
  {
    hide LogOk, VotesOk, WinsOk, AckOk, CommittedAt, ReadOk, MarkedOk;
    assert ReignOk(h, term);
  }

  lemma Known(h: History, n: NodeId, s: NodeState)
    requires Invariants.NodeInv(h, n, s) && s.role == Leader
    ensures s.currentTerm in h.reigns && s.log == h.reigns[s.currentTerm].log
  {
    hide LogOk, AllRetained, Invariants.AppliedState;
  }

  lemma MatchesAt(a: seq<Record>, b: seq<Record>, k: nat)
    requires LogMatching(a, b) && k < |a| && k < |b| && a[k].term == b[k].term
    ensures a[..k + 1] == b[..k + 1]
  {
  }

  lemma LedHolds(h: History, l: seq<Record>, k: nat)
    requires LogOk(h, l) && k < |l|
    ensures l[k].term in h.reigns && l[..k + 1] <= h.reigns[l[k].term].log && |h.reigns[l[k].term].log| > k
    ensures h.reigns[l[k].term].log[k] == l[k]
  {
    assert EntryOk(h, l, k);
    assert l[..k + 1][k] == h.reigns[l[k].term].log[k];
  }

  lemma MatchingGrows(a: seq<Record>, x: seq<Record>, l: seq<Record>)
    requires LogMatching(a, l) && |x| == |a| + 1 && x[..|a|] == a
    requires |a| < |l| && l[|a|].term == x[|a|].term ==> l[..|a| + 1] == x
    ensures LogMatching(x, l)
  {
    forall k | 0 <= k < |x| && k < |l| && x[k].term == l[k].term ensures x[..k + 1] == l[..k + 1] {
      if k < |a| {
        assert x[..k + 1] == a[..k + 1] && a[k] == x[k];
      } else {
        assert x[..k + 1] == x;
      }
    }
  }

  // ------------------------------------------------ a request read at three moments

  /** What is sent when the term and the anchor's index are read at one moment, the anchor's term at a
      later one, and the entries at a third. */
  function TornRequest(was: NodeState, mid: NodeState, now: NodeState, self: NodeId, p: NodeId): AppendEntriesRequest
    requires Get(was.nextIndex, p) >= 1
  {
    var prev := Get(was.nextIndex, p) - 1;
    AppendEntriesRequest(was.currentTerm, self, prev, TermAt(mid.log, prev), EntriesFrom(now.log, prev + 1), was.commitIndex)
  }

  predicate Refuses(f: NodeState, req: AppendEntriesRequest) {
    req.term < f.currentTerm || !Matches(f.log, req.prevLogIndex, req.prevLogTerm)
  }

  /** A follower whose log matched the sender's still does exactly when it refuses the request, or
      nothing is sent, or the anchor still had the term it was read with when the entries were read. */
  lemma TornMatchesIff(was: NodeState, mid: NodeState, now: NodeState, self: NodeId, p: NodeId, f: NodeState)
    requires Get(was.nextIndex, p) >= 1 && LogMatching(f.log, now.log)
    ensures var req := TornRequest(was, mid, now, self, p);
            var holds := Refuses(f, req) || req.prevLogIndex >= |now.log| || req.prevLogTerm == TermAt(now.log, req.prevLogIndex);
            && (LogMatching(HandleAppendEntries(f, req).0.log, now.log) <==> holds)
            && (holds ==> Absorbed(f.log, now.log, HandleAppendEntries(f, req).0.log))
  {
    hide Merge, LogMatching, Absorbed, Matches, TermAt;
    var req := TornRequest(was, mid, now, self, p);
    var prev := req.prevLogIndex;
    assert Absorbed(f.log, now.log, f.log) by { AbsorbsItself(f.log, now.log); }
    if !Refuses(f, req) {
      MatchesWithin(f.log, prev, req.prevLogTerm);
      if prev >= |now.log| {
        MergeOfNothing(f.log, prev);
      } else if req.prevLogTerm == TermAt(now.log, prev) {
        assert req.entries == now.log[prev..prev + |req.entries|];
        MergeAbsorbs(f.log, now.log, prev, |req.entries|);
        AgreeingMatches(Merge(f.log, prev, req.entries), now.log);
      } else {
        OtherAnchor(f.log, now.log, prev, req.prevLogTerm);
      }
    }
  }

  lemma AbsorbsItself(log: seq<Record>, sender: seq<Record>)
    ensures Absorbed(log, sender, log)
  {
  }

  lemma AgreeingMatches(x: seq<Record>, log: seq<Record>)
    requires Agree(x, log, |log|)
    ensures LogMatching(x, log)
  {
    forall k | 0 <= k < |x| && k < |log| && x[k].term == log[k].term ensures x[..k + 1] == log[..k + 1] {
      assert x[..|log|][..k + 1] == x[..k + 1];
    }
  }

  lemma OtherAnchor(log: seq<Record>, sent: seq<Record>, prev: nat, prevTerm: nat)
    requires prev < |sent| && Matches(log, prev, prevTerm) && prevTerm != TermAt(sent, prev)
    ensures prev <= |log| && !LogMatching(Merge(log, prev, sent[prev..]), sent)
  {
    hide Merge;
    MergeEffect(log, prev, sent[prev..]);
    var x, k := Merge(log, prev, sent[prev..]), |sent| - 1;
    assert x[k] == x[prev + (k - prev)] && x[k].term == sent[k].term;
    assert x[..k + 1][prev - 1] == x[..prev][prev - 1] == log[prev - 1];
    assert sent[..k + 1][prev - 1] == sent[prev - 1];
  }

  /** Its terms stay ordered exactly when it refuses the request, or nothing is sent, or the anchor's
      term as read is at most the first term sent and the last term sent is at most the term read. */
  lemma TornKeepsOrderIff(was: NodeState, mid: NodeState, now: NodeState, self: NodeId, p: NodeId, f: NodeState)
    requires Get(was.nextIndex, p) >= 1 && Ordered(f) && Ordered(now)
    ensures var req := TornRequest(was, mid, now, self, p);
            Ordered(HandleAppendEntries(f, req).0) <==>
            || Refuses(f, req) || req.prevLogIndex >= |now.log|
            || (req.prevLogTerm <= TermAt(now.log, req.prevLogIndex + 1) && LastTerm(now.log) <= was.currentTerm)
  {
    hide Merge, NonDecreasing, Matches, LastTerm;
    var req := TornRequest(was, mid, now, self, p);
    if !Refuses(f, req) {
      MatchesWithin(f.log, req.prevLogIndex, req.prevLogTerm);
      if |req.entries| > 0 {
        TornMerge(f.log, now.log, req.prevLogIndex);
      } else {
        MergeOfNothing(f.log, req.prevLogIndex);
      }
    }
  }

  lemma MatchesWithin(log: seq<Record>, prev: nat, prevTerm: nat)
    requires Matches(log, prev, prevTerm)
    ensures prev <= |log| && TermAt(log, prev) == prevTerm
  {
  }

  /** Merging the end of another ordered log: terms still never decrease exactly when they do not at
      the anchor, and the last one is either that log's or this log's own, whichever is the greater. */
  lemma TornMerge(log: seq<Record>, sent: seq<Record>, prev: nat)
    requires NonDecreasing(log) && NonDecreasing(sent) && prev < |sent| && prev <= |log|
    ensures var x := Merge(log, prev, sent[prev..]);
            && (NonDecreasing(x) <==> TermAt(log, prev) <= sent[prev].term)
            && LastTerm(x) >= LastTerm(sent) && (LastTerm(x) == LastTerm(sent) || x == log)
  {
    hide Merge, NonDecreasing, LastTerm, TermAt;
    var h := Held(log, prev, sent[prev..]);
    MergedFrom(log, sent, prev);
    if h > 0 { HeldInOrder(log, sent, prev); }
    if prev + h < |sent| {
      Joined(log, sent, prev + h);
    } else {
      LastIsGreatest(log, |sent| - 1);
    }
  }

  /** The merge keeps the log through what it holds, and goes on with what was sent. */
  lemma MergedFrom(log: seq<Record>, sent: seq<Record>, prev: nat)
    requires prev < |sent| && prev <= |log|
    ensures var h := Held(log, prev, sent[prev..]);
            && prev + h <= |log| && prev + h <= |sent|
            && Merge(log, prev, sent[prev..]) == (if prev + h == |sent| then log else log[..prev + h] + sent[prev + h..])
            && (h > 0 ==> TermAt(log, prev + h) == sent[prev + h - 1].term && log[prev].term == sent[prev].term)
            && (prev + h == |sent| ==> log[|sent| - 1].term == LastTerm(sent))
  {
    hide Merge;
    var entries := sent[prev..];
    MergeClosedForm(log, prev, entries);
    HeldMeaning(log, prev, entries);
    var h := Held(log, prev, entries);
    assert entries[h..] == sent[prev + h..];
    if h > 0 {
      assert log[prev + (h - 1)].term == entries[h - 1].term == sent[prev + (h - 1)].term;
      assert log[prev + 0].term == entries[0].term == sent[prev].term;
    }
  }

  lemma HeldInOrder(log: seq<Record>, sent: seq<Record>, prev: nat)
    requires NonDecreasing(log) && NonDecreasing(sent) && prev < |sent| && prev <= |log| && Held(log, prev, sent[prev..]) > 0
    ensures var h := Held(log, prev, sent[prev..]);
            && TermAt(log, prev) <= sent[prev].term
            && (prev + h < |sent| ==> prev + h <= |log| && TermAt(log, prev + h) <= sent[prev + h].term)
  {
    hide Merge, NonDecreasing;
    MergedFrom(log, sent, prev);
    var h := Held(log, prev, sent[prev..]);
    if prev > 0 { InOrder(log, prev - 1, prev); }
    if prev + h < |sent| { InOrder(sent, prev + h - 1, prev + h); }
  }

  lemma InOrder(log: seq<Record>, j: nat, k: nat)
    requires NonDecreasing(log) && j <= k < |log|
    ensures log[j].term <= log[k].term
  {
  }

  lemma LastIsGreatest(log: seq<Record>, k: nat)
    requires NonDecreasing(log) && k < |log|
    ensures log[k].term <= LastTerm(log)
  {
  }

  lemma Joined(a: seq<Record>, b: seq<Record>, m: nat)
    requires NonDecreasing(a) && NonDecreasing(b) && m <= |a| && m < |b|
    ensures NonDecreasing(a[..m] + b[m..]) <==> TermAt(a, m) <= b[m].term
    ensures LastTerm(a[..m] + b[m..]) == LastTerm(b)
  {
    var x := a[..m] + b[m..];
    if TermAt(a, m) <= b[m].term {
      forall j: nat, k: nat | j <= k < |x| ensures x[j].term <= x[k].term {
        if j < m <= k { assert a[j].term <= a[m - 1].term && b[m].term <= b[k].term; }
      }
    } else {
      assert x[m - 1] == a[m - 1] && x[m] == b[m];
    }
  }

  /** If the node still leads the same term when the entries have been read, the three reads are as
      good as one: what is sent is a request of that term like any other. */
  lemma SteadyReadIsWhole(run: seq<Cluster.System>, i: nat, k: nat, j: nat, n: NodeId, p: NodeId)
    requires Cluster.IsRun(run) && i <= k <= j < |run| && n in run[i].nodes && n in run[j].nodes && p in run[i].nodes && p != n
    requires run[i].nodes[n].role == Leader && run[j].nodes[n].role == Leader
    requires run[i].nodes[n].currentTerm == run[j].nodes[n].currentTerm
    ensures n in run[k].nodes && Get(run[i].nodes[n].nextIndex, p) >= 1
    ensures Invariants.MsgInv(run[j].h,
              Cluster.AppendReq(p, TornRequest(run[i].nodes[n], run[k].nodes[n], run[j].nodes[n], n, p), 0))
  {
    hide Cluster.Init, Cluster.Steps, Invariants.Inv, HistInv, Invariants.NodeInv, TermAt, CommittedPrefix, MarkedBy;
    Safety.LeadershipIsUnbroken(run, i, k, j, n);
    Safety.LeaderAppendOnly(run, i, k, n);
    Safety.LeaderAppendOnly(run, k, j, n);
    var was, mid, now := run[i].nodes[n], run[k].nodes[n], run[j].nodes[n];
    Commitment.RunKeeps(run, i);
    Commitment.RunKeeps(run, j);
    Safety.RunGrows(run, i, j);
    Safety.LeaderFacts(run[j], n);
    LeaderSends(run[i], n, p);
    var h, prev := run[j].h, Get(was.nextIndex, p) - 1;
    Invariants.CommittedPrefixGrows(run[i].h, h, was.log, was.commitIndex, was.currentTerm, was.currentTerm);
    Invariants.CommittedPrefixExtends(h, was.log, now.log, was.commitIndex, was.currentTerm);
    Invariants.MarkedByGrows(run[i].h, h, was.commitIndex, was.currentTerm);
    assert TermAt(mid.log, prev) == TermAt(now.log, prev) by { SameTermAt(mid.log, now.log, prev); }
    var req := TornRequest(was, mid, now, n, p);
    assert req.entries == now.log[prev..prev + |req.entries|];
  }

  lemma SameTermAt(a: seq<Record>, b: seq<Record>, i: nat)
    requires a <= b && i <= |a|
    ensures TermAt(a, i) == TermAt(b, i)
  {
  }

  lemma LeaderSends(s: Cluster.System, n: NodeId, p: NodeId)
    requires Invariants.Inv(s) && n in s.nodes && p in s.nodes && p != n && s.nodes[n].role == Leader
    ensures var me := s.nodes[n];
            && 1 <= Get(me.nextIndex, p) <= |me.log| + 1 && me.commitIndex <= |me.log|
            && CommittedPrefix(s.h, me.log, me.commitIndex, me.currentTerm) && MarkedBy(s.h, me.commitIndex, me.currentTerm)
  {
    hide Cluster.ValidCluster, HistInv, Invariants.MsgInv, LogOk, AllRetained, CommittedPrefix, MarkedBy;
    assert Invariants.NodeInv(s.h, n, s.nodes[n]);
  }

  // -------------------------------------------- a reply to a request of an earlier term

  /** A success heard by a leader keeps its bookkeeping true exactly when the peer has accepted that
      far in the leader's current term; that the request was of that term is enough. */
  lemma ReplyKeepsLeaderIff(h: History, n: NodeId, s: NodeState, from: NodeId, req: AppendEntriesRequest, resp: AppendEntriesResponse)
    requires HistInv(h) && Invariants.NodeInv(h, n, s) && s.role == Leader && from != n
    requires Invariants.MsgInv(h, Cluster.AppendResp(from, req, resp, 0)) && resp.success && resp.term <= s.currentTerm
    ensures Invariants.LeaderState(h, n, HandleAppendReply(s, from, req, resp)) <==>
            req.prevLogIndex + |req.entries| <= AcceptedLen(h, from, s.currentTerm)
    ensures req.term == s.currentTerm ==> Invariants.LeaderState(h, n, HandleAppendReply(s, from, req, resp))
  {
    hide LogOk, AllRetained, Invariants.AppliedState, ReignsOk, VotesOk, WinsOk, AckOk, CommittedAt, ReadOk, MarkedOk, CommittedPrefix;
    assert AcceptedLen(h, from, s.currentTerm) <= |s.log|;
    var t := HandleAppendReply(s, from, req, resp);
    assert Get(t.matchIndex, from) == req.prevLogIndex + |req.entries|;
  }

  // ---------------------------------------------- success reported before the apply

  /** What other calls may do to the node while a proposer applies and until its last check. */
  ghost predicate Meanwhile(a: NodeState, b: NodeState) {
    || (exists req :: b == HandleAppendEntries(a, req).0)
    || (exists req :: b == HandleRequestVote(a, req).0)
    || (exists p, req, resp :: b == HandleAppendReply(a, p, req, resp))
    || (exists c :: b == AdvanceCommit(a, c))
    || (exists term :: b == SetTerm(a, term))
    || (exists self :: b == Campaign(a, self).0)
    || (exists c, term :: b == WinElection(a, c, term))
    || (exists term, cmd :: b == LeaderAppend(a, term, cmd))
  }

  lemma MeanwhileAppliesNothing(a: NodeState, b: NodeState)
    requires Meanwhile(a, b)
    ensures b.lastApplied == a.lastApplied
  {
    hide HandleAppendEntries, HandleRequestVote, HandleAppendReply, CommitScan;
    if req :| b == HandleAppendEntries(a, req).0 {
      Safety.RequestsDoNotApply(a, req);
    } else if req :| b == HandleRequestVote(a, req).0 {
      Safety.VotesDoNotApply(a, req);
    } else if p, req, resp :| b == HandleAppendReply(a, p, req, resp) {
      Safety.RepliesDoNotApply(a, p, req, resp);
    }
  }

  /** Turns of applying, this call's or another's, and whatever else happens in between. */
  ghost predicate Interleaving(run: seq<NodeState>) {
    |run| > 0 && forall i :: 0 <= i < |run| - 1 ==> Applies(run, i) || Meanwhile(run[i], run[i + 1])
  }

  ghost predicate Applies(run: seq<NodeState>, i: nat) {
    i + 1 < |run| && CanApply(run[i]) && run[i + 1] == ApplyOne(run[i])
  }

  /** A moment at which an applying loop compares its next index with the commit index: each turn, and
      the proposer's own last look. */
  ghost predicate Tests(run: seq<NodeState>, stop: nat, i: nat) {
    i < |run| && (i == stop || Applies(run, i))
  }

  /** From a proposer's commit scan to its last check, with stop the moment its applying ended: its
      entry is applied by then exactly when it was already at the start, or at some test the turn had
      come to the entry and the commit index covered it. In particular it is if the commit index
      covers it at the last test. */
  lemma SuccessIsAppliedIff(run: seq<NodeState>, stop: nat, index: nat)
    requires Interleaving(run) && stop < |run|
    requires !CanApply(run[stop]) && run[stop].commitIndex <= |run[stop].log|
    ensures index <= run[|run| - 1].lastApplied <==>
            index <= run[0].lastApplied
            || exists i: nat :: Tests(run, stop, i) && index <= run[i].lastApplied + 1 && index <= run[i].commitIndex
    ensures index <= run[stop].commitIndex ==> index <= run[|run| - 1].lastApplied
  {
    hide Meanwhile;
    AppliedGrows(run, stop, |run| - 1);
    AppliedGrows(run, 0, |run| - 1);
    if run[0].lastApplied < index <= run[|run| - 1].lastApplied {
      var i := TurnOf(run, index);
      assert Tests(run, stop, i);
    }
    if exists i: nat :: Tests(run, stop, i) && index <= run[i].lastApplied + 1 && index <= run[i].commitIndex {
      var i: nat :| Tests(run, stop, i) && index <= run[i].lastApplied + 1 && index <= run[i].commitIndex;
      if i != stop { AppliedGrows(run, i + 1, |run| - 1); }
    }
    if index <= run[stop].commitIndex { assert Tests(run, stop, stop); }
  }

  lemma {:induction false} AppliedGrows(run: seq<NodeState>, i: nat, j: nat)
    requires Interleaving(run) && i <= j < |run|
    ensures run[i].lastApplied <= run[j].lastApplied
    decreases j
  {
    hide Meanwhile;
    if i < j {
      AppliedGrows(run, i, j - 1);
      assert Applies(run, j - 1) || Meanwhile(run[j - 1], run[j - 1 + 1]);
      if !Applies(run, j - 1) { MeanwhileAppliesNothing(run[j - 1], run[j]); }
    }
  }

  lemma {:induction false} TurnOf(run: seq<NodeState>, index: nat) returns (i: nat)
    requires Interleaving(run) && run[0].lastApplied < index <= run[|run| - 1].lastApplied
    ensures Applies(run, i) && run[i].lastApplied + 1 == index && index <= run[i].commitIndex
    decreases |run|
  {
    hide Meanwhile;
    var last := |run| - 1;
    assert Applies(run, last - 1) || Meanwhile(run[last - 1], run[last - 1 + 1]);
    if !Applies(run, last - 1) { MeanwhileAppliesNothing(run[last - 1], run[last]); }
    if index <= run[last - 1].lastApplied {
      var front := run[..last];
      assert Interleaving(front) by {
        forall k | 0 <= k < |front| - 1 ensures Applies(front, k) || Meanwhile(front[k], front[k + 1]) {
          assert Applies(run, k) || Meanwhile(run[k], run[k + 1]);
        }
      }
      i := TurnOf(front, index);
    } else {
      i := last - 1;
    }
  }

  /** The commit index covers entry 3 when applying begins; a probe takes it to zero after one turn,
      applying ends, and a later request raises it again: success is reported with one entry applied. */
  lemma SuccessAfterLoweredCommit() returns (run: seq<NodeState>, stop: nat)
    ensures Interleaving(run) && stop < |run| && !CanApply(run[stop]) && run[stop].commitIndex <= |run[stop].log|
    ensures run[0].commitIndex == 3 && run[|run| - 1].commitIndex == 4 && run[|run| - 1].lastApplied == 1
  {
    var log := seq(4, i requires 0 <= i < 4 => Record(1, i + 1, OP_NOOP, "", ""));
    var s0 := NodeState(2, "b", Follower, "b", log, 3, 0, map[], map[], map[]);
    var s1 := ApplyOne(s0);
    var s2 := HandleAppendEntries(s1, AppendEntriesRequest(2, "b", 0, 0, [], 4)).0;
    var s3 := HandleAppendEntries(s2, AppendEntriesRequest(2, "b", 4, 1, [], 4)).0;
    run, stop := [s0, s1, s2, s3], 2;
    assert Applies(run, 0);
    assert Meanwhile(run[1], run[2]) && Meanwhile(run[2], run[3]);
  }

  /** The proposer of entry 1 has its majority but is deposed before it can count it; applying finds
      nothing; a request of the new leader, which has committed the entry, raises the commit index;
      success is reported with nothing applied. */
  lemma SuccessBeforeApply(c: Configs.Config, first: Record, second: Record)
    requires first.term == 1 && second.term == 2
    ensures var s := NodeState(2, "b", Follower, "b", [first], 0, 0, map[], map[], map[]);
            var t := ApplyAll(AdvanceCommit(s, c));
            var (later, resp) := HandleAppendEntries(t, AppendEntriesRequest(2, "b", 1, 1, [second], 2));
            resp.success && 1 <= later.commitIndex && later.lastApplied == 0 && later.log == [first, second]
  {
    MergeAppends([first], [second]);
  }
}
