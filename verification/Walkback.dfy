/** Backing up through the log to a match point: how many attempts it takes, exactly. */
module Walkback {
  import opened Records
  import LogSpec

  const MAX_WALKBACK_ATTEMPTS := 64

  /** The last index at which the two logs have an entry of the same term, 0 if none. */
  function CommonUpTo(leader: seq<Record>, follower: seq<Record>, n: nat): nat
    requires n <= |leader| && n <= |follower|
  {
    if n == 0 || leader[n - 1].term == follower[n - 1].term then n else CommonUpTo(leader, follower, n - 1)
  }

  function Common(leader: seq<Record>, follower: seq<Record>): nat {
    CommonUpTo(leader, follower, Min(|leader|, |follower|))
  }

  lemma {:induction false} CommonUpToMeaning(leader: seq<Record>, follower: seq<Record>, n: nat)
    requires n <= |leader| && n <= |follower|
    ensures var c := CommonUpTo(leader, follower, n);
            && c <= n
            && (c > 0 ==> leader[c - 1].term == follower[c - 1].term)
            && forall k :: c <= k < n ==> leader[k].term != follower[k].term
  {
    if n != 0 && leader[n - 1].term != follower[n - 1].term { CommonUpToMeaning(leader, follower, n - 1); }
  }

  /** Under Log Matching the follower accepts an anchor exactly when it is at or before the common
      point, and the logs are identical up to there. */
  lemma {:induction false} AcceptsUpToCommon(leader: seq<Record>, follower: seq<Record>, p: nat)
    requires LogSpec.LogMatching(follower, leader) && p <= |leader|
    ensures var c := Common(leader, follower);
            c <= |leader| && c <= |follower| && leader[..c] == follower[..c]
            && (LogSpec.Matches(follower, p, TermAt(leader, p)) <==> p <= c)
  {
    CommonUpToMeaning(leader, follower, Min(|leader|, |follower|));
    var c := Common(leader, follower);
    if 0 < p <= c { assert leader[..c][p - 1] == follower[..c][p - 1]; }
  }

  /** The anchor tried after a rejection: straight to the follower's end if the guess was past it,
      one back otherwise. */
  function NextAnchor(p: nat, followerLast: nat): nat {
    if followerLast < p then followerLast else if p > 0 then p - 1 else 0
  }

  /** How many attempts from an anchor, counting the one accepted. */
  function Attempts(leader: seq<Record>, follower: seq<Record>, p: nat): nat {
    if p == 0 || LogSpec.Matches(follower, p, TermAt(leader, p)) then 1
    else 1 + Attempts(leader, follower, NextAnchor(p, |follower|))
  }

  /** The exact count. */
  lemma {:induction false} AttemptsExactly(leader: seq<Record>, follower: seq<Record>, p: nat)
    requires LogSpec.LogMatching(follower, leader) && p <= |leader|
    ensures var c, f := Common(leader, follower), |follower|;
            Attempts(leader, follower, p) ==
            if p <= c then 1 else if p <= f then p - c + 1 else f - c + 2
    decreases p
  {
    AcceptsUpToCommon(leader, follower, p);
    if p > Common(leader, follower) { AttemptsExactly(leader, follower, NextAnchor(p, |follower|)); }
  }

  /** So one replication call succeeds exactly when the divergence is within its budget. */
  lemma {:induction false} OneCallIsEnough(leader: seq<Record>, follower: seq<Record>, p: nat)
    requires LogSpec.LogMatching(follower, leader) && p <= |leader|
    ensures var c, f := Common(leader, follower), |follower|;
            Attempts(leader, follower, p) <= MAX_WALKBACK_ATTEMPTS <==>
            p <= c || (p <= f && p - c < 64) || (p > f && f - c < 63)
  {
    AttemptsExactly(leader, follower, p);
    AcceptsUpToCommon(leader, follower, p);
  }
}
