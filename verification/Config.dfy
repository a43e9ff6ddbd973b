/** Cluster membership and quorum arithmetic. */
module Configs {
  import opened Records

  datatype Peer = Peer(id: NodeId, addr: string)

  datatype Config = Config(id: NodeId, addr: string, peers: seq<Peer>) {
    function ClusterSize(): nat { |peers| + 1 }

    function Majority(): nat { ClusterSize() / 2 + 1 }

    function PeerIds(): set<NodeId> { IdsOf(peers) }

    function Members(): set<NodeId> { {id} + PeerIds() }
  }

  function IdsOf(peers: seq<Peer>): set<NodeId> {
    set p | p in peers :: p.id
  }

  datatype ConfigError = MissingId | MissingAddr | IncompletePeer(peer: Peer) | DuplicateId(id: NodeId) | EvenSize(size: nat)

  datatype Verdict = Accepted | Refused(error: ConfigError)

  /** What a configuration must satisfy to start a node. */
  predicate WellFormed(c: Config) {
    && c.id != "" && c.addr != ""
    && (forall i :: 0 <= i < |c.peers| ==> c.peers[i].id != "" && c.peers[i].addr != "" && c.peers[i].id != c.id)
    && (forall i, j :: 0 <= i < j < |c.peers| ==> c.peers[i].id != c.peers[j].id)
    && c.ClusterSize() % 2 == 1
  }

  method Validate(c: Config) returns (v: Verdict)
    ensures v.Accepted? <==> WellFormed(c)
    ensures v == Refused(MissingId) <==> c.id == ""
    ensures v == Refused(MissingAddr) <==> c.id != "" && c.addr == ""
    ensures v.Refused? && v.error.IncompletePeer? ==>
              v.error.peer in c.peers && (v.error.peer.id == "" || v.error.peer.addr == "")
    ensures v.Refused? && v.error.DuplicateId? ==>
              exists j :: 0 <= j < |c.peers| && c.peers[j].id == v.error.id
                          && (v.error.id == c.id || exists i :: 0 <= i < j && c.peers[i].id == v.error.id)
    ensures v.Refused? && v.error.EvenSize? ==> v.error.size == |c.peers| + 1 && v.error.size % 2 == 0
    ensures v.Accepted? ==> |c.peers| % 2 == 0 && c.id != "" && c.addr != ""
                            && (forall p :: p in c.peers ==> p.id != "" && p.addr != "" && p.id != c.id)
                            && (forall i, j :: 0 <= i < j < |c.peers| ==> c.peers[i].id != c.peers[j].id)
  {
    if c.id == "" { return Refused(MissingId); }
    if c.addr == "" { return Refused(MissingAddr); }
    var seen := {c.id};
    for i := 0 to |c.peers|
      invariant forall x :: x in seen <==> x == c.id || exists j :: 0 <= j < i && c.peers[j].id == x
      invariant forall j :: 0 <= j < i ==> c.peers[j].id != "" && c.peers[j].addr != "" && c.peers[j].id != c.id
      invariant forall j, k :: 0 <= j < k < i ==> c.peers[j].id != c.peers[k].id
    {
      var p := c.peers[i];
      if p.id == "" || p.addr == "" { return Refused(IncompletePeer(p)); }
      if p.id in seen { return Refused(DuplicateId(p.id)); }
      seen := seen + {p.id};
    }
    if c.ClusterSize() % 2 == 0 { return Refused(EvenSize(c.ClusterSize())); }
    return Accepted;
  }

  /** Distinct peers: counting the list counts the set. */
  lemma {:induction false} PeerCount(peers: seq<Peer>)
    requires forall i, j :: 0 <= i < j < |peers| ==> peers[i].id != peers[j].id
    ensures |IdsOf(peers)| == |peers|
  {
    if |peers| > 0 {
      var front := peers[..|peers| - 1];
      PeerCount(front);
      assert IdsOf(peers) == IdsOf(front) + {peers[|peers| - 1].id};
    }
  }

  lemma {:induction false} MemberCount(c: Config)
    requires WellFormed(c)
    ensures |c.Members()| == c.ClusterSize()
  {
    PeerCount(c.peers);
  }

  ghost predicate IsQuorum(nodes: set<NodeId>, q: set<NodeId>) {
    q <= nodes && 2 * |q| > |nodes|
  }

  /** Majority() is exactly the smallest size whose sets are quorums. */
  lemma {:induction false} MajorityIsQuorum(c: Config, q: set<NodeId>)
    requires WellFormed(c) && q <= c.Members()
    ensures |q| >= c.Majority() <==> IsQuorum(c.Members(), q)
  {
    MemberCount(c);
  }

  lemma SubsetSize(a: set<NodeId>, b: set<NodeId>)
    requires a <= b
    ensures |a| <= |b|
  {
    assert |b| == |a| + |b - a| by { assert b == a + (b - a); }
  }

  lemma QuorumGrows(nodes: set<NodeId>, a: set<NodeId>, b: set<NodeId>)
    requires IsQuorum(nodes, a) && a <= b <= nodes
    ensures IsQuorum(nodes, b)
  {
    SubsetSize(a, b);
  }

  /** Any two quorums share a member. */
  lemma QuorumsMeet(nodes: set<NodeId>, a: set<NodeId>, b: set<NodeId>) returns (v: NodeId)
    requires IsQuorum(nodes, a) && IsQuorum(nodes, b)
    ensures v in a && v in b
  {
    if a * b == {} {
      assert |a + b| == |a| + |b|;
      SubsetSize(a + b, nodes);
      assert false;
    }
    v :| v in a * b;
  }

  /** The same two facts in the source's terms: Majority()-sized sets of a validated cluster meet. */
  lemma {:induction false} MajoritiesMeet(c: Config, a: set<NodeId>, b: set<NodeId>)
    requires WellFormed(c)
    requires a <= c.Members() && |a| >= c.Majority()
    requires b <= c.Members() && |b| >= c.Majority()
    ensures a * b != {}
  {
    MajorityIsQuorum(c, a);
    MajorityIsQuorum(c, b);
    var v := QuorumsMeet(c.Members(), a, b);
  }
}
