/** Quorum sizes and what two quorums share. */
module Quorums {
  import opened Types

  function NodeSet(c: NetworkConfig): set<NodeId> {
    set i | 0 <= i < |c.nodes| :: c.nodes[i]
  }

  function IntersectionQuorum(c: NetworkConfig): nat {
    (|c.nodes| + c.f + 2) / 2
  }

  function SomeCorrectQuorum(c: NetworkConfig): nat {
    c.f + 1
  }

  /** At most f of the configured nodes are faulty. */
  ghost predicate FaultBound(c: NetworkConfig, faulty: set<NodeId>) {
    c.Valid() && faulty <= NodeSet(c) && |faulty| <= c.f
  }

  ghost predicate IsQuorum(c: NetworkConfig, q: set<NodeId>) {
    q <= NodeSet(c) && |q| >= IntersectionQuorum(c)
  }

  lemma SubsetSize<T>(a: set<T>, b: set<T>)
    requires a <= b
    ensures |a| <= |b|
  {
    assert b == a + (b - a);
  }

  lemma UnionSize<T>(a: set<T>, b: set<T>)
    requires a !! b
    ensures |a + b| == |a| + |b|
  {
  }

  lemma {:induction false} DistinctSize(s: seq<NodeId>)
    requires forall i, j :: 0 <= i < j < |s| ==> s[i] != s[j]
    ensures |set i | 0 <= i < |s| :: s[i]| == |s|
  {
    var all := set i | 0 <= i < |s| :: s[i];
    if s != [] {
      var init := s[..|s| - 1];
      DistinctSize(init);
      var front := set i | 0 <= i < |init| :: init[i];
      assert forall x :: x in all ==> x in front || x == s[|s| - 1];
      assert all == front + {s[|s| - 1]} by {
        forall x | x in front ensures x in all {
          var i :| 0 <= i < |init| && init[i] == x;
          assert s[i] == x;
        }
      }
      assert s[|s| - 1] !in front;
    }
  }

  lemma NodeSetSize(c: NetworkConfig)
    requires c.Valid()
    ensures |NodeSet(c)| == |c.nodes|
  {
    DistinctSize(c.nodes);
  }

  /** Any two intersection quorums share at least f+1 nodes. */
  lemma QuorumsIntersect(c: NetworkConfig, a: set<NodeId>, b: set<NodeId>)
    requires c.Valid() && IsQuorum(c, a) && IsQuorum(c, b)
    ensures |a * b| >= SomeCorrectQuorum(c)
  {
    DistinctSize(c.nodes);
    SubsetSize(a + b, NodeSet(c));
    assert |a + b| == |a| + |b| - |a * b|;
  }

  lemma SomeCorrect(c: NetworkConfig, faulty: set<NodeId>, a: set<NodeId>) returns (n: NodeId)
    requires FaultBound(c, faulty) && |a| >= SomeCorrectQuorum(c)
    ensures n in a && n !in faulty
  {
    if a <= faulty {
      SubsetSize(a, faulty);
      assert false;
    }
    n :| n in a && n !in faulty;
  }

  /** Any two intersection quorums share a correct node. */
  lemma SharedCorrect(c: NetworkConfig, faulty: set<NodeId>, a: set<NodeId>, b: set<NodeId>) returns (n: NodeId)
    requires FaultBound(c, faulty) && IsQuorum(c, a) && IsQuorum(c, b)
    ensures n in a && n in b && n !in faulty
  {
    QuorumsIntersect(c, a, b);
    n := SomeCorrect(c, faulty, a * b);
  }

  function Picked(s: seq<NodeId>, lo: nat, hi: nat): set<NodeId>
    requires lo <= hi <= |s|
  {
    set i | lo <= i < hi :: s[i]
  }

  lemma PickedSize(s: seq<NodeId>, lo: nat, hi: nat)
    requires lo <= hi <= |s|
    requires forall i, j :: 0 <= i < j < |s| ==> s[i] != s[j]
    ensures |Picked(s, lo, hi)| == hi - lo
  {
    var part := s[lo..hi];
    DistinctSize(part);
    var other := set i | 0 <= i < |part| :: part[i];
    assert Picked(s, lo, hi) == other by {
      forall x | x in Picked(s, lo, hi) ensures x in other {
        var i :| lo <= i < hi && s[i] == x;
        assert part[i - lo] == x;
      }
    }
  }

  lemma PickedInside(c: NetworkConfig, lo: nat, hi: nat)
    requires lo <= hi <= |c.nodes|
    ensures Picked(c.nodes, lo, hi) <= NodeSet(c)
  {
  }

  /** The quorum size is the least one with that property: for every smaller size that the network
      can supply, some two sets of that size share at most f nodes. */
  lemma IntersectionQuorumIsLeast(c: NetworkConfig, q: nat) returns (a: set<NodeId>, b: set<NodeId>)
    requires c.Valid() && q < IntersectionQuorum(c) && q <= |c.nodes|
    ensures a <= NodeSet(c) && b <= NodeSet(c) && |a| == q && |b| == q
    ensures |a * b| <= c.f
  {
    hide NodeSet;
    var n := |c.nodes|;
    a, b := Picked(c.nodes, 0, q), Picked(c.nodes, n - q, n);
    PickedInside(c, 0, q);
    PickedInside(c, n - q, n);
    PickedSize(c.nodes, 0, q);
    PickedSize(c.nodes, n - q, n);
    var lo := if n - q <= q then n - q else q;
    PickedSize(c.nodes, lo, q);
    assert a * b == Picked(c.nodes, lo, q);
  }
}
