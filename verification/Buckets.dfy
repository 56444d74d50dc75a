/** The assignment of numbers to buckets and of buckets to an epoch's leaders. */
module Buckets {
  import opened Types
  import opened Intervals

  function Bucket(s: nat, nb: nat): (b: nat)
    requires nb > 0
    ensures b < nb
  {
    s % nb
  }

  lemma BucketStep(s: nat, nb: nat)
    requires nb > 0
    ensures Bucket(s + nb, nb) == Bucket(s, nb)
  {
    assert s + nb == (s / nb + 1) * nb + s % nb;
    QuotientUnique(s + nb, s / nb + 1, s % nb, nb);
  }

  lemma BucketApart(s: nat, t: nat, nb: nat)
    requires nb > 0 && Bucket(s, nb) == Bucket(t, nb) && s < t
    ensures s + nb <= t
  {
    if t < s + nb {
      var r := s % nb;
      if r + (t - s) < nb {
        QuotientUnique(t, s / nb, r + (t - s), nb);
      } else {
        assert t == (s / nb + 1) * nb + (r + (t - s) - nb);
        QuotientUnique(t, s / nb + 1, r + (t - s) - nb, nb);
      }
      assert false;
    }
  }

  /** The first sequence number after `start` in a bucket. */
  function FirstIn(start: nat, b: nat, nb: nat): (s: nat)
    requires b < nb
    ensures start < s <= start + nb
  {
    var r := (start + 1) % nb;
    if b >= r then start + 1 + (b - r) else start + 1 + (b + nb - r)
  }

  lemma FirstInBucket(start: nat, b: nat, nb: nat)
    requires b < nb
    ensures Bucket(FirstIn(start, b, nb), nb) == b
  {
    var q, r := (start + 1) / nb, (start + 1) % nb;
    if b >= r {
      QuotientUnique(FirstIn(start, b, nb), q, b, nb);
    } else {
      assert FirstIn(start, b, nb) == (q + 1) * nb + b;
      QuotientUnique(FirstIn(start, b, nb), q + 1, b, nb);
    }
  }

  lemma FirstInUnique(start: nat, s: nat, nb: nat)
    requires nb > 0 && start < s <= start + nb
    ensures s == FirstIn(start, Bucket(s, nb), nb)
  {
    var t := FirstIn(start, Bucket(s, nb), nb);
    FirstInBucket(start, Bucket(s, nb), nb);
    if s < t {
      BucketApart(s, t, nb);
    } else if t < s {
      BucketApart(t, s, nb);
    }
  }

  /** How far the next number of a bucket is from `x`. */
  function Distance(x: nat, b: nat, nb: nat): (j: nat)
    requires b < nb
    ensures j < nb
  {
    var r := x % nb;
    if b >= r then b - r else b + nb - r
  }

  lemma DistanceReaches(x: nat, b: nat, nb: nat)
    requires b < nb
    ensures Bucket(x + Distance(x, b, nb), nb) == b
  {
    var q, r := x / nb, x % nb;
    if b >= r {
      QuotientUnique(x + Distance(x, b, nb), q, b, nb);
    } else {
      assert x + Distance(x, b, nb) == (q + 1) * nb + b;
      QuotientUnique(x + Distance(x, b, nb), q + 1, b, nb);
    }
  }

  // ---------------------------------------------------------------- the owners of the buckets

  /** The node whose turn it is to own bucket `b`. */
  function Turn(c: NetworkConfig, config: EpochConfig, b: nat): NodeId
    requires c.nodes != []
  {
    c.nodes[(b + config.number) % |c.nodes|]
  }

  /** How many buckets before `b` had to go to another leader. */
  function Overflow(c: NetworkConfig, config: EpochConfig, b: nat): nat
    requires c.nodes != []
  {
    if b == 0 then 0
    else Overflow(c, config, b - 1) + if Turn(c, config, b - 1) in config.leaders then 0 else 1
  }

  /** The owner of a bucket: the node whose turn it is, or the next leader in turn if that is none. */
  function Owner(c: NetworkConfig, config: EpochConfig, b: nat): (n: NodeId)
    requires c.nodes != [] && config.leaders != []
    ensures n in config.leaders
    ensures Turn(c, config, b) in config.leaders ==> n == Turn(c, config, b)
  {
    var turn := Turn(c, config, b);
    if turn in config.leaders then turn else config.leaders[Overflow(c, config, b) % |config.leaders|]
  }

  function OwnerOf(c: NetworkConfig, config: EpochConfig, s: nat): NodeId
    requires c.nodes != [] && config.leaders != [] && c.numberOfBuckets > 0
  {
    Owner(c, config, Bucket(s, c.numberOfBuckets))
  }

  method AssignBuckets(c: NetworkConfig, config: EpochConfig) returns (buckets: seq<NodeId>)
    requires c.nodes != [] && config.leaders != []
    ensures |buckets| == c.numberOfBuckets
    ensures forall b :: 0 <= b < |buckets| ==> buckets[b] == Owner(c, config, b)
  {
    buckets := [];
    var overflowIndex := 0;
    for i := 0 to c.numberOfBuckets
      invariant |buckets| == i && overflowIndex == Overflow(c, config, i)
      invariant forall b :: 0 <= b < i ==> buckets[b] == Owner(c, config, b)
    {
      var leader := c.nodes[(i + config.number) % |c.nodes|];
      if leader !in config.leaders {
        buckets := buckets + [config.leaders[overflowIndex % |config.leaders|]];
        overflowIndex := overflowIndex + 1;
      } else {
        buckets := buckets + [leader];
      }
    }
  }

  lemma {:induction false} OverflowSteps(c: NetworkConfig, config: EpochConfig, a: nat, b: nat)
    requires c.nodes != [] && a <= b
    ensures Overflow(c, config, a) <= Overflow(c, config, b)
    ensures a < b && Turn(c, config, a) !in config.leaders ==> Overflow(c, config, a) < Overflow(c, config, b)
  {
    if a < b {
      OverflowSteps(c, config, a, b - 1);
    }
  }

  /** Overflowing buckets go round the leaders: two of them share a leader's turn only if at least as
      many buckets overflowed from the one to the other as there are leaders. */
  lemma OverflowGoesRound(c: NetworkConfig, config: EpochConfig, a: nat, b: nat)
    requires c.nodes != [] && config.leaders != [] && a < b
    requires Turn(c, config, a) !in config.leaders && Turn(c, config, b) !in config.leaders
    requires forall i, j :: 0 <= i < j < |config.leaders| ==> config.leaders[i] != config.leaders[j]
    ensures Owner(c, config, a) == Owner(c, config, b) ==>
              Overflow(c, config, b) >= Overflow(c, config, a) + |config.leaders|
  {
    var x, y, n := Overflow(c, config, a), Overflow(c, config, b), |config.leaders|;
    OverflowSteps(c, config, a, b);
    if Owner(c, config, a) == Owner(c, config, b) {
      assert x % n == y % n;
      BucketApart(x, y, n);
    }
  }
}
