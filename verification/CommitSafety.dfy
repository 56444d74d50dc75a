/** What correct replicas commit, by the three phases or on delivering an epoch, and when it agrees. */
module CommitSafety {
  import opened Types
  import opened Quorums
  import opened NewEpochConfigs
  import opened ReplicaVotes
  import opened EpochChain
  import opened JointRuns
  import S = Sequences
  import TP = ThreePhase

  /** Some quorum's correct members hold P entries for the digest. */
  ghost predicate Anchored(c: NetworkConfig, faulty: set<NodeId>, g: Network, e: nat, s: nat, d: Digest) {
    exists q :: PreparedQuorum(c, faulty, g, q, e, s, d)
  }

  // ---------------------------------------------------------------- which commits are locked

  /** A sequence that has reached the prepared phase has its P entry in the replica's log. */
  lemma LogsPrepared(c: NetworkConfig, faulty: set<NodeId>, j: Joint, slot: Slot, i: NodeId)
    requires JointInv(c, faulty, j) && slot in j.phases && i in j.phases[slot].net
    requires AtLeast(Sequence(j, slot, i), S.Prepared)
    ensures i in j.chain && Vote(slot.epoch, slot.seqNo, Sequence(j, slot, i).digest) in j.chain[i].prepares
  {
    hide Inv;
    hide TP.Inv;
    hide Owns;
    hide FromSequences;
    assert SlotInv(c, faulty, j.chain, slot, j.phases[slot]);
  }

  /** A commit by phases is anchored unless the owner's second commit filled the tally. */
  lemma PhasesAnchored(c: NetworkConfig, faulty: set<NodeId>, j: Joint, i: NodeId, e: nat, s: nat, d: Digest)
    requires JointInv(c, faulty, j) && ByPhases(j, i, e, s, d)
    requires !TP.FilledTwice(c, j.phases[Slot(e, s)].net[i])
    ensures Anchored(c, faulty, j.chain, e, s, d)
  {
    hide Inv;
    hide TP.Inv;
    hide TP.FilledTwice;
    hide Owns;
    hide FromSequences;
    var slot := Slot(e, s);
    var x := j.phases[slot];
    assert SlotInv(c, faulty, j.chain, slot, x);
    TP.CommittersCount(c, faulty, x.owner, x.net, i);
    var q := TP.Committers(x.net[i], d);
    forall n | n in q && n !in faulty ensures n in j.chain && Vote(e, s, d) in j.chain[n].prepares {
      TP.CommitterPrepared(c, faulty, x.owner, x.net, i, n);
      LogsPrepared(c, faulty, j, slot, n);
    }
    assert PreparedQuorum(c, faulty, j.chain, q, e, s, d);
  }

  /** A commit on delivery is anchored if a quorum readied the epoch on echoes, and only then if no
      correct replica echoed another configuration. */
  lemma DeliveryAnchored(c: NetworkConfig, faulty: set<NodeId>, j: Joint, i: NodeId, e: nat, s: nat, d: Digest,
                         k: NewEpochConfig)
    requires JointInv(c, faulty, j) && OnDelivery(j, i, e, s, d) && k in j.chain[i].echoes && k.config.number == e
    ensures (exists q :: AnchorQuorum(c, faulty, j.chain, q, k)) ==> Anchored(c, faulty, j.chain, e, s, d)
    ensures AllEchoed(j.chain, k) ==>
              (Anchored(c, faulty, j.chain, e, s, d) <==> exists q :: AnchorQuorum(c, faulty, j.chain, q, k))
  {
    hide Inv;
    hide SlotInv;
    hide FromSequences;
    hide AnchorQuorum;
    hide PreparedQuorum;
    hide AllEchoed;
    var g := j.chain;
    DeliveredIsEchoed(c, faulty, g, i, Vote(e, s, d), k);
    forall q ensures AnchorQuorum(c, faulty, g, q, k) ==> PreparedQuorum(c, faulty, g, q, e, s, d) {
      AnchoredIsPrepared(c, faulty, g, q, k, s, d);
    }
    if AllEchoed(g, k) {
      forall q ensures PreparedQuorum(c, faulty, g, q, e, s, d) ==> AnchorQuorum(c, faulty, g, q, k) {
        AnchoredIsPrepared(c, faulty, g, q, k, s, d);
      }
    }
  }

  /** What is anchored is locked. */
  lemma AnchoredLocked(c: NetworkConfig, faulty: set<NodeId>, g: Network, e: nat, s: nat, d: Digest)
    requires Inv(c, faulty, g) && Anchored(c, faulty, g, e, s, d)
    ensures Locked(c, faulty, g, e, s, d)
  {
    hide Inv;
    hide PreparedQuorum;
    FaultsBounded(c, faulty, g);
    var q :| PreparedQuorum(c, faulty, g, q, e, s, d);
    PreparedLocked(c, faulty, g, q, e, s, d);
  }

  // ---------------------------------------------------------------- later epochs

  /** A locked digest lies within every later window that reaches its sequence number. */
  lemma LockedWithin(c: NetworkConfig, faulty: set<NodeId>, g: Network, e: nat, s: nat, d: Digest, i: NodeId,
                     k: NewEpochConfig)
    requires Inv(c, faulty, g) && Locked(c, faulty, g, e, s, d) && i in g && k in g[i].echoes && k.config.number > e
    requires NoneEndsBelow(c, g, e, k.config.number + 1, s) && Verified(c, faulty, g, e, k.config.number + 1)
    ensures s <= End(k) && (s > k.startingCheckpoint.seqNo ==> Carries(k, s, d))
  {
    hide Inv;
    hide Locked;
    hide Verified;
    if s > k.startingCheckpoint.seqNo {
      assert Covers(c, k, s);
      LockedCarries(c, faulty, g, e, s, d, i, k);
    }
  }

  /** After a digest is locked, a correct replica commits nothing else at that sequence number in a
      later epoch, and never by phases: the number stays among the carried-over ones. */
  lemma LaterCommitAgrees(c: NetworkConfig, faulty: set<NodeId>, j: Joint, e: nat, s: nat, d: Digest, i: NodeId, e1: nat,
                          d1: Digest)
    requires JointInv(c, faulty, j) && Locked(c, faulty, j.chain, e, s, d) && e < e1
    requires NoneEndsBelow(c, j.chain, e, e1 + 1, s) && Verified(c, faulty, j.chain, e, e1 + 1)
    requires CommittedAt(j, i, e1, s, d1)
    ensures d1 == d && OnDelivery(j, i, e1, s, d1) && !ByPhases(j, i, e1, s, d1)
  {
    hide Inv;
    hide TP.Inv;
    hide Owns;
    hide FromSequences;
    hide Locked;
    hide Verified;
    hide NoneEndsBelow;
    var g := j.chain;
    if ByPhases(j, i, e1, s, d1) {
      assert SlotInv(c, faulty, g, Slot(e1, s), j.phases[Slot(e1, s)]);
      var k :| k in g[i].echoes && k.config.number == e1 && s > End(k);
      LockedWithin(c, faulty, g, e, s, d, i, k);
      assert false;
    }
    var k := EchoOfDelivered(c, faulty, g, i, Vote(e1, s, d1));
    LockedWithin(c, faulty, g, e, s, d, i, k);
  }

  /** An epoch starts where the replica's commits end: with every earlier commit locked, no window ended
      below it and every echo verified, nothing is committed above the checkpoint that the epoch starts
      from. */
  lemma StartsAtLastCommit(c: NetworkConfig, faulty: set<NodeId>, run: seq<Joint>, value: nat, config: EpochConfig, t: nat,
                           i: NodeId, k: NewEpochConfig, e: nat, s: nat, d: Digest)
    requires IsJointRun(c, faulty, run, value, config) && t < |run| && i in run[t].chain
    requires run[t].chain[i].phase == Delivered && run[t].chain[i].echoed == Some(k)
    requires run[t].chain[i].lastCheckpoint == End(k)
    requires e < run[t].chain[i].epoch && CommittedAt(run[t], i, e, s, d)
    requires Locked(c, faulty, run[t].chain, e, s, d) && NoneEndsBelow(c, run[t].chain, e, k.config.number + 1, s)
    requires Verified(c, faulty, run[t].chain, e, k.config.number + 1)
    ensures s <= run[t].chain[i].lastCheckpoint
  {
    hide IsJointRun;
    hide Inv;
    hide Locked;
    hide Verified;
    hide NoneEndsBelow;
    hide SlotInv;
    hide FromSequences;
    RunKeepsJointInv(c, faulty, run, value, config, t);
    NodeInv(c, faulty, run[t].chain, i);
    LockedWithin(c, faulty, run[t].chain, e, s, d, i, k);
  }

  // ---------------------------------------------------------------- one epoch

  /** What the two replicas echoed in epoch `e` is the same. */
  ghost predicate SameEcho(g: Network, i: NodeId, n: NodeId, e: nat) {
    && i in g && n in g
    && forall k: NewEpochConfig, k': NewEpochConfig ::
         k in g[i].echoes && k' in g[n].echoes && k.config.number == e && k'.config.number == e ==> k == k'
  }

  /** It always is if the leader of the epoch is correct. */
  lemma CorrectLeaderSameEcho(c: NetworkConfig, faulty: set<NodeId>, g: Network, i: NodeId, n: NodeId, e: nat)
    requires Inv(c, faulty, g) && i in g && n in g && LeaderOf(c, e) !in faulty
    ensures SameEcho(g, i, n, e)
  {
    hide Inv;
    hide Justified;
    forall k: NewEpochConfig, k': NewEpochConfig
      | k in g[i].echoes && k' in g[n].echoes && k.config.number == e && k'.config.number == e
      ensures k == k'
    {
      CorrectlyLed(c, faulty, g, i, n, k, k');
    }
  }

  lemma Touched(c: NetworkConfig, faulty: set<NodeId>, j: Joint, i: NodeId, e: nat, s: nat, d: Digest)
    returns (k: NewEpochConfig)
    requires JointInv(c, faulty, j) && ByPhases(j, i, e, s, d)
    ensures i in j.chain && k in j.chain[i].echoes && k.config.number == e && s > End(k)
  {
    hide Inv;
    hide TP.Inv;
    hide Owns;
    hide FromSequences;
    assert SlotInv(c, faulty, j.chain, Slot(e, s), j.phases[Slot(e, s)]);
    k :| k in j.chain[i].echoes && k.config.number == e && s > End(k);
  }

  /** Two commits by phases in one epoch are of the same digest. */
  lemma PhasesAgree(c: NetworkConfig, faulty: set<NodeId>, j: Joint, e: nat, s: nat, i: NodeId, d: Digest, n: NodeId,
                    d1: Digest)
    requires JointInv(c, faulty, j) && ByPhases(j, i, e, s, d) && ByPhases(j, n, e, s, d1)
    ensures d == d1
  {
    hide Inv;
    hide TP.Inv;
    hide Owns;
    hide FromSequences;
    var slot := Slot(e, s);
    assert SlotInv(c, faulty, j.chain, slot, j.phases[slot]);
    FaultsBounded(c, faulty, j.chain);
    TP.PreparedAgree(c, faulty, j.phases[slot].owner, j.phases[slot].net, i, n);
  }

  /** Within an epoch two replicas that echoed the same configuration commit the same digest, and one
      that committed by phases does not meet one that committed on delivery. */
  lemma SameEpochAgrees(c: NetworkConfig, faulty: set<NodeId>, j: Joint, e: nat, s: nat, i: NodeId, d: Digest, n: NodeId,
                        d1: Digest)
    requires JointInv(c, faulty, j) && CommittedAt(j, i, e, s, d) && CommittedAt(j, n, e, s, d1)
    requires SameEcho(j.chain, i, n, e)
    ensures d == d1 && (ByPhases(j, i, e, s, d) <==> ByPhases(j, n, e, s, d1))
  {
    hide Inv;
    hide SlotInv;
    hide ByPhases;
    hide FromSequences;
    var g := j.chain;
    if ByPhases(j, i, e, s, d) && ByPhases(j, n, e, s, d1) {
      PhasesAgree(c, faulty, j, e, s, i, d, n, d1);
    } else {
      var k, k';
      if ByPhases(j, i, e, s, d) {
        k := Touched(c, faulty, j, i, e, s, d);
      } else {
        k := EchoOfDelivered(c, faulty, g, i, Vote(e, s, d));
      }
      if ByPhases(j, n, e, s, d1) {
        k' := Touched(c, faulty, j, n, e, s, d1);
      } else {
        k' := EchoOfDelivered(c, faulty, g, n, Vote(e, s, d1));
      }
    }
  }

  // ---------------------------------------------------------------- runs

  /** The two replicas committed by phases in epoch `e`, or its leader is correct, or they echoed the same. */
  ghost predicate Alike(c: NetworkConfig, faulty: set<NodeId>, j: Joint, e: nat, s: nat, i: NodeId, d: Digest, n: NodeId,
                        d1: Digest)
  {
    || (ByPhases(j, i, e, s, d) && ByPhases(j, n, e, s, d1))
    || LeaderOf(c, e) !in faulty
    || SameEcho(j.chain, i, n, e)
  }

  lemma AlikeAgrees(c: NetworkConfig, faulty: set<NodeId>, j: Joint, e: nat, s: nat, i: NodeId, d: Digest, n: NodeId,
                    d1: Digest)
    requires JointInv(c, faulty, j) && CommittedAt(j, i, e, s, d) && CommittedAt(j, n, e, s, d1)
    requires Alike(c, faulty, j, e, s, i, d, n, d1)
    ensures d == d1
  {
    hide ByPhases;
    hide SameEcho;
    if ByPhases(j, i, e, s, d) && ByPhases(j, n, e, s, d1) {
      hide JointInv;
      PhasesAgree(c, faulty, j, e, s, i, d, n, d1);
    } else {
      CommittersKnown(c, faulty, j, i, e, s, d);
      CommittersKnown(c, faulty, j, n, e, s, d1);
      if LeaderOf(c, e) !in faulty {
        hide Inv;
        CorrectLeaderSameEcho(c, faulty, j.chain, i, n, e);
      }
      hide JointInv;
      SameEpochAgrees(c, faulty, j, e, s, i, d, n, d1);
    }
  }

  lemma CommittersKnown(c: NetworkConfig, faulty: set<NodeId>, j: Joint, i: NodeId, e: nat, s: nat, d: Digest)
    requires JointInv(c, faulty, j) && CommittedAt(j, i, e, s, d)
    ensures i in j.chain
  {
    hide JointInv;
    hide ByPhases;
    if ByPhases(j, i, e, s, d) {
      var k := Touched(c, faulty, j, i, e, s, d);
    }
  }

  /** Safety over whole runs.  Two correct replicas that committed at a sequence number, each by phases
      or on delivery, committed the same digest: in different epochs if the first one is locked, no window
      in between ended below the number and all echoes in between were verified; in one epoch if its
      leader is correct, or both committed by phases or echoed the same. */
  lemma CommitsAgree(c: NetworkConfig, faulty: set<NodeId>, run: seq<Joint>, value: nat, config: EpochConfig, t: nat,
                     s: nat, i: NodeId, e: nat, d: Digest, n: NodeId, e1: nat, d1: Digest)
    requires IsJointRun(c, faulty, run, value, config) && t < |run| && e <= e1
    requires CommittedAt(run[t], i, e, s, d) && CommittedAt(run[t], n, e1, s, d1)
    requires e < e1 ==> && Locked(c, faulty, run[t].chain, e, s, d) && NoneEndsBelow(c, run[t].chain, e, e1 + 1, s)
                        && Verified(c, faulty, run[t].chain, e, e1 + 1)
    requires e == e1 ==> Alike(c, faulty, run[t], e, s, i, d, n, d1)
    ensures d == d1
  {
    hide IsJointRun;
    hide JointInv;
    hide CommittedAt;
    hide Locked;
    hide Verified;
    hide NoneEndsBelow;
    hide Alike;
    RunKeepsJointInv(c, faulty, run, value, config, t);
    if e < e1 {
      LaterCommitAgrees(c, faulty, run[t], e, s, d, n, e1, d1);
    } else {
      AlikeAgrees(c, faulty, run[t], e, s, i, d, n, d1);
    }
  }

  /** In particular two replicas that committed by phases did so in the same epoch and agree, if the
      earlier tally was not filled by an owner counted twice, no window in between ended below and all
      echoes in between were verified. */
  lemma PhaseCommitsAgree(c: NetworkConfig, faulty: set<NodeId>, run: seq<Joint>, value: nat, config: EpochConfig, t: nat,
                          s: nat, i: NodeId, e: nat, d: Digest, n: NodeId, e1: nat, d1: Digest)
    requires IsJointRun(c, faulty, run, value, config) && t < |run| && e <= e1
    requires ByPhases(run[t], i, e, s, d) && ByPhases(run[t], n, e1, s, d1)
    requires !TP.FilledTwice(c, run[t].phases[Slot(e, s)].net[i]) && NoneEndsBelow(c, run[t].chain, e, e1 + 1, s)
    requires Verified(c, faulty, run[t].chain, e, e1 + 1)
    ensures e == e1 && d == d1
  {
    hide IsJointRun;
    hide Inv;
    hide SlotInv;
    hide FromSequences;
    hide Anchored;
    hide Locked;
    hide Verified;
    hide NoneEndsBelow;
    hide TP.FilledTwice;
    RunKeepsJointInv(c, faulty, run, value, config, t);
    PhasesAnchored(c, faulty, run[t], i, e, s, d);
    AnchoredLocked(c, faulty, run[t].chain, e, s, d);
    if e < e1 {
      LaterCommitAgrees(c, faulty, run[t], e, s, d, n, e1, d1);
    } else {
      PhasesAgree(c, faulty, run[t], e, s, i, d, n, d1);
    }
  }
}
