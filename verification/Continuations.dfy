/** The converse of agreement across epochs: a quorum that works in an epoch may commit any batch at a
    sequence beyond what the epoch carried over, whatever was prepared there before. */
module Continuations {
  import opened Types
  import opened Quorums
  import opened Intervals
  import opened EpochChanges
  import opened NewEpochConfigs
  import opened WriteAheadLog
  import opened ReplicaVotes
  import opened EpochChain
  import opened Scenarios
  import opened JointRuns
  import opened JointPaths
  import S = Sequences
  import TP = ThreePhase
  import SR = SlotRuns

  lemma BlockBase(s: nat, ci: nat) returns (b: nat)
    requires s > 0 && ci > 0
    ensures Aligned(b, ci) && b < s <= b + ci
  {
    if s <= ci {
      b := 0;
    } else {
      b := BlockBase(s - ci, ci);
      b := b + ci;
    }
  }

  /** A replica that works in the epoch of `k` and has `s` in its window, beyond what it carried over. */
  ghost predicate Works(c: NetworkConfig, r: Replica, k: NewEpochConfig, s: nat) {
    && r.phase == Active && r.echoed == Some(k) && k in r.adopted && r.epoch == k.config.number
    && s > End(k) && r.lastCheckpoint < s <= StopAt(c, r)
  }

  /** The correct members of `q` do. */
  ghost predicate WorksIn(c: NetworkConfig, faulty: set<NodeId>, g: Network, q: set<NodeId>, k: NewEpochConfig, s: nat) {
    forall i :: i in q && i !in faulty ==> i in g && Works(c, g[i], k, s)
  }

  function Opening(faulty: set<NodeId>, g: Network, q: set<NodeId>, n: nat, config: EpochConfig): Network
  {
    map i | i in q && i !in faulty && i in g :: OpenedState(g[i], n, config)
  }

  lemma MayOpen(c: NetworkConfig, faulty: set<NodeId>, g: Network, i: NodeId, k: NewEpochConfig, s: nat, b: nat)
    requires i in g && Works(c, g[i], k, s) && c.checkpointInterval > 0
    requires Aligned(b, c.checkpointInterval) && b < s <= b + c.checkpointInterval
    ensures MayMove(c, faulty, g, i, OpenedState(g[i], b + 1, k.config), Open(b + 1, k.config))
    ensures Opened(OpenedState(g[i], b + 1, k.config).log, c.checkpointInterval, s)
  {
    hide HasN;
    hide Opened;
    MayOpenInterval(c, g[i], b + 1, k.config);
    IntervalOpens(OpenedState(g[i], b + 1, k.config).log, c.checkpointInterval, b + 1, s);
  }

  /** Everyone concerned has the interval of `s` opened. */
  lemma OpenAll(c: NetworkConfig, faulty: set<NodeId>, j: Joint, q: set<NodeId>, k: NewEpochConfig, s: nat)
    returns (j': Joint)
    requires JointInv(c, faulty, j) && WorksIn(c, faulty, j.chain, q, k, s) && c.checkpointInterval > 0 && s > 0
    ensures Reaches(c, faulty, j, j') && JointInv(c, faulty, j') && NetworkGrows(j.chain, j'.chain)
    ensures j'.phases == j.phases && WorksIn(c, faulty, j'.chain, q, k, s)
    ensures forall i :: i in q && i !in faulty ==> Opened(j'.chain[i].log, c.checkpointInterval, s)
  {
    hide JointInv;
    hide Reaches;
    hide NetworkGrows;
    hide MayMove;
    hide Opened;
    hide Aligned;
    var b := BlockBase(s, c.checkpointInterval);
    var after := Opening(faulty, j.chain, q, b + 1, k.config);
    forall i | i in after
      ensures MayMove(c, faulty, j.chain, i, after[i], Open(b + 1, k.config))
      ensures Opened(after[i].log, c.checkpointInterval, s)
    {
      MayOpen(c, faulty, j.chain, i, k, s, b);
    }
    j' := j.(chain := j.chain + after);
    MoveAll(c, faulty, j, after, Open(b + 1, k.config));
  }

  /** Such a replica takes part in the slot. */
  lemma WorkerTakesPart(c: NetworkConfig, faulty: set<NodeId>, j: Joint, i: NodeId, k: NewEpochConfig, s: nat)
    requires JointInv(c, faulty, j) && i in j.chain && Works(c, j.chain[i], k, s) && c.checkpointInterval > 0
    requires Opened(j.chain[i].log, c.checkpointInterval, s)
    ensures TakesPart(c, j.chain[i], Slot(k.config.number, s))
  {
    hide JointInv;
    hide Inv;
    hide Opened;
    ChainInv(c, faulty, j);
    forall k' | k' in j.chain[i].readies && k'.config.number == k.config.number ensures k' == k {
      AdoptedReadied(c, faulty, j.chain, i, i, k, k');
    }
  }

  /** What the machine does with a slot that a quorum works on. */
  lemma CommitsSlot(c: NetworkConfig, faulty: set<NodeId>, j: Joint, q: set<NodeId>, k: NewEpochConfig, s: nat, owner: NodeId,
                    batch: seq<RequestAck>) returns (j': Joint)
    requires JointInv(c, faulty, j) && IsQuorum(c, q) && WorksIn(c, faulty, j.chain, q, k, s) && batch != []
    requires forall i :: i in q && i !in faulty ==> TakesPart(c, j.chain[i], Slot(k.config.number, s))
    requires Slot(k.config.number, s) !in j.phases && Owns(c, j.chain, Slot(k.config.number, s), owner)
    requires owner in NodeSet(c) && (owner in q || owner in faulty)
    ensures Reaches(c, faulty, j, j') && JointInv(c, faulty, j') && NetworkGrows(j.chain, j'.chain)
    ensures forall i :: i in q && i !in faulty ==> ByPhases(j', i, k.config.number, s, HashBatch(batch))
  {
    hide JointInv;
    hide Reaches;
    hide NetworkGrows;
    hide TakesPart;
    hide Owns;
    hide Works;
    hide IntersectionQuorum;
    hide TP.Inv;
    hide SR.Reaches;
    hide Inv;
    hide NodeSet;
    hide FreshNet;
    hide InSlot;
    hide HashBatch;
    hide ByPhases;
    hide TP.Fresh;
    ChainInv(c, faulty, j);
    FaultsBounded(c, faulty, j.chain);
    FreshKeys(c, j.chain, owner);
    var slot, net0 := Slot(k.config.number, s), FreshNet(c, j.chain, owner);
    var net := SR.QuorumCommits(c, faulty, owner, q, net0, batch);
    assert forall i :: i in q && i in j.chain ==> i !in faulty;
    LiftSlot(c, faulty, j, slot, owner, q, net);
    j' := InSlot(j, slot, owner, net);
    forall i | i in q && i !in faulty ensures ByPhases(j', i, k.config.number, s, HashBatch(batch)) {
      CommittedInSlot(j, slot, owner, net, i, batch);
    }
  }

  lemma CommittedInSlot(j: Joint, slot: Slot, owner: NodeId, net: TP.Network, i: NodeId, batch: seq<RequestAck>)
    requires i in net && SR.CommittedFor(net[i], batch)
    ensures ByPhases(InSlot(j, slot, owner, net), i, slot.epoch, slot.seqNo, HashBatch(batch))
  {
    assert Slot(slot.epoch, slot.seqNo) == slot;
  }

  /** If a quorum works in an epoch after `e` whose configuration ended below `s`, has `s` in its window
      and has not touched it, and the owner of `s` is among them or faulty, then the run may go on to a
      state in which they have committed any batch there, although a quorum prepared `d` in epoch `e`. */
  lemma EarlyEndReassigns(c: NetworkConfig, faulty: set<NodeId>, j: Joint, q: set<NodeId>, q1: set<NodeId>, e: nat, s: nat,
                          d: Digest, k: NewEpochConfig, owner: NodeId, batch: seq<RequestAck>) returns (j': Joint)
    requires JointInv(c, faulty, j) && PreparedQuorum(c, faulty, j.chain, q, e, s, d) && e < k.config.number
    requires s > k.startingCheckpoint.seqNo + Window(c)
    requires IsQuorum(c, q1) && WorksIn(c, faulty, j.chain, q1, k, s) && batch != []
    requires Slot(k.config.number, s) !in j.phases && OwnedIn(c, k, Slot(k.config.number, s), owner)
    requires owner in NodeSet(c) && (owner in q1 || owner in faulty)
    ensures Reaches(c, faulty, j, j') && NetworkGrows(j.chain, j'.chain)
    ensures PreparedQuorum(c, faulty, j'.chain, q, e, s, d)
    ensures forall i :: i in q1 && i !in faulty ==> ByPhases(j', i, k.config.number, s, HashBatch(batch))
    ensures PreparedQuorum(c, faulty, j'.chain, q1, k.config.number, s, HashBatch(batch))
  {
    hide JointInv;
    hide Reaches;
    hide OwnedIn;
    hide HashBatch;
    ChainInv(c, faulty, j);
    FaultsBounded(c, faulty, j.chain);
    var slot := Slot(k.config.number, s);
    var n := SharedCorrect(c, faulty, q1, q1);
    assert Works(c, j.chain[n], k, s);
    var j1 := OpenAll(c, faulty, j, q1, k, s);
    forall i | i in q1 && i !in faulty ensures TakesPart(c, j1.chain[i], slot) {
      WorkerTakesPart(c, faulty, j1, i, k, s);
    }
    assert Owns(c, j1.chain, slot, owner) by {
      assert n in j1.chain && k in j1.chain[n].adopted;
    }
    hide TakesPart;
    hide Owns;
    hide Works;
    j' := CommitsSlot(c, faulty, j1, q1, k, s, owner, batch);
    Follows(c, faulty, j, j1, j');
    GrowsOn(j.chain, j1.chain, j'.chain);
    CommittedPrepared(c, faulty, j', q1, k.config.number, s, HashBatch(batch));
    StillPrepared(c, faulty, j.chain, j'.chain, q, e, s, d);
  }

  lemma StillPrepared(c: NetworkConfig, faulty: set<NodeId>, g: Network, g': Network, q: set<NodeId>, e: nat, s: nat, d: Digest)
    requires PreparedQuorum(c, faulty, g, q, e, s, d) && NetworkGrows(g, g')
    ensures PreparedQuorum(c, faulty, g', q, e, s, d)
  {
  }

  lemma CommittedPrepared(c: NetworkConfig, faulty: set<NodeId>, j: Joint, q: set<NodeId>, e: nat, s: nat, d: Digest)
    requires JointInv(c, faulty, j) && IsQuorum(c, q)
    requires forall i :: i in q && i !in faulty ==> ByPhases(j, i, e, s, d)
    ensures PreparedQuorum(c, faulty, j.chain, q, e, s, d)
  {
    hide Inv;
    hide TP.Inv;
    hide Owns;
    hide FromSequences;
    forall i | i in q && i !in faulty ensures i in j.chain && Vote(e, s, d) in j.chain[i].prepares {
      assert SlotInv(c, faulty, j.chain, Slot(e, s), j.phases[Slot(e, s)]);
    }
  }
}
