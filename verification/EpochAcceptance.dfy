/** What a follower accepts is what the chain of epochs asks of an echoed configuration. */
module EpochAcceptance {
  import opened Types
  import opened Quorums
  import opened EpochChanges
  import opened NewEpochConfigs
  import opened NewEpochVerification
  import opened EpochChain

  /** Acknowledgements for epoch `e`: those of correct nodes are for what configured nodes sent them, and a
      correct node sent one epoch change.  No message names a checkpoint number twice. */
  ghost predicate TruthfulAcks(c: NetworkConfig, faulty: set<NodeId>, g: Network, e: nat, acks: seq<Ack>) {
    forall i :: 0 <= i < |acks| ==> TruthfulAck(c, faulty, g, e, acks[i])
  }

  ghost predicate TruthfulAck(c: NetworkConfig, faulty: set<NodeId>, g: Network, e: nat, ack: Ack) {
    && ack.change.newEpoch == e && DistinctCheckpoints(ack.change.checkpoints)
    && (ack.source !in faulty ==> ack.origin in NodeSet(c))
    && (ack.source !in faulty && ack.origin !in faulty ==>
          ack.origin in g && e in g[ack.origin].changes && g[ack.origin].changes[e] == ack.change)
  }

  lemma HeldIsGenuine(c: NetworkConfig, faulty: set<NodeId>, g: Network, e: nat, acks: seq<Ack>, r: Reference)
    requires FaultBound(c, faulty) && TruthfulAcks(c, faulty, g, e, acks) && Holds(c, SeenAfter(c, acks), r)
    ensures r.node in NodeSet(c) && r.change.newEpoch == e && DistinctCheckpoints(r.change.checkpoints)
    ensures Parseable(r.change)
    ensures TrackedFor(SeenAfter(c, acks), r.node).received[r.change].parsed == Parsed(r.change)
    ensures r.node !in faulty ==> r.node in g && e in g[r.node].changes && g[r.node].changes[e] == r.change
  {
    hide SeenAfter;
    SeenExact(c, acks, r.node);
    var t := TrackedFor(SeenAfter(c, acks), r.node);
    assert EntryExact(acks, r.node, t, r.change);
    var n := SomeCorrect(c, faulty, Ackers(acks, r.node, r.change));
    var i :| 0 <= i < |acks| && acks[i].origin == r.node && acks[i].change == r.change && acks[i].source == n;
    assert TruthfulAck(c, faulty, g, e, acks[i]);
  }

  lemma {:induction false} ResolvedIsGenuine(c: NetworkConfig, faulty: set<NodeId>, g: Network, e: nat, acks: seq<Ack>,
                                             references: seq<Reference>)
    requires FaultBound(c, faulty) && TruthfulAcks(c, faulty, g, e, acks)
    requires Resolved(c, SeenAfter(c, acks), references).Some?
    ensures
      var ec := Resolved(c, SeenAfter(c, acks), references).value;
      Genuine(c, faulty, g, ec, e) && forall i :: i in ec ==> ec[i].underlying.newEpoch == e
  {
    hide SeenAfter;
    hide TruthfulAcks;
    hide Parsed;
    if references != [] {
      ResolvedIsGenuine(c, faulty, g, e, acks, Init(references));
      HeldIsGenuine(c, faulty, g, e, acks, Last(references));
      assert Parsed(Last(references).change).underlying == Last(references).change by {
        ParsedUnderlying(Last(references).change);
      }
    }
  }

  lemma ParsedUnderlying(m: EpochChange)
    requires m.checkpoints != []
    ensures Parsed(m).underlying == m
  {
  }

  /** A configuration that passes verification at a follower is justified: f+1 acknowledgements of each epoch
      change it rests on include one of a correct node. */
  lemma AcceptedIsJustified(c: NetworkConfig, faulty: set<NodeId>, g: Network, e: nat, acks: seq<Ack>, msg: NewEpoch,
                            order: seq<Checkpoint>)
    requires FaultBound(c, faulty) && TruthfulAcks(c, faulty, g, e, acks)
    requires Resolved(c, SeenAfter(c, acks), msg.references).Some?
    requires IsOrder(c, Resolved(c, SeenAfter(c, acks), msg.references).value, order)
    requires Accepts(c, SeenAfter(c, acks), msg, order)
    ensures msg.config.config.number == e && Justified(c, faulty, g, msg.config)
  {
    hide SeenAfter;
    hide Resolved;
    hide TruthfulAcks;
    hide IsOrder;
    var ec := Resolved(c, SeenAfter(c, acks), msg.references).value;
    ResolvedIsGenuine(c, faulty, g, e, acks, msg.references);
    ScanFindsGreatest(c, ec, order);
    assert Eligible(c, ec, msg.config.startingCheckpoint);
    var n := EligibleHasCorrectSupport(c, ec, faulty, msg.config.startingCheckpoint);
    var i :| 0 <= i < |c.nodes| && c.nodes[i] == n;
    assert n in c.nodes && n in ec;
    SameNumber(c.nodes, ec, e);
    assert JustifiedBy(c, faulty, g, msg.config, ec, msg.config.config.leaders, order);
  }
}
