/** Epoch changes in a network with at most f faulty nodes: what one quorum prepared, every later
    epoch carries over. */
module EpochChain {
  import opened Types
  import opened Quorums
  import opened Intervals
  import opened EpochChanges
  import opened NewEpochConfigs
  import opened WriteAheadLog
  import opened ReplicaVotes

  /** The correct replicas; faulty nodes may have sent anything and have no state. */
  type Network = map<NodeId, Replica>

  /** The epoch changes in `ec` that come from correct nodes are the ones these nodes sent. */
  ghost predicate Genuine(c: NetworkConfig, faulty: set<NodeId>, g: Network, ec: Changes, e: nat) {
    && ec.Keys <= NodeSet(c)
    && (forall i :: i in ec ==> DistinctCheckpoints(ec[i].underlying.checkpoints))
    && (forall i :: i in ec && i !in faulty ==>
                      && i in g && e in g[i].changes && g[i].changes[e].checkpoints != []
                      && ec[i] == Parsed(g[i].changes[e]))
  }

  ghost predicate JustifiedBy(c: NetworkConfig, faulty: set<NodeId>, g: Network, k: NewEpochConfig,
                              ec: Changes, leaders: seq<NodeId>, order: seq<Checkpoint>)
  {
    && Genuine(c, faulty, g, ec, k.config.number) && IsOrder(c, ec, order)
    && OutcomeInOrder(c, leaders, ec, order) == Chosen(k)
  }

  /** Verification accepts `k`: it is what the construction yields from epoch changes of its epoch. */
  ghost predicate Justified(c: NetworkConfig, faulty: set<NodeId>, g: Network, k: NewEpochConfig) {
    exists ec: Changes, leaders: seq<NodeId>, order: seq<Checkpoint> :: JustifiedBy(c, faulty, g, k, ec, leaders, order)
  }

  function LeaderOf(c: NetworkConfig, e: nat): NodeId {
    if c.nodes == [] then 0 else e % |c.nodes|
  }

  /** A NewEpoch message counts only from the leader of its epoch, and a correct leader offers one. */
  ghost predicate FromLeader(c: NetworkConfig, faulty: set<NodeId>, g: Network, k: NewEpochConfig) {
    var l := LeaderOf(c, k.config.number);
    l in NodeSet(c) && (l in faulty || (l in g && k in g[l].led))
  }

  /** Replica `r` has to wait before it can echo `k`: for the checkpoint that it starts from, or for the
      batch of a digest that the replica has neither preprepared nor checkpointed. */
  ghost predicate MayWait(r: Replica, k: NewEpochConfig) {
    || k.startingCheckpoint.seqNo > r.lastCheckpoint
    || exists s: nat, d :: Carries(k, s, d) && s > r.lastCheckpoint && d != NullDigest
                           && forall v :: v in r.preprepares ==> v.digest != d
  }

  /** While a replica waits with a configuration it has verified, a faulty leader may send another one,
      which the replica then echoes unverified. */
  ghost predicate Replaceable(c: NetworkConfig, faulty: set<NodeId>, g: Network, i: NodeId, k: NewEpochConfig) {
    && i in g && LeaderOf(c, k.config.number) in faulty
    && exists k0: NewEpochConfig ::
         k0.config.number == k.config.number && Justified(c, faulty, g, k0) && MayWait(g[i], k0)
  }

  /** What a correct leader offers: all nodes as leaders, or itself. */
  ghost predicate Offer(c: NetworkConfig, faulty: set<NodeId>, g: Network, i: NodeId, k: NewEpochConfig) {
    && LeaderOf(c, k.config.number) == i && Justified(c, faulty, g, k)
    && (k.config.leaders == c.nodes || k.config.leaders == [i])
  }

  ghost predicate EchoedByQuorum(c: NetworkConfig, faulty: set<NodeId>, g: Network, k: NewEpochConfig, q: set<NodeId>) {
    IsQuorum(c, q) && forall i :: i in q && i !in faulty ==> i in g && k in g[i].echoes
  }

  /** The correct members of `q` have sent ready for `k`. */
  ghost predicate ReadiedBy(c: NetworkConfig, faulty: set<NodeId>, g: Network, k: NewEpochConfig, q: set<NodeId>) {
    q <= NodeSet(c) && forall i :: i in q && i !in faulty ==> i in g && k in g[i].readies
  }

  ghost predicate Starts(c: NetworkConfig, faulty: set<NodeId>, g: Network, value: nat, config: EpochConfig) {
    && FaultBound(c, faulty)
    && g.Keys == NodeSet(c) - faulty
    && forall i :: i in g ==> g[i] == Initial(value, config)
  }

  /** What others must have said: a node echoes only what the leader sent, and what it accepted unless
      that was replaced since; it readies a configuration with P entries on a quorum of echoes and without
      them on f+1 readies, and delivers one on a quorum of readies. */
  ghost predicate Allowed(c: NetworkConfig, faulty: set<NodeId>, g: Network, i: NodeId, step: Step) {
    && (step.Lead? ==> Offer(c, faulty, g, i, step.offered))
    && (step.Echo? ==>
          && FromLeader(c, faulty, g, step.config)
          && (Justified(c, faulty, g, step.config) || Replaceable(c, faulty, g, i, step.config)))
    && (step.ReadyByEchoes? ==> exists q :: EchoedByQuorum(c, faulty, g, step.readied, q))
    && (step.ReadyByReadies? ==> exists q :: |q| >= SomeCorrectQuorum(c) && ReadiedBy(c, faulty, g, step.readied, q))
    && (step.Deliver? ==> exists q :: IsQuorum(c, q) && ReadiedBy(c, faulty, g, step.network, q))
  }

  /** Correct node `i` takes a step. */
  ghost predicate Next(c: NetworkConfig, faulty: set<NodeId>, g: Network, g': Network, i: NodeId, step: Step) {
    && i in g && g'.Keys == g.Keys && g' == g[i := g'[i]]
    && Takes(c, g[i], g'[i], step) && Allowed(c, faulty, g, i, step)
  }

  // ---------------------------------------------------------------- the invariant of the network

  ghost predicate Backed(g: Network, v: Vote) {
    exists j :: j in g && v in g[j].preprepares
  }

  ghost predicate EchoBacked(c: NetworkConfig, faulty: set<NodeId>, g: Network, k: NewEpochConfig) {
    exists q :: EchoedByQuorum(c, faulty, g, k, q)
  }

  ghost predicate ReadiedSomewhere(g: Network, k: NewEpochConfig) {
    exists j :: j in g && k in g[j].readies
  }

  ghost predicate Inv(c: NetworkConfig, faulty: set<NodeId>, g: Network) {
    && FaultBound(c, faulty)
    && g.Keys == NodeSet(c) - faulty
    && (forall i :: i in g ==> ReplicaInv(c, g[i]))
    && (forall i, k :: i in g && k in g[i].led ==> Offer(c, faulty, g, i, k))
    && (forall i, k :: i in g && k in g[i].echoes ==> FromLeader(c, faulty, g, k))
    && (forall i, v :: i in g && v in g[i].prepares ==> Backed(g, v))
    && (forall i, k :: i in g && k in g[i].readies ==> EchoBacked(c, faulty, g, k))
    && (forall i, k :: i in g && k in g[i].adopted ==> ReadiedSomewhere(g, k))
  }

  lemma NodeInv(c: NetworkConfig, faulty: set<NodeId>, g: Network, i: NodeId)
    requires Inv(c, faulty, g) && i in g
    ensures VotesInOrder(g[i]) && VotesJustified(g[i]) && ChangesFaithful(c, g[i])
    ensures PreparesJustified(g[i]) && DeliveredJustified(g[i]) && CheckpointsInv(g[i])
    ensures OffersInv(g[i]) && ReportsInv(g[i])
  {
    hide LogInv;
    hide Voted;
    hide PLogged;
    hide VotesInOrder;
    hide VotesJustified;
    hide ChangesFaithful;
    hide PreparesJustified;
    hide DeliveredJustified;
    hide CheckpointsInv;
    hide TailInv;
    hide OffersInv;
    hide ReportsInv;
    hide Offer;
    hide FromLeader;
    hide Backed;
    hide EchoBacked;
    assert ReplicaInv(c, g[i]);
  }

  /** What a replica has said once stays said. */
  ghost predicate Grows(r: Replica, r': Replica) {
    && r.echoes <= r'.echoes && r.readies <= r'.readies && r.anchors <= r'.anchors
    && r.preprepares <= r'.preprepares && r.prepares <= r'.prepares && r.delivered <= r'.delivered
    && r.led <= r'.led && r.adopted <= r'.adopted
    && (forall e :: e in r.changes ==> e in r'.changes && r'.changes[e] == r.changes[e])
  }

  lemma StepGrows(c: NetworkConfig, r: Replica, r': Replica, step: Step)
    requires ReplicaInv(c, r) && Takes(c, r, r', step)
    ensures Grows(r, r')
  {
    hide LogInv;
    hide Voted;
    hide PLogged;
    hide VotesInOrder;
    hide VotesJustified;
    hide WellFormed;
  }

  ghost predicate NetworkGrows(g: Network, g': Network) {
    g.Keys == g'.Keys && forall i :: i in g ==> Grows(g[i], g'[i])
  }

  lemma StillJustified(c: NetworkConfig, faulty: set<NodeId>, g: Network, g': Network, k: NewEpochConfig)
    requires NetworkGrows(g, g') && Justified(c, faulty, g, k)
    ensures Justified(c, faulty, g', k)
  {
    var ec: Changes, leaders: seq<NodeId>, order: seq<Checkpoint> :| JustifiedBy(c, faulty, g, k, ec, leaders, order);
    assert JustifiedBy(c, faulty, g', k, ec, leaders, order);
  }

  lemma StillBacked(g: Network, g': Network, v: Vote)
    requires NetworkGrows(g, g') && Backed(g, v)
    ensures Backed(g', v)
  {
    var j :| j in g && v in g[j].preprepares;
    assert v in g'[j].preprepares;
  }

  lemma StillEchoBacked(c: NetworkConfig, faulty: set<NodeId>, g: Network, g': Network, k: NewEpochConfig)
    requires NetworkGrows(g, g') && EchoBacked(c, faulty, g, k)
    ensures EchoBacked(c, faulty, g', k)
  {
    var q :| EchoedByQuorum(c, faulty, g, k, q);
    assert EchoedByQuorum(c, faulty, g', k, q);
  }

  lemma StillOffered(c: NetworkConfig, faulty: set<NodeId>, g: Network, g': Network, i: NodeId, k: NewEpochConfig)
    requires NetworkGrows(g, g') && Offer(c, faulty, g, i, k)
    ensures Offer(c, faulty, g', i, k)
  {
    hide Justified;
    StillJustified(c, faulty, g, g', k);
  }

  lemma StillFromLeader(c: NetworkConfig, faulty: set<NodeId>, g: Network, g': Network, k: NewEpochConfig)
    requires NetworkGrows(g, g') && FromLeader(c, faulty, g, k)
    ensures FromLeader(c, faulty, g', k)
  {
    var l := LeaderOf(c, k.config.number);
    assert l in g ==> Grows(g[l], g'[l]);
  }

  lemma StillReadied(g: Network, g': Network, k: NewEpochConfig)
    requires NetworkGrows(g, g') && ReadiedSomewhere(g, k)
    ensures ReadiedSomewhere(g', k)
  {
    var j :| j in g && k in g[j].readies;
    assert k in g'[j].readies;
  }

  lemma NewReady(c: NetworkConfig, faulty: set<NodeId>, g: Network, g': Network, i: NodeId, step: Step, k: NewEpochConfig)
    requires Inv(c, faulty, g) && Next(c, faulty, g, g', i, step) && k in g'[i].readies && k !in g[i].readies
    ensures EchoBacked(c, faulty, g, k)
  {
    hide ReplicaInv;
    hide Justified;
    if step.ReadyByReadies? {
      var q :| |q| >= SomeCorrectQuorum(c) && ReadiedBy(c, faulty, g, k, q);
      var j := SomeCorrect(c, faulty, q);
      assert k in g[j].readies;
    }
  }

  /** A vote prepared by a step was preprepared by some correct node. */
  lemma NewVoteBacked(c: NetworkConfig, faulty: set<NodeId>, g: Network, g': Network, i: NodeId, step: Step, v: Vote)
    requires Inv(c, faulty, g) && Next(c, faulty, g, g', i, step)
    requires v in g'[i].prepares && v !in g[i].prepares
    ensures Backed(g, v)
  {
    hide ReplicaInv;
    hide Justified;
    hide Backed;
    hide EchoBacked;
    hide CarriedVotes;
    if step.ReadyByEchoes? {
      var k := step.readied;
      var q :| EchoedByQuorum(c, faulty, g, k, q);
      var j := SharedCorrect(c, faulty, q, q);
      NodeInv(c, faulty, g, j);
      assert v in CarriedVotes(k, |k.finalPreprepares|);
      BackedBy(g, j, v);
    } else {
      BackedBy(g, i, v);
    }
  }

  lemma BackedBy(g: Network, j: NodeId, v: Vote)
    requires j in g && v in g[j].preprepares
    ensures Backed(g, v)
  {
  }

  lemma NextKeepsInv(c: NetworkConfig, faulty: set<NodeId>, g: Network, g': Network, i: NodeId, step: Step)
    requires Inv(c, faulty, g) && Next(c, faulty, g, g', i, step)
    ensures Inv(c, faulty, g')
  {
    hide ReplicaInv;
    hide Takes;
    hide Offer;
    hide FromLeader;
    hide Justified;
    hide Backed;
    hide EchoBacked;
    hide ReadiedSomewhere;
    StepKeepsInv(c, g[i], g'[i], step);
    StepGrows(c, g[i], g'[i], step);
    assert NetworkGrows(g, g');
    NextKeepsOffers(c, faulty, g, g', i, step);
    forall j, v | j in g' && v in g'[j].prepares ensures Backed(g', v) {
      if v !in g[j].prepares {
        NewVoteBacked(c, faulty, g, g', i, step, v);
      }
      StillBacked(g, g', v);
    }
    forall j, k | j in g' && k in g'[j].readies ensures EchoBacked(c, faulty, g', k) {
      if k !in g[j].readies {
        NewReady(c, faulty, g, g', i, step, k);
      }
      StillEchoBacked(c, faulty, g, g', k);
    }
    forall j, k | j in g' && k in g'[j].adopted ensures ReadiedSomewhere(g', k) {
      if k !in g[j].adopted {
        NewDelivery(c, faulty, g, g', i, step, k);
      }
      StillReadied(g, g', k);
    }
  }

  lemma NextKeepsOffers(c: NetworkConfig, faulty: set<NodeId>, g: Network, g': Network, i: NodeId, step: Step)
    requires Inv(c, faulty, g) && Next(c, faulty, g, g', i, step) && NetworkGrows(g, g')
    ensures forall j, k :: j in g' && k in g'[j].led ==> Offer(c, faulty, g', j, k)
    ensures forall j, k :: j in g' && k in g'[j].echoes ==> FromLeader(c, faulty, g', k)
  {
    hide ReplicaInv;
    hide Takes;
    hide Offer;
    hide FromLeader;
    hide Replaceable;
    hide Justified;
    hide Backed;
    hide EchoBacked;
    hide ReadiedSomewhere;
    hide NetworkGrows;
    forall j, k | j in g' && k in g'[j].led ensures Offer(c, faulty, g', j, k) {
      if k !in g[j].led {
        NewEcho(c, g[i], g'[i], step, k);
      }
      StillOffered(c, faulty, g, g', j, k);
    }
    forall j, k | j in g' && k in g'[j].echoes ensures FromLeader(c, faulty, g', k) {
      if k !in g[j].echoes {
        NewEcho(c, g[i], g'[i], step, k);
      }
      StillFromLeader(c, faulty, g, g', k);
    }
  }

  lemma NewDelivery(c: NetworkConfig, faulty: set<NodeId>, g: Network, g': Network, i: NodeId, step: Step, k: NewEpochConfig)
    requires Inv(c, faulty, g) && Next(c, faulty, g, g', i, step) && k in g'[i].adopted && k !in g[i].adopted
    ensures ReadiedSomewhere(g, k)
  {
    hide ReplicaInv;
    hide Offer;
    hide FromLeader;
    hide Justified;
    hide Backed;
    hide EchoBacked;
    NewEcho(c, g[i], g'[i], step, k);
    hide Takes;
    var q :| IsQuorum(c, q) && ReadiedBy(c, faulty, g, k, q);
    var j := SharedCorrect(c, faulty, q, q);
    assert k in g[j].readies;
  }

  lemma NewEcho(c: NetworkConfig, r: Replica, r': Replica, step: Step, k: NewEpochConfig)
    requires Takes(c, r, r', step)
    ensures k in r'.echoes && k !in r.echoes ==> step.Echo? && step.config == k
    ensures k in r'.led && k !in r.led ==> step.Lead? && step.offered == k
    ensures k in r'.adopted && k !in r.adopted ==> step.Deliver? && step.network == k
  {
  }

  lemma InitInv(c: NetworkConfig, faulty: set<NodeId>, g: Network, value: nat, config: EpochConfig)
    requires Starts(c, faulty, g, value, config)
    ensures Inv(c, faulty, g)
  {
    forall i | i in g ensures ReplicaInv(c, g[i]) {
      InitialInv(c, value, config);
    }
  }

  // ---------------------------------------------------------------- accepted configurations

  /** An accepted configuration starts at a multiple of the interval and describes a whole window or
      nothing, so the corresponding conditions on echoing exclude nothing. */
  lemma AcceptedShape(c: NetworkConfig, faulty: set<NodeId>, g: Network, k: NewEpochConfig)
    requires Inv(c, faulty, g) && Justified(c, faulty, g, k)
    ensures Aligned(k.startingCheckpoint.seqNo, c.checkpointInterval)
    ensures |k.finalPreprepares| == 0 || |k.finalPreprepares| == Window(c)
  {
    hide ReplicaInv;
    hide Parseable;
    hide Aligned;
    var ec: Changes, leaders: seq<NodeId>, order: seq<Checkpoint> :| JustifiedBy(c, faulty, g, k, ec, leaders, order);
    ScanFindsGreatest(c, ec, order);
    var n := EligibleHasCorrectSupport(c, ec, faulty, k.startingCheckpoint);
    NodeInv(c, faulty, g, n);
    assert Faithful(c.checkpointInterval, g[n].prepares, g[n].preprepares, k.config.number, g[n].changes[k.config.number]);
  }

  // ---------------------------------------------------------------- safety

  /** The correct members of quorum `q` prepared `d` at `s` in epoch `e`. */
  ghost predicate PreparedQuorum(c: NetworkConfig, faulty: set<NodeId>, g: Network, q: set<NodeId>, e: nat, s: nat,
                                 d: Digest)
  {
    IsQuorum(c, q) && forall i :: i in q && i !in faulty ==> i in g && Vote(e, s, d) in g[i].prepares
  }

  /** No configuration echoed in an epoch strictly between ends its window below `s`. */
  ghost predicate NoneEndsBelow(c: NetworkConfig, g: Network, e: nat, e1: nat, s: nat) {
    forall i, k :: i in g && k in g[i].echoes && e < k.config.number < e1 ==> s <= k.startingCheckpoint.seqNo + Window(c)
  }

  /** Every configuration echoed in an epoch strictly between passed verification. */
  ghost predicate Verified(c: NetworkConfig, faulty: set<NodeId>, g: Network, e: nat, e1: nat) {
    forall i, k :: i in g && k in g[i].echoes && e < k.config.number < e1 ==> Justified(c, faulty, g, k)
  }

  /** A step keeps the echoes verified exactly if it is not the echo of a configuration that replaced
      the verified one. */
  lemma NextVerifiedIff(c: NetworkConfig, faulty: set<NodeId>, g: Network, g': Network, i: NodeId, step: Step, e: nat,
                        e1: nat)
    requires Inv(c, faulty, g) && Next(c, faulty, g, g', i, step) && Verified(c, faulty, g, e, e1)
    ensures Verified(c, faulty, g', e, e1) <==>
            !(step.Echo? && e < step.config.config.number < e1 && !Justified(c, faulty, g', step.config))
    ensures step.Echo? && !Justified(c, faulty, g', step.config) ==> Replaceable(c, faulty, g, i, step.config)
  {
    hide ReplicaInv;
    hide Takes;
    hide Justified;
    StepGrows(c, g[i], g'[i], step);
    assert NetworkGrows(g, g');
    forall j, k | j in g' && k in g'[j].echoes && k in g[j].echoes && Justified(c, faulty, g, k)
      ensures Justified(c, faulty, g', k)
    {
      StillJustified(c, faulty, g, g', k);
    }
    forall j, k | j in g' && k in g'[j].echoes && k !in g[j].echoes ensures step.Echo? && step.config == k {
      NewEcho(c, g[i], g'[i], step, k);
    }
    if step.Echo? {
      assert step.config in g'[i].echoes by {
        EchoIsSaid(c, g[i], g'[i], step);
      }
      if Justified(c, faulty, g, step.config) {
        StillJustified(c, faulty, g, g', step.config);
      }
    }
  }

  lemma EchoIsSaid(c: NetworkConfig, r: Replica, r': Replica, step: Step)
    requires Takes(c, r, r', step) && step.Echo?
    ensures step.config in r'.echoes
  {
  }

  /** An epoch with a correct leader has one configuration, and that passed verification. */
  lemma CorrectlyLed(c: NetworkConfig, faulty: set<NodeId>, g: Network, i: NodeId, j: NodeId, k: NewEpochConfig,
                     k': NewEpochConfig)
    requires Inv(c, faulty, g) && i in g && j in g && k in g[i].echoes && k' in g[j].echoes
    requires k.config.number == k'.config.number && LeaderOf(c, k.config.number) !in faulty
    ensures k == k' && Justified(c, faulty, g, k)
  {
    hide ReplicaInv;
    hide Justified;
    hide Backed;
    hide EchoBacked;
    var l := LeaderOf(c, k.config.number);
    assert FromLeader(c, faulty, g, k) && FromLeader(c, faulty, g, k');
    NodeInv(c, faulty, g, l);
    assert Offer(c, faulty, g, l, k);
  }

  // ---------------------------------------------------------------- which digests are locked

  /** The P entries of `r` for `s` up to epoch `e` do not keep condition A1 from counting it for an
      entry with digest `d1` of epoch `e1`. */
  ghost predicate Yields(r: Replica, e: nat, s: nat, e1: nat, d1: Digest) {
    forall v :: v in r.prepares && v.seqNo == s && v.epoch <= e ==> v.epoch < e1 || (v.epoch == e1 && v.digest == d1)
  }

  ghost function Yielding(g: Network, e: nat, s: nat, e1: nat, d1: Digest): set<NodeId> {
    set i | i in g && Yields(g[i], e, s, e1, d1)
  }

  /** It has no P entry for `s` up to epoch `e`. */
  ghost predicate Idle(r: Replica, e: nat, s: nat) {
    forall v :: v in r.prepares && v.seqNo == s ==> v.epoch > e
  }

  ghost function Idling(g: Network, e: nat, s: nat): set<NodeId> {
    set i | i in g && Idle(g[i], e, s)
  }

  /** A correct node has a Q entry for `d1` at `s` of an epoch from `e1` to `e`. */
  ghost predicate Supported(g: Network, e: nat, s: nat, e1: nat, d1: Digest) {
    exists i, v :: i in g && v in g[i].preprepares && v.seqNo == s && v.digest == d1 && e1 <= v.epoch <= e
  }

  ghost predicate Rival(c: NetworkConfig, faulty: set<NodeId>, g: Network, e: nat, s: nat, e1: nat, d1: Digest) {
    IsQuorum(c, Yielding(g, e, s, e1, d1) + faulty) && Supported(g, e, s, e1, d1)
  }

  /** After epoch `e`, no set of epoch changes lets anything but `d` be carried over at `s`. */
  ghost predicate Locked(c: NetworkConfig, faulty: set<NodeId>, g: Network, e: nat, s: nat, d: Digest) {
    && !IsQuorum(c, Idling(g, e, s) + faulty)
    && forall e1, d1 :: Rival(c, faulty, g, e, s, e1, d1) ==> d1 == d
  }

  /** Later Q entries of correct nodes at `s` are for `d`. */
  ghost predicate LaterVotes(g: Network, e: nat, e1: nat, s: nat, d: Digest) {
    forall i, v :: i in g && v in g[i].preprepares && v.seqNo == s && e < v.epoch < e1 ==> v.digest == d
  }

  /** What the report of a correct node says about its P entries. */
  lemma ReportedAt(c: NetworkConfig, faulty: set<NodeId>, g: Network, ec: Changes, e: nat, e1: nat, s: nat, i: NodeId)
    requires Inv(c, faulty, g) && Genuine(c, faulty, g, ec, e1) && e < e1 && i in ec && i !in faulty
    requires ec[i].lowWatermark < s
    ensures s !in ec[i].pSet ==> Idle(g[i], e, s)
    ensures s in ec[i].pSet ==> forall e2, d2 :: A1Vote(ec[i], s, SetEntry(e2, s, d2)) ==> Yields(g[i], e, s, e2, d2)
  {
    hide ReplicaInv;
    hide Offer;
    hide FromLeader;
    hide Backed;
    hide EchoBacked;
    hide Lowest;
    hide QIndex;
    hide PIndex;
    hide Aligned;
    hide PreparesJustified;
    hide VotesJustified;
    hide VotesInOrder;
    hide DeliveredJustified;
    hide OffersInv;
    hide ReportsInv;
    var m := g[i].changes[e1];
    NodeInv(c, faulty, g, i);
    assert Faithful(c.checkpointInterval, g[i].prepares, g[i].preprepares, e1, m);
    forall v | v in g[i].prepares && v.seqNo == s && v.epoch <= e
      ensures s in ec[i].pSet && Supersedes(Vote(ec[i].pSet[s].epoch, s, ec[i].pSet[s].digest), v)
    {
      var x :| x in m.pSet && Supersedes(Vote(x.epoch, x.seqNo, x.digest), v);
      PIndexContent(m.pSet, s, x.epoch, x.digest);
    }
  }

  lemma A1Yields(c: NetworkConfig, faulty: set<NodeId>, g: Network, ec: Changes, e: nat, e1: nat, s: nat, entry: SetEntry)
    requires Inv(c, faulty, g) && Genuine(c, faulty, g, ec, e1) && e < e1 && entry.seqNo == s
    requires |A1Votes(ec, s, entry)| >= IntersectionQuorum(c)
    ensures IsQuorum(c, Yielding(g, e, s, entry.epoch, entry.digest) + faulty)
  {
    hide ReplicaInv;
    hide Offer;
    hide FromLeader;
    hide Backed;
    hide EchoBacked;
    hide Yields;
    hide Idle;
    hide A1Vote;
    var all := Yielding(g, e, s, entry.epoch, entry.digest) + faulty;
    forall i | i in A1Votes(ec, s, entry) ensures i in all {
      if i !in faulty {
        A1VoterYields(c, faulty, g, ec, e, e1, s, entry, i);
      }
    }
    SubsetSize(A1Votes(ec, s, entry), all);
  }

  lemma A1VoterYields(c: NetworkConfig, faulty: set<NodeId>, g: Network, ec: Changes, e: nat, e1: nat, s: nat,
                      entry: SetEntry, i: NodeId)
    requires Inv(c, faulty, g) && Genuine(c, faulty, g, ec, e1) && e < e1 && entry.seqNo == s
    requires i in ec && i !in faulty && A1Vote(ec[i], s, entry)
    ensures i in g && Yields(g[i], e, s, entry.epoch, entry.digest)
  {
    hide Inv;
    ReportedAt(c, faulty, g, ec, e, e1, s, i);
    assert entry == SetEntry(entry.epoch, s, entry.digest);
  }

  lemma BIdles(c: NetworkConfig, faulty: set<NodeId>, g: Network, ec: Changes, e: nat, e1: nat, s: nat)
    requires Inv(c, faulty, g) && Genuine(c, faulty, g, ec, e1) && e < e1
    requires |BVotes(ec, s)| >= IntersectionQuorum(c)
    ensures IsQuorum(c, Idling(g, e, s) + faulty)
  {
    hide ReplicaInv;
    hide Offer;
    hide FromLeader;
    hide Backed;
    hide EchoBacked;
    hide Yields;
    hide Idle;
    hide A1Vote;
    var all := Idling(g, e, s) + faulty;
    forall i | i in BVotes(ec, s) ensures i in all {
      if i !in faulty {
        ReportedAt(c, faulty, g, ec, e, e1, s, i);
      }
    }
    SubsetSize(BVotes(ec, s), all);
  }

  lemma A2Supported(c: NetworkConfig, faulty: set<NodeId>, g: Network, ec: Changes, e1: nat, s: nat, entry: SetEntry)
    requires Inv(c, faulty, g) && Genuine(c, faulty, g, ec, e1)
    requires |A2Votes(ec, s, entry)| >= SomeCorrectQuorum(c)
    ensures exists i, v :: i in g && v in g[i].preprepares && v.seqNo == s && v.digest == entry.digest
                           && entry.epoch <= v.epoch < e1
  {
    hide ReplicaInv;
    hide Offer;
    hide FromLeader;
    hide Backed;
    hide EchoBacked;
    hide Lowest;
    hide QIndex;
    hide PIndex;
    hide Aligned;
    hide PreparesJustified;
    hide VotesJustified;
    hide VotesInOrder;
    hide DeliveredJustified;
    hide OffersInv;
    hide ReportsInv;
    var i := SomeCorrect(c, faulty, A2Votes(ec, s, entry));
    var views := Views(ec[i].qSet, s);
    var e2 :| e2 in views && e2 >= entry.epoch && views[e2] == entry.digest;
    var m := g[i].changes[e1];
    NodeInv(c, faulty, g, i);
    assert Faithful(c.checkpointInterval, g[i].prepares, g[i].preprepares, e1, m);
    QIndexContent(m.qSet, s, e2, entry.digest);
    assert SetEntry(e2, s, entry.digest) in m.qSet;
    assert Vote(e2, s, entry.digest) in g[i].preprepares;
  }

  /** A locked digest is all that the conditions for carrying over admit, from any epoch changes of any
      later epoch, as long as correct nodes have voted for nothing else since. */
  lemma LockedAdmits(c: NetworkConfig, faulty: set<NodeId>, g: Network, e: nat, s: nat, d: Digest, ec: Changes, e1: nat)
    requires Inv(c, faulty, g) && Locked(c, faulty, g, e, s, d) && Genuine(c, faulty, g, ec, e1) && e < e1
    requires LaterVotes(g, e, e1, s, d)
    ensures OnlyAdmits(c, ec, s, d)
  {
    hide Inv;
    hide Genuine;
    hide Yielding;
    hide Idling;
    if |BVotes(ec, s)| >= IntersectionQuorum(c) {
      BIdles(c, faulty, g, ec, e, e1, s);
    }
    forall i | i in ec && s in ec[i].pSet && Selects(c, ec, s, ec[i].pSet[s]) ensures ec[i].pSet[s].digest == d {
      var entry := ec[i].pSet[s].(seqNo := s);
      SlotIrrelevant(c, ec, s, ec[i].pSet[s]);
      A2Supported(c, faulty, g, ec, e1, s, entry);
      var j, v :| j in g && v in g[j].preprepares && v.seqNo == s && v.digest == entry.digest
                  && entry.epoch <= v.epoch < e1;
      if v.epoch <= e {
        A1Yields(c, faulty, g, ec, e, e1, s, entry);
        assert Supported(g, e, s, entry.epoch, entry.digest);
        assert Rival(c, faulty, g, e, s, entry.epoch, entry.digest);
      }
    }
  }

  lemma SlotIrrelevant(c: NetworkConfig, ec: Changes, s: nat, entry: SetEntry)
    requires Selects(c, ec, s, entry)
    ensures Selects(c, ec, s, entry.(seqNo := s))
  {
    var other := entry.(seqNo := s);
    assert A1Votes(ec, s, other) == A1Votes(ec, s, entry);
    assert A2Votes(ec, s, other) == A2Votes(ec, s, entry);
  }

  /** A locked digest is carried by every configuration that a correct node accepts in a later epoch and
      whose window covers `s`, as long as no configuration in between ended below `s` and all were
      verified. */
  lemma {:induction false} LockedCarries(c: NetworkConfig, faulty: set<NodeId>, g: Network, e: nat, s: nat, d: Digest,
                                         i: NodeId, k: NewEpochConfig)
    requires Inv(c, faulty, g) && Locked(c, faulty, g, e, s, d)
    requires i in g && k in g[i].echoes && k.config.number > e && Covers(c, k, s)
    requires NoneEndsBelow(c, g, e, k.config.number, s) && Verified(c, faulty, g, e, k.config.number + 1)
    ensures Carries(k, s, d) && |k.finalPreprepares| == Window(c)
    decreases k.config.number, 0
  {
    hide Inv;
    hide Locked;
    hide Genuine;
    hide IsOrder;
    hide OutcomeInOrder;
    hide OnlyAdmits;
    var e1 := k.config.number;
    assert Justified(c, faulty, g, k);
    var ec: Changes, leaders: seq<NodeId>, order: seq<Checkpoint> :| JustifiedBy(c, faulty, g, k, ec, leaders, order);
    forall j, v | j in g && v in g[j].preprepares && v.seqNo == s && e < v.epoch < e1 ensures v.digest == d {
      LockedVotes(c, faulty, g, e, s, d, j, v);
    }
    LockedAdmits(c, faulty, g, e, s, d, ec, e1);
    AdmittedCarried(c, leaders, ec, order, s, d);
  }

  /** Likewise every Q entry of a correct node for `s` in a later epoch is for `d`. */
  lemma {:induction false} LockedVotes(c: NetworkConfig, faulty: set<NodeId>, g: Network, e: nat, s: nat, d: Digest,
                                       i: NodeId, v: Vote)
    requires Inv(c, faulty, g) && Locked(c, faulty, g, e, s, d)
    requires i in g && v in g[i].preprepares && v.epoch > e && v.seqNo == s
    requires NoneEndsBelow(c, g, e, v.epoch + 1, s) && Verified(c, faulty, g, e, v.epoch + 1)
    ensures v.digest == d
    decreases v.epoch, 1
  {
    hide Inv;
    hide Locked;
    NodeInv(c, faulty, g, i);
    assert VoteJustified(g[i].echoes, v);
    var k :| k in g[i].echoes && k.config.number == v.epoch && (Carries(k, v.seqNo, v.digest) || v.seqNo > End(k));
    AcceptedShape(c, faulty, g, k);
    assert Covers(c, k, s);
    LockedCarries(c, faulty, g, e, s, d, i, k);
  }

  // ---------------------------------------------------------------- exactly when a digest is locked

  /** Every correct node has sent its epoch change for the next epoch, with `s` above its low watermark. */
  ghost predicate AllReport(g: Network, e1: nat, s: nat) {
    g.Keys != {} && forall i :: i in g ==> e1 in g[i].changes && g[i].changes[e1].checkpoints != []
                                           && Parsed(g[i].changes[e1]).lowWatermark < s
  }

  /** The epoch changes of the correct nodes in `some` and of faulty ones that all send `m`. */
  function Collected(g: Network, faulty: set<NodeId>, some: set<NodeId>, e1: nat, m: EpochChange): Changes
    requires m.checkpoints != [] && forall i :: i in some ==> i in g && e1 in g[i].changes && g[i].changes[e1].checkpoints != []
  {
    map i | i in some + faulty :: if i in some then Parsed(g[i].changes[e1]) else Parsed(m)
  }

  lemma CollectedGenuine(c: NetworkConfig, faulty: set<NodeId>, g: Network, some: set<NodeId>, e1: nat, s: nat, m: EpochChange)
    requires Inv(c, faulty, g) && AllReport(g, e1, s) && some <= g.Keys && |m.checkpoints| == 1
    ensures Genuine(c, faulty, g, Collected(g, faulty, some, e1, m), e1)
  {
    hide ReplicaInv;
    hide Offer;
    hide FromLeader;
    hide Backed;
    hide EchoBacked;
    hide ReadiedSomewhere;
    hide Lowest;
    hide QIndex;
    hide PIndex;
    var ec := Collected(g, faulty, some, e1, m);
    forall i | i in ec ensures DistinctCheckpoints(ec[i].underlying.checkpoints) {
      if i in some {
        NodeInv(c, faulty, g, i);
        assert Faithful(c.checkpointInterval, g[i].prepares, g[i].preprepares, e1, g[i].changes[e1]);
      }
    }
  }

  /** What a correct node reports of its P entries is one of them. */
  lemma ReportIsVote(c: NetworkConfig, faulty: set<NodeId>, g: Network, e: nat, s: nat, i: NodeId)
    requires Inv(c, faulty, g) && AllReport(g, e + 1, s) && i in g
    ensures
      var m := Parsed(g[i].changes[e + 1]);
      && (s in m.pSet ==> m.pSet[s].seqNo == s && m.pSet[s].epoch <= e
                          && Vote(m.pSet[s].epoch, s, m.pSet[s].digest) in g[i].prepares)
      && (forall v :: v in g[i].preprepares && v.seqNo == s && v.epoch <= e ==>
                        v.epoch in Views(m.qSet, s) && Views(m.qSet, s)[v.epoch] == v.digest)
  {
    hide ReplicaInv;
    hide Offer;
    hide FromLeader;
    hide Backed;
    hide EchoBacked;
    hide ReadiedSomewhere;
    hide Lowest;
    hide QIndex;
    hide PIndex;
    hide Aligned;
    hide PreparesJustified;
    hide VotesJustified;
    hide VotesInOrder;
    hide DeliveredJustified;
    hide OffersInv;
    hide QLogged;
    var m := g[i].changes[e + 1];
    NodeInv(c, faulty, g, i);
    assert Faithful(c.checkpointInterval, g[i].prepares, g[i].preprepares, e + 1, m);
    if s in PIndex(m.pSet) {
      var x := PIndex(m.pSet)[s];
      PIndexContent(m.pSet, s, x.epoch, x.digest);
    }
    assert Complete(g[i].preprepares, e + 1, m);
    forall v | v in g[i].preprepares && v.seqNo == s && v.epoch <= e
      ensures v.epoch in Views(QIndex(m.qSet), s) && Views(QIndex(m.qSet), s)[v.epoch] == v.digest
    {
      QIndexContent(m.qSet, s, v.epoch, v.digest);
    }
  }

  function Silence(e1: nat): EpochChange {
    EpochChange(e1, [Checkpoint(0, 0)], [], [])
  }

  lemma IdleReports(c: NetworkConfig, faulty: set<NodeId>, g: Network, e: nat, s: nat, i: NodeId)
    requires Inv(c, faulty, g) && AllReport(g, e + 1, s) && i in g && Idle(g[i], e, s)
    ensures BVote(Parsed(g[i].changes[e + 1]), s)
  {
    hide Inv;
    hide Parsed;
    ReportIsVote(c, faulty, g, e, s, i);
  }

  /** Without a P entry at enough nodes, their epoch changes carry nothing over. */
  lemma IdleAdmitsNothing(c: NetworkConfig, faulty: set<NodeId>, g: Network, e: nat, s: nat) returns (ec: Changes)
    requires Inv(c, faulty, g) && AllReport(g, e + 1, s) && IsQuorum(c, Idling(g, e, s) + faulty)
    ensures Genuine(c, faulty, g, ec, e + 1) && CarryAt(c, ec, s) == Nothing
  {
    hide Inv;
    hide FirstSelected;
    hide Genuine;
    hide Idle;
    var some, silent := Idling(g, e, s), Silence(e + 1);
    ec := Collected(g, faulty, some, e + 1, silent);
    CollectedGenuine(c, faulty, g, some, e + 1, s, silent);
    assert Parsed(silent).pSet == map[] && Parsed(silent).lowWatermark == 0;
    var n :| n in g;
    assert s > 0;
    hide Parsed;
    forall i | i in ec ensures BVote(ec[i], s) {
      if i in some {
        IdleReports(c, faulty, g, e, s, i);
      }
    }
    assert ec.Keys == some + faulty;
    assert BVotes(ec, s) == ec.Keys;
    NoneSelected(c, c.nodes, ec, s);
  }

  lemma YieldReports(c: NetworkConfig, faulty: set<NodeId>, g: Network, e: nat, s: nat, i: NodeId, entry: SetEntry)
    requires Inv(c, faulty, g) && AllReport(g, e + 1, s) && i in g && Yields(g[i], e, s, entry.epoch, entry.digest)
    ensures A1Vote(Parsed(g[i].changes[e + 1]), s, entry)
  {
    hide Inv;
    hide Parsed;
    ReportIsVote(c, faulty, g, e, s, i);
  }

  lemma VoterReports(c: NetworkConfig, faulty: set<NodeId>, g: Network, e: nat, s: nat, i: NodeId, v: Vote, entry: SetEntry)
    requires Inv(c, faulty, g) && AllReport(g, e + 1, s) && i in g && v in g[i].preprepares && v.seqNo == s
    requires entry.epoch <= v.epoch <= e && v.digest == entry.digest
    ensures A2Vote(Parsed(g[i].changes[e + 1]), s, entry)
  {
    hide Inv;
    hide Parsed;
    ReportIsVote(c, faulty, g, e, s, i);
    assert Vouches(Views(Parsed(g[i].changes[e + 1]).qSet, s), entry);
  }

  function Claim(e1: nat, entry: SetEntry): EpochChange {
    EpochChange(e1, [Checkpoint(0, 0)], [entry], [entry])
  }

  lemma RivalCounted(c: NetworkConfig, faulty: set<NodeId>, g: Network, e: nat, s: nat, entry: SetEntry, p: ParsedEpochChange,
                     ec: Changes)
    requires Inv(c, faulty, g) && AllReport(g, e + 1, s) && A1Vote(p, s, entry)
    requires ec.Keys == g.Keys + faulty && g.Keys !! faulty
    requires forall i :: i in ec ==> ec[i] == if i in g then Parsed(g[i].changes[e + 1]) else p
    requires IsQuorum(c, Yielding(g, e, s, entry.epoch, entry.digest) + faulty)
    ensures |A1Votes(ec, s, entry)| >= IntersectionQuorum(c)
  {
    hide Inv;
    hide Parsed;
    hide Yields;
    hide A1Vote;
    var yielding := Yielding(g, e, s, entry.epoch, entry.digest);
    forall n | n in yielding + faulty ensures n in A1Votes(ec, s, entry) {
      if n in yielding {
        YieldReports(c, faulty, g, e, s, n, entry);
      }
    }
    SubsetSize(yielding + faulty, A1Votes(ec, s, entry));
  }

  lemma RivalVouched(c: NetworkConfig, faulty: set<NodeId>, g: Network, e: nat, s: nat, entry: SetEntry, p: ParsedEpochChange,
                     ec: Changes)
    requires Inv(c, faulty, g) && AllReport(g, e + 1, s) && |faulty| == c.f && A2Vote(p, s, entry)
    requires ec.Keys == g.Keys + faulty && g.Keys !! faulty
    requires forall i :: i in ec ==> ec[i] == if i in g then Parsed(g[i].changes[e + 1]) else p
    requires Supported(g, e, s, entry.epoch, entry.digest)
    ensures |A2Votes(ec, s, entry)| >= SomeCorrectQuorum(c)
  {
    hide Inv;
    hide Parsed;
    hide A2Vote;
    var j, v :| j in g && v in g[j].preprepares && v.seqNo == s && v.digest == entry.digest && entry.epoch <= v.epoch <= e;
    VoterReports(c, faulty, g, e, s, j, v, entry);
    hide AllReport;
    assert faulty + {j} <= A2Votes(ec, s, entry);
    UnionSize(faulty, {j});
    SubsetSize(faulty + {j}, A2Votes(ec, s, entry));
  }

  /** A rival is admitted from the epoch changes of all nodes, the faulty ones claiming it. */
  lemma RivalAdmitted(c: NetworkConfig, faulty: set<NodeId>, g: Network, e: nat, s: nat, e1: nat, d1: Digest)
    returns (ec: Changes, i: NodeId)
    requires Inv(c, faulty, g) && AllReport(g, e + 1, s) && |faulty| == c.f > 0 && Rival(c, faulty, g, e, s, e1, d1)
    ensures Genuine(c, faulty, g, ec, e + 1) && i in ec && s in ec[i].pSet
    ensures ec[i].pSet[s] == SetEntry(e1, s, d1) && Selects(c, ec, s, SetEntry(e1, s, d1))
  {
    hide Inv;
    hide Genuine;
    hide Parsed;
    hide A2Vote;
    hide A1Votes;
    hide A2Votes;
    hide Yielding;
    hide Supported;
    hide Collected;
    hide AllReport;
    var entry := SetEntry(e1, s, d1);
    var claim := Claim(e + 1, entry);
    ec := CollectAll(c, faulty, g, e + 1, s, claim);
    ClaimParsed(claim, entry);
    FaultsBounded(c, faulty, g);
    RivalCounted(c, faulty, g, e, s, entry, Parsed(claim), ec);
    RivalVouched(c, faulty, g, e, s, entry, Parsed(claim), ec);
    i :| i in faulty;
  }

  lemma CollectAll(c: NetworkConfig, faulty: set<NodeId>, g: Network, e1: nat, s: nat, m: EpochChange)
    returns (ec: Changes)
    requires Inv(c, faulty, g) && AllReport(g, e1, s) && |m.checkpoints| == 1
    ensures Genuine(c, faulty, g, ec, e1) && ec.Keys == g.Keys + faulty && s > 0
    ensures forall i :: i in g ==> e1 in g[i].changes && g[i].changes[e1].checkpoints != []
    ensures forall i :: i in ec ==> ec[i] == if i in g then Parsed(g[i].changes[e1]) else Parsed(m)
  {
    hide Inv;
    hide Genuine;
    hide Parsed;
    ec := Collected(g, faulty, g.Keys, e1, m);
    CollectedGenuine(c, faulty, g, g.Keys, e1, s, m);
    var n :| n in g;
  }

  lemma FaultsBounded(c: NetworkConfig, faulty: set<NodeId>, g: Network)
    requires Inv(c, faulty, g)
    ensures FaultBound(c, faulty) && g.Keys == NodeSet(c) - faulty
  {
    hide ReplicaInv;
    hide Offer;
    hide FromLeader;
    hide Backed;
    hide EchoBacked;
  }

  lemma ClaimParsed(m: EpochChange, entry: SetEntry)
    requires m.checkpoints == [Checkpoint(0, 0)] && m.pSet == [entry] && m.qSet == [entry]
    ensures
      var p, s := Parsed(m), entry.seqNo;
      p.lowWatermark == 0 && s in p.pSet && p.pSet[s] == entry && A2Vote(p, s, entry)
  {
    assert Init(m.pSet) == [] && Init(m.qSet) == [];
    var views := Views(Parsed(m).qSet, entry.seqNo);
    assert entry.epoch in views && views[entry.epoch] == entry.digest;
  }

  /** Exactly when the next epoch can carry over nothing but `d` at `s`: a condition on the P and Q
      entries that correct nodes have written up to epoch `e`. */
  lemma LockedIff(c: NetworkConfig, faulty: set<NodeId>, g: Network, e: nat, s: nat, d: Digest)
    requires Inv(c, faulty, g) && AllReport(g, e + 1, s) && |faulty| == c.f > 0
    ensures Locked(c, faulty, g, e, s, d) <==>
            forall ec: Changes :: Genuine(c, faulty, g, ec, e + 1) ==> OnlyAdmits(c, ec, s, d)
  {
    hide Inv;
    hide AllReport;
    hide Genuine;
    hide Rival;
    hide Idling;
    hide FirstSelected;
    if Locked(c, faulty, g, e, s, d) {
      forall ec: Changes | Genuine(c, faulty, g, ec, e + 1) ensures OnlyAdmits(c, ec, s, d) {
        LockedAdmits(c, faulty, g, e, s, d, ec, e + 1);
      }
    } else if IsQuorum(c, Idling(g, e, s) + faulty) {
      var ec := IdleAdmitsNothing(c, faulty, g, e, s);
      assert !OnlyAdmits(c, ec, s, d);
    } else {
      var e1, d1 :| Rival(c, faulty, g, e, s, e1, d1) && d1 != d;
      var ec, i := RivalAdmitted(c, faulty, g, e, s, e1, d1);
      assert !OnlyAdmits(c, ec, s, d);
    }
  }

  // ---------------------------------------------------------------- prepared by a quorum

  lemma PreparedNotIdle(c: NetworkConfig, faulty: set<NodeId>, g: Network, q: set<NodeId>, e: nat, s: nat, d: Digest)
    requires FaultBound(c, faulty) && PreparedQuorum(c, faulty, g, q, e, s, d)
    ensures !IsQuorum(c, Idling(g, e, s) + faulty)
  {
    if IsQuorum(c, Idling(g, e, s) + faulty) {
      var i := SharedCorrect(c, faulty, q, Idling(g, e, s) + faulty);
      assert false;
    }
  }

  lemma PreparedHasNoRival(c: NetworkConfig, faulty: set<NodeId>, g: Network, q: set<NodeId>, e: nat, s: nat, d: Digest,
                           e1: nat, d1: Digest)
    requires FaultBound(c, faulty) && PreparedQuorum(c, faulty, g, q, e, s, d) && Rival(c, faulty, g, e, s, e1, d1)
    ensures d1 == d
  {
    var i := SharedCorrect(c, faulty, q, Yielding(g, e, s, e1, d1) + faulty);
    assert Vote(e, s, d) in g[i].prepares && i in Yielding(g, e, s, e1, d1);
  }

  /** What a quorum prepared is locked. */
  lemma PreparedLocked(c: NetworkConfig, faulty: set<NodeId>, g: Network, q: set<NodeId>, e: nat, s: nat, d: Digest)
    requires FaultBound(c, faulty) && PreparedQuorum(c, faulty, g, q, e, s, d)
    ensures Locked(c, faulty, g, e, s, d)
  {
    hide Rival;
    hide Idling;
    hide IsQuorum;
    hide PreparedQuorum;
    PreparedNotIdle(c, faulty, g, q, e, s, d);
    forall e1, d1 | Rival(c, faulty, g, e, s, e1, d1) ensures d1 == d {
      PreparedHasNoRival(c, faulty, g, q, e, s, d, e1, d1);
    }
  }

  /** If a quorum prepared `d` at `s` in epoch `e`, every configuration that a correct node accepts in
      a later epoch and whose window covers `s` carries `d` there, as long as no configuration in
      between ended below `s` and all were verified. */
  lemma CarriedForward(c: NetworkConfig, faulty: set<NodeId>, g: Network, q: set<NodeId>, e: nat, s: nat, d: Digest,
                       i: NodeId, k: NewEpochConfig)
    requires Inv(c, faulty, g) && PreparedQuorum(c, faulty, g, q, e, s, d)
    requires i in g && k in g[i].echoes && k.config.number > e && Covers(c, k, s)
    requires NoneEndsBelow(c, g, e, k.config.number, s) && Verified(c, faulty, g, e, k.config.number + 1)
    ensures Carries(k, s, d) && |k.finalPreprepares| == Window(c)
  {
    hide Inv;
    hide Locked;
    hide Justified;
    FaultsBounded(c, faulty, g);
    PreparedLocked(c, faulty, g, q, e, s, d);
    LockedCarries(c, faulty, g, e, s, d, i, k);
  }

  /** Agreement across epochs: two quorums that prepared a digest at `s` prepared the same one, as long
      as no configuration accepted after the first of the two epochs ended below `s` and all were
      verified. */
  lemma Agreement(c: NetworkConfig, faulty: set<NodeId>, g: Network, q: set<NodeId>, q1: set<NodeId>,
                  e: nat, e1: nat, s: nat, d: Digest, d1: Digest)
    requires Inv(c, faulty, g) && e <= e1
    requires PreparedQuorum(c, faulty, g, q, e, s, d) && PreparedQuorum(c, faulty, g, q1, e1, s, d1)
    requires NoneEndsBelow(c, g, e, e1 + 1, s) && Verified(c, faulty, g, e, e1 + 1)
    ensures d == d1
  {
    hide ReplicaInv;
    hide Offer;
    hide FromLeader;
    hide Justified;
    hide EchoBacked;
    hide Locked;
    var i := SharedCorrect(c, faulty, q, q1);
    NodeInv(c, faulty, g, i);
    if e < e1 {
      var v := Vote(e1, s, d1);
      assert Backed(g, v);
      var j :| j in g && v in g[j].preprepares;
      PreparedLocked(c, faulty, g, q, e, s, d);
      LockedVotes(c, faulty, g, e, s, d, j, v);
    } else {
      assert Vote(e, s, d) in g[i].prepares && Vote(e, s, d1) in g[i].prepares;
    }
  }

  /** The condition on the windows holds whenever the correct members of the quorum report low
      watermarks from which `s` is within one window. */
  lemma LowWatermarksSuffice(c: NetworkConfig, faulty: set<NodeId>, g: Network, q: set<NodeId>, e: nat, e1: nat, s: nat)
    requires Inv(c, faulty, g) && IsQuorum(c, q) && Verified(c, faulty, g, e, e1)
    requires forall i, e2 :: i in q && i in g && e2 in g[i].changes && e < e2 < e1 ==>
                               && g[i].changes[e2].checkpoints != []
                               && s <= Parsed(g[i].changes[e2]).lowWatermark + Window(c)
    ensures NoneEndsBelow(c, g, e, e1, s)
  {
    forall i, k | i in g && k in g[i].echoes && e < k.config.number < e1
      ensures s <= k.startingCheckpoint.seqNo + Window(c)
    {
      assert Justified(c, faulty, g, k);
      var ec: Changes, leaders: seq<NodeId>, order: seq<Checkpoint> :| JustifiedBy(c, faulty, g, k, ec, leaders, order);
      WindowReaches(c, leaders, ec, order, faulty, q, s);
    }
  }

  // ---------------------------------------------------------------- deliveries

  /** Correct nodes never send ready for two configurations of one epoch. */
  lemma OneReadied(c: NetworkConfig, faulty: set<NodeId>, g: Network, i: NodeId, j: NodeId, k: NewEpochConfig,
                   k': NewEpochConfig)
    requires Inv(c, faulty, g) && i in g && j in g && k in g[i].readies && k' in g[j].readies
    requires k.config.number == k'.config.number
    ensures k == k'
  {
    hide ReplicaInv;
    hide Offer;
    hide FromLeader;
    hide Backed;
    assert EchoBacked(c, faulty, g, k) && EchoBacked(c, faulty, g, k');
    var q :| EchoedByQuorum(c, faulty, g, k, q);
    var q' :| EchoedByQuorum(c, faulty, g, k', q');
    var n := SharedCorrect(c, faulty, q, q');
    NodeInv(c, faulty, g, n);
  }

  /** So the network delivers at most one. */
  lemma OneDelivered(c: NetworkConfig, faulty: set<NodeId>, g: Network, i: NodeId, j: NodeId, k: NewEpochConfig,
                     k': NewEpochConfig)
    requires Inv(c, faulty, g) && i in g && j in g && k in g[i].adopted && k' in g[j].adopted
    requires k.config.number == k'.config.number
    ensures k == k'
  {
    hide ReplicaInv;
    hide Offer;
    hide FromLeader;
    hide Backed;
    hide EchoBacked;
    assert ReadiedSomewhere(g, k) && ReadiedSomewhere(g, k');
    var n :| n in g && k in g[n].readies;
    var n' :| n' in g && k' in g[n'].readies;
    OneReadied(c, faulty, g, n, n', k, k');
  }

  /** What was delivered is what correct nodes sent ready for. */
  lemma AdoptedReadied(c: NetworkConfig, faulty: set<NodeId>, g: Network, i: NodeId, j: NodeId, k: NewEpochConfig,
                       k': NewEpochConfig)
    requires Inv(c, faulty, g) && i in g && j in g && k in g[i].adopted && k' in g[j].readies
    requires k.config.number == k'.config.number
    ensures k == k'
  {
    hide ReplicaInv;
    hide Offer;
    hide FromLeader;
    hide Backed;
    hide EchoBacked;
    assert ReadiedSomewhere(g, k);
    var n :| n in g && k in g[n].readies;
    OneReadied(c, faulty, g, n, j, k, k');
  }

  /** The correct members of quorum `q` readied `k` on a quorum of echoes. */
  ghost predicate AnchorQuorum(c: NetworkConfig, faulty: set<NodeId>, g: Network, q: set<NodeId>, k: NewEpochConfig) {
    IsQuorum(c, q) && forall i :: i in q && i !in faulty ==> i in g && k in g[i].anchors
  }

  ghost predicate AllEchoed(g: Network, k: NewEpochConfig) {
    forall i, k' :: i in g && k' in g[i].echoes && k'.config.number == k.config.number ==> k' == k
  }

  /** A carried-over digest is prepared by exactly the quorums that readied its configuration on echoes:
      always in one direction, and in the other when no correct node echoed another configuration. */
  lemma AnchoredIsPrepared(c: NetworkConfig, faulty: set<NodeId>, g: Network, q: set<NodeId>, k: NewEpochConfig,
                           s: nat, d: Digest)
    requires Inv(c, faulty, g) && Carries(k, s, d)
    ensures AnchorQuorum(c, faulty, g, q, k) ==> PreparedQuorum(c, faulty, g, q, k.config.number, s, d)
    ensures AllEchoed(g, k) && PreparedQuorum(c, faulty, g, q, k.config.number, s, d) ==> AnchorQuorum(c, faulty, g, q, k)
  {
    hide Inv;
    hide Carries;
    hide CarriedVotes;
    hide AllEchoed;
    var v := Vote(k.config.number, s, d);
    CarriedVote(k, v);
    forall i | i in g && k in g[i].anchors ensures v in g[i].prepares {
      NodeInv(c, faulty, g, i);
    }
    if AllEchoed(g, k) {
      forall i | i in g && v in g[i].prepares ensures k in g[i].anchors {
        PreparedByAnchor(c, faulty, g, k, s, d, i);
      }
    }
  }

  lemma PreparedByAnchor(c: NetworkConfig, faulty: set<NodeId>, g: Network, k: NewEpochConfig, s: nat, d: Digest, i: NodeId)
    requires Inv(c, faulty, g) && Carries(k, s, d) && AllEchoed(g, k)
    requires i in g && Vote(k.config.number, s, d) in g[i].prepares
    ensures k in g[i].anchors
  {
    hide ReplicaInv;
    hide Offer;
    hide FromLeader;
    hide Backed;
    NodeInv(c, faulty, g, i);
    assert PrepareJustified(g[i], Vote(k.config.number, s, d));
    if k' :| k' in g[i].anchors && k'.config.number == k.config.number && Carries(k', s, d) {
      assert k' in g[i].readies && EchoBacked(c, faulty, g, k');
      var q :| EchoedByQuorum(c, faulty, g, k', q);
      var n := SharedCorrect(c, faulty, q, q);
      assert k' in g[n].echoes;
    }
  }

  /** What a correct node committed on delivering an epoch is what it echoed there; if a quorum readied
      that configuration on echoes, the digest is locked. */
  lemma DeliveredLocked(c: NetworkConfig, faulty: set<NodeId>, g: Network, q: set<NodeId>, i: NodeId, v: Vote,
                        k: NewEpochConfig)
    requires Inv(c, faulty, g) && i in g && v in g[i].delivered
    requires k in g[i].echoes && k.config.number == v.epoch && AnchorQuorum(c, faulty, g, q, k)
    ensures Locked(c, faulty, g, v.epoch, v.seqNo, v.digest)
  {
    hide Inv;
    hide Locked;
    FaultsBounded(c, faulty, g);
    DeliveredIsEchoed(c, faulty, g, i, v, k);
    AnchoredIsPrepared(c, faulty, g, q, k, v.seqNo, v.digest);
    PreparedLocked(c, faulty, g, q, v.epoch, v.seqNo, v.digest);
  }

  /** Then every later configuration that covers the sequence carries it on. */
  lemma DeliveredKept(c: NetworkConfig, faulty: set<NodeId>, g: Network, q: set<NodeId>, i: NodeId, v: Vote,
                      k: NewEpochConfig, j: NodeId, k1: NewEpochConfig)
    requires Inv(c, faulty, g) && i in g && v in g[i].delivered
    requires k in g[i].echoes && k.config.number == v.epoch && AnchorQuorum(c, faulty, g, q, k)
    requires j in g && k1 in g[j].echoes && k1.config.number > v.epoch && Covers(c, k1, v.seqNo)
    requires NoneEndsBelow(c, g, v.epoch, k1.config.number, v.seqNo)
    requires Verified(c, faulty, g, v.epoch, k1.config.number + 1)
    ensures Carries(k1, v.seqNo, v.digest)
  {
    hide Inv;
    hide Locked;
    hide Verified;
    DeliveredLocked(c, faulty, g, q, i, v, k);
    LockedCarries(c, faulty, g, v.epoch, v.seqNo, v.digest, j, k1);
  }

  lemma DeliveredIsEchoed(c: NetworkConfig, faulty: set<NodeId>, g: Network, i: NodeId, v: Vote, k: NewEpochConfig)
    requires Inv(c, faulty, g) && i in g && v in g[i].delivered && k in g[i].echoes && k.config.number == v.epoch
    ensures Carries(k, v.seqNo, v.digest)
  {
    hide Inv;
    NodeInv(c, faulty, g, i);
    var k' :| k' in g[i].echoes && k'.config.number == v.epoch && Carries(k', v.seqNo, v.digest);
  }

  lemma EchoOfDelivered(c: NetworkConfig, faulty: set<NodeId>, g: Network, i: NodeId, v: Vote) returns (k: NewEpochConfig)
    requires Inv(c, faulty, g) && i in g && v in g[i].delivered
    ensures k in g[i].echoes && k.config.number == v.epoch && Carries(k, v.seqNo, v.digest)
  {
    hide Inv;
    hide Carries;
    hide VotesInOrder;
    hide VotesJustified;
    hide ChangesFaithful;
    hide PreparesJustified;
    hide OffersInv;
    hide ReportsInv;
    NodeInv(c, faulty, g, i);
    k :| k in g[i].echoes && k.config.number == v.epoch && Carries(k, v.seqNo, v.digest);
  }

  lemma DigestCarried(k: NewEpochConfig, s: nat, d: Digest, d1: Digest)
    ensures Carries(k, s, d) && Carries(k, s, d1) ==> d == d1
  {
  }

  /** A correct leader's epoch is echoed as one configuration, so whatever correct nodes commit on
      delivering it agrees at every sequence number. */
  lemma CorrectLeaderDeliveriesAgree(c: NetworkConfig, faulty: set<NodeId>, g: Network, i: NodeId, j: NodeId, v: Vote,
                                     w: Vote)
    requires Inv(c, faulty, g) && i in g && j in g && v in g[i].delivered && w in g[j].delivered
    requires v.epoch == w.epoch && v.seqNo == w.seqNo && LeaderOf(c, v.epoch) !in faulty
    ensures v.digest == w.digest
  {
    hide Inv;
    hide Justified;
    hide Carries;
    var k := EchoOfDelivered(c, faulty, g, i, v);
    var k' := EchoOfDelivered(c, faulty, g, j, w);
    DeliveredIsEchoed(c, faulty, g, i, v, k);
    DeliveredIsEchoed(c, faulty, g, j, w, k');
    DigestCarried(k, v.seqNo, v.digest, w.digest);
    CorrectlyLed(c, faulty, g, i, j, k, k');
  }

  /** Node `i` delivered what it echoed, which the source does not check before committing. */
  ghost predicate Passes(r: Replica, k: NewEpochConfig) {
    k in r.adopted && k in r.echoes
  }

  predicate SameAt(k: NewEpochConfig, k': NewEpochConfig, s: nat) {
    var start, start' := k.startingCheckpoint.seqNo, k'.startingCheckpoint.seqNo;
    && start < s <= End(k) && start' < s <= End(k')
    && k.finalPreprepares[s - start - 1] == k'.finalPreprepares[s - start' - 1]
  }

  /** Nodes that delivered what they echoed agree.  One that echoed something else disagrees with them
      exactly where its echo differs from the configuration that was delivered. */
  lemma GuardedDeliveriesAgree(c: NetworkConfig, faulty: set<NodeId>, g: Network, i: NodeId, k: NewEpochConfig, v: Vote,
                               j: NodeId, k': NewEpochConfig, own: NewEpochConfig, w: Vote)
    requires Inv(c, faulty, g) && i in g && j in g && Passes(g[i], k) && k' in g[j].adopted && own in g[j].echoes
    requires v in g[i].delivered && w in g[j].delivered && v.seqNo == w.seqNo
    requires v.epoch == w.epoch == k.config.number == k'.config.number == own.config.number
    ensures k' == k
    ensures v.digest == w.digest <==> SameAt(own, k', v.seqNo)
    ensures Passes(g[j], k') ==> v.digest == w.digest
  {
    hide Inv;
    OneDelivered(c, faulty, g, i, j, k, k');
    DeliveredIsEchoed(c, faulty, g, i, v, k);
    DeliveredIsEchoed(c, faulty, g, j, w, own);
    if Passes(g[j], k') {
      DeliveredIsEchoed(c, faulty, g, j, w, k');
    }
  }

  // ---------------------------------------------------------------- runs

  ghost predicate NextAny(c: NetworkConfig, faulty: set<NodeId>, g: Network, g': Network) {
    exists i, step :: Next(c, faulty, g, g', i, step)
  }

  ghost predicate IsRun(c: NetworkConfig, faulty: set<NodeId>, run: seq<Network>, value: nat, config: EpochConfig) {
    && run != [] && Starts(c, faulty, run[0], value, config)
    && forall t :: 0 < t < |run| ==> NextAny(c, faulty, run[t - 1], run[t])
  }

  lemma {:induction false} RunKeepsInv(c: NetworkConfig, faulty: set<NodeId>, run: seq<Network>, value: nat,
                                       config: EpochConfig, t: nat)
    requires IsRun(c, faulty, run, value, config) && t < |run|
    ensures Inv(c, faulty, run[t])
  {
    hide Inv;
    hide Starts;
    hide Next;
    if t == 0 {
      InitInv(c, faulty, run[0], value, config);
    } else {
      RunKeepsInv(c, faulty, run, value, config, t - 1);
      assert NextAny(c, faulty, run[t - 1], run[t]);
      var i, step :| Next(c, faulty, run[t - 1], run[t], i, step);
      NextKeepsInv(c, faulty, run[t - 1], run[t], i, step);
    }
  }

  /** Safety over whole runs, in every state of every run. */
  lemma RunAgreement(c: NetworkConfig, faulty: set<NodeId>, run: seq<Network>, value: nat, config: EpochConfig, t: nat,
                     q: set<NodeId>, q1: set<NodeId>, e: nat, e1: nat, s: nat, d: Digest, d1: Digest)
    requires IsRun(c, faulty, run, value, config) && t < |run| && e <= e1
    requires PreparedQuorum(c, faulty, run[t], q, e, s, d) && PreparedQuorum(c, faulty, run[t], q1, e1, s, d1)
    requires NoneEndsBelow(c, run[t], e, e1 + 1, s) && Verified(c, faulty, run[t], e, e1 + 1)
    ensures d == d1
  {
    RunKeepsInv(c, faulty, run, value, config, t);
    Agreement(c, faulty, run[t], q, q1, e, e1, s, d, d1);
  }
}
