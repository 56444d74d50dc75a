/** The chain of epochs and the three phases within them as one state machine: what a sequence logs is
    what its replica votes for. */
module JointRuns {
  import opened Types
  import opened Quorums
  import opened EpochChanges
  import opened NewEpochConfigs
  import opened WriteAheadLog
  import opened ReplicaVotes
  import opened EpochChain
  import opened Buckets
  import S = Sequences
  import TP = ThreePhase

  /** A sequence number of an epoch. */
  datatype Slot = Slot(epoch: nat, seqNo: nat)

  /** The three phases of one slot at all correct replicas. */
  datatype Instance = Instance(owner: NodeId, net: TP.Network)

  datatype Joint = Joint(chain: Network, phases: map<Slot, Instance>)

  datatype Move =
    | Chain(node: NodeId, step: Step)                       // a replica's step other than a vote in a slot
    | Assign(slot: Slot, owner: NodeId)                     // a slot comes into being
    | Phase(slot: Slot, node: NodeId, event: TP.Event)      // an event at one replica's sequence

  // ---------------------------------------------------------------- commits

  function Sequence(j: Joint, slot: Slot, i: NodeId): S.SeqState
    requires slot in j.phases && i in j.phases[slot].net
  {
    j.phases[slot].net[i].seq_
  }

  /** Replica `i` committed `d` at `s` by the three phases of epoch `e`. */
  ghost predicate ByPhases(j: Joint, i: NodeId, e: nat, s: nat, d: Digest) {
    && Slot(e, s) in j.phases && i in j.phases[Slot(e, s)].net
    && Sequence(j, Slot(e, s), i).phase == S.Committed && Sequence(j, Slot(e, s), i).digest == d
  }

  /** It did so on delivering epoch `e`. */
  ghost predicate OnDelivery(j: Joint, i: NodeId, e: nat, s: nat, d: Digest) {
    i in j.chain && Vote(e, s, d) in j.chain[i].delivered
  }

  ghost predicate CommittedAt(j: Joint, i: NodeId, e: nat, s: nat, d: Digest) {
    ByPhases(j, i, e, s, d) || OnDelivery(j, i, e, s, d)
  }

  ghost predicate HasCommitted(j: Joint, i: NodeId, s: nat) {
    exists e, d :: CommittedAt(j, i, e, s, d)
  }

  /** It has committed everything up to its next checkpoint. */
  ghost predicate IntervalCommitted(c: NetworkConfig, j: Joint, i: NodeId)
    requires i in j.chain
  {
    var last := j.chain[i].lastCheckpoint;
    forall s :: last < s <= last + c.checkpointInterval ==> HasCommitted(j, i, s)
  }

  // ---------------------------------------------------------------- what a sequence logs

  function LogAction(r: Replica, s: nat, a: S.Action): Replica {
    match a
    case PersistQ(d, batch) => ProposedState(r, s, d, batch)
    case PersistP(d) => PreparedState(r, s, d)
    case _ => r
  }

  /** The replica after the log entries among `out` were written. */
  function LogAll(r: Replica, s: nat, out: seq<S.Action>): Replica
    decreases |out|
  {
    if out == [] then r else LogAll(LogAction(r, s, out[0]), s, out[1..])
  }

  lemma {:induction false} OnlyEntriesLogged(r: Replica, s: nat, out: seq<S.Action>)
    ensures LogAll(r, s, out) == LogAll(r, s, TP.Entries(out))
    decreases |out|
  {
    if out != [] {
      OnlyEntriesLogged(LogAction(r, s, out[0]), s, out[1..]);
      if TP.IsEntry(out[0]) {
        var rest := TP.Entries(out[1..]);
        assert TP.Entries(out) == [out[0]] + rest;
        assert ([out[0]] + rest)[1..] == rest;
      } else {
        assert TP.Entries(out) == TP.Entries(out[1..]);
      }
    }
  }

  // ---------------------------------------------------------------- steps

  /** A replica works on a slot of its active epoch, beyond everything that the epoch carried over. */
  ghost predicate TakesPart(c: NetworkConfig, r: Replica, slot: Slot) {
    && c.checkpointInterval > 0
    && r.phase == Active && r.epoch == slot.epoch && r.echoed.Some? && slot.seqNo > End(r.echoed.value)
    && slot.seqNo > r.lastCheckpoint && Opened(r.log, c.checkpointInterval, slot.seqNo)
    && (forall k :: k in r.readies && k.config.number == r.epoch ==> slot.seqNo > End(k))
  }

  /** The owner that the configuration delivered for the slot's epoch gives it. */
  ghost predicate Owns(c: NetworkConfig, g: Network, slot: Slot, owner: NodeId) {
    exists i, k :: i in g && k in g[i].adopted && OwnedIn(c, k, slot, owner)
  }

  predicate OwnedIn(c: NetworkConfig, k: NewEpochConfig, slot: Slot, owner: NodeId) {
    && c.nodes != [] && c.numberOfBuckets > 0 && k.config.number == slot.epoch
    && k.config.leaders != [] && owner == OwnerOf(c, k.config, slot.seqNo)
  }

  function FreshNet(c: NetworkConfig, g: Network, owner: NodeId): TP.Network {
    map i | i in g :: TP.Fresh(c, owner, i)
  }

  ghost predicate PhaseStep(c: NetworkConfig, faulty: set<NodeId>, j: Joint, j': Joint, slot: Slot, i: NodeId,
                            event: TP.Event)
  {
    && slot in j.phases && i in j.chain && TakesPart(c, j.chain[i], slot)
    && var net := j.phases[slot].net;
       i in net && TP.Enabled(net[i], event)
       && TP.Next(c, faulty, j.phases[slot].owner, net, net[i := TP.Handle(net[i], event)], i, event)
       && j' == Joint(j.chain[i := LogAll(j.chain[i], slot.seqNo, TP.Outcome(net[i], event).1)],
                      j.phases[slot := j.phases[slot].(net := net[i := TP.Handle(net[i], event)])])
  }

  ghost predicate JointNext(c: NetworkConfig, faulty: set<NodeId>, j: Joint, j': Joint, move: Move) {
    match move
    case Chain(i, step) =>
      && !step.Propose? && !step.Commit?
      && (step.Request? && i in j.chain ==> IntervalCommitted(c, j, i))
      && Next(c, faulty, j.chain, j'.chain, i, step) && j'.phases == j.phases
    case Assign(slot, owner) =>
      && slot !in j.phases && owner in NodeSet(c) && Owns(c, j.chain, slot, owner)
      && j' == j.(phases := j.phases[slot := Instance(owner, FreshNet(c, j.chain, owner))])
    case Phase(slot, i, event) => PhaseStep(c, faulty, j, j', slot, i, event)
  }

  // ---------------------------------------------------------------- the invariant

  predicate AtLeast(s: S.SeqState, p: S.Phase) {
    S.Rank(s.phase) >= S.Rank(p)
  }

  /** A sequence that a replica touched lies beyond what it echoed, and its phase says what was logged. */
  ghost predicate Linked(r: Replica, slot: Slot, s: S.SeqState) {
    && (s.phase != S.Uninitialized ==> exists k :: k in r.echoes && k.config.number == slot.epoch && slot.seqNo > End(k))
    && (AtLeast(s, S.Preprepared) ==> Vote(slot.epoch, slot.seqNo, s.digest) in r.preprepares)
    && (AtLeast(s, S.Prepared) ==> Vote(slot.epoch, slot.seqNo, s.digest) in r.prepares)
  }

  /** Sequence number `s` of the replica's epoch lies beyond what it echoed. */
  predicate Beyond(r: Replica, s: nat) {
    r.echoed.Some? && s > End(r.echoed.value)
  }

  ghost predicate BeyondReadied(r: Replica, s: nat) {
    Beyond(r, s) && forall k :: k in r.readies && k.config.number == r.epoch ==> s > End(k)
  }

  ghost predicate InPhase(j: Joint, i: NodeId, v: Vote, p: S.Phase) {
    && Slot(v.epoch, v.seqNo) in j.phases && i in j.phases[Slot(v.epoch, v.seqNo)].net
    && AtLeast(Sequence(j, Slot(v.epoch, v.seqNo), i), p)
  }

  /** Conversely a vote of the current epoch beyond its carried-over digests comes from a sequence. */
  ghost predicate FromSequences(j: Joint, i: NodeId)
    requires i in j.chain
  {
    var r := j.chain[i];
    && (forall v :: v in r.preprepares && v.epoch == r.epoch && Beyond(r, v.seqNo) ==> InPhase(j, i, v, S.Preprepared))
    && (forall v :: v in r.prepares && v.epoch == r.epoch && BeyondReadied(r, v.seqNo) ==> InPhase(j, i, v, S.Prepared))
  }

  ghost predicate SlotInv(c: NetworkConfig, faulty: set<NodeId>, g: Network, slot: Slot, x: Instance) {
    && x.owner in NodeSet(c) && Owns(c, g, slot, x.owner) && TP.Inv(c, faulty, x.owner, x.net)
    && forall i :: i in x.net ==> i in g && Linked(g[i], slot, x.net[i].seq_)
  }

  ghost predicate JointInv(c: NetworkConfig, faulty: set<NodeId>, j: Joint) {
    && Inv(c, faulty, j.chain)
    && (forall slot :: slot in j.phases ==> SlotInv(c, faulty, j.chain, slot, j.phases[slot]))
    && (forall i :: i in j.chain ==> FromSequences(j, i))
  }

  // ---------------------------------------------------------------- steps of the chain

  lemma StillLinked(r: Replica, r': Replica, slot: Slot, s: S.SeqState)
    requires Grows(r, r') && Linked(r, slot, s)
    ensures Linked(r', slot, s)
  {
    if s.phase != S.Uninitialized {
      var k :| k in r.echoes && k.config.number == slot.epoch && slot.seqNo > End(k);
      assert k in r'.echoes;
    }
  }

  lemma StillOwns(c: NetworkConfig, g: Network, g': Network, slot: Slot, owner: NodeId)
    requires Owns(c, g, slot, owner) && NetworkGrows(g, g')
    ensures Owns(c, g', slot, owner)
  {
    hide OwnedIn;
    var i, k :| i in g && k in g[i].adopted && OwnedIn(c, k, slot, owner);
    assert Grows(g[i], g'[i]);
    assert k in g'[i].adopted;
  }

  lemma SlotsKept(c: NetworkConfig, faulty: set<NodeId>, g: Network, g': Network, slot: Slot, x: Instance)
    requires SlotInv(c, faulty, g, slot, x) && NetworkGrows(g, g')
    ensures SlotInv(c, faulty, g', slot, x)
  {
    hide TP.Inv;
    hide Grows;
    hide Linked;
    hide Owns;
    StillOwns(c, g, g', slot, x.owner);
    forall i | i in x.net ensures Linked(g'[i], slot, x.net[i].seq_) {
      StillLinked(g[i], g'[i], slot, x.net[i].seq_);
    }
  }

  /** Only votes in a slot reach beyond what an epoch carries over. */
  ghost predicate NoneBeyond(r: Replica, r': Replica) {
    && (forall v :: v in r'.preprepares && v.epoch == r'.epoch && Beyond(r', v.seqNo) ==>
                      v in r.preprepares && v.epoch == r.epoch && Beyond(r, v.seqNo))
    && (forall v :: v in r'.prepares && v.epoch == r'.epoch && BeyondReadied(r', v.seqNo) ==>
                      v in r.prepares && v.epoch == r.epoch && BeyondReadied(r, v.seqNo))
  }

  lemma StepsNoneBeyond(c: NetworkConfig, r: Replica, r': Replica, step: Step)
    requires VotesInOrder(r) && Takes(c, r, r', step) && !step.Propose? && !step.Commit?
    ensures NoneBeyond(r, r')
  {
    hide EchoLog;
    hide ReadyLog;
    hide EpochChangeOf;
    hide AfterChange;
    hide Opened;
    hide CarriedVotes;
    hide SecondIntervalOpened;
    match step {
      case Echo(k, _) => CarriedWithin(k);
      case ReadyByEchoes(k) => CarriedWithin(k);
      case _ =>
    }
  }

  lemma CarriedWithin(k: NewEpochConfig)
    ensures forall v :: v in CarriedVotes(k, |k.finalPreprepares|) ==> v.seqNo <= End(k)
  {
  }

  lemma ChainKeepsInv(c: NetworkConfig, faulty: set<NodeId>, j: Joint, j': Joint, i: NodeId, step: Step)
    requires JointInv(c, faulty, j) && JointNext(c, faulty, j, j', Chain(i, step))
    ensures JointInv(c, faulty, j')
  {
    hide Inv;
    hide SlotInv;
    hide Takes;
    hide InPhase;
    hide NoneBeyond;
    hide Grows;
    NextKeepsInv(c, faulty, j.chain, j'.chain, i, step);
    ChainGrows(c, faulty, j.chain, j'.chain, i, step);
    forall slot | slot in j'.phases ensures SlotInv(c, faulty, j'.chain, slot, j'.phases[slot]) {
      SlotsKept(c, faulty, j.chain, j'.chain, slot, j.phases[slot]);
    }
    NodeInv(c, faulty, j.chain, i);
    StepsNoneBeyond(c, j.chain[i], j'.chain[i], step);
    forall n | n in j'.chain ensures FromSequences(j', n) {
      assert FromSequences(j, n);
      if n == i {
        SequencesKept(j, j', i);
      } else {
        PhasesKept(j, j', n);
      }
    }
  }

  lemma ChainGrows(c: NetworkConfig, faulty: set<NodeId>, g: Network, g': Network, i: NodeId, step: Step)
    requires Inv(c, faulty, g) && Next(c, faulty, g, g', i, step)
    ensures NetworkGrows(g, g') && g' == g[i := g'[i]]
  {
    hide ReplicaInv;
    hide Takes;
    hide Justified;
    hide Backed;
    hide EchoBacked;
    assert ReplicaInv(c, g[i]);
    StepGrows(c, g[i], g'[i], step);
  }

  lemma SequencesKept(j: Joint, j': Joint, i: NodeId)
    requires i in j.chain && i in j'.chain && j'.phases == j.phases
    requires FromSequences(j, i) && NoneBeyond(j.chain[i], j'.chain[i])
    ensures FromSequences(j', i)
  {
    hide Beyond;
    hide BeyondReadied;
    forall v, p | InPhase(j, i, v, p) ensures InPhase(j', i, v, p) {
    }
    hide InPhase;
  }

  // ---------------------------------------------------------------- a new slot

  lemma AssignKeepsInv(c: NetworkConfig, faulty: set<NodeId>, j: Joint, j': Joint, slot: Slot, owner: NodeId)
    requires JointInv(c, faulty, j) && JointNext(c, faulty, j, j', Assign(slot, owner))
    ensures JointInv(c, faulty, j')
  {
    hide TP.Inv;
    hide Inv;
    hide Owns;
    hide SlotInv;
    hide FreshNet;
    hide FromSequences;
    FreshSlot(c, faulty, j.chain, slot, owner);
    forall n | n in j'.chain ensures FromSequences(j', n) {
      PhasesKept(j, j', n);
    }
  }

  lemma FreshSlot(c: NetworkConfig, faulty: set<NodeId>, g: Network, slot: Slot, owner: NodeId)
    requires Inv(c, faulty, g) && owner in NodeSet(c) && Owns(c, g, slot, owner)
    ensures SlotInv(c, faulty, g, slot, Instance(owner, FreshNet(c, g, owner)))
  {
    hide TP.Inv;
    hide Inv;
    hide Owns;
    hide NodeSet;
    hide IntersectionQuorum;
    FaultsBounded(c, faulty, g);
    var net := FreshNet(c, g, owner);
    assert net.Keys == g.Keys;
    TP.FreshInv(c, faulty, owner, net);
  }

  /** Sequences only move on. */
  ghost predicate Advances(j: Joint, j': Joint, n: NodeId) {
    forall slot :: slot in j.phases && n in j.phases[slot].net ==>
                     && slot in j'.phases && n in j'.phases[slot].net
                     && S.Rank(Sequence(j', slot, n).phase) >= S.Rank(Sequence(j, slot, n).phase)
  }

  lemma PhasesKept(j: Joint, j': Joint, n: NodeId)
    requires n in j.chain && n in j'.chain && j'.chain[n] == j.chain[n] && Advances(j, j', n) && FromSequences(j, n)
    ensures FromSequences(j', n)
  {
    hide Beyond;
    hide BeyondReadied;
    forall v, p | InPhase(j, n, v, p) ensures InPhase(j', n, v, p) {
    }
    hide InPhase;
  }

  // ---------------------------------------------------------------- an event at a sequence

  /** The replica after a sequence went from `before` to `s`. */
  function AfterQ(r: Replica, slot: Slot, before: S.Phase, s: S.SeqState): Replica {
    if S.Crosses(before, s.phase, S.Preprepared) then LogAction(r, slot.seqNo, S.PersistQ(s.digest, s.batch)) else r
  }

  function AfterP(r: Replica, slot: Slot, before: S.Phase, s: S.SeqState): Replica {
    if S.Crosses(before, s.phase, S.Prepared) then LogAction(r, slot.seqNo, S.PersistP(s.digest)) else r
  }

  lemma LogsBetween(r: Replica, slot: Slot, x: TP.Replica, event: TP.Event)
    requires TP.Enabled(x, event)
    ensures
      var s' := TP.Handle(x, event).seq_;
      LogAll(r, slot.seqNo, TP.Outcome(x, event).1) == AfterP(AfterQ(r, slot, x.seq_.phase, s'), slot, x.seq_.phase, s')
  {
    hide TP.Outcome;
    hide TP.Entries;
    var (s', out) := TP.Outcome(x, event);
    TP.OutcomeLogs(x, event);
    OnlyEntriesLogged(r, slot.seqNo, out);
    BetweenLogged(r, slot, x.seq_.phase, s');
  }

  lemma BetweenLogged(r: Replica, slot: Slot, before: S.Phase, s: S.SeqState)
    ensures LogAll(r, slot.seqNo, TP.EntriesBetween(before, s)) == AfterP(AfterQ(r, slot, before, s), slot, before, s)
  {
    hide LogAction;
    var entries, r1 := TP.EntriesBetween(before, s), AfterQ(r, slot, before, s);
    if S.Crosses(before, s.phase, S.Preprepared) {
      var rest := entries[1..];
      assert LogAll(r, slot.seqNo, entries) == LogAll(r1, slot.seqNo, rest);
      if S.Crosses(before, s.phase, S.Prepared) {
        assert rest == [S.PersistP(s.digest)] && rest[1..] == [];
      } else {
        assert rest == [];
      }
    } else if S.Crosses(before, s.phase, S.Prepared) {
      assert entries == [S.PersistP(s.digest)] && entries[1..] == [];
    }
  }

  /** What a sequence does to its replica when it moves from `s` to `s'`. */
  ghost predicate SlotMove(c: NetworkConfig, r: Replica, slot: Slot, s: S.SeqState, s': S.SeqState) {
    && TakesPart(c, r, slot) && Linked(r, slot, s) && S.Rank(s'.phase) >= S.Rank(s.phase)
    && (AtLeast(s, S.Preprepared) ==> s'.digest == s.digest)
    && (forall v :: v in r.preprepares && v.epoch == r.epoch && v.seqNo == slot.seqNo ==> AtLeast(s, S.Preprepared))
    && (forall v :: v in r.prepares && v.epoch == r.epoch && v.seqNo == slot.seqNo ==> AtLeast(s, S.Prepared))
  }

  /** Becoming preprepared is the replica's vote in the slot. */
  lemma QIsPropose(c: NetworkConfig, r: Replica, slot: Slot, s: S.SeqState, s': S.SeqState)
    requires SlotMove(c, r, slot, s, s') && S.Crosses(s.phase, s'.phase, S.Preprepared)
    ensures Takes(c, r, AfterQ(r, slot, s.phase, s'), Propose(slot.seqNo, s'.digest, s'.batch))
  {
    hide Opened;
  }

  /** Becoming prepared is its second vote. */
  lemma PIsCommit(c: NetworkConfig, r: Replica, slot: Slot, s: S.SeqState, s': S.SeqState)
    requires SlotMove(c, r, slot, s, s') && S.Crosses(s.phase, s'.phase, S.Prepared)
    ensures
      var r1 := AfterQ(r, slot, s.phase, s');
      Takes(c, r1, AfterP(r1, slot, s.phase, s'), Commit(slot.seqNo, s'.digest))
  {
    hide Opened;
    AppendKeepsOpened(r.log, QEntry(slot.seqNo, s'.digest, s'.batch), c.checkpointInterval, slot.seqNo);
  }

  lemma MovedLinked(c: NetworkConfig, r: Replica, slot: Slot, s: S.SeqState, s': S.SeqState)
    requires SlotMove(c, r, slot, s, s') && r.echoed.value in r.echoes && r.echoed.value.config.number == r.epoch
    ensures Linked(AfterP(AfterQ(r, slot, s.phase, s'), slot, s.phase, s'), slot, s')
  {
    hide Opened;
    var r' := AfterP(AfterQ(r, slot, s.phase, s'), slot, s.phase, s');
    assert r.echoed.value in r'.echoes && slot.seqNo > End(r.echoed.value);
  }

  lemma LocalStep(c: NetworkConfig, faulty: set<NodeId>, g: Network, i: NodeId, r': Replica, step: Step)
    requires Inv(c, faulty, g) && i in g && Takes(c, g[i], r', step) && (step.Propose? || step.Commit?)
    ensures Inv(c, faulty, g[i := r']) && NetworkGrows(g, g[i := r'])
  {
    hide Inv;
    hide Takes;
    hide NetworkGrows;
    var g' := g[i := r'];
    assert Next(c, faulty, g, g', i, step);
    NextKeepsInv(c, faulty, g, g', i, step);
    ChainGrows(c, faulty, g, g', i, step);
  }

  lemma GrowsTwice(g: Network, i: NodeId, r1: Replica, r2: Replica)
    requires i in g && NetworkGrows(g, g[i := r1]) && NetworkGrows(g[i := r1], g[i := r1][i := r2])
    ensures g[i := r1][i := r2] == g[i := r2] && NetworkGrows(g, g[i := r2])
  {
    assert g[i := r1][i := r2] == g[i := r2];
    assert Grows(g[i], r1) && Grows(r1, r2);
  }

  lemma StaysGrown(g: Network)
    ensures NetworkGrows(g, g)
  {
  }

  /** So the chain of epochs takes at most two of its own steps. */
  lemma MoveKeepsChain(c: NetworkConfig, faulty: set<NodeId>, g: Network, i: NodeId, slot: Slot, s: S.SeqState,
                       s': S.SeqState)
    requires Inv(c, faulty, g) && i in g && SlotMove(c, g[i], slot, s, s')
    ensures
      var g' := g[i := AfterP(AfterQ(g[i], slot, s.phase, s'), slot, s.phase, s')];
      Inv(c, faulty, g') && NetworkGrows(g, g')
  {
    hide Inv;
    hide NetworkGrows;
    hide SlotMove;
    hide Takes;
    hide LogAction;
    var r := g[i];
    var r1 := AfterQ(r, slot, s.phase, s');
    var r2 := AfterP(r1, slot, s.phase, s');
    StaysGrown(g);
    assert g[i := r] == g;
    if S.Crosses(s.phase, s'.phase, S.Preprepared) {
      QIsPropose(c, r, slot, s, s');
      LocalStep(c, faulty, g, i, r1, Propose(slot.seqNo, s'.digest, s'.batch));
    }
    StaysGrown(g[i := r1]);
    assert g[i := r1][i := r1] == g[i := r1];
    if S.Crosses(s.phase, s'.phase, S.Prepared) {
      PIsCommit(c, r, slot, s, s');
      LocalStep(c, faulty, g[i := r1], i, r2, Commit(slot.seqNo, s'.digest));
    }
    GrowsTwice(g, i, r1, r2);
  }

  lemma IsSlotMove(c: NetworkConfig, faulty: set<NodeId>, j: Joint, j': Joint, slot: Slot, i: NodeId, event: TP.Event)
    requires JointInv(c, faulty, j) && PhaseStep(c, faulty, j, j', slot, i, event)
    ensures SlotMove(c, j.chain[i], slot, Sequence(j, slot, i), TP.Handle(j.phases[slot].net[i], event).seq_)
  {
    hide Inv;
    hide TP.Next;
    hide TP.Inv;
    hide TP.Handle;
    hide TP.Outcome;
    hide LogAll;
    hide Opened;
    hide Owns;
    var x := j.phases[slot];
    assert SlotInv(c, faulty, j.chain, slot, x);
    var r, s := j.chain[i], x.net[i].seq_;
    SequenceMoves(c, faulty, x.owner, x.net, i, event);
    assert FromSequences(j, i);
    forall v | v in r.preprepares && v.epoch == r.epoch && v.seqNo == slot.seqNo ensures AtLeast(s, S.Preprepared) {
      assert InPhase(j, i, v, S.Preprepared);
      assert Slot(v.epoch, v.seqNo) == slot;
    }
    forall v | v in r.prepares && v.epoch == r.epoch && v.seqNo == slot.seqNo ensures AtLeast(s, S.Prepared) {
      assert InPhase(j, i, v, S.Prepared);
      assert Slot(v.epoch, v.seqNo) == slot;
    }
  }

  lemma SequenceMoves(c: NetworkConfig, faulty: set<NodeId>, owner: NodeId, net: TP.Network, i: NodeId, event: TP.Event)
    requires TP.Inv(c, faulty, owner, net) && i in net && TP.Enabled(net[i], event)
    ensures
      var s, s' := net[i].seq_, TP.Handle(net[i], event).seq_;
      && S.Rank(s'.phase) >= S.Rank(s.phase)
      && (AtLeast(s, S.Preprepared) ==> s'.digest == s.digest)
  {
    hide TP.Tallied;
    hide TP.CommitInv;
    hide TP.Truthful;
    hide S.Advance;
    assert TP.ReplicaInv(c, owner, i, net[i]);
    if AtLeast(net[i].seq_, S.Preprepared) {
      TP.DigestStays(c, owner, i, net[i], event);
    } else {
      TP.RankStays(c, owner, i, net[i], event);
    }
  }

  lemma VoterSequences(c: NetworkConfig, j: Joint, j': Joint, slot: Slot, i: NodeId, s': S.SeqState)
    requires slot in j.phases && i in j.phases[slot].net && i in j.chain && i in j'.chain
    requires SlotMove(c, j.chain[i], slot, Sequence(j, slot, i), s') && FromSequences(j, i) && Advances(j, j', i)
    requires slot in j'.phases && i in j'.phases[slot].net && Sequence(j', slot, i) == s'
    requires
      var before := Sequence(j, slot, i).phase;
      j'.chain[i] == AfterP(AfterQ(j.chain[i], slot, before, s'), slot, before, s')
    ensures FromSequences(j', i)
  {
    hide Opened;
    hide Linked;
    var r, r' := j.chain[i], j'.chain[i];
    forall v, p | InPhase(j, i, v, p) ensures InPhase(j', i, v, p) {
    }
    forall v | v in r'.preprepares && v.epoch == r'.epoch && Beyond(r', v.seqNo) ensures InPhase(j', i, v, S.Preprepared) {
      if v !in r.preprepares {
        assert Slot(v.epoch, v.seqNo) == slot;
      }
    }
    forall v | v in r'.prepares && v.epoch == r'.epoch && BeyondReadied(r', v.seqNo) ensures InPhase(j', i, v, S.Prepared) {
      if v !in r.prepares {
        assert Slot(v.epoch, v.seqNo) == slot;
      }
    }
  }

  lemma PhaseKeepsSlot(c: NetworkConfig, faulty: set<NodeId>, g: Network, g': Network, slot: Slot, x: Instance, i: NodeId,
                       event: TP.Event)
    requires SlotInv(c, faulty, g, slot, x) && NetworkGrows(g, g') && i in x.net && TP.Enabled(x.net[i], event)
    requires TP.Next(c, faulty, x.owner, x.net, x.net[i := TP.Handle(x.net[i], event)], i, event)
    requires Linked(g'[i], slot, TP.Handle(x.net[i], event).seq_)
    ensures SlotInv(c, faulty, g', slot, x.(net := x.net[i := TP.Handle(x.net[i], event)]))
  {
    hide TP.Inv;
    hide TP.Next;
    hide TP.Handle;
    hide TP.Enabled;
    hide Linked;
    hide Grows;
    SlotsKept(c, faulty, g, g', slot, x);
    TP.NextKeepsInv(c, faulty, x.owner, x.net, x.net[i := TP.Handle(x.net[i], event)], i, event);
  }

  lemma PhaseAdvances(c: NetworkConfig, faulty: set<NodeId>, j: Joint, j': Joint, slot: Slot, i: NodeId,
                      event: TP.Event, n: NodeId)
    requires PhaseStep(c, faulty, j, j', slot, i, event)
    requires S.Rank(TP.Handle(j.phases[slot].net[i], event).seq_.phase) >= S.Rank(Sequence(j, slot, i).phase)
    ensures Advances(j, j', n)
  {
    hide TP.Next;
    hide TP.Handle;
    hide TP.Enabled;
    hide TP.Outcome;
    hide TakesPart;
    hide LogAll;
  }

  lemma PhaseKeepsInv(c: NetworkConfig, faulty: set<NodeId>, j: Joint, j': Joint, slot: Slot, i: NodeId, event: TP.Event)
    requires JointInv(c, faulty, j) && PhaseStep(c, faulty, j, j', slot, i, event)
    ensures JointInv(c, faulty, j')
  {
    hide Inv;
    hide SlotInv;
    hide FromSequences;
    hide Advances;
    hide SlotMove;
    hide TP.Handle;
    hide TP.Enabled;
    hide TP.Outcome;
    hide TP.Next;
    hide LogAll;
    hide AfterP;
    hide AfterQ;
    hide Linked;
    hide NetworkGrows;
    var x := j.phases[slot];
    var s, s' := x.net[i].seq_, TP.Handle(x.net[i], event).seq_;
    IsSlotMove(c, faulty, j, j', slot, i, event);
    LogsBetween(j.chain[i], slot, x.net[i], event);
    MoveKeepsChain(c, faulty, j.chain, i, slot, s, s');
    MoveIsLinked(c, faulty, j.chain, i, slot, s, s');
    forall other | other in j'.phases ensures SlotInv(c, faulty, j'.chain, other, j'.phases[other]) {
      if other == slot {
        PhaseKeepsSlot(c, faulty, j.chain, j'.chain, slot, x, i, event);
      } else {
        SlotsKept(c, faulty, j.chain, j'.chain, other, j.phases[other]);
      }
    }
    MoveRanks(c, j.chain[i], slot, s, s');
    forall n | n in j'.chain ensures FromSequences(j', n) {
      PhaseAdvances(c, faulty, j, j', slot, i, event, n);
      if n == i {
        VoterSequences(c, j, j', slot, i, s');
      } else {
        PhasesKept(j, j', n);
      }
    }
  }

  lemma MoveRanks(c: NetworkConfig, r: Replica, slot: Slot, s: S.SeqState, s': S.SeqState)
    requires SlotMove(c, r, slot, s, s')
    ensures S.Rank(s'.phase) >= S.Rank(s.phase)
  {
  }

  lemma MoveIsLinked(c: NetworkConfig, faulty: set<NodeId>, g: Network, i: NodeId, slot: Slot, s: S.SeqState, s': S.SeqState)
    requires Inv(c, faulty, g) && i in g && SlotMove(c, g[i], slot, s, s')
    ensures Linked(AfterP(AfterQ(g[i], slot, s.phase, s'), slot, s.phase, s'), slot, s')
  {
    hide Inv;
    hide Linked;
    hide Opened;
    NodeInv(c, faulty, g, i);
    MovedLinked(c, g[i], slot, s, s');
  }

  /** Every correct replica that the epoch was delivered to computes the slot's owner. */
  lemma OneOwner(c: NetworkConfig, faulty: set<NodeId>, j: Joint, slot: Slot, i: NodeId, k: NewEpochConfig)
    requires JointInv(c, faulty, j) && slot in j.phases && i in j.chain && k in j.chain[i].adopted
    requires k.config.number == slot.epoch
    ensures OwnedIn(c, k, slot, j.phases[slot].owner)
  {
    hide Inv;
    hide TP.Inv;
    hide FromSequences;
    hide OwnedIn;
    assert SlotInv(c, faulty, j.chain, slot, j.phases[slot]);
    var n, k' :| n in j.chain && k' in j.chain[n].adopted && OwnedIn(c, k', slot, j.phases[slot].owner);
    assert k'.config.number == slot.epoch by {
      OwnedNumber(c, k', slot, j.phases[slot].owner);
    }
    OneDelivered(c, faulty, j.chain, n, i, k', k);
  }

  lemma OwnedNumber(c: NetworkConfig, k: NewEpochConfig, slot: Slot, owner: NodeId)
    requires OwnedIn(c, k, slot, owner)
    ensures k.config.number == slot.epoch
  {
  }

  // ---------------------------------------------------------------- runs

  lemma JointNextKeepsInv(c: NetworkConfig, faulty: set<NodeId>, j: Joint, j': Joint, move: Move)
    requires JointInv(c, faulty, j) && JointNext(c, faulty, j, j', move)
    ensures JointInv(c, faulty, j')
  {
    hide JointInv;
    hide PhaseStep;
    match move {
      case Chain(i, step) => ChainKeepsInv(c, faulty, j, j', i, step);
      case Assign(slot, owner) => AssignKeepsInv(c, faulty, j, j', slot, owner);
      case Phase(slot, i, event) => PhaseKeepsInv(c, faulty, j, j', slot, i, event);
    }
  }

  ghost predicate JointNextAny(c: NetworkConfig, faulty: set<NodeId>, j: Joint, j': Joint) {
    exists move :: JointNext(c, faulty, j, j', move)
  }

  ghost predicate IsJointRun(c: NetworkConfig, faulty: set<NodeId>, run: seq<Joint>, value: nat, config: EpochConfig) {
    && run != [] && Starts(c, faulty, run[0].chain, value, config) && run[0].phases == map[]
    && forall t :: 0 < t < |run| ==> JointNextAny(c, faulty, run[t - 1], run[t])
  }

  lemma {:induction false} RunKeepsJointInv(c: NetworkConfig, faulty: set<NodeId>, run: seq<Joint>, value: nat,
                                            config: EpochConfig, t: nat)
    requires IsJointRun(c, faulty, run, value, config) && t < |run|
    ensures JointInv(c, faulty, run[t])
  {
    hide JointNext;
    hide Starts;
    if t == 0 {
      StartsJoint(c, faulty, run[0], value, config);
    } else {
      hide JointInv;
      RunKeepsJointInv(c, faulty, run, value, config, t - 1);
      assert JointNextAny(c, faulty, run[t - 1], run[t]);
      var move :| JointNext(c, faulty, run[t - 1], run[t], move);
      JointNextKeepsInv(c, faulty, run[t - 1], run[t], move);
    }
  }

  lemma StartsJoint(c: NetworkConfig, faulty: set<NodeId>, j: Joint, value: nat, config: EpochConfig)
    requires Starts(c, faulty, j.chain, value, config) && j.phases == map[]
    ensures JointInv(c, faulty, j)
  {
    InitInv(c, faulty, j.chain, value, config);
    hide Inv;
  }
}
