/** What may still happen from a state of the joint machine. */
module JointPaths {
  import opened Types
  import opened Quorums
  import opened EpochChanges
  import opened NewEpochConfigs
  import opened WriteAheadLog
  import opened ReplicaVotes
  import opened EpochChain
  import opened JointRuns
  import S = Sequences
  import TP = ThreePhase
  import SR = SlotRuns

  // ---------------------------------------------------------------- paths

  ghost predicate IsPath(c: NetworkConfig, faulty: set<NodeId>, path: seq<Joint>) {
    path != [] && forall t :: 0 < t < |path| ==> JointNextAny(c, faulty, path[t - 1], path[t])
  }

  ghost predicate Leads(c: NetworkConfig, faulty: set<NodeId>, path: seq<Joint>, j: Joint, j': Joint) {
    IsPath(c, faulty, path) && path[0] == j && Last(path) == j'
  }

  ghost predicate Reaches(c: NetworkConfig, faulty: set<NodeId>, j: Joint, j': Joint) {
    exists path :: Leads(c, faulty, path, j, j')
  }

  lemma Stays(c: NetworkConfig, faulty: set<NodeId>, j: Joint)
    ensures Reaches(c, faulty, j, j)
  {
    assert Leads(c, faulty, [j], j, j);
  }

  lemma Follows(c: NetworkConfig, faulty: set<NodeId>, j: Joint, j1: Joint, j2: Joint)
    requires Reaches(c, faulty, j, j1) && Reaches(c, faulty, j1, j2)
    ensures Reaches(c, faulty, j, j2)
  {
    hide JointNextAny;
    var a :| Leads(c, faulty, a, j, j1);
    var b :| Leads(c, faulty, b, j1, j2);
    var path := a + b[1..];
    forall t | 0 < t < |path| ensures JointNextAny(c, faulty, path[t - 1], path[t]) {
      if t < |a| {
        assert path[t - 1] == a[t - 1] && path[t] == a[t];
      } else {
        var u := t - |a| + 1;
        assert path[t] == b[u] && path[t - 1] == b[u - 1];
      }
    }
    assert Leads(c, faulty, path, j, j2);
  }

  /** One step. */
  lemma Steps(c: NetworkConfig, faulty: set<NodeId>, j: Joint, j': Joint, move: Move)
    requires JointInv(c, faulty, j) && JointNext(c, faulty, j, j', move)
    ensures Reaches(c, faulty, j, j') && JointInv(c, faulty, j')
  {
    hide JointInv;
    JointNextKeepsInv(c, faulty, j, j', move);
    hide JointNext;
    assert JointNextAny(c, faulty, [j, j'][0], [j, j'][1]);
    assert Leads(c, faulty, [j, j'], j, j');
  }

  lemma ChainInv(c: NetworkConfig, faulty: set<NodeId>, j: Joint)
    requires JointInv(c, faulty, j)
    ensures Inv(c, faulty, j.chain)
  {
    hide Inv;
    hide SlotInv;
    hide FromSequences;
  }

  // ---------------------------------------------------------------- steps of the chain

  /** A step of the chain that is neither a vote in a slot nor a request for a checkpoint. */
  predicate IsPlain(step: Step) {
    !step.Propose? && !step.Commit? && !step.Request?
  }

  lemma Moves(c: NetworkConfig, faulty: set<NodeId>, j: Joint, i: NodeId, after: Replica, step: Step)
    requires JointInv(c, faulty, j) && i in j.chain && Takes(c, j.chain[i], after, step)
    requires Allowed(c, faulty, j.chain, i, step) && IsPlain(step)
    ensures var j' := j.(chain := j.chain[i := after]);
            Reaches(c, faulty, j, j') && JointInv(c, faulty, j') && NetworkGrows(j.chain, j'.chain)
  {
    hide JointInv;
    hide Takes;
    hide Allowed;
    hide Reaches;
    hide NetworkGrows;
    var j' := j.(chain := j.chain[i := after]);
    assert Next(c, faulty, j.chain, j'.chain, i, step);
    Steps(c, faulty, j, j', Chain(i, step));
    ChainInv(c, faulty, j);
    ChainGrows(c, faulty, j.chain, j'.chain, i, step);
  }

  /** What others have said stays said. */
  lemma StillAllowed(c: NetworkConfig, faulty: set<NodeId>, g: Network, g': Network, i: NodeId, step: Step)
    requires Allowed(c, faulty, g, i, step) && NetworkGrows(g, g') && i in g && g'[i] == g[i]
    ensures Allowed(c, faulty, g', i, step)
  {
    hide Offer;
    hide FromLeader;
    hide Justified;
    hide NetworkGrows;
    match step {
      case Lead(k) => StillOffered(c, faulty, g, g', i, k);
      case Echo(k, _) =>
        StillFromLeader(c, faulty, g, g', k);
        if Justified(c, faulty, g, k) {
          StillJustified(c, faulty, g, g', k);
        } else {
          StillReplaceable(c, faulty, g, g', i, k);
        }
      case ReadyByEchoes(k) =>
        StillEchoBacked(c, faulty, g, g', k);
      case ReadyByReadies(k) =>
        var q :| |q| >= SomeCorrectQuorum(c) && ReadiedBy(c, faulty, g, k, q);
        StillReadiedBy(c, faulty, g, g', k, q);
      case Deliver(k) =>
        var q :| IsQuorum(c, q) && ReadiedBy(c, faulty, g, k, q);
        StillReadiedBy(c, faulty, g, g', k, q);
      case _ =>
    }
  }

  lemma StillReplaceable(c: NetworkConfig, faulty: set<NodeId>, g: Network, g': Network, i: NodeId, k: NewEpochConfig)
    requires Replaceable(c, faulty, g, i, k) && NetworkGrows(g, g') && g'[i] == g[i]
    ensures Replaceable(c, faulty, g', i, k)
  {
    hide Justified;
    hide MayWait;
    hide Grows;
    var k0: NewEpochConfig :| k0.config.number == k.config.number && Justified(c, faulty, g, k0) && MayWait(g[i], k0);
    StillJustified(c, faulty, g, g', k0);
  }

  lemma StillReadiedBy(c: NetworkConfig, faulty: set<NodeId>, g: Network, g': Network, k: NewEpochConfig, q: set<NodeId>)
    requires ReadiedBy(c, faulty, g, k, q) && NetworkGrows(g, g')
    ensures ReadiedBy(c, faulty, g', k, q)
  {
  }

  lemma GrowsOn(g: Network, g1: Network, g2: Network)
    requires NetworkGrows(g, g1) && NetworkGrows(g1, g2)
    ensures NetworkGrows(g, g2)
  {
    forall i | i in g ensures Grows(g[i], g2[i]) {
      assert Grows(g[i], g1[i]) && Grows(g1[i], g2[i]);
    }
  }

  lemma MergeOne(g: Network, after: Network, i: NodeId)
    requires i in after && i in g && after.Keys <= g.Keys
    ensures g[i := after[i]] + (after - {i}) == g + after && |after - {i}| < |after|
    ensures (after - {i}).Keys <= g.Keys && (g + after).Keys == g.Keys
    ensures forall n :: n in after - {i} ==> n in after && n != i && (after - {i})[n] == after[n]
  {
    assert after.Keys == (after - {i}).Keys + {i};
    assert |after.Keys| == |after| && |(after - {i}).Keys| == |after - {i}|;
  }

  ghost predicate MayMove(c: NetworkConfig, faulty: set<NodeId>, g: Network, i: NodeId, after: Replica, step: Step) {
    i in g && Takes(c, g[i], after, step) && Allowed(c, faulty, g, i, step)
  }

  lemma StillMay(c: NetworkConfig, faulty: set<NodeId>, g: Network, g': Network, i: NodeId, after: Replica, step: Step)
    requires MayMove(c, faulty, g, i, after, step) && NetworkGrows(g, g') && g'[i] == g[i]
    ensures MayMove(c, faulty, g', i, after, step)
  {
    hide Takes;
    hide Allowed;
    hide Grows;
    StillAllowed(c, faulty, g, g', i, step);
  }

  /** Several replicas take the same step, one after the other. */
  lemma {:induction false} MoveAll(c: NetworkConfig, faulty: set<NodeId>, j: Joint, after: Network, step: Step)
    requires JointInv(c, faulty, j) && after.Keys <= j.chain.Keys && IsPlain(step)
    requires forall i :: i in after ==> MayMove(c, faulty, j.chain, i, after[i], step)
    ensures var j' := j.(chain := j.chain + after);
            Reaches(c, faulty, j, j') && JointInv(c, faulty, j') && NetworkGrows(j.chain, j'.chain)
    decreases |after|
  {
    hide JointInv;
    hide MayMove;
    hide Reaches;
    hide NetworkGrows;
    hide IsPlain;
    if after == map[] {
      assert j.chain + after == j.chain;
      Stays(c, faulty, j);
      StaysGrown(j.chain);
    } else {
      var i :| i in after;
      var rest := after - {i};
      var j1 := MoveOne(c, faulty, j, i, after[i], step);
      MergeOne(j.chain, after, i);
      forall n | n in rest ensures MayMove(c, faulty, j1.chain, n, rest[n], step) {
        StillMay(c, faulty, j.chain, j1.chain, n, after[n], step);
      }
      MoveAll(c, faulty, j1, rest, step);
      Follows(c, faulty, j, j1, j.(chain := j.chain + after));
      GrowsOn(j.chain, j1.chain, j.chain + after);
    }
  }

  lemma MoveOne(c: NetworkConfig, faulty: set<NodeId>, j: Joint, i: NodeId, after: Replica, step: Step) returns (j': Joint)
    requires JointInv(c, faulty, j) && IsPlain(step) && MayMove(c, faulty, j.chain, i, after, step)
    ensures j' == j.(chain := j.chain[i := after])
    ensures Reaches(c, faulty, j, j') && JointInv(c, faulty, j') && NetworkGrows(j.chain, j'.chain)
  {
    hide JointInv;
    hide Takes;
    hide Allowed;
    hide Reaches;
    hide NetworkGrows;
    hide IsPlain;
    j' := j.(chain := j.chain[i := after]);
    Moves(c, faulty, j, i, after, step);
  }

  lemma IsRequest(c: NetworkConfig, faulty: set<NodeId>, j: Joint, i: NodeId)
    requires i in j.chain && IntervalCommitted(c, j, i)
    requires Takes(c, j.chain[i], RequestedState(j.chain[i]), Request)
    ensures var j' := j.(chain := j.chain[i := RequestedState(j.chain[i])]);
            JointNext(c, faulty, j, j', Chain(i, Request)) && Next(c, faulty, j.chain, j'.chain, i, Request)
  {
    hide Takes;
    hide IntervalCommitted;
    hide RequestedState;
    hide PhaseStep;
    hide Owns;
    hide FreshNet;
    hide Justified;
    var j' := j.(chain := j.chain[i := RequestedState(j.chain[i])]);
    assert j'.chain == j.chain[i := j'.chain[i]];
  }

  /** A replica that has committed everything up to its next checkpoint asks for it. */
  lemma Requests(c: NetworkConfig, faulty: set<NodeId>, j: Joint, i: NodeId)
    requires JointInv(c, faulty, j) && i in j.chain && IntervalCommitted(c, j, i)
    requires Takes(c, j.chain[i], RequestedState(j.chain[i]), Request)
    ensures var j' := j.(chain := j.chain[i := RequestedState(j.chain[i])]);
            Reaches(c, faulty, j, j') && JointInv(c, faulty, j') && NetworkGrows(j.chain, j'.chain)
  {
    hide JointInv;
    hide Takes;
    hide Reaches;
    hide NetworkGrows;
    hide JointNext;
    hide RequestedState;
    var j' := j.(chain := j.chain[i := RequestedState(j.chain[i])]);
    IsRequest(c, faulty, j, i);
    hide IntervalCommitted;
    hide Next;
    ChainInv(c, faulty, j);
    ChainGrows(c, faulty, j.chain, j'.chain, i, Request);
    Steps(c, faulty, j, j', Chain(i, Request));
  }

  /** And takes it. */
  lemma Checkpoints(c: NetworkConfig, faulty: set<NodeId>, j: Joint, i: NodeId, value: nat) returns (j': Joint)
    requires JointInv(c, faulty, j) && i in j.chain && (j.chain[i].phase == Delivered || j.chain[i].phase == Active)
    requires !j.chain[i].pending && IntervalCommitted(c, j, i)
    ensures j' == j.(chain := j.chain[i := CheckpointedState(c, RequestedState(j.chain[i]), value)])
    ensures Reaches(c, faulty, j, j') && JointInv(c, faulty, j') && NetworkGrows(j.chain, j'.chain)
  {
    hide JointInv;
    hide Reaches;
    hide NetworkGrows;
    hide IntervalCommitted;
    var asked := RequestedState(j.chain[i]);
    var after := CheckpointedState(c, asked, value);
    assert Takes(c, j.chain[i], asked, Request) && Takes(c, asked, after, Checkpointed(value));
    hide Takes;
    hide RequestedState;
    hide CheckpointedState;
    var j1 := j.(chain := j.chain[i := asked]);
    Requests(c, faulty, j, i);
    Moves(c, faulty, j1, i, after, Checkpointed(value));
    j' := j.(chain := j.chain[i := after]);
    assert j1.chain[i := after] == j'.chain;
    Follows(c, faulty, j, j1, j');
    GrowsOn(j.chain, j1.chain, j'.chain);
  }

  // ---------------------------------------------------------------- a path of one slot

  /** What a replica has logged for a slot by the time its sequence is in state `s`. */
  function Logged(r: Replica, slot: Slot, s: S.SeqState): Replica {
    AfterP(AfterQ(r, slot, S.Uninitialized, s), slot, S.Uninitialized, s)
  }

  /** Votes in a slot do not keep a replica from taking part in it. */
  lemma StillTakesPart(c: NetworkConfig, r: Replica, slot: Slot, s: S.SeqState)
    requires TakesPart(c, r, slot)
    ensures TakesPart(c, Logged(r, slot, s), slot)
  {
    hide Opened;
    var entry := QEntry(slot.seqNo, s.digest, s.batch);
    AppendKeepsOpened(r.log, entry, c.checkpointInterval, slot.seqNo);
    AppendKeepsOpened(AfterQ(r, slot, S.Uninitialized, s).log, PEntry(slot.seqNo, s.digest), c.checkpointInterval, slot.seqNo);
  }

  /** Once preprepared, digest and batch stay. */
  lemma ContentStays(c: NetworkConfig, faulty: set<NodeId>, owner: NodeId, net: TP.Network, i: NodeId, event: TP.Event)
    requires TP.Inv(c, faulty, owner, net) && i in net && TP.Enabled(net[i], event)
    ensures
      var s, s' := net[i].seq_, TP.Handle(net[i], event).seq_;
      && S.Rank(s'.phase) >= S.Rank(s.phase)
      && (AtLeast(s, S.Preprepared) ==> s'.digest == s.digest && s'.batch == s.batch)
  {
    SequenceMoves(c, faulty, owner, net, i, event);
    hide TP.Inv;
    hide S.Advance;
  }

  lemma LogsCompose(r: Replica, slot: Slot, s: S.SeqState, s': S.SeqState)
    requires S.Rank(s'.phase) >= S.Rank(s.phase)
    requires AtLeast(s, S.Preprepared) ==> s'.digest == s.digest && s'.batch == s.batch
    ensures var r1 := Logged(r, slot, s);
            AfterP(AfterQ(r1, slot, s.phase, s'), slot, s.phase, s') == Logged(r, slot, s')
  {
  }

  /** The joint state in which the slot's sequences are `net` and the replicas logged accordingly. */
  ghost function InSlot(j: Joint, slot: Slot, owner: NodeId, net: TP.Network): Joint {
    Joint(map i | i in j.chain :: if i in net then Logged(j.chain[i], slot, net[i].seq_) else j.chain[i],
          j.phases[slot := Instance(owner, net)])
  }

  lemma SlotLogs(c: NetworkConfig, faulty: set<NodeId>, r: Replica, slot: Slot, owner: NodeId, net: TP.Network, i: NodeId,
                 event: TP.Event)
    requires TP.Inv(c, faulty, owner, net) && i in net && TP.Enabled(net[i], event)
    ensures LogAll(Logged(r, slot, net[i].seq_), slot.seqNo, TP.Outcome(net[i], event).1) ==
            Logged(r, slot, TP.Handle(net[i], event).seq_)
  {
    hide TP.Inv;
    hide TP.Handle;
    hide TP.Outcome;
    hide TP.Enabled;
    hide LogAll;
    hide AfterP;
    hide AfterQ;
    var s, s' := net[i].seq_, TP.Handle(net[i], event).seq_;
    ContentStays(c, faulty, owner, net, i, event);
    LogsCompose(r, slot, s, s');
    LogsBetween(Logged(r, slot, s), slot, net[i], event);
  }

  lemma SlotStep(c: NetworkConfig, faulty: set<NodeId>, j: Joint, slot: Slot, owner: NodeId, net: TP.Network, net': TP.Network,
                 i: NodeId, event: TP.Event)
    requires TP.Inv(c, faulty, owner, net) && net.Keys == j.chain.Keys && i in j.chain && TakesPart(c, j.chain[i], slot)
    requires TP.Next(c, faulty, owner, net, net', i, event)
    ensures JointNext(c, faulty, InSlot(j, slot, owner, net), InSlot(j, slot, owner, net'), Phase(slot, i, event))
  {
    hide TP.Inv;
    hide TP.Deliverable;
    hide TP.Handle;
    hide TP.Outcome;
    hide TP.Enabled;
    hide TakesPart;
    hide LogAll;
    hide Logged;
    hide NodeSet;
    hide Owns;
    hide FreshNet;
    hide Next;
    SlotLogs(c, faulty, j.chain[i], slot, owner, net, i, event);
    StillTakesPart(c, j.chain[i], slot, net[i].seq_);
    var a, b := InSlot(j, slot, owner, net), InSlot(j, slot, owner, net');
    assert b.chain == a.chain[i := LogAll(a.chain[i], slot.seqNo, TP.Outcome(net[i], event).1)];
    assert b.phases == a.phases[slot := a.phases[slot].(net := net')];
    assert PhaseStep(c, faulty, a, b, slot, i, event);
  }

  lemma {:induction false} LiftPath(c: NetworkConfig, faulty: set<NodeId>, j: Joint, slot: Slot, owner: NodeId, q: set<NodeId>,
                                    path: seq<TP.Network>, t: nat)
    requires SR.IsPath(c, faulty, owner, q, path) && t < |path| && owner in NodeSet(c)
    requires path[0].Keys == j.chain.Keys && TP.Inv(c, faulty, owner, path[0])
    requires forall i :: i in q && i in j.chain ==> TakesPart(c, j.chain[i], slot)
    requires JointInv(c, faulty, InSlot(j, slot, owner, path[0]))
    ensures TP.Inv(c, faulty, owner, path[t]) && path[t].Keys == j.chain.Keys
    ensures JointInv(c, faulty, InSlot(j, slot, owner, path[t]))
    ensures Reaches(c, faulty, InSlot(j, slot, owner, path[0]), InSlot(j, slot, owner, path[t]))
  {
    hide JointInv;
    hide Reaches;
    hide TP.Inv;
    hide TakesPart;
    hide InSlot;
    hide NodeSet;
    if t == 0 {
      Stays(c, faulty, InSlot(j, slot, owner, path[0]));
    } else {
      LiftPath(c, faulty, j, slot, owner, q, path, t - 1);
      assert SR.Moves(c, faulty, owner, q, path[t - 1], path[t]);
      var i, event :| i in q && TP.Next(c, faulty, owner, path[t - 1], path[t], i, event);
      TP.NextKeepsInv(c, faulty, owner, path[t - 1], path[t], i, event);
      SlotStep(c, faulty, j, slot, owner, path[t - 1], path[t], i, event);
      hide TP.Next;
      var a, b := InSlot(j, slot, owner, path[t - 1]), InSlot(j, slot, owner, path[t]);
      Steps(c, faulty, a, b, Phase(slot, i, event));
      Follows(c, faulty, InSlot(j, slot, owner, path[0]), a, b);
    }
  }

  lemma FreshKeys(c: NetworkConfig, g: Network, owner: NodeId)
    ensures
      var net := FreshNet(c, g, owner);
      net.Keys == g.Keys && forall i :: i in net ==> net[i] == TP.Fresh(c, owner, i)
  {
  }

  lemma FreshIsUntouched(c: NetworkConfig, j: Joint, slot: Slot, owner: NodeId)
    ensures InSlot(j, slot, owner, FreshNet(c, j.chain, owner)) ==
            j.(phases := j.phases[slot := Instance(owner, FreshNet(c, j.chain, owner))])
  {
    var net := FreshNet(c, j.chain, owner);
    forall i | i in j.chain ensures Logged(j.chain[i], slot, net[i].seq_) == j.chain[i] {
    }
    assert InSlot(j, slot, owner, net).chain == j.chain;
  }

  /** Whatever replicas of `q` bring about at a new slot in which they take part, the joint machine does. */
  lemma LiftSlot(c: NetworkConfig, faulty: set<NodeId>, j: Joint, slot: Slot, owner: NodeId, q: set<NodeId>, net: TP.Network)
    requires JointInv(c, faulty, j) && slot !in j.phases && owner in NodeSet(c) && Owns(c, j.chain, slot, owner)
    requires forall i :: i in q && i in j.chain ==> TakesPart(c, j.chain[i], slot)
    requires SR.Reaches(c, faulty, owner, q, FreshNet(c, j.chain, owner), net)
    ensures Reaches(c, faulty, j, InSlot(j, slot, owner, net)) && JointInv(c, faulty, InSlot(j, slot, owner, net))
    ensures NetworkGrows(j.chain, InSlot(j, slot, owner, net).chain)
  {
    hide JointInv;
    hide Reaches;
    hide TakesPart;
    hide Owns;
    hide TP.Inv;
    var blank := FreshNet(c, j.chain, owner);
    var j0 := j.(phases := j.phases[slot := Instance(owner, blank)]);
    Steps(c, faulty, j, j0, Assign(slot, owner));
    FreshIsUntouched(c, j, slot, owner);
    ChainInv(c, faulty, j);
    FreshSlot(c, faulty, j.chain, slot, owner);
    hide FreshNet;
    SlotNet(c, faulty, j.chain, slot, Instance(owner, blank));
    hide InSlot;
    hide NodeSet;
    var path :| SR.Leads(c, faulty, owner, q, path, blank, net);
    LiftPath(c, faulty, j, slot, owner, q, path, |path| - 1);
    Follows(c, faulty, j, j0, InSlot(j, slot, owner, net));
    GrowsInSlot(j, slot, owner, net);
  }

  lemma SlotNet(c: NetworkConfig, faulty: set<NodeId>, g: Network, slot: Slot, x: Instance)
    requires SlotInv(c, faulty, g, slot, x) && Inv(c, faulty, g)
    ensures TP.Inv(c, faulty, x.owner, x.net) && x.net.Keys == g.Keys
  {
    FaultsBounded(c, faulty, g);
    hide Inv;
    hide Owns;
    NetKeys(c, faulty, x.owner, x.net);
  }

  lemma NetKeys(c: NetworkConfig, faulty: set<NodeId>, owner: NodeId, net: TP.Network)
    requires TP.Inv(c, faulty, owner, net)
    ensures net.Keys == NodeSet(c) - faulty
  {
    hide TP.ReplicaInv;
    hide TP.CommitInv;
    hide TP.Truthful;
  }

  lemma GrowsInSlot(j: Joint, slot: Slot, owner: NodeId, net: TP.Network)
    ensures NetworkGrows(j.chain, InSlot(j, slot, owner, net).chain)
  {
  }
}
